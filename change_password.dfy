/** The change-password dialog: four ordered checks on the three fields, then
    the request. */
module ChangePassword {
  import opened Js

  const FillAllFields: string := "Заполните все поля"
  const TooShort: string := "Новый пароль должен содержать минимум 6 символов"
  const Mismatch: string := "Пароли не совпадают"
  const SameAsCurrent: string := "Новый пароль должен отличаться от текущего"
  const ChangeFailed: string := "Ошибка смены пароля"

  const MinLength: nat := 6
  /** Delay before the dialog closes itself after a successful change. */
  const CloseDelayMs: nat := 2000

  /** The validation chain of `handleSubmit`: the first check that fails
      decides the message; None when all pass. */
  function Validate(current: string, next: string, confirm: string): Option<string> {
    if current == "" || next == "" || confirm == "" then Some(FillAllFields)
    else if Utf16Length(next) < MinLength then Some(TooShort)
    else if next != confirm then Some(Mismatch)
    else if current == next then Some(SameAsCurrent)
    else None
  }

  /** The request is made exactly when all three fields are filled, the new
      password has at least 6 UTF-16 units, matches the confirmation and
      differs from the current one; otherwise the message names the first
      check that failed. */
  lemma ValidateSpec(current: string, next: string, confirm: string)
    ensures Validate(current, next, confirm) == None <==>
      current != "" && next != "" && confirm != "" && Utf16Length(next) >= MinLength
      && next == confirm && current != next
    ensures Validate(current, next, confirm) == Some(FillAllFields) <==> current == "" || next == "" || confirm == ""
    ensures Validate(current, next, confirm) == Some(TooShort) <==>
      current != "" && next != "" && confirm != "" && Utf16Length(next) < MinLength
    ensures Validate(current, next, confirm) == Some(Mismatch) <==>
      current != "" && next != "" && confirm != "" && Utf16Length(next) >= MinLength && next != confirm
    ensures Validate(current, next, confirm) == Some(SameAsCurrent) <==>
      current != "" && next != "" && confirm != "" && Utf16Length(next) >= MinLength && next == confirm && current == next
  {
  }

  /** A password of five characters is refused even when it is confirmed and next. */
  lemma ShortPasswordExample()
    ensures Validate("old-password", "abcde", "abcde") == Some(TooShort)
    ensures Validate("old-password", "abcdef", "abcdef") == None
  {
    assert Utf16Length("abcde") == 5;
    assert Utf16Length("abcdef") == 6;
  }

  datatype Effect =
    | ChangePasswordRequest(currentPassword: string, newPassword: string)
    | ScheduleClose(delayMs: nat)
    | OnOpenChange(open: bool)

  class ChangePasswordDialog {
    var currentPassword: string
    var newPassword: string
    var confirmPassword: string
    var error: Option<string>
    var success: bool
    var isLoading: bool
    var log: seq<Effect>

    constructor ()
      ensures currentPassword == "" && newPassword == "" && confirmPassword == ""
      ensures error == None && !success && !isLoading && log == []
    {
      currentPassword, newPassword, confirmPassword := "", "", "";
      error := None;
      success := false;
      isLoading := false;
      log := [];
    }

    method SetFields(current: string, next: string, confirm: string)
      modifies this
      ensures currentPassword == current && newPassword == next && confirmPassword == confirm
      ensures error == old(error) && success == old(success) && isLoading == old(isLoading) && log == old(log)
    {
      currentPassword, newPassword, confirmPassword := current, next, confirm;
    }

    /** `handleSubmit()`: a failed check sets its message and sends nothing.
        Otherwise the request is sent; success clears the fields and
        schedules the dialog to close, failure keeps the fields and sets the
        error; once the request is sent `isLoading` ends false. */
    method HandleSubmit(reply: Reply<()>)
      modifies this
      ensures var verdict := Validate(old(currentPassword), old(newPassword), old(confirmPassword));
        verdict.Some? ==>
          error == verdict && !success && log == old(log) && isLoading == old(isLoading)
          && currentPassword == old(currentPassword) && newPassword == old(newPassword)
          && confirmPassword == old(confirmPassword)
      ensures Validate(old(currentPassword), old(newPassword), old(confirmPassword)).None? ==>
        !isLoading
        && (reply.Ok? ==>
           success && error == None && currentPassword == "" && newPassword == "" && confirmPassword == ""
           && log == old(log) + [ChangePasswordRequest(old(currentPassword), old(newPassword)), ScheduleClose(CloseDelayMs)])
        && (reply.Fail? ==>
           !success && error == Some(ErrorText(reply.thrown, ChangeFailed))
           && currentPassword == old(currentPassword) && newPassword == old(newPassword)
           && confirmPassword == old(confirmPassword)
           && log == old(log) + [ChangePasswordRequest(old(currentPassword), old(newPassword))])
    {
      error := None;
      success := false;
      var verdict := Validate(currentPassword, newPassword, confirmPassword);
      if verdict.Some? {
        error := verdict;
        return;
      }
      isLoading := true;
      log := log + [ChangePasswordRequest(currentPassword, newPassword)];
      match reply {
        case Ok(_) =>
          success := true;
          currentPassword, newPassword, confirmPassword := "", "", "";
          log := log + [ScheduleClose(CloseDelayMs)];
        case Fail(t) =>
          error := Some(ErrorText(t, ChangeFailed));
      }
      isLoading := false;
    }

    /** The timer set after a successful change. */
    method CloseTimerFired()
      modifies this
      ensures !success && log == old(log) + [OnOpenChange(false)]
      ensures currentPassword == old(currentPassword) && newPassword == old(newPassword)
      ensures confirmPassword == old(confirmPassword) && error == old(error) && isLoading == old(isLoading)
    {
      log := log + [OnOpenChange(false)];
      success := false;
    }

    /** `handleCancel()`. */
    method HandleCancel()
      modifies this
      ensures currentPassword == "" && newPassword == "" && confirmPassword == ""
      ensures error == None && !success && isLoading == old(isLoading)
      ensures log == old(log) + [OnOpenChange(false)]
    {
      currentPassword, newPassword, confirmPassword := "", "", "";
      error := None;
      success := false;
      log := log + [OnOpenChange(false)];
    }
  }
}
