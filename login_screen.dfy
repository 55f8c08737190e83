/** The login form: a check that both fields are filled, then a simulated
    credential check one second later. */
module Login {
  import opened Js

  const FillAllFields: string := "Пожалуйста, заполните все поля"
  const WrongCredentials: string := "Неверный логин или пароль"
  const CheckDelayMs: nat := 1000

  /** Both fields hold more than white space. */
  predicate FieldsFilled(username: string, password: string) {
    !IsBlank(username) && !IsBlank(password)
  }

  /** The simulated check: admin/admin, or any user with the password
      "password"; the values are compared as typed, without trimming. */
  predicate CredentialsAccepted(username: string, password: string) {
    (username == "admin" && password == "admin") || password == "password"
  }

  lemma CredentialExamples()
    ensures CredentialsAccepted("admin", "admin") && CredentialsAccepted("anyone", "password")
    ensures !CredentialsAccepted("admin", "password1") && !CredentialsAccepted(" admin", "admin")
    ensures FieldsFilled("admin", "admin") && !FieldsFilled("admin", " \t")
  {
    assert Trim("admin") == "admin" by {
      assert LeadingSpace("admin") == 0;
      assert TrailingSpace("admin") == 0;
    }
    TrimProperties(" \t");
  }

  datatype Effect = ScheduleCheck(delayMs: nat) | OnLogin(username: string, password: string)

  class LoginScreen {
    var username: string
    var password: string
    var error: string
    var isLoading: bool
    /** The credentials the scheduled check will test, captured at submit. */
    var pending: Option<(string, string)>
    var log: seq<Effect>

    constructor ()
      ensures username == "" && password == "" && error == "" && !isLoading && pending == None && log == []
    {
      username, password, error := "", "", "";
      isLoading := false;
      pending := None;
      log := [];
    }

    method SetFields(u: string, p: string)
      modifies this
      ensures username == u && password == p
      ensures error == old(error) && isLoading == old(isLoading) && pending == old(pending) && log == old(log)
    {
      username, password := u, p;
    }

    /** `handleSubmit()`: the previous error is cleared; with a blank field
        the error is set and nothing else happens; otherwise loading starts
        and the check is scheduled. */
    method HandleSubmit()
      modifies this
      ensures username == old(username) && password == old(password)
      ensures !FieldsFilled(username, password) ==>
        error == FillAllFields && isLoading == old(isLoading) && pending == old(pending) && log == old(log)
      ensures FieldsFilled(username, password) ==>
        error == "" && isLoading && pending == Some((username, password))
        && log == old(log) + [ScheduleCheck(CheckDelayMs)]
    {
      error := "";
      if !FieldsFilled(username, password) {
        error := FillAllFields;
        return;
      }
      isLoading := true;
      pending := Some((username, password));
      log := log + [ScheduleCheck(CheckDelayMs)];
    }

    /** The scheduled check: accepted credentials are handed to `onLogin` as
        typed; rejected ones set the error and end loading. */
    method CheckFired()
      modifies this
      ensures username == old(username) && password == old(password) && pending == None
      ensures old(pending).None? ==> error == old(error) && isLoading == old(isLoading) && log == old(log)
      ensures old(pending).Some? && CredentialsAccepted(old(pending).value.0, old(pending).value.1) ==>
        log == old(log) + [OnLogin(old(pending).value.0, old(pending).value.1)]
        && error == old(error) && isLoading == old(isLoading)
      ensures old(pending).Some? && !CredentialsAccepted(old(pending).value.0, old(pending).value.1) ==>
        log == old(log) && error == WrongCredentials && !isLoading
    {
      match pending {
        case None =>
        case Some((u, p)) =>
          if CredentialsAccepted(u, p) {
            log := log + [OnLogin(u, p)];
          } else {
            error := WrongCredentials;
            isLoading := false;
          }
      }
      pending := None;
    }
  }
}
