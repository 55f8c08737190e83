/** The settings screen: the profile form with first and last name, e-mail
    and phone, and the session statistics. */
module Settings {
  import opened Js
  import opened Types
  import opened SessionQueries

  const LoadFailed: string := "Ошибка загрузки профиля"
  const SaveFailed: string := "Ошибка сохранения профиля"

  datatype SettingsForm = SettingsForm(firstName: string, lastName: string, email: string, phone: string)

  /** The form filled from a user, a missing value becoming "". */
  function FormOf(u: User): SettingsForm {
    SettingsForm(u.firstName.GetOr(""), u.lastName.GetOr(""), u.email, u.phone.GetOr(""))
  }

  /** `value || undefined`. */
  function NonEmpty(s: string): Option<string> {
    if s == "" then None else Some(s)
  }

  /** The body of `updateProfile`; the e-mail has no place in it. */
  datatype ProfileUpdate = ProfileUpdate(firstName: Option<string>, lastName: Option<string>, phone: Option<string>)

  function UpdateRequest(f: SettingsForm): ProfileUpdate {
    ProfileUpdate(NonEmpty(f.firstName), NonEmpty(f.lastName), NonEmpty(f.phone))
  }

  /** Each of first name, last name and phone is sent exactly when it is
      non-empty, as typed; the e-mail field has no influence on the request. */
  lemma UpdateRequestSpec(f: SettingsForm, otherEmail: string)
    ensures UpdateRequest(f).firstName.Some? <==> f.firstName != ""
    ensures UpdateRequest(f).lastName.Some? <==> f.lastName != ""
    ensures UpdateRequest(f).phone.Some? <==> f.phone != ""
    ensures UpdateRequest(f).firstName.Some? ==> UpdateRequest(f).firstName.value == f.firstName
    ensures UpdateRequest(f).lastName.Some? ==> UpdateRequest(f).lastName.value == f.lastName
    ensures UpdateRequest(f).phone.Some? ==> UpdateRequest(f).phone.value == f.phone
    ensures UpdateRequest(f.(email := otherEmail)) == UpdateRequest(f)
  {
  }

  /** Saving an untouched form sends the user's own non-empty values back. */
  lemma UntouchedFormRequest(u: User)
    ensures UpdateRequest(FormOf(u)).firstName == if u.firstName == Some("") then None else u.firstName
    ensures UpdateRequest(FormOf(u)).lastName == if u.lastName == Some("") then None else u.lastName
    ensures UpdateRequest(FormOf(u)).phone == if u.phone == Some("") then None else u.phone
  {
  }

  datatype Effect =
    | GetProfile
    | GetSessions(limit: int, offset: int)
    | UpdateProfile(request: ProfileUpdate)
    | UpdateUser(user: User)

  class SettingsScreen {
    var user: Option<User>
    var sessions: seq<Session>
    var isLoading: bool
    var error: Option<string>
    var isEditing: bool
    var isSaving: bool
    var form: SettingsForm
    var log: seq<Effect>

    constructor ()
      ensures user == None && sessions == [] && isLoading && error == None && !isEditing && !isSaving
      ensures form == SettingsForm("", "", "", "") && log == []
    {
      user := None;
      sessions := [];
      isLoading := true;
      error := None;
      isEditing := false;
      isSaving := false;
      form := SettingsForm("", "", "", "");
      log := [];
    }

    /** The counts shown: in progress, completed, and all sessions. */
    function Statistics(): (r: (nat, nat, nat))
      reads this
      ensures r.0 + r.1 <= r.2 && r.2 == |sessions|
      ensures r.0 == CountStatus(sessions, "in_progress") && r.1 == CountStatus(sessions, "completed")
    {
      TwoCountsBounded(sessions, "in_progress", "completed");
      (CountStatus(sessions, "in_progress"), CountStatus(sessions, "completed"), |sessions|)
    }

    /** `loadProfileData()`: the user and the form on success; on failure the
        error, with the user unchanged. Loading ends either way. */
    method LoadProfileData(reply: Reply<User>)
      modifies this
      ensures !isLoading && log == old(log) + [GetProfile]
      ensures reply.Ok? ==> user == Some(reply.value) && form == FormOf(reply.value) && error == None
      ensures reply.Fail? ==> user == old(user) && form == old(form) && error == Some(ErrorText(reply.thrown, LoadFailed))
      ensures sessions == old(sessions) && isEditing == old(isEditing) && isSaving == old(isSaving)
    {
      isLoading := true;
      error := None;
      log := log + [GetProfile];
      match reply {
        case Ok(u) =>
          user := Some(u);
          form := FormOf(u);
        case Fail(t) =>
          error := Some(ErrorText(t, LoadFailed));
      }
      isLoading := false;
    }

    /** `loadSessions()`: a failure is only logged to the console. */
    method LoadSessions(reply: Reply<Page<Session>>)
      modifies this
      ensures log == old(log) + [GetSessions(10, 0)]
      ensures sessions == if reply.Ok? then reply.value.items.GetOr([]) else old(sessions)
      ensures user == old(user) && error == old(error) && form == old(form) && isLoading == old(isLoading)
      ensures isEditing == old(isEditing) && isSaving == old(isSaving)
    {
      log := log + [GetSessions(10, 0)];
      if reply.Ok? {
        sessions := reply.value.items.GetOr([]);
      }
    }

    method StartEditing()
      modifies this
      ensures isEditing
      ensures user == old(user) && form == old(form) && error == old(error) && log == old(log) && sessions == old(sessions)
      ensures isLoading == old(isLoading) && isSaving == old(isSaving)
    {
      isEditing := true;
    }

    method SetForm(f: SettingsForm)
      modifies this
      ensures form == f
      ensures user == old(user) && isEditing == old(isEditing) && error == old(error) && log == old(log)
      ensures sessions == old(sessions) && isLoading == old(isLoading) && isSaving == old(isSaving)
    {
      form := f;
    }

    /** `handleSaveProfile()`: the request carries the non-empty names and
        phone; success replaces the user, hands it to the auth context and
        leaves edit mode; failure keeps both and sets the error. */
    method SaveProfile(reply: Reply<User>)
      modifies this
      ensures !isSaving && form == old(form) && sessions == old(sessions) && isLoading == old(isLoading)
      ensures reply.Ok? ==>
        user == Some(reply.value) && !isEditing && error == None
        && log == old(log) + [UpdateProfile(UpdateRequest(old(form))), UpdateUser(reply.value)]
      ensures reply.Fail? ==>
        user == old(user) && isEditing == old(isEditing) && error == Some(ErrorText(reply.thrown, SaveFailed))
        && log == old(log) + [UpdateProfile(UpdateRequest(old(form)))]
    {
      isSaving := true;
      error := None;
      log := log + [UpdateProfile(UpdateRequest(form))];
      match reply {
        case Ok(u) =>
          user := Some(u);
          log := log + [UpdateUser(u)];
          isEditing := false;
        case Fail(t) =>
          error := Some(ErrorText(t, SaveFailed));
      }
      isSaving := false;
    }

    /** `handleCancelEdit()`. */
    method CancelEdit()
      modifies this
      ensures form == if old(user).Some? then FormOf(old(user).value) else old(form)
      ensures !isEditing && error == None
      ensures user == old(user) && log == old(log) && sessions == old(sessions) && isSaving == old(isSaving)
      ensures isLoading == old(isLoading)
    {
      if user.Some? {
        form := FormOf(user.value);
      }
      isEditing := false;
      error := None;
    }
  }
}
