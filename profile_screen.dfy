/** The profile screen: username and e-mail form, session statistics with
    upper-case statuses, and the three most recent sessions. */
module Profile {
  import opened Js
  import opened Types
  import opened SessionQueries

  const LoadFailed: string := "Ошибка загрузки профиля"
  const SaveFailed: string := "Ошибка обновления профиля"
  const RecentCount: nat := 3

  function GetStatusText(status: string): (r: string)
    ensures status == "COMPLETED" ==> r == "Завершено"
    ensures status == "IN_PROGRESS" ==> r == "В процессе"
    ensures status == "ABANDONED" ==> r == "Отменено"
    ensures status != "COMPLETED" && status != "IN_PROGRESS" && status != "ABANDONED" ==> r == status
  {
    if status == "COMPLETED" then "Завершено"
    else if status == "IN_PROGRESS" then "В процессе"
    else if status == "ABANDONED" then "Отменено"
    else status
  }

  datatype ProfileForm = ProfileForm(username: string, email: string)

  function FormOf(u: User): ProfileForm {
    ProfileForm(u.username, u.email)
  }

  datatype Effect =
    | GetProfile
    | GetSessions(limit: int, offset: int)
    | UpdateProfile(request: ProfileForm)
    | UpdateUser(user: User)

  class ProfileScreen {
    var user: Option<User>
    var sessions: seq<Session>
    var isEditing: bool
    var isLoading: bool
    var error: Option<string>
    var form: ProfileForm
    var log: seq<Effect>

    constructor ()
      ensures user == None && sessions == [] && !isEditing && isLoading && error == None
      ensures form == ProfileForm("", "") && log == []
    {
      user := None;
      sessions := [];
      isEditing := false;
      isLoading := true;
      error := None;
      form := ProfileForm("", "");
      log := [];
    }

    /** The counts shown: in progress, completed, abandoned. */
    function Statistics(): (r: (nat, nat, nat))
      reads this
      ensures r.0 + r.1 + r.2 <= |sessions|
      ensures r.0 == CountStatus(sessions, "IN_PROGRESS") && r.1 == CountStatus(sessions, "COMPLETED")
      ensures r.2 == CountStatus(sessions, "ABANDONED")
    {
      ThreeCountsBounded(sessions, "IN_PROGRESS", "COMPLETED", "ABANDONED");
      (CountStatus(sessions, "IN_PROGRESS"), CountStatus(sessions, "COMPLETED"), CountStatus(sessions, "ABANDONED"))
    }

    /** The "recent interviews" list: the first three sessions, in order. */
    function Recent(): (r: seq<Session>)
      reads this
      ensures |r| == if |sessions| < RecentCount then |sessions| else RecentCount
      ensures r == sessions[..|r|]
    {
      FirstSessions(sessions, RecentCount)
    }

    /** `loadProfileData()`: the error is not cleared first. */
    method LoadProfileData(reply: Reply<User>)
      modifies this
      ensures !isLoading && log == old(log) + [GetProfile]
      ensures reply.Ok? ==> user == Some(reply.value) && form == FormOf(reply.value) && error == old(error)
      ensures reply.Fail? ==> user == old(user) && form == old(form) && error == Some(ErrorText(reply.thrown, LoadFailed))
      ensures sessions == old(sessions) && isEditing == old(isEditing)
    {
      isLoading := true;
      log := log + [GetProfile];
      match reply {
        case Ok(u) =>
          user := Some(u);
          form := FormOf(u);
        case Fail(t) =>
          error := Some(ErrorText(t, LoadFailed));
      }
      isLoading := false;
    }

    /** `loadSessions()`: reads the page's `data` field, and a failure shows nothing. */
    method LoadSessions(reply: Reply<Page<Session>>)
      modifies this
      ensures log == old(log) + [GetSessions(50, 0)]
      ensures sessions == if reply.Ok? then reply.value.data.GetOr([]) else old(sessions)
      ensures user == old(user) && error == old(error) && form == old(form) && isLoading == old(isLoading)
      ensures isEditing == old(isEditing)
    {
      log := log + [GetSessions(50, 0)];
      if reply.Ok? {
        sessions := reply.value.data.GetOr([]);
      }
    }

    method StartEditing()
      modifies this
      ensures isEditing
      ensures user == old(user) && form == old(form) && error == old(error) && log == old(log) && sessions == old(sessions)
      ensures isLoading == old(isLoading)
    {
      isEditing := true;
    }

    method SetForm(f: ProfileForm)
      modifies this
      ensures form == f
      ensures user == old(user) && isEditing == old(isEditing) && error == old(error) && log == old(log)
      ensures sessions == old(sessions) && isLoading == old(isLoading)
    {
      form := f;
    }

    /** `handleSaveProfile()`: the form is sent as it is; success updates the
        user here and in the auth context and leaves edit mode. */
    method SaveProfile(reply: Reply<User>)
      modifies this
      ensures form == old(form) && sessions == old(sessions) && isLoading == old(isLoading)
      ensures reply.Ok? ==>
        user == Some(reply.value) && !isEditing && error == None
        && log == old(log) + [UpdateProfile(old(form)), UpdateUser(reply.value)]
      ensures reply.Fail? ==>
        user == old(user) && isEditing == old(isEditing) && error == Some(ErrorText(reply.thrown, SaveFailed))
        && log == old(log) + [UpdateProfile(old(form))]
    {
      error := None;
      log := log + [UpdateProfile(form)];
      match reply {
        case Ok(u) =>
          user := Some(u);
          log := log + [UpdateUser(u)];
          isEditing := false;
        case Fail(t) =>
          error := Some(ErrorText(t, SaveFailed));
      }
    }

    /** `handleCancelEdit()`. */
    method CancelEdit()
      modifies this
      ensures form == if old(user).Some? then FormOf(old(user).value) else old(form)
      ensures !isEditing && error == None
      ensures user == old(user) && log == old(log) && sessions == old(sessions) && isLoading == old(isLoading)
    {
      if user.Some? {
        form := FormOf(user.value);
      }
      isEditing := false;
      error := None;
    }
  }
}
