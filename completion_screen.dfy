/** The screen shown after an interview: it finds the session's résumé, or
    completes the interview to have one generated, and offers it for download. */
module Completion {
  import opened Js
  import opened Types
  import opened SessionQueries

  const SessionNotFound: string := "Сессия не найдена"
  const RetryCompletion: string := "Не удалось получить резюме. Попробуйте завершить интервью."
  const LoadFailed: string := "Ошибка загрузки резюме"
  const DefaultFilename: string := "resume.md"

  datatype Effect = GetSessions | CompleteInterview(sessionId: string)

  class CompletionScreen {
    const sessionId: Option<string>
    var resumeMarkdown: Option<string>
    var resumeFilename: string
    var isLoading: bool
    var isCompleting: bool
    var error: Option<string>
    var log: seq<Effect>

    constructor (sessionId: Option<string>)
      ensures this.sessionId == sessionId && resumeMarkdown == None && resumeFilename == DefaultFilename
      ensures isLoading && !isCompleting && error == None && log == []
    {
      this.sessionId := sessionId;
      resumeMarkdown := None;
      resumeFilename := DefaultFilename;
      isLoading := true;
      isCompleting := false;
      error := None;
      log := [];
    }

    /** `fetchResume()`: without a session id nothing is fetched. Otherwise
        the session list is fetched and the session looked up; a résumé
        stored with it is used as it is, and without one the interview is
        completed to obtain it. Loading ends on every path. */
    method FetchResume(sessionsReply: Reply<Page<Session>>, completeReply: Reply<CompleteResponse>)
      modifies this
      ensures !isLoading
      ensures sessionId.None? || sessionId.value == "" ==>
        isCompleting == old(isCompleting) && log == old(log) && error == old(error) && resumeMarkdown == old(resumeMarkdown)
        && resumeFilename == old(resumeFilename)
      ensures sessionId.Some? && sessionId.value != "" ==>
        var id := sessionId.value;
        |log| >= |old(log)| + 1 && log[..|old(log)| + 1] == old(log) + [GetSessions]
        && (sessionsReply.Fail? ==>
              !isCompleting && log == old(log) + [GetSessions]
              && error == Some(ErrorText(sessionsReply.thrown, LoadFailed))
              && resumeMarkdown == old(resumeMarkdown) && resumeFilename == old(resumeFilename))
        && (sessionsReply.Ok? ==>
              var found := LookupSession(sessionsReply.value, id);
              (found.NoDataField? ==> !isCompleting && log == old(log) + [GetSessions] && error == Some(TypeError.message)
                                      && resumeMarkdown == old(resumeMarkdown) && resumeFilename == old(resumeFilename))
              && (found.NotFound? ==> isCompleting == old(isCompleting) && log == old(log) + [GetSessions] && error == Some(SessionNotFound)
                                      && resumeMarkdown == old(resumeMarkdown) && resumeFilename == old(resumeFilename))
              && (found.Found? && HasStoredResume(found.session) ==>
                    isCompleting == old(isCompleting) && log == old(log) + [GetSessions] && error == None
                    && resumeMarkdown == found.session.resumeMarkdown && resumeFilename == StoredResumeFilename(id))
              && (found.Found? && !HasStoredResume(found.session) ==>
                    !isCompleting && log == old(log) + [GetSessions, CompleteInterview(id)]
                    && (completeReply.Ok? && completeReply.value.resumeMarkdown.Some? ==>
                          var file := completeReply.value.resumeMarkdown.value;
                          error == None && resumeMarkdown == Some(file.content)
                          && resumeFilename == (if file.filename == "" then DefaultFilename else file.filename))
                    && (completeReply.Fail? || completeReply.value.resumeMarkdown.None? ==>
                          error == Some(RetryCompletion) && resumeMarkdown == old(resumeMarkdown)
                          && resumeFilename == old(resumeFilename))))
    {
      if sessionId.None? || sessionId.value == "" {
        isLoading := false;
        return;
      }
      var id := sessionId.value;
      isLoading := true;
      error := None;
      log := log + [GetSessions];
      match sessionsReply {
        case Fail(t) =>
          error := Some(ErrorText(t, LoadFailed));
          isCompleting := false;
        case Ok(page) =>
          match LookupSession(page, id) {
            case NoDataField =>
              error := Some(ErrorText(TypeError, LoadFailed));
              isCompleting := false;
            case NotFound =>
              error := Some(SessionNotFound);
            case Found(session) =>
              if HasStoredResume(session) {
                resumeMarkdown := session.resumeMarkdown;
                resumeFilename := StoredResumeFilename(id);
              } else {
                isCompleting := true;
                log := log + [CompleteInterview(id)];
                if completeReply.Ok? && completeReply.value.resumeMarkdown.Some? {
                  var file := completeReply.value.resumeMarkdown.value;
                  resumeMarkdown := Some(file.content);
                  resumeFilename := if file.filename == "" then DefaultFilename else file.filename;
                } else {
                  // a failed request, or `resume_markdown.content` read of a missing field
                  error := Some(RetryCompletion);
                }
                isCompleting := false;
              }
          }
      }
      isLoading := false;
    }

    /** `handleDownloadMarkdown()`: nothing happens without markdown. */
    method HandleDownloadMarkdown() returns (d: Option<Download>)
      ensures d.Some? <==> resumeMarkdown.Some? && resumeMarkdown.value != ""
      ensures d.Some? ==> d.value == Download(resumeMarkdown.value, resumeFilename)
    {
      d := DownloadOf(resumeMarkdown, resumeFilename);
    }
  }
}
