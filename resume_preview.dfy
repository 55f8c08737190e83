/** The résumé preview: it shows the markdown stored with a session and
    offers copying and downloading it. */
module Preview {
  import opened Js
  import opened Types
  import opened SessionQueries

  const NoSessionId: string := "Не указан ID сессии"
  const SessionNotFound: string := "Сессия не найдена"
  const NoResume: string := "Резюме не найдено для этой сессии"
  const LoadFailed: string := "Ошибка загрузки резюме"
  const DefaultFilename: string := "resume.md"
  const CopiedResetMs: nat := 2000

  datatype Effect = GetSessions | WriteClipboard(text: string) | ScheduleCopiedReset(delayMs: nat)

  class ResumePreview {
    const sessionId: Option<string>
    var resumeMarkdown: Option<string>
    var resumeFilename: string
    var isLoading: bool
    var error: Option<string>
    var copied: bool
    var log: seq<Effect>

    constructor (sessionId: Option<string>)
      ensures this.sessionId == sessionId && resumeMarkdown == None && resumeFilename == DefaultFilename
      ensures isLoading && error == None && !copied && log == []
    {
      this.sessionId := sessionId;
      resumeMarkdown := None;
      resumeFilename := DefaultFilename;
      isLoading := true;
      error := None;
      copied := false;
      log := [];
    }

    /** `fetchResume()`: without a session id the error says so and nothing
        is fetched; otherwise the session is looked up and its stored résumé
        shown, each missing piece with its own message. */
    method FetchResume(sessionsReply: Reply<Page<Session>>)
      modifies this
      ensures !isLoading && copied == old(copied)
      ensures sessionId.None? || sessionId.value == "" ==>
        log == old(log) && error == Some(NoSessionId) && resumeMarkdown == old(resumeMarkdown)
        && resumeFilename == old(resumeFilename)
      ensures sessionId.Some? && sessionId.value != "" ==>
        var id := sessionId.value;
        log == old(log) + [GetSessions]
        && (sessionsReply.Fail? ==>
              error == Some(ErrorText(sessionsReply.thrown, LoadFailed))
              && resumeMarkdown == old(resumeMarkdown)
              && resumeFilename == old(resumeFilename))
        && (sessionsReply.Ok? ==>
              var found := LookupSession(sessionsReply.value, id);
              (found.NoDataField? ==>
                    error == Some(TypeError.message) && resumeMarkdown == old(resumeMarkdown)
                    && resumeFilename == old(resumeFilename))
              && (found.NotFound? ==>
                    error == Some(SessionNotFound) && resumeMarkdown == old(resumeMarkdown)
                    && resumeFilename == old(resumeFilename))
              && (found.Found? && HasStoredResume(found.session) ==>
                    error == None && resumeMarkdown == found.session.resumeMarkdown
                    && resumeFilename == StoredResumeFilename(id))
              && (found.Found? && !HasStoredResume(found.session) ==>
                    error == Some(NoResume) && resumeMarkdown == old(resumeMarkdown)
                    && resumeFilename == old(resumeFilename)))
    {
      if sessionId.None? || sessionId.value == "" {
        isLoading := false;
        error := Some(NoSessionId);
        return;
      }
      var id := sessionId.value;
      isLoading := true;
      error := None;
      log := log + [GetSessions];
      match sessionsReply {
        case Fail(t) =>
          error := Some(ErrorText(t, LoadFailed));
        case Ok(page) =>
          match LookupSession(page, id) {
            case NoDataField =>
              error := Some(ErrorText(TypeError, LoadFailed));
            case NotFound =>
              error := Some(SessionNotFound);
            case Found(session) =>
              if HasStoredResume(session) {
                resumeMarkdown := session.resumeMarkdown;
                resumeFilename := StoredResumeFilename(id);
              } else {
                error := Some(NoResume);
              }
          }
      }
      isLoading := false;
    }

    /** `handleCopyMarkdown()`: with markdown, copy it, mark it copied and
        schedule the mark's reset; without, nothing. */
    method HandleCopyMarkdown()
      modifies this
      ensures resumeMarkdown.Some? && resumeMarkdown.value != "" ==>
        copied && log == old(log) + [WriteClipboard(resumeMarkdown.value), ScheduleCopiedReset(CopiedResetMs)]
      ensures resumeMarkdown.None? || resumeMarkdown.value == "" ==> copied == old(copied) && log == old(log)
      ensures resumeMarkdown == old(resumeMarkdown) && resumeFilename == old(resumeFilename)
      ensures error == old(error) && isLoading == old(isLoading)
    {
      if resumeMarkdown.Some? && resumeMarkdown.value != "" {
        log := log + [WriteClipboard(resumeMarkdown.value)];
        copied := true;
        log := log + [ScheduleCopiedReset(CopiedResetMs)];
      }
    }

    method CopiedResetFired()
      modifies this
      ensures !copied && log == old(log) && resumeMarkdown == old(resumeMarkdown) && error == old(error)
      ensures resumeFilename == old(resumeFilename) && isLoading == old(isLoading)
    {
      copied := false;
    }

    /** `handleDownloadMarkdown()`: nothing happens without markdown. */
    method HandleDownloadMarkdown() returns (d: Option<Download>)
      ensures d.Some? <==> resumeMarkdown.Some? && resumeMarkdown.value != ""
      ensures d.Some? ==> d.value == Download(resumeMarkdown.value, resumeFilename)
    {
      d := DownloadOf(resumeMarkdown, resumeFilename);
    }
  }
}
