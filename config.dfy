/** Client configuration: the API base URL, the request timeout, the storage
    keys of the token store, and the REST endpoint paths. */
module Config {
  import opened Js

  const DefaultBaseUrl: string := "http://localhost:8000/v1"

  /** `import.meta.env.VITE_API_URL || default`: an unset or empty variable
      falls back to the local server. */
  function BaseUrl(env: Option<string>): (r: string)
    ensures env.Some? && env.value != "" ==> r == env.value
    ensures env.None? || env.value == "" ==> r == DefaultBaseUrl
  {
    if env.Some? && env.value != "" then env.value else DefaultBaseUrl
  }

  /** Request timeout in milliseconds. */
  const TimeoutMs: nat := 30000

  const ContentTypeHeader: string := "Content-Type"
  const JsonMediaType: string := "application/json"

  const AuthTokenKey: string := "auth_token"
  const UserDataKey: string := "user_data"
  const TokenExpiryKey: string := "token_expiry"

  const AuthLogin: string := "/auth/login"
  const AuthRegister: string := "/auth/register"
  const AuthLogout: string := "/auth/logout"
  const AuthRefresh: string := "/auth/refresh"
  const InterviewSessions: string := "/interview/sessions"
  const Resumes: string := "/resumes"
  const UserProfile: string := "/user/profile"
  const UserChangePassword: string := "/user/change-password"

  const FixedEndpoints: seq<string> := [AuthLogin, AuthRegister, AuthLogout, AuthRefresh,
    InterviewSessions, Resumes, UserProfile, UserChangePassword]

  function InterviewSession(id: string): (r: string)
    ensures StartsWith(r, InterviewSessions + "/") && r[|InterviewSessions| + 1..] == id
  {
    InterviewSessions + "/" + id
  }

  function InterviewMessages(id: string): string {
    InterviewSession(id) + "/messages"
  }

  function InterviewComplete(id: string): string {
    InterviewSession(id) + "/complete"
  }

  function InterviewSessionResume(id: string): string {
    InterviewSession(id) + "/resume"
  }

  function Resume(id: string): (r: string)
    ensures StartsWith(r, Resumes + "/") && r[|Resumes| + 1..] == id
  {
    Resumes + "/" + id
  }

  function ResumeDownload(id: string, format: string): string {
    Resume(id) + "/download?format=" + format
  }

  function ResumeRegenerate(id: string): string {
    Resume(id) + "/regenerate"
  }

  lemma StartsWithAppend(s: string, t: string, p: string)
    requires StartsWith(s, p)
    ensures StartsWith(s + t, p)
  {
    assert (s + t)[..|p|] == s[..|p|];
  }

  /** Every endpoint path begins with '/'. */
  lemma EndpointsStartWithSlash(id: string, format: string)
    ensures forall e :: e in FixedEndpoints ==> StartsWith(e, "/")
    ensures StartsWith(InterviewSession(id), "/")
    ensures StartsWith(InterviewMessages(id), "/") && StartsWith(InterviewComplete(id), "/")
    ensures StartsWith(InterviewSessionResume(id), "/")
    ensures StartsWith(Resume(id), "/") && StartsWith(ResumeDownload(id, format), "/")
    ensures StartsWith(ResumeRegenerate(id), "/")
  {
    StartsWithAppend(InterviewSession(id), "/messages", "/");
    StartsWithAppend(InterviewSession(id), "/complete", "/");
    StartsWithAppend(InterviewSession(id), "/resume", "/");
    StartsWithAppend(Resume(id), "/download?format=" + format, "/");
    assert ResumeDownload(id, format) == Resume(id) + ("/download?format=" + format);
    StartsWithAppend(Resume(id), "/regenerate", "/");
  }

  /** The per-session endpoints extend the session path, and the résumé
      endpoints extend the résumé path. */
  lemma EndpointsExtendResourcePath(id: string, format: string)
    ensures StartsWith(InterviewMessages(id), InterviewSession(id))
    ensures InterviewMessages(id)[|InterviewSession(id)|..] == "/messages"
    ensures StartsWith(InterviewComplete(id), InterviewSession(id))
    ensures InterviewComplete(id)[|InterviewSession(id)|..] == "/complete"
    ensures StartsWith(InterviewSessionResume(id), InterviewSession(id))
    ensures InterviewSessionResume(id)[|InterviewSession(id)|..] == "/resume"
    ensures StartsWith(ResumeDownload(id, format), Resume(id))
    ensures ResumeDownload(id, format)[|Resume(id)|..] == "/download?format=" + format
    ensures StartsWith(ResumeRegenerate(id), Resume(id))
    ensures ResumeRegenerate(id)[|Resume(id)|..] == "/regenerate"
  {
    assert ResumeDownload(id, format) == Resume(id) + ("/download?format=" + format);
  }

  /** Different ids give different paths, so a path names one session or résumé. */
  lemma EndpointsInjective(a: string, b: string)
    ensures InterviewSession(a) == InterviewSession(b) ==> a == b
    ensures Resume(a) == Resume(b) ==> a == b
  {
  }

  /** The three token-store keys are pairwise distinct. */
  lemma StorageKeysDistinct()
    ensures AuthTokenKey != UserDataKey && AuthTokenKey != TokenExpiryKey && UserDataKey != TokenExpiryKey
  {
  }
}
