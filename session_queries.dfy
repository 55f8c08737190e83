/** Queries the screens make over a loaded list of sessions: status counts,
    the first few sessions, a lookup by id, and the name of a stored résumé file. */
module SessionQueries {
  import opened Js
  import opened Types

  /** `sessions.filter(s => s.status === status).length`. */
  function CountStatus(s: seq<Session>, status: string): nat
    decreases |s|
  {
    if s == [] then 0 else (if s[0].status == status then 1 else 0) + CountStatus(s[1..], status)
  }

  /** Two different statuses never count more sessions than there are. */
  lemma {:induction false} TwoCountsBounded(s: seq<Session>, a: string, b: string)
    requires a != b
    ensures CountStatus(s, a) + CountStatus(s, b) <= |s|
    decreases |s|
  {
    if s != [] {
      TwoCountsBounded(s[1..], a, b);
    }
  }

  /** Three different statuses never count more sessions than there are. */
  lemma {:induction false} ThreeCountsBounded(s: seq<Session>, a: string, b: string, c: string)
    requires a != b && b != c && a != c
    ensures CountStatus(s, a) + CountStatus(s, b) + CountStatus(s, c) <= |s|
    decreases |s|
  {
    if s != [] {
      ThreeCountsBounded(s[1..], a, b, c);
    }
  }

  /** `sessions.slice(0, n)`. */
  function FirstSessions(s: seq<Session>, n: nat): (r: seq<Session>)
    ensures |r| == if |s| < n then |s| else n
    ensures forall i :: 0 <= i < |r| ==> r[i] == s[i]
  {
    if |s| < n then s else s[..n]
  }

  /** `sessions.find(s => s.id === id)`: the first session with the id. */
  function FindSession(s: seq<Session>, id: string): (r: Option<Session>)
    ensures r.None? <==> forall i :: 0 <= i < |s| ==> s[i].id != id
    ensures r.Some? ==> exists i :: 0 <= i < |s| && s[i] == r.value && r.value.id == id
                                    && forall j :: 0 <= j < i ==> s[j].id != id
    decreases |s|
  {
    if s == [] then None
    else if s[0].id == id then Some(s[0])
    else
      var r := FindSession(s[1..], id);
      assert forall i :: 1 <= i < |s| ==> s[i] == s[1..][i - 1];
      r
  }

  /** The file name given to a résumé stored with its session:
      `resume-${sessionId.slice(0, 8)}.md`. */
  function StoredResumeFilename(sessionId: string): (r: string)
    ensures StartsWith(r, "resume-") && |r| == 7 + (if |sessionId| < 8 then |sessionId| else 8) + 3
    ensures r[7..|r| - 3] == Prefix(sessionId, 8) && r[|r| - 3..] == ".md"
  {
    "resume-" + Prefix(sessionId, 8) + ".md"
  }

  /** A download of the markdown: its content and file name. */
  datatype Download = Download(content: string, filename: string)

  /** `if (resumeMarkdown) { ...download... }`: nothing without markdown. */
  function DownloadOf(markdown: Option<string>, filename: string): (d: Option<Download>)
    ensures d.Some? <==> markdown.Some? && markdown.value != ""
    ensures d.Some? ==> d.value.content == markdown.value && d.value.filename == filename
  {
    if markdown.Some? && markdown.value != "" then Some(Download(markdown.value, filename)) else None
  }

  /** `sessions.data.find(s => s.id === id)` on a list response: reading
      `find` of a missing `data` field raises a TypeError. */
  datatype Lookup = NoDataField | NotFound | Found(session: Session)

  function LookupSession(page: Page<Session>, id: string): (r: Lookup)
    ensures r.NoDataField? <==> page.data.None?
    ensures r.NotFound? <==> page.data.Some? && forall i :: 0 <= i < |page.data.value| ==> page.data.value[i].id != id
    ensures r.Found? ==> r.session in page.data.value && r.session.id == id
  {
    match page.data
    case None => NoDataField
    case Some(list) =>
      match FindSession(list, id)
      case None => NotFound
      case Some(s) => Found(s)
  }

  /** `session.resume_markdown` is truthy. */
  predicate HasStoredResume(s: Session) {
    s.resumeMarkdown.Some? && s.resumeMarkdown.value != ""
  }
}
