/** The list of interview sessions: page-wise loading with "load more", the
    index of résumés by session, deletion behind a confirmation dialog, and
    completion of a session from its card. */
module Sessions {
  import opened Js
  import opened Types

  /** Sessions requested per page. */
  const Limit: nat := 10

  const LoadFailed: string := "Ошибка загрузки данных"
  const DeleteFailed: string := "Ошибка удаления сессии"
  const CompleteFailed: string := "Ошибка завершения сессии"
  const DownloadFailed: string := "Ошибка скачивания резюме"

  /** The requests the screen makes and the callbacks it calls, in order. */
  datatype Effect =
    | GetSessions(limit: int, offset: int)
    | GetResumes(limit: int, offset: int)
    | DeleteSession(id: string)
    | CompleteInterview(id: string)
    | DownloadResume(resumeId: string, format: string)
    | ContinueSession(sessionId: string)
    | StartNewInterview

  function Max(a: int, b: int): int {
    if a >= b then a else b
  }

  function Items<T>(page: Page<T>): seq<T> {
    page.items.GetOr([])
  }

  // ---------------------------------------------------------------------------
  // The résumé index

  /** `resumesBySession`: each résumé with a non-empty `sessionId` is stored
      under it, later entries overwriting earlier ones. */
  function ResumeIndex(items: seq<Resume>): map<string, Resume>
    decreases |items|
  {
    if items == [] then map[]
    else
      var before := ResumeIndex(items[..|items| - 1]);
      var r := items[|items| - 1];
      if r.sessionId != "" then before[r.sessionId := r] else before
  }

  /** The `forEach` loop that builds the index. */
  method BuildResumeIndex(items: seq<Resume>) returns (index: map<string, Resume>)
    ensures index == ResumeIndex(items)
  {
    index := map[];
    var i := 0;
    while i < |items|
      invariant 0 <= i <= |items|
      invariant index == ResumeIndex(items[..i])
    {
      if items[i].sessionId != "" {
        index := index[items[i].sessionId := items[i]];
      }
      i := i + 1;
      assert items[..i][..i - 1] == items[..i - 1];
    }
    assert items[..|items|] == items;
  }

  /** `items[i]` is the last résumé for session `k`. */
  predicate IsLastFor(items: seq<Resume>, k: string, i: int) {
    0 <= i < |items| && items[i].sessionId == k && forall j :: i < j < |items| ==> items[j].sessionId != k
  }

  /** A session has an entry exactly when it is non-empty and some résumé
      names it, and the entry is the last such résumé. */
  lemma {:induction false} ResumeIndexSpec(items: seq<Resume>, k: string)
    ensures k in ResumeIndex(items) <==> k != "" && exists i :: 0 <= i < |items| && items[i].sessionId == k
    ensures k in ResumeIndex(items) ==> exists i :: IsLastFor(items, k, i) && ResumeIndex(items)[k] == items[i]
    decreases |items|
  {
    if items != [] {
      var n := |items|;
      var init := items[..n - 1];
      ResumeIndexSpec(init, k);
      assert forall i :: 0 <= i < n - 1 ==> init[i] == items[i];
      if items[n - 1].sessionId == k && k != "" {
        assert IsLastFor(items, k, n - 1);
      } else if k in ResumeIndex(items) {
        var i :| IsLastFor(init, k, i) && ResumeIndex(init)[k] == init[i];
        assert IsLastFor(items, k, i);
      }
    }
  }

  /** Some résumé names the non-empty session `k`. */
  predicate HasResumeFor(items: seq<Resume>, k: string) {
    k != "" && exists i :: 0 <= i < |items| && items[i].sessionId == k
  }

  /** The keys of the index are exactly the sessions some résumé names. */
  lemma ResumeIndexKeys(items: seq<Resume>)
    ensures forall k :: k in ResumeIndex(items) <==> HasResumeFor(items, k)
  {
    forall k {
      ResumeIndexSpec(items, k);
    }
  }

  // ---------------------------------------------------------------------------
  // Deletion

  /** `sessions.filter(s => s.id !== id)`. */
  function WithoutSession(s: seq<Session>, id: string): seq<Session>
    decreases |s|
  {
    if s == [] then [] else (if s[0].id != id then [s[0]] else []) + WithoutSession(s[1..], id)
  }

  /** The filter keeps each session with another id as often as before and
      drops every session with this id; it changes nothing when no session
      has the id. */
  lemma {:induction false} WithoutSessionCounts(s: seq<Session>, id: string, x: Session)
    ensures multiset(WithoutSession(s, id))[x] == if x.id == id then 0 else multiset(s)[x]
    ensures (forall i :: 0 <= i < |s| ==> s[i].id != id) ==> WithoutSession(s, id) == s
    decreases |s|
  {
    if s != [] {
      WithoutSessionCounts(s[1..], id, x);
      assert s == [s[0]] + s[1..];
      assert multiset(s) == multiset{s[0]} + multiset(s[1..]);
      var rest := WithoutSession(s[1..], id);
      assert multiset((if s[0].id != id then [s[0]] else []) + rest)
          == multiset(if s[0].id != id then [s[0]] else []) + multiset(rest);
    }
  }

  /** A session is kept exactly when it was in the list and has another id. */
  lemma WithoutSessionMembers(s: seq<Session>, id: string, x: Session)
    ensures x in WithoutSession(s, id) <==> x in s && x.id != id
  {
    WithoutSessionCounts(s, id, x);
    assert x in WithoutSession(s, id) <==> multiset(WithoutSession(s, id))[x] > 0;
    assert x in s <==> multiset(s)[x] > 0;
  }

  function GetStatusText(status: string): (r: string)
    ensures status == "completed" ==> r == "Завершено"
    ensures status == "in_progress" ==> r == "В процессе"
    ensures status == "abandoned" ==> r == "Отменено"
    ensures status != "completed" && status != "in_progress" && status != "abandoned" ==> r == status
  {
    if status == "completed" then "Завершено"
    else if status == "in_progress" then "В процессе"
    else if status == "abandoned" then "Отменено"
    else status
  }

  /** A card opens its session only while the interview is in progress. */
  predicate IsClickable(session: Session) {
    session.status == "in_progress"
  }

  class SessionsScreen {
    var sessions: seq<Session>
    var resumes: map<string, Resume>
    var isLoading: bool
    var isLoadingMore: bool
    var error: Option<string>
    var hasMore: bool
    var total: int
    var showDeleteDialog: bool
    var sessionToDelete: Option<string>
    var log: seq<Effect>

    constructor ()
      ensures sessions == [] && resumes == map[] && isLoading && !isLoadingMore
      ensures error == None && !hasMore && total == 0
      ensures !showDeleteDialog && sessionToDelete == None && log == []
    {
      sessions := [];
      resumes := map[];
      isLoading := true;
      isLoadingMore := false;
      error := None;
      hasMore := false;
      total := 0;
      showDeleteDialog := false;
      sessionToDelete := None;
      log := [];
    }

    /** The "load more" button is shown when the server has more, nothing is
        loading and the list is not empty. */
    predicate ShowLoadMore()
      reads this
    {
      hasMore && !isLoading && |sessions| > 0
    }

    /** The "complete" button is shown on an in-progress session without a résumé. */
    predicate ShowCompleteButton(session: Session)
      reads this
    {
      session.status == "in_progress" && session.id !in resumes
    }

    /** `loadData(reset)`: a refresh asks for the first page and replaces the
        list, "load more" asks from the current length and appends. The
        résumés are then fetched for at least as many sessions as are loaded;
        a failure there keeps the new page and reports the error. */
    method LoadData(reset: bool, sessionsReply: Reply<Page<Session>>, resumesReply: Reply<Page<Resume>>)
      modifies this
      ensures !isLoading && !isLoadingMore
      ensures showDeleteDialog == old(showDeleteDialog) && sessionToDelete == old(sessionToDelete)
      ensures sessionsReply.Fail? ==>
        sessions == old(sessions) && resumes == old(resumes) && total == old(total) && hasMore == old(hasMore)
        && error == Some(ErrorText(sessionsReply.thrown, LoadFailed))
        && log == old(log) + [GetSessions(Limit, if reset then 0 else |old(sessions)|)]
      ensures sessionsReply.Ok? ==>
        var page := sessionsReply.value;
        sessions == (if reset then Items(page) else old(sessions) + Items(page))
        && total == page.total.GetOr(0) && hasMore == page.hasMore.GetOr(false)
        && log == old(log) + [GetSessions(Limit, if reset then 0 else |old(sessions)|),
                              GetResumes(Max(|sessions|, 10), 0)]
        && (resumesReply.Ok? ==> resumes == ResumeIndex(Items(resumesReply.value)) && error == None)
        && (resumesReply.Fail? ==> resumes == old(resumes) && error == Some(ErrorText(resumesReply.thrown, LoadFailed)))
      ensures sessionsReply.Ok? && !reset ==>
        sessions[..|old(sessions)|] == old(sessions) && sessions[|old(sessions)|..] == Items(sessionsReply.value)
      ensures sessionsReply.Ok? ==>
        (ShowLoadMore() <==> sessionsReply.value.hasMore.GetOr(false)
                             && (Items(sessionsReply.value) != [] || (!reset && old(sessions) != [])))
      ensures sessionsReply.Fail? ==> (ShowLoadMore() <==> old(hasMore) && old(sessions) != [])
      ensures sessionsReply.Ok? && resumesReply.Ok? ==>
        forall session: Session :: ShowCompleteButton(session) <==>
          session.status == "in_progress" && !HasResumeFor(Items(resumesReply.value), session.id)
    {
      if reset {
        isLoading := true;
      } else {
        isLoadingMore := true;
      }
      error := None;
      var offset := if reset then 0 else |sessions|;
      log := log + [GetSessions(Limit, offset)];
      match sessionsReply {
        case Fail(t) =>
          error := Some(ErrorText(t, LoadFailed));
        case Ok(page) =>
          var newSessions := Items(page);
          var updated := if reset then newSessions else sessions + newSessions;
          sessions := updated;
          total := page.total.GetOr(0);
          hasMore := page.hasMore.GetOr(false);
          log := log + [GetResumes(Max(|updated|, 10), 0)];
          match resumesReply {
            case Fail(t) =>
              error := Some(ErrorText(t, LoadFailed));
            case Ok(resumePage) =>
              var index := BuildResumeIndex(Items(resumePage));
              resumes := index;
              ResumeIndexKeys(Items(resumePage));
          }
      }
      isLoading := false;
      isLoadingMore := false;
    }

    /** `handleDeleteSession(id)`: remember the target and open the dialog. */
    method HandleDeleteSession(id: string)
      modifies this
      ensures sessionToDelete == Some(id) && showDeleteDialog
      ensures sessions == old(sessions) && total == old(total) && log == old(log) && error == old(error)
      ensures resumes == old(resumes) && hasMore == old(hasMore)
      ensures isLoading == old(isLoading) && isLoadingMore == old(isLoadingMore)
    {
      sessionToDelete := Some(id);
      showDeleteDialog := true;
    }

    /** The dialog's cancel button. */
    method CancelDelete()
      modifies this
      ensures sessionToDelete == None && !showDeleteDialog
      ensures sessions == old(sessions) && total == old(total) && log == old(log) && error == old(error)
      ensures resumes == old(resumes) && hasMore == old(hasMore)
      ensures isLoading == old(isLoading) && isLoadingMore == old(isLoadingMore)
    {
      showDeleteDialog := false;
      sessionToDelete := None;
    }

    /** `confirmDeleteSession()`: with no target nothing happens; otherwise the
        session is deleted on the server, and on success removed from the list
        with the total lowered by one (never below zero). Either way the dialog
        closes. */
    method ConfirmDelete(reply: Reply<()>)
      modifies this
      ensures resumes == old(resumes) && hasMore == old(hasMore)
      ensures isLoading == old(isLoading) && isLoadingMore == old(isLoadingMore)
      ensures old(sessionToDelete).None? || old(sessionToDelete).value == "" ==>
        sessions == old(sessions) && total == old(total) && error == old(error) && log == old(log)
        && showDeleteDialog == old(showDeleteDialog) && sessionToDelete == old(sessionToDelete)
      ensures old(sessionToDelete).Some? && old(sessionToDelete).value != "" ==>
        var target := old(sessionToDelete).value;
        log == old(log) + [DeleteSession(target)] && !showDeleteDialog && sessionToDelete == None
        && (reply.Ok? ==> sessions == WithoutSession(old(sessions), target) && total == Max(0, old(total) - 1)
                          && error == old(error))
        && (reply.Fail? ==> sessions == old(sessions) && total == old(total)
                            && error == Some(ErrorText(reply.thrown, DeleteFailed)))
    {
      if sessionToDelete.None? || sessionToDelete.value == "" {
        return;
      }
      var target := sessionToDelete.value;
      log := log + [DeleteSession(target)];
      match reply {
        case Ok(_) =>
          sessions := WithoutSession(sessions, target);
          total := Max(0, total - 1);
        case Fail(t) =>
          error := Some(ErrorText(t, DeleteFailed));
      }
      showDeleteDialog := false;
      sessionToDelete := None;
    }

    /** `handleCompleteSession(id)`: complete the interview, then refresh the list. */
    method CompleteSession(id: string, reply: Reply<()>,
                           sessionsReply: Reply<Page<Session>>, resumesReply: Reply<Page<Resume>>)
      modifies this
      ensures reply.Fail? ==>
        sessions == old(sessions) && resumes == old(resumes) && total == old(total) && hasMore == old(hasMore)
        && isLoading == old(isLoading) && isLoadingMore == old(isLoadingMore)
        && error == Some(ErrorText(reply.thrown, CompleteFailed)) && log == old(log) + [CompleteInterview(id)]
      ensures reply.Ok? ==>
        |log| > |old(log)| + 1 && log[..|old(log)| + 2] == old(log) + [CompleteInterview(id), GetSessions(Limit, 0)]
        && !isLoading && !isLoadingMore
        && (sessionsReply.Ok? ==> sessions == Items(sessionsReply.value))
      ensures showDeleteDialog == old(showDeleteDialog) && sessionToDelete == old(sessionToDelete)
    {
      log := log + [CompleteInterview(id)];
      match reply {
        case Fail(t) =>
          error := Some(ErrorText(t, CompleteFailed));
        case Ok(_) =>
          ghost var before := log;
          LoadData(true, sessionsReply, resumesReply);
          assert log[..|before| + 1] == before + [GetSessions(Limit, 0)];
      }
    }

    /** `handleDownloadResume(id, format)`: only a failure changes the screen. */
    method DownloadResume(resumeId: string, format: string, reply: Reply<()>)
      modifies this
      ensures log == old(log) + [Effect.DownloadResume(resumeId, format)]
      ensures sessions == old(sessions) && resumes == old(resumes) && total == old(total) && hasMore == old(hasMore)
      ensures error == if reply.Fail? then Some(ErrorText(reply.thrown, DownloadFailed)) else old(error)
      ensures showDeleteDialog == old(showDeleteDialog) && sessionToDelete == old(sessionToDelete)
      ensures isLoading == old(isLoading) && isLoadingMore == old(isLoadingMore)
    {
      log := log + [Effect.DownloadResume(resumeId, format)];
      if reply.Fail? {
        error := Some(ErrorText(reply.thrown, DownloadFailed));
      }
    }

    /** A click on a card continues the session only when it is clickable. */
    method ClickCard(session: Session)
      modifies this
      ensures log == if IsClickable(session) then old(log) + [ContinueSession(session.id)] else old(log)
      ensures sessions == old(sessions) && error == old(error) && total == old(total)
      ensures resumes == old(resumes) && hasMore == old(hasMore)
      ensures isLoading == old(isLoading) && isLoadingMore == old(isLoadingMore)
      ensures showDeleteDialog == old(showDeleteDialog) && sessionToDelete == old(sessionToDelete)
    {
      if IsClickable(session) {
        log := log + [ContinueSession(session.id)];
      }
    }
  }
}
