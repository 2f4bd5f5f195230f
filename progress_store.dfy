/**
 * The persistence side of the session service: the `studentprogress` table of
 * runs and the `chatlogs` table, held in memory by a `Database` object.
 * `StudentProgressService.initializeOrResumeProgress`, `updateProgress`,
 * `resetModuleProgress`, `ChatService.loadChatHistory` / `saveChatMessage` and
 * `SessionService.initializeSession` are its methods. Fresh identifiers
 * (`crypto.randomUUID`) and the clock (`new Date()`) are parameters.
 */
module ProgressStore {
  import opened Wrappers
  import opened Records

  /** A row the resume query selects: an incomplete run of this user at this module. */
  predicate Resumable(q: StudentProgress, userId: string, moduleNumber: int) {
    q.userId == userId && q.moduleNumber == moduleNumber && !q.isComplete
  }

  /** `r` is a most recently updated resumable row of `rows`. */
  predicate IsLatestIncomplete(rows: seq<StudentProgress>, userId: string, moduleNumber: int, r: StudentProgress) {
    r in rows && Resumable(r, userId, moduleNumber)
    && forall q :: q in rows && Resumable(q, userId, moduleNumber) ==> q.updatedAt <= r.updatedAt
  }

  /** The resume query `… eq('is_complete', false) order('updated_at', desc) limit(1)`.
    * Among equally recent rows the earliest stored one is chosen. */
  function LatestIncomplete(rows: seq<StudentProgress>, userId: string, moduleNumber: int): (r: Option<StudentProgress>)
    ensures r.None? <==> forall q :: q in rows ==> !Resumable(q, userId, moduleNumber)
    ensures r.Some? ==> IsLatestIncomplete(rows, userId, moduleNumber, r.value)
    decreases |rows|
  {
    if rows == [] then None
    else
      var init := rows[..|rows| - 1];
      var q := rows[|rows| - 1];
      assert forall x :: x in rows <==> x in init || x == q;
      var best := LatestIncomplete(init, userId, moduleNumber);
      if Resumable(q, userId, moduleNumber) && (best.None? || q.updatedAt > best.value.updatedAt)
      then Some(q)
      else best
  }

  /** The row `initializeOrResumeProgress` inserts when there is nothing to resume. */
  function NewRun(id: string, userId: string, moduleNumber: int, runId: string, now: int): StudentProgress {
    StudentProgress(id, userId, moduleNumber, runId, 1, 1, false, now, now)
  }

  /** The resume query yields a row: it returned without error, and `.single()` found one.
    * `queryOk` is false when the query reported an error. */
  predicate Resumes(rows: seq<StudentProgress>, userId: string, moduleNumber: int, queryOk: bool) {
    queryOk && LatestIncomplete(rows, userId, moduleNumber).Some?
  }

  /** The table after `initializeOrResumeProgress` and the row it returns. Whenever the
    * resume query yields nothing, for lack of a row or because it failed, a run is
    * inserted; `insertOk` says whether that insert succeeded. `None`: the insert failed,
    * the table is unchanged and the error is thrown. */
  function InitOutcome(rows: seq<StudentProgress>, userId: string, moduleNumber: int,
                       newId: string, newRunId: string, now: int, queryOk: bool, insertOk: bool)
    : Option<(seq<StudentProgress>, StudentProgress)>
  {
    if Resumes(rows, userId, moduleNumber, queryOk) then Some((rows, LatestIncomplete(rows, userId, moduleNumber).value))
    else if insertOk then
      var r := NewRun(newId, userId, moduleNumber, newRunId, now);
      Some((rows + [r], r))
    else None
  }

  /** `updateProgress`: the rows with id `progressId` take the new position, completion
    * flag and update time. */
  function UpdateRows(rows: seq<StudentProgress>, progressId: string, p: int, s: int, isComplete: bool, now: int)
    : (r: seq<StudentProgress>)
    ensures |r| == |rows|
  {
    seq(|rows|, i requires 0 <= i < |rows| =>
      if rows[i].id == progressId
      then rows[i].(currentProblem := p, currentSubproblem := s, isComplete := isComplete, updatedAt := now)
      else rows[i])
  }

  /** The first statement of `resetModuleProgress`: refresh `updated_at` of the resumable rows. */
  function TouchResumable(rows: seq<StudentProgress>, userId: string, moduleNumber: int, now: int)
    : (r: seq<StudentProgress>)
    ensures |r| == |rows|
    ensures forall i :: 0 <= i < |rows| ==> r[i] == rows[i].(updatedAt := r[i].updatedAt)
    ensures forall i :: 0 <= i < |rows| ==> Resumable(r[i], userId, moduleNumber) == Resumable(rows[i], userId, moduleNumber)
    ensures forall i :: 0 <= i < |rows| ==> r[i].updatedAt == if Resumable(rows[i], userId, moduleNumber) then now else rows[i].updatedAt
  {
    seq(|rows|, i requires 0 <= i < |rows| =>
      if Resumable(rows[i], userId, moduleNumber) then rows[i].(updatedAt := now) else rows[i])
  }

  /** The entries of one run of one user at one module, in stored order. */
  function RunLogs(logs: seq<ChatLog>, userId: string, moduleNumber: int, runId: string): (r: seq<ChatLog>)
    ensures forall e :: e in r <==> e in logs && e.userId == userId && e.moduleNumber == moduleNumber && e.runId == runId
    decreases |logs|
  {
    if logs == [] then []
    else
      var e := logs[0];
      assert forall x :: x in logs <==> x == e || x in logs[1..];
      var rest := RunLogs(logs[1..], userId, moduleNumber, runId);
      if e.userId == userId && e.moduleNumber == moduleNumber && e.runId == runId then [e] + rest else rest
  }

  /** Ordered by `time_sent`, earliest first. */
  predicate SortedByTime(h: seq<ChatLog>) {
    forall i, j :: 0 <= i < j < |h| ==> h[i].timeSent <= h[j].timeSent
  }

  /** Every entry of `h` was sent no later than `t`. */
  predicate NoLaterThan(h: seq<ChatLog>, t: int) {
    forall i :: 0 <= i < |h| ==> h[i].timeSent <= t
  }

  lemma SortedAppend(h: seq<ChatLog>, e: ChatLog)
    requires SortedByTime(h) && NoLaterThan(h, e.timeSent)
    ensures SortedByTime(h + [e])
  {
  }

  lemma NoLaterThanPermuted(a: seq<ChatLog>, b: seq<ChatLog>, t: int)
    requires multiset(a) == multiset(b) && NoLaterThan(b, t)
    ensures NoLaterThan(a, t)
  {
    forall i | 0 <= i < |a| ensures a[i].timeSent <= t {
      assert a[i] in multiset(b);
      var j :| 0 <= j < |b| && b[j] == a[i];
    }
  }

  /** A sorted `h` with `e` placed after every entry sent no later than it. */
  function InsertByTime(h: seq<ChatLog>, e: ChatLog): (r: seq<ChatLog>)
    requires SortedByTime(h)
    ensures SortedByTime(r)
    ensures multiset(r) == multiset(h) + multiset{e}
    decreases |h|
  {
    if h == [] || h[|h| - 1].timeSent <= e.timeSent then
      SortedAppend(h, e);
      h + [e]
    else
      var init, last := h[..|h| - 1], h[|h| - 1];
      assert h == init + [last];
      var front := InsertByTime(init, e);
      assert NoLaterThan(init + [e], last.timeSent);
      NoLaterThanPermuted(front, init + [e], last.timeSent);
      SortedAppend(front, last);
      front + [last]
  }

  /** Insertion sort by `time_sent`, taking the entries in stored order, so that entries
    * sent at the same time keep their stored order. */
  function SortByTime(h: seq<ChatLog>): (r: seq<ChatLog>)
    ensures SortedByTime(r)
    ensures multiset(r) == multiset(h)
    decreases |h|
  {
    if h == [] then []
    else
      assert h == h[..|h| - 1] + [h[|h| - 1]];
      InsertByTime(SortByTime(h[..|h| - 1]), h[|h| - 1])
  }

  /** `loadChatHistory`: the entries of one run of one user at one module, ordered by
    * `time_sent` ascending. */
  function ChatHistoryOf(logs: seq<ChatLog>, userId: string, moduleNumber: int, runId: string): (r: seq<ChatLog>)
    ensures SortedByTime(r)
    ensures multiset(r) == multiset(RunLogs(logs, userId, moduleNumber, runId))
    ensures forall e :: e in r <==> e in logs && e.userId == userId && e.moduleNumber == moduleNumber && e.runId == runId
  {
    var r := SortByTime(RunLogs(logs, userId, moduleNumber, runId));
    assert forall e :: e in r <==> e in multiset(r);
    r
  }

  /** A later entry stored first is loaded second: the order is by time, not by storage. */
  lemma LoadedInTimeOrder(a: ChatLog, b: ChatLog)
    requires a.userId == b.userId && a.moduleNumber == b.moduleNumber && a.runId == b.runId
    requires b.timeSent < a.timeSent
    ensures ChatHistoryOf([a, b], a.userId, a.moduleNumber, a.runId) == [b, a]
  {
    RunLogsOfPair(a, b);
    SortPair(a, b);
  }

  lemma RunLogsOfPair(a: ChatLog, b: ChatLog)
    requires a.userId == b.userId && a.moduleNumber == b.moduleNumber && a.runId == b.runId
    ensures RunLogs([a, b], a.userId, a.moduleNumber, a.runId) == [a, b]
  {
    assert [a, b][1..] == [b] && [b][1..] == [];
    assert RunLogs([b], a.userId, a.moduleNumber, a.runId) == [b];
  }

  lemma SortPair(a: ChatLog, b: ChatLog)
    requires b.timeSent < a.timeSent
    ensures SortByTime([a, b]) == [b, a]
  {
    assert [a, b][..1] == [a];
    SortSingle(a);
    InsertBeforeSingle(a, b);
  }

  lemma SortSingle(a: ChatLog)
    ensures SortByTime([a]) == [a]
  {
    assert [a][..0] == [];
  }

  lemma InsertBeforeSingle(a: ChatLog, b: ChatLog)
    requires b.timeSent < a.timeSent
    ensures InsertByTime([a], b) == [b, a]
  {
    assert [a][..0] == [];
  }

  /** What `initializeSession` does: the table after it, and the session it returns or
    * `None` when it throws (no signed-in user, a failed insert, or a failed history load,
    * `loadOk` false). A run inserted before a failed load stays in the table. */
  function SessionOutcome(rows: seq<StudentProgress>, logs: seq<ChatLog>, auth: Option<string>, moduleNumber: int,
                          newId: string, newRunId: string, now: int, queryOk: bool, insertOk: bool, loadOk: bool)
    : (r: (seq<StudentProgress>, Option<SessionData>))
    ensures auth.None? ==> r == (rows, None)
    ensures r.1.Some? ==>
              var session := r.1.value;
              auth.Some? && loadOk && session.userId == auth.value && session.progress in r.0
              && session.runId == session.progress.runId && session.progressId == session.progress.id
              && session.progress.userId == auth.value && session.progress.moduleNumber == moduleNumber
              && SortedByTime(session.chatHistory)
              && forall e :: e in session.chatHistory <==> e in logs && e.userId == auth.value
                                                           && e.moduleNumber == moduleNumber && e.runId == session.runId
  {
    if auth.None? then (rows, None)
    else
      match InitOutcome(rows, auth.value, moduleNumber, newId, newRunId, now, queryOk, insertOk)
      case None => (rows, None)
      case Some((rows1, run)) =>
        (rows1, if loadOk then Some(SessionData(auth.value, run.runId, run.id, run, ChatHistoryOf(logs, auth.value, moduleNumber, run.runId)))
                else None)
  }

  /** At most one incomplete run per user and module: the invariant the application keeps. */
  predicate AtMostOneIncomplete(rows: seq<StudentProgress>, userId: string, moduleNumber: int) {
    forall i, j ::
      (0 <= i < |rows| && 0 <= j < |rows| && Resumable(rows[i], userId, moduleNumber)
       && Resumable(rows[j], userId, moduleNumber)) ==> i == j
  }

  class Database {
    var progress: seq<StudentProgress>
    var chatLogs: seq<ChatLog>

    constructor ()
      ensures progress == [] && chatLogs == []
    {
      progress := [];
      chatLogs := [];
    }

    /** The resume query, scanning the table for the most recently updated resumable row. */
    method FindResumable(userId: string, moduleNumber: int) returns (r: Option<StudentProgress>)
      ensures r == LatestIncomplete(progress, userId, moduleNumber)
    {
      r := None;
      var i := 0;
      while i < |progress|
        invariant 0 <= i <= |progress|
        invariant r == LatestIncomplete(progress[..i], userId, moduleNumber)
      {
        var q := progress[i];
        assert progress[..i + 1][..i] == progress[..i];
        if Resumable(q, userId, moduleNumber) && (r.None? || q.updatedAt > r.value.updatedAt) {
          r := Some(q);
        }
        i := i + 1;
      }
      assert progress[..i] == progress;
    }

    /** `initializeOrResumeProgress`: resume the latest incomplete run when the resume query
      * succeeds with one, else insert a run at (1, 1); a failed insert throws (`None`). */
    method InitializeOrResumeProgress(userId: string, moduleNumber: int, newId: string, newRunId: string, now: int,
                                      queryOk: bool, insertOk: bool)
      returns (r: Option<StudentProgress>)
      modifies this
      ensures var o := InitOutcome(old(progress), userId, moduleNumber, newId, newRunId, now, queryOk, insertOk);
              (o.None? ==> r.None? && progress == old(progress))
              && (o.Some? ==> r == Some(o.value.1) && progress == o.value.0)
      ensures chatLogs == old(chatLogs)
    {
      var existing := FindResumable(userId, moduleNumber);
      if queryOk && existing.Some? {
        return existing;
      }
      if !insertOk {
        return None;
      }
      var run := NewRun(newId, userId, moduleNumber, newRunId, now);
      progress := progress + [run];
      r := Some(run);
    }

    /** `updateProgress` (the update statement keyed by row id). */
    method UpdateProgress(progressId: string, p: int, s: int, isComplete: bool, now: int)
      modifies this
      ensures progress == UpdateRows(old(progress), progressId, p, s, isComplete, now)
      ensures chatLogs == old(chatLogs)
    {
      progress := UpdateRows(progress, progressId, p, s, isComplete, now);
    }

    /** `resetModuleProgress`: refresh the resumable rows, then initialize-or-resume. */
    method ResetModuleProgress(userId: string, moduleNumber: int, newId: string, newRunId: string, now: int,
                               queryOk: bool, insertOk: bool)
      returns (r: Option<StudentProgress>)
      modifies this
      ensures var touched := TouchResumable(old(progress), userId, moduleNumber, now);
              var o := InitOutcome(touched, userId, moduleNumber, newId, newRunId, now, queryOk, insertOk);
              (o.None? ==> r.None? && progress == touched)
              && (o.Some? ==> r == Some(o.value.1) && progress == o.value.0)
      ensures chatLogs == old(chatLogs)
    {
      progress := TouchResumable(progress, userId, moduleNumber, now);
      r := InitializeOrResumeProgress(userId, moduleNumber, newId, newRunId, now, queryOk, insertOk);
    }

    /** `loadChatHistory`: the run's entries, earliest first; a failed query throws (`None`). */
    method LoadChatHistory(userId: string, moduleNumber: int, runId: string, loadOk: bool) returns (h: Option<seq<ChatLog>>)
      ensures !loadOk ==> h.None?
      ensures loadOk ==>
                h == Some(ChatHistoryOf(chatLogs, userId, moduleNumber, runId))
                && SortedByTime(h.value) && multiset(h.value) == multiset(RunLogs(chatLogs, userId, moduleNumber, runId))
    {
      if !loadOk {
        return None;
      }
      h := Some(ChatHistoryOf(chatLogs, userId, moduleNumber, runId));
    }

    /** `saveChatMessage`: append one entry; a missing or zero timestamp means "now". */
    method SaveChatMessage(newId: string, userId: string, moduleNumber: int, runId: string,
                           p: int, s: int, role: Role, message: string, timestamp: Option<int>, now: int)
      modifies this
      ensures chatLogs == old(chatLogs) + [ChatLog(newId, userId, moduleNumber, runId, p, s, role, message,
                                                   if timestamp.Some? && timestamp.value != 0 then timestamp.value else now)]
      ensures progress == old(progress)
    {
      var sent := if timestamp.Some? && timestamp.value != 0 then timestamp.value else now;
      chatLogs := chatLogs + [ChatLog(newId, userId, moduleNumber, runId, p, s, role, message, sent)];
    }

    /** `SessionService.initializeSession`; `auth` is the signed-in user, `None` when
      * `getCurrentUser` throws. */
    method InitializeSession(auth: Option<string>, moduleNumber: int, newId: string, newRunId: string, now: int,
                             queryOk: bool, insertOk: bool, loadOk: bool)
      returns (r: Option<SessionData>)
      modifies this
      ensures (progress, r) == SessionOutcome(old(progress), chatLogs, auth, moduleNumber, newId, newRunId, now,
                                              queryOk, insertOk, loadOk)
      ensures chatLogs == old(chatLogs)
    {
      if auth.None? {
        return None;
      }
      var userId := auth.value;
      var run := InitializeOrResumeProgress(userId, moduleNumber, newId, newRunId, now, queryOk, insertOk);
      if run.None? {
        return None;
      }
      var history := LoadChatHistory(userId, moduleNumber, run.value.runId, loadOk);
      if history.None? {
        return None;
      }
      r := Some(SessionData(userId, run.value.runId, run.value.id, run.value, history.value));
    }
  }

  // -----------------------------------------------------------------------
  // Properties of resume and create
  // -----------------------------------------------------------------------

  /** Initializing twice in a row returns the same run and leaves the table as the first
    * call left it, whatever identifiers and clock the second call is given, as long as both
    * resume queries succeed. */
  lemma ResumeIsIdempotent(rows: seq<StudentProgress>, userId: string, moduleNumber: int,
                           id1: string, run1: string, now1: int, queryOk1: bool, insertOk1: bool,
                           id2: string, run2: string, now2: int, insertOk2: bool)
    ensures var o1 := InitOutcome(rows, userId, moduleNumber, id1, run1, now1, queryOk1, insertOk1);
            o1.Some? && queryOk1 ==> InitOutcome(o1.value.0, userId, moduleNumber, id2, run2, now2, true, insertOk2) == o1
  {
    var o1 := InitOutcome(rows, userId, moduleNumber, id1, run1, now1, queryOk1, insertOk1);
    if o1.Some? && queryOk1 && !Resumes(rows, userId, moduleNumber, queryOk1) {
      var (rows1, r1) := o1.value;
      assert rows1[..|rows1| - 1] == rows;
      assert LatestIncomplete(rows1, userId, moduleNumber) == Some(r1);
    }
  }

  /** A resume query that succeeds with a row returns a most recently updated incomplete run
    * and leaves the table as it is. Otherwise, a successful insert appends exactly one row,
    * a fresh run at (1, 1), incomplete, with the given run id, and returns it; a failed insert
    * changes nothing. */
  lemma InitOutcomeSpec(rows: seq<StudentProgress>, userId: string, moduleNumber: int,
                        newId: string, newRunId: string, now: int, queryOk: bool, insertOk: bool)
    ensures var o := InitOutcome(rows, userId, moduleNumber, newId, newRunId, now, queryOk, insertOk);
            if queryOk && exists q :: q in rows && Resumable(q, userId, moduleNumber)
            then o.Some? && o.value.0 == rows && IsLatestIncomplete(rows, userId, moduleNumber, o.value.1)
            else if insertOk
            then o.Some? && o.value.0 == rows + [o.value.1] && o.value.1.runId == newRunId && o.value.1.id == newId
                 && o.value.1.currentProblem == 1 && o.value.1.currentSubproblem == 1 && !o.value.1.isComplete
                 && o.value.1.userId == userId && o.value.1.moduleNumber == moduleNumber
            else o.None?
  {
  }

  /** Initializing after a successful resume query keeps "at most one incomplete run per user
    * and module"; a failed insert leaves the table as it was. */
  lemma InitKeepsAtMostOneIncomplete(rows: seq<StudentProgress>, userId: string, moduleNumber: int,
                                     newId: string, newRunId: string, now: int, queryOk: bool, insertOk: bool)
    requires AtMostOneIncomplete(rows, userId, moduleNumber)
    ensures var o := InitOutcome(rows, userId, moduleNumber, newId, newRunId, now, queryOk, insertOk);
            o.Some? && queryOk ==> AtMostOneIncomplete(o.value.0, userId, moduleNumber)
  {
    var o := InitOutcome(rows, userId, moduleNumber, newId, newRunId, now, queryOk, insertOk);
    if o.Some? && queryOk && LatestIncomplete(rows, userId, moduleNumber).None? {
      var rows1 := o.value.0;
      forall i | 0 <= i < |rows| ensures !Resumable(rows1[i], userId, moduleNumber) {
        assert rows1[i] == rows[i] && rows[i] in rows;
      }
    }
  }

  /** When the resume query fails while an incomplete run exists, the insert adds a second
    * incomplete run of the same user and module. */
  lemma FailedQueryDuplicatesRun(rows: seq<StudentProgress>, userId: string, moduleNumber: int,
                                 newId: string, newRunId: string, now: int)
    requires exists q :: q in rows && Resumable(q, userId, moduleNumber)
    ensures var o := InitOutcome(rows, userId, moduleNumber, newId, newRunId, now, false, true);
            o.Some? && |o.value.0| == |rows| + 1 && !AtMostOneIncomplete(o.value.0, userId, moduleNumber)
  {
    var rows1 := InitOutcome(rows, userId, moduleNumber, newId, newRunId, now, false, true).value.0;
    var q :| q in rows && Resumable(q, userId, moduleNumber);
    var k :| 0 <= k < |rows| && rows[k] == q;
    assert rows1[k] == q && Resumable(rows1[|rows|], userId, moduleNumber);
  }

  /** `resetModuleProgress` resumes: when an incomplete run exists and the resume query
    * succeeds, no row is added and the returned run is one of the existing runs, now stamped
    * with the reset time. */
  lemma ResetResumesExistingRun(rows: seq<StudentProgress>, userId: string, moduleNumber: int,
                                newId: string, newRunId: string, now: int, queryOk: bool, insertOk: bool)
    requires exists q :: q in rows && Resumable(q, userId, moduleNumber)
    ensures var o := InitOutcome(TouchResumable(rows, userId, moduleNumber, now),
                                 userId, moduleNumber, newId, newRunId, now, queryOk, insertOk);
            queryOk ==>
              o.Some? && |o.value.0| == |rows| && o.value.1.updatedAt == now
              && exists q :: q in rows && Resumable(q, userId, moduleNumber) && o.value.1 == q.(updatedAt := now)
  {
    var touched := TouchResumable(rows, userId, moduleNumber, now);
    var q :| q in rows && Resumable(q, userId, moduleNumber);
    var k :| 0 <= k < |rows| && rows[k] == q;
    assert touched[k] in touched && Resumable(touched[k], userId, moduleNumber);
    var r := LatestIncomplete(touched, userId, moduleNumber).value;
    var j :| 0 <= j < |touched| && touched[j] == r;
    assert rows[j] in rows && Resumable(rows[j], userId, moduleNumber);
    assert r == rows[j].(updatedAt := now);
  }

  /** Marking a run complete removes it from what resume can pick. */
  lemma CompletedRunIsNotResumed(rows: seq<StudentProgress>, progressId: string, p: int, s: int,
                                 now: int, userId: string, moduleNumber: int)
    ensures var r := LatestIncomplete(UpdateRows(rows, progressId, p, s, true, now), userId, moduleNumber);
            r.Some? ==> r.value.id != progressId
  {
    var rows1 := UpdateRows(rows, progressId, p, s, true, now);
    var r := LatestIncomplete(rows1, userId, moduleNumber);
    if r.Some? {
      var j :| 0 <= j < |rows1| && rows1[j] == r.value;
    }
  }

  /** `updateProgress` touches only the rows with the given id, and on them only the
    * position, the completion flag and the update time. */
  lemma UpdateRowsFrame(rows: seq<StudentProgress>, progressId: string, p: int, s: int, c: bool, now: int, i: int)
    requires 0 <= i < |rows|
    ensures var r := UpdateRows(rows, progressId, p, s, c, now)[i];
            r.id == rows[i].id && r.userId == rows[i].userId && r.moduleNumber == rows[i].moduleNumber
            && r.runId == rows[i].runId && r.startedAt == rows[i].startedAt
            && (rows[i].id != progressId ==> r == rows[i])
            && (rows[i].id == progressId ==> r.currentProblem == p && r.currentSubproblem == s
                                             && r.isComplete == c && r.updatedAt == now)
  {
  }
}
