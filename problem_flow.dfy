/**
 * The problem-flow hook: it loads the session and the module's units, keeps
 * the local chat history and the position (problem, subproblem, complete),
 * validates each answer with the AI tutor and advances on a correct verdict,
 * and restarts a module.
 *
 * Requests complete one at a time; every awaited call is a step of the
 * method that makes it. Fresh identifiers (`crypto.randomUUID`) are drawn
 * from a counter; the AI tutor's answer is an `AiOutcome` parameter.
 */
module ProblemFlow {
  import opened Wrappers
  import opened Text
  import opened Records
  import opened WeekContentService
  import opened ProgressStore
  import opened StreamServer
  import StreamClient

  datatype ProblemState = ProblemState(currentProblemIndex: int, currentSubproblemIndex: int, isComplete: bool)

  const InitialState: ProblemState := ProblemState(1, 1, false)

  const CompletionText: string := "Well Done! You have completed all problems for this week. Keep up the great work!"

  /** A request to the AI tutor as the hook builds it. */
  datatype AiRequest = AiRequest(
    action: string,
    problem: string,
    subproblem: string,
    currentState: Option<ProblemState>,
    chatHistory: seq<ChatLog>)

  /** What `APIService.sendToAI` resolved to, when, and whether saving the reply succeeded
    * (`saved` is false when `saveMessage` throws). */
  datatype AiOutcome = AiOutcome(reply: StreamClient.Reply, finishedAt: int, saved: bool)

  /** The verdict `sendToAI` returns: a failed save lands in its `catch`, which answers
    * incorrect. */
  function Verdict(outcome: AiOutcome): (r: bool)
    ensures r ==> outcome.reply.isCorrect
    ensures !outcome.saved ==> !r
  {
    outcome.saved && outcome.reply.isCorrect
  }

  /** The reply entry the store holds after `sendToAI`: one entry when the save succeeded,
    * none when it failed. */
  function SavedReply(outcome: AiOutcome, e: ChatLog): (r: seq<ChatLog>)
    ensures |r| <= 1
    ensures outcome.saved <==> r == [e]
  {
    if outcome.saved then [e] else []
  }

  // -----------------------------------------------------------------------
  // Fresh identifiers
  // -----------------------------------------------------------------------

  /** The n-th identifier handed out. */
  function IdOf(n: nat): string {
    "id-" + NatToString(n)
  }

  lemma IdsDistinct()
    ensures forall a: nat, b: nat :: IdOf(a) == IdOf(b) ==> a == b
  {
    forall a: nat, b: nat | IdOf(a) == IdOf(b) ensures a == b {
      assert NatToString(a) == IdOf(a)[3..] == IdOf(b)[3..] == NatToString(b);
      NatToStringRoundTrip(a);
      NatToStringRoundTrip(b);
    }
  }

  /** No entry carries an identifier from `n` on. */
  ghost predicate AllIssuedBefore(h: seq<ChatLog>, n: nat) {
    forall i, k: nat :: 0 <= i < |h| && n <= k ==> h[i].id != IdOf(k)
  }

  /** Every store, however many logs it holds, leaves some counter value past all its identifiers. */
  lemma {:induction false} FreshStartExists(h: seq<ChatLog>)
    ensures exists n: nat :: AllIssuedBefore(h, n)
  {
    if h == [] {
      assert AllIssuedBefore(h, 0);
    } else {
      var front := h[..|h| - 1];
      FreshStartExists(front);
      var n: nat :| AllIssuedBefore(front, n);
      var e := h[|h| - 1];
      var bound: nat := n;
      if exists m: nat :: e.id == IdOf(m) {
        var m: nat :| e.id == IdOf(m);
        bound := if m + 1 > n then m + 1 else n;
        IdsDistinct();
      }
      forall i, k: nat | 0 <= i < |h| && bound <= k ensures h[i].id != IdOf(k) {
        if i < |h| - 1 {
          assert h[i] == front[i];
        }
      }
      assert AllIssuedBefore(h, bound);
    }
  }

  // -----------------------------------------------------------------------
  // The advance rule of moveToNextProblem
  // -----------------------------------------------------------------------

  /** `-Infinity` (no units) compares below every number. */
  predicate Below(x: int, bound: Option<int>) {
    bound.Some? && x < bound.value
  }

  /** The current position is the last one: neither another subproblem of this problem nor
    * another problem follows. */
  predicate IsLastPosition(units: seq<ContentUnit>, st: ProblemState) {
    !Below(st.currentSubproblemIndex, MaxSubproblemIndex(units, st.currentProblemIndex))
    && !Below(st.currentProblemIndex, MaxProblemIndex(units))
  }

  /** The state `moveToNextProblem` moves to. */
  function Advance(units: seq<ContentUnit>, st: ProblemState): (r: ProblemState)
  {
    if Below(st.currentSubproblemIndex, MaxSubproblemIndex(units, st.currentProblemIndex)) then
      st.(currentSubproblemIndex := st.currentSubproblemIndex + 1)
    else if Below(st.currentProblemIndex, MaxProblemIndex(units)) then
      st.(currentProblemIndex := st.currentProblemIndex + 1, currentSubproblemIndex := 1)
    else
      st.(isComplete := true)
  }

  predicate LexLess(a: ProblemState, b: ProblemState) {
    a.currentProblemIndex < b.currentProblemIndex
    || (a.currentProblemIndex == b.currentProblemIndex && a.currentSubproblemIndex < b.currentSubproblemIndex)
  }

  /** At the last position the advance only marks the run complete; anywhere else it moves
    * strictly forward, to the next subproblem of the problem or to subproblem 1 of the next
    * problem, without exceeding the largest index and keeping the completion flag. */
  lemma AdvanceSpec(units: seq<ContentUnit>, st: ProblemState)
    ensures var r := Advance(units, st);
            (IsLastPosition(units, st) ==> r == st.(isComplete := true))
            && (!IsLastPosition(units, st) ==>
                  LexLess(st, r) && r.isComplete == st.isComplete
                  && (r.currentProblemIndex == st.currentProblemIndex ==>
                        r.currentSubproblemIndex == st.currentSubproblemIndex + 1
                        && r.currentSubproblemIndex <= MaxSubproblemIndex(units, st.currentProblemIndex).value)
                  && (r.currentProblemIndex != st.currentProblemIndex ==>
                        r.currentProblemIndex == st.currentProblemIndex + 1 && r.currentSubproblemIndex == 1
                        && r.currentProblemIndex <= MaxProblemIndex(units).value))
  {
  }

  /** Advancing from the last subproblem of the last problem completes the run. */
  lemma LastUnitCompletes(units: seq<ContentUnit>, u: ContentUnit)
    requires u in units
    requires forall v :: v in units ==> v.problemIndex <= u.problemIndex
    requires forall v :: v in units && v.problemIndex == u.problemIndex ==> v.subproblemIndex <= u.subproblemIndex
    ensures Advance(units, ProblemState(u.problemIndex, u.subproblemIndex, false)).isComplete
  {
    MaxProblemIndexSpec(units);
    MaxSubproblemIndexSpec(units, u.problemIndex);
  }

  // -----------------------------------------------------------------------
  // The request as the servers read it
  // -----------------------------------------------------------------------

  /** A chat-log row read by the server: it has no 'content' member. */
  function HistoryItems(h: seq<ChatLog>): (r: seq<HistoryItem>)
    ensures |r| == |h| && forall i :: 0 <= i < |r| ==> r[i].content.None?
  {
    if h == [] then [] else [HistoryItem(None)] + HistoryItems(h[1..])
  }

  /** The JSON body the hook posts: the history rows and no 'userResponse'. */
  function ToServerPayload(req: AiRequest): (p: Payload)
    ensures p.action == Some(req.action) && p.userResponse.None?
    ensures p.chatHistory.Some? && |p.chatHistory.value| == |req.chatHistory|
  {
    Payload(Some(req.action), Some(req.problem), Some(req.subproblem), Some(HistoryItems(req.chatHistory)), None)
  }

  /** streaming.py answers a request with any history by raising before the first frame, and
    * answers one without history (every 'initialize') with frames. */
  lemma StreamingServerNeedsEmptyHistory(req: AiRequest)
    ensures GenerateResponse(ToServerPayload(req)).None? <==> req.chatHistory != []
  {
  }

  /** testingStream.py judges every 'validate' request the hook sends incorrect. */
  lemma TestingServerRejectsEveryAnswer(req: AiRequest)
    requires req.action == "validate"
    ensures GenerateResponseTesting(ToServerPayload(req))[0].isCorrect == Some(false)
  {
    TestingWithoutUserResponseIsIncorrect(ToServerPayload(req));
  }

  // -----------------------------------------------------------------------
  // Updating the placeholder by identifier
  // -----------------------------------------------------------------------

  /** `prev.map(msg => msg.id === id ? { ...msg, time_sent: t } : msg)` */
  function StampById(h: seq<ChatLog>, id: string, t: int): (r: seq<ChatLog>)
    ensures |r| == |h|
    ensures forall i :: 0 <= i < |h| ==> r[i] == if h[i].id == id then h[i].(timeSent := t) else h[i]
  {
    if h == [] then [] else [if h[0].id == id then h[0].(timeSent := t) else h[0]] + StampById(h[1..], id, t)
  }

  /** Stamping a fresh identifier touches only the entry that carries it. */
  lemma StampFresh(h: seq<ChatLog>, e: ChatLog, t: int)
    requires forall i :: 0 <= i < |h| ==> h[i].id != e.id
    ensures StampById(h + [e], e.id, t) == h + [e.(timeSent := t)]
  {
    var r := StampById(h + [e], e.id, t);
    assert forall i :: 0 <= i < |h| ==> (h + [e])[i] == h[i];
  }

  lemma IssuedSubset(h: seq<ChatLog>, logs: seq<ChatLog>, n: nat)
    requires forall e :: e in h ==> e in logs
    requires AllIssuedBefore(logs, n)
    ensures AllIssuedBefore(h, n)
  {
    forall i, k: nat | 0 <= i < |h| && n <= k ensures h[i].id != IdOf(k) {
      assert h[i] in logs;
    }
  }

  // -----------------------------------------------------------------------
  // The hook
  // -----------------------------------------------------------------------

  /** A chat entry at a position of the session's run. */
  function Entry(id: string, session: SessionData, moduleNumber: int, p: int, s: int,
                 role: Role, message: string, t: int): ChatLog {
    ChatLog(id, session.userId, moduleNumber, session.runId, p, s, role, message, t)
  }

  /** The position, the local history, the requests posted and the stored chat log. */
  datatype FlowView = FlowView(problemState: ProblemState, chatHistory: seq<ChatLog>, aiRequests: seq<AiRequest>,
                               chatLogs: seq<ChatLog>)

  /** What loading the units does once the session is open, with `n` the next fresh identifier.
    * With no units nothing changes; otherwise the position and history are the stored ones,
    * and at most one request is made: an 'initialize' for the unit at the stored position,
    * exactly when the run is incomplete, has no history yet and its unit exists. */
  function LoadEffect(session: SessionData, content: Option<seq<ContentUnit>>, outcome: AiOutcome,
                      moduleNumber: int, n: nat, v: FlowView): (r: FlowView)
    ensures var run := session.progress;
            var has := content.Some? && content.value != [];
            var cur := if has then GetCurrentContent(content.value, run.currentProblem, run.currentSubproblem) else None;
            var sends := has && session.chatHistory == [] && !run.isComplete && cur.Some?;
            (!has ==> r == v)
            && (has ==> r.problemState == ProblemState(run.currentProblem, run.currentSubproblem, run.isComplete))
            && (has && !sends ==> r.chatHistory == session.chatHistory)
            && |r.aiRequests| == |v.aiRequests| + (if sends then 1 else 0)
            && r.aiRequests[..|v.aiRequests|] == v.aiRequests
            && |r.chatLogs| == |v.chatLogs| + (if sends && outcome.saved then 1 else 0)
            && r.chatLogs[..|v.chatLogs|] == v.chatLogs
            && (sends ==> r.aiRequests[|v.aiRequests|].action == "initialize"
                          && r.aiRequests[|v.aiRequests|].chatHistory == []
                          && r.aiRequests[|v.aiRequests|].problem == cur.value.problemText
                          && At(cur.value, run.currentProblem, run.currentSubproblem)
                          && |r.chatHistory| == 1 && r.chatHistory[0].message == ""
                          && (outcome.saved ==> r.chatLogs[|v.chatLogs|].message == outcome.reply.fullMessage))
  {
    if content.None? || content.value == [] then v
    else
      var run := session.progress;
      var p, s := run.currentProblem, run.currentSubproblem;
      var st := ProblemState(p, s, run.isComplete);
      var cur := GetCurrentContent(content.value, p, s);
      if session.chatHistory == [] && !run.isComplete && cur.Some? then
        FlowView(st, [Entry(IdOf(n), session, moduleNumber, p, s, Ai, "", outcome.finishedAt)],
                 v.aiRequests + [AiRequest("initialize", cur.value.problemText, cur.value.subproblemText, None, [])],
                 v.chatLogs + SavedReply(outcome, Entry(IdOf(n + 1), session, moduleNumber, p, s, Ai, outcome.reply.fullMessage, outcome.finishedAt)))
      else
        FlowView(st, session.chatHistory, v.aiRequests, v.chatLogs)
  }

  class ProblemFlowState {
    /** `parseInt(weekNumber)` */
    const moduleNumber: int
    /** The persistent store behind the session services. */
    const db: Database
    var weekContent: seq<ContentUnit>
    var loading: bool
    var chatHistory: seq<ChatLog>
    var problemState: ProblemState
    var sessionData: Option<SessionData>
    /** The requests posted to the AI tutor, in order. */
    var aiRequests: seq<AiRequest>
    /** The next fresh identifier. */
    var nextId: nat

    /** Every identifier in the local history and in the store was handed out already. */
    ghost predicate Valid()
      reads this, db
    {
      AllIssuedBefore(chatHistory, nextId) && AllIssuedBefore(db.chatLogs, nextId)
    }

    /** The parts of the state the loading step changes. */
    function View(): FlowView
      reads this, db
    {
      FlowView(problemState, chatHistory, aiRequests, db.chatLogs)
    }

    /** The hook mounts over a store that may hold earlier sessions' logs; `start` is any counter
      * value past their identifiers (`FreshStartExists` shows one always exists). */
    constructor(moduleNumber: int, db: Database, start: nat)
      requires AllIssuedBefore(db.chatLogs, start)
      ensures Valid()
      ensures this.moduleNumber == moduleNumber && this.db == db
      ensures weekContent == [] && loading && chatHistory == [] && problemState == InitialState
      ensures sessionData == None && aiRequests == [] && nextId == start
    {
      this.moduleNumber := moduleNumber;
      this.db := db;
      weekContent, loading, chatHistory := [], true, [];
      problemState, sessionData, aiRequests, nextId := InitialState, None, [], start;
    }

    /** Hand out a fresh identifier. */
    method FreshId() returns (id: string)
      requires Valid()
      modifies this
      ensures Valid()
      ensures id == IdOf(old(nextId)) && nextId == old(nextId) + 1
      ensures weekContent == old(weekContent) && loading == old(loading) && chatHistory == old(chatHistory)
      ensures problemState == old(problemState) && sessionData == old(sessionData) && aiRequests == old(aiRequests)
    {
      id := IdOf(nextId);
      nextId := nextId + 1;
    }

    /** `SessionService.saveMessage`: the store appends the entry under an identifier of its own. */
    method SaveMessage(session: SessionData, p: int, s: int, role: Role, message: string, t: int)
      requires Valid()
      modifies this, db
      ensures Valid()
      ensures db.chatLogs == old(db.chatLogs) + [Entry(IdOf(old(nextId)), session, moduleNumber, p, s, role, message, t)]
      ensures db.progress == old(db.progress) && nextId == old(nextId) + 1
      ensures weekContent == old(weekContent) && loading == old(loading) && chatHistory == old(chatHistory)
      ensures problemState == old(problemState) && sessionData == old(sessionData) && aiRequests == old(aiRequests)
    {
      var id := FreshId();
      IdsDistinct();
      db.SaveChatMessage(id, session.userId, moduleNumber, session.runId, p, s, role, message, Some(t), t);
    }

    /** The hook's `sendToAI`: append an empty AI placeholder, post the request, stamp the
      * placeholder with the time the reply ended, and save the full reply. The chunk
      * callback is never invoked (`APIService.sendToAI` takes no callback), so the
      * placeholder's text stays empty. Without a session nothing happens; a failed save
      * is caught and answers incorrect. */
    method SendToAI(req: AiRequest, p: int, s: int, session: Option<SessionData>, outcome: AiOutcome, now: int)
      returns (isCorrect: bool)
      requires Valid()
      modifies this, db
      ensures Valid()
      ensures session.None? ==>
                !isCorrect && chatHistory == old(chatHistory) && aiRequests == old(aiRequests)
                && nextId == old(nextId) && db.chatLogs == old(db.chatLogs)
      ensures session.Some? ==>
                isCorrect == Verdict(outcome)
                && chatHistory == old(chatHistory)
                                  + [Entry(IdOf(old(nextId)), session.value, moduleNumber, p, s, Ai, "", outcome.finishedAt)]
                && aiRequests == old(aiRequests) + [req]
                && db.chatLogs == old(db.chatLogs)
                                  + SavedReply(outcome, Entry(IdOf(old(nextId) + 1), session.value, moduleNumber, p, s, Ai,
                                                              outcome.reply.fullMessage, outcome.finishedAt))
                && nextId == old(nextId) + 2
      ensures db.progress == old(db.progress)
      ensures weekContent == old(weekContent) && loading == old(loading)
      ensures problemState == old(problemState) && sessionData == old(sessionData)
    {
      if session.None? {
        return false;
      }
      var aiMsgId := FreshId();
      var placeholder := Entry(aiMsgId, session.value, moduleNumber, p, s, Ai, "", now);
      chatHistory := chatHistory + [placeholder];
      aiRequests := aiRequests + [req];
      var prev := chatHistory[..|chatHistory| - 1];
      assert prev == old(chatHistory);
      chatHistory := StampById(chatHistory, aiMsgId, outcome.finishedAt);
      StampFresh(prev, placeholder, outcome.finishedAt);
      IdsDistinct();
      if !outcome.saved {
        var _ := FreshId();
        return false;
      }
      SaveMessage(session.value, p, s, Ai, outcome.reply.fullMessage, outcome.finishedAt);
      isCorrect := outcome.reply.isCorrect;
    }

    /** The part of the loading effect after the session is open: load the units, take the
      * stored position and history, and, for a run that is not complete and has no history
      * yet, ask the tutor to introduce the current unit. A failed unit load ends the effect. */
    method LoadSessionContent(session: SessionData, content: Option<seq<ContentUnit>>, outcome: AiOutcome, now: int)
      requires Valid()
      requires forall e :: e in session.chatHistory ==> e in db.chatLogs
      modifies this, db
      ensures Valid()
      ensures loading == old(loading) && sessionData == old(sessionData) && db.progress == old(db.progress)
      ensures weekContent == (if content.Some? then content.value else old(weekContent))
      ensures View() == LoadEffect(session, content, outcome, moduleNumber, old(nextId), old(View()))
    {
      if content.None? {
        return;
      }
      weekContent := content.value;
      if |content.value| == 0 {
        return;
      }
      var run := session.progress;
      problemState := ProblemState(run.currentProblem, run.currentSubproblem, run.isComplete);
      IssuedSubset(session.chatHistory, db.chatLogs, nextId);
      chatHistory := session.chatHistory;
      if |session.chatHistory| == 0 && !run.isComplete {
        var cur := GetCurrentContent(content.value, run.currentProblem, run.currentSubproblem);
        if cur.Some? {
          var req := AiRequest("initialize", cur.value.problemText, cur.value.subproblemText, None, []);
          var _ := SendToAI(req, run.currentProblem, run.currentSubproblem, Some(session), outcome, now);
        }
      }
    }

    /** The loading effect: open the session (which resumes or creates the run and loads its
      * history), then load the content as `LoadSessionContent` states. When opening the
      * session throws (no signed-in user, a failed insert or a failed history load) the
      * effect ends there. Loading is cleared in every case. */
    method Initialize(auth: Option<string>, queryOk: bool, insertOk: bool, loadOk: bool,
                      content: Option<seq<ContentUnit>>, outcome: AiOutcome, now: int)
      returns (session: Option<SessionData>)
      requires Valid()
      modifies this, db
      ensures Valid() && !loading
      ensures var (rows, started) := SessionOutcome(old(db.progress), old(db.chatLogs), auth, moduleNumber,
                                                   IdOf(old(nextId)), IdOf(old(nextId) + 1), now, queryOk, insertOk, loadOk);
              session == started && db.progress == rows
              && (started.None? ==>
                    sessionData == old(sessionData) && weekContent == old(weekContent) && View() == old(View()))
              && (started.Some? ==>
                    sessionData == session
                    && weekContent == (if content.Some? then content.value else old(weekContent))
                    && View() == LoadEffect(started.value, content, outcome, moduleNumber, old(nextId) + 2, old(View())))
    {
      loading := true;
      session := OpenSession(auth, queryOk, insertOk, loadOk, now);
      if session.Some? {
        LoadSessionContent(session.value, content, outcome, now);
      }
      loading := false;
    }

    /** `SessionService.initializeSession`, with two fresh identifiers for a run that has to
      * be created; a session it returns is kept, and its history is stored. */
    method OpenSession(auth: Option<string>, queryOk: bool, insertOk: bool, loadOk: bool, now: int)
      returns (session: Option<SessionData>)
      requires Valid()
      modifies this, db
      ensures Valid()
      ensures (db.progress, session) == SessionOutcome(old(db.progress), old(db.chatLogs), auth, moduleNumber,
                                                       IdOf(old(nextId)), IdOf(old(nextId) + 1), now, queryOk, insertOk, loadOk)
      ensures sessionData == (if session.Some? then session else old(sessionData))
      ensures nextId == old(nextId) + 2
      ensures weekContent == old(weekContent) && loading == old(loading) && View() == old(View())
      ensures session.Some? ==> forall e :: e in session.value.chatHistory ==> e in db.chatLogs
    {
      var newId := FreshId();
      var newRunId := FreshId();
      session := db.InitializeSession(auth, moduleNumber, newId, newRunId, now, queryOk, insertOk, loadOk);
      if session.Some? {
        sessionData := session;
      }
    }

    /** `moveToNextProblem`, with the session, units, position and history its closure saw.
      * At the last position the run is saved complete and one completion message is added,
      * with no request to the tutor; elsewhere the new position is saved and the tutor is
      * asked to introduce the new unit, given the history the closure saw. */
    method MoveToNextProblem(session: Option<SessionData>, content: seq<ContentUnit>, st: ProblemState,
                             staleHistory: seq<ChatLog>, outcome: AiOutcome, now: int)
      requires Valid()
      modifies this, db
      ensures Valid()
      ensures weekContent == old(weekContent) && loading == old(loading) && sessionData == old(sessionData)
      ensures session.None? || content == [] ==>
                chatHistory == old(chatHistory) && problemState == old(problemState) && aiRequests == old(aiRequests)
                && db.progress == old(db.progress) && db.chatLogs == old(db.chatLogs)
      ensures session.Some? && content != [] && IsLastPosition(content, st) ==>
                var p, s := st.currentProblemIndex, st.currentSubproblemIndex;
                problemState == st.(isComplete := true)
                && db.progress == UpdateRows(old(db.progress), session.value.progressId, p, s, true, now)
                && chatHistory == old(chatHistory) + [Entry(IdOf(old(nextId)), session.value, moduleNumber, p, s, Ai, CompletionText, now)]
                && db.chatLogs == old(db.chatLogs) + [Entry(IdOf(old(nextId) + 1), session.value, moduleNumber, p, s, Ai, CompletionText, now)]
                && aiRequests == old(aiRequests)
      ensures session.Some? && content != [] && !IsLastPosition(content, st) ==>
                var next := Advance(content, st);
                var p, s := next.currentProblemIndex, next.currentSubproblemIndex;
                var nc := GetCurrentContent(content, p, s);
                problemState == next
                && db.progress == UpdateRows(old(db.progress), session.value.progressId, p, s, false, now)
                && (nc.None? ==> aiRequests == old(aiRequests) && chatHistory == old(chatHistory) && db.chatLogs == old(db.chatLogs))
                && (nc.Some? ==>
                      aiRequests == old(aiRequests) + [AiRequest("next", nc.value.problemText, nc.value.subproblemText, Some(next), staleHistory)]
                      && chatHistory == old(chatHistory) + [Entry(IdOf(old(nextId)), session.value, moduleNumber, p, s, Ai, "", outcome.finishedAt)]
                      && db.chatLogs == old(db.chatLogs) + SavedReply(outcome, Entry(IdOf(old(nextId) + 1), session.value, moduleNumber, p, s, Ai,
                                                                                     outcome.reply.fullMessage, outcome.finishedAt)))
    {
      if session.None? || |content| == 0 {
        return;
      }
      var maxProblem := MaxProblemIndex(content);
      var maxSubproblem := MaxSubproblemIndex(content, st.currentProblemIndex);
      var nextState := st;
      if Below(st.currentSubproblemIndex, maxSubproblem) {
        nextState := nextState.(currentSubproblemIndex := nextState.currentSubproblemIndex + 1);
      } else if Below(st.currentProblemIndex, maxProblem) {
        nextState := nextState.(currentProblemIndex := nextState.currentProblemIndex + 1);
        nextState := nextState.(currentSubproblemIndex := 1);
      } else {
        CompleteRun(session.value, st, now);
        return;
      }
      StepForward(session.value, content, nextState, staleHistory, outcome, now);
    }

    /** The terminal branch of `moveToNextProblem`: save the position as complete and add
      * the completion message to the history and the store, with no request to the tutor. */
    method CompleteRun(session: SessionData, st: ProblemState, now: int)
      requires Valid()
      modifies this, db
      ensures Valid()
      ensures weekContent == old(weekContent) && loading == old(loading) && sessionData == old(sessionData)
      ensures var p, s := st.currentProblemIndex, st.currentSubproblemIndex;
              problemState == st.(isComplete := true)
              && db.progress == UpdateRows(old(db.progress), session.progressId, p, s, true, now)
              && chatHistory == old(chatHistory) + [Entry(IdOf(old(nextId)), session, moduleNumber, p, s, Ai, CompletionText, now)]
              && db.chatLogs == old(db.chatLogs) + [Entry(IdOf(old(nextId) + 1), session, moduleNumber, p, s, Ai, CompletionText, now)]
              && aiRequests == old(aiRequests)
    {
      var nextState := st.(isComplete := true);
      db.UpdateProgress(session.progressId, st.currentProblemIndex, st.currentSubproblemIndex, true, now);
      var msgId := FreshId();
      var completionMsg := Entry(msgId, session, moduleNumber, st.currentProblemIndex, st.currentSubproblemIndex,
                                 Ai, CompletionText, now);
      IdsDistinct();
      chatHistory := chatHistory + [completionMsg];
      SaveMessage(session, st.currentProblemIndex, st.currentSubproblemIndex, Ai, CompletionText, now);
      problemState := nextState;
    }

    /** The other branches of `moveToNextProblem`: take and save the new position, then ask the
      * tutor to introduce its unit, if there is one, given the history the closure saw. */
    method StepForward(session: SessionData, content: seq<ContentUnit>, next: ProblemState,
                       staleHistory: seq<ChatLog>, outcome: AiOutcome, now: int)
      requires Valid()
      modifies this, db
      ensures Valid()
      ensures weekContent == old(weekContent) && loading == old(loading) && sessionData == old(sessionData)
      ensures var p, s := next.currentProblemIndex, next.currentSubproblemIndex;
              var nc := GetCurrentContent(content, p, s);
              problemState == next
              && db.progress == UpdateRows(old(db.progress), session.progressId, p, s, false, now)
              && (nc.None? ==> aiRequests == old(aiRequests) && chatHistory == old(chatHistory) && db.chatLogs == old(db.chatLogs))
              && (nc.Some? ==>
                    aiRequests == old(aiRequests) + [AiRequest("next", nc.value.problemText, nc.value.subproblemText, Some(next), staleHistory)]
                    && chatHistory == old(chatHistory) + [Entry(IdOf(old(nextId)), session, moduleNumber, p, s, Ai, "", outcome.finishedAt)]
                    && db.chatLogs == old(db.chatLogs) + SavedReply(outcome, Entry(IdOf(old(nextId) + 1), session, moduleNumber, p, s, Ai,
                                                                                   outcome.reply.fullMessage, outcome.finishedAt)))
    {
      problemState := next;
      db.UpdateProgress(session.progressId, next.currentProblemIndex, next.currentSubproblemIndex, false, now);
      var nextContent := GetCurrentContent(content, next.currentProblemIndex, next.currentSubproblemIndex);
      if nextContent.Some? {
        var req := AiRequest("next", nextContent.value.problemText, nextContent.value.subproblemText, Some(next), staleHistory);
        var _ := SendToAI(req, next.currentProblemIndex, next.currentSubproblemIndex, Some(session), outcome, now);
      }
    }

    /** The answer, as the history and the store record it. */
    method RecordAnswer(session: SessionData, st: ProblemState, userMessage: string, now: int) returns (u: ChatLog)
      requires Valid()
      modifies this, db
      ensures Valid()
      ensures u == Entry(IdOf(old(nextId)), session, moduleNumber, st.currentProblemIndex, st.currentSubproblemIndex,
                         User, userMessage, now)
      ensures chatHistory == old(chatHistory) + [u]
      ensures db.chatLogs == old(db.chatLogs) + [u.(id := IdOf(old(nextId) + 1))]
      ensures nextId == old(nextId) + 2
      ensures weekContent == old(weekContent) && loading == old(loading) && sessionData == old(sessionData)
      ensures problemState == old(problemState) && aiRequests == old(aiRequests) && db.progress == old(db.progress)
    {
      var msgId := FreshId();
      u := Entry(msgId, session, moduleNumber, st.currentProblemIndex, st.currentSubproblemIndex, User, userMessage, now);
      IdsDistinct();
      chatHistory := chatHistory + [u];
      SaveMessage(session, st.currentProblemIndex, st.currentSubproblemIndex, User, userMessage, now);
    }

    /** The validate request for the unit at the position, and the advance on a correct verdict. */
    method ValidateAnswer(session: SessionData, content: seq<ContentUnit>, st: ProblemState, cur: ContentUnit,
                          history: seq<ChatLog>, updated: seq<ChatLog>,
                          validateOutcome: AiOutcome, nextOutcome: AiOutcome, now: int)
      requires Valid()
      modifies this, db
      ensures Valid()
      ensures weekContent == old(weekContent) && loading == old(loading) && sessionData == old(sessionData)
      ensures
        var p, s := st.currentProblemIndex, st.currentSubproblemIndex;
        |aiRequests| >= |old(aiRequests)| + 1
        && aiRequests[..|old(aiRequests)| + 1]
           == old(aiRequests) + [AiRequest("validate", cur.problemText, cur.subproblemText, Some(st), updated)]
        && |chatHistory| >= |old(chatHistory)| + 1
        && chatHistory[..|old(chatHistory)| + 1]
           == old(chatHistory) + [Entry(IdOf(old(nextId)), session, moduleNumber, p, s, Ai, "", validateOutcome.finishedAt)]
        && (!Verdict(validateOutcome) ==>
              problemState == old(problemState) && db.progress == old(db.progress)
              && |aiRequests| == |old(aiRequests)| + 1 && |chatHistory| == |old(chatHistory)| + 1)
        && (Verdict(validateOutcome) && content != [] ==> problemState == Advance(content, st))
        && (Verdict(validateOutcome) && |aiRequests| > |old(aiRequests)| + 1 ==>
              aiRequests[|old(aiRequests)| + 1].action == "next" && aiRequests[|old(aiRequests)| + 1].chatHistory == history)
    {
      var req := AiRequest("validate", cur.problemText, cur.subproblemText, Some(st), updated);
      var isCorrect := SendToAI(req, st.currentProblemIndex, st.currentSubproblemIndex, Some(session), validateOutcome, now);
      ghost var h1, r1 := chatHistory, aiRequests;
      if isCorrect {
        MoveToNextProblem(Some(session), content, st, history, nextOutcome, now);
        assert chatHistory[..|h1|] == h1 && aiRequests[..|r1|] == r1;
      }
    }

    /** `handleUserResponse`: add the answer to the history and the store, ask the tutor to
      * validate it with the history including the answer, and advance on a correct verdict;
      * the follow-up 'next' request carries the history as it was before the answer.
      * Without a session nothing happens; without a unit at the position only the answer is
      * recorded. */
    method HandleUserResponse(userMessage: string, validateOutcome: AiOutcome, nextOutcome: AiOutcome, now: int)
      requires Valid()
      modifies this, db
      ensures Valid()
      ensures weekContent == old(weekContent) && loading == old(loading) && sessionData == old(sessionData)
      ensures old(sessionData).None? ==>
                chatHistory == old(chatHistory) && problemState == old(problemState) && aiRequests == old(aiRequests)
                && db.progress == old(db.progress) && db.chatLogs == old(db.chatLogs)
      ensures old(sessionData).Some? ==>
                var session := old(sessionData).value;
                var st := old(problemState);
                var p, s := st.currentProblemIndex, st.currentSubproblemIndex;
                var u := Entry(IdOf(old(nextId)), session, moduleNumber, p, s, User, userMessage, now);
                var cur := GetCurrentContent(old(weekContent), p, s);
                |chatHistory| >= |old(chatHistory)| + 1 && chatHistory[..|old(chatHistory)| + 1] == old(chatHistory) + [u]
                && (cur.None? ==>
                      chatHistory == old(chatHistory) + [u] && db.chatLogs == old(db.chatLogs) + [u.(id := IdOf(old(nextId) + 1))]
                      && aiRequests == old(aiRequests) && problemState == st && db.progress == old(db.progress))
                && (cur.Some? ==>
                      |aiRequests| >= |old(aiRequests)| + 1
                      && aiRequests[|old(aiRequests)|]
                         == AiRequest("validate", cur.value.problemText, cur.value.subproblemText, Some(st), old(chatHistory) + [u])
                      && |chatHistory| >= |old(chatHistory)| + 2
                      && chatHistory[|old(chatHistory)| + 1]
                         == Entry(IdOf(old(nextId) + 2), session, moduleNumber, p, s, Ai, "", validateOutcome.finishedAt)
                      && (!Verdict(validateOutcome) ==>
                            problemState == st && db.progress == old(db.progress)
                            && |aiRequests| == |old(aiRequests)| + 1 && |chatHistory| == |old(chatHistory)| + 2)
                      && (Verdict(validateOutcome) ==> problemState == Advance(old(weekContent), st))
                      && (Verdict(validateOutcome) && |aiRequests| > |old(aiRequests)| + 1 ==>
                            aiRequests[|old(aiRequests)| + 1].action == "next"
                            && aiRequests[|old(aiRequests)| + 1].chatHistory == old(chatHistory)))
    {
      if sessionData.None? {
        return;
      }
      var session := sessionData.value;
      var st := problemState;
      var history := chatHistory;
      var content := weekContent;
      var currentContent := GetCurrentContent(weekContent, st.currentProblemIndex, st.currentSubproblemIndex);
      var userMsg := RecordAnswer(session, st, userMessage, now);
      var updatedChatHistory := history + [userMsg];
      if currentContent.None? {
        return;
      }
      ghost var h1, r1 := chatHistory, aiRequests;
      ValidateAnswer(session, content, st, currentContent.value, history, updatedChatHistory, validateOutcome, nextOutcome, now);
      assert chatHistory[..|h1|] == chatHistory[..|h1| + 1][..|h1|];
      assert chatHistory[|h1|] == chatHistory[..|h1| + 1][|h1|];
      assert aiRequests[|r1|] == aiRequests[..|r1| + 1][|r1|];
    }

    /** `handleRestartModule`, given what `SessionService.restartModule` yields (`None`: it
      * throws; that service has no such member, so in the shipped code the call always
      * throws) and what the unit load yields. After a restart the position is (1, 1), the
      * history is empty, and the tutor is asked to introduce unit (1, 1) if it exists. Every
      * error ends with loading cleared and is passed on to the caller. */
    method HandleRestartModule(restart: Option<SessionData>, content: Option<seq<ContentUnit>>, outcome: AiOutcome, now: int)
      returns (threw: bool)
      requires Valid()
      modifies this, db
      ensures Valid() && !loading
      ensures weekContent == old(weekContent) && db.progress == old(db.progress)
      ensures threw <==> restart.None? || content.None?
      ensures restart.None? ==>
                sessionData == old(sessionData) && chatHistory == old(chatHistory) && problemState == old(problemState)
                && aiRequests == old(aiRequests) && db.chatLogs == old(db.chatLogs)
      ensures restart.Some? ==>
                var first := if content.Some? then GetCurrentContent(content.value, 1, 1) else None;
                sessionData == restart && problemState == InitialState
                && (first.None? ==> chatHistory == [] && aiRequests == old(aiRequests) && db.chatLogs == old(db.chatLogs))
                && (first.Some? ==>
                      aiRequests == old(aiRequests) + [AiRequest("initialize", first.value.problemText, first.value.subproblemText, None, [])]
                      && chatHistory == [Entry(IdOf(old(nextId)), restart.value, moduleNumber, 1, 1, Ai, "", outcome.finishedAt)]
                      && db.chatLogs == old(db.chatLogs) + SavedReply(outcome, Entry(IdOf(old(nextId) + 1), restart.value, moduleNumber, 1, 1, Ai,
                                                                                     outcome.reply.fullMessage, outcome.finishedAt)))
    {
      loading := true;
      if restart.None? {
        loading := false;
        return true;
      }
      sessionData := restart;
      problemState := InitialState;
      chatHistory := [];
      if content.None? {
        loading := false;
        return true;
      }
      if |content.value| > 0 {
        var firstContent := GetCurrentContent(content.value, 1, 1);
        if firstContent.Some? {
          var req := AiRequest("initialize", firstContent.value.problemText, firstContent.value.subproblemText, None, []);
          var _ := SendToAI(req, 1, 1, restart, outcome, now);
        }
      }
      loading := false;
      threw := false;
    }
  }
}
