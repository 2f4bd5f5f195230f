/**
 * The two Flask generators behind `POST /api/ai`: `generate_response` in
 * BACKEND/streaming.py and its variant in BACKEND/testingStream.py. Both
 * pick a response text by `action`; for 'validate' they first emit a
 * verdict frame; then they emit one chunk frame per whitespace-separated
 * word of the text, each word followed by a space. They differ in where the
 * verdict comes from, in their templates and in their defaults.
 *
 * A payload member that is absent is `None`; members are taken to be
 * strings (or a list of objects for the history).
 */
module StreamServer {
  import opened Wrappers
  import opened Text
  import opened StreamFrames

  /** A chat-history entry as the server reads it: only its 'content' member. */
  datatype HistoryItem = HistoryItem(content: Option<string>)

  /** The members of `request.json` the generators read. */
  datatype Payload = Payload(
    action: Option<string>,
    problem: Option<string>,
    subproblem: Option<string>,
    chatHistory: Option<seq<HistoryItem>>,
    userResponse: Option<string>)

  const CorrectText: string := "Great job! That's correct."
  const CorrectTextTesting: string := "Great job! That's correct. Let's move to the next problem."
  const IncorrectText: string := "That's not quite right. Let me give you a hint: Think about the problem from a different angle."
  const FallbackText: string := "I'm here to help you learn!"

  predicate IsValidate(p: Payload) {
    p.action == Some("validate")
  }

  /** One chunk frame per word, the word followed by ' '. */
  function ChunkFrames(ws: seq<string>): (fs: seq<Frame>)
    ensures |fs| == |ws|
    ensures forall i :: 0 <= i < |fs| ==> fs[i] == ChunkFrame(ws[i] + " ")
  {
    if ws == [] then [] else [ChunkFrame(ws[0] + " ")] + ChunkFrames(ws[1..])
  }

  /** The chunk frames for a text: one per word of `text.split()`. */
  function WordFrames(text: string): (fs: seq<Frame>) {
    ChunkFrames(Words(text))
  }

  /** The frame sequence of a generator that runs to the end: an optional verdict, then the words. */
  function Emit(verdict: Option<bool>, text: string): (fs: seq<Frame>)
    ensures verdict.Some? ==> fs != [] && fs[0] == VerdictFrame(verdict.value) && fs[1..] == WordFrames(text)
    ensures verdict.None? ==> fs == WordFrames(text)
  {
    match verdict
    case Some(b) => [VerdictFrame(b)] + WordFrames(text)
    case None => WordFrames(text)
  }

  // -----------------------------------------------------------------------
  // BACKEND/streaming.py
  // -----------------------------------------------------------------------

  /** `chat_history[-1]['content'] if chat_history else 'default'`;
    * `None` when the last entry has no 'content' (a `KeyError`). */
  function LatestResponse(p: Payload): (r: Option<string>)
    ensures var h := p.chatHistory.GetOr([]);
            (r.None? <==> h != [] && h[|h| - 1].content.None?)
            && (h == [] ==> r == Some("default"))
  {
    var h := p.chatHistory.GetOr([]);
    if h == [] then Some("default") else h[|h| - 1].content
  }

  /** The text streamed word by word, given the verdict used for 'validate'. */
  function ResponseText(p: Payload, isCorrect: bool): string {
    var action := p.action.GetOr("default");
    if action == "initialize" then
      "Let's begin. " + p.problem.GetOr("default") + "\n\n " + p.subproblem.GetOr("default")
    else if action == "validate" then
      if isCorrect then CorrectText else IncorrectText
    else if action == "next" then
      "Now let's tackle Problem " + p.problem.GetOr("") + ":\n\n" + p.subproblem.GetOr("")
    else
      FallbackText
  }

  /** The frames `generate_response` yields; `None` when it raises before the first one. */
  function GenerateResponse(p: Payload): (r: Option<seq<Frame>>)
    ensures r.None? <==> LatestResponse(p).None?
  {
    match LatestResponse(p)
    case None => None
    case Some(latest) =>
      var isCorrect := |latest| > 10;
      Some(Emit(if IsValidate(p) then Some(isCorrect) else None, ResponseText(p, isCorrect)))
  }

  // -----------------------------------------------------------------------
  // BACKEND/testingStream.py
  // -----------------------------------------------------------------------

  /** `len(payload.get('userResponse', '')) > 10`. */
  function TestingVerdict(p: Payload): bool {
    |p.userResponse.GetOr("")| > 10
  }

  function ResponseTextTesting(p: Payload): string {
    var action := p.action.GetOr("default");
    if action == "initialize" then
      "Let's begin. " + p.problem.GetOr("") + "\n\n" + p.subproblem.GetOr("")
    else if action == "validate" then
      if TestingVerdict(p) then CorrectTextTesting else IncorrectText
    else if action == "next" then
      "Now let's tackle Problem " + p.problem.GetOr("") + ":\n\n" + p.subproblem.GetOr("")
    else
      FallbackText
  }

  /** The frames the testing generator yields; it reads no history and never raises. */
  function GenerateResponseTesting(p: Payload): (fs: seq<Frame>) {
    Emit(if IsValidate(p) then Some(TestingVerdict(p)) else None, ResponseTextTesting(p))
  }

  // -----------------------------------------------------------------------
  // Properties of the frame sequences
  // -----------------------------------------------------------------------

  /** The frame shape both generators share: a verdict frame exactly when one is given,
    * and it comes first; every other frame is a chunk frame, one per word, in order. */
  lemma EmitShape(verdict: Option<bool>, text: string)
    ensures var fs := Emit(verdict, text);
            var k := if verdict.Some? then 1 else 0;
            |fs| == k + |Words(text)|
            && (forall i :: 0 <= i < |fs| ==> (fs[i].isCorrect.Some? <==> i == 0 && verdict.Some?))
            && (forall i :: k <= i < |fs| ==> fs[i].chunk == Some(Words(text)[i - k] + " "))
  {
    var fs := Emit(verdict, text);
    if verdict.Some? {
      forall i | 1 <= i < |fs| ensures fs[i] == WordFrames(text)[i - 1] {
        assert fs[i] == fs[1..][i - 1];
      }
    }
  }

  /** streaming.py: only 'validate' streams a verdict, and it is `len(latest) > 10` where
    * `latest` is the last history entry's content, or 'default' with no history. */
  lemma StreamingVerdict(p: Payload)
    requires GenerateResponse(p).Some?
    ensures var fs := GenerateResponse(p).value;
            (exists i :: 0 <= i < |fs| && fs[i].isCorrect.Some?) <==> IsValidate(p)
    ensures IsValidate(p) ==> GenerateResponse(p).value[0] == VerdictFrame(|LatestResponse(p).value| > 10)
  {
    var isCorrect := |LatestResponse(p).value| > 10;
    var verdict := if IsValidate(p) then Some(isCorrect) else None;
    EmitShape(verdict, ResponseText(p, isCorrect));
  }

  /** streaming.py: the text selected for each action. */
  lemma StreamingTexts(p: Payload, isCorrect: bool)
    ensures p.action == Some("validate") ==> ResponseText(p, isCorrect) == (if isCorrect then CorrectText else IncorrectText)
    ensures p.action == Some("initialize") ==>
              ResponseText(p, isCorrect) == "Let's begin. " + p.problem.GetOr("default") + "\n\n " + p.subproblem.GetOr("default")
    ensures p.action == Some("next") ==>
              ResponseText(p, isCorrect) == "Now let's tackle Problem " + p.problem.GetOr("") + ":\n\n" + p.subproblem.GetOr("")
    ensures p.action.None? || p.action.value !in {"validate", "initialize", "next"} ==> ResponseText(p, isCorrect) == FallbackText
  {
  }

  /** The history the browser sends holds chat-log rows, whose text is under 'message', so
    * streaming.py raises on any non-empty history and streams nothing. */
  lemma StreamingRejectsClientHistory(p: Payload)
    requires p.chatHistory.Some? && p.chatHistory.value != []
    requires forall i :: 0 <= i < |p.chatHistory.value| ==> p.chatHistory.value[i].content.None?
    ensures GenerateResponse(p).None?
  {
  }

  /** testingStream.py: only 'validate' streams a verdict, `len(userResponse) > 10`, first. */
  lemma TestingVerdictFirst(p: Payload)
    ensures var fs := GenerateResponseTesting(p);
            ((exists i :: 0 <= i < |fs| && fs[i].isCorrect.Some?) <==> IsValidate(p))
            && (IsValidate(p) ==> fs[0] == VerdictFrame(TestingVerdict(p)))
  {
    var verdict := if IsValidate(p) then Some(TestingVerdict(p)) else None;
    EmitShape(verdict, ResponseTextTesting(p));
  }

  /** testingStream.py: a payload without 'userResponse' (the browser never sends one) is
    * always judged incorrect. */
  lemma TestingWithoutUserResponseIsIncorrect(p: Payload)
    requires IsValidate(p) && p.userResponse.None?
    ensures GenerateResponseTesting(p)[0] == VerdictFrame(false)
    ensures ResponseTextTesting(p) == IncorrectText
  {
  }
}
