/**
 * The client end of the streaming protocol, `APIService.sendToAI`: the decoded
 * response body is split into frames at blank lines ("\n\n"), blank frames
 * are dropped, a leading "data: " is stripped, and each frame is handed to a
 * JSON parser. Frames that do not parse are skipped. For a 'validate' request
 * the verdict is the `isCorrect` member of the first frame that parses; the
 * message is the in-order concatenation of every parsed frame's `chunk`.
 *
 * JSON parsing is the parameter `parse`; a parsed object is a `Frame`.
 * A parsed value whose members cannot be read (`null`) throws inside the
 * same `try` and is skipped like text that does not parse, so `parse`
 * returns `None` for both. A transport failure (the
 * request throws, or there is no body) is a `None` response.
 */
module StreamClient {
  import opened Wrappers
  import opened Text
  import opened StreamFrames

  /** What `sendToAI` resolves to. */
  datatype Reply = Reply(isCorrect: bool, fullMessage: string)

  const ErrorMessage: string := "Error communicating with AI tutor."

  predicate BlankLineAt(s: string, j: int)
    requires 0 <= j < |s| - 1
  {
    s[j] == '\n' && s[j + 1] == '\n'
  }

  /** The index of the first "\n\n" in `s`. */
  function FindSeparator(s: string): (r: Option<nat>)
    ensures r.Some? ==> r.value + 2 <= |s| && BlankLineAt(s, r.value)
                        && forall j :: 0 <= j < r.value ==> !BlankLineAt(s, j)
    ensures r.None? ==> forall j :: 0 <= j < |s| - 1 ==> !BlankLineAt(s, j)
  {
    if |s| < 2 then None
    else if BlankLineAt(s, 0) then Some(0)
    else
      match FindSeparator(s[1..])
      case None =>
        assert forall j :: 1 <= j < |s| - 1 ==> BlankLineAt(s, j) == BlankLineAt(s[1..], j - 1);
        None
      case Some(i) =>
        assert forall j :: 1 <= j < |s| - 1 ==> BlankLineAt(s, j) == BlankLineAt(s[1..], j - 1);
        Some(i + 1)
  }

  /** `s.split('\n\n')`. */
  function SplitAtBlankLines(s: string): (r: seq<string>)
    ensures r != []
    decreases |s|
  {
    match FindSeparator(s)
    case None => [s]
    case Some(i) => [s[..i]] + SplitAtBlankLines(s[i + 2..])
  }

  /** `.filter(line => line.trim())`. */
  function DropBlank(lines: seq<string>): (r: seq<string>)
    ensures forall l :: l in r <==> l in lines && !IsBlank(l)
  {
    if lines == [] then []
    else
      assert forall l :: l in lines <==> l == lines[0] || l in lines[1..];
      if IsBlank(lines[0]) then DropBlank(lines[1..]) else [lines[0]] + DropBlank(lines[1..])
  }

  function Lines(buffer: string): seq<string> {
    DropBlank(SplitAtBlankLines(buffer))
  }

  /** `line.replace(/^data: /, '')`. */
  function StripDataPrefix(line: string): string {
    if |line| >= 6 && line[..6] == "data: " then line[6..] else line
  }

  /** The truthiness test `if (parsed.chunk)`. */
  predicate HasChunk(f: Frame) {
    f.chunk.Some? && f.chunk.value != ""
  }

  /** The loop variables of `sendToAI`: `firstChunk`, `validationResult.isCorrect`, `fullMessage`. */
  datatype ParseState = ParseState(firstChunk: bool, isCorrect: bool, fullMessage: string)

  /** One iteration of the frame loop. */
  function Step(validate: bool, st: ParseState, line: string, parse: string -> Option<Frame>): (r: ParseState)
    ensures |st.fullMessage| <= |r.fullMessage| && r.fullMessage[..|st.fullMessage|] == st.fullMessage
    ensures !(validate && st.firstChunk) ==> r.firstChunk == st.firstChunk && r.isCorrect == st.isCorrect
  {
    match parse(StripDataPrefix(line))
    case None => st
    case Some(f) =>
      var st1 := if validate && st.firstChunk then st.(isCorrect := f.isCorrect == Some(true), firstChunk := false) else st;
      if HasChunk(f) then st1.(fullMessage := st1.fullMessage + f.chunk.value) else st1
  }

  /** The loop state after the given frames, starting from `firstChunk = true`,
    * `isCorrect = false`, `fullMessage = ''`. */
  function FoldLines(validate: bool, lines: seq<string>, parse: string -> Option<Frame>): (r: ParseState)
    ensures r.firstChunk ==> !r.isCorrect
    ensures !validate ==> r.firstChunk
    decreases |lines|
  {
    if lines == [] then ParseState(true, false, "")
    else Step(validate, FoldLines(validate, lines[..|lines| - 1], parse), lines[|lines| - 1], parse)
  }

  /** What `sendToAI` returns for a response body (`None`: the request failed). */
  function ClientReply(validate: bool, response: Option<string>, parse: string -> Option<Frame>): (r: Reply)
    ensures response.None? ==> r == Reply(false, ErrorMessage)
    ensures !validate ==> !r.isCorrect
  {
    match response
    case None => Reply(false, ErrorMessage)
    case Some(body) =>
      var st := FoldLines(validate, Lines(body), parse);
      Reply(st.isCorrect, st.fullMessage)
  }

  /** `APIService.sendToAI` with the response body already decoded into one buffer. */
  method SendToAI(action: Option<string>, response: Option<string>, parse: string -> Option<Frame>)
    returns (isCorrect: bool, fullMessage: string)
    ensures Reply(isCorrect, fullMessage) == ClientReply(action == Some("validate"), response, parse)
  {
    if response.None? {
      return false, ErrorMessage;
    }
    var validate := action == Some("validate");
    var lines := Lines(response.value);
    var firstChunk := true;
    isCorrect, fullMessage := false, "";
    var i := 0;
    while i < |lines|
      invariant 0 <= i <= |lines|
      invariant ParseState(firstChunk, isCorrect, fullMessage) == FoldLines(validate, lines[..i], parse)
    {
      assert lines[..i + 1][..i] == lines[..i];
      var parsed := parse(StripDataPrefix(lines[i]));
      i := i + 1;
      if parsed.None? {
        continue;
      }
      var f := parsed.value;
      if validate && firstChunk {
        isCorrect := f.isCorrect == Some(true);
        firstChunk := false;
        if !HasChunk(f) {
          continue;
        }
      }
      if HasChunk(f) {
        fullMessage := fullMessage + f.chunk.value;
      }
    }
    assert lines[..i] == lines;
  }

  // -----------------------------------------------------------------------
  // What the loop computes, stated over the frames that parse
  // -----------------------------------------------------------------------

  /** The frames that parse, in order. */
  function ParsedFrames(lines: seq<string>, parse: string -> Option<Frame>): seq<Frame>
    decreases |lines|
  {
    if lines == [] then []
    else
      var init := ParsedFrames(lines[..|lines| - 1], parse);
      match parse(StripDataPrefix(lines[|lines| - 1]))
      case None => init
      case Some(f) => init + [f]
  }

  function ChunkText(f: Frame): string {
    if f.chunk.Some? then f.chunk.value else ""
  }

  /** The in-order concatenation of the frames' chunks. */
  function Chunks(fs: seq<Frame>): string
    decreases |fs|
  {
    if fs == [] then "" else Chunks(fs[..|fs| - 1]) + ChunkText(fs[|fs| - 1])
  }

  /** The loop computes: the verdict of the first parsed frame (for 'validate' only) and the
    * concatenation of all parsed chunks, including one carried by the verdict frame. */
  lemma {:induction false} FoldIsFirstVerdictAndChunks(validate: bool, lines: seq<string>, parse: string -> Option<Frame>)
    ensures var fs := ParsedFrames(lines, parse);
            FoldLines(validate, lines, parse)
            == ParseState(!(validate && fs != []), validate && fs != [] && fs[0].isCorrect == Some(true), Chunks(fs))
  {
    if lines != [] {
      var init := lines[..|lines| - 1];
      FoldIsFirstVerdictAndChunks(validate, init, parse);
      var fs0 := ParsedFrames(init, parse);
      match parse(StripDataPrefix(lines[|lines| - 1]))
      case None =>
      case Some(f) =>
        var fs := fs0 + [f];
        assert fs[..|fs| - 1] == fs0;
        if fs0 != [] { assert fs[0] == fs0[0]; }
        if !HasChunk(f) { assert ChunkText(f) == "" && Chunks(fs0) + "" == Chunks(fs0); }
    }
  }

  /** The reply of `sendToAI`: the error reply on a failed request; otherwise `isCorrect` is
    * true exactly for a 'validate' request whose first parsed frame says `isCorrect: true`,
    * and the message is the concatenation of the parsed chunks. */
  lemma ClientReplySpec(action: Option<string>, body: string, parse: string -> Option<Frame>)
    ensures var fs := ParsedFrames(Lines(body), parse);
            var r := ClientReply(action == Some("validate"), Some(body), parse);
            (r.isCorrect <==> action == Some("validate") && fs != [] && fs[0].isCorrect == Some(true))
            && r.fullMessage == Chunks(fs)
  {
    FoldIsFirstVerdictAndChunks(action == Some("validate"), Lines(body), parse);
  }
}
