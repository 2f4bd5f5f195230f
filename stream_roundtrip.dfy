/**
 * Both ends of the streaming protocol together: what the browser's
 * `APIService.sendToAI` makes of the frames the Flask generators emit.
 * The JSON codec is a pair of parameters, required only to round-trip
 * (`parse(encode(f)) == Some(f)`) and to write no raw line feed, as
 * `json.dumps` does not.
 */
module StreamRoundTrip {
  import opened Wrappers
  import opened Text
  import opened StreamFrames
  import opened StreamClient
  import opened StreamServer

  /** The non-blank pieces the client finds in a body of events: one per event, "data: " + JSON. */
  function EventLines(fs: seq<Frame>, encode: Frame -> string): seq<string> {
    seq(|fs|, i requires 0 <= i < |fs| => "data: " + encode(fs[i]))
  }

  /** The words each followed by one space, as the client accumulates them. */
  function SpacedWords(ws: seq<string>): string {
    if ws == [] then "" else ws[0] + " " + SpacedWords(ws[1..])
  }

  lemma SeparatorAfterEvent(line: string, rest: string)
    requires NoLineFeed(line)
    ensures FindSeparator(line + "\n\n" + rest) == Some(|line|)
  {
    var s := line + "\n\n" + rest;
    assert BlankLineAt(s, |line|);
    forall j | 0 <= j < |line| ensures !BlankLineAt(s, j) {
      assert s[j] == line[j];
    }
  }

  /** Splitting a body of events at blank lines and dropping blank pieces gives one line per event. */
  lemma {:induction false} LinesOfWire(fs: seq<Frame>, encode: Frame -> string)
    requires forall f :: NoLineFeed(encode(f))
    ensures Lines(Wire(fs, encode)) == EventLines(fs, encode)
  {
    if fs == [] {
      assert SplitAtBlankLines("") == [""];
    } else {
      var line := "data: " + encode(fs[0]);
      var rest := Wire(fs[1..], encode);
      assert NoLineFeed(encode(fs[0]));
      assert NoLineFeed(line) by {
        forall i | 0 <= i < |line| ensures line[i] != '\n' {
          if i >= 6 { assert line[i] == encode(fs[0])[i - 6]; }
        }
      }
      assert Wire(fs, encode) == line + "\n\n" + rest;
      SeparatorAfterEvent(line, rest);
      assert (line + "\n\n" + rest)[..|line|] == line;
      assert (line + "\n\n" + rest)[|line| + 2..] == rest;
      assert SplitAtBlankLines(Wire(fs, encode)) == [line] + SplitAtBlankLines(rest);
      assert line[0] == 'd' && !IsBlank(line);
      assert ([line] + SplitAtBlankLines(rest))[1..] == SplitAtBlankLines(rest);
      LinesOfWire(fs[1..], encode);
      assert EventLines(fs, encode) == [line] + EventLines(fs[1..], encode);
    }
  }

  /** Each event line parses back to its frame. */
  lemma {:induction false} ParsedEventLines(fs: seq<Frame>, encode: Frame -> string, parse: string -> Option<Frame>)
    requires forall f :: parse(encode(f)) == Some(f)
    ensures ParsedFrames(EventLines(fs, encode), parse) == fs
    decreases |fs|
  {
    if fs != [] {
      var n := |fs|;
      var lines := EventLines(fs, encode);
      assert lines[..n - 1] == EventLines(fs[..n - 1], encode);
      ParsedEventLines(fs[..n - 1], encode, parse);
      var line := lines[n - 1];
      assert line[..6] == "data: " && line[6..] == encode(fs[n - 1]);
      assert parse(StripDataPrefix(line)) == Some(fs[n - 1]);
      assert fs[..n - 1] + [fs[n - 1]] == fs;
    }
  }

  lemma {:induction false} ChunksAppend(a: seq<Frame>, b: seq<Frame>)
    ensures Chunks(a + b) == Chunks(a) + Chunks(b)
    decreases |b|
  {
    if b == [] {
      assert a + b == a;
    } else {
      var n := |b|;
      assert (a + b)[..|a + b| - 1] == a + b[..n - 1];
      ChunksAppend(a, b[..n - 1]);
    }
  }

  /** The chunks of a word stream concatenate to the spaced words. */
  lemma {:induction false} ChunksOfWordFrames(text: string)
    ensures Chunks(WordFrames(text)) == SpacedWords(Words(text))
  {
    SpacedWordChunks(Words(text));
  }

  lemma {:induction false} SpacedWordChunks(ws: seq<string>)
    ensures Chunks(ChunkFrames(ws)) == SpacedWords(ws)
  {
    if ws != [] {
      var f := ChunkFrame(ws[0] + " ");
      var rest := ChunkFrames(ws[1..]);
      assert ChunkFrames(ws) == [f] + rest;
      ChunksAppend([f], rest);
      assert Chunks([f]) == ws[0] + " " by {
        assert [f][..0] == [];
      }
      SpacedWordChunks(ws[1..]);
    }
  }

  /** What the client accumulates splits back into exactly the server's words. */
  lemma {:induction false} WordsOfSpacedWords(ws: seq<string>)
    requires forall i :: 0 <= i < |ws| ==> ws[i] != [] && NoPySpace(ws[i])
    ensures Words(SpacedWords(ws)) == ws
  {
    if ws != [] {
      var tail := ws[1..];
      assert forall i :: 0 <= i < |tail| ==> tail[i] == ws[i + 1];
      WordsOfSpacedWords(tail);
      assert SpacedWords(ws) == ws[0] + " " + SpacedWords(tail);
      WordsOfWordThenRest(ws[0], SpacedWords(tail));
      assert [ws[0]] + tail == ws;
    }
  }

  /** The client reading an emitted stream reports the verdict (for 'validate' only) and the
    * text's words, each followed by a space. */
  lemma ClientReadsEmittedFrames(validate: bool, verdict: Option<bool>, text: string,
                                 encode: Frame -> string, parse: string -> Option<Frame>)
    requires forall f :: parse(encode(f)) == Some(f)
    requires forall f :: NoLineFeed(encode(f))
    ensures ClientReply(validate, Some(Wire(Emit(verdict, text), encode)), parse)
            == Reply(validate && verdict == Some(true), SpacedWords(Words(text)))
  {
    var fs := Emit(verdict, text);
    LinesOfWire(fs, encode);
    ParsedEventLines(fs, encode, parse);
    FoldIsFirstVerdictAndChunks(validate, EventLines(fs, encode), parse);
    ChunksOfWordFrames(text);
    if verdict.Some? {
      assert fs == [VerdictFrame(verdict.value)] + WordFrames(text);
      ChunksAppend([VerdictFrame(verdict.value)], WordFrames(text));
      assert Chunks([VerdictFrame(verdict.value)]) == Chunks([]) + "";
    } else if validate && fs != [] {
      assert fs[0] == ChunkFrame(Words(text)[0] + " ");
    }
  }

  /** streaming.py to the browser: when the generator runs, the client's verdict is
    * `len(latest) > 10` for 'validate' (false otherwise), and its message is the response
    * text's words each followed by a space, so it splits back into the same words. */
  lemma ClientReadsStreamingServer(p: Payload, encode: Frame -> string, parse: string -> Option<Frame>)
    requires forall f :: parse(encode(f)) == Some(f)
    requires forall f :: NoLineFeed(encode(f))
    requires GenerateResponse(p).Some?
    ensures var isCorrect := |LatestResponse(p).value| > 10;
            var r := ClientReply(IsValidate(p), Some(Wire(GenerateResponse(p).value, encode)), parse);
            r.isCorrect == (IsValidate(p) && isCorrect)
            && r.fullMessage == SpacedWords(Words(ResponseText(p, isCorrect)))
            && Words(r.fullMessage) == Words(ResponseText(p, isCorrect))
  {
    var isCorrect := |LatestResponse(p).value| > 10;
    var text := ResponseText(p, isCorrect);
    ClientReadsEmittedFrames(IsValidate(p), if IsValidate(p) then Some(isCorrect) else None, text, encode, parse);
    WordsOfSpacedWords(Words(text));
  }

  /** testingStream.py to the browser: the same, with the verdict `len(userResponse) > 10`. */
  lemma ClientReadsTestingServer(p: Payload, encode: Frame -> string, parse: string -> Option<Frame>)
    requires forall f :: parse(encode(f)) == Some(f)
    requires forall f :: NoLineFeed(encode(f))
    ensures var r := ClientReply(IsValidate(p), Some(Wire(GenerateResponseTesting(p), encode)), parse);
            r.isCorrect == (IsValidate(p) && TestingVerdict(p))
            && r.fullMessage == SpacedWords(Words(ResponseTextTesting(p)))
            && Words(r.fullMessage) == Words(ResponseTextTesting(p))
  {
    var text := ResponseTextTesting(p);
    ClientReadsEmittedFrames(IsValidate(p), if IsValidate(p) then Some(TestingVerdict(p)) else None, text, encode, parse);
    WordsOfSpacedWords(Words(text));
  }

  /** When streaming.py raises before its first frame, the browser sees either an empty
    * body or a failed read; neither is ever a positive verdict. */
  lemma BrokenStreamIsNeverCorrect(validate: bool, parse: string -> Option<Frame>)
    ensures !ClientReply(validate, Some(""), parse).isCorrect
    ensures ClientReply(validate, None, parse) == Reply(false, ErrorMessage)
  {
    assert SplitAtBlankLines("") == [""];
    assert Lines("") == [];
  }
}
