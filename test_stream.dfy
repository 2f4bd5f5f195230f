/**
 * The two pieces of BACKEND/app.py that are plain computations: the test
 * stream, which echoes its input back in ten-character slices, and the
 * placeholder `check_response`, whose only rule is that a 'CORRECT' verdict
 * comes with the strategy 'START'.
 */
module TestStream {

  /** `[s[i:i+10] for i in range(0, len(s), 10)]`. */
  function Slices(s: string): (r: seq<string>)
    ensures |r| == (|s| + 9) / 10
    decreases |s|
  {
    if s == [] then []
    else if |s| <= 10 then [s]
    else [s[..10]] + Slices(s[10..])
  }

  function Concat(parts: seq<string>): string {
    if parts == [] then "" else parts[0] + Concat(parts[1..])
  }

  /** `f"Received input: {str(input_data)}"`, given the rendering `str(input_data)`. */
  function TestStreamText(rendered: string): string {
    "Received input: " + rendered
  }

  /** The chunks `generate_test_input` queues, in order. */
  function TestStreamChunks(rendered: string): seq<string> {
    Slices(TestStreamText(rendered))
  }

  /** Slicing loses nothing: the slices concatenate to the text. */
  lemma {:induction false} SlicesConcat(s: string)
    ensures Concat(Slices(s)) == s
    decreases |s|
  {
    if s != [] && |s| > 10 {
      SlicesConcat(s[10..]);
      assert s[..10] + s[10..] == s;
    }
  }

  /** Every slice but the last is exactly 10 long, and the last is 1 to 10 long. */
  lemma {:induction false} SliceLengths(s: string)
    ensures var r := Slices(s);
            (forall i :: 0 <= i < |r| - 1 ==> |r[i]| == 10)
            && (r != [] ==> 1 <= |r[|r| - 1]| <= 10)
    decreases |s|
  {
    if s != [] && |s| > 10 {
      var r := Slices(s);
      SliceLengths(s[10..]);
      assert r[1..] == Slices(s[10..]);
      forall i | 1 <= i < |r| - 1 ensures |r[i]| == 10 {
        assert r[i] == r[1..][i - 1];
      }
    }
  }

  /** The test stream: the slices rebuild the echoed text, there are ceil(len / 10) of them,
    * and all but the last are ten characters long. */
  lemma TestStreamSpec(rendered: string)
    ensures var text := TestStreamText(rendered);
            var r := TestStreamChunks(rendered);
            Concat(r) == text
            && |r| == (|text| + 9) / 10
            && (forall i :: 0 <= i < |r| - 1 ==> |r[i]| == 10)
            && 1 <= |r[|r| - 1]| <= 10
  {
    var text := TestStreamText(rendered);
    SlicesConcat(text);
    SliceLengths(text);
  }

  /** The strategy that goes with a verdict: 'START' for 'CORRECT', else the placeholder. */
  function StrategyFor(studentMistake: string): (strategy: string)
    ensures studentMistake == "CORRECT" ==> strategy == "START"
  {
    if studentMistake == "CORRECT" then "START" else "What strategy to use"
  }

  /** `check_response`: the verdict is fixed to 'CORRECT' until a model is wired in,
    * so it ignores its arguments and always returns ['CORRECT', 'START']. */
  function CheckResponse(message: string, correctAnswer: string): (r: seq<string>)
    ensures r == ["CORRECT", "START"]
  {
    var studentMistake := "CORRECT";
    [studentMistake, StrategyFor(studentMistake)]
  }
}
