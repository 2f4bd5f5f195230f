/**
 * The server-sent-event framing shared by the Flask streaming endpoints and
 * the browser client: every event is "data: " followed by one JSON object and
 * a blank line. The JSON object is abstracted as a `Frame` holding the two
 * members either end reads; encoding it to text is a parameter.
 */
module StreamFrames {
  import opened Wrappers

  /** A JSON event object: `{"isCorrect": b}` or `{"chunk": s}` (or both, or neither). */
  datatype Frame = Frame(isCorrect: Option<bool>, chunk: Option<string>)

  /** `{"isCorrect": b}`. */
  function VerdictFrame(b: bool): Frame {
    Frame(Some(b), None)
  }

  /** `{"chunk": s}`. */
  function ChunkFrame(s: string): Frame {
    Frame(None, Some(s))
  }

  /** One event as written to the wire: `f"data: {json}\n\n"`. */
  function Event(f: Frame, encode: Frame -> string): string {
    "data: " + encode(f) + "\n\n"
  }

  /** The response body: the events one after another. */
  function Wire(frames: seq<Frame>, encode: Frame -> string): string
    decreases |frames|
  {
    if frames == [] then "" else Event(frames[0], encode) + Wire(frames[1..], encode)
  }

  /** `json.dumps` output never holds a raw line feed. */
  predicate NoLineFeed(s: string) {
    forall i :: 0 <= i < |s| ==> s[i] != '\n'
  }
}
