/**
 * The end-of-subproblem handler of BACKEND/handleExit.py. It validates the
 * request's `session_id`, looks the session up, pads the stored start
 * time's fractional seconds to six digits so that `datetime.fromisoformat`
 * accepts it, and records the end time and the whole-second duration,
 * rounded half to even.
 *
 * Times are integers in microseconds since the epoch. ISO parsing is the
 * parameter `parseIso` (`None`: it raises); the clock is `nowMicros`;
 * `storeOk` says whether the store calls succeed.
 */
module EndTimer {
  import opened Wrappers
  import opened Text

  // -----------------------------------------------------------------------
  // Fractional-second padding
  // -----------------------------------------------------------------------

  /** `s.index(c)`: the first position of `c`. */
  function IndexOf(s: string, c: char): (r: Option<nat>)
    ensures r.None? <==> !HasChar(s, c)
    ensures r.Some? ==> r.value < |s| && s[r.value] == c && forall j :: 0 <= j < r.value ==> s[j] != c
  {
    if s == [] then None
    else if s[0] == c then Some(0)
    else
      match IndexOf(s[1..], c)
      case None =>
        assert forall j :: 1 <= j < |s| ==> s[j] == s[1..][j - 1];
        None
      case Some(i) => Some(i + 1)
  }

  /** `s.replace(c, '')`. */
  function RemoveChar(s: string, c: char): (r: string)
    ensures !HasChar(r, c)
    ensures !HasChar(s, c) ==> r == s
  {
    if s == [] then []
    else
      var rest := RemoveChar(s[1..], c);
      assert !HasChar(s, c) ==> !HasChar(s[1..], c) by {
        forall j | 0 <= j < |s[1..]| ensures s[1..][j] == s[j + 1] { }
      }
      if s[0] == c then rest
      else
        assert forall j :: 1 <= j < |[s[0]] + rest| ==> ([s[0]] + rest)[j] == rest[j - 1];
        [s[0]] + rest
  }

  /** The fraction after the first '.', padded: a 'Z' anywhere is dropped, the digits
    * padded and one 'Z' put back; otherwise an offset after the first '+' is kept after the
    * padded digits; otherwise the whole fraction is padded. Padding is `ljust(6, '0')`. */
  function PadFraction(frac: string): (r: string)
    ensures HasChar(frac, 'Z') ==> r == LJust(RemoveChar(frac, 'Z'), 6, '0') + "Z"
  {
    if HasChar(frac, 'Z') then LJust(RemoveChar(frac, 'Z'), 6, '0') + "Z"
    else
      match IndexOf(frac, '+')
      case Some(k) => LJust(frac[..k], 6, '0') + "+" + frac[k + 1..]
      case None => LJust(frac, 6, '0')
  }

  /** The start-time string after padding: unchanged without a '.'; otherwise the part up to
    * the first '.' is kept and the fraction padded. */
  function PadFractionalSeconds(s: string): (r: string)
    ensures !HasChar(s, '.') ==> r == s
    ensures HasChar(s, '.') ==>
              var k := IndexOf(s, '.').value;
              k < |r| && r[..k + 1] == s[..k + 1] && Padded(r[k + 1..], FractionDigits(s[k + 1..]), FractionSuffix(s[k + 1..]))
  {
    match IndexOf(s, '.')
    case None => s
    case Some(k) =>
      var r := s[..k] + "." + PadFraction(s[k + 1..]);
      PadFractionSpec(s[k + 1..]);
      assert r[..k + 1] == s[..k + 1] && r[k + 1..] == PadFraction(s[k + 1..]);
      r
  }

  /** The digits of a fraction: without its 'Z', or up to its first '+'. */
  ghost function FractionDigits(frac: string): string {
    if HasChar(frac, 'Z') then RemoveChar(frac, 'Z')
    else if HasChar(frac, '+') then frac[..IndexOf(frac, '+').value]
    else frac
  }

  /** What follows the digits of a fraction: 'Z', or the '+offset'. */
  ghost function FractionSuffix(frac: string): string {
    if HasChar(frac, 'Z') then "Z"
    else if HasChar(frac, '+') then frac[IndexOf(frac, '+').value..]
    else ""
  }

  /** `r` is `digits`, then '0's up to six characters, then `suffix`. */
  ghost predicate Padded(r: string, digits: string, suffix: string) {
    var n := if |digits| < 6 then 6 else |digits|;
    |r| == n + |suffix| && r[..|digits|] == digits
    && (forall i :: |digits| <= i < n ==> r[i] == '0')
    && r[n..] == suffix
  }

  /** Padding never truncates: the fraction's digits are a prefix of at least six padded
    * digits, followed by '0's, and the 'Z' or '+offset' suffix is kept after them. */
  lemma PadFractionSpec(frac: string)
    ensures Padded(PadFraction(frac), FractionDigits(frac), FractionSuffix(frac))
  {
    if HasChar(frac, 'Z') {
      PaddedThenSuffix(RemoveChar(frac, 'Z'), "Z");
    } else if HasChar(frac, '+') {
      var k := IndexOf(frac, '+').value;
      assert frac[k..] == "+" + frac[k + 1..];
      assert PadFraction(frac) == LJust(frac[..k], 6, '0') + frac[k..];
      PaddedThenSuffix(frac[..k], frac[k..]);
    } else {
      assert PadFraction(frac) == LJust(frac, 6, '0') + "";
      PaddedThenSuffix(frac, "");
    }
  }

  lemma PaddedThenSuffix(digits: string, suffix: string)
    ensures Padded(LJust(digits, 6, '0') + suffix, digits, suffix)
  {
    var d := LJust(digits, 6, '0');
    var r := d + suffix;
    assert r[..|digits|] == d[..|digits|];
    assert r[|d|..] == suffix;
  }

  lemma LJustIdempotent(s: string, width: nat, fill: char)
    ensures LJust(LJust(s, width, fill), width, fill) == LJust(s, width, fill)
  {
  }

  lemma LJustAddsOnlyFill(s: string, width: nat, fill: char, c: char)
    requires c != fill && !HasChar(s, c)
    ensures !HasChar(LJust(s, width, fill), c)
  {
    var r := LJust(s, width, fill);
    forall i | 0 <= i < |r| ensures r[i] != c {
      if i < |s| { assert r[i] == r[..|s|][i] == s[i]; }
    }
  }

  lemma NoCharInConcat(a: string, b: string, c: char)
    requires !HasChar(a, c) && !HasChar(b, c)
    ensures !HasChar(a + b, c)
  {
    forall i | 0 <= i < |a + b| ensures (a + b)[i] != c {
      if i >= |a| { assert (a + b)[i] == b[i - |a|]; }
    }
  }

  lemma RemoveCharAppend(a: string, b: string, c: char)
    ensures RemoveChar(a + b, c) == RemoveChar(a, c) + RemoveChar(b, c)
    decreases |a|
  {
    if a != [] {
      assert (a + b)[1..] == a[1..] + b;
      RemoveCharAppend(a[1..], b, c);
    } else {
      assert a + b == b;
    }
  }

  /** Padding a padded fraction changes nothing. */
  lemma {:induction false} PadFractionIdempotent(frac: string)
    ensures PadFraction(PadFraction(frac)) == PadFraction(frac)
  {
    var r := PadFraction(frac);
    if HasChar(frac, 'Z') {
      var d := LJust(RemoveChar(frac, 'Z'), 6, '0');
      LJustAddsOnlyFill(RemoveChar(frac, 'Z'), 6, '0', 'Z');
      assert r[|r| - 1] == 'Z';
      assert HasChar(r, 'Z');
      RemoveCharAppend(d, "Z", 'Z');
      assert RemoveChar("Z", 'Z') == "";
      assert RemoveChar(r, 'Z') == d;
      LJustIdempotent(RemoveChar(frac, 'Z'), 6, '0');
    } else if HasChar(frac, '+') {
      var k := IndexOf(frac, '+').value;
      var head := frac[..k];
      var tail := frac[k + 1..];
      var d := LJust(head, 6, '0');
      assert !HasChar(head, 'Z') && !HasChar(tail, 'Z') && !HasChar(head, '+') by {
        forall j | 0 <= j < |head| ensures head[j] == frac[j] { }
        forall j | 0 <= j < |tail| ensures tail[j] == frac[k + 1 + j] { }
      }
      LJustAddsOnlyFill(head, 6, '0', 'Z');
      LJustAddsOnlyFill(head, 6, '0', '+');
      NoCharInConcat(d, "+", 'Z');
      NoCharInConcat(d + "+", tail, 'Z');
      assert r == d + "+" + tail;
      IndexOfAfterPrefix(d, tail, '+');
      assert r[..|d|] == d && r[|d| + 1..] == tail;
      LJustIdempotent(head, 6, '0');
    } else {
      LJustAddsOnlyFill(frac, 6, '0', 'Z');
      LJustAddsOnlyFill(frac, 6, '0', '+');
      LJustIdempotent(frac, 6, '0');
    }
  }

  lemma IndexOfAfterPrefix(d: string, tail: string, c: char)
    requires !HasChar(d, c)
    ensures IndexOf(d + [c] + tail, c) == Some(|d|)
  {
    var s := d + [c] + tail;
    assert s[|d|] == c;
    assert forall j :: 0 <= j < |d| ==> s[j] == d[j];
  }

  /** Padding a padded start time changes nothing: the result is a fixed point. */
  lemma PadFractionalSecondsIdempotent(s: string)
    ensures PadFractionalSeconds(PadFractionalSeconds(s)) == PadFractionalSeconds(s)
  {
    if HasChar(s, '.') {
      var k := IndexOf(s, '.').value;
      var main := s[..k];
      var f := PadFraction(s[k + 1..]);
      assert !HasChar(main, '.') by {
        forall j | 0 <= j < |main| ensures main[j] == s[j] { }
      }
      IndexOfAfterPrefix(main, f, '.');
      var r := main + "." + f;
      assert r[..k] == main && r[k + 1..] == f;
      PadFractionIdempotent(s[k + 1..]);
    }
  }

  // -----------------------------------------------------------------------
  // Duration
  // -----------------------------------------------------------------------

  /** `round(d / 1e6)` on a microsecond count: Python rounds halves to the even neighbour. */
  function RoundHalfEven(micros: int): (r: int)
    ensures 1000000 * r - 500000 <= micros <= 1000000 * r + 500000
    ensures micros - 1000000 * r == 500000 || 1000000 * r - micros == 500000 ==> r % 2 == 0
  {
    var q := micros / 1000000;
    var rem := micros % 1000000;
    if rem > 500000 then q + 1
    else if rem < 500000 then q
    else if q % 2 == 0 then q else q + 1
  }

  /** `round((end - start).total_seconds())`, with no clamping of a negative span. */
  function DurationSeconds(startMicros: int, endMicros: int): (r: int)
    ensures -500000 <= (endMicros - startMicros) - 1000000 * r <= 500000
    ensures (endMicros - startMicros) - 1000000 * r == 500000 || (endMicros - startMicros) - 1000000 * r == -500000
            ==> r % 2 == 0
    ensures startMicros <= endMicros ==> r >= 0
    ensures endMicros < startMicros - 500000 ==> r < 0
  {
    RoundHalfEven(endMicros - startMicros)
  }

  // -----------------------------------------------------------------------
  // The handler
  // -----------------------------------------------------------------------

  /** A `subproblem_time_logs` row. */
  datatype TimeLog = TimeLog(startTime: string, endTime: Option<int>, durationSeconds: Option<int>)

  datatype Body = ErrorBody(error: string) | Success

  datatype Response = Response(body: Body, status: int)

  /** `datetime.fromisoformat(padded.replace('Z', '+00:00'))`. */
  function ParseStart(startTime: string, parseIso: string -> Option<int>): Option<int> {
    parseIso(ReplaceZ(PadFractionalSeconds(startTime)))
  }

  /** How many times `c` occurs in `s`. */
  function CountChar(s: string, c: char): (n: nat)
    ensures n == 0 <==> !HasChar(s, c)
    ensures n <= |s|
  {
    if s == [] then 0
    else
      assert HasChar(s, c) <==> s[0] == c || HasChar(s[1..], c) by {
        forall j | 0 <= j < |s[1..]| ensures s[1..][j] == s[j + 1] { }
      }
      (if s[0] == c then 1 else 0) + CountChar(s[1..], c)
  }

  /** `s.replace('Z', '+00:00')`: no 'Z' is left, each one grows by five characters, and a
    * string without 'Z' is unchanged. */
  function ReplaceZ(s: string): (r: string)
    ensures !HasChar(r, 'Z')
    ensures |r| == |s| + 5 * CountChar(s, 'Z')
    ensures !HasChar(s, 'Z') ==> r == s
  {
    if s == [] then []
    else
      assert !HasChar(s, 'Z') ==> !HasChar(s[1..], 'Z') by {
        forall j | 0 <= j < |s[1..]| ensures s[1..][j] == s[j + 1] { }
      }
      var head := if s[0] == 'Z' then "+00:00" else [s[0]];
      var rest := ReplaceZ(s[1..]);
      assert !HasChar(head, 'Z');
      NoCharInConcat(head, rest, 'Z');
      head + rest
  }

  /** The replacement works character by character: replacing in a concatenation is
    * replacing in each part. */
  lemma {:induction false} ReplaceZAppend(a: string, b: string)
    ensures ReplaceZ(a + b) == ReplaceZ(a) + ReplaceZ(b)
    decreases |a|
  {
    if a == [] {
      assert a + b == b;
    } else {
      assert (a + b)[1..] == a[1..] + b;
      ReplaceZAppend(a[1..], b);
    }
  }

  /** The row after a successful end: end time and duration written, whatever was there. */
  function EndedLog(log: TimeLog, startMicros: int, nowMicros: int): (r: TimeLog)
    ensures r.startTime == log.startTime
    ensures r.endTime == Some(nowMicros)
    ensures r.durationSeconds == Some(DurationSeconds(startMicros, nowMicros))
  {
    log.(endTime := Some(nowMicros), durationSeconds := Some(DurationSeconds(startMicros, nowMicros)))
  }

  /** Ending is not idempotent: a second end overwrites the first one's end time and
    * duration, so ending twice at different times leaves a different row than ending once. */
  lemma EndingTwiceOverwrites(log: TimeLog, startMicros: int, first: int, second: int)
    ensures EndedLog(EndedLog(log, startMicros, first), startMicros, second) == EndedLog(log, startMicros, second)
    ensures first != second ==> EndedLog(log, startMicros, first) != EndedLog(log, startMicros, second)
  {
  }

  class TimeLogStore {
    var logs: map<string, TimeLog>

    constructor(logs: map<string, TimeLog>)
      ensures this.logs == logs
    {
      this.logs := logs;
    }

    /** `end_subproblem_timer_logic({'session_id': sessionId})`. */
    method EndSubproblemTimer(sessionId: Option<string>, nowMicros: int, parseIso: string -> Option<int>, storeOk: bool)
      returns (r: Response)
      modifies this
      ensures sessionId.None? || sessionId.value == "" ==>
                r == Response(ErrorBody("session_id is required"), 400) && logs == old(logs)
      ensures sessionId.Some? && sessionId.value != "" ==>
                var id := sessionId.value;
                if !storeOk then r == Response(ErrorBody("Internal Server Error"), 500) && logs == old(logs)
                else if id !in old(logs) then r == Response(ErrorBody("Session not found"), 404) && logs == old(logs)
                else match ParseStart(old(logs)[id].startTime, parseIso)
                     case None => r == Response(ErrorBody("Internal Server Error"), 500) && logs == old(logs)
                     case Some(start) =>
                       r == Response(Success, 200) && logs == old(logs)[id := EndedLog(old(logs)[id], start, nowMicros)]
    {
      if sessionId.None? || sessionId.value == "" {
        return Response(ErrorBody("session_id is required"), 400);
      }
      var id := sessionId.value;
      if !storeOk {
        return Response(ErrorBody("Internal Server Error"), 500);
      }
      if id !in logs {
        return Response(ErrorBody("Session not found"), 404);
      }
      var log := logs[id];
      var start := ParseStart(log.startTime, parseIso);
      if start.None? {
        return Response(ErrorBody("Internal Server Error"), 500);
      }
      logs := logs[id := EndedLog(log, start.value, nowMicros)];
      r := Response(Success, 200);
    }
  }
}
