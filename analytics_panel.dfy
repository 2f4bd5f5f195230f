/**
 * The arithmetic of the analytics dashboard: elapsed-time formatting, the
 * success rate and the average execution time (both rounded with
 * `Math.round`), the highest-level label and the recent-activity lists.
 * Times are integer milliseconds; the rates are computed exactly on
 * integers.
 */
module AnalyticsPanel {
  import opened Text
  import opened Analytics

  /** The fields `formatTime` shows: hours, minutes and seconds, or minutes and seconds,
    * or seconds alone. */
  datatype Clock = HMS(h: int, m: int, s: int) | MS(m: int, s: int) | S(s: int)

  /** `seconds = floor(ms / 1000)`, `minutes = floor(seconds / 60)`, `hours = floor(minutes / 60)`,
    * and the branch `formatTime` takes. */
  function Decompose(ms: int): (c: Clock)
    ensures c.HMS? <==> ms >= 3600000
    ensures c.MS? <==> 60000 <= ms < 3600000
    ensures c.HMS? ==> 0 <= c.m < 60 && 0 <= c.s < 60 && 3600 * c.h + 60 * c.m + c.s == ms / 1000
    ensures c.MS? ==> 0 < c.m < 60 && 0 <= c.s < 60 && 60 * c.m + c.s == ms / 1000
    ensures c.S? ==> c.s == ms / 1000 && c.s < 60
  {
    var seconds := ms / 1000;
    var minutes := seconds / 60;
    var hours := minutes / 60;
    if hours > 0 then HMS(hours, minutes % 60, seconds % 60)
    else if minutes > 0 then MS(minutes, seconds % 60)
    else S(seconds)
  }

  /** `formatTime(ms)`. */
  function FormatTime(ms: int): (r: string)
    ensures |r| > 0 && r[|r| - 1] == 's'
    ensures HasChar(r, 'h') <==> ms >= 3600000
    ensures HasChar(r, 'm') <==> ms >= 60000
  {
    match Decompose(ms)
    case HMS(h, m, s) =>
      NumberHasNoUnit(h); NumberHasNoUnit(m); NumberHasNoUnit(s);
      HasCharConcat(IntToString(h) + "h " + IntToString(m) + "m " + IntToString(s), "s");
      HasCharConcat(IntToString(h) + "h " + IntToString(m) + "m ", IntToString(s));
      HasCharConcat(IntToString(h) + "h " + IntToString(m), "m ");
      HasCharConcat(IntToString(h) + "h ", IntToString(m));
      HasCharConcat(IntToString(h), "h ");
      assert ("h ")[0] == 'h' && ("m ")[0] == 'm' && !HasChar("m ", 'h') && !HasChar("s", 'h');
      IntToString(h) + "h " + IntToString(m) + "m " + IntToString(s) + "s"
    case MS(m, s) =>
      NumberHasNoUnit(m); NumberHasNoUnit(s);
      HasCharConcat(IntToString(m) + "m " + IntToString(s), "s");
      HasCharConcat(IntToString(m) + "m ", IntToString(s));
      HasCharConcat(IntToString(m), "m ");
      assert ("m ")[0] == 'm' && !HasChar("m ", 'h') && !HasChar("s", 'h') && !HasChar("s", 'm');
      IntToString(m) + "m " + IntToString(s) + "s"
    case S(s) =>
      NumberHasNoUnit(s);
      HasCharConcat(IntToString(s), "s");
      IntToString(s) + "s"
  }

  lemma HasCharConcat(a: string, b: string)
    ensures forall c :: HasChar(a + b, c) <==> HasChar(a, c) || HasChar(b, c)
  {
    forall c ensures HasChar(a + b, c) <==> HasChar(a, c) || HasChar(b, c) {
      if HasChar(a + b, c) {
        var i :| 0 <= i < |a + b| && (a + b)[i] == c;
        if i >= |a| { assert b[i - |a|] == c; }
      }
      if HasChar(a, c) {
        var i :| 0 <= i < |a| && a[i] == c;
        assert (a + b)[i] == c;
      }
      if HasChar(b, c) {
        var i :| 0 <= i < |b| && b[i] == c;
        assert (a + b)[|a| + i] == c;
      }
    }
  }

  /** A rendered number has no unit letter. */
  lemma NumberHasNoUnit(n: int)
    ensures !HasChar(IntToString(n), 'h') && !HasChar(IntToString(n), 'm') && !HasChar(IntToString(n), 's')
  {
    var t := IntToString(n);
    var d := NatToString(if n < 0 then -n else n);
    assert t == if n < 0 then "-" + d else d;
    forall i | 0 <= i < |t| ensures t[i] != 'h' && t[i] != 'm' && t[i] != 's' {
      if n < 0 && i > 0 { assert t[i] == d[i - 1]; }
    }
  }

  /** The shown fields add back up to the whole seconds elapsed, each below the next unit. */
  lemma FormatTimeFields(ms: int)
    requires ms >= 0
    ensures var c := Decompose(ms);
            match c
            case HMS(h, m, s) => h >= 1 && 3600 * h + 60 * m + s == ms / 1000
            case MS(m, s) => 60 * m + s == ms / 1000
            case S(s) => 0 <= s < 60 && s == ms / 1000
  {
  }

  function CountSuccesses(execs: seq<CodeExecution>): (k: nat)
    ensures k <= |execs|
  {
    if execs == [] then 0
    else CountSuccesses(execs[..|execs| - 1]) + (if execs[|execs| - 1].success then 1 else 0)
  }

  /** `Math.round(n / d)` for d > 0: the nearest integer, halves rounded up. */
  function RoundDiv(n: int, d: int): (r: int)
    requires d > 0
    ensures 2 * d * r - d <= 2 * n < 2 * d * r + d
  {
    var r := (2 * n + d) / (2 * d);
    DivBounds(2 * n + d, 2 * d);
    r
  }

  lemma DivBounds(x: int, d: int)
    requires d > 0
    ensures d * (x / d) <= x < d * (x / d) + d
  {
  }

  /** `getSuccessRate`: 0 with no executions, else the rounded percentage of successes. */
  function GetSuccessRate(execs: seq<CodeExecution>): (r: int)
    ensures execs == [] ==> r == 0
    ensures execs != [] ==> 2 * |execs| * r - |execs| <= 200 * CountSuccesses(execs) < 2 * |execs| * r + |execs|
  {
    if |execs| == 0 then 0 else RoundDiv(100 * CountSuccesses(execs), |execs|)
  }

  /** The success rate is a percentage: within 0..100, 100 exactly when every run succeeded
    * and 0 when none did. */
  lemma SuccessRateIsPercentage(execs: seq<CodeExecution>)
    ensures 0 <= GetSuccessRate(execs) <= 100
    ensures execs != [] && CountSuccesses(execs) == |execs| ==> GetSuccessRate(execs) == 100
    ensures CountSuccesses(execs) == 0 ==> GetSuccessRate(execs) == 0
  {
    if execs != [] {
      var n := |execs|;
      var r := GetSuccessRate(execs);
      var k := CountSuccesses(execs);
      RateBounds(n, k, r);
    }
  }

  lemma RateBounds(n: int, k: int, r: int)
    requires n > 0 && 0 <= k <= n
    requires 2 * n * r - n <= 200 * k < 2 * n * r + n
    ensures 0 <= r <= 100
    ensures k == n ==> r == 100
    ensures k == 0 ==> r == 0
  {
    CancelLt(n, 0, 2 * r + 1);
    CancelLe(n, 2 * r - 1, 200);
    if k == n {
      CancelLt(n, 199, 2 * r);
    }
    if k == 0 {
      CancelLe(n, 2 * r - 1, 0);
    }
  }

  lemma CancelLe(n: int, a: int, b: int)
    requires n > 0 && n * a <= n * b
    ensures a <= b
  {
  }

  lemma CancelLt(n: int, a: int, b: int)
    requires n > 0 && n * a < n * b
    ensures a < b
  {
  }

  function TotalExecutionTime(execs: seq<CodeExecution>): int {
    if execs == [] then 0
    else TotalExecutionTime(execs[..|execs| - 1]) + execs[|execs| - 1].executionTime
  }

  /** `getAverageExecutionTime`: 0 with no executions, else the mean time rounded to the
    * nearest millisecond, halves up. */
  function GetAverageExecutionTime(execs: seq<CodeExecution>): (r: int)
    ensures execs == [] ==> r == 0
    ensures execs != [] ==> 2 * |execs| * r - |execs| <= 2 * TotalExecutionTime(execs) < 2 * |execs| * r + |execs|
  {
    if |execs| == 0 then 0 else RoundDiv(TotalExecutionTime(execs), |execs|)
  }

  /** The highest-level label. */
  function HighestLevelLabel(level: int): (r: string)
    ensures level == 0 <==> r == "None"
    ensures level != 0 ==> |r| > 6 && r[..6] == "Level " && r[6..] == IntToString(level)
  {
    if level == 0 then "None" else "Level " + IntToString(level)
  }

  /** `xs.slice(-3).reverse()`: the last three entries (or all, when fewer), newest first. */
  function RecentFirst<T>(xs: seq<T>): (r: seq<T>)
    ensures |r| == if |xs| < 3 then |xs| else 3
    ensures forall i :: 0 <= i < |r| ==> r[i] == xs[|xs| - 1 - i]
  {
    var tail := if |xs| < 3 then xs else xs[|xs| - 3..];
    seq(|tail|, i requires 0 <= i < |tail| => tail[|tail| - 1 - i])
  }
}
