/**
 * The `useAnalytics` hook: one analytics record per exercise, replaced on
 * every log call by a copy whose logs have one more entry. Hint logging also
 * raises the highest level reached and adds the level to the set of levels
 * used (a list without duplicates, in first-use order). The clock is the
 * parameter `now`.
 */
module Analytics {
  import opened Wrappers

  datatype ChangeType = Typing | Paste | Delete

  datatype CodeChange = CodeChange(timestamp: int, code: string, changeType: ChangeType)

  datatype HintInteraction = HintInteraction(
    timestamp: int, hintLevel: int, timeBeforeRequest: int,
    viewingDuration: Option<int>, hintContent: string)

  datatype CodeExecution = CodeExecution(timestamp: int, code: string, output: string, executionTime: int, success: bool)

  predicate NoDuplicates<T(==)>(xs: seq<T>) {
    forall i, j :: 0 <= i < j < |xs| ==> xs[i] != xs[j]
  }

  /** `[...new Set(xs)]`: the distinct elements in order of first occurrence. */
  function Dedup(xs: seq<int>): seq<int>
    decreases |xs|
  {
    if xs == [] then []
    else
      var d := Dedup(xs[..|xs| - 1]);
      var x := xs[|xs| - 1];
      if x in d then d else d + [x]
  }

  /** Deduplication keeps every element and no duplicates. */
  lemma {:induction false} DedupSpec(xs: seq<int>)
    ensures NoDuplicates(Dedup(xs))
    ensures forall x :: x in Dedup(xs) <==> x in xs
    decreases |xs|
  {
    if xs != [] {
      var init := xs[..|xs| - 1];
      var x := xs[|xs| - 1];
      DedupSpec(init);
      assert xs == init + [x];
      var d := Dedup(init);
      if x !in d {
        forall i, j | 0 <= i < j < |d + [x]| ensures (d + [x])[i] != (d + [x])[j] {
          if j == |d| { assert (d + [x])[i] == d[i]; }
        }
      }
    }
  }

  /** A list that has no duplicates is its own deduplication. */
  lemma {:induction false} DedupOfDistinct(xs: seq<int>)
    requires NoDuplicates(xs)
    ensures Dedup(xs) == xs
    decreases |xs|
  {
    if xs != [] {
      var init := xs[..|xs| - 1];
      DedupOfDistinct(init);
      assert xs[|xs| - 1] !in init;
      assert init + [xs[|xs| - 1]] == xs;
    }
  }

  /** `[...new Set([...used, level])]` on a duplicate-free list: the level is appended
    * unless it is already there. */
  lemma AddUsedLevel(used: seq<int>, level: int)
    requires NoDuplicates(used)
    ensures Dedup(used + [level]) == if level in used then used else used + [level]
  {
    assert (used + [level])[..|used|] == used;
    DedupOfDistinct(used);
  }

  /** `[...new Set([...used, level])]`: on a duplicate-free list, the level is appended
    * unless it is already there. */
  method WithLevel(used: seq<int>, level: int) returns (r: seq<int>)
    ensures NoDuplicates(used) ==> r == if level in used then used else used + [level]
  {
    if NoDuplicates(used) {
      AddUsedLevel(used, level);
    }
    r := Dedup(used + [level]);
  }

  /** The highest level among the interactions, 0 for none. */
  function MaxLevel(xs: seq<HintInteraction>): (m: int)
    ensures m >= 0
    ensures forall i :: 0 <= i < |xs| ==> xs[i].hintLevel <= m
    ensures m == 0 || exists i :: 0 <= i < |xs| && xs[i].hintLevel == m
    decreases |xs|
  {
    if xs == [] then 0
    else
      var m0 := MaxLevel(xs[..|xs| - 1]);
      var l := xs[|xs| - 1].hintLevel;
      assert forall i :: 0 <= i < |xs| - 1 ==> xs[i] == xs[..|xs| - 1][i];
      if l > m0 then l else m0
  }

  /** `updateHintViewingDuration`'s map: the duration is set on every interaction with the
    * given timestamp, and nothing else changes. */
  function SetViewingDuration(xs: seq<HintInteraction>, hintTimestamp: int, duration: int): (r: seq<HintInteraction>)
    ensures |r| == |xs|
    ensures forall i :: 0 <= i < |xs| ==>
              r[i] == if xs[i].timestamp == hintTimestamp then xs[i].(viewingDuration := Some(duration)) else xs[i]
  {
    seq(|xs|, i requires 0 <= i < |xs| =>
      if xs[i].timestamp == hintTimestamp then xs[i].(viewingDuration := Some(duration)) else xs[i])
  }

  /** Setting viewing durations leaves every interaction's level where it was. */
  lemma SetViewingDurationKeepsLevels(xs: seq<HintInteraction>, hintTimestamp: int, duration: int)
    ensures var r := SetViewingDuration(xs, hintTimestamp, duration);
            MaxLevel(r) == MaxLevel(xs) && LevelsOf(r) == LevelsOf(xs)
            && forall i :: 0 <= i < |xs| ==> r[i].hintLevel == xs[i].hintLevel
  {
    var r := SetViewingDuration(xs, hintTimestamp, duration);
    MaxLevelOfSameLevels(r, xs);
  }

  lemma {:induction false} MaxLevelOfSameLevels(a: seq<HintInteraction>, b: seq<HintInteraction>)
    requires |a| == |b| && forall i :: 0 <= i < |a| ==> a[i].hintLevel == b[i].hintLevel
    ensures MaxLevel(a) == MaxLevel(b) && LevelsOf(a) == LevelsOf(b)
    decreases |a|
  {
    if a != [] {
      MaxLevelOfSameLevels(a[..|a| - 1], b[..|b| - 1]);
    }
  }

  /** The levels of the interactions logged. */
  function LevelsOf(xs: seq<HintInteraction>): set<int>
    decreases |xs|
  {
    if xs == [] then {} else LevelsOf(xs[..|xs| - 1]) + {xs[|xs| - 1].hintLevel}
  }

  /** A level is in `LevelsOf(xs)` exactly when some interaction was logged at it. */
  lemma {:induction false} LevelsOfSpec(xs: seq<HintInteraction>, l: int)
    ensures l in LevelsOf(xs) <==> exists i :: 0 <= i < |xs| && xs[i].hintLevel == l
    decreases |xs|
  {
    if xs != [] {
      var init := xs[..|xs| - 1];
      LevelsOfSpec(init, l);
      if l in LevelsOf(init) {
        var i :| 0 <= i < |init| && init[i].hintLevel == l;
        assert xs[i] == init[i];
      }
      if exists i :: 0 <= i < |xs| && xs[i].hintLevel == l {
        var i :| 0 <= i < |xs| && xs[i].hintLevel == l;
        if i < |init| {
          assert init[i] == xs[i];
        }
      }
    }
  }

  /** The level summary agrees with an interaction log: `used` holds each level logged
    * exactly once, and `current` is the highest (0 before any). */
  ghost predicate Summarised(xs: seq<HintInteraction>, used: seq<int>, current: int) {
    NoDuplicates(used)
    && (forall l :: l in used <==> l in LevelsOf(xs))
    && current == MaxLevel(xs)
  }

  /** Logging one more interaction keeps the summary in agreement when the highest level
    * becomes the larger of the old one and the new level, and the level joins the used
    * levels unless already there. */
  lemma LogKeepsSummary(xs: seq<HintInteraction>, used: seq<int>, current: int, x: HintInteraction,
                        ys: seq<HintInteraction>, used': seq<int>, current': int)
    requires Summarised(xs, used, current)
    requires ys == xs + [x]
    requires used' == if x.hintLevel in used then used else used + [x.hintLevel]
    requires current' == if current > x.hintLevel then current else x.hintLevel
    ensures Summarised(ys, used', current')
  {
    var l := x.hintLevel;
    assert ys[..|ys| - 1] == xs;
    assert MaxLevel(ys) == if l > MaxLevel(xs) then l else MaxLevel(xs);
    assert LevelsOf(ys) == LevelsOf(xs) + {l};
    forall m ensures m in used' <==> m in LevelsOf(ys) {
      assert m in used' <==> m in used || m == l;
    }
    if l !in used {
      forall i, j | 0 <= i < j < |used'| ensures used'[i] != used'[j] {
        if j == |used| { assert used'[i] == used[i]; }
      }
    }
  }

  class AnalyticsTracker {
    var sessionStartTime: int
    var exerciseStartTime: int
    var totalSessionTime: int
    var totalExerciseTime: int
    var codeChanges: seq<CodeChange>
    var hintInteractions: seq<HintInteraction>
    var codeExecutions: seq<CodeExecution>
    var currentHintLevel: int
    var hintsUsed: seq<int>

    /** The level summary agrees with the interaction log. */
    ghost predicate Valid()
      reads this
    {
      Summarised(hintInteractions, hintsUsed, currentHintLevel)
    }

    constructor(now: int)
      ensures Valid()
      ensures sessionStartTime == now && exerciseStartTime == now
      ensures totalSessionTime == 0 && totalExerciseTime == 0
      ensures codeChanges == [] && hintInteractions == [] && codeExecutions == []
      ensures currentHintLevel == 0 && hintsUsed == []
    {
      sessionStartTime, exerciseStartTime := now, now;
      totalSessionTime, totalExerciseTime := 0, 0;
      codeChanges, hintInteractions, codeExecutions := [], [], [];
      currentHintLevel, hintsUsed := 0, [];
    }

    /** `startTracking`: both clocks restart now. */
    method StartTracking(now: int)
      requires Valid()
      modifies this
      ensures Valid()
      ensures sessionStartTime == now && exerciseStartTime == now
      ensures totalSessionTime == old(totalSessionTime) && totalExerciseTime == old(totalExerciseTime)
      ensures codeChanges == old(codeChanges) && hintInteractions == old(hintInteractions) && codeExecutions == old(codeExecutions)
      ensures currentHintLevel == old(currentHintLevel) && hintsUsed == old(hintsUsed)
    {
      sessionStartTime, exerciseStartTime := now, now;
    }

    /** One tick of the one-second interval. */
    method Tick(now: int)
      requires Valid()
      modifies this
      ensures Valid()
      ensures totalSessionTime == now - sessionStartTime && totalExerciseTime == now - exerciseStartTime
      ensures sessionStartTime == old(sessionStartTime) && exerciseStartTime == old(exerciseStartTime)
      ensures codeChanges == old(codeChanges) && hintInteractions == old(hintInteractions) && codeExecutions == old(codeExecutions)
      ensures currentHintLevel == old(currentHintLevel) && hintsUsed == old(hintsUsed)
    {
      totalSessionTime := now - sessionStartTime;
      totalExerciseTime := now - exerciseStartTime;
    }

    /** `logCodeChange`: one change appended, nothing else touched. */
    method LogCodeChange(code: string, changeType: ChangeType, now: int)
      requires Valid()
      modifies this
      ensures Valid()
      ensures codeChanges == old(codeChanges) + [CodeChange(now, code, changeType)]
      ensures hintInteractions == old(hintInteractions) && codeExecutions == old(codeExecutions)
      ensures currentHintLevel == old(currentHintLevel) && hintsUsed == old(hintsUsed)
      ensures sessionStartTime == old(sessionStartTime) && exerciseStartTime == old(exerciseStartTime)
      ensures totalSessionTime == old(totalSessionTime) && totalExerciseTime == old(totalExerciseTime)
    {
      codeChanges := codeChanges + [CodeChange(now, code, changeType)];
    }

    /** `logHintInteraction`: one interaction appended, timed from the exercise start; the
      * highest level becomes the larger of the old one and this one, and the level joins
      * the used levels unless already there. */
    method LogHintInteraction(hintLevel: int, hintContent: string, now: int) returns (interaction: HintInteraction)
      requires Valid()
      requires 1 <= hintLevel <= 3
      modifies this
      ensures Valid()
      ensures interaction == HintInteraction(now, hintLevel, now - old(exerciseStartTime), None, hintContent)
      ensures hintInteractions == old(hintInteractions) + [interaction]
      ensures currentHintLevel == if hintLevel > old(currentHintLevel) then hintLevel else old(currentHintLevel)
      ensures hintsUsed == if hintLevel in old(hintsUsed) then old(hintsUsed) else old(hintsUsed) + [hintLevel]
      ensures codeChanges == old(codeChanges) && codeExecutions == old(codeExecutions)
      ensures sessionStartTime == old(sessionStartTime) && exerciseStartTime == old(exerciseStartTime)
      ensures totalSessionTime == old(totalSessionTime) && totalExerciseTime == old(totalExerciseTime)
    {
      interaction := HintInteraction(now, hintLevel, now - exerciseStartTime, None, hintContent);
      ghost var prevLog, prevUsed, prevLevel := hintInteractions, hintsUsed, currentHintLevel;
      var used := WithLevel(hintsUsed, hintLevel);
      hintInteractions := hintInteractions + [interaction];
      currentHintLevel := if currentHintLevel > hintLevel then currentHintLevel else hintLevel;
      hintsUsed := used;
      LogKeepsSummary(prevLog, prevUsed, prevLevel, interaction, hintInteractions, hintsUsed, currentHintLevel);
    }

    /** `logCodeExecution`: one execution appended, nothing else touched. */
    method LogCodeExecution(code: string, output: string, executionTime: int, success: bool, now: int)
      requires Valid()
      modifies this
      ensures Valid()
      ensures codeExecutions == old(codeExecutions) + [CodeExecution(now, code, output, executionTime, success)]
      ensures codeChanges == old(codeChanges) && hintInteractions == old(hintInteractions)
      ensures currentHintLevel == old(currentHintLevel) && hintsUsed == old(hintsUsed)
      ensures sessionStartTime == old(sessionStartTime) && exerciseStartTime == old(exerciseStartTime)
      ensures totalSessionTime == old(totalSessionTime) && totalExerciseTime == old(totalExerciseTime)
    {
      codeExecutions := codeExecutions + [CodeExecution(now, code, output, executionTime, success)];
    }

    /** `updateHintViewingDuration`. */
    method UpdateHintViewingDuration(hintTimestamp: int, duration: int)
      requires Valid()
      modifies this
      ensures Valid()
      ensures hintInteractions == SetViewingDuration(old(hintInteractions), hintTimestamp, duration)
      ensures codeChanges == old(codeChanges) && codeExecutions == old(codeExecutions)
      ensures currentHintLevel == old(currentHintLevel) && hintsUsed == old(hintsUsed)
      ensures sessionStartTime == old(sessionStartTime) && exerciseStartTime == old(exerciseStartTime)
      ensures totalSessionTime == old(totalSessionTime) && totalExerciseTime == old(totalExerciseTime)
    {
      var prev := hintInteractions;
      hintInteractions := SetViewingDuration(hintInteractions, hintTimestamp, duration);
      SetViewingDurationKeepsLevels(prev, hintTimestamp, duration);
    }
  }
}
