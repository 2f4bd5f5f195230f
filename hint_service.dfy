/**
 * The pure parts of HintService: the hint level a run has reached on a
 * subproblem, the hint text shown again on load, and the whole-second
 * duration of a hint view. Hint levels travel as the names
 * 'initial' | 'more_help' | 'solution' (here `HintLevelName`) and are stored
 * as the numbers 1 | 2 | 3.
 */
module HintService {
  import opened Wrappers
  import opened Records
  import WeekContentService

  datatype HintLevelName = Initial | MoreHelp | Solution

  /** The level numbers of the usage entries, in order. */
  function Levels(usage: seq<HintUsageLog>): (r: seq<int>)
    ensures |r| == |usage| && forall i :: 0 <= i < |usage| ==> r[i] == usage[i].hintLevel
  {
    if usage == [] then [] else [usage[0].hintLevel] + Levels(usage[1..])
  }

  /** `levelMap[n] || 'initial'`. */
  function NameOfLevel(n: int): HintLevelName {
    if n == 1 then Initial else if n == 2 then MoreHelp else if n == 3 then Solution else Initial
  }

  /** `determineCurrentHintLevel`: the name of the highest stored level; 'initial' for no
    * entries and for a highest level outside 1..3. */
  function DetermineCurrentHintLevel(usage: seq<HintUsageLog>): (r: HintLevelName)
    ensures r == MoreHelp <==> usage != [] && (exists u :: u in usage && u.hintLevel == 2)
                                && forall u :: u in usage ==> u.hintLevel <= 2
    ensures r == Solution <==> usage != [] && (exists u :: u in usage && u.hintLevel == 3)
                                && forall u :: u in usage ==> u.hintLevel <= 3
  {
    if usage == [] then Initial
    else
      var m := WeekContentService.MaxOf(Levels(usage));
      assert forall u :: u in usage ==> u.hintLevel in Levels(usage) by {
        forall u | u in usage ensures u.hintLevel in Levels(usage) {
          var i :| 0 <= i < |usage| && usage[i] == u;
          assert Levels(usage)[i] == u.hintLevel;
        }
      }
      assert exists u :: u in usage && u.hintLevel == m.value by {
        var i :| 0 <= i < |Levels(usage)| && Levels(usage)[i] == m.value;
        assert usage[i] in usage;
      }
      NameOfLevel(m.value)
  }

  /** `getLastHintContent`: the text of the last entry (the latest by `time_opened`), '' for none. */
  function GetLastHintContent(usage: seq<HintUsageLog>): (r: string)
    ensures usage == [] ==> r == ""
    ensures usage != [] ==> r == usage[|usage| - 1].hintProvided
  {
    if usage == [] then "" else usage[|usage| - 1].hintProvided
  }

  /** The text shown again on load is the last entry's, which need not be the text of
    * the highest level: a level-1 entry opened after a level-2 one wins. */
  lemma LastContentNeedNotBeHighestLevel()
    ensures var usage := [HintUsageLog(2, "level two", 10), HintUsageLog(1, "level one", 20)];
            DetermineCurrentHintLevel(usage) == MoreHelp && GetLastHintContent(usage) == "level one"
  {
    var usage := [HintUsageLog(2, "level two", 10), HintUsageLog(1, "level one", 20)];
    assert usage[0] in usage;
  }

  /** `Math.round((closed - opened) / 1000)` on millisecond times: the nearest whole
    * second, halves rounded up. */
  function DurationSeconds(openedMs: int, closedMs: int): (r: int)
    ensures 1000 * r - 500 <= closedMs - openedMs < 1000 * r + 500
  {
    (closedMs - openedMs + 500) / 1000
  }
}
