/**
 * The string-levelled hint ladder of src/lib/hintLogic.ts: a popup climbing
 * 'initial' -> 'more_help' -> 'solution', with per-level analytics (level
 * number, first-use time, total time visible). A visibility effect starts a
 * timer whenever it runs with the popup open and, when it runs with the popup
 * closed and a timer started, adds the elapsed time to the active level and
 * sends the analytics.
 *
 * React runs the effect after a handler's state updates whenever one of its
 * dependencies (open flag, level, analytics object) changed; each handler
 * below ends with that run. The hint fetcher is the module's own canned
 * switch and its 800 ms delay is not modelled: a request completes within
 * the handler that makes it. Clock readings are the parameter `now`.
 */
module HintVisibility {
  import opened Wrappers
  import opened HintService

  /** The analytics kept for one level. */
  datatype HintAnalytics = HintAnalytics(level: int, firstUsedTimestamp: Option<int>, totalVisibleDuration: int)

  /** What `sendAnalyticsToAPI` is given. */
  datatype AnalyticsPayload = AnalyticsPayload(problem: int, subproblem: int, hintUsage: map<HintLevelName, HintAnalytics>)

  datatype ButtonConfig = ButtonConfig(text: string, nextLevel: Option<HintLevelName>)

  const InitialHint: string := "API Hint: Break the problem down into smaller, manageable steps."
  const MoreHelpHint: string := "API Hint: Consider using a loop to iterate through the data."
  const SolutionHint: string := "API Hint: 1. Initialize a variable. 2. Loop. 3. Calculate. 4. Return result."

  /** `fetchHintFromAPI`: the canned hint for each level. */
  function FetchHint(level: HintLevelName): (r: string)
    ensures |r| > 0
  {
    match level
    case Initial => InitialHint
    case MoreHelp => MoreHelpHint
    case Solution => SolutionHint
  }

  /** Each level has its own hint text, so the text shown identifies the level. */
  lemma FetchHintIsInjective(a: HintLevelName, b: HintLevelName)
    ensures FetchHint(a) == FetchHint(b) <==> a == b
  {
    if a != b {
      assert |InitialHint| == 64 && |MoreHelpHint| == 60 && |SolutionHint| == 76;
    }
  }

  /** `{ initial: 1, more_help: 2, solution: 3 }`. */
  function LevelNumber(level: HintLevelName): (n: int)
    ensures 1 <= n <= 3
    ensures NameOfLevel(n) == level
  {
    match level
    case Initial => 1
    case MoreHelp => 2
    case Solution => 3
  }

  /** `getButtonConfig`. */
  function GetButtonConfig(level: HintLevelName): (r: ButtonConfig)
    ensures r.nextLevel.None? <==> level == Solution
    ensures r.nextLevel.Some? ==> LevelNumber(r.nextLevel.value) == LevelNumber(level) + 1
  {
    match level
    case Initial => ButtonConfig("Need More Help?", Some(MoreHelp))
    case MoreHelp => ButtonConfig("Need The Solution?", Some(Solution))
    case Solution => ButtonConfig("Solution Provided", None)
  }

  /** Each label names one level: more help at 'initial', the solution at 'more_help', and
    * 'Solution Provided' exactly when no level is left. */
  lemma ButtonLabels(level: HintLevelName)
    ensures var r := GetButtonConfig(level);
            (r.text == "Need More Help?" <==> level == Initial)
            && (r.text == "Need The Solution?" <==> level == MoreHelp)
            && (r.text == "Solution Provided" <==> r.nextLevel.None?)
  {
  }

  /** The analytics after a successful request for `level`: an entry is added on the first
    * request only, numbered by level, first used now and visible for 0 ms so far. */
  function RecordFirstUse(a: map<HintLevelName, HintAnalytics>, level: HintLevelName, now: int): (r: map<HintLevelName, HintAnalytics>)
    ensures r.Keys == a.Keys + {level}
    ensures level in a ==> r == a
    ensures level !in a ==> r[level] == HintAnalytics(LevelNumber(level), Some(now), 0)
    ensures forall k :: k in a ==> r[k] == a[k]
  {
    if level in a then a else a[level := HintAnalytics(LevelNumber(level), Some(now), 0)]
  }

  /** Adds `duration` to the visible time of `level`, if it has an entry; nothing else changes. */
  function AddVisibleTime(a: map<HintLevelName, HintAnalytics>, level: HintLevelName, duration: int): (r: map<HintLevelName, HintAnalytics>)
    ensures r.Keys == a.Keys
    ensures level in a ==> r[level] == a[level].(totalVisibleDuration := a[level].totalVisibleDuration + duration)
    ensures forall k :: k in a && k != level ==> r[k] == a[k]
  {
    if level in a then a[level := a[level].(totalVisibleDuration := a[level].totalVisibleDuration + duration)] else a
  }

  /** Every entry carries its own level number and a first-use time. */
  ghost predicate WellNumbered(a: map<HintLevelName, HintAnalytics>) {
    forall k :: k in a ==> a[k].level == LevelNumber(k) && a[k].firstUsedTimestamp.Some?
  }

  lemma RecordFirstUseKeepsNumbering(a: map<HintLevelName, HintAnalytics>, level: HintLevelName, now: int)
    requires WellNumbered(a)
    ensures WellNumbered(RecordFirstUse(a, level, now))
  {
  }

  lemma AddVisibleTimeKeepsNumbering(a: map<HintLevelName, HintAnalytics>, level: HintLevelName, duration: int)
    requires WellNumbered(a)
    ensures WellNumbered(AddVisibleTime(a, level, duration))
  {
  }

  class HintVisibilityState {
    const problemIndex: int
    const subproblemIndex: int
    var isPopupOpen: bool
    var isLoading: bool
    var hintContent: string
    var hintLevel: HintLevelName
    var analyticsData: map<HintLevelName, HintAnalytics>
    /** `sessionStartTimeRef`. */
    var sessionStart: Option<int>
    /** `activeAnalyticsLevelRef`. */
    var activeLevel: HintLevelName
    /** The payloads handed to `sendAnalyticsToAPI`, in order. */
    var sent: seq<AnalyticsPayload>

    /** The timer runs exactly while the popup is open, for the level shown; the shown
      * level has an entry while the popup is open and once past 'initial'; the content
      * shown is the current level's hint. */
    ghost predicate Valid()
      reads this
    {
      WellNumbered(analyticsData)
      && (sessionStart.Some? <==> isPopupOpen)
      && (sessionStart.Some? ==> activeLevel == hintLevel)
      && (isPopupOpen || hintLevel != Initial || hintContent != "" ==> hintLevel in analyticsData)
      && (hintContent != "" ==> hintContent == FetchHint(hintLevel))
    }

    constructor(problemIndex: int, subproblemIndex: int)
      ensures Valid()
      ensures this.problemIndex == problemIndex && this.subproblemIndex == subproblemIndex
      ensures !isPopupOpen && !isLoading && hintContent == "" && hintLevel == Initial
      ensures analyticsData == map[] && sessionStart == None && activeLevel == Initial && sent == []
    {
      this.problemIndex := problemIndex;
      this.subproblemIndex := subproblemIndex;
      isPopupOpen, isLoading, hintContent, hintLevel := false, false, "", Initial;
      analyticsData, sessionStart, activeLevel, sent := map[], None, Initial, [];
    }

    /** One run of the visibility effect at time `now`. */
    method VisibilityEffect(now: int)
      modifies this
      ensures isPopupOpen ==> sessionStart == Some(now) && activeLevel == hintLevel
                              && analyticsData == old(analyticsData) && sent == old(sent)
      ensures !isPopupOpen && old(sessionStart).Some? ==>
                var updated := AddVisibleTime(old(analyticsData), old(activeLevel), now - old(sessionStart).value);
                sessionStart == None && analyticsData == updated && activeLevel == old(activeLevel)
                && sent == old(sent) + (if |updated| > 0 then [AnalyticsPayload(problemIndex, subproblemIndex, updated)] else [])
      ensures !isPopupOpen && old(sessionStart).None? ==>
                sessionStart == None && analyticsData == old(analyticsData) && activeLevel == old(activeLevel) && sent == old(sent)
      ensures isPopupOpen == old(isPopupOpen) && isLoading == old(isLoading)
      ensures hintContent == old(hintContent) && hintLevel == old(hintLevel)
    {
      if isPopupOpen {
        sessionStart := Some(now);
        activeLevel := hintLevel;
      } else if sessionStart.Some? {
        var duration := now - sessionStart.value;
        var updated := AddVisibleTime(analyticsData, activeLevel, duration);
        analyticsData := updated;
        sessionStart := None;
        if |updated| > 0 {
          sent := sent + [AnalyticsPayload(problemIndex, subproblemIndex, updated)];
        }
      }
    }

    /** `handleRequestHint(level)` completing at `now`: shows the level's hint and records its
      * first use. The canned `fetchHintFromAPI` never throws, so the apology branch is dead. */
    method RequestHint(level: HintLevelName, now: int)
      modifies this
      ensures hintContent == FetchHint(level) && !isLoading
      ensures analyticsData == RecordFirstUse(old(analyticsData), level, now)
      ensures isPopupOpen == old(isPopupOpen) && hintLevel == old(hintLevel)
      ensures sessionStart == old(sessionStart) && activeLevel == old(activeLevel) && sent == old(sent)
    {
      isLoading := true;
      var newHint := FetchHint(level);
      hintContent := newHint;
      analyticsData := RecordFirstUse(analyticsData, level, now);
      isLoading := false;
    }

    /** `openPopup` at `now`: requests 'initial' only at level 'initial' with nothing shown;
      * the effect then starts the timer for the shown level. */
    method OpenPopup(now: int)
      requires Valid()
      modifies this
      ensures Valid()
      ensures isPopupOpen && hintLevel == old(hintLevel)
      ensures var first := old(hintLevel) == Initial && old(hintContent) == "";
              (first ==> hintContent == FetchHint(Initial) && analyticsData == RecordFirstUse(old(analyticsData), Initial, now))
              && (!first ==> hintContent == old(hintContent) && analyticsData == old(analyticsData))
      ensures sessionStart == Some(now) || sessionStart == old(sessionStart)
      ensures !old(isPopupOpen) ==> sessionStart == Some(now) && activeLevel == hintLevel
      ensures old(isPopupOpen) && analyticsData == old(analyticsData) ==>
                sessionStart == old(sessionStart) && activeLevel == old(activeLevel)
      ensures sent == old(sent)
    {
      var wasOpen := isPopupOpen;
      var before := analyticsData;
      var first := hintLevel == Initial && hintContent == "";
      isPopupOpen := true;
      if first {
        RequestHint(Initial, now);
      }
      if !wasOpen || analyticsData != before {
        VisibilityEffect(now);
      }
    }

    /** `closePopup` at `now`: the effect adds the time since the timer started to the active
      * level's entry, if it has one, clears the timer, and sends the analytics when any
      * level has an entry. */
    method ClosePopup(now: int)
      requires Valid()
      modifies this
      ensures Valid()
      ensures !isPopupOpen && sessionStart == None
      ensures old(isPopupOpen) ==>
                var updated := AddVisibleTime(old(analyticsData), old(activeLevel), now - old(sessionStart).value);
                analyticsData == updated
                && sent == old(sent) + (if |updated| > 0 then [AnalyticsPayload(problemIndex, subproblemIndex, updated)] else [])
      ensures !old(isPopupOpen) ==> analyticsData == old(analyticsData) && sent == old(sent)
      ensures hintLevel == old(hintLevel) && hintContent == old(hintContent)
    {
      var wasOpen := isPopupOpen;
      isPopupOpen := false;
      if wasOpen {
        ghost var before, level, duration := analyticsData, activeLevel, now - sessionStart.value;
        VisibilityEffect(now);
        AddVisibleTimeKeepsNumbering(before, level, duration);
        assert analyticsData.Keys == before.Keys;
      }
    }

    /** The first half of `handleNextHint`: while the timer runs, the time since it started
      * is added to the current level. */
    method AddElapsedToCurrent(now: int)
      requires Valid()
      modifies this
      ensures WellNumbered(analyticsData)
      ensures analyticsData == if old(sessionStart).Some?
                               then AddVisibleTime(old(analyticsData), old(hintLevel), now - old(sessionStart).value)
                               else old(analyticsData)
      ensures isPopupOpen == old(isPopupOpen) && isLoading == old(isLoading) && hintContent == old(hintContent)
      ensures hintLevel == old(hintLevel) && sessionStart == old(sessionStart) && activeLevel == old(activeLevel)
      ensures sent == old(sent)
    {
      if sessionStart.Some? {
        var duration := now - sessionStart.value;
        analyticsData := AddVisibleTime(analyticsData, hintLevel, duration);
        AddVisibleTimeKeepsNumbering(old(analyticsData), hintLevel, duration);
      }
    }

    /** `handleNextHint` at `now`: adds the time since the timer started to the current
      * level, then (below 'solution') moves one level up and requests it; the effect restarts
      * the timer for the new level while the popup is open. */
    method HandleNextHint(now: int)
      requires Valid()
      modifies this
      ensures Valid()
      ensures var next := GetButtonConfig(old(hintLevel)).nextLevel;
              var timed := if old(sessionStart).Some?
                           then AddVisibleTime(old(analyticsData), old(hintLevel), now - old(sessionStart).value)
                           else old(analyticsData);
              (next.None? ==> hintLevel == old(hintLevel) && hintContent == old(hintContent) && analyticsData == timed)
              && (next.Some? ==> hintLevel == next.value && hintContent == FetchHint(next.value)
                                 && analyticsData == RecordFirstUse(timed, next.value, now))
      ensures isPopupOpen == old(isPopupOpen) && sent == old(sent)
      ensures isPopupOpen ==> sessionStart == Some(now) && activeLevel == hintLevel
    {
      var timing := sessionStart.Some?;
      AddElapsedToCurrent(now);
      var timed := analyticsData;
      var next := GetButtonConfig(hintLevel).nextLevel;
      if next.Some? {
        hintLevel := next.value;
        RequestHint(next.value, now);
        RecordFirstUseKeepsNumbering(timed, next.value, now);
      }
      if timing || next.Some? {
        VisibilityEffect(now);
      }
    }
  }
}
