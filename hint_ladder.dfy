/**
 * The numeric hint ladder of the `useHintLogic` hook: a popup that shows the
 * hint for the current level, a button that climbs 1 -> 2 -> 3, and a
 * read-session timer that is started on every open and on every climb and
 * ended on close and before a climb.
 *
 * The hook's `hintLevel` state is declared as a number, but loading stored
 * usage writes the level NAME returned by `determineCurrentHintLevel` into
 * it; `LevelValue` keeps both kinds so that the strict comparisons with 1 and
 * 2 behave as they do in the hook. The hint fetcher, the usage store and the
 * read timer are external services: their outcomes are parameters and the
 * calls made are recorded in `calls`.
 */
module HintLadder {
  import opened Wrappers
  import opened Records
  import opened HintService

  /** The contents of the `hintLevel` state: a number, or a level name after a load. */
  datatype LevelValue = Num(n: int) | Name(name: HintLevelName)

  datatype ButtonConfig = ButtonConfig(text: string, nextLevel: Option<int>)

  /** A call to an external service, in the order made. */
  datatype ServiceCall =
    | FetchHint(levelName: HintLevelName)
    | SaveHintRequest(levelNumber: int, hint: string)
    | StartReadTimer(timerLevel: LevelValue)
    | EndReadTimer(sessionId: string)

  const Apology: string := "Sorry, an error occurred while fetching your hint."

  /** `mapLevelToString`. */
  function MapLevelToString(level: int): (r: HintLevelName)
    ensures r == Initial <==> level == 1
    ensures r == MoreHelp <==> level == 2
    ensures r == Solution <==> level != 1 && level != 2
  {
    if level == 1 then Initial else if level == 2 then MoreHelp else Solution
  }

  /** `getButtonConfig`, with the strict equality `===` of the hook. */
  function GetButtonConfig(level: LevelValue): (r: ButtonConfig)
    ensures r.nextLevel.Some? <==> level == Num(1) || level == Num(2)
    ensures r.nextLevel.Some? ==> level == Num(r.nextLevel.value - 1)
  {
    if level == Num(1) then ButtonConfig("Need More Help?", Some(2))
    else if level == Num(2) then ButtonConfig("Need The Solution?", Some(3))
    else ButtonConfig("Solution Provided", None)
  }

  /** Each label names one level: more help at 1 and the solution at 2; every other value,
    * a level name included, reads 'Solution Provided' and offers no next level. */
  lemma ButtonLabels(level: LevelValue)
    ensures var r := GetButtonConfig(level);
            (r.text == "Need More Help?" <==> level == Num(1))
            && (r.text == "Need The Solution?" <==> level == Num(2))
            && (r.text == "Solution Provided" <==> r.nextLevel.None?)
  {
  }

  /** After a load the level holds a name, never the number 1 or 2, so the button reads
    * 'Solution Provided' and offers no next level, whatever the stored usage. */
  lemma LoadedLevelOffersNoNextHint(usage: seq<HintUsageLog>)
    ensures GetButtonConfig(Name(DetermineCurrentHintLevel(usage))) == ButtonConfig("Solution Provided", None)
  {
  }

  /** `if (currentReadSessionId)`. */
  predicate HoldsSession(id: Option<string>) {
    id.Some? && id.value != ""
  }

  /** The hook's state and the external calls it has made. */
  class HintLadderState {
    var isPopupOpen: bool
    var isLoading: bool
    var hintContent: string
    var hintLevel: LevelValue
    var currentReadSessionId: Option<string>
    var existingHintUsage: seq<HintUsageLog>
    var calls: seq<ServiceCall>

    /** The initial state: closed, level 1, no content, no read session. */
    constructor()
      ensures !isPopupOpen && !isLoading && hintContent == "" && hintLevel == Num(1)
      ensures currentReadSessionId == None && existingHintUsage == [] && calls == []
    {
      isPopupOpen, isLoading, hintContent, hintLevel := false, false, "", Num(1);
      currentReadSessionId, existingHintUsage, calls := None, [], [];
    }

    /** The load effect: `loaded` is the stored usage, `None` when loading throws. */
    method LoadExistingHints(userId: string, runId: string, loaded: Option<seq<HintUsageLog>>)
      modifies this
      ensures userId == "" || runId == "" || loaded.None? ==>
                hintLevel == old(hintLevel) && hintContent == old(hintContent) && existingHintUsage == old(existingHintUsage)
      ensures userId != "" && runId != "" && loaded.Some? ==>
                existingHintUsage == loaded.value
                && hintLevel == Name(DetermineCurrentHintLevel(loaded.value))
                && hintContent == GetLastHintContent(loaded.value)
      ensures isPopupOpen == old(isPopupOpen) && isLoading == old(isLoading)
      ensures currentReadSessionId == old(currentReadSessionId) && calls == old(calls)
    {
      if userId == "" || runId == "" {
        return;
      }
      if loaded.None? {
        return;
      }
      var usage := loaded.value;
      existingHintUsage := usage;
      hintLevel := Name(DetermineCurrentHintLevel(usage));
      var last := GetLastHintContent(usage);
      if last != "" {
        hintContent := last;
      } else {
        hintContent := "";
      }
    }

    /** `handleRequestHint(level)`: `fetched` is the fetched hint (`None` when the fetch
      * throws) and `saveOk` whether saving the request succeeds. The local usage entry
      * carries no open time; 0 stands in. */
    method RequestHint(level: int, fetched: Option<string>, saveOk: bool)
      modifies this
      ensures calls == old(calls) + [FetchHint(MapLevelToString(level))]
                       + (if fetched.Some? then [SaveHintRequest(level, fetched.value)] else [])
      ensures fetched.Some? && saveOk ==>
                hintContent == fetched.value && existingHintUsage == old(existingHintUsage) + [HintUsageLog(level, fetched.value, 0)]
      ensures !(fetched.Some? && saveOk) ==>
                hintContent == Apology && existingHintUsage == old(existingHintUsage)
      ensures !isLoading
      ensures isPopupOpen == old(isPopupOpen) && hintLevel == old(hintLevel)
      ensures currentReadSessionId == old(currentReadSessionId)
    {
      isLoading := true;
      calls := calls + [FetchHint(MapLevelToString(level))];
      if fetched.None? {
        hintContent := Apology;
        isLoading := false;
        return;
      }
      var newHint := fetched.value;
      hintContent := newHint;
      calls := calls + [SaveHintRequest(level, newHint)];
      if !saveOk {
        hintContent := Apology;
        isLoading := false;
        return;
      }
      existingHintUsage := existingHintUsage + [HintUsageLog(level, newHint, 0)];
      isLoading := false;
    }

    /** `openPopup`: requests the level-1 hint only on a first open at level 1 with nothing
      * shown, then starts a read session at the level it was opened at (`timerId`: the new
      * session id, `None` when starting throws). */
    method OpenPopup(fetched: Option<string>, saveOk: bool, timerId: Option<string>)
      modifies this
      ensures isPopupOpen && hintLevel == old(hintLevel)
      ensures var first := old(hintLevel) == Num(1) && old(hintContent) == "";
              var requested := if first then [FetchHint(Initial)] + (if fetched.Some? then [SaveHintRequest(1, fetched.value)] else []) else [];
              calls == old(calls) + requested + [StartReadTimer(old(hintLevel))]
              && (first && fetched.Some? && saveOk ==>
                    hintContent == fetched.value
                    && existingHintUsage == old(existingHintUsage) + [HintUsageLog(1, fetched.value, 0)])
              && (first && !(fetched.Some? && saveOk) ==>
                    hintContent == Apology && existingHintUsage == old(existingHintUsage))
              && (first ==> !isLoading)
              && (!first ==> hintContent == old(hintContent) && existingHintUsage == old(existingHintUsage)
                             && isLoading == old(isLoading))
      ensures currentReadSessionId == (if timerId.Some? then timerId else old(currentReadSessionId))
    {
      isPopupOpen := true;
      var level := hintLevel;
      if hintLevel == Num(1) && hintContent == "" {
        RequestHint(1, fetched, saveOk);
      }
      calls := calls + [StartReadTimer(level)];
      if timerId.Some? {
        currentReadSessionId := timerId;
      }
    }

    /** `closePopup`: ends the read session only when one is held, and then drops it
      * (ending may fail; the id is dropped all the same). */
    method ClosePopup()
      modifies this
      ensures !isPopupOpen && !HoldsSession(currentReadSessionId)
      ensures HoldsSession(old(currentReadSessionId)) ==>
                currentReadSessionId == None && calls == old(calls) + [EndReadTimer(old(currentReadSessionId).value)]
      ensures !HoldsSession(old(currentReadSessionId)) ==>
                currentReadSessionId == old(currentReadSessionId) && calls == old(calls)
      ensures hintLevel == old(hintLevel) && hintContent == old(hintContent)
      ensures existingHintUsage == old(existingHintUsage) && isLoading == old(isLoading)
    {
      isPopupOpen := false;
      if HoldsSession(currentReadSessionId) {
        calls := calls + [EndReadTimer(currentReadSessionId.value)];
        currentReadSessionId := None;
      }
    }

    /** `handleNextHint`: at levels 1 and 2, ends any held read session (`endOk`: whether
      * that succeeds; a failure escapes the handler), moves to the next level, requests it,
      * and starts a read session for it (`timerId` as in `OpenPopup`). */
    method HandleNextHint(endOk: bool, fetched: Option<string>, saveOk: bool, timerId: Option<string>)
      modifies this
      ensures var next := GetButtonConfig(old(hintLevel)).nextLevel;
              var held := HoldsSession(old(currentReadSessionId));
              var ended := if held then [EndReadTimer(old(currentReadSessionId).value)] else [];
              if next.None? || (held && !endOk) then
                hintLevel == old(hintLevel) && hintContent == old(hintContent)
                && currentReadSessionId == old(currentReadSessionId)
                && existingHintUsage == old(existingHintUsage) && calls == old(calls) + (if next.None? then [] else ended)
              else
                hintLevel == Num(next.value)
                && calls == old(calls) + ended + [FetchHint(MapLevelToString(next.value))]
                            + (if fetched.Some? then [SaveHintRequest(next.value, fetched.value)] else [])
                            + [StartReadTimer(Num(next.value))]
                && (fetched.Some? && saveOk ==>
                      hintContent == fetched.value
                      && existingHintUsage == old(existingHintUsage) + [HintUsageLog(next.value, fetched.value, 0)])
                && (!(fetched.Some? && saveOk) ==> hintContent == Apology && existingHintUsage == old(existingHintUsage))
                && currentReadSessionId == (if timerId.Some? then timerId else if held then None else old(currentReadSessionId))
      ensures isPopupOpen == old(isPopupOpen)
    {
      var next := GetButtonConfig(hintLevel).nextLevel;
      if next.None? {
        return;
      }
      if HoldsSession(currentReadSessionId) {
        calls := calls + [EndReadTimer(currentReadSessionId.value)];
        if !endOk {
          return;
        }
        currentReadSessionId := None;
      }
      hintLevel := Num(next.value);
      RequestHint(next.value, fetched, saveOk);
      calls := calls + [StartReadTimer(Num(next.value))];
      if timerId.Some? {
        currentReadSessionId := timerId;
      }
    }
  }
}
