/**
 * BACKEND/hintBackend.py: `retrieveHint` maps the requested hint level to a
 * canned hint. The three known levels give a `{'hint': text}` object; any
 * other level, and a missing one (which defaults to 'default'), gives a bare
 * string rather than an object.
 */
module HintBackend {
  import opened Wrappers

  /** What `retrieveHint` returns: a dict with a 'hint' member, or a bare string. */
  datatype HintReply = HintDict(hint: string) | BareString(text: string)

  const InitialHint: string := "Based on your code, first try to break this sub-problem down"
  const MoreHelpHint: string := "Looking at your chat history, it seems you're on the right track. Have you considered using a different loop structure in your code?"
  const SolutionHint: string := "Here is a possible solution approach based on your attempt: 1. Initialize a variable. 2. Loop. 3. Calculate. 4. Return result."
  const NoHint: string := "No hint available."

  predicate KnownLevel(level: string) {
    level == "initial" || level == "more_help" || level == "solution"
  }

  /** `retrieveHint(payload)` for `payload.get('hint_level')`; the other payload members
    * only reach the log. */
  function RetrieveHint(level: Option<string>): (r: HintReply)
    ensures r.HintDict? <==> level.Some? && KnownLevel(level.value)
    ensures r.BareString? ==> r.text == NoHint
    ensures level == Some("initial") ==> r == HintDict(InitialHint)
    ensures level == Some("more_help") ==> r == HintDict(MoreHelpHint)
    ensures level == Some("solution") ==> r == HintDict(SolutionHint)
  {
    var l := level.GetOr("default");
    if l == "initial" then HintDict(InitialHint)
    else if l == "more_help" then HintDict(MoreHelpHint)
    else if l == "solution" then HintDict(SolutionHint)
    else BareString(NoHint)
  }

  /** Distinct known levels give distinct hints. */
  lemma DistinctLevelsDistinctHints(a: string, b: string)
    requires KnownLevel(a) && KnownLevel(b) && a != b
    ensures RetrieveHint(Some(a)) != RetrieveHint(Some(b))
  {
  }
}
