/**
 * The hint buttons of the exercise panel: level 1 is always available, each
 * later level unlocks once the level below it has been used, and a button
 * is disabled exactly when its level is not available.
 */
module ExercisePanel {
  import opened Text

  /** `isHintAvailable(level)` given the levels used so far. */
  function IsHintAvailable(level: int, hintsUsed: seq<int>): (r: bool)
    ensures level == 1 ==> r
    ensures level == 2 || level == 3 ==> (r <==> level - 1 in hintsUsed)
    ensures level < 1 || level > 3 ==> !r
  {
    if level == 1 then true
    else if level == 2 then 1 in hintsUsed
    else if level == 3 then 2 in hintsUsed
    else false
  }

  /** `getHintButtonText(level)`: 'Used' wins over 'Locked'. */
  function HintButtonText(level: int, hintsUsed: seq<int>): (r: string)
    ensures level in hintsUsed ==> r == "Hint " + IntToString(level) + " (Used)"
    ensures level !in hintsUsed && !IsHintAvailable(level, hintsUsed) ==> r == "Hint " + IntToString(level) + " (Locked)"
    ensures level !in hintsUsed && IsHintAvailable(level, hintsUsed) ==> r == "Get Hint " + IntToString(level)
  {
    if level in hintsUsed then "Hint " + IntToString(level) + " (Used)"
    else if !IsHintAvailable(level, hintsUsed) then "Hint " + IntToString(level) + " (Locked)"
    else "Get Hint " + IntToString(level)
  }

  /** `disabled={!isHintAvailable(level)}`. */
  function IsDisabled(level: int, hintsUsed: seq<int>): (r: bool)
    ensures r <==> !IsHintAvailable(level, hintsUsed)
  {
    !IsHintAvailable(level, hintsUsed)
  }

  /** A button's label and its disabled state agree for every level and history: an
    * enabled button reads 'Get Hint n' or 'Hint n (Used)', a disabled one 'Hint n (Locked)'
    * or 'Hint n (Used)', and 'Get Hint n' is shown exactly on an enabled, unused level. */
  lemma LabelMatchesDisabled(level: int, hintsUsed: seq<int>)
    ensures var text, off := HintButtonText(level, hintsUsed), IsDisabled(level, hintsUsed);
            (text == "Get Hint " + IntToString(level) <==> !off && level !in hintsUsed)
            && (text == "Hint " + IntToString(level) + " (Locked)" <==> off && level !in hintsUsed)
            && (text == "Hint " + IntToString(level) + " (Used)" <==> level in hintsUsed)
  {
    var n := IntToString(level);
    assert ("Get Hint " + n)[0] == 'G' && ("Hint " + n + " (Locked)")[0] == 'H' && ("Hint " + n + " (Used)")[0] == 'H';
  }

  /** Using more hints never locks a level again. */
  lemma AvailabilityIsMonotone(level: int, used: seq<int>, more: seq<int>)
    requires forall l :: l in used ==> l in more
    ensures IsHintAvailable(level, used) ==> IsHintAvailable(level, more)
  {
  }

  /** A used level reads 'Used' even where it would be locked: a level 2 used without
    * level 1 shows 'Hint 2 (Used)' on a disabled button. */
  lemma UsedOutranksLocked()
    ensures HintButtonText(2, [2]) == "Hint 2 (Used)" && IsDisabled(2, [2])
  {
    assert IntToString(2) == "2";
  }
}
