/**
 * The read-only queries of WeekContentService over a module's exercise units:
 * lookup of the unit at a position and the largest problem and subproblem
 * indices. `Math.max()` of no numbers is `-Infinity` in JavaScript; the model
 * writes that value as `None`.
 */
module WeekContentService {
  import opened Wrappers
  import opened Records

  predicate At(u: ContentUnit, p: int, s: int) {
    u.problemIndex == p && u.subproblemIndex == s
  }

  /** `weekContent.find(...)`: the first unit at position (p, s), if any. */
  function GetCurrentContent(units: seq<ContentUnit>, p: int, s: int): (r: Option<ContentUnit>)
    ensures r.Some? ==> r.value in units && At(r.value, p, s)
    ensures r.None? <==> forall u :: u in units ==> !At(u, p, s)
    ensures r.Some? ==> exists k :: 0 <= k < |units| && units[k] == r.value
                                    && forall j :: 0 <= j < k ==> !At(units[j], p, s)
  {
    if units == [] then None
    else if At(units[0], p, s) then Some(units[0])
    else
      var r := GetCurrentContent(units[1..], p, s);
      assert r.Some? ==> exists k :: 0 <= k < |units[1..]| && units[1..][k] == r.value
                                     && forall j :: 0 <= j < k ==> !At(units[1..][j], p, s);
      if r.Some? then
        var k :| 0 <= k < |units[1..]| && units[1..][k] == r.value
                 && forall j :: 0 <= j < k ==> !At(units[1..][j], p, s);
        assert units[k + 1] == r.value;
        assert forall j :: 0 <= j < k + 1 ==> !At(units[j], p, s) by {
          forall j | 0 <= j < k + 1 ensures !At(units[j], p, s) {
            if j > 0 { assert units[j] == units[1..][j - 1]; }
          }
        }
        r
      else
        assert forall u :: u in units ==> u == units[0] || u in units[1..];
        r
  }

  /** `Math.max(...xs)`, with `None` for `-Infinity` (no numbers at all). */
  function MaxOf(xs: seq<int>): (r: Option<int>)
    ensures r.Some? <==> xs != []
    ensures r.Some? ==> r.value in xs && forall x :: x in xs ==> x <= r.value
  {
    if xs == [] then None
    else
      var rest := MaxOf(xs[1..]);
      assert forall x :: x in xs ==> x == xs[0] || x in xs[1..];
      if rest.None? || xs[0] >= rest.value then Some(xs[0]) else rest
  }

  function ProblemIndices(units: seq<ContentUnit>): (r: seq<int>)
    ensures |r| == |units| && forall i :: 0 <= i < |units| ==> r[i] == units[i].problemIndex
  {
    if units == [] then [] else [units[0].problemIndex] + ProblemIndices(units[1..])
  }

  /** The subproblem indices of the units of problem `p`, in order. */
  function SubproblemIndicesOf(units: seq<ContentUnit>, p: int): (r: seq<int>)
    ensures forall x :: x in r <==> exists u :: u in units && u.problemIndex == p && u.subproblemIndex == x
  {
    if units == [] then []
    else
      var rest := SubproblemIndicesOf(units[1..], p);
      assert forall u :: u in units <==> u == units[0] || u in units[1..];
      if units[0].problemIndex == p then [units[0].subproblemIndex] + rest else rest
  }

  /** `getMaxProblemIndex`. */
  function MaxProblemIndex(units: seq<ContentUnit>): (r: Option<int>)
    ensures r.Some? <==> units != []
  {
    MaxOf(ProblemIndices(units))
  }

  /** `getMaxSubproblemIndex(p)`. */
  function MaxSubproblemIndex(units: seq<ContentUnit>, p: int): (r: Option<int>)
    ensures r.Some? <==> exists u :: u in units && u.problemIndex == p
  {
    var xs := SubproblemIndicesOf(units, p);
    assert (exists u :: u in units && u.problemIndex == p) ==> xs != [] by {
      if u :| u in units && u.problemIndex == p {
        assert u.subproblemIndex in xs;
      }
    }
    MaxOf(xs)
  }

  /** The largest problem index is some unit's problem index and bounds all of them;
    * it is `-Infinity` exactly for an empty module. */
  lemma MaxProblemIndexSpec(units: seq<ContentUnit>)
    ensures MaxProblemIndex(units).Some? <==> units != []
    ensures MaxProblemIndex(units).Some? ==>
              (exists u :: u in units && u.problemIndex == MaxProblemIndex(units).value)
              && forall u :: u in units ==> u.problemIndex <= MaxProblemIndex(units).value
  {
    var xs := ProblemIndices(units);
    if units != [] {
      var m := MaxOf(xs).value;
      var k :| 0 <= k < |xs| && xs[k] == m;
      assert units[k] in units;
      forall u | u in units ensures u.problemIndex <= m {
        var j :| 0 <= j < |units| && units[j] == u;
        assert xs[j] in xs;
      }
    }
  }

  /** The largest subproblem index of problem `p` is the subproblem index of a unit of
    * `p` and bounds all of them; it is `-Infinity` exactly when `p` has no unit. */
  lemma MaxSubproblemIndexSpec(units: seq<ContentUnit>, p: int)
    ensures MaxSubproblemIndex(units, p).Some? <==> exists u :: u in units && u.problemIndex == p
    ensures MaxSubproblemIndex(units, p).Some? ==>
              (exists u :: u in units && At(u, p, MaxSubproblemIndex(units, p).value))
              && forall u :: u in units && u.problemIndex == p ==> u.subproblemIndex <= MaxSubproblemIndex(units, p).value
  {
    var xs := SubproblemIndicesOf(units, p);
    if exists u :: u in units && u.problemIndex == p {
      var u :| u in units && u.problemIndex == p;
      assert u.subproblemIndex in xs;
      var m := MaxOf(xs).value;
      forall v | v in units && v.problemIndex == p ensures v.subproblemIndex <= m {
        assert v.subproblemIndex in xs;
      }
    }
  }
}
