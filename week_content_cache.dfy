/**
 * The browser-side week content cache: a module-level map from week number
 * to the transformed content and the time it was stored, valid for one
 * hour. A miss fetches the week's units and regroups them by problem index
 * into the older "Problems" shape, in the order in which a JavaScript
 * object enumerates its keys.
 */
module WeekContentCache {
  import opened Wrappers
  import opened Text
  import opened Records

  /** One hour, in milliseconds. */
  const TTL: int := 3600000

  /** One entry of the older content shape. */
  datatype Problem = Problem(
    number: string,
    mainQuestion: string,
    subquestions: seq<string>,
    solutions: seq<string>)

  /** `{ content: { Problems: [...] } }` */
  datatype WeekContent = WeekContent(problems: seq<Problem>)

  datatype CacheEntry = CacheEntry(data: WeekContent, timestamp: int)

  /** What the database fetch produced: rows, or an exception. */
  datatype Fetched = FetchThrew | Rows(rows: seq<ContentUnit>)

  // ---------------------------------------------------------------------
  // Grouping by problem index (the `reduce` over the rows)
  // ---------------------------------------------------------------------

  /** The accumulator after the given rows: a group per problem index, created from its
    * first row with no subquestions, then one subquestion pushed per row. */
  function Groups(rows: seq<ContentUnit>): (g: map<int, Problem>)
  {
    if rows == [] then map[]
    else
      var prev := Groups(rows[..|rows| - 1]);
      var item := rows[|rows| - 1];
      var p := if item.problemIndex in prev then prev[item.problemIndex]
               else Problem(IntToString(item.problemIndex), item.problemText, [], []);
      prev[item.problemIndex := p.(subquestions := p.subquestions + [item.subproblemText])]
  }

  /** The problem indices in the order in which they were first seen. */
  function KeysInOrder(rows: seq<ContentUnit>): (keys: seq<int>)
  {
    if rows == [] then []
    else
      var prev := KeysInOrder(rows[..|rows| - 1]);
      var k := rows[|rows| - 1].problemIndex;
      if k in prev then prev else prev + [k]
  }

  /** The subproblem texts of the rows with index `k`, in row order. */
  function SubTexts(rows: seq<ContentUnit>, k: int): (ts: seq<string>)
    ensures |ts| <= |rows|
  {
    if rows == [] then []
    else
      var item := rows[|rows| - 1];
      SubTexts(rows[..|rows| - 1], k) + (if item.problemIndex == k then [item.subproblemText] else [])
  }

  predicate Distinct(keys: seq<int>) {
    forall i, j :: 0 <= i < j < |keys| ==> keys[i] != keys[j]
  }

  predicate HasIndex(rows: seq<ContentUnit>, k: int) {
    exists i :: 0 <= i < |rows| && rows[i].problemIndex == k
  }

  /** The keys seen are distinct, are exactly the indices of the rows, and are exactly the
    * groups' keys. */
  lemma {:induction false} KeysSpec(rows: seq<ContentUnit>)
    ensures Distinct(KeysInOrder(rows))
    ensures forall k :: k in KeysInOrder(rows) <==> HasIndex(rows, k)
    ensures forall k :: k in Groups(rows) <==> k in KeysInOrder(rows)
  {
    if rows != [] {
      var prev := rows[..|rows| - 1];
      KeysSpec(prev);
      forall k ensures HasIndex(rows, k) <==> HasIndex(prev, k) || rows[|rows| - 1].problemIndex == k {
        if HasIndex(rows, k) {
          var i :| 0 <= i < |rows| && rows[i].problemIndex == k;
          if i < |rows| - 1 {
            assert prev[i] == rows[i];
          }
        }
        if HasIndex(prev, k) {
          var i :| 0 <= i < |prev| && prev[i].problemIndex == k;
          assert rows[i] == prev[i];
        }
      }
    }
  }

  /** Each group holds, as its subquestions, the texts of exactly its rows in row order; its
    * number is the index written in decimal and its main question is the text of the first
    * row with that index. */
  lemma {:induction false} GroupsSpec(rows: seq<ContentUnit>, k: int)
    requires k in Groups(rows)
    ensures Groups(rows)[k].subquestions == SubTexts(rows, k)
    ensures Groups(rows)[k].number == IntToString(k)
    ensures Groups(rows)[k].solutions == []
    ensures exists i :: 0 <= i < |rows| && rows[i].problemIndex == k
                        && Groups(rows)[k].mainQuestion == rows[i].problemText
                        && forall j :: 0 <= j < i ==> rows[j].problemIndex != k
  {
    var prev := rows[..|rows| - 1];
    var item := rows[|rows| - 1];
    if k in Groups(prev) {
      GroupsSpec(prev, k);
      var i :| 0 <= i < |prev| && prev[i].problemIndex == k
               && Groups(prev)[k].mainQuestion == prev[i].problemText
               && forall j :: 0 <= j < i ==> prev[j].problemIndex != k;
      assert rows[i] == prev[i];
      assert forall j :: 0 <= j < i ==> rows[j] == prev[j];
    } else {
      assert item.problemIndex == k;
      NoGroupNoTexts(prev, k);
      KeysSpec(prev);
      assert forall j :: 0 <= j < |prev| ==> rows[j] == prev[j] && rows[j].problemIndex != k;
    }
  }

  lemma {:induction false} NoGroupNoTexts(rows: seq<ContentUnit>, k: int)
    requires k !in Groups(rows)
    ensures SubTexts(rows, k) == []
  {
    if rows != [] {
      NoGroupNoTexts(rows[..|rows| - 1], k);
    }
  }

  /** The accumulation loop of the `reduce`. */
  method GroupByProblem(rows: seq<ContentUnit>) returns (groups: map<int, Problem>, keys: seq<int>)
    ensures groups == Groups(rows) && keys == KeysInOrder(rows)
  {
    groups, keys := map[], [];
    var i := 0;
    while i < |rows|
      invariant 0 <= i <= |rows|
      invariant groups == Groups(rows[..i]) && keys == KeysInOrder(rows[..i])
    {
      KeysSpec(rows[..i]);
      var item := rows[i];
      if item.problemIndex !in groups {
        groups := groups[item.problemIndex := Problem(IntToString(item.problemIndex), item.problemText, [], [])];
        keys := keys + [item.problemIndex];
      }
      var p := groups[item.problemIndex];
      groups := groups[item.problemIndex := p.(subquestions := p.subquestions + [item.subproblemText])];
      assert rows[..i + 1][..i] == rows[..i];
      i := i + 1;
    }
    assert rows[..|rows|] == rows;
  }

  // ---------------------------------------------------------------------
  // Object.values: integer-index keys ascending, then the rest in insertion order
  // ---------------------------------------------------------------------

  /** A key JavaScript treats as an array index (enumerated first, in ascending order). */
  predicate IsArrayIndex(k: int) { 0 <= k < 4294967295 }

  function IndexKeys(keys: seq<int>): (r: seq<int>)
    ensures forall k :: k in r <==> k in keys && IsArrayIndex(k)
  {
    if keys == [] then [] else (if IsArrayIndex(keys[0]) then [keys[0]] else []) + IndexKeys(keys[1..])
  }

  function OtherKeys(keys: seq<int>): (r: seq<int>)
    ensures forall k :: k in r <==> k in keys && !IsArrayIndex(k)
  {
    if keys == [] then [] else (if IsArrayIndex(keys[0]) then [] else [keys[0]]) + OtherKeys(keys[1..])
  }

  /** Each element is no smaller than the one before it. */
  predicate Ascending(s: seq<int>) {
    forall i :: 0 < i < |s| ==> s[i - 1] <= s[i]
  }

  function Insert(x: int, s: seq<int>): (r: seq<int>)
    requires Ascending(s)
    ensures |r| == |s| + 1 && Ascending(r)
    ensures multiset(r) == multiset(s) + multiset{x}
    ensures r[0] == x || (s != [] && r[0] == s[0])
  {
    if s == [] || x <= s[0] then [x] + s
    else
      assert s == [s[0]] + s[1..];
      [s[0]] + Insert(x, s[1..])
  }

  function SortAscending(s: seq<int>): (r: seq<int>)
    ensures |r| == |s| && Ascending(r) && multiset(r) == multiset(s)
  {
    if s == [] then []
    else
      assert s == [s[0]] + s[1..];
      Insert(s[0], SortAscending(s[1..]))
  }

  /** The order in which `Object.values` lists the groups. */
  function ObjectValuesOrder(keys: seq<int>): (r: seq<int>)
  {
    SortAscending(IndexKeys(keys)) + OtherKeys(keys)
  }

  lemma {:induction false} SplitKeysPermutation(keys: seq<int>)
    ensures multiset(IndexKeys(keys)) + multiset(OtherKeys(keys)) == multiset(keys)
  {
    if keys != [] {
      SplitKeysPermutation(keys[1..]);
      assert keys == [keys[0]] + keys[1..];
    }
  }

  /** The enumeration order lists every key once: array-index keys first in ascending order,
    * then the remaining keys in insertion order. */
  lemma ObjectValuesOrderSpec(keys: seq<int>)
    ensures var r := ObjectValuesOrder(keys);
            var n := |IndexKeys(keys)|;
            multiset(r) == multiset(keys)
            && n <= |r|
            && Ascending(r[..n])
            && (forall i :: 0 <= i < n ==> IsArrayIndex(r[i]))
            && r[n..] == OtherKeys(keys)
  {
    SplitKeysPermutation(keys);
    var r := ObjectValuesOrder(keys);
    var sorted := SortAscending(IndexKeys(keys));
    assert r[..|sorted|] == sorted;
    assert r[|sorted|..] == OtherKeys(keys);
    forall i | 0 <= i < |sorted| ensures IsArrayIndex(r[i]) {
      assert sorted[i] in multiset(IndexKeys(keys));
    }
  }

  /** Every key of the list has a group. */
  predicate Covers(g: map<int, Problem>, keys: seq<int>) {
    forall i :: 0 <= i < |keys| ==> keys[i] in g
  }

  /** The groups, listed in the given key order. */
  function ValuesOf(g: map<int, Problem>, keys: seq<int>): (ps: seq<Problem>)
    requires Covers(g, keys)
    ensures |ps| == |keys| && forall i :: 0 <= i < |keys| ==> ps[i] == g[keys[i]]
  {
    if keys == [] then [] else [g[keys[0]]] + ValuesOf(g, keys[1..])
  }

  /** The enumeration order only has keys that have groups. */
  lemma OrderCovered(rows: seq<ContentUnit>)
    ensures Covers(Groups(rows), ObjectValuesOrder(KeysInOrder(rows)))
  {
    KeysSpec(rows);
    var keys := KeysInOrder(rows);
    SplitKeysPermutation(keys);
    var order := ObjectValuesOrder(keys);
    forall i | 0 <= i < |order| ensures order[i] in Groups(rows) {
      assert order[i] in multiset(order);
    }
  }

  /** The transformed content for non-empty rows. */
  function Transform(rows: seq<ContentUnit>): (c: WeekContent)
  {
    OrderCovered(rows);
    WeekContent(ValuesOf(Groups(rows), ObjectValuesOrder(KeysInOrder(rows))))
  }

  // ---------------------------------------------------------------------
  // Every row ends up as exactly one subquestion
  // ---------------------------------------------------------------------

  function SubquestionCount(ps: seq<Problem>): (n: nat)
  {
    if ps == [] then 0 else |ps[0].subquestions| + SubquestionCount(ps[1..])
  }

  /** The subquestions of the groups of the listed keys. */
  function Total(g: map<int, Problem>, keys: seq<int>): nat
    requires Covers(g, keys)
  {
    if keys == [] then 0 else |g[keys[0]].subquestions| + Total(g, keys[1..])
  }

  lemma {:induction false} TotalIsCount(g: map<int, Problem>, keys: seq<int>)
    requires Covers(g, keys)
    ensures Total(g, keys) == SubquestionCount(ValuesOf(g, keys))
  {
    if keys != [] {
      TotalIsCount(g, keys[1..]);
      assert ValuesOf(g, keys)[1..] == ValuesOf(g, keys[1..]);
    }
  }

  lemma {:induction false} TotalAppend(g: map<int, Problem>, a: seq<int>, b: seq<int>)
    requires Covers(g, a + b)
    ensures Covers(g, a) && Covers(g, b)
    ensures Total(g, a + b) == Total(g, a) + Total(g, b)
  {
    assert forall i :: 0 <= i < |b| ==> b[i] == (a + b)[|a| + i];
    assert forall i :: 0 <= i < |a| ==> a[i] == (a + b)[i];
    if a == [] {
      assert a + b == b;
    } else {
      assert (a + b)[0] == a[0] && (a + b)[1..] == a[1..] + b;
      TotalAppend(g, a[1..], b);
    }
  }

  /** Taking one key out of a list takes its group out of the total. */
  lemma TotalRemove(g: map<int, Problem>, b: seq<int>, j: int)
    requires Covers(g, b) && 0 <= j < |b|
    ensures Covers(g, b[..j] + b[j + 1..])
    ensures Total(g, b) == Total(g, b[..j] + b[j + 1..]) + |g[b[j]].subquestions|
  {
    assert b == b[..j] + [b[j]] + b[j + 1..];
    TotalAppend(g, b[..j] + [b[j]], b[j + 1..]);
    TotalAppend(g, b[..j], [b[j]]);
    TotalAppend(g, b[..j], b[j + 1..]);
  }

  /** Matching the first of `a` with one element of `b` leaves permutations of each other. */
  lemma TailPermutation(a: seq<int>, b: seq<int>, j: int)
    requires a != [] && multiset(a) == multiset(b) && 0 <= j < |b| && b[j] == a[0]
    ensures multiset(a[1..]) == multiset(b[..j] + b[j + 1..])
  {
    assert a == [a[0]] + a[1..];
    assert b == b[..j] + [b[j]] + b[j + 1..];
    assert multiset(a) == multiset{a[0]} + multiset(a[1..]);
    assert multiset(b) == multiset(b[..j]) + multiset{b[j]} + multiset(b[j + 1..]);
    assert multiset(b[..j] + b[j + 1..]) == multiset(b[..j]) + multiset(b[j + 1..]);
    forall z ensures multiset(a[1..])[z] == multiset(b[..j] + b[j + 1..])[z] {
      assert multiset(a)[z] == multiset(b)[z];
    }
  }

  /** Listing the same keys in another order keeps the total. */
  lemma {:induction false} TotalPermutation(g: map<int, Problem>, a: seq<int>, b: seq<int>)
    requires Covers(g, a) && multiset(a) == multiset(b)
    ensures Covers(g, b) && Total(g, a) == Total(g, b)
    decreases |a|
  {
    if a == [] {
      assert |b| == |multiset(b)| == 0;
    } else {
      var x := a[0];
      assert a == [x] + a[1..];
      assert Covers(g, b) by {
        forall i | 0 <= i < |b| ensures b[i] in g {
          assert b[i] in multiset(a);
        }
      }
      assert x in multiset(b);
      var j :| 0 <= j < |b| && b[j] == x;
      TotalRemove(g, b, j);
      var rest := b[..j] + b[j + 1..];
      TailPermutation(a, b, j);
      TotalPermutation(g, a[1..], rest);
    }
  }

  /** Groups that agree on the listed keys have the same total over them. */
  lemma {:induction false} TotalAgrees(g: map<int, Problem>, g': map<int, Problem>, keys: seq<int>)
    requires Covers(g, keys) && Covers(g', keys)
    requires forall i :: 0 <= i < |keys| ==> g[keys[i]] == g'[keys[i]]
    ensures Total(g, keys) == Total(g', keys)
  {
    if keys != [] {
      TotalAgrees(g, g', keys[1..]);
    }
  }

  /** One more subquestion in one listed group adds one to the total. */
  lemma {:induction false} TotalBump(g: map<int, Problem>, keys: seq<int>, k: int, p: Problem)
    requires Covers(g, keys) && Distinct(keys) && k in keys
    requires |p.subquestions| == |g[k].subquestions| + 1
    ensures Covers(g[k := p], keys) && Total(g[k := p], keys) == Total(g, keys) + 1
  {
    if keys[0] == k {
      TotalAgrees(g, g[k := p], keys[1..]);
    } else {
      TotalBump(g, keys[1..], k, p);
    }
  }

  /** In first-seen order, the groups hold one subquestion per row. */
  lemma {:induction false} GroupedCount(rows: seq<ContentUnit>)
    ensures Covers(Groups(rows), KeysInOrder(rows))
    ensures Total(Groups(rows), KeysInOrder(rows)) == |rows|
  {
    KeysSpec(rows);
    if rows != [] {
      var prev := rows[..|rows| - 1];
      var k := rows[|rows| - 1].problemIndex;
      GroupedCount(prev);
      KeysSpec(prev);
      var g, keys := Groups(prev), KeysInOrder(prev);
      var g' := Groups(rows);
      if k in keys {
        TotalBump(g, keys, k, g'[k]);
      } else {
        TotalAppend(g', keys, [k]);
        TotalAgrees(g, g', keys);
      }
    }
  }

  /** The transformed content lists each key's group once, in the enumeration order. */
  lemma TransformOrder(rows: seq<ContentUnit>)
    ensures var order := ObjectValuesOrder(KeysInOrder(rows));
            Covers(Groups(rows), order)
            && multiset(order) == multiset(KeysInOrder(rows))
            && Transform(rows).problems == ValuesOf(Groups(rows), order)
  {
    OrderCovered(rows);
    SplitKeysPermutation(KeysInOrder(rows));
  }

  /** The transformed content holds exactly as many subquestions as there are rows. */
  lemma TransformKeepsEveryRow(rows: seq<ContentUnit>)
    ensures SubquestionCount(Transform(rows).problems) == |rows|
  {
    var keys := KeysInOrder(rows);
    var g := Groups(rows);
    var order := ObjectValuesOrder(keys);
    TransformOrder(rows);
    GroupedCount(rows);
    TotalPermutation(g, keys, order);
    TotalIsCount(g, order);
  }

  /** Listing the groups in a reordering of the keys lists each key's group, and nothing else. */
  lemma ValuesOfReordered(g: map<int, Problem>, keys: seq<int>, order: seq<int>)
    requires Covers(g, order) && multiset(order) == multiset(keys)
    ensures |ValuesOf(g, order)| == |keys|
    ensures forall i :: 0 <= i < |keys| ==> keys[i] in g && g[keys[i]] in ValuesOf(g, order)
    ensures forall p :: p in ValuesOf(g, order) ==> exists i :: 0 <= i < |keys| && keys[i] in g && p == g[keys[i]]
  {
    var ps := ValuesOf(g, order);
    assert |order| == |keys| by { assert |multiset(order)| == |multiset(keys)|; }
    forall i | 0 <= i < |keys| ensures keys[i] in g && g[keys[i]] in ps {
      assert keys[i] in multiset(order);
      var j :| 0 <= j < |order| && order[j] == keys[i];
      assert ps[j] == g[keys[i]];
    }
    forall p | p in ps ensures exists i :: 0 <= i < |keys| && keys[i] in g && p == g[keys[i]] {
      var j :| 0 <= j < |ps| && ps[j] == p;
      assert order[j] in multiset(keys);
      var i :| 0 <= i < |keys| && keys[i] == order[j];
    }
  }

  /** The transformed content has one problem per distinct index of the rows, and each of
    * its problems is the group of an index of the rows. */
  lemma TransformGroupsByIndex(rows: seq<ContentUnit>)
    ensures |Transform(rows).problems| == |KeysInOrder(rows)|
    ensures forall k :: HasIndex(rows, k) ==> k in Groups(rows) && Groups(rows)[k] in Transform(rows).problems
    ensures forall p :: p in Transform(rows).problems ==>
              exists k :: HasIndex(rows, k) && k in Groups(rows) && p == Groups(rows)[k]
  {
    var keys := KeysInOrder(rows);
    var g := Groups(rows);
    KeysSpec(rows);
    TransformOrder(rows);
    ValuesOfReordered(g, keys, ObjectValuesOrder(keys));
    var ps := Transform(rows).problems;
    forall k | HasIndex(rows, k) ensures k in g && g[k] in ps {
      var i :| 0 <= i < |keys| && keys[i] == k;
    }
    forall p | p in ps ensures exists k :: HasIndex(rows, k) && k in g && p == g[k] {
      var i :| 0 <= i < |keys| && keys[i] in g && p == g[keys[i]];
      assert HasIndex(rows, keys[i]);
    }
  }

  // ---------------------------------------------------------------------
  // The cache
  // ---------------------------------------------------------------------

  /** The cached content for a week, when an entry exists and is younger than the TTL. */
  function CachedContent(cache: map<string, CacheEntry>, weekNumber: string, now: int): (r: Option<WeekContent>)
    ensures r.Some? <==> weekNumber in cache && now - cache[weekNumber].timestamp < TTL
    ensures r.Some? ==> r.value == cache[weekNumber].data
  {
    if weekNumber in cache && now - cache[weekNumber].timestamp < TTL then Some(cache[weekNumber].data) else None
  }

  /** An entry stored at time t is served until, and not at, t + TTL. */
  lemma FreshEntryIsServed(cache: map<string, CacheEntry>, weekNumber: string, data: WeekContent, t: int, now: int)
    ensures CachedContent(cache[weekNumber := CacheEntry(data, t)], weekNumber, now) == Some(data) <==> now < t + TTL
  {
  }

  class WeekContentCacheState {
    var cache: map<string, CacheEntry>
    /** The week numbers fetched from the database, in order. */
    var fetches: seq<string>

    constructor()
      ensures cache == map[] && fetches == []
    {
      cache, fetches := map[], [];
    }

    /** `getWeekContent`: a valid cached entry is returned without a fetch; otherwise the
      * week is fetched, and non-empty rows are transformed, stored with the time after the
      * fetch, and returned. Empty rows and a failed fetch return null and store nothing. */
    method GetWeekContent(weekNumber: string, now: int, fetched: Fetched, nowAfterFetch: int)
      returns (r: Option<WeekContent>)
      modifies this
      ensures CachedContent(old(cache), weekNumber, now).Some? ==>
                r == CachedContent(old(cache), weekNumber, now) && cache == old(cache) && fetches == old(fetches)
      ensures CachedContent(old(cache), weekNumber, now).None? ==> fetches == old(fetches) + [weekNumber]
      ensures CachedContent(old(cache), weekNumber, now).None? && fetched.Rows? && |fetched.rows| > 0 ==>
                r == Some(Transform(fetched.rows))
                && cache == old(cache)[weekNumber := CacheEntry(Transform(fetched.rows), nowAfterFetch)]
      ensures CachedContent(old(cache), weekNumber, now).None? && !(fetched.Rows? && |fetched.rows| > 0) ==>
                r == None && cache == old(cache)
    {
      var cached := CachedContent(cache, weekNumber, now);
      if cached.Some? {
        return cached;
      }
      fetches := fetches + [weekNumber];
      match fetched {
        case FetchThrew =>
          r := None;
        case Rows(rows) =>
          if |rows| > 0 {
            var groups, keys := GroupByProblem(rows);
            OrderCovered(rows);
            var data := WeekContent(ValuesOf(groups, ObjectValuesOrder(keys)));
            cache := cache[weekNumber := CacheEntry(data, nowAfterFetch)];
            r := Some(data);
          } else {
            r := None;
          }
      }
    }
  }
}
