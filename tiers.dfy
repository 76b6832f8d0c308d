/** Which plants each tier list holds, and the orders the engine sorts them
    by. Lists hold roster indices. */
module Tiers {
  import opened Types
  import opened Plants
  import opened Grid

  // ----------------------------------------------------------- selection

  /** Which plants a list is filtered down to. */
  datatype Criterion = InTier(tier: Tier) | OnlineIn(tier: Tier)

  predicate Meets(p: Plant, c: Criterion)
  {
    match c
    case InTier(t) => TierOf(p.plate.family) == t
    case OnlineIn(t) => TierOf(p.plate.family) == t && p.state == Online
  }

  /** Indices below n of the plants meeting the criterion, in roster order. */
  function SelectBelow(ps: seq<Plant>, c: Criterion, n: nat): (r: seq<nat>)
    requires n <= |ps|
    ensures forall i :: 0 <= i < |r| ==> r[i] < n && Meets(ps[r[i]], c)
    ensures forall k: nat :: k < n && Meets(ps[k], c) ==> k in r
    ensures forall i, j :: 0 <= i < j < |r| ==> r[i] < r[j]
  {
    if n == 0 then []
    else
      var front := SelectBelow(ps, c, n - 1);
      var last: seq<nat> := if Meets(ps[n - 1], c) then [n - 1] else [];
      assert forall i :: 0 <= i < |front + last| ==>
        (front + last)[i] == if i < |front| then front[i] else last[i - |front|];
      front + last
  }

  function Select(ps: seq<Plant>, c: Criterion): seq<nat>
  {
    SelectBelow(ps, c, |ps|)
  }

  predicate InRange(ps: seq<Plant>, xs: seq<nat>)
  {
    forall i :: 0 <= i < |xs| ==> xs[i] < |ps|
  }

  predicate NoDup(xs: seq<nat>)
  {
    forall i, j :: 0 <= i < j < |xs| ==> xs[i] != xs[j]
  }

  /** The tail of a list without duplicates has none, and lacks the head. */
  lemma TailOfDistinct(xs: seq<nat>)
    requires xs != [] && NoDup(xs)
    ensures NoDup(xs[1..]) && xs[0] !in xs[1..]
    ensures forall k :: k in xs[1..] ==> k in xs && k != xs[0]
    ensures forall k :: k in xs && k != xs[0] ==> k in xs[1..]
  {
    forall k | k in xs && k != xs[0] ensures k in xs[1..] {
      var m :| 0 <= m < |xs| && xs[m] == k;
      assert xs[1..][m - 1] == k;
    }
    forall k | k in xs[1..] ensures k in xs && k != xs[0] {
      var m :| 0 <= m < |xs[1..]| && xs[1..][m] == k;
      assert xs[m + 1] == k;
    }
  }

  /** A filtered list holds each meeting plant once. */
  lemma SelectFacts(ps: seq<Plant>, c: Criterion)
    ensures InRange(ps, Select(ps, c)) && NoDup(Select(ps, c))
    ensures forall k: nat :: k in Select(ps, c) <==> k < |ps| && Meets(ps[k], c)
  {
  }

  /** A filtered and sorted list holds each meeting plant once, in order. */
  lemma SortedSelectFacts(ps: seq<Plant>, o: Order, c: Criterion)
    requires DistinctIds(ps)
    ensures var r := Sort(ps, o, Select(ps, c));
            && InRange(ps, r) && NoDup(r) && SortedBy(ps, o, r)
            && forall k: nat :: k in r <==> k < |ps| && Meets(ps[k], c)
  {
    SelectFacts(ps, c);
    SortSorted(ps, o, Select(ps, c));
  }

  /** On a roster whose ids grow in roster order, a filtered list is ordered
      by ascending id, as the engine sorts the nuclear and thermal tiers. */
  lemma SelectByAscendingId(ps: seq<Plant>, c: Criterion)
    requires IdsIncreasing(ps)
    ensures forall i, j :: 0 <= i < j < |Select(ps, c)| ==>
              ps[Select(ps, c)[i]].plate.id < ps[Select(ps, c)[j]].plate.id
  {
  }

  // ------------------------------------------------------------ ordering

  /** The two orders the engine sorts renewables by: descending stability for
      dispatch, ascending stability for curtailment, ties by ascending id. */
  datatype Order = StabilityDescending | StabilityAscending

  predicate Before(o: Order, a: Plant, b: Plant)
  {
    match o
    case StabilityDescending => a.plate.stability > b.plate.stability || (a.plate.stability == b.plate.stability && a.plate.id < b.plate.id)
    case StabilityAscending => a.plate.stability < b.plate.stability || (a.plate.stability == b.plate.stability && a.plate.id < b.plate.id)
  }

  predicate SortedBy(ps: seq<Plant>, o: Order, xs: seq<nat>)
    requires InRange(ps, xs)
  {
    forall i, j :: 0 <= i < j < |xs| ==> Before(o, ps[xs[i]], ps[xs[j]])
  }

  function Insert(ps: seq<Plant>, o: Order, k: nat, xs: seq<nat>): (r: seq<nat>)
    requires k < |ps| && InRange(ps, xs)
    ensures InRange(ps, r)
  {
    if xs == [] then [k]
    else if Before(o, ps[k], ps[xs[0]]) then [k] + xs
    else [xs[0]] + Insert(ps, o, k, xs[1..])
  }

  /** Insertion sort of a list of roster indices. */
  function Sort(ps: seq<Plant>, o: Order, xs: seq<nat>): (r: seq<nat>)
    requires InRange(ps, xs)
    ensures InRange(ps, r)
  {
    if xs == [] then []
    else Insert(ps, o, xs[0], Sort(ps, o, xs[1..]))
  }

  /** Insertion adds the one index to the list, and nothing else. */
  lemma {:induction false} InsertPermutes(ps: seq<Plant>, o: Order, k: nat, xs: seq<nat>)
    requires k < |ps| && InRange(ps, xs)
    ensures multiset(Insert(ps, o, k, xs)) == multiset(xs) + multiset{k}
  {
    if xs != [] {
      assert xs == [xs[0]] + xs[1..];
      if !Before(o, ps[k], ps[xs[0]]) {
        InsertPermutes(ps, o, k, xs[1..]);
      }
    }
  }

  /** Sorting rearranges the list. */
  lemma {:induction false} SortPermutes(ps: seq<Plant>, o: Order, xs: seq<nat>)
    requires InRange(ps, xs)
    ensures multiset(Sort(ps, o, xs)) == multiset(xs)
  {
    if xs != [] {
      assert xs == [xs[0]] + xs[1..];
      SortPermutes(ps, o, xs[1..]);
      InsertPermutes(ps, o, xs[0], Sort(ps, o, xs[1..]));
    }
  }

  /** A sorted list stays sorted behind an element that precedes all of it. */
  lemma ConsSorted(ps: seq<Plant>, o: Order, x: nat, ys: seq<nat>)
    requires x < |ps| && InRange(ps, ys) && SortedBy(ps, o, ys)
    requires forall m :: 0 <= m < |ys| ==> Before(o, ps[x], ps[ys[m]])
    ensures InRange(ps, [x] + ys) && SortedBy(ps, o, [x] + ys)
  {
    var r := [x] + ys;
    forall i, j | 0 <= i < j < |r| ensures Before(o, ps[r[i]], ps[r[j]]) {
      assert r[j] == ys[j - 1];
      if i > 0 {
        assert r[i] == ys[i - 1];
      }
    }
  }

  lemma {:induction false} InsertSorted(ps: seq<Plant>, o: Order, k: nat, xs: seq<nat>)
    requires k < |ps| && InRange(ps, xs) && DistinctIds(ps)
    requires SortedBy(ps, o, xs) && k !in xs
    ensures SortedBy(ps, o, Insert(ps, o, k, xs))
  {
    if xs == [] {
    } else if Before(o, ps[k], ps[xs[0]]) {
      forall m | 0 <= m < |xs| ensures Before(o, ps[k], ps[xs[m]]) {
        if m > 0 {
          assert Before(o, ps[xs[0]], ps[xs[m]]);
        }
      }
      ConsSorted(ps, o, k, xs);
    } else {
      var tail := xs[1..];
      assert SortedBy(ps, o, tail) by {
        forall i, j | 0 <= i < j < |tail| ensures Before(o, ps[tail[i]], ps[tail[j]]) {
          assert tail[i] == xs[i + 1] && tail[j] == xs[j + 1];
        }
      }
      assert k !in tail by {
        assert forall m :: m in tail ==> m in xs;
      }
      InsertSorted(ps, o, k, tail);
      var rest := Insert(ps, o, k, tail);
      InsertPermutes(ps, o, k, tail);
      assert ps[k].plate.id != ps[xs[0]].plate.id;
      assert Before(o, ps[xs[0]], ps[k]);
      forall m | 0 <= m < |rest| ensures Before(o, ps[xs[0]], ps[rest[m]]) {
        var e := rest[m];
        assert e in multiset(rest);
        if e != k {
          assert e in multiset(tail);
          var l :| 0 <= l < |tail| && tail[l] == e;
          assert xs[l + 1] == e;
        }
      }
      ConsSorted(ps, o, xs[0], rest);
    }
  }

  /** Sorting distinct indices of a roster with distinct ids yields them in
      the order's strict sequence, and only them. */
  lemma {:induction false} SortSorted(ps: seq<Plant>, o: Order, xs: seq<nat>)
    requires InRange(ps, xs) && DistinctIds(ps) && NoDup(xs)
    ensures SortedBy(ps, o, Sort(ps, o, xs)) && NoDup(Sort(ps, o, xs))
    ensures forall k :: k in Sort(ps, o, xs) <==> k in xs
  {
    var r := Sort(ps, o, xs);
    SortPermutes(ps, o, xs);
    if xs != [] {
      var tail := xs[1..];
      assert forall m :: m in tail ==> m in xs;
      assert NoDup(tail);
      SortSorted(ps, o, tail);
      assert xs[0] !in tail;
      SortPermutes(ps, o, tail);
      assert xs[0] !in multiset(Sort(ps, o, tail));
      InsertSorted(ps, o, xs[0], Sort(ps, o, tail));
    }
    forall k ensures k in r <==> k in xs {
      assert k in r <==> k in multiset(r);
      assert k in xs <==> k in multiset(xs);
    }
  }

  /** Each head is in the other list, so each would precede the other were
      they different. */
  lemma SortedHeadsAgree(ps: seq<Plant>, o: Order, xs: seq<nat>, ys: seq<nat>)
    requires InRange(ps, xs) && InRange(ps, ys) && xs != []
    requires SortedBy(ps, o, xs) && SortedBy(ps, o, ys) && multiset(xs) == multiset(ys)
    ensures ys != [] && xs[0] == ys[0]
  {
    assert xs[0] in multiset(ys);
    var m :| 0 <= m < |ys| && ys[m] == xs[0];
    assert ys[0] in multiset(xs);
    var l :| 0 <= l < |xs| && xs[l] == ys[0];
    assert m == 0 || l == 0 || (Before(o, ps[ys[0]], ps[xs[0]]) && Before(o, ps[xs[0]], ps[ys[0]]));
  }

  /** The tail of a sorted arrangement is sorted and holds the rest. */
  lemma SortedTail(ps: seq<Plant>, o: Order, xs: seq<nat>)
    requires InRange(ps, xs) && SortedBy(ps, o, xs) && xs != []
    ensures InRange(ps, xs[1..]) && SortedBy(ps, o, xs[1..])
    ensures multiset(xs[1..]) == multiset(xs) - multiset{xs[0]}
  {
    assert xs == [xs[0]] + xs[1..];
  }

  /** The order is a strict total order on plants with distinct ids, so two
      sorted arrangements of the same indices coincide: whatever sort the
      engine uses produces this sequence. */
  lemma {:induction false} SortedIsUnique(ps: seq<Plant>, o: Order, xs: seq<nat>, ys: seq<nat>)
    requires InRange(ps, xs) && InRange(ps, ys)
    requires SortedBy(ps, o, xs) && SortedBy(ps, o, ys) && multiset(xs) == multiset(ys)
    ensures xs == ys
  {
    if xs != [] {
      SortedHeadsAgree(ps, o, xs, ys);
      SortedTail(ps, o, xs);
      SortedTail(ps, o, ys);
      SortedIsUnique(ps, o, xs[1..], ys[1..]);
      assert xs == [xs[0]] + xs[1..] && ys == [ys[0]] + ys[1..];
    } else {
      assert |ys| == |multiset(ys)| == 0;
    }
  }
}
