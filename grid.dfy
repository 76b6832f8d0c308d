/** The roster as a sequence of plants, and what the recovery engine measures
    on it: total and stability-weighted output, grid stability and the output
    per type label. The engine's methods are proved to compute these. */
module Grid {
  import opened Types
  import opened Plants

  /** Below this grid stability, renewables are curtailed. */
  const MinimumStability: real := 0.7

  predicate AllWellFormed(ps: seq<Plant>)
  {
    forall i :: 0 <= i < |ps| ==> WellFormed(ps[i])
  }

  /** Ids grow along the roster: plants are appended in creation order. */
  predicate IdsIncreasing(ps: seq<Plant>)
  {
    forall i, j :: 0 <= i < j < |ps| ==> ps[i].plate.id < ps[j].plate.id
  }

  predicate DistinctIds(ps: seq<Plant>)
  {
    forall i, j :: 0 <= i < |ps| && 0 <= j < |ps| && i != j ==> ps[i].plate.id != ps[j].plate.id
  }

  lemma IncreasingIdsAreDistinct(ps: seq<Plant>)
    requires IdsIncreasing(ps)
    ensures DistinctIds(ps)
  {
    forall i, j | 0 <= i < |ps| && 0 <= j < |ps| && i != j ensures ps[i].plate.id != ps[j].plate.id {
      if i < j {
        assert ps[i].plate.id < ps[j].plate.id;
      } else {
        assert ps[j].plate.id < ps[i].plate.id;
      }
    }
  }

  /** Two rosters of the same plants, which may differ in state and output. */
  predicate SameStatic(ps: seq<Plant>, qs: seq<Plant>)
  {
    |ps| == |qs| && forall i :: 0 <= i < |ps| ==> ps[i].plate == qs[i].plate
  }

  /** Rosters of the same plants have the same ids in the same places. */
  lemma SameStaticKeepsIds(ps: seq<Plant>, qs: seq<Plant>, bound: nat)
    requires SameStatic(ps, qs)
    requires IdsIncreasing(ps) && forall i :: 0 <= i < |ps| ==> ps[i].plate.id < bound
    ensures IdsIncreasing(qs) && forall i :: 0 <= i < |qs| ==> qs[i].plate.id < bound
  {
  }

  /** Rosters of the same plants both have distinct ids or both do not. */
  lemma SameStaticKeepsDistinct(ps: seq<Plant>, qs: seq<Plant>)
    requires SameStatic(ps, qs) && DistinctIds(ps)
    ensures DistinctIds(qs)
  {
  }

  // ---------------------------------------------------------------- sums

  /** Sum of the simulated outputs, accumulated in roster order. */
  function TotalOutput(ps: seq<Plant>): real
  {
    if ps == [] then 0.0
    else TotalOutput(ps[..|ps| - 1]) + SimulatedOutput(ps[|ps| - 1])
  }

  /** Sum of output times stability, accumulated in roster order. */
  function WeightedOutput(ps: seq<Plant>): real
  {
    if ps == [] then 0.0
    else WeightedOutput(ps[..|ps| - 1]) + Weight(ps[|ps| - 1])
  }

  /** A plant's output times its stability. */
  function Weight(p: Plant): real
  {
    SimulatedOutput(p) * p.plate.stability
  }

  lemma WeightBounded(p: Plant)
    requires WellFormed(p)
    ensures 0.0 <= Weight(p) <= SimulatedOutput(p)
  {
    var o, f := SimulatedOutput(p), p.plate.stability;
    assert 0.0 <= o && 0.0 <= f <= 1.0;
    MulBounded(o, f);
    assert Weight(p) == o * f;
  }

  /** Output-weighted average stability; 1 when nothing is generated. */
  function Stability(ps: seq<Plant>): real
  {
    var total := TotalOutput(ps);
    if total == 0.0 then 1.0 else WeightedOutput(ps) / total
  }

  lemma {:induction false} OutputSumsBounded(ps: seq<Plant>)
    requires AllWellFormed(ps)
    ensures 0.0 <= WeightedOutput(ps) <= TotalOutput(ps)
  {
    if ps != [] {
      var n := |ps|;
      PrefixWellFormed(ps, n - 1);
      OutputSumsBounded(ps[..n - 1]);
      WeightBounded(ps[n - 1]);
    }
  }

  /** How both sums grow by the last plant. */
  lemma SumsStep(ps: seq<Plant>)
    requires ps != []
    ensures TotalOutput(ps) == TotalOutput(ps[..|ps| - 1]) + SimulatedOutput(ps[|ps| - 1])
    ensures WeightedOutput(ps) == WeightedOutput(ps[..|ps| - 1]) + Weight(ps[|ps| - 1])
  {
  }

  lemma PrefixWellFormed(ps: seq<Plant>, n: nat)
    requires AllWellFormed(ps) && n <= |ps|
    ensures AllWellFormed(ps[..n])
  {
  }

  lemma MulBounded(x: real, f: real)
    ensures 0.0 <= x && 0.0 <= f <= 1.0 ==> 0.0 <= x * f <= x
  {
    if 0.0 <= x && 0.0 <= f <= 1.0 {
      assert x * f <= x * 1.0;
    }
  }

  lemma NegativeTimesPositive(x: real, t: real)
    requires 0.0 < t
    ensures x < 0.0 ==> x * t < 0.0
  {
  }

  /** A part over a positive whole lies in [0, 1]. */
  lemma QuotientInUnit(w: real, t: real)
    requires 0.0 <= w <= t && 0.0 < t
    ensures 0.0 <= w / t <= 1.0
  {
    var q := w / t;
    assert q * t == w;
    assert (1.0 - q) * t == t - w;
    NegativeTimesPositive(q, t);
    NegativeTimesPositive(1.0 - q, t);
  }

  /** Grid stability lies in [0, 1], and is exactly 1 with no generation. */
  lemma {:induction false} StabilityInUnitInterval(ps: seq<Plant>)
    requires AllWellFormed(ps)
    ensures 0.0 <= Stability(ps) <= 1.0
    ensures TotalOutput(ps) == 0.0 ==> Stability(ps) == 1.0
    ensures TotalOutput(ps) >= 0.0
  {
    OutputSumsBounded(ps);
    var w, t := WeightedOutput(ps), TotalOutput(ps);
    if t != 0.0 {
      QuotientInUnit(w, t);
    }
  }

  /** Replacing one plant changes each sum by that plant's difference. */
  lemma {:induction false} SumsAfterUpdate(ps: seq<Plant>, i: nat, p: Plant)
    requires i < |ps|
    ensures TotalOutput(ps[i := p]) == TotalOutput(ps) - SimulatedOutput(ps[i]) + SimulatedOutput(p)
    ensures WeightedOutput(ps[i := p]) == WeightedOutput(ps) - Weight(ps[i]) + Weight(p)
  {
    var n := |ps|;
    var qs := ps[i := p];
    if i == n - 1 {
      assert qs[..n - 1] == ps[..n - 1];
    } else {
      assert qs[..n - 1] == ps[..n - 1][i := p];
      SumsAfterUpdate(ps[..n - 1], i, p);
    }
  }

  /** A roster where no plant is online generates nothing. */
  lemma {:induction false} NothingOnlineNoOutput(ps: seq<Plant>)
    requires forall i :: 0 <= i < |ps| ==> ps[i].state != Online
    ensures TotalOutput(ps) == 0.0 && WeightedOutput(ps) == 0.0
  {
    if ps != [] {
      NothingOnlineNoOutput(ps[..|ps| - 1]);
    }
  }

  // ---------------------------------------------------------- by type

  /** Output per type label: only positive outputs are merged into the map,
      summed per label, in roster order. */
  function ByType(ps: seq<Plant>): map<string, real>
  {
    if ps == [] then map[]
    else
      var m := ByType(ps[..|ps| - 1]);
      var p := ps[|ps| - 1];
      var output := SimulatedOutput(p);
      if output > 0.0 then
        m[p.plate.typeLabel := (if p.plate.typeLabel in m then m[p.plate.typeLabel] else 0.0) + output]
      else m
  }

  /** Sum of the positive outputs of the plants that carry a label. */
  function LabelOutput(ps: seq<Plant>, tag: string): real
  {
    if ps == [] then 0.0
    else
      var p := ps[|ps| - 1];
      var output := SimulatedOutput(p);
      LabelOutput(ps[..|ps| - 1], tag) + (if p.plate.typeLabel == tag && output > 0.0 then output else 0.0)
  }

  /** A label is a key exactly when its plants generate something, and its
      value is their total output. */
  lemma {:induction false} ByTypeAt(ps: seq<Plant>, tag: string)
    ensures LabelOutput(ps, tag) >= 0.0
    ensures tag in ByType(ps) <==> LabelOutput(ps, tag) > 0.0
    ensures tag in ByType(ps) ==> ByType(ps)[tag] == LabelOutput(ps, tag)
  {
    if ps != [] {
      ByTypeAt(ps[..|ps| - 1], tag);
    }
  }
}
