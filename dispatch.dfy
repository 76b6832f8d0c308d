/** The greedy allocation pass and the curtailment of renewables, as
    functions from a roster and a list of indices to the updated roster and the
    unmet demand. */
module Dispatch {
  import opened Types
  import opened Plants
  import opened Grid
  import opened Tiers

  // ---------------------------------------------------------- allocation

  /** A roster after a pass, with the demand the pass left unmet. */
  datatype Allocation = Allocation(plants: seq<Plant>, remaining: real)

  /** One step of the greedy pass: request the remaining demand from the plant
      and set it online if the returned increase is positive. */
  function Dispatch(p: Plant, remaining: real): (a: Assignment)
    requires remaining >= 0.0
    ensures a.plant.plate == p.plate
    ensures p.state == Unavailable ==> a == Assignment(p, 0.0)
    ensures p.state != Unavailable ==> a.plant.assignedOutput == Min(remaining, MaxPowerOutput(p))
    ensures a.delta >= 0.0
    ensures a.plant.state == (if a.delta > 0.0 then Online else p.state)
    ensures WellFormed(p) && remaining > 0.0 ==> WellFormed(a.plant) && a.delta <= remaining
    ensures WellFormed(p) && p.state == Idle ==> a.delta == a.plant.assignedOutput
  {
    var a := AssignPowerOutput(p, remaining).value;
    if a.delta > 0.0 then Assignment(a.plant.(state := Online), a.delta) else a
  }

  /** The greedy pass over plants in the given order: it stops before a plant
      once the remaining demand is not positive, and deducts each returned
      increase from it. Only the listed plants change, and only their state
      and assignment (see AllocateFrame). */
  function Allocate(ps: seq<Plant>, order: seq<nat>, remaining: real): (r: Allocation)
    requires InRange(ps, order)
    ensures |r.plants| == |ps|
    decreases |order|
  {
    if order == [] || remaining <= 0.0 then Allocation(ps, remaining)
    else
      var i := order[0];
      var a := Dispatch(ps[i], remaining);
      Allocate(ps[i := a.plant], order[1..], remaining - a.delta)
  }

  /** One step of the pass, unfolded. */
  lemma AllocateStep(ps: seq<Plant>, order: seq<nat>, remaining: real)
    requires InRange(ps, order) && order != [] && remaining > 0.0
    ensures var a := Dispatch(ps[order[0]], remaining);
            Allocate(ps, order, remaining)
            == Allocate(ps[order[0] := a.plant], order[1..], remaining - a.delta)
  {
  }

  /** A plant that is not listed is left as it is. */
  lemma {:induction false} AllocateLeaves(ps: seq<Plant>, order: seq<nat>, remaining: real, j: nat)
    requires InRange(ps, order) && j < |ps| && j !in order
    ensures Allocate(ps, order, remaining).plants[j] == ps[j]
    decreases |order|
  {
    if order != [] && remaining > 0.0 {
      var a := Dispatch(ps[order[0]], remaining);
      AllocateLeaves(ps[order[0] := a.plant], order[1..], remaining - a.delta, j);
    }
  }

  /** An unavailable plant is never dispatched to. */
  lemma {:induction false} AllocateSkipsUnavailable(ps: seq<Plant>, order: seq<nat>, remaining: real, j: nat)
    requires InRange(ps, order) && j < |ps| && ps[j].state == Unavailable
    ensures Allocate(ps, order, remaining).plants[j] == ps[j]
    decreases |order|
  {
    if order != [] && remaining > 0.0 {
      var a := Dispatch(ps[order[0]], remaining);
      AllocateSkipsUnavailable(ps[order[0] := a.plant], order[1..], remaining - a.delta, j);
    }
  }

  /** Only the listed plants change, and only in state and assignment. */
  lemma {:induction false} AllocateFrame(ps: seq<Plant>, order: seq<nat>, remaining: real)
    requires InRange(ps, order)
    ensures SameStatic(ps, Allocate(ps, order, remaining).plants)
    ensures forall j :: 0 <= j < |ps| && j !in order ==> Allocate(ps, order, remaining).plants[j] == ps[j]
    decreases |order|
  {
    if order != [] && remaining > 0.0 {
      var i := order[0];
      var a := Dispatch(ps[i], remaining);
      var qs := ps[i := a.plant];
      AllocateFrame(qs, order[1..], remaining - a.delta);
      assert forall j :: 0 <= j < |ps| && j !in order ==> j !in order[1..] && qs[j] == ps[j];
    }
  }

  /** A pass keeps every plant well formed and never leaves the remaining
      demand below 0 or above what it started with. */
  lemma {:induction false} AllocateKeepsInvariants(ps: seq<Plant>, order: seq<nat>, remaining: real)
    requires InRange(ps, order) && AllWellFormed(ps)
    ensures AllWellFormed(Allocate(ps, order, remaining).plants)
    ensures remaining >= 0.0 ==>
              0.0 <= Allocate(ps, order, remaining).remaining <= remaining
    ensures remaining <= 0.0 ==> Allocate(ps, order, remaining) == Allocation(ps, remaining)
    decreases |order|
  {
    if order != [] && remaining > 0.0 {
      var i := order[0];
      var a := Dispatch(ps[i], remaining);
      AllocateKeepsInvariants(ps[i := a.plant], order[1..], remaining - a.delta);
    }
  }

  /** When no listed plant is online yet (as in the first pass of a minute),
      the output the pass adds is exactly the demand it consumes. */
  lemma {:induction false} AllocateConservesDemand(ps: seq<Plant>, order: seq<nat>, remaining: real)
    requires InRange(ps, order) && NoDup(order) && AllWellFormed(ps) && remaining >= 0.0
    requires forall k :: k in order ==> ps[k].state != Online
    ensures TotalOutput(Allocate(ps, order, remaining).plants)
            == TotalOutput(ps) + (remaining - Allocate(ps, order, remaining).remaining)
    decreases |order|
  {
    if order != [] && remaining > 0.0 {
      var i := order[0];
      var a := Dispatch(ps[i], remaining);
      var qs := ps[i := a.plant];
      SumsAfterUpdate(ps, i, a.plant);
      assert SimulatedOutput(a.plant) == a.delta;
      var tail := order[1..];
      TailOfDistinct(order);
      AllocateConservesDemand(qs, tail, remaining - a.delta);
    }
  }

  /** Well formed and not yet online: how the first pass finds the plants it
      dispatches to. */
  predicate Waiting(p: Plant)
  {
    WellFormed(p) && p.state != Online
  }

  /** Running at the maximum output, unless unavailable. */
  predicate Saturated(p: Plant)
  {
    p.state != Unavailable ==> p.assignedOutput == MaxPowerOutput(p)
  }

  /** A pass never generates more than the demand it consumes: output it
      adds beyond that is impossible, and output it takes back from an online
      plant asked for less is not returned to the unmet demand. */
  lemma {:induction false} AllocateNeverOvershoots(ps: seq<Plant>, order: seq<nat>, remaining: real)
    requires InRange(ps, order) && AllWellFormed(ps) && remaining >= 0.0
    ensures var r := Allocate(ps, order, remaining);
            TotalOutput(r.plants) + r.remaining <= TotalOutput(ps) + remaining
    decreases |order|
  {
    if order != [] && remaining > 0.0 {
      var i := order[0];
      var a := Dispatch(ps[i], remaining);
      var qs := ps[i := a.plant];
      SumsAfterUpdate(ps, i, a.plant);
      assert SimulatedOutput(a.plant) - SimulatedOutput(ps[i]) <= a.delta;
      DispatchKeepsWellFormed(ps, i, remaining);
      AllocateNeverOvershoots(qs, order[1..], remaining - a.delta);
    }
  }

  /** Greedy saturation: if the pass still leaves demand unmet, every
      available listed plant is running at its maximum output. */
  lemma {:induction false} AllocateSaturates(ps: seq<Plant>, order: seq<nat>, remaining: real)
    requires InRange(ps, order) && NoDup(order) && remaining >= 0.0
    requires forall k :: k in order ==> Waiting(ps[k])
    ensures var r := Allocate(ps, order, remaining);
            r.remaining > 0.0 ==> forall k :: k in order ==> Saturated(r.plants[k])
    decreases |order|
  {
    if order != [] && remaining > 0.0 {
      SaturatesHead(ps, order, remaining);
      var i := order[0];
      var a := Dispatch(ps[i], remaining);
      var qs := ps[i := a.plant];
      var tail := order[1..];
      var rem := remaining - a.delta;
      AllocateSaturates(qs, tail, rem);
      AllocateLeaves(qs, tail, rem, i);
      AllocateStep(ps, order, remaining);
      var r := Allocate(qs, tail, rem);
      if r.remaining > 0.0 {
        forall k | k in order ensures Saturated(r.plants[k]) {
          if k != i {
            assert k in tail;
          }
        }
      }
    }
  }

  /** The first step of a saturating pass: the rest of the pass starts from
      waiting plants with demand not below 0, and the first plant is left at
      its maximum output unless the demand is met. */
  lemma SaturatesHead(ps: seq<Plant>, order: seq<nat>, remaining: real)
    requires InRange(ps, order) && NoDup(order) && order != [] && remaining > 0.0
    requires forall k :: k in order ==> Waiting(ps[k])
    ensures var a := Dispatch(ps[order[0]], remaining);
            var qs := ps[order[0] := a.plant];
            && remaining - a.delta >= 0.0
            && InRange(qs, order[1..]) && NoDup(order[1..]) && order[0] !in order[1..]
            && (forall k :: k in order[1..] ==> Waiting(qs[k]))
            && (remaining - a.delta > 0.0 ==> Saturated(a.plant))
  {
    var i := order[0];
    assert Waiting(ps[i]);
    TailOfDistinct(order);
    DispatchLeavesDemandOrSaturates(ps[i], remaining);
  }

  /** Dispatching to a waiting plant either meets the demand or leaves the
      plant at its maximum output. */
  lemma DispatchLeavesDemandOrSaturates(p: Plant, remaining: real)
    requires Waiting(p) && remaining > 0.0
    ensures var a := Dispatch(p, remaining);
            remaining - a.delta > 0.0 ==> Saturated(a.plant)
  {
    if p.state == Idle {
      DispatchSaturatesOrExhausts(p, remaining);
    }
  }

  /** Dispatching to one plant keeps the roster well formed. */
  lemma DispatchKeepsWellFormed(ps: seq<Plant>, i: nat, remaining: real)
    requires i < |ps| && AllWellFormed(ps) && remaining > 0.0
    ensures AllWellFormed(ps[i := Dispatch(ps[i], remaining).plant])
  {
  }

  /** An idle plant either absorbs all of the remaining demand or runs at
      its maximum output. */
  lemma DispatchSaturatesOrExhausts(p: Plant, remaining: real)
    requires WellFormed(p) && p.state == Idle && remaining > 0.0
    ensures var a := Dispatch(p, remaining);
            a.delta == remaining || Saturated(a.plant)
  {
  }

  // --------------------------------------------------------- curtailment

  /** Disconnecting a plant: assign it 0 and set it idle. */
  function Disconnect(p: Plant): (q: Plant)
    ensures q.plate == p.plate && q.state == Idle && SimulatedOutput(q) == 0.0
    ensures WellFormed(p) && p.state == Online ==> WellFormed(q)
  {
    AssignPowerOutput(p, 0.0).value.plant.(state := Idle)
  }

  /** Disconnects the listed plants in turn, stopping as soon as the grid
      stability reaches the minimum; each disconnected output is returned to
      the unmet demand. Plants it changes are listed ones, and end up idle
      (see CurtailFrame). */
  function Curtail(ps: seq<Plant>, order: seq<nat>, remaining: real): (r: Allocation)
    requires InRange(ps, order)
    ensures |r.plants| == |ps|
    decreases |order|
  {
    if order == [] || Stability(ps) >= MinimumStability then Allocation(ps, remaining)
    else
      var i := order[0];
      Curtail(ps[i := Disconnect(ps[i])], order[1..], remaining + SimulatedOutput(ps[i]))
  }

  /** Only listed plants change, each only in state and assignment, and a
      changed plant is idle. */
  lemma {:induction false} CurtailFrame(ps: seq<Plant>, order: seq<nat>, remaining: real)
    requires InRange(ps, order)
    ensures SameStatic(ps, Curtail(ps, order, remaining).plants)
    ensures forall j :: 0 <= j < |ps| && Curtail(ps, order, remaining).plants[j] != ps[j] ==>
              j in order && Curtail(ps, order, remaining).plants[j].state == Idle
    decreases |order|
  {
    if order != [] && Stability(ps) < MinimumStability {
      var i := order[0];
      var qs := ps[i := Disconnect(ps[i])];
      CurtailFrame(qs, order[1..], remaining + SimulatedOutput(ps[i]));
      assert forall j :: j in order[1..] ==> j in order;
    }
  }

  /** One step of curtailment, unfolded. */
  lemma CurtailStep(ps: seq<Plant>, order: seq<nat>, remaining: real)
    requires InRange(ps, order) && order != [] && Stability(ps) < MinimumStability
    ensures Curtail(ps, order, remaining)
            == Curtail(ps[order[0] := Disconnect(ps[order[0]])], order[1..],
                       remaining + SimulatedOutput(ps[order[0]]))
  {
  }

  /** Curtailment never brings a plant online. */
  lemma {:induction false} CurtailKeepsOffline(ps: seq<Plant>, order: seq<nat>, remaining: real, j: nat)
    requires InRange(ps, order) && j < |ps| && ps[j].state != Online
    ensures Curtail(ps, order, remaining).plants[j].state != Online
    decreases |order|
  {
    if order != [] && Stability(ps) < MinimumStability {
      var i := order[0];
      CurtailKeepsOffline(ps[i := Disconnect(ps[i])], order[1..], remaining + SimulatedOutput(ps[i]), j);
    }
  }

  /** After curtailment either the grid is stable enough or none of the
      listed plants is online any more. */
  lemma {:induction false} CurtailOutcome(ps: seq<Plant>, order: seq<nat>, remaining: real)
    requires InRange(ps, order) && NoDup(order)
    ensures var r := Curtail(ps, order, remaining);
            Stability(r.plants) >= MinimumStability
            || forall k :: k in order ==> r.plants[k].state != Online
    decreases |order|
  {
    if order != [] && Stability(ps) < MinimumStability {
      var i := order[0];
      var tail := order[1..];
      TailOfDistinct(order);
      var qs := ps[i := Disconnect(ps[i])];
      var rem := remaining + SimulatedOutput(ps[i]);
      CurtailStep(ps, order, remaining);
      CurtailOutcome(qs, tail, rem);
      var r := Curtail(qs, tail, rem);
      if Stability(r.plants) < MinimumStability {
        CurtailKeepsOffline(qs, tail, rem, i);
        forall k | k in order ensures r.plants[k].state != Online {
          if k != i {
            assert k in tail;
          }
        }
      }
    }
  }

  /** Curtailment moves output into the unmet demand and nowhere else. */
  lemma {:induction false} CurtailConserves(ps: seq<Plant>, order: seq<nat>, remaining: real)
    requires InRange(ps, order)
    ensures var r := Curtail(ps, order, remaining);
            r.remaining + TotalOutput(r.plants) == remaining + TotalOutput(ps)
    decreases |order|
  {
    if order != [] && Stability(ps) < MinimumStability {
      var i := order[0];
      SumsAfterUpdate(ps, i, Disconnect(ps[i]));
      CurtailConserves(ps[i := Disconnect(ps[i])], order[1..], remaining + SimulatedOutput(ps[i]));
    }
  }

  /** Curtailing plants that are all online keeps every plant well formed. */
  lemma {:induction false} CurtailKeepsWellFormed(ps: seq<Plant>, order: seq<nat>, remaining: real)
    requires InRange(ps, order) && NoDup(order) && AllWellFormed(ps)
    requires forall k :: k in order ==> ps[k].state == Online
    ensures AllWellFormed(Curtail(ps, order, remaining).plants)
    ensures Curtail(ps, order, remaining).remaining >= remaining
    decreases |order|
  {
    if order != [] && Stability(ps) < MinimumStability {
      var i := order[0];
      var tail := order[1..];
      TailOfDistinct(order);
      CurtailKeepsWellFormed(ps[i := Disconnect(ps[i])], tail, remaining + SimulatedOutput(ps[i]));
    }
  }
}
