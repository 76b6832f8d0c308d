/** One simulated minute: every plant is reset by availability, the demand is
    dispatched to renewables (most stable first), then nuclear, then thermal
    plants, the least stable renewables are disconnected while the grid is
    below the minimum stability, the nuclear plants are asked once more for
    what is left, and the minute is recorded. */
module Minute {
  import opened Types
  import opened Plants
  import opened Snapshot
  import opened Grid
  import opened Tiers
  import opened Dispatch

  /** Sets the plant idle if it is available at the instant and unavailable
      otherwise, then assigns 0 (which an unavailable plant ignores). */
  function ResetPlant(p: Plant, blackout: int, now: int): (q: Plant)
    ensures q.plate == p.plate
    ensures q.state == (if IsAvailable(p, blackout, now) then Idle else Unavailable)
    ensures q.state == Unavailable ==> q.assignedOutput == p.assignedOutput
    ensures WellFormed(p) ==> WellFormed(q)
  {
    var q := p.(state := if IsAvailable(p, blackout, now) then Idle else Unavailable);
    AssignPowerOutput(q, 0.0).value.plant
  }

  function ResetAll(ps: seq<Plant>, blackout: int, now: int): (rs: seq<Plant>)
    ensures |rs| == |ps|
    ensures forall i :: 0 <= i < |ps| ==> rs[i] == ResetPlant(ps[i], blackout, now)
  {
    seq(|ps|, i requires 0 <= i < |ps| => ResetPlant(ps[i], blackout, now))
  }

  /** After the reset nothing is online, so nothing is generated. */
  lemma ResetClearsGrid(ps: seq<Plant>, blackout: int, now: int)
    requires AllWellFormed(ps)
    ensures var rs := ResetAll(ps, blackout, now);
            && AllWellFormed(rs) && SameStatic(ps, rs)
            && (forall i :: 0 <= i < |rs| ==> rs[i].state != Online)
            && TotalOutput(rs) == 0.0
  {
    NothingOnlineNoOutput(ResetAll(ps, blackout, now));
  }

  /** The dispatch order of the renewable tier. */
  function RenewableOrder(ps: seq<Plant>): (r: seq<nat>)
    ensures InRange(ps, r)
  {
    Sort(ps, StabilityDescending, Select(ps, InTier(RenewableTier)))
  }

  /** The online renewables, least stable first. */
  function CurtailOrder(ps: seq<Plant>): (r: seq<nat>)
    ensures InRange(ps, r)
  {
    Sort(ps, StabilityAscending, Select(ps, OnlineIn(RenewableTier)))
  }

  /** The roster and unmet demand after each stage of the minute. */
  datatype Stages = Stages(
    reset: seq<Plant>,
    renewables: Allocation,
    nuclear: Allocation,
    thermal: Allocation,
    curtailed: Allocation,
    toppedUp: Allocation)

  function RunMinute(ps: seq<Plant>, demand: real, blackout: int, now: int): (s: Stages)
    ensures |s.toppedUp.plants| == |ps|
  {
    var r0 := ResetAll(ps, blackout, now);
    var nuclear := Select(r0, InTier(NuclearTier));
    var a1 := Allocate(r0, RenewableOrder(r0), demand);
    var a2 := Allocate(a1.plants, nuclear, a1.remaining);
    var a3 := Allocate(a2.plants, Select(r0, InTier(ThermalTier)), a2.remaining);
    var a4 := Curtail(a3.plants, CurtailOrder(a3.plants), a3.remaining);
    var a5 := Allocate(a4.plants, nuclear, a4.remaining);
    Stages(r0, a1, a2, a3, a4, a5)
  }

  /** The record of a minute: its instant, the forecast demand and what the
      final roster measures. */
  function MinuteRecord(ps: seq<Plant>, now: int, demand: real): MinuteData
  {
    MinuteData(now, demand, Stability(ps), TotalOutput(ps), ByType(ps))
  }

  // ------------------------------------------------------------ theorems

  /** Plants outside the given tiers are as the reset left them. */
  predicate AgreesOutside(r0: seq<Plant>, ps: seq<Plant>, done: set<Tier>)
    requires |r0| == |ps|
  {
    forall j :: 0 <= j < |ps| && TierOf(r0[j].plate.family) !in done ==> ps[j] == r0[j]
  }

  /** The renewable pass of a freshly reset roster: it keeps every plant well
      formed and its nameplate, generates exactly the demand it consumes and
      touches no plant outside the renewable tier. */
  lemma RenewablePass(r0: seq<Plant>, demand: real)
    requires AllWellFormed(r0) && DistinctIds(r0) && demand >= 0.0
    requires forall j :: 0 <= j < |r0| ==> r0[j].state != Online
    ensures var r := Allocate(r0, RenewableOrder(r0), demand);
            && AllWellFormed(r.plants) && SameStatic(r0, r.plants)
            && 0.0 <= r.remaining <= demand
            && TotalOutput(r.plants) + r.remaining == TotalOutput(r0) + demand
            && AgreesOutside(r0, r.plants, {RenewableTier})
  {
    var o := RenewableOrder(r0);
    SortedSelectFacts(r0, StabilityDescending, InTier(RenewableTier));
    AllocateConservesDemand(r0, o, demand);
    AllocateKeepsInvariants(r0, o, demand);
    AllocateFrame(r0, o, demand);
  }

  /** A pass over one tier, in roster order, after the passes over the tiers
      in done and before the others: the same facts, and the plants of the
      tiers still to come stay as the reset left them. */
  lemma TierPass(r0: seq<Plant>, before: seq<Plant>, done: set<Tier>, t: Tier, remaining: real)
    requires SameStatic(r0, before) && AllWellFormed(before) && remaining >= 0.0
    requires forall j :: 0 <= j < |r0| ==> r0[j].state != Online
    requires t !in done && AgreesOutside(r0, before, done)
    ensures var r := Allocate(before, Select(r0, InTier(t)), remaining);
            && AllWellFormed(r.plants) && SameStatic(r0, r.plants)
            && 0.0 <= r.remaining <= remaining
            && TotalOutput(r.plants) + r.remaining == TotalOutput(before) + remaining
            && AgreesOutside(r0, r.plants, done + {t})
  {
    var o := Select(r0, InTier(t));
    SelectFacts(r0, InTier(t));
    AllocateConservesDemand(before, o, remaining);
    AllocateKeepsInvariants(before, o, remaining);
    AllocateFrame(before, o, remaining);
  }

  /** The first pass over the three tiers of a reset roster. */
  lemma FirstPassFromReset(r0: seq<Plant>, demand: real)
    requires AllWellFormed(r0) && DistinctIds(r0) && demand >= 0.0
    requires forall j :: 0 <= j < |r0| ==> r0[j].state != Online
    requires TotalOutput(r0) == 0.0
    ensures var a1 := Allocate(r0, RenewableOrder(r0), demand);
            var a2 := Allocate(a1.plants, Select(r0, InTier(NuclearTier)), a1.remaining);
            var a3 := Allocate(a2.plants, Select(r0, InTier(ThermalTier)), a2.remaining);
            && 0.0 <= a3.remaining <= a2.remaining <= a1.remaining <= demand
            && TotalOutput(a3.plants) + a3.remaining == demand
            && AllWellFormed(a3.plants)
            && SameStatic(r0, a3.plants)
  {
    RenewablePass(r0, demand);
    var a1 := Allocate(r0, RenewableOrder(r0), demand);
    TierPass(r0, a1.plants, {RenewableTier}, NuclearTier, a1.remaining);
    var a2 := Allocate(a1.plants, Select(r0, InTier(NuclearTier)), a1.remaining);
    TierPass(r0, a2.plants, {RenewableTier, NuclearTier}, ThermalTier, a2.remaining);
  }

  /** The first pass over the three tiers (renewables, nuclear, thermal)
      keeps every plant well formed, changes no nameplate, never overshoots:
      what it generates plus what it leaves unmet is exactly the demand. */
  lemma FirstPassConservesDemand(ps: seq<Plant>, demand: real, blackout: int, now: int)
    requires AllWellFormed(ps) && DistinctIds(ps) && demand >= 0.0
    ensures var s := RunMinute(ps, demand, blackout, now);
            && 0.0 <= s.thermal.remaining <= s.nuclear.remaining <= s.renewables.remaining <= demand
            && TotalOutput(s.thermal.plants) + s.thermal.remaining == demand
            && AllWellFormed(s.thermal.plants)
            && SameStatic(ps, s.thermal.plants)
  {
    var r0 := ResetAll(ps, blackout, now);
    ResetClearsGrid(ps, blackout, now);
    SameStaticKeepsDistinct(ps, r0);
    FirstPassFromReset(r0, demand);
  }

  // ------------------------------------------------------------ greed

  /** If the renewable pass leaves demand unmet, every available renewable
      runs at its maximum output. */
  lemma RenewablePassSaturates(r0: seq<Plant>, demand: real)
    requires AllWellFormed(r0) && DistinctIds(r0) && demand >= 0.0
    requires forall j :: 0 <= j < |r0| ==> r0[j].state != Online
    ensures var r := Allocate(r0, RenewableOrder(r0), demand);
            r.remaining > 0.0 ==>
              forall j :: 0 <= j < |r0| && TierOf(r0[j].plate.family) == RenewableTier ==>
                Saturated(r.plants[j])
  {
    var o := RenewableOrder(r0);
    SortedSelectFacts(r0, StabilityDescending, InTier(RenewableTier));
    AllocateSaturates(r0, o, demand);
  }

  /** If a pass over one tier leaves demand unmet, every available plant of
      the tier runs at its maximum output; plants of other tiers are left as
      they were. */
  lemma TierPassSaturates(r0: seq<Plant>, before: seq<Plant>, done: set<Tier>, t: Tier, remaining: real)
    requires SameStatic(r0, before) && AllWellFormed(before) && remaining >= 0.0
    requires forall j :: 0 <= j < |r0| ==> r0[j].state != Online
    requires t !in done && AgreesOutside(r0, before, done)
    ensures var r := Allocate(before, Select(r0, InTier(t)), remaining);
            && (r.remaining > 0.0 ==>
                  forall j :: 0 <= j < |r0| && TierOf(r0[j].plate.family) == t ==> Saturated(r.plants[j]))
            && forall j :: 0 <= j < |r0| && TierOf(r0[j].plate.family) != t ==> r.plants[j] == before[j]
  {
    var o := Select(r0, InTier(t));
    SelectFacts(r0, InTier(t));
    AllocateSaturates(before, o, remaining);
    AllocateFrame(before, o, remaining);
  }

  /** A pass over one tier leaves the plants of the other tiers as they were,
      and never raises the unmet demand. */
  lemma TierPassFrame(r0: seq<Plant>, before: seq<Plant>, t: Tier, remaining: real)
    requires |r0| == |before|
    ensures var r := Allocate(before, Select(r0, InTier(t)), remaining);
            && (forall j :: 0 <= j < |r0| && TierOf(r0[j].plate.family) != t ==> r.plants[j] == before[j])
            && (AllWellFormed(before) && remaining >= 0.0 ==> 0.0 <= r.remaining <= remaining)
  {
    SelectFacts(r0, InTier(t));
    AllocateFrame(before, Select(r0, InTier(t)), remaining);
    if AllWellFormed(before) {
      AllocateKeepsInvariants(before, Select(r0, InTier(t)), remaining);
    }
  }

  lemma RenewablesSaturatedAfterFirstPass(r0: seq<Plant>, demand: real)
    requires AllWellFormed(r0) && DistinctIds(r0) && demand >= 0.0
    requires forall j :: 0 <= j < |r0| ==> r0[j].state != Online
    requires TotalOutput(r0) == 0.0
    ensures var a1 := Allocate(r0, RenewableOrder(r0), demand);
            var a2 := Allocate(a1.plants, Select(r0, InTier(NuclearTier)), a1.remaining);
            var a3 := Allocate(a2.plants, Select(r0, InTier(ThermalTier)), a2.remaining);
            a3.remaining > 0.0 ==>
              forall j :: 0 <= j < |r0| && TierOf(r0[j].plate.family) == RenewableTier ==>
                Saturated(a3.plants[j])
  {
    var a1 := Allocate(r0, RenewableOrder(r0), demand);
    var a2 := Allocate(a1.plants, Select(r0, InTier(NuclearTier)), a1.remaining);
    var a3 := Allocate(a2.plants, Select(r0, InTier(ThermalTier)), a2.remaining);
    FirstPassFromReset(r0, demand);
    RenewablePassSaturates(r0, demand);
    TierPassFrame(r0, a1.plants, NuclearTier, a1.remaining);
    TierPassFrame(r0, a2.plants, ThermalTier, a2.remaining);
    if a3.remaining > 0.0 {
      assert a1.remaining > 0.0;
      forall j | 0 <= j < |r0| && TierOf(r0[j].plate.family) == RenewableTier
        ensures Saturated(a3.plants[j])
      {
        assert a3.plants[j] == a2.plants[j] == a1.plants[j];
      }
    }
  }

  lemma NuclearSaturatedAfterFirstPass(r0: seq<Plant>, demand: real)
    requires AllWellFormed(r0) && DistinctIds(r0) && demand >= 0.0
    requires forall j :: 0 <= j < |r0| ==> r0[j].state != Online
    requires TotalOutput(r0) == 0.0
    ensures var a1 := Allocate(r0, RenewableOrder(r0), demand);
            var a2 := Allocate(a1.plants, Select(r0, InTier(NuclearTier)), a1.remaining);
            var a3 := Allocate(a2.plants, Select(r0, InTier(ThermalTier)), a2.remaining);
            a3.remaining > 0.0 ==>
              forall j :: 0 <= j < |r0| && TierOf(r0[j].plate.family) == NuclearTier ==>
                Saturated(a3.plants[j])
  {
    RenewablePass(r0, demand);
    var a1 := Allocate(r0, RenewableOrder(r0), demand);
    TierPass(r0, a1.plants, {RenewableTier}, NuclearTier, a1.remaining);
    TierPassSaturates(r0, a1.plants, {RenewableTier}, NuclearTier, a1.remaining);
    var a2 := Allocate(a1.plants, Select(r0, InTier(NuclearTier)), a1.remaining);
    TierPassFrame(r0, a2.plants, ThermalTier, a2.remaining);
  }

  lemma ThermalSaturatedAfterFirstPass(r0: seq<Plant>, demand: real)
    requires AllWellFormed(r0) && DistinctIds(r0) && demand >= 0.0
    requires forall j :: 0 <= j < |r0| ==> r0[j].state != Online
    requires TotalOutput(r0) == 0.0
    ensures var a1 := Allocate(r0, RenewableOrder(r0), demand);
            var a2 := Allocate(a1.plants, Select(r0, InTier(NuclearTier)), a1.remaining);
            var a3 := Allocate(a2.plants, Select(r0, InTier(ThermalTier)), a2.remaining);
            a3.remaining > 0.0 ==>
              forall j :: 0 <= j < |r0| && TierOf(r0[j].plate.family) == ThermalTier ==>
                Saturated(a3.plants[j])
  {
    RenewablePass(r0, demand);
    var a1 := Allocate(r0, RenewableOrder(r0), demand);
    TierPass(r0, a1.plants, {RenewableTier}, NuclearTier, a1.remaining);
    var a2 := Allocate(a1.plants, Select(r0, InTier(NuclearTier)), a1.remaining);
    TierPassSaturates(r0, a2.plants, {RenewableTier, NuclearTier}, ThermalTier, a2.remaining);
  }

  /** The first pass of a reset roster is greedy: if it leaves demand unmet,
      every available plant, of every tier, runs at its maximum output. */
  lemma FirstPassSaturatesFromReset(r0: seq<Plant>, demand: real)
    requires AllWellFormed(r0) && DistinctIds(r0) && demand >= 0.0
    requires forall j :: 0 <= j < |r0| ==> r0[j].state != Online
    requires TotalOutput(r0) == 0.0
    ensures var a1 := Allocate(r0, RenewableOrder(r0), demand);
            var a2 := Allocate(a1.plants, Select(r0, InTier(NuclearTier)), a1.remaining);
            var a3 := Allocate(a2.plants, Select(r0, InTier(ThermalTier)), a2.remaining);
            a3.remaining > 0.0 ==> forall j :: 0 <= j < |r0| ==> Saturated(a3.plants[j])
  {
    RenewablesSaturatedAfterFirstPass(r0, demand);
    NuclearSaturatedAfterFirstPass(r0, demand);
    ThermalSaturatedAfterFirstPass(r0, demand);
    var a1 := Allocate(r0, RenewableOrder(r0), demand);
    var a2 := Allocate(a1.plants, Select(r0, InTier(NuclearTier)), a1.remaining);
    var a3 := Allocate(a2.plants, Select(r0, InTier(ThermalTier)), a2.remaining);
    if a3.remaining > 0.0 {
      forall j | 0 <= j < |r0| ensures Saturated(a3.plants[j]) {
        match TierOf(r0[j].plate.family)
        case RenewableTier =>
        case NuclearTier =>
        case ThermalTier =>
      }
    }
  }

  /** Greed of the first pass, stated on the minute: if renewables, nuclear
      and thermal plants together leave demand unmet, each available plant
      runs at its maximum output. */
  lemma FirstPassIsGreedy(ps: seq<Plant>, demand: real, blackout: int, now: int)
    requires AllWellFormed(ps) && DistinctIds(ps) && demand >= 0.0
    ensures var s := RunMinute(ps, demand, blackout, now);
            s.thermal.remaining > 0.0 ==> forall j :: 0 <= j < |ps| ==> Saturated(s.thermal.plants[j])
  {
    var r0 := ResetAll(ps, blackout, now);
    ResetClearsGrid(ps, blackout, now);
    SameStaticKeepsDistinct(ps, r0);
    FirstPassSaturatesFromReset(r0, demand);
  }

  // ------------------------------------------------------------ curtailment

  /** Curtailing the online renewables of a roster keeps every plant well
      formed and its nameplate, returns each disconnected output to the unmet
      demand, and changes only renewables that were online, which end idle. */
  lemma CurtailStageFacts(ps: seq<Plant>, remaining: real)
    requires AllWellFormed(ps) && DistinctIds(ps)
    ensures var c := Curtail(ps, CurtailOrder(ps), remaining);
            && AllWellFormed(c.plants) && SameStatic(ps, c.plants)
            && c.remaining >= remaining
            && c.remaining + TotalOutput(c.plants) == remaining + TotalOutput(ps)
            && forall j :: 0 <= j < |ps| && c.plants[j] != ps[j] ==>
                 IsRenewable(ps[j]) && ps[j].state == Online && c.plants[j].state == Idle
  {
    var o := CurtailOrder(ps);
    SortedSelectFacts(ps, StabilityAscending, OnlineIn(RenewableTier));
    CurtailKeepsWellFormed(ps, o, remaining);
    CurtailConserves(ps, o, remaining);
    CurtailFrame(ps, o, remaining);
  }

  /** Curtailment ends with the grid stable enough, or with no renewable
      online. */
  lemma CurtailStageOutcome(ps: seq<Plant>, remaining: real)
    requires DistinctIds(ps)
    ensures var c := Curtail(ps, CurtailOrder(ps), remaining);
            || Stability(c.plants) >= MinimumStability
            || forall j :: 0 <= j < |ps| && IsRenewable(ps[j]) ==> c.plants[j].state != Online
  {
    var o := CurtailOrder(ps);
    SortedSelectFacts(ps, StabilityAscending, OnlineIn(RenewableTier));
    CurtailOutcome(ps, o, remaining);
    CurtailFrame(ps, o, remaining);
    var c := Curtail(ps, o, remaining);
    if Stability(c.plants) < MinimumStability {
      forall j | 0 <= j < |ps| && IsRenewable(ps[j]) ensures c.plants[j].state != Online {
        if j !in o {
          assert ps[j].state != Online;
        }
      }
    }
  }

  /** After the curtailment stage the grid is stable enough or no renewable
      is online. */
  lemma CurtailmentRestoresStability(ps: seq<Plant>, demand: real, blackout: int, now: int)
    requires AllWellFormed(ps) && DistinctIds(ps) && demand >= 0.0
    ensures var c := RunMinute(ps, demand, blackout, now).curtailed;
            || Stability(c.plants) >= MinimumStability
            || forall j :: 0 <= j < |ps| && IsRenewable(ps[j]) ==> c.plants[j].state != Online
  {
    var s := RunMinute(ps, demand, blackout, now);
    FirstPassConservesDemand(ps, demand, blackout, now);
    SameStaticKeepsDistinct(ps, s.thermal.plants);
    CurtailStageOutcome(s.thermal.plants, s.thermal.remaining);
  }

  /** Through the curtailment stage generation plus unmet demand is still the
      demand, and the stage changed only renewables that the first pass had
      brought online, setting them idle. */
  lemma CurtailmentConservesDemand(ps: seq<Plant>, demand: real, blackout: int, now: int)
    requires AllWellFormed(ps) && DistinctIds(ps) && demand >= 0.0
    ensures var s := RunMinute(ps, demand, blackout, now);
            var c := s.curtailed;
            && c.remaining + TotalOutput(c.plants) == demand
            && 0.0 <= s.thermal.remaining <= c.remaining
            && AllWellFormed(c.plants) && SameStatic(ps, c.plants)
            && forall j :: 0 <= j < |ps| && c.plants[j] != s.thermal.plants[j] ==>
                 IsRenewable(ps[j]) && s.thermal.plants[j].state == Online && c.plants[j].state == Idle
  {
    var s := RunMinute(ps, demand, blackout, now);
    FirstPassConservesDemand(ps, demand, blackout, now);
    SameStaticKeepsDistinct(ps, s.thermal.plants);
    CurtailStageFacts(s.thermal.plants, s.thermal.remaining);
  }

  /** A plant online after the first pass was found available by the reset,
      so the curtailment candidates are among the plants the reset set idle. */
  lemma OnlineAfterFirstPassWasIdle(r0: seq<Plant>, demand: real, j: nat)
    requires j < |r0| && forall i :: 0 <= i < |r0| ==> r0[i].state != Online
    ensures var a1 := Allocate(r0, RenewableOrder(r0), demand);
            var a2 := Allocate(a1.plants, Select(r0, InTier(NuclearTier)), a1.remaining);
            var a3 := Allocate(a2.plants, Select(r0, InTier(ThermalTier)), a2.remaining);
            a3.plants[j].state == Online ==> r0[j].state == Idle
  {
    if r0[j].state == Unavailable {
      var a1 := Allocate(r0, RenewableOrder(r0), demand);
      AllocateSkipsUnavailable(r0, RenewableOrder(r0), demand, j);
      var a2 := Allocate(a1.plants, Select(r0, InTier(NuclearTier)), a1.remaining);
      AllocateSkipsUnavailable(a1.plants, Select(r0, InTier(NuclearTier)), a1.remaining, j);
      AllocateSkipsUnavailable(a2.plants, Select(r0, InTier(ThermalTier)), a2.remaining, j);
    }
  }

  /** No plant is online after the reset. This is one part of ResetClearsGrid,
      kept apart because it holds for any roster: CurtailCandidatesWereIdle
      has no well-formedness to pass on to ResetClearsGrid. */
  lemma ResetLeavesNothingOnline(ps: seq<Plant>, blackout: int, now: int)
    ensures var r0 := ResetAll(ps, blackout, now);
            forall i :: 0 <= i < |r0| ==> r0[i].state != Online
  {
  }

  /** Every plant online after the first pass over a roster with nothing
      online was idle before it. */
  lemma FirstPassOnlineWereIdle(r0: seq<Plant>, demand: real)
    requires forall i :: 0 <= i < |r0| ==> r0[i].state != Online
    ensures var a1 := Allocate(r0, RenewableOrder(r0), demand);
            var a2 := Allocate(a1.plants, Select(r0, InTier(NuclearTier)), a1.remaining);
            var a3 := Allocate(a2.plants, Select(r0, InTier(ThermalTier)), a2.remaining);
            forall j :: 0 <= j < |r0| && a3.plants[j].state == Online ==> r0[j].state == Idle
  {
    forall j | 0 <= j < |r0| {
      OnlineAfterFirstPassWasIdle(r0, demand, j);
    }
  }

  /** The curtailment candidates (renewables online after the first pass)
      are exactly the renewables that are online and were set idle by the
      reset: filtering through the idle plants first selects the same ones. */
  lemma CurtailCandidatesWereIdle(ps: seq<Plant>, demand: real, blackout: int, now: int)
    ensures var s := RunMinute(ps, demand, blackout, now);
            forall j :: 0 <= j < |ps| && s.thermal.plants[j].state == Online ==> s.reset[j].state == Idle
  {
    var r0 := ResetAll(ps, blackout, now);
    ResetLeavesNothingOnline(ps, blackout, now);
    FirstPassOnlineWereIdle(r0, demand);
  }

  /** Between two online renewables of equal stability, curtailment
      reaches the one with the lower id first. */
  lemma CurtailTieGoesToLowerId(ps: seq<Plant>, a: nat, b: nat)
    requires DistinctIds(ps) && a < |ps| && b < |ps|
    requires Meets(ps[a], OnlineIn(RenewableTier)) && Meets(ps[b], OnlineIn(RenewableTier))
    requires ps[a].plate.stability == ps[b].plate.stability && ps[a].plate.id < ps[b].plate.id
    ensures exists i, j :: 0 <= i < j < |CurtailOrder(ps)| && CurtailOrder(ps)[i] == a && CurtailOrder(ps)[j] == b
  {
    var o := CurtailOrder(ps);
    SortedSelectFacts(ps, StabilityAscending, OnlineIn(RenewableTier));
    assert a in o && b in o;
    var i :| 0 <= i < |o| && o[i] == a;
    var j :| 0 <= j < |o| && o[j] == b;
  }

  // ------------------------------------------------------------ top-up

  /** The nuclear top-up keeps every plant well formed and its nameplate,
      never raises the unmet demand, touches only nuclear plants, and changes
      nothing when the demand is already met. */
  lemma TopUpStage(ps: seq<Plant>, r0: seq<Plant>, c: Allocation)
    requires SameStatic(ps, r0) && SameStatic(ps, c.plants)
    requires AllWellFormed(c.plants) && c.remaining >= 0.0
    ensures var f := Allocate(c.plants, Select(r0, InTier(NuclearTier)), c.remaining);
            && AllWellFormed(f.plants) && SameStatic(ps, f.plants)
            && 0.0 <= f.remaining <= c.remaining
            && (forall j :: 0 <= j < |ps| && TierOf(ps[j].plate.family) != NuclearTier ==>
                  f.plants[j] == c.plants[j])
            && (c.remaining == 0.0 ==> f == c)
            && TotalOutput(f.plants) + f.remaining <= TotalOutput(c.plants) + c.remaining
  {
    var o := Select(r0, InTier(NuclearTier));
    SelectFacts(r0, InTier(NuclearTier));
    AllocateKeepsInvariants(c.plants, o, c.remaining);
    AllocateFrame(c.plants, o, c.remaining);
    AllocateNeverOvershoots(c.plants, o, c.remaining);
  }

  /** The minute as a whole: the final roster keeps every plant well formed
      and its nameplate, only nuclear plants change in the top-up, the unmet
      demand stays within [0, demand], and a minute whose demand was met
      before the top-up ends as the curtailment left it. */
  lemma TopUpOnlyTouchesNuclear(ps: seq<Plant>, demand: real, blackout: int, now: int)
    requires AllWellFormed(ps) && DistinctIds(ps) && demand >= 0.0
    ensures var s := RunMinute(ps, demand, blackout, now);
            && AllWellFormed(s.toppedUp.plants) && SameStatic(ps, s.toppedUp.plants)
            && 0.0 <= s.toppedUp.remaining <= s.curtailed.remaining <= demand
            && (forall j :: 0 <= j < |ps| && TierOf(ps[j].plate.family) != NuclearTier ==>
                  s.toppedUp.plants[j] == s.curtailed.plants[j])
            && (s.curtailed.remaining == 0.0 ==> s.toppedUp == s.curtailed)
  {
    var s := RunMinute(ps, demand, blackout, now);
    CurtailmentConservesDemand(ps, demand, blackout, now);
    ResetClearsGrid(ps, blackout, now);
    StabilityInUnitInterval(s.curtailed.plants);
    TopUpStage(ps, s.reset, s.curtailed);
  }

  /** The minute never generates more than its demand: generation and
      unmet demand after the top-up together stay within the demand. */
  lemma GenerationWithinDemand(ps: seq<Plant>, demand: real, blackout: int, now: int)
    requires AllWellFormed(ps) && DistinctIds(ps) && demand >= 0.0
    ensures var f := RunMinute(ps, demand, blackout, now).toppedUp;
            && TotalOutput(f.plants) + f.remaining <= demand
            && 0.0 <= TotalOutput(f.plants) <= demand
  {
    var s := RunMinute(ps, demand, blackout, now);
    CurtailmentConservesDemand(ps, demand, blackout, now);
    ResetClearsGrid(ps, blackout, now);
    TopUpStage(ps, s.reset, s.curtailed);
    StabilityInUnitInterval(s.toppedUp.plants);
  }

  /** The record of the final roster passes the snapshot's validation, so
      recording a minute never fails. */
  lemma MinuteRecordIsValid(ps: seq<Plant>, demand: real, blackout: int, now: int)
    requires AllWellFormed(ps) && DistinctIds(ps) && demand >= 0.0
    ensures var f := RunMinute(ps, demand, blackout, now).toppedUp.plants;
            NewMinuteData(Some(now), demand, Stability(f), TotalOutput(f), ByType(f))
            == Ok(MinuteRecord(f, now, demand))
  {
    TopUpOnlyTouchesNuclear(ps, demand, blackout, now);
    StabilityInUnitInterval(RunMinute(ps, demand, blackout, now).toppedUp.plants);
  }

  /** What the engine needs of one minute: the final roster keeps every
      plant well formed and its nameplate, and its record has a stability in
      [0, 1] and a generation between 0 and the demand. */
  lemma MinuteKeepsInvariants(ps: seq<Plant>, demand: real, blackout: int, now: int)
    requires AllWellFormed(ps) && DistinctIds(ps) && demand >= 0.0
    ensures var f := RunMinute(ps, demand, blackout, now).toppedUp.plants;
            var d := MinuteRecord(f, now, demand);
            && AllWellFormed(f) && SameStatic(ps, f)
            && d.time == now && d.powerDemand == demand
            && 0.0 <= d.stability <= 1.0 && 0.0 <= d.generatedPower <= demand
  {
    TopUpOnlyTouchesNuclear(ps, demand, blackout, now);
    GenerationWithinDemand(ps, demand, blackout, now);
    StabilityInUnitInterval(RunMinute(ps, demand, blackout, now).toppedUp.plants);
  }

  /** The top-up requests the remaining demand from nuclear plants that are
      already online, and a request below the current assignment replaces it:
      an online plant asked for less than it runs at drops to the request,
      while the unmet demand does not change. */
  lemma TopUpCanLowerOutput(ps: seq<Plant>, i: nat, request: real)
    requires i < |ps| && ps[i].state == Online
    requires 0.0 < request < ps[i].assignedOutput <= MaxPowerOutput(ps[i])
    ensures var r := Allocate(ps, [i], request);
            && r == Allocation(ps[i := ps[i].(assignedOutput := request)], request)
            && SimulatedOutput(r.plants[i]) == request < SimulatedOutput(ps[i])
            && TotalOutput(r.plants) == TotalOutput(ps) - (ps[i].assignedOutput - request)
  {
    AllocateStep(ps, [i], request);
    assert [i][1..] == [];
    var q := ps[i].(assignedOutput := request);
    SumsAfterUpdate(ps, i, q);
  }
}
