/** The recovery engine: the demand forecast, the roster of plants, the id
    counter, and the run of 2160 simulated minutes after a blackout. The
    roster is a sequence of plant records that the engine's methods update in
    place; each operation is proved to agree with the functions of the Minute,
    Dispatch and Grid modules. */
module Engine {
  import opened Types
  import opened Plants
  import opened Families
  import opened Snapshot
  import opened Grid
  import opened Tiers
  import opened Dispatch
  import opened Minute

  /** Length of a run, in minutes (36 hours). */
  const SimulationDurationMinutes: nat := 2160

  // ------------------------------------------------------------ forecast

  /** The forecast maps minutes of the day, 0 for 00:00, to a demand in MW. */
  type Forecast = map<int, real>

  /** Every minute below m has an entry, and no entry below m is negative. */
  predicate GoodBelow(f: Forecast, m: int)
  {
    forall k :: 0 <= k < m ==> k in f && f[k] >= 0.0
  }

  /** A demand for each of the 1440 minutes of the day, none negative. */
  predicate Complete(f: Forecast)
  {
    GoodBelow(f, MinutesPerDay)
  }

  /** The scan of the minutes, from 00:00, stops at minute m with error e:
      every earlier minute was fine, and m has no entry (checked first) or a
      negative one. */
  predicate FailsAt(f: Forecast, m: int, e: Error)
  {
    && 0 <= m < MinutesPerDay && GoodBelow(f, m)
    && (|| (e == DemandForecastMissingEntry && m !in f)
        || (e == NegativePowerDemandValue && m in f && f[m] < 0.0))
  }

  /** What validating a forecast must answer: a missing or empty map is
      reported as such; otherwise the forecast passes when it is complete,
      and fails with the error of the first bad minute when it is not. */
  predicate ForecastVerdict(f: Option<Forecast>, r: Outcome)
  {
    if f.None? || f.value == map[] then r == Fail(DemandForecastNull)
    else if r == Pass then Complete(f.value)
    else r.Fail? && exists m :: 0 <= m < MinutesPerDay && FailsAt(f.value, m, r.error)
  }

  /** The scan stops at one minute only, with one error. */
  lemma FirstBadIsUnique(f: Forecast, m1: int, e1: Error, m2: int, e2: Error)
    requires FailsAt(f, m1, e1) && FailsAt(f, m2, e2)
    ensures m1 == m2 && e1 == e2
  {
  }

  /** A forecast has one verdict. */
  lemma VerdictIsUnique(f: Option<Forecast>, r1: Outcome, r2: Outcome)
    requires ForecastVerdict(f, r1) && ForecastVerdict(f, r2)
    ensures r1 == r2
  {
    if f.Some? && f.value != map[] && r1 != r2 {
      var g := f.value;
      if r1 != Pass && r2 != Pass {
        var m1 :| 0 <= m1 < MinutesPerDay && FailsAt(g, m1, r1.error);
        var m2 :| 0 <= m2 < MinutesPerDay && FailsAt(g, m2, r2.error);
        FirstBadIsUnique(g, m1, r1.error, m2, r2.error);
      }
    }
  }

  /** Validates a forecast the way the engine does before storing it: the
      null-or-empty test, then one scan over the minutes of the day. */
  method CheckForecast(f: Option<Forecast>) returns (r: Outcome)
    ensures ForecastVerdict(f, r)
  {
    if f.None? || f.value == map[] {
      return Fail(DemandForecastNull);
    }
    var g := f.value;
    var m := 0;
    while m < MinutesPerDay
      invariant 0 <= m <= MinutesPerDay && GoodBelow(g, m)
    {
      if m !in g {
        assert FailsAt(g, m, DemandForecastMissingEntry);
        return Fail(DemandForecastMissingEntry);
      }
      if g[m] < 0.0 {
        assert FailsAt(g, m, NegativePowerDemandValue);
        return Fail(NegativePowerDemandValue);
      }
      m := m + 1;
    }
    return Pass;
  }

  // ------------------------------------------------------------ the run

  /** The roster and the records after some minutes of a run. */
  datatype Run = Run(plants: seq<Plant>, records: seq<MinuteData>)

  /** One minute of a run at the instant now: its demand is looked up by
      minute of the day, the per-minute algorithm runs on the roster the
      previous minute left, and the minute is recorded. */
  function Step(prev: Run, f: Forecast, blackout: int, now: int): (r: Run)
    requires Complete(f)
    ensures |r.plants| == |prev.plants| && |r.records| == |prev.records| + 1
  {
    var demand := f[MinuteOfDay(now)];
    var fin := RunMinute(prev.plants, demand, blackout, now).toppedUp.plants;
    Run(fin, prev.records + [MinuteRecord(fin, now, demand)])
  }

  /** The instant i minutes after start. */
  function Instant(start: int, i: int): int
  {
    start + i * SecondsPerMinute
  }

  /** The first n minutes of a run that starts at the instant start: one
      more step at the instant of each further minute. */
  function Simulate(ps: seq<Plant>, f: Forecast, blackout: int, start: int, n: nat): (r: Run)
    requires Complete(f)
    ensures |r.records| == n && |r.plants| == |ps|
  {
    if n == 0 then Run(ps, [])
    else Step(Simulate(ps, f, blackout, start, n - 1), f, blackout, Instant(start, n - 1))
  }

  /** A step at the instant of minute i extends a run of i minutes to one
      of i + 1 minutes. */
  lemma NextMinute(ps: seq<Plant>, f: Forecast, blackout: int, start: int, i: nat, before: Run, after: Run)
    requires Complete(f) && before == Simulate(ps, f, blackout, start, i)
    requires after == Step(before, f, blackout, Instant(start, i))
    ensures after == Simulate(ps, f, blackout, start, i + 1)
  {
  }

  /** What a validated record looks like: a demand from the forecast, a
      stability in [0, 1], a generation between 0 and the demand. */
  predicate RecordAt(d: MinuteData, f: Forecast, t: int)
    requires Complete(f)
  {
    && d.time == t && d.powerDemand == f[MinuteOfDay(t)]
    && 0.0 <= d.stability <= 1.0 && 0.0 <= d.generatedPower <= d.powerDemand
  }

  /** One step keeps the roster's nameplates and well-formedness, and
      appends one valid record stamped with its instant to records that are
      valid and stamped one minute apart from start. */
  lemma StepFacts(ps: seq<Plant>, prev: Run, f: Forecast, blackout: int, start: int, now: int)
    requires Complete(f) && AllWellFormed(prev.plants) && SameStatic(ps, prev.plants) && DistinctIds(ps)
    requires forall i :: 0 <= i < |prev.records| ==> RecordAt(prev.records[i], f, Instant(start, i))
    requires now == Instant(start, |prev.records|)
    ensures var r := Step(prev, f, blackout, now);
            && AllWellFormed(r.plants) && SameStatic(ps, r.plants)
            && forall i :: 0 <= i < |r.records| ==> RecordAt(r.records[i], f, Instant(start, i))
  {
    var demand := f[MinuteOfDay(now)];
    assert demand >= 0.0;
    SameStaticKeepsDistinct(ps, prev.plants);
    MinuteKeepsInvariants(prev.plants, demand, blackout, now);
    var fin := RunMinute(prev.plants, demand, blackout, now).toppedUp.plants;
    var last := MinuteRecord(fin, now, demand);
    assert RecordAt(last, f, now);
    AppendRecord(prev.records, last, f, start);
  }

  /** Records stamped one minute apart from start stay so when one more,
      stamped with the next minute, is appended. */
  lemma AppendRecord(records: seq<MinuteData>, last: MinuteData, f: Forecast, start: int)
    requires Complete(f)
    requires forall i :: 0 <= i < |records| ==> RecordAt(records[i], f, Instant(start, i))
    requires RecordAt(last, f, Instant(start, |records|))
    ensures var rs := records + [last];
            forall i :: 0 <= i < |rs| ==> RecordAt(rs[i], f, Instant(start, i))
  {
    var rs := records + [last];
    forall i | 0 <= i < |rs| ensures RecordAt(rs[i], f, Instant(start, i)) {
      if i < |records| {
        assert rs[i] == records[i];
      }
    }
  }

  /** Over a run the records are one per minute, stamped start, start + 1
      minute, ..., each valid and within its demand, and the roster keeps its
      nameplates and well-formedness. */
  lemma {:induction false} SimulateFacts(ps: seq<Plant>, f: Forecast, blackout: int, start: int, n: nat)
    requires Complete(f) && AllWellFormed(ps) && DistinctIds(ps)
    ensures var r := Simulate(ps, f, blackout, start, n);
            && AllWellFormed(r.plants) && SameStatic(ps, r.plants)
            && forall i :: 0 <= i < n ==> RecordAt(r.records[i], f, Instant(start, i))
  {
    if n > 0 {
      SimulateFacts(ps, f, blackout, start, n - 1);
      SimulateOneMore(ps, f, blackout, start, n - 1);
    }
  }

  /** The step from a run of n minutes to a run of n + 1 minutes keeps the
      facts above. */
  lemma SimulateOneMore(ps: seq<Plant>, f: Forecast, blackout: int, start: int, n: nat)
    requires Complete(f) && DistinctIds(ps)
    requires var r := Simulate(ps, f, blackout, start, n);
             && AllWellFormed(r.plants) && SameStatic(ps, r.plants)
             && forall i :: 0 <= i < n ==> RecordAt(r.records[i], f, Instant(start, i))
    ensures var r := Simulate(ps, f, blackout, start, n + 1);
            && AllWellFormed(r.plants) && SameStatic(ps, r.plants)
            && forall i :: 0 <= i < n + 1 ==> RecordAt(r.records[i], f, Instant(start, i))
  {
    var prev := Simulate(ps, f, blackout, start, n);
    StepFacts(ps, prev, f, blackout, start, Instant(start, n));
  }

  /** A simulated minute keeps the engine's roster invariant, and its
      record passes the snapshot's validation. */
  lemma MinuteStep(ps: seq<Plant>, demand: real, blackout: int, now: int, bound: nat)
    requires AllWellFormed(ps) && IdsIncreasing(ps) && demand >= 0.0
    requires forall i :: 0 <= i < |ps| ==> ps[i].plate.id < bound
    ensures var f := RunMinute(ps, demand, blackout, now).toppedUp.plants;
            && AllWellFormed(f) && IdsIncreasing(f)
            && (forall i :: 0 <= i < |f| ==> f[i].plate.id < bound)
            && NewMinuteData(Some(now), demand, Stability(f), TotalOutput(f), ByType(f))
               == Ok(MinuteRecord(f, now, demand))
  {
    IncreasingIdsAreDistinct(ps);
    MinuteKeepsInvariants(ps, demand, blackout, now);
    MinuteRecordIsValid(ps, demand, blackout, now);
    var f := RunMinute(ps, demand, blackout, now).toppedUp.plants;
    SameStaticKeepsIds(ps, f, bound);
  }

  /** Appending a well-formed plant that takes the next id keeps the ids
      increasing and below the advanced counter. */
  lemma AppendKeepsIds(ps: seq<Plant>, p: Plant, bound: nat)
    requires AllWellFormed(ps) && IdsIncreasing(ps) && forall i :: 0 <= i < |ps| ==> ps[i].plate.id < bound
    requires WellFormed(p) && p.plate.id == bound
    ensures var qs := ps + [p];
            && AllWellFormed(qs) && IdsIncreasing(qs)
            && forall i :: 0 <= i < |qs| ==> qs[i].plate.id < bound + 1
  {
  }

  // ------------------------------------------------------------ the engine

  /** The recovery engine. Its roster is updated in place by each simulated
      minute; nextId is the id the next constructed plant receives. The
      fuel-gas and geothermal constants are given at construction. */
  class Simulation {
    var plants: seq<Plant>
    var nextId: nat
    var forecast: Forecast
    var blackout: Option<int>
    var simulationTime: Option<int>
    var results: seq<MinuteData>
    const fuelGas: Profile
    const geothermal: Profile

    /** The forecast is complete, every plant is well formed, ids grow
        along the roster and are below the next id to hand out, and fuel-gas
        plants, being thermal, are available all day. */
    predicate Valid()
      reads this
    {
      && Complete(forecast) && AllWellFormed(plants) && IdsIncreasing(plants)
      && (forall i :: 0 <= i < |plants| ==> plants[i].plate.id < nextId)
      && fuelGas.window == DefaultWindow
    }

    /** An engine with an empty roster and no run yet, over a forecast that
        has already been validated. */
    constructor (f: Forecast, firstId: nat, fuelGas: Profile, geothermal: Profile)
      requires Complete(f) && fuelGas.window == DefaultWindow
      ensures Valid()
      ensures forecast == f && nextId == firstId && plants == [] && results == []
      ensures blackout == None && simulationTime == None
      ensures this.fuelGas == fuelGas && this.geothermal == geothermal
    {
      forecast := f;
      nextId := firstId;
      plants := [];
      results := [];
      blackout := None;
      simulationTime := None;
      this.fuelGas := fuelGas;
      this.geothermal := geothermal;
    }

    // ------------------------------------------------- measuring the grid

    /** Sum of the simulated outputs of the roster. */
    method CalculateGeneratedPower() returns (generation: real)
      ensures generation == TotalOutput(plants)
    {
      generation := 0.0;
      var k := 0;
      while k < |plants|
        invariant 0 <= k <= |plants|
        invariant generation == TotalOutput(plants[..k])
      {
        assert plants[..k + 1][..k] == plants[..k];
        generation := generation + SimulatedOutput(plants[k]);
        k := k + 1;
      }
      assert plants[..k] == plants;
    }

    /** Output-weighted average stability of the roster, 1 with no output. */
    method CalculateStability() returns (stability: real)
      ensures stability == Stability(plants)
    {
      var weighted := 0.0;
      var total := 0.0;
      var k := 0;
      while k < |plants|
        invariant 0 <= k <= |plants|
        invariant weighted == WeightedOutput(plants[..k]) && total == TotalOutput(plants[..k])
      {
        assert plants[..k + 1][..k] == plants[..k];
        var output := SimulatedOutput(plants[k]);
        weighted := weighted + output * plants[k].plate.stability;
        total := total + output;
        k := k + 1;
      }
      assert plants[..k] == plants;
      if total == 0.0 {
        return 1.0;
      }
      return weighted / total;
    }

    /** Positive outputs merged per type label. */
    method CalculateGeneratedPowerByType() returns (byType: map<string, real>)
      ensures byType == ByType(plants)
    {
      byType := map[];
      var k := 0;
      while k < |plants|
        invariant 0 <= k <= |plants|
        invariant byType == ByType(plants[..k])
      {
        assert plants[..k + 1][..k] == plants[..k];
        var tag := plants[k].plate.typeLabel;
        var output := SimulatedOutput(plants[k]);
        if output > 0.0 {
          if tag in byType {
            byType := byType[tag := byType[tag] + output];
          } else {
            byType := byType[tag := output];
          }
        }
        k := k + 1;
      }
      assert plants[..k] == plants;
    }

    // ---------------------------------------------------- the dispatch

    /** The greedy pass over the listed plants: stop once nothing remains,
        request the remaining demand, bring the plant online when the
        returned increase is positive, deduct the increase. */
    method AssignGeneration(order: seq<nat>, demand: real) returns (remaining: real)
      requires InRange(plants, order)
      modifies this
      ensures Allocation(plants, remaining) == Allocate(old(plants), order, demand)
      ensures nextId == old(nextId) && forecast == old(forecast) && blackout == old(blackout)
      ensures simulationTime == old(simulationTime) && results == old(results)
    {
      remaining := demand;
      var k := 0;
      while k < |order|
        invariant 0 <= k <= |order| && |plants| == |old(plants)|
        invariant Allocate(plants, order[k..], remaining) == Allocate(old(plants), order, demand)
        invariant nextId == old(nextId) && forecast == old(forecast) && blackout == old(blackout)
        invariant simulationTime == old(simulationTime) && results == old(results)
      {
        if remaining <= 0.0 {
          break;
        }
        var i := order[k];
        assert order[k..][1..] == order[k + 1..];
        var a := AssignPowerOutput(plants[i], remaining).value;
        var p := a.plant;
        if a.delta > 0.0 {
          p := p.(state := Online);
        }
        plants := plants[i := p];
        remaining := remaining - a.delta;
        k := k + 1;
      }
      assert order[k..] == [] || remaining <= 0.0;
    }

    /** Sets every plant idle if it is available at the current instant and
        unavailable otherwise, then assigns it 0. */
    method ResetPlants()
      requires blackout.Some? && simulationTime.Some?
      modifies this
      ensures nextId == old(nextId) && forecast == old(forecast) && blackout == old(blackout)
      ensures simulationTime == old(simulationTime) && results == old(results)
      ensures plants == ResetAll(old(plants), blackout.value, simulationTime.value)
    {
      var b := blackout.value;
      var now := simulationTime.value;
      var k := 0;
      while k < |plants|
        invariant 0 <= k <= |plants| == |old(plants)|
        invariant forall j :: 0 <= j < k ==> plants[j] == ResetPlant(old(plants)[j], b, now)
        invariant forall j :: k <= j < |plants| ==> plants[j] == old(plants)[j]
        invariant nextId == old(nextId) && forecast == old(forecast) && blackout == old(blackout)
        invariant simulationTime == old(simulationTime) && results == old(results)
      {
        var p := plants[k];
        p := p.(state := if IsAvailable(p, b, now) then Idle else Unavailable);
        p := AssignPowerOutput(p, 0.0).value.plant;
        plants := plants[k := p];
        k := k + 1;
      }
    }

    /** Disconnects the listed renewables in turn while the stability is
        below the minimum, giving each one's output back to the unmet demand
        and measuring the stability again. */
    method CurtailRenewables(order: seq<nat>, demand: real, stability: real) returns (remaining: real)
      requires InRange(plants, order) && stability == Stability(plants)
      modifies this
      ensures Allocation(plants, remaining) == Curtail(old(plants), order, demand)
      ensures nextId == old(nextId) && forecast == old(forecast) && blackout == old(blackout)
      ensures simulationTime == old(simulationTime) && results == old(results)
    {
      remaining := demand;
      var current := stability;
      var k := 0;
      while k < |order|
        invariant 0 <= k <= |order| && |plants| == |old(plants)| && current == Stability(plants)
        invariant Curtail(plants, order[k..], remaining) == Curtail(old(plants), order, demand)
        invariant nextId == old(nextId) && forecast == old(forecast) && blackout == old(blackout)
        invariant simulationTime == old(simulationTime) && results == old(results)
      {
        if current >= MinimumStability {
          break;
        }
        var i := order[k];
        assert order[k..][1..] == order[k + 1..];
        var disconnected := SimulatedOutput(plants[i]);
        var p := AssignPowerOutput(plants[i], 0.0).value.plant;
        plants := plants[i := p.(state := Idle)];
        remaining := remaining + disconnected;
        current := CalculateStability();
        k := k + 1;
      }
      assert order[k..] == [] || current >= MinimumStability;
    }

    /** One minute at the current instant: reset, the three dispatch
        passes, curtailment, the nuclear top-up, and the minute's record. */
    method CreateNewMinuteSimulation()
      requires Valid() && blackout.Some? && simulationTime.Some?
      modifies this
      ensures nextId == old(nextId) && forecast == old(forecast) && blackout == old(blackout)
      ensures simulationTime == old(simulationTime)
      ensures Valid()
      ensures Run(plants, results) == Step(Run(old(plants), old(results)), forecast, blackout.value, simulationTime.value)
    {
      var b := blackout.value;
      var now := simulationTime.value;
      var ps := plants;
      ResetPlants();
      var demand := forecast[MinuteOfDay(now)];
      var r0 := plants;
      var nuclear := Select(r0, InTier(NuclearTier));
      var remaining := AssignGeneration(RenewableOrder(r0), demand);
      remaining := AssignGeneration(nuclear, remaining);
      remaining := AssignGeneration(Select(r0, InTier(ThermalTier)), remaining);
      var stability := CalculateStability();
      remaining := CurtailRenewables(CurtailOrder(plants), remaining, stability);
      remaining := AssignGeneration(nuclear, remaining);
      assert plants == RunMinute(ps, demand, b, now).toppedUp.plants;
      MinuteStep(ps, demand, b, now, nextId);

      stability := CalculateStability();
      var generation := CalculateGeneratedPower();
      var byType := CalculateGeneratedPowerByType();
      var record := NewMinuteData(Some(now), demand, stability, generation, byType);
      results := results + [record.value];
    }

    /** A run of 2160 minutes from the blackout instant truncated to the
        minute. An empty roster is refused before the blackout is looked at;
        a refused run changes nothing. */
    method DeployNewSimulation(b: Option<int>) returns (r: Outcome)
      requires Valid()
      modifies this
      ensures Valid() && nextId == old(nextId) && forecast == old(forecast)
      ensures old(plants) == [] ==> r == Fail(PowerPlantListIsEmpty)
      ensures old(plants) != [] && b.None? ==> r == Fail(BlackoutTimeNull)
      ensures r.Fail? ==> && plants == old(plants) && results == old(results)
                          && blackout == old(blackout) && simulationTime == old(simulationTime)
      ensures old(plants) != [] && b.Some? ==>
                var start := TruncateToMinute(b.value);
                && r == Pass && blackout == b
                && simulationTime.Some? && simulationTime.value == Instant(start, SimulationDurationMinutes)
                && Run(plants, results) == Simulate(old(plants), forecast, b.value, start, SimulationDurationMinutes)
                && SameStatic(old(plants), plants)
                && forall i :: 0 <= i < SimulationDurationMinutes ==> RecordAt(results[i], forecast, Instant(start, i))
    {
      if plants == [] {
        return Fail(PowerPlantListIsEmpty);
      }
      if b.None? {
        return Fail(BlackoutTimeNull);
      }
      var ps := plants;
      blackout := b;
      var start := TruncateToMinute(b.value);
      simulationTime := Some(start);
      results := [];
      var i := 0;
      while i < SimulationDurationMinutes
        invariant 0 <= i <= SimulationDurationMinutes
        invariant Valid() && blackout == b && nextId == old(nextId) && forecast == old(forecast)
        invariant simulationTime.Some? && simulationTime.value == Instant(start, i)
        invariant Run(plants, results) == Simulate(ps, forecast, blackout.value, start, i)
      {
        ghost var before := Run(plants, results);
        CreateNewMinuteSimulation();
        NextMinute(ps, forecast, b.value, start, i, before, Run(plants, results));
        simulationTime := Some(simulationTime.value + SecondsPerMinute);
        i := i + 1;
      }
      IncreasingIdsAreDistinct(ps);
      SimulateFacts(ps, forecast, b.value, start, SimulationDurationMinutes);
      return Pass;
    }

    /** Stores the forecast if it passes validation; otherwise keeps the one
        it has. */
    method SetForecast(f: Option<Forecast>) returns (r: Outcome)
      requires Valid()
      modifies this
      ensures ForecastVerdict(f, r) && Valid()
      ensures forecast == (if r == Pass then f.value else old(forecast))
      ensures plants == old(plants) && nextId == old(nextId) && results == old(results)
      ensures blackout == old(blackout) && simulationTime == old(simulationTime)
    {
      r := CheckForecast(f);
      if r == Pass {
        forecast := f.value;
      }
    }

    /** Builds a plant of the named type with the next id and appends it.
        An unknown type is refused without touching the counter; a
        constructor failure appends nothing but may have used up an id. */
    method AddPlant(kind: string, a: Attributes, efficiency: real) returns (r: Outcome)
      requires Valid()
      modifies this
      ensures Valid()
      ensures forecast == old(forecast) && results == old(results)
      ensures blackout == old(blackout) && simulationTime == old(simulationTime)
      ensures FamilyNamed(kind).None? ==>
                r == Fail(InvalidPowerPlantType) && plants == old(plants) && nextId == old(nextId)
      ensures FamilyNamed(kind).Some? ==>
                var family := FamilyNamed(kind).value;
                var c := NewPlant(old(nextId), family, ProfileOf(family, fuelGas, geothermal), a, efficiency);
                && nextId == c.nextId
                && (c.result.Ok? ==> r == Pass && plants == old(plants) + [c.result.value])
                && (c.result.Err? ==> r == Fail(c.result.error) && plants == old(plants))
    {
      var family := FamilyNamed(kind);
      if family.None? {
        return Fail(InvalidPowerPlantType);
      }
      var c := NewPlant(nextId, family.value, ProfileOf(family.value, fuelGas, geothermal), a, efficiency);
      if c.result.Ok? {
        AppendKeepsIds(plants, c.result.value, nextId);
      }
      nextId := c.nextId;
      if c.result.Err? {
        return Fail(c.result.error);
      }
      plants := plants + [c.result.value];
      return Pass;
    }

    /** The engine's constructor, which validates the forecast before
        storing it and fails as that validation does. */
    static method New(f: Option<Forecast>, firstId: nat, fuelGas: Profile, geothermal: Profile)
      returns (r: Result<Simulation>)
      requires fuelGas.window == DefaultWindow
      ensures ForecastVerdict(f, if r.Ok? then Pass else Fail(r.error))
      ensures r.Ok? ==> && fresh(r.value) && r.value.Valid()
                        && r.value.forecast == f.value && r.value.nextId == firstId
                        && r.value.plants == [] && r.value.results == []
                        && r.value.blackout == None && r.value.simulationTime == None
                        && r.value.fuelGas == fuelGas && r.value.geothermal == geothermal
    {
      var verdict := CheckForecast(f);
      if verdict.Fail? {
        return Err(verdict.error);
      }
      var s := new Simulation(f.value, firstId, fuelGas, geothermal);
      return Ok(s);
    }
  }
}
