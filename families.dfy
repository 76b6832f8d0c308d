/** The leaf plant classes: each fixes a stability, a restart duration, an
    availability window and a type label. The fuel-gas and geothermal classes
    are not part of this model, so their constants are not known here; the
    engine is given them as profiles. */
module Families {
  import opened Types
  import opened Plants

  /** 07:00:00 to 18:59:00, the solar window. */
  const SolarWindow: Window := Window(7 * 3600, 18 * 3600 + 59 * 60)

  /** The constants each family's constructor passes to its parent. */
  function ProfileOf(f: Family, fuelGas: Profile, geothermal: Profile): (r: Profile)
    ensures f != FuelGas && f != Geothermal ==> 0.0 <= r.stability <= 1.0
    ensures f != Solar && f != FuelGas && f != Geothermal ==> r.window == DefaultWindow
  {
    match f
    case Solar => Profile(0.1, 6, SolarWindow, "Solar")
    case Hydro => Profile(0.8, 3, DefaultWindow, "Hydroelectric")
    case Wind => Profile(0.2, 6, DefaultWindow, "Wind")
    case Nuclear => Profile(1.0, 24 * 60, DefaultWindow, "Nuclear")
    case Coal => Profile(0.9, 8 * 60, DefaultWindow, "Coal")
    case CombinedCycle => Profile(0.7, 2 * 60, DefaultWindow, "Combined cycle")
    case Biomass => Profile(0.5, 3 * 60, DefaultWindow, "Biomass")
    case FuelGas => fuelGas
    case Geothermal => geothermal
  }

  /** The type strings the engine recognises when adding a plant. */
  function FamilyNamed(kind: string): (r: Option<Family>)
    ensures r.Some? <==> kind in {"BIOMASS", "COAL", "COMBINED_CYCLE", "FUEL_GAS", "GEOTHERMAL",
                                  "HYDRO", "NUCLEAR", "SOLAR", "WIND"}
  {
    match kind
    case "BIOMASS" => Some(Biomass)
    case "COAL" => Some(Coal)
    case "COMBINED_CYCLE" => Some(CombinedCycle)
    case "FUEL_GAS" => Some(FuelGas)
    case "GEOTHERMAL" => Some(Geothermal)
    case "HYDRO" => Some(Hydro)
    case "NUCLEAR" => Some(Nuclear)
    case "SOLAR" => Some(Solar)
    case "WIND" => Some(Wind)
    case _ => None
  }

  /** A nuclear plant's one-day restart, checked strictly, makes it unavailable
      at the engine's ticks 0..1440 and lets it restart from tick 1441 on. */
  lemma {:induction false} NuclearRestartsAtTick1441(p: Plant, fuelGas: Profile, geothermal: Profile,
                                                   blackout: int, i: int)
    requires p.plate.restartMinutes == ProfileOf(Nuclear, fuelGas, geothermal).restartMinutes
    ensures HasRestarted(p, blackout, TruncateToMinute(blackout) + i * SecondsPerMinute)
            <==> i >= 1441
  {
    RestartedAtTick(p, blackout, i);
  }

  /** On the engine's whole-minute clock a solar plant is inside its window
      exactly at minutes 420..1139 of the day (07:00 through 18:59). */
  lemma {:induction false} SolarWindowInMinutes(t: int)
    requires t % SecondsPerMinute == 0
    ensures InWindow(SolarWindow, t) <==> 420 <= MinuteOfDay(t) <= 1139
  {
    var q, k := t / SecondsPerMinute, t / SecondsPerDay;
    var sd := SecondOfDay(t);
    assert t == q * SecondsPerMinute;
    assert t == k * SecondsPerDay + sd;
    assert sd == (q - k * MinutesPerDay) * SecondsPerMinute;
    assert MinuteOfDay(t) == q - k * MinutesPerDay;
  }

  /** Hydro, wind and the four families outside the renewable tier are inside
      their window at every instant. */
  lemma DefaultWindowAlwaysOpen(t: int)
    ensures InWindow(DefaultWindow, t)
  {
  }

  /** A plant with the full-day window is available at the engine's tick i
      exactly when i exceeds its restart minutes. */
  lemma {:induction false} AvailableFromTick(p: Plant, blackout: int, i: int)
    requires p.plate.window == DefaultWindow
    ensures IsAvailable(p, blackout, TruncateToMinute(blackout) + i * SecondsPerMinute)
            <==> i > p.plate.restartMinutes
  {
    RestartedAtTick(p, blackout, i);
    DefaultWindowAlwaysOpen(TruncateToMinute(blackout) + i * SecondsPerMinute);
  }

  /** A hydro plant has stability 0.8 and the label "Hydroelectric", and is
      available from the engine's tick 4 on. */
  lemma {:induction false} HydroAvailableFromTick4(p: Plant, fuelGas: Profile, geothermal: Profile,
      blackout: int, i: int)
    requires p.plate.window == ProfileOf(Hydro, fuelGas, geothermal).window
    requires p.plate.restartMinutes == ProfileOf(Hydro, fuelGas, geothermal).restartMinutes
    ensures ProfileOf(Hydro, fuelGas, geothermal).stability == 0.8
    ensures ProfileOf(Hydro, fuelGas, geothermal).typeLabel == "Hydroelectric"
    ensures IsAvailable(p, blackout, TruncateToMinute(blackout) + i * SecondsPerMinute) <==> i >= 4
  {
    AvailableFromTick(p, blackout, i);
  }

  /** A wind plant has stability 0.2 and the label "Wind", and is
      available from the engine's tick 7 on. */
  lemma {:induction false} WindAvailableFromTick7(p: Plant, fuelGas: Profile, geothermal: Profile,
      blackout: int, i: int)
    requires p.plate.window == ProfileOf(Wind, fuelGas, geothermal).window
    requires p.plate.restartMinutes == ProfileOf(Wind, fuelGas, geothermal).restartMinutes
    ensures ProfileOf(Wind, fuelGas, geothermal).stability == 0.2
    ensures ProfileOf(Wind, fuelGas, geothermal).typeLabel == "Wind"
    ensures IsAvailable(p, blackout, TruncateToMinute(blackout) + i * SecondsPerMinute) <==> i >= 7
  {
    AvailableFromTick(p, blackout, i);
  }

  /** A coal plant has stability 0.9 and the label "Coal", and is
      available from the engine's tick 481 on. */
  lemma {:induction false} CoalAvailableFromTick481(p: Plant, fuelGas: Profile, geothermal: Profile,
      blackout: int, i: int)
    requires p.plate.window == ProfileOf(Coal, fuelGas, geothermal).window
    requires p.plate.restartMinutes == ProfileOf(Coal, fuelGas, geothermal).restartMinutes
    ensures ProfileOf(Coal, fuelGas, geothermal).stability == 0.9
    ensures ProfileOf(Coal, fuelGas, geothermal).typeLabel == "Coal"
    ensures IsAvailable(p, blackout, TruncateToMinute(blackout) + i * SecondsPerMinute) <==> i >= 481
  {
    AvailableFromTick(p, blackout, i);
  }

  /** A combined-cycle plant has stability 0.7 and the label "Combined cycle", and is
      available from the engine's tick 121 on. */
  lemma {:induction false} CombinedCycleAvailableFromTick121(p: Plant, fuelGas: Profile, geothermal: Profile,
      blackout: int, i: int)
    requires p.plate.window == ProfileOf(CombinedCycle, fuelGas, geothermal).window
    requires p.plate.restartMinutes == ProfileOf(CombinedCycle, fuelGas, geothermal).restartMinutes
    ensures ProfileOf(CombinedCycle, fuelGas, geothermal).stability == 0.7
    ensures ProfileOf(CombinedCycle, fuelGas, geothermal).typeLabel == "Combined cycle"
    ensures IsAvailable(p, blackout, TruncateToMinute(blackout) + i * SecondsPerMinute) <==> i >= 121
  {
    AvailableFromTick(p, blackout, i);
  }

  /** A biomass plant has stability 0.5 and the label "Biomass", and is
      available from the engine's tick 181 on. */
  lemma {:induction false} BiomassAvailableFromTick181(p: Plant, fuelGas: Profile, geothermal: Profile,
      blackout: int, i: int)
    requires p.plate.window == ProfileOf(Biomass, fuelGas, geothermal).window
    requires p.plate.restartMinutes == ProfileOf(Biomass, fuelGas, geothermal).restartMinutes
    ensures ProfileOf(Biomass, fuelGas, geothermal).stability == 0.5
    ensures ProfileOf(Biomass, fuelGas, geothermal).typeLabel == "Biomass"
    ensures IsAvailable(p, blackout, TruncateToMinute(blackout) + i * SecondsPerMinute) <==> i >= 181
  {
    AvailableFromTick(p, blackout, i);
  }
}
