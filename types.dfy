/** Vocabulary shared by the plant, snapshot and engine modules: plant states,
    plant families and their dispatch tiers, fuels, time units, the error kinds
    of the three exception classes, and the result types that replace them. */
module Types {

  /** Operational state of a plant. */
  datatype State = Online | Idle | Unavailable

  /** Fuel of a thermal plant; carried for display only. */
  datatype Fuel = CoalFuel | NaturalGasFuel | BiomassFuel | FuelGasFuel

  /** Every family the engine can create. */
  datatype Family =
    | Solar | Hydro | Wind | Geothermal
    | Nuclear
    | Coal | CombinedCycle | Biomass | FuelGas

  /** The three dispatch tiers of the per-minute algorithm. */
  datatype Tier = RenewableTier | NuclearTier | ThermalTier

  /** Which abstract class the family's class extends. */
  function TierOf(f: Family): Tier
  {
    match f
    case Solar | Hydro | Wind | Geothermal => RenewableTier
    case Nuclear => NuclearTier
    case Coal | CombinedCycle | Biomass | FuelGas => ThermalTier
  }

  /** The fuel a thermal family is built with; no fuel for the others. */
  function FuelOf(f: Family): Option<Fuel>
  {
    match f
    case Coal => Some(CoalFuel)
    case CombinedCycle => Some(NaturalGasFuel)
    case Biomass => Some(BiomassFuel)
    case FuelGas => Some(FuelGasFuel)
    case _ => None
  }

  /** The error kinds of the exception classes; messages are not modelled. */
  datatype Error =
    // raised by plant construction and output assignment
    | NameError | LatitudeError | LongitudeError | CityError
    | CapacityError | StabilityError | EfficiencyError
    | NegativePowerAssignment
    // raised by the recovery engine
    | BlackoutTimeNull | DemandForecastNull | NegativePowerDemandValue
    | DemandForecastMissingEntry | PowerPlantListIsEmpty | InvalidPowerPlantType
    // raised by the minute snapshot
    | TimeNull | InvalidPowerDemand | InvalidStability | InvalidGeneratedPower

  datatype Option<T> = None | Some(value: T)

  /** A value, or the error that the source would have thrown instead. */
  datatype Result<T> = Ok(value: T) | Err(error: Error)

  /** Success, or the error thrown by an operation that returns nothing. */
  datatype Outcome = Pass | Fail(error: Error)

  // Time is counted in whole seconds since a reference midnight; sub-second
  // precision is not modelled.
  const SecondsPerMinute: int := 60
  const MinutesPerDay: int := 1440
  const SecondsPerDay: int := 86400

  /** The instant with its seconds dropped (truncation to whole minutes). */
  function TruncateToMinute(t: int): (r: int)
    ensures r <= t < r + SecondsPerMinute && r % SecondsPerMinute == 0
  {
    t - t % SecondsPerMinute
  }

  /** Second of the day of an instant, 0 for 00:00:00. */
  function SecondOfDay(t: int): (r: int)
    ensures 0 <= r < SecondsPerDay
  {
    t % SecondsPerDay
  }

  /** Minute of the day of an instant, 0 for 00:00. */
  function MinuteOfDay(t: int): (r: int)
    ensures 0 <= r < MinutesPerDay
  {
    SecondOfDay(t) / SecondsPerMinute
  }
}
