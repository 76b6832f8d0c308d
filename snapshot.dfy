/** One simulated minute's record: its time, the forecast demand, the grid
    stability, the total generation and the generation per type label. It is
    validated once when built and never changes afterwards. */
module Snapshot {
  import opened Types

  datatype MinuteData = MinuteData(
    time: int,
    powerDemand: real,
    stability: real,
    generatedPower: real,
    generatedByType: map<string, real>)

  /** The validating constructor. Its checks run in the order time, demand,
      stability, generation, so the first bad field decides the error. The
      generation is only required not to be negative: a generation above the
      demand is accepted. The per-type map is stored unchecked. */
  function NewMinuteData(time: Option<int>, powerDemand: real, stability: real,
                         generatedPower: real, generatedByType: map<string, real>)
    : (r: Result<MinuteData>)
    ensures r.Ok? <==>
              time.Some? && powerDemand >= 0.0 && 0.0 <= stability <= 1.0 && generatedPower >= 0.0
    ensures r.Ok? ==>
              r.value == MinuteData(time.value, powerDemand, stability, generatedPower, generatedByType)
    ensures r == Err(TimeNull) <==> time.None?
    ensures r == Err(InvalidPowerDemand) <==> time.Some? && powerDemand < 0.0
    ensures r == Err(InvalidStability) <==>
              time.Some? && powerDemand >= 0.0 && (stability < 0.0 || stability > 1.0)
    ensures r == Err(InvalidGeneratedPower) <==>
              time.Some? && powerDemand >= 0.0 && 0.0 <= stability <= 1.0 && generatedPower < 0.0
  {
    if time.None? then Err(TimeNull)
    else if powerDemand < 0.0 then Err(InvalidPowerDemand)
    else if stability < 0.0 || stability > 1.0 then Err(InvalidStability)
    else if generatedPower < 0.0 then Err(InvalidGeneratedPower)
    else Ok(MinuteData(time.value, powerDemand, stability, generatedPower, generatedByType))
  }
}
