# UOCtron blackout recovery, modelled in Dafny

UOCtron simulates how an electric grid recovers after a total blackout. It
starts from the blackout instant, truncated to the whole minute. For 2160
minutes (36 hours) it then decides, one minute at a time, which power plants
are back and what each one generates. The aim is to meet a daily demand
forecast while keeping the grid's output-weighted stability at or above 0.7.

Each simulated minute does the following:

1. Every plant becomes idle if it is available and unavailable otherwise. A
   plant is available when it is inside its daily window and the instant is
   strictly after the blackout plus its restart duration. Then every plant is
   asked to take 0; an unavailable plant ignores the request and keeps its
   previous assignment.
2. The minute's demand is dispatched greedily in three passes:
   - renewables, most stable first, ties by ascending id;
   - nuclear plants, in roster order;
   - thermal plants, in roster order.
3. While the stability is below 0.7, the online renewables are disconnected,
   least stable first. Each disconnected plant's output goes back to the unmet
   demand.
4. What is left of the demand is requested once more from the nuclear plants.
5. The minute is recorded: its time, demand, stability, total generation and
   generation per type label.

The project follows the program's structure:

- `types.dfy`: states, families, tiers, fuels, error kinds, result types and
  time units.
- `plants.dfy`: the plant record and its constructor checks, the maximum
  output, output assignment, simulated output and availability.
- `families.dfy`: the constants of the seven leaf plant classes.
- `snapshot.dfy`: the validated record of one minute.
- `grid.dfy`: total and weighted output, stability, and output per type.
- `tiers.dfy`: the tier lists and the orders they are sorted by.
- `dispatch.dfy`: the greedy pass and curtailment, as functions.
- `minute.dfy`: one minute, and the theorems about it.
- `engine.dfy`: the engine class. Its methods update the roster in place, and
  each is proved to agree with those functions.

Plants are records held in a `seq` field of the engine. Instants are whole
seconds since a reference midnight. Real numbers stand in for the source's
doubles.

Where the code and its own comments or description disagree, the model
follows the code:

- Curtailment breaks a stability tie by ascending id. The comparator at
  Simulation.java:143-144 sorts by stability and then by id, although its
  comment speaks of selecting the higher id (`Minute.CurtailTieGoesToLowerId`).
- The name check refuses only the empty string. A name made of blanks passes
  and is then stored trimmed, that is empty (`Plants.BlankNameIsStoredEmpty`).
- A renewable with an invalid efficiency fails only after the id counter has
  advanced, so the failure uses up an id (`Plants.NewPlant`).
- The nuclear top-up replaces an online plant's assignment. A request below
  its current output lowers that output, and the unmet demand does not change
  (`Minute.TopUpCanLowerOutput`).
- The forecast check demands an entry for each of the 1440 minutes. Extra
  keys are accepted and ignored.
- The minute snapshot rejects a negative generation but accepts one above the
  demand (`Snapshot.NewMinuteData`). The engine itself never records one
  (`Minute.GenerationWithinDemand`).

## Model

| member | source | states |
|---|---|---|
| Types.TruncateToMinute | UOCtron/src/main/java/edu/uoc/uoctron/model/Simulation.java:85 | the result is a whole minute, at most the instant and less than a minute before it |
| Types.SecondOfDay | UOCtron/src/main/java/edu/uoc/uoctron/model/Plants/PowerPlant.java:306-307 | the time of day of an instant lies in [0, 86400) seconds |
| Types.MinuteOfDay | UOCtron/src/main/java/edu/uoc/uoctron/model/Simulation.java:112 | the forecast key of an instant lies in [0, 1440) |
| Plants.MaxPowerOutput | UOCtron/src/main/java/edu/uoc/uoctron/model/Plants/RenewablePlant.java:105-107 | with a capacity of at least 0 and an efficiency in [0, 1], the maximum output (the capacity scaled by the efficiency for renewables) lies between 0 and the capacity |
| Plants.SimulatedOutput | UOCtron/src/main/java/edu/uoc/uoctron/model/Plants/ThermalPlant.java:53-60 | for a well-formed plant, the output lies in [0, maximum] and is positive exactly when the plant is online; the renewable and nuclear classes do the same |
| Plants.AssignPowerOutput | UOCtron/src/main/java/edu/uoc/uoctron/model/Plants/PowerPlant.java:281-291 | fails exactly on a negative request; an unavailable plant comes back unchanged with 0 returned; otherwise the assignment becomes the request clamped to the maximum output, and the increase is returned, or 0 if the assignment dropped; the state and nameplate are kept, and a bounded plant stays bounded |
| Plants.IsAvailable | UOCtron/src/main/java/edu/uoc/uoctron/model/Plants/PowerPlant.java:301-312 | a plant is available exactly when the time of day is inside its window and the instant is strictly after blackout + restart; what this means at the boundary and on the engine's minute clock is stated by Plants.RestartBoundaryIsStrict, Plants.RestartedAtTick and Families.AvailableFromTick |
| Plants.RestartBoundaryIsStrict | UOCtron/src/main/java/edu/uoc/uoctron/model/Plants/PowerPlant.java:309 | at exactly blackout + restart the plant is still unavailable; one second later, inside its window, it is available |
| Plants.RestartedAtTick | UOCtron/src/main/java/edu/uoc/uoctron/model/Plants/PowerPlant.java:309 | on the minute clock that starts at the truncated blackout, a plant has restarted at tick i exactly when i exceeds its restart minutes, whatever seconds the blackout carried |
| Plants.TrimStart | UOCtron/src/main/java/edu/uoc/uoctron/model/Plants/PowerPlant.java:163 | the index returned is the first from the given start that holds a character above U+0020 (or the length); everything skipped is at most U+0020 |
| Plants.TrimEnd | UOCtron/src/main/java/edu/uoc/uoctron/model/Plants/PowerPlant.java:163 | the end returned never passes the start; everything dropped from the back is at most U+0020, and the character before a non-empty remainder's end is above U+0020 |
| Plants.Trim | UOCtron/src/main/java/edu/uoc/uoctron/model/Plants/PowerPlant.java:163 | the trimmed name is a substring of the name; everything cut off before and after it is at most U+0020, and it neither starts nor ends with such a character |
| Plants.CheckAttributes | UOCtron/src/main/java/edu/uoc/uoctron/model/Plants/PowerPlant.java:159-249 | passes exactly when the name is not empty, latitude is in [-90, 90], longitude is in [-180, 180], the city is not blank, capacity is at least 0 and stability is in [0, 1]; each of the six errors comes exactly when every earlier check (in the order name, latitude, longitude, city, capacity, stability) passes and its own check fails, and no other error can occur |
| Plants.NewPlant | UOCtron/src/main/java/edu/uoc/uoctron/model/Plants/PowerPlant.java:106-124 | a failed base check yields its error and leaves the counter; otherwise the counter advances, and a renewable with an efficiency outside [0, 1] then fails with the efficiency error, having used up the id; a new plant takes the old counter as its id and the family's constants, stores its name trimmed, is unavailable with nothing assigned, and is well formed |
| Plants.BlankNameIsStoredEmpty | UOCtron/src/main/java/edu/uoc/uoctron/model/Plants/PowerPlant.java:159-164 | a non-empty name of blanks passes the name check, and the plant built from it has an empty name |
| Families.FamilyNamed | UOCtron/src/main/java/edu/uoc/uoctron/model/Simulation.java:218-228 | a type string is recognised exactly when it is one of the nine names |
| Families.ProfileOf | UOCtron/src/main/java/edu/uoc/uoctron/model/Simulation.java:219-227 | the constants each family's class passes to its parent; every known family's stability lies in [0, 1], and every family except solar has the full-day window |
| Families.HydroAvailableFromTick4 | UOCtron/src/main/java/edu/uoc/uoctron/model/Plants/HydroPlant.java:22-53 | a hydro plant has stability 0.8 and the label "Hydroelectric", and with its restart of 3 minutes and the full-day window it is available at the engine's tick i exactly when i is at least 4 |
| Families.WindAvailableFromTick7 | UOCtron/src/main/java/edu/uoc/uoctron/model/Plants/WindPlant.java:22-53 | a wind plant has stability 0.2 and the label "Wind", and with its restart of 6 minutes and the full-day window it is available at the engine's tick i exactly when i is at least 7 |
| Families.CoalAvailableFromTick481 | UOCtron/src/main/java/edu/uoc/uoctron/model/Plants/CoalPlant.java:20-53 | a coal plant has stability 0.9 and the label "Coal", and with its restart of 480 minutes and the full-day window it is available at the engine's tick i exactly when i is at least 481 |
| Families.CombinedCycleAvailableFromTick121 | UOCtron/src/main/java/edu/uoc/uoctron/model/Plants/CombinedCyclePlant.java:20-53 | a combined-cycle plant has stability 0.7 and the label "Combined cycle", and with its restart of 120 minutes and the full-day window it is available at the engine's tick i exactly when i is at least 121 |
| Families.BiomassAvailableFromTick181 | UOCtron/src/main/java/edu/uoc/uoctron/model/Plants/BiomassPlant.java:20-53 | a biomass plant has stability 0.5 and the label "Biomass", and with its restart of 180 minutes and the full-day window it is available at the engine's tick i exactly when i is at least 181 |
| Families.NuclearRestartsAtTick1441 | UOCtron/src/main/java/edu/uoc/uoctron/model/Plants/NuclearPlant.java:21 | with its one-day restart, a nuclear plant has restarted at engine tick i exactly when i is at least 1441 |
| Families.SolarWindowInMinutes | UOCtron/src/main/java/edu/uoc/uoctron/model/Plants/SolarPlant.java:35-39 | on whole-minute instants, a solar plant is inside its window exactly at minutes 420 to 1139 of the day |
| Families.DefaultWindowAlwaysOpen | UOCtron/src/main/java/edu/uoc/uoctron/model/Plants/PowerPlant.java:141-144 | the default window contains every instant |
| Families.AvailableFromTick | UOCtron/src/main/java/edu/uoc/uoctron/model/Plants/PowerPlant.java:301-312 | a plant with the full-day window is available at the engine's tick i exactly when i exceeds its restart minutes |
| Snapshot.NewMinuteData | UOCtron/src/main/java/edu/uoc/uoctron/model/MinuteSimulationData.java:49-105 | succeeds exactly when the time is present, the demand is at least 0, the stability is in [0, 1] and the generation is at least 0, and then stores them unchanged; each error comes exactly when its check is the first to fail |
| Grid.IncreasingIdsAreDistinct | UOCtron/src/main/java/edu/uoc/uoctron/model/Plants/PowerPlant.java:121-123 | ids handed out in increasing order are all different |
| Grid.OutputSumsBounded | UOCtron/src/main/java/edu/uoc/uoctron/model/Simulation.java:285-297 | the weighted sum lies between 0 and the total output |
| Grid.Stability | UOCtron/src/main/java/edu/uoc/uoctron/model/Simulation.java:285-297 | the output-weighted average stability of the online plants, 1 when nothing is generated; its range is stated by Grid.StabilityInUnitInterval and its loop form by Engine.Simulation.CalculateStability |
| Grid.StabilityInUnitInterval | UOCtron/src/main/java/edu/uoc/uoctron/model/Simulation.java:281-297 | the stability lies in [0, 1] and is exactly 1 when nothing is generated |
| Grid.NothingOnlineNoOutput | UOCtron/src/main/java/edu/uoc/uoctron/model/Simulation.java:273-279 | a roster with no plant online generates 0, and its weighted sum is 0 |
| Grid.ByTypeAt | UOCtron/src/main/java/edu/uoc/uoctron/model/Simulation.java:303-315 | a label is a key of the per-type map exactly when its plants generate something, and its value is their total positive output |
| Tiers.SelectBelow | UOCtron/src/main/java/edu/uoc/uoctron/model/Simulation.java:121-129 | the filtered list holds exactly the indices below n that meet the criterion, in increasing order |
| Tiers.SelectFacts | UOCtron/src/main/java/edu/uoc/uoctron/model/Simulation.java:121-129 | a tier list holds each plant of the tier exactly once, and nothing else |
| Tiers.SortedSelectFacts | UOCtron/src/main/java/edu/uoc/uoctron/model/Simulation.java:122-123 | a sorted tier list is in range, has no duplicates, is strictly ordered and holds exactly the plants of the tier |
| Tiers.SelectByAscendingId | UOCtron/src/main/java/edu/uoc/uoctron/model/Simulation.java:124-129 | on a roster whose ids grow, a list in roster order is in ascending id order, the order the source sorts nuclear and thermal plants by |
| Tiers.InsertPermutes | UOCtron/src/main/java/edu/uoc/uoctron/model/Simulation.java:122-123 | insertion adds exactly the one index |
| Tiers.SortPermutes | UOCtron/src/main/java/edu/uoc/uoctron/model/Simulation.java:122-123 | sorting is a permutation of the list |
| Tiers.InsertSorted | UOCtron/src/main/java/edu/uoc/uoctron/model/Simulation.java:122-123 | inserting a new index into a sorted list keeps it sorted |
| Tiers.SortSorted | UOCtron/src/main/java/edu/uoc/uoctron/model/Simulation.java:122-123 | sorting distinct indices yields a strictly ordered list of the same indices |
| Tiers.SortedIsUnique | UOCtron/src/main/java/edu/uoc/uoctron/model/Simulation.java:143-150 | two sorted arrangements of the same indices are equal, so any stable sort or tree set yields the model's order |
| Dispatch.Dispatch | UOCtron/src/main/java/edu/uoc/uoctron/model/Simulation.java:185-187 | the plant is assigned min(remaining, maximum) unless unavailable, and goes online exactly when the increase is positive; the increase is at least 0 and, for a well-formed plant, at most the remaining demand; for an idle plant it equals the new assignment |
| Dispatch.Allocate | UOCtron/src/main/java/edu/uoc/uoctron/model/Simulation.java:179-190 | the greedy pass keeps the roster's size; what the pass does is stated by Dispatch.AllocateFrame, Dispatch.AllocateKeepsInvariants, Dispatch.AllocateConservesDemand, Dispatch.AllocateNeverOvershoots and Dispatch.AllocateSaturates |
| Dispatch.AllocateLeaves | UOCtron/src/main/java/edu/uoc/uoctron/model/Simulation.java:182-188 | a plant not in the list is left as it was |
| Dispatch.AllocateSkipsUnavailable | UOCtron/src/main/java/edu/uoc/uoctron/model/Plants/PowerPlant.java:285 | an unavailable plant is left as it was by a pass |
| Dispatch.AllocateFrame | UOCtron/src/main/java/edu/uoc/uoctron/model/Simulation.java:179-190 | a pass keeps every nameplate and changes only listed plants |
| Dispatch.AllocateKeepsInvariants | UOCtron/src/main/java/edu/uoc/uoctron/model/Simulation.java:179-190 | a pass keeps every plant well formed, and leaves the unmet demand in [0, initial]; a pass started with no demand changes nothing |
| Dispatch.AllocateConservesDemand | UOCtron/src/main/java/edu/uoc/uoctron/model/Simulation.java:179-190 | over plants not yet online, the output a pass adds equals the demand it consumes |
| Dispatch.AllocateNeverOvershoots | UOCtron/src/main/java/edu/uoc/uoctron/model/Simulation.java:179-190 | generation plus unmet demand never grows over a pass |
| Dispatch.AllocateSaturates | UOCtron/src/main/java/edu/uoc/uoctron/model/Simulation.java:179-190 | if a pass over waiting plants leaves demand unmet, every available listed plant runs at its maximum |
| Dispatch.Disconnect | UOCtron/src/main/java/edu/uoc/uoctron/model/Simulation.java:156-158 | a disconnected plant keeps its nameplate, is idle, generates 0, and stays well formed |
| Dispatch.Curtail | UOCtron/src/main/java/edu/uoc/uoctron/model/Simulation.java:146-161 | curtailment keeps the roster's size; what it does is stated by Dispatch.CurtailFrame, Dispatch.CurtailKeepsOffline, Dispatch.CurtailOutcome, Dispatch.CurtailConserves and Dispatch.CurtailKeepsWellFormed |
| Dispatch.CurtailFrame | UOCtron/src/main/java/edu/uoc/uoctron/model/Simulation.java:153-161 | curtailment keeps every nameplate; only listed plants change, and those end up idle |
| Dispatch.CurtailKeepsOffline | UOCtron/src/main/java/edu/uoc/uoctron/model/Simulation.java:153-161 | curtailment never brings a plant online |
| Dispatch.CurtailOutcome | UOCtron/src/main/java/edu/uoc/uoctron/model/Simulation.java:153-161 | curtailment ends with a stability of at least 0.7, or with no listed plant online |
| Dispatch.CurtailConserves | UOCtron/src/main/java/edu/uoc/uoctron/model/Simulation.java:156-159 | unmet demand plus generation is the same before and after curtailment |
| Dispatch.CurtailKeepsWellFormed | UOCtron/src/main/java/edu/uoc/uoctron/model/Simulation.java:153-161 | curtailing online plants keeps the roster well formed and never lowers the unmet demand |
| Minute.ResetPlant | UOCtron/src/main/java/edu/uoc/uoctron/model/Simulation.java:107-110 | the plant becomes idle exactly when available and unavailable otherwise; it keeps its nameplate, an unavailable plant keeps its stale assignment, and well-formedness is kept |
| Minute.ResetAll | UOCtron/src/main/java/edu/uoc/uoctron/model/Simulation.java:107-110 | every plant of the roster, and nothing else, is reset by Minute.ResetPlant; Minute.ResetClearsGrid states that nothing is then online or generated |
| Minute.ResetClearsGrid | UOCtron/src/main/java/edu/uoc/uoctron/model/Simulation.java:107-110 | after the reset no plant is online, nothing is generated, and every plant keeps its nameplate and well-formedness |
| Minute.RenewablePass | UOCtron/src/main/java/edu/uoc/uoctron/model/Simulation.java:133 | the renewable pass keeps the roster well formed, generates exactly the demand it consumes, and touches no other tier |
| Minute.TierPass | UOCtron/src/main/java/edu/uoc/uoctron/model/Simulation.java:134-135 | a nuclear or thermal pass has the same facts, and leaves the later tiers as the reset set them |
| Minute.FirstPassFromReset | UOCtron/src/main/java/edu/uoc/uoctron/model/Simulation.java:133-135 | over a reset roster, the unmet demand only falls through the three passes, and generation plus unmet demand is exactly the demand |
| Minute.FirstPassConservesDemand | UOCtron/src/main/java/edu/uoc/uoctron/model/Simulation.java:102-135 | the same on the minute: after the first pass, generation plus unmet demand equals the forecast demand |
| Minute.RenewablePassSaturates | UOCtron/src/main/java/edu/uoc/uoctron/model/Simulation.java:133 | if renewables leave demand unmet, each available renewable runs at its maximum |
| Minute.TierPassSaturates | UOCtron/src/main/java/edu/uoc/uoctron/model/Simulation.java:134-135 | if a tier leaves demand unmet, each available plant of the tier runs at its maximum, and other tiers are untouched |
| Minute.TierPassFrame | UOCtron/src/main/java/edu/uoc/uoctron/model/Simulation.java:134-135 | a tier pass leaves the other tiers as they were, and never raises the unmet demand |
| Minute.RenewablesSaturatedAfterFirstPass | UOCtron/src/main/java/edu/uoc/uoctron/model/Simulation.java:133-135 | with demand still unmet after all three passes, every available renewable runs at its maximum |
| Minute.NuclearSaturatedAfterFirstPass | UOCtron/src/main/java/edu/uoc/uoctron/model/Simulation.java:133-135 | the same for every available nuclear plant |
| Minute.ThermalSaturatedAfterFirstPass | UOCtron/src/main/java/edu/uoc/uoctron/model/Simulation.java:133-135 | the same for every available thermal plant |
| Minute.FirstPassSaturatesFromReset | UOCtron/src/main/java/edu/uoc/uoctron/model/Simulation.java:133-135 | with demand still unmet after the first pass, every available plant of every tier runs at its maximum |
| Minute.FirstPassIsGreedy | UOCtron/src/main/java/edu/uoc/uoctron/model/Simulation.java:102-135 | the same greed, stated on the minute |
| Minute.CurtailStageFacts | UOCtron/src/main/java/edu/uoc/uoctron/model/Simulation.java:143-161 | curtailing the online renewables, least stable first, keeps the roster well formed and conserves demand plus generation; it changes only online renewables, and sets them idle |
| Minute.CurtailStageOutcome | UOCtron/src/main/java/edu/uoc/uoctron/model/Simulation.java:140-161 | curtailment ends with a stability of at least 0.7, or with no renewable online |
| Minute.CurtailmentRestoresStability | UOCtron/src/main/java/edu/uoc/uoctron/model/Simulation.java:138-161 | on the minute, after curtailment the stability is at least 0.7 or no renewable is online |
| Minute.CurtailmentConservesDemand | UOCtron/src/main/java/edu/uoc/uoctron/model/Simulation.java:153-161 | on the minute, after curtailment generation plus unmet demand is still the demand; only renewables the first pass had brought online changed, and they are idle |
| Minute.OnlineAfterFirstPassWasIdle | UOCtron/src/main/java/edu/uoc/uoctron/model/Simulation.java:117-118 | a plant online after the first pass was set idle by the reset |
| Minute.CurtailCandidatesWereIdle | UOCtron/src/main/java/edu/uoc/uoctron/model/Simulation.java:147-150 | filtering the candidates through the idle list first changes nothing: every online plant was idle after the reset |
| Minute.CurtailTieGoesToLowerId | UOCtron/src/main/java/edu/uoc/uoctron/model/Simulation.java:143-144 | of two online renewables with equal stability, the one with the lower id comes first in the curtailment order |
| Minute.TopUpStage | UOCtron/src/main/java/edu/uoc/uoctron/model/Simulation.java:164 | the top-up keeps the roster well formed, touches only nuclear plants, never raises the unmet demand or generation plus unmet demand, and changes nothing once the demand is met |
| Minute.TopUpOnlyTouchesNuclear | UOCtron/src/main/java/edu/uoc/uoctron/model/Simulation.java:163-164 | on the minute, only nuclear plants differ between curtailment and the final roster, and the unmet demand stays in [0, demand] |
| Minute.GenerationWithinDemand | UOCtron/src/main/java/edu/uoc/uoctron/model/Simulation.java:102-169 | a minute never generates more than its demand |
| Minute.MinuteRecordIsValid | UOCtron/src/main/java/edu/uoc/uoctron/model/Simulation.java:167-168 | the final roster's record passes the snapshot's validation, so recording never fails |
| Minute.MinuteKeepsInvariants | UOCtron/src/main/java/edu/uoc/uoctron/model/Simulation.java:102-169 | a minute keeps every plant well formed and its nameplate; its record holds the instant and the demand, a stability in [0, 1] and a generation in [0, demand] |
| Minute.RunMinute | UOCtron/src/main/java/edu/uoc/uoctron/model/Simulation.java:102-169 | the minute's stages keep the roster's size; what they do is stated by Minute.MinuteKeepsInvariants, Minute.FirstPassConservesDemand, Minute.FirstPassIsGreedy, Minute.CurtailmentRestoresStability, Minute.TopUpOnlyTouchesNuclear and Minute.MinuteRecordIsValid |
| Minute.TopUpCanLowerOutput | UOCtron/src/main/java/edu/uoc/uoctron/model/Simulation.java:164 | an online plant asked in the top-up for less than it runs at drops to the request; total generation falls by the difference, and the unmet demand is unchanged |
| Engine.FirstBadIsUnique | UOCtron/src/main/java/edu/uoc/uoctron/model/Simulation.java:254-264 | the forecast scan can stop at only one minute, with only one error |
| Engine.VerdictIsUnique | UOCtron/src/main/java/edu/uoc/uoctron/model/Simulation.java:247-266 | a forecast has exactly one verdict |
| Engine.CheckForecast | UOCtron/src/main/java/edu/uoc/uoctron/model/Simulation.java:247-264 | a missing or empty forecast gives the null error; otherwise it passes exactly when every minute of the day has a demand of at least 0, and a failure carries the error of the first bad minute (a missing entry is checked before a negative one) |
| Engine.Simulate | UOCtron/src/main/java/edu/uoc/uoctron/model/Simulation.java:90-93 | n minutes of a run give n records and keep the roster's size |
| Engine.Step | UOCtron/src/main/java/edu/uoc/uoctron/model/Simulation.java:102-169 | one minute keeps the roster's size and adds one record; Engine.StepFacts states what the record holds and that earlier records are kept, and Engine.NextMinute that a step extends a run by one minute |
| Engine.NextMinute | UOCtron/src/main/java/edu/uoc/uoctron/model/Simulation.java:90-93 | one more step at the instant of minute i turns a run of i minutes into a run of i + 1 minutes |
| Engine.StepFacts | UOCtron/src/main/java/edu/uoc/uoctron/model/Simulation.java:102-169 | a step keeps the roster's nameplates and well-formedness, keeps every earlier record, and appends a valid record stamped with its own instant and that minute's demand |
| Engine.SimulateFacts | UOCtron/src/main/java/edu/uoc/uoctron/model/Simulation.java:90-93 | over a run each record i holds instant start + i minutes, that minute's forecast demand, a stability in [0, 1] and a generation within the demand; the roster keeps every nameplate and stays well formed |
| Engine.Simulation.constructor | UOCtron/src/main/java/edu/uoc/uoctron/model/Simulation.java:64-68 | given a complete forecast and a fuel-gas profile with the full-day window, a new engine holds that forecast, the first id, an empty roster, no blackout, no clock and no results |
| Engine.Simulation.New | UOCtron/src/main/java/edu/uoc/uoctron/model/Simulation.java:64-68 | given a fuel-gas profile with the full-day window, construction fails exactly as forecast validation does; on success the engine is as the constructor describes |
| Engine.Simulation.CalculateGeneratedPower | UOCtron/src/main/java/edu/uoc/uoctron/model/Simulation.java:273-279 | the loop returns the total simulated output of the roster |
| Engine.Simulation.CalculateStability | UOCtron/src/main/java/edu/uoc/uoctron/model/Simulation.java:285-297 | the loop returns the grid stability, 1 when nothing is generated |
| Engine.Simulation.CalculateGeneratedPowerByType | UOCtron/src/main/java/edu/uoc/uoctron/model/Simulation.java:303-315 | the loop returns the per-type map, with the meaning stated by Grid.ByTypeAt |
| Engine.Simulation.AssignGeneration | UOCtron/src/main/java/edu/uoc/uoctron/model/Simulation.java:179-190 | the loop leaves the roster and the unmet demand of the greedy pass, and changes nothing else |
| Engine.Simulation.ResetPlants | UOCtron/src/main/java/edu/uoc/uoctron/model/Simulation.java:107-110 | every plant is reset by its availability at the current instant |
| Engine.Simulation.CurtailRenewables | UOCtron/src/main/java/edu/uoc/uoctron/model/Simulation.java:152-161 | the loop leaves the roster and the unmet demand of curtailment, measuring the stability again after each disconnection |
| Engine.Simulation.CreateNewMinuteSimulation | UOCtron/src/main/java/edu/uoc/uoctron/model/Simulation.java:102-169 | the roster and records become one more step of the run at the current instant, the engine stays valid, and nothing else changes |
| Engine.Simulation.DeployNewSimulation | UOCtron/src/main/java/edu/uoc/uoctron/model/Simulation.java:76-94 | an empty roster fails first, then a missing blackout, and neither changes anything; otherwise the run covers 2160 minutes from the truncated blackout with fresh results, and every record is stamped with its minute and is valid; the clock ends 2160 minutes after the start |
| Engine.Simulation.SetForecast | UOCtron/src/main/java/edu/uoc/uoctron/model/Simulation.java:247-266 | the forecast is replaced exactly when it passes validation, and everything else is kept |
| Engine.Simulation.AddPlant | UOCtron/src/main/java/edu/uoc/uoctron/model/Simulation.java:215-231 | an unknown type fails and changes nothing; otherwise the family's constructor runs with the next id, which it may use up; a plant it builds is appended, its failure is returned, and the roster's ids keep growing |

## Left out

- The JSON output is not modelled: `getSimulationResults` and every `toString`. It is presentation only.
- `getPlants` is not modelled. It copies the roster out, and the roster field is already readable in the model.
- The display icon is dropped from the plant record because nothing in the core reads it. The thermal fuel survives only as `Types.FuelOf`.
- The fuel-gas and geothermal plant classes are not part of this model. The engine receives their constants as two profiles at construction. Geothermal is treated as renewable, taking an efficiency, and fuel gas as thermal. The thermal base constructor passes no window to its parent (UOCtron/src/main/java/edu/uoc/uoctron/model/Plants/ThermalPlant.java:41), so fuel gas is taken to have the full-day window: the constructor and `New` require it of the profile they are given.
- The plant counter is static in the source and so shared by every engine. Here it is the engine's `nextId` field, whose first value is given to the constructor.
- Aliasing is not modelled. Plants are values inside the engine's sequence field, so changes made through references handed out by `getPlants` cannot happen.
- Floating point is not modelled: doubles are exact reals. Rounding in the running sums, and comparisons that rounding could flip, are therefore left out.
- Instants are whole seconds since a reference midnight, so nanoseconds are not modelled. `LocalTime.MAX` becomes 23:59:59, the last whole second of the day.
- Forecast keys are minutes of the day. A source map whose keys carry seconds has no counterpart here.
- Null forecast values are not modelled. A forecast here maps each minute to a real, so it cannot hold a null `Double`. In the source such an entry passes the key check and then fails the negativity check at UOCtron/src/main/java/edu/uoc/uoctron/model/Simulation.java:260 with a runtime exception of the Java platform, not with a simulation error.
- Sharing of the forecast map is not modelled. The source stores the caller's `HashMap` itself (UOCtron/src/main/java/edu/uoc/uoctron/model/Simulation.java:265), so a later change by the caller alters the engine's forecast, and may remove an entry or make one negative after validation; a run could then fail. Here the forecast is a value copied into the engine, so it stays as validated.
- `ERROR_STATE_NULL` is not modelled. A `State` value cannot be null, so `setState` is a plain record update.
- Null strings are not modelled. The source would fail on a null name, city or type with a runtime exception of the Java platform rather than a plant error.
- The public attribute setters of the plant classes are modelled only as the checks the constructor makes. Nothing in the core calls them after construction.
