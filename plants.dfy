/** The plant hierarchy: the attributes every plant shares, their validation at
    construction, the maximum deliverable output, the output assignment with its
    clamped increase, the simulated output and the availability test. The
    abstract classes (base, renewable, thermal) and the nuclear class differ only
    in the constants their constructors pass and in the maximum-output formula,
    so one record with a family tag stands for all of them. */
module Plants {
  import opened Types

  /** Daily availability window in seconds of the day, inclusive at both ends. */
  datatype Window = Window(start: int, end: int)

  /** From 00:00:00 to the last instant of the day; for instants counted in whole
      seconds, 23:59:59 is that last instant. */
  const DefaultWindow: Window := Window(0, SecondsPerDay - 1)

  /** What is fixed about a generation unit once it is constructed; the
      display icon is not modelled. */
  datatype Nameplate = Nameplate(
    id: nat,
    family: Family,
    typeLabel: string,
    name: string,
    latitude: real,
    longitude: real,
    city: string,
    capacity: real,
    efficiency: real,   // 1.0 for families that take no efficiency
    stability: real,
    restartMinutes: nat,
    window: Window)

  /** One generation unit: its nameplate, its state and its assigned output. */
  datatype Plant = Plant(plate: Nameplate, state: State, assignedOutput: real)

  predicate IsRenewable(p: Plant)
  {
    TierOf(p.plate.family) == RenewableTier
  }

  /** Capacity, scaled by the efficiency for renewables. */
  function MaxPowerOutput(p: Plant): (r: real)
    ensures 0.0 <= p.plate.capacity && 0.0 <= p.plate.efficiency <= 1.0 ==> 0.0 <= r <= p.plate.capacity
  {
    if IsRenewable(p) then p.plate.capacity * p.plate.efficiency else p.plate.capacity
  }

  /** The ranges the constructor enforces on the attributes that drive dispatch. */
  predicate AttributesValid(p: Plant)
  {
    0.0 <= p.plate.capacity && 0.0 <= p.plate.stability <= 1.0 && 0.0 <= p.plate.efficiency <= 1.0
  }

  /** The assigned output never leaves [0, maximum output]. */
  predicate Bounded(p: Plant)
  {
    0.0 <= p.assignedOutput <= MaxPowerOutput(p)
  }

  /** An idle plant has nothing assigned and an online plant has something; an
      unavailable plant may keep a stale assignment. */
  predicate Consistent(p: Plant)
  {
    (p.state == Idle ==> p.assignedOutput == 0.0) && (p.state == Online ==> p.assignedOutput > 0.0)
  }

  predicate WellFormed(p: Plant)
  {
    AttributesValid(p) && Bounded(p) && Consistent(p)
  }

  /** The output the plant feeds into the grid: its assignment if online, else 0. */
  function SimulatedOutput(p: Plant): (r: real)
    ensures WellFormed(p) ==> 0.0 <= r <= MaxPowerOutput(p) && (r > 0.0 <==> p.state == Online)
  {
    if p.state == Online then p.assignedOutput else 0.0
  }

  function Min(a: real, b: real): real { if a <= b then a else b }

  /** What an output assignment leaves behind: the updated plant and the
      returned increase. */
  datatype Assignment = Assignment(plant: Plant, delta: real)

  /** Requests an output. A negative request fails whatever the state; an
      unavailable plant is left as it is and 0 is returned; otherwise the
      assignment is replaced by the request clamped to the maximum output and
      the increase over the previous assignment, or 0 if it dropped, is returned. */
  function AssignPowerOutput(p: Plant, request: real): (r: Result<Assignment>)
    ensures r.Err? <==> request < 0.0
    ensures r.Err? ==> r.error == NegativePowerAssignment
    ensures r.Ok? ==> r.value.plant.plate == p.plate && r.value.plant.state == p.state
    ensures r.Ok? && p.state == Unavailable ==> r.value == Assignment(p, 0.0)
    ensures r.Ok? && p.state != Unavailable ==>
              r.value.plant.assignedOutput == Min(request, MaxPowerOutput(p))
              && r.value.plant.assignedOutput <= request
              && r.value.delta == (if r.value.plant.assignedOutput > p.assignedOutput
                                   then r.value.plant.assignedOutput - p.assignedOutput else 0.0)
    ensures r.Ok? ==> r.value.delta >= 0.0 && r.value.plant.assignedOutput <= p.assignedOutput + r.value.delta
    ensures r.Ok? && AttributesValid(p) && Bounded(p) ==> Bounded(r.value.plant)
  {
    if request < 0.0 then Err(NegativePowerAssignment)
    else if p.state == Unavailable then Ok(Assignment(p, 0.0))
    else
      var updated := p.(assignedOutput := Min(request, MaxPowerOutput(p)));
      var added := updated.assignedOutput - p.assignedOutput;
      Ok(Assignment(updated, if added > 0.0 then added else 0.0))
  }

  predicate InWindow(w: Window, t: int)
  {
    w.start <= SecondOfDay(t) <= w.end
  }

  /** Strictly after the blackout plus the restart duration. */
  predicate HasRestarted(p: Plant, blackout: int, t: int)
  {
    t > blackout + p.plate.restartMinutes * SecondsPerMinute
  }

  /** Whether the plant may leave UNAVAILABLE at instant t of a run that began
      with a blackout at the given instant. */
  predicate IsAvailable(p: Plant, blackout: int, t: int)
  {
    InWindow(p.plate.window, t) && HasRestarted(p, blackout, t)
  }

  /** At the exact instant blackout + restart the plant is still unavailable;
      one second later (inside its window) it is available. */
  lemma RestartBoundaryIsStrict(p: Plant, blackout: int)
    ensures !IsAvailable(p, blackout, blackout + p.plate.restartMinutes * SecondsPerMinute)
    ensures InWindow(p.plate.window, blackout + p.plate.restartMinutes * SecondsPerMinute + 1) ==>
              IsAvailable(p, blackout, blackout + p.plate.restartMinutes * SecondsPerMinute + 1)
  {
  }

  /** The engine's clock starts at the blackout truncated to whole minutes and
      advances a minute at a time; at its i-th tick a plant has restarted
      exactly when i exceeds its restart duration in minutes, whatever seconds
      the blackout instant carried. */
  lemma {:induction false} RestartedAtTick(p: Plant, blackout: int, i: int)
    ensures HasRestarted(p, blackout, TruncateToMinute(blackout) + i * SecondsPerMinute)
            <==> i > p.plate.restartMinutes
  {
    var t0 := TruncateToMinute(blackout);
    var s := blackout - t0;
    assert 0 <= s < SecondsPerMinute;
    var d := i - p.plate.restartMinutes;
    assert t0 + i * SecondsPerMinute - (blackout + p.plate.restartMinutes * SecondsPerMinute)
           == d * SecondsPerMinute - s;
    if d >= 1 {
      assert d * SecondsPerMinute >= SecondsPerMinute;
    } else {
      assert d * SecondsPerMinute <= 0;
    }
  }

  /** Character.isWhitespace: the space, line and paragraph separators other
      than the non-breaking ones, and the controls U+0009..U+000D, U+001C..U+001F. */
  predicate IsJavaWhitespace(c: char)
  {
    var n := c as int;
    || 9 <= n <= 13 || 28 <= n <= 32
    || n == 0x1680 || 0x2000 <= n <= 0x2006 || 0x2008 <= n <= 0x200A
    || n == 0x2028 || n == 0x2029 || n == 0x205F || n == 0x3000
  }

  /** String.isBlank: empty or whitespace only. */
  predicate IsBlank(s: string)
  {
    forall i :: 0 <= i < |s| ==> IsJavaWhitespace(s[i])
  }

  /** String.trim drops the characters up to U+0020 at both ends. */
  predicate IsTrimmable(c: char)
  {
    c <= ' '
  }

  /** The first index from st on that holds a character above U+0020, or
      |s| if none does. */
  function TrimStart(s: string, st: nat): (r: nat)
    requires st <= |s|
    ensures st <= r <= |s|
    ensures forall k :: st <= k < r ==> IsTrimmable(s[k])
    ensures r < |s| ==> !IsTrimmable(s[r])
    decreases |s| - st
  {
    if st < |s| && IsTrimmable(s[st]) then TrimStart(s, st + 1) else st
  }

  /** The end that remains when characters up to U+0020 are dropped from the
      back of s[st..len], never going below st. */
  function TrimEnd(s: string, st: nat, len: nat): (r: nat)
    requires st <= len <= |s|
    ensures st <= r <= len
    ensures forall k :: r <= k < len ==> IsTrimmable(s[k])
    ensures st < r ==> !IsTrimmable(s[r - 1])
  {
    if st < len && IsTrimmable(s[len - 1]) then TrimEnd(s, st, len - 1) else len
  }

  /** r is s[i..j], and all of s before i and from j on is trimmable. */
  predicate CutAt(s: string, r: string, i: nat, j: nat)
  {
    && i <= j <= |s| && r == s[i..j]
    && (forall k :: 0 <= k < i ==> IsTrimmable(s[k]))
    && (forall k :: j <= k < |s| ==> IsTrimmable(s[k]))
  }

  /** String.trim: the longest substring that neither starts nor ends with
      a character up to U+0020; everything cut off at either end is such a
      character. */
  function Trim(s: string): (r: string)
    ensures exists i: nat, j: nat :: CutAt(s, r, i, j)
    ensures r != [] ==> !IsTrimmable(r[0]) && !IsTrimmable(r[|r| - 1])
  {
    var st := TrimStart(s, 0);
    var len := TrimEnd(s, st, |s|);
    assert CutAt(s, s[st..len], st, len);
    s[st..len]
  }

  /** The arguments every plant constructor receives from its caller. */
  datatype Attributes = Attributes(
    name: string, latitude: real, longitude: real, city: string, capacity: real)

  /** The constants a family's class passes to its parent constructor. */
  datatype Profile = Profile(
    stability: real, restartMinutes: nat, window: Window, typeLabel: string)

  /** The base constructor's checks, in the order it makes them: name not
      empty, latitude and longitude in range, city not blank, capacity not
      negative, stability in [0, 1]. The first failing check decides. */
  function CheckAttributes(a: Attributes, stability: real): (r: Outcome)
    ensures r == Pass <==>
              && |a.name| > 0
              && -90.0 <= a.latitude <= 90.0
              && -180.0 <= a.longitude <= 180.0
              && !IsBlank(a.city)
              && 0.0 <= a.capacity
              && 0.0 <= stability <= 1.0
    ensures r == Fail(NameError) <==> |a.name| == 0
    ensures r == Fail(LatitudeError) <==>
              |a.name| > 0 && (a.latitude < -90.0 || a.latitude > 90.0)
    ensures r == Fail(LongitudeError) <==>
              && |a.name| > 0 && -90.0 <= a.latitude <= 90.0
              && (a.longitude < -180.0 || a.longitude > 180.0)
    ensures r == Fail(CityError) <==>
              && |a.name| > 0 && -90.0 <= a.latitude <= 90.0 && -180.0 <= a.longitude <= 180.0
              && IsBlank(a.city)
    ensures r == Fail(CapacityError) <==>
              && |a.name| > 0 && -90.0 <= a.latitude <= 90.0 && -180.0 <= a.longitude <= 180.0
              && !IsBlank(a.city) && a.capacity < 0.0
    ensures r == Fail(StabilityError) <==>
              && |a.name| > 0 && -90.0 <= a.latitude <= 90.0 && -180.0 <= a.longitude <= 180.0
              && !IsBlank(a.city) && 0.0 <= a.capacity && !(0.0 <= stability <= 1.0)
    ensures r.Fail? ==> r.error in {NameError, LatitudeError, LongitudeError, CityError,
                                    CapacityError, StabilityError}
  {
    if |a.name| == 0 then Fail(NameError)
    else if a.latitude < -90.0 || a.latitude > 90.0 then Fail(LatitudeError)
    else if a.longitude < -180.0 || a.longitude > 180.0 then Fail(LongitudeError)
    else if IsBlank(a.city) then Fail(CityError)
    else if a.capacity < 0.0 then Fail(CapacityError)
    else if !(0.0 <= stability <= 1.0) then Fail(StabilityError)
    else Pass
  }

  /** The outcome of a constructor call together with the id counter after it. */
  datatype Creation = Creation(result: Result<Plant>, nextId: nat)

  /** Constructs a plant of the given family. The base checks run first; only
      once they pass is the counter read as the id and advanced; a renewable's
      efficiency is checked after that, so an invalid efficiency fails the
      construction but still uses up an id. A new plant is unavailable with
      nothing assigned; the name is stored trimmed, the city as given. */
  function NewPlant(counter: nat, family: Family, profile: Profile, a: Attributes,
                    efficiency: real): (c: Creation)
    ensures var base := CheckAttributes(a, profile.stability);
            && c.nextId == (if base.Pass? then counter + 1 else counter)
            && (base.Fail? ==> c.result == Err(base.error))
            && (c.result.Ok? <==>
                  base.Pass? && (TierOf(family) == RenewableTier ==> 0.0 <= efficiency <= 1.0))
            && (base.Pass? && c.result.Err? ==> c.result.error == EfficiencyError)
    ensures c.result.Ok? ==>
              var p := c.result.value;
              && p.plate.id == counter && p.plate.family == family && p.plate.typeLabel == profile.typeLabel
              && p.plate.name == Trim(a.name) && p.plate.city == a.city
              && p.plate.latitude == a.latitude && p.plate.longitude == a.longitude
              && p.plate.capacity == a.capacity && p.plate.stability == profile.stability
              && p.plate.restartMinutes == profile.restartMinutes && p.plate.window == profile.window
              && p.plate.efficiency == (if TierOf(family) == RenewableTier then efficiency else 1.0)
              && p.state == Unavailable && p.assignedOutput == 0.0
              && WellFormed(p)
  {
    var base := CheckAttributes(a, profile.stability);
    if base.Fail? then Creation(Err(base.error), counter)
    else
      var renewable := TierOf(family) == RenewableTier;
      if renewable && (efficiency > 1.0 || efficiency < 0.0) then
        Creation(Err(EfficiencyError), counter + 1)
      else
        var plate := Nameplate(counter, family, profile.typeLabel, Trim(a.name), a.latitude,
                               a.longitude, a.city, a.capacity, if renewable then efficiency else 1.0,
                               profile.stability, profile.restartMinutes, profile.window);
        var p := Plant(plate, Unavailable, 0.0);
        Creation(Ok(p), counter + 1)
  }

  /** The name check only refuses the empty string: a name made of blanks
      passes it, and the plant is then stored with an empty name. */
  lemma BlankNameIsStoredEmpty(counter: nat, family: Family, profile: Profile, a: Attributes,
                               efficiency: real)
    requires |a.name| > 0 && forall i :: 0 <= i < |a.name| ==> IsTrimmable(a.name[i])
    ensures CheckAttributes(a, profile.stability) != Fail(NameError)
    ensures var c := NewPlant(counter, family, profile, a, efficiency);
            c.result.Ok? ==> c.result.value.plate.name == ""
  {
  }
}
