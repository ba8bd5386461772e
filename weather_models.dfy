/** The domain records produced by the parsers (immutable values), and the
    derived accessors on temperatures and forecasts. */
module WeatherModels {
  import opened Wrappers
  import opened Strings

  /** A `datetime`. Only the parsers and the query builders look inside it. */
  datatype DateTime = DateTime(
    year: int, month: int, day: int,
    hour: int, minute: int, second: int, microsecond: int,
    utcOffsetMinutes: Option<int>)

  datatype Coordinates = Coordinates(latitude: real, longitude: real)

  /** A `value` of `None` is a reading the service sent as `null`. */
  datatype Temperature = Temperature(value: Option<real>, unit: string)

  /** Forecast periods give a compass label ("SW"); observations give degrees,
      or `None` for a `null` reading. */
  datatype WindDirection = Compass(point: string) | Degrees(angle: Option<real>)

  datatype Wind = Wind(speed: Option<real>, direction: WindDirection, unit: string)

  datatype Precipitation = Precipitation(value: Option<real>, kind: Option<string>, unit: string)

  datatype WeatherCondition = WeatherCondition(description: string, icon: Option<string>)

  datatype ForecastPeriod = ForecastPeriod(
    name: string,
    startTime: DateTime,
    endTime: DateTime,
    temperature: Temperature,
    wind: Wind,
    shortForecast: string,
    detailedForecast: string,
    icon: Option<string>,
    precipitationProbability: Option<real>)

  /** `updated` is `None` where the source keeps the falsy raw value (usually ""). */
  datatype Forecast = Forecast(updated: Option<DateTime>, periods: seq<ForecastPeriod>)

  datatype Observation = Observation(
    station: string,
    timestamp: DateTime,
    temperature: Option<Temperature>,
    dewpoint: Option<Temperature>,
    relativeHumidity: Option<real>,
    wind: Option<Wind>,
    barometricPressure: Option<real>,
    visibility: Option<real>,
    textDescription: Option<string>,
    precipitationLastHour: Option<Precipitation>)

  datatype Alert = Alert(
    id: string,
    event: string,
    headline: Option<string>,
    description: string,
    instruction: Option<string>,
    severity: string,
    certainty: string,
    urgency: string,
    sent: DateTime,
    effective: DateTime,
    onset: Option<DateTime>,
    expires: DateTime,
    ends: Option<DateTime>,
    status: string,
    messageType: string,
    category: string,
    responseType: string,
    affectedZones: seq<string>,
    affectedCounties: seq<string>)

  // ---------------------------------------------------------------------------
  // Temperature.celsius / Temperature.fahrenheit
  // ---------------------------------------------------------------------------

  /** The comparison `unit.lower() == u`. */
  predicate UnitIs(t: Temperature, u: string) {
    Lower(t.unit) == u
  }

  /** Exactly the two spellings "F" and "f" are taken for Fahrenheit (and "C",
      "c" for Celsius); for a one-letter lower-case target, `lower()` accepts
      the letter and its capital and nothing else. */
  lemma UnitIsLetter(t: Temperature, lo: char, up: char)
    requires 'a' <= lo <= 'z' && up as int == lo as int - 32
    ensures UnitIs(t, [lo]) <==> t.unit == [lo] || t.unit == [up]
  {
    if UnitIs(t, [lo]) {
      assert |t.unit| == 1;
      assert LowerChar(t.unit[0]) == lo;
      assert t.unit == [t.unit[0]];
    }
    if t.unit == [up] {
      assert Lower(t.unit)[0] == LowerChar(up);
    }
  }

  /** The value in Celsius: converted when the stored unit is Fahrenheit, the
      stored value (possibly `None`) otherwise; the record itself is never
      changed. Converting a `None` Fahrenheit value raises in the source, so
      callers must not. */
  function Celsius(t: Temperature): (c: Option<real>)
    requires t.value.Some? || !UnitIs(t, "f")
    ensures UnitIs(t, "f") ==> c.Some? && c.value * 9.0 / 5.0 + 32.0 == t.value.value
    ensures !UnitIs(t, "f") ==> c == t.value
  {
    if UnitIs(t, "f") then Some((t.value.value - 32.0) * 5.0 / 9.0) else t.value
  }

  /** The value in Fahrenheit: converted when the stored unit is Celsius. */
  function Fahrenheit(t: Temperature): (f: Option<real>)
    requires t.value.Some? || !UnitIs(t, "c")
    ensures UnitIs(t, "c") ==> f.Some? && (f.value - 32.0) * 5.0 / 9.0 == t.value.value
    ensures !UnitIs(t, "c") ==> f == t.value
  {
    if UnitIs(t, "c") then Some(t.value.value * 9.0 / 5.0 + 32.0) else t.value
  }

  /** Converting either way and back yields the original value, a value in
      any other unit (or a missing one) is returned as is, and a conversion
      has a value exactly when the record has one. */
  lemma ConversionsAreInverse(v: real, unit: string, value: Option<real>)
    ensures Fahrenheit(Temperature(Celsius(Temperature(Some(v), "F")), "C")) == Some(v)
    ensures Celsius(Temperature(Fahrenheit(Temperature(Some(v), "C")), "F")) == Some(v)
    ensures !UnitIs(Temperature(value, unit), "f") ==> Celsius(Temperature(value, unit)) == value
    ensures !UnitIs(Temperature(value, unit), "c") ==> Fahrenheit(Temperature(value, unit)) == value
    ensures Celsius(Temperature(Some(v), unit)).Some? && Fahrenheit(Temperature(Some(v), unit)).Some?
  {
    assert Lower("F") == "f" && Lower("C") == "c";
  }

  /** The fixed points of the two scales used by the unit tests, over exact reals. */
  lemma ConversionExamples()
    ensures Celsius(Temperature(Some(32.0), "F")) == Some(0.0)
    ensures Celsius(Temperature(Some(68.0), "F")) == Some(20.0)
    ensures Celsius(Temperature(Some(25.0), "C")) == Some(25.0)
    ensures Fahrenheit(Temperature(Some(0.0), "C")) == Some(32.0)
    ensures Fahrenheit(Temperature(Some(20.0), "C")) == Some(68.0)
    ensures Fahrenheit(Temperature(Some(75.0), "F")) == Some(75.0)
  {
    assert Lower("F") == "f" && Lower("C") == "c";
  }

  // ---------------------------------------------------------------------------
  // Forecast.today / Forecast.tonight
  // ---------------------------------------------------------------------------

  /** `"night" in name.lower()`. */
  predicate IsNightName(name: string): (b: bool)
    ensures b <==> exists i :: OccursAt(Lower(name), "night", i)
  {
    ContainsSubIff(Lower(name), "night");
    ContainsSub(Lower(name), "night")
  }

  /** `today`: the first period, absent for an empty forecast. */
  function Today(f: Forecast): (r: Option<ForecastPeriod>)
    ensures r.None? <==> f.periods == []
    ensures r.Some? ==> r.value == f.periods[0]
  {
    if |f.periods| > 0 then Some(f.periods[0]) else None
  }

  /** Position of the first period whose name contains "night", case-insensitively. */
  function FirstNightIndex(ps: seq<ForecastPeriod>): (r: Option<nat>)
    ensures r.None? <==> forall i :: 0 <= i < |ps| ==> !IsNightName(ps[i].name)
    ensures r.Some? ==> r.value < |ps| && IsNightName(ps[r.value].name)
    ensures r.Some? ==> forall j :: 0 <= j < r.value ==> !IsNightName(ps[j].name)
  {
    if ps == [] then None
    else if IsNightName(ps[0].name) then Some(0)
    else match FirstNightIndex(ps[1..])
      case None => None
      case Some(k) => Some(k + 1)
  }

  /** `tonight`: the first period whose name contains "night" in any letter
      case, absent when no period does. */
  function Tonight(f: Forecast): (r: Option<ForecastPeriod>)
    ensures r.None? <==> forall i :: 0 <= i < |f.periods| ==> !IsNightName(f.periods[i].name)
    ensures r.Some? ==> exists i :: 0 <= i < |f.periods| && f.periods[i] == r.value
                          && IsNightName(r.value.name)
                          && forall j :: 0 <= j < i ==> !IsNightName(f.periods[j].name)
  {
    match FirstNightIndex(f.periods)
    case None => None
    case Some(k) => Some(f.periods[k])
  }

  /** A name containing "night" after `lower()` at position `i` is a night name. */
  lemma NightAt(name: string, i: nat)
    requires i + 5 <= |name| && Lower(name)[i..i + 5] == "night"
    ensures IsNightName(name)
  {
    ContainsSubIff(Lower(name), "night");
    assert OccursAt(Lower(name), "night", i);
  }

  /** The period names of the unit tests: "Tonight" is a night period,
      "Today" is not. */
  lemma NightNameExamples()
    ensures IsNightName("Tonight")
    ensures !IsNightName("Today")
  {
    var night := Lower("Tonight");
    assert night[2..7] == [LowerChar('n'), LowerChar('i'), LowerChar('g'), LowerChar('h'), LowerChar('t')];
    NightAt("Tonight", 2);
    var day := Lower("Today");
    assert day[4] == LowerChar('y') == 'y';
    ContainsSubIff(day, "night");
    assert forall i :: OccursAt(day, "night", i) ==> i == 0 && day[4] == 't';
  }

  /** Periods named "Today" and "Tonight": `today` is the first, `tonight` the
      second; an empty forecast has neither. */
  lemma TodayTonightExample(day: ForecastPeriod, night: ForecastPeriod, updated: Option<DateTime>)
    requires day.name == "Today" && night.name == "Tonight"
    ensures Today(Forecast(updated, [day, night])) == Some(day)
    ensures Tonight(Forecast(updated, [day, night])) == Some(night)
    ensures Today(Forecast(updated, [])).None? && Tonight(Forecast(updated, [])).None?
  {
    NightNameExamples();
    var ps := [day, night];
    assert ps[1..] == [night];
    assert FirstNightIndex([night]) == Some(0);
    assert FirstNightIndex(ps) == Some(1);
  }
}
