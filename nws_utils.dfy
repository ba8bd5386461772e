/** The response parsers: decoded JSON documents of the weather service turned
    into the domain records of WeatherModels. Each `.get(key, default)` chain of
    the source becomes an explicit access with its default; each exception the
    source would raise on a malformed document becomes a `Failure`. */
module NwsUtils {
  import opened Wrappers
  import opened Strings
  import opened JsonValues
  import opened WeatherModels

  /** Why a document does not parse. */
  datatype ParseError =
    | NotAnObject(field: string)   // `.get` on something that is not a dict
    | NotAString(field: string)    // `.replace` / `.split` on something that is not a str
    | NotANumber(field: string)    // a numeric record field holding another kind of value
    | NotAnArray(field: string)    // a `for` over something that is not a list
    | BadTimestamp(field: string)  // `datetime.fromisoformat` rejects the text
    | NoDigits(field: string)      // `int("")` after filtering the digits

  type Parsed<T> = Result<T, ParseError>

  /** `datetime.fromisoformat`, left abstract: any partial function from text to
      a date and time. */
  type IsoParser = string -> Option<DateTime>

  // ---------------------------------------------------------------------------
  // Typed access to decoded values
  // ---------------------------------------------------------------------------

  function AsObject(j: Json, field: string): (r: Parsed<map<string, Json>>)
    ensures r.Success? <==> j.JObj?
    ensures r.Success? ==> j == JObj(r.value)
  {
    if j.JObj? then Success(j.fields) else Failure(NotAnObject(field))
  }

  function AsString(j: Json, field: string): (r: Parsed<string>)
    ensures r.Success? <==> j.JStr?
    ensures r.Success? ==> j == JStr(r.value)
  {
    if j.JStr? then Success(j.s) else Failure(NotAString(field))
  }

  function AsNumber(j: Json, field: string): (r: Parsed<real>)
    ensures r.Success? <==> j.JNum?
    ensures r.Success? ==> j == JNum(r.value)
  {
    if j.JNum? then Success(j.n) else Failure(NotANumber(field))
  }

  function AsArray(j: Json, field: string): (r: Parsed<seq<Json>>)
    ensures r.Success? <==> j.JArr?
    ensures r.Success? ==> j == JArr(r.value)
  {
    if j.JArr? then Success(j.items) else Failure(NotAnArray(field))
  }

  /** An optional text field: JSON `null` is `None`. */
  function AsOptString(j: Json, field: string): (r: Parsed<Option<string>>)
    ensures r.Success? <==> j.JNull? || j.JStr?
    ensures r == Success(None) <==> j.JNull?
    ensures r.Success? && r.value.Some? ==> j == JStr(r.value.value)
  {
    match j
    case JNull => Success(None)
    case JStr(s) => Success(Some(s))
    case _ => Failure(NotAString(field))
  }

  /** An optional numeric field: JSON `null` is `None`. */
  function AsOptNumber(j: Json, field: string): (r: Parsed<Option<real>>)
    ensures r.Success? <==> j.JNull? || j.JNum?
    ensures r == Success(None) <==> j.JNull?
    ensures r.Success? && r.value.Some? ==> j == JNum(r.value.value)
  {
    match j
    case JNull => Success(None)
    case JNum(n) => Success(Some(n))
    case _ => Failure(NotANumber(field))
  }

  /** `d.get(key, {}).get("value")`: the nested value, absent when the group or
      its value is missing or null. */
  function NestedValue(d: map<string, Json>, key: string): (r: Parsed<Option<real>>)
    ensures key !in d ==> r == Success(None)
    ensures r == Success(None) <==>
              key !in d || (d[key].JObj? && Get(d[key].fields, "value", JNull).JNull?)
    ensures r.Success? && r.value.Some? ==>
              key in d && d[key].JObj? && d[key].fields["value"] == JNum(r.value.value)
  {
    var group :- AsObject(Get(d, key, JObj(map[])), key);
    AsOptNumber(Get(group, "value", JNull), key)
  }

  /** `group.get("unitCode", default).split(":")[-1]`. */
  function UnitOf(group: map<string, Json>, default: string, field: string): (r: Parsed<string>)
    ensures r.Success? <==> Get(group, "unitCode", JStr(default)).JStr?
    ensures r.Success? ==> ':' !in r.value
    ensures r.Success? ==> var code := Get(group, "unitCode", JStr(default)).s;
              |r.value| <= |code| && code[|code| - |r.value|..] == r.value
  {
    var code :- AsString(Get(group, "unitCode", JStr(default)), field);
    Success(LastSegment(code, ':'))
  }

  /** `datetime.fromisoformat(text.replace("Z", "+00:00"))`; the empty string is
      never a valid timestamp. */
  function ParseTimestamp(text: string, field: string, iso: IsoParser): (r: Parsed<DateTime>)
    ensures r.Success? <==> text != "" && iso(ReplaceAll(text, "Z", "+00:00")).Some?
    ensures r.Success? ==> iso(ReplaceAll(text, "Z", "+00:00")) == Some(r.value)
    ensures r.Failure? ==> r.error == BadTimestamp(field)
  {
    if text == "" then Failure(BadTimestamp(field))
    else match iso(ReplaceAll(text, "Z", "+00:00"))
      case None => Failure(BadTimestamp(field))
      case Some(t) => Success(t)
  }

  /** `int(''.join(filter(str.isdigit, text)))`. */
  function WindSpeed(text: string): (r: Parsed<nat>)
    ensures r.Failure? <==> forall i :: 0 <= i < |text| ==> !IsDigit(text[i])
  {
    DigitsEmptyIff(text);
    var ds := Digits(text);
    if ds == [] then Failure(NoDigits("windSpeed")) else Success(DecimalValue(ds))
  }

  /** The concatenation of every digit: a speed written as a number and a
      digit-free suffix reads back as that number ("15 mph" is 15). */
  lemma WindSpeedOfNumber(n: nat, suffix: string)
    requires forall i :: 0 <= i < |suffix| ==> !IsDigit(suffix[i])
    ensures WindSpeed(NatToString(n) + suffix) == Success(n)
  {
    DigitsAppend(NatToString(n), suffix);
    DigitsOfDigitString(NatToString(n));
    DigitsOfDigitFree(suffix);
    assert Digits(NatToString(n) + suffix) == NatToString(n);
    NatToStringRoundTrip(n);
  }

  /** A range "lo to hi mph" reads as the digits of `lo` followed by those of
      `hi`, not as the first number: "10 to 15 mph" gives 1015. */
  lemma WindSpeedRange(lo: nat, hi: nat)
    ensures WindSpeed(NatToString(lo) + " to " + NatToString(hi) + " mph")
            == Success(lo * Pow10(|NatToString(hi)|) + hi)
  {
    var a, b := NatToString(lo), NatToString(hi);
    DigitsOfJoin(a, " to ", b, " mph");
    DecimalValueAppend(a, b);
    NatToStringRoundTrip(lo);
    NatToStringRoundTrip(hi);
  }

  /** The default "0 mph" is speed 0, and a text without digits does not parse. */
  lemma WindSpeedExamples()
    ensures WindSpeed("0 mph") == Success(0)
    ensures WindSpeed("10 mph") == Success(10)
    ensures WindSpeed("calm").Failure?
  {
    NatToStringExamples();
    WindSpeedOfNumber(0, " mph");
    assert "0" + " mph" == "0 mph";
    WindSpeedOfNumber(10, " mph");
    assert "10" + " mph" == "10 mph";
  }

  /** The range of the forecast documents: "10 to 15 mph" reads as 1015. */
  lemma WindSpeedRangeExample()
    ensures WindSpeed("10 to 15 mph") == Success(1015)
  {
    NatToStringExamples();
    WindSpeedRange(10, 15);
    assert "10" + " to " + "15" + " mph" == "10 to 15 mph";
    assert Pow10(2) == 100;
  }

  // ---------------------------------------------------------------------------
  // parse_forecast
  // ---------------------------------------------------------------------------

  /** `startTime` and `endTime` of a period, read and parsed in that order. */
  function PeriodTimes(o: map<string, Json>, iso: IsoParser): (r: Parsed<(DateTime, DateTime)>)
    ensures r.Success? ==>
              Get(o, "startTime", JStr("")).JStr? &&
              ParseTimestamp(Get(o, "startTime", JStr("")).s, "startTime", iso) == Success(r.value.0) &&
              Get(o, "endTime", JStr("")).JStr? &&
              ParseTimestamp(Get(o, "endTime", JStr("")).s, "endTime", iso) == Success(r.value.1)
  {
    var startText :- AsString(Get(o, "startTime", JStr("")), "startTime");
    var start :- ParseTimestamp(startText, "startTime", iso);
    var endText :- AsString(Get(o, "endTime", JStr("")), "endTime");
    var end :- ParseTimestamp(endText, "endTime", iso);
    Success((start, end))
  }

  /** `temperature` (default 0, `None` when `null`) and `temperatureUnit`
      (default "F"). */
  function PeriodTemperature(o: map<string, Json>): (r: Parsed<Temperature>)
    ensures r.Success? <==>
              (Get(o, "temperature", JNum(0.0)).JNum? || Get(o, "temperature", JNum(0.0)).JNull?) &&
              Get(o, "temperatureUnit", JStr("F")).JStr?
    ensures r.Success? ==>
              AsOptNumber(Get(o, "temperature", JNum(0.0)), "temperature") == Success(r.value.value) &&
              Get(o, "temperatureUnit", JStr("F")) == JStr(r.value.unit)
  {
    var temperature :- AsOptNumber(Get(o, "temperature", JNum(0.0)), "temperature");
    var unit :- AsString(Get(o, "temperatureUnit", JStr("F")), "temperatureUnit");
    Success(Temperature(temperature, unit))
  }

  /** `windDirection` (default "") and `windSpeed` (default "0 mph"), always
      in "mph". */
  function PeriodWind(o: map<string, Json>): (r: Parsed<Wind>)
    ensures r.Success? <==>
              Get(o, "windDirection", JStr("")).JStr? && Get(o, "windSpeed", JStr("0 mph")).JStr? &&
              WindSpeed(Get(o, "windSpeed", JStr("0 mph")).s).Success?
    ensures r.Success? ==>
              r.value.unit == "mph" &&
              r.value.direction == Compass(Get(o, "windDirection", JStr("")).s) &&
              r.value.speed == Some(WindSpeed(Get(o, "windSpeed", JStr("0 mph")).s).value as real)
  {
    var direction :- AsString(Get(o, "windDirection", JStr("")), "windDirection");
    var speedText :- AsString(Get(o, "windSpeed", JStr("0 mph")), "windSpeed");
    var speed :- WindSpeed(speedText);
    Success(Wind(Some(speed as real), Compass(direction), "mph"))
  }

  /** `name`, `shortForecast` and `detailedForecast`, each defaulting to "". */
  function PeriodTexts(o: map<string, Json>): (r: Parsed<(string, string, string)>)
    ensures r.Success? <==>
              Get(o, "name", JStr("")).JStr? && Get(o, "shortForecast", JStr("")).JStr? &&
              Get(o, "detailedForecast", JStr("")).JStr?
    ensures r.Success? ==>
              Get(o, "name", JStr("")) == JStr(r.value.0) &&
              Get(o, "shortForecast", JStr("")) == JStr(r.value.1) &&
              Get(o, "detailedForecast", JStr("")) == JStr(r.value.2)
  {
    var name :- AsString(Get(o, "name", JStr("")), "name");
    var short :- AsString(Get(o, "shortForecast", JStr("")), "shortForecast");
    var detailed :- AsString(Get(o, "detailedForecast", JStr("")), "detailedForecast");
    Success((name, short, detailed))
  }

  /** One element of `properties.periods`: its fields read in the source's
      order, the first malformed one deciding the error. */
  function ParsePeriod(raw: Json, iso: IsoParser): (r: Parsed<ForecastPeriod>)
    ensures !raw.JObj? ==> r == Failure(NotAnObject("period"))
    ensures r.Success? ==> r.value.wind.unit == "mph" && r.value.wind.direction.Compass?
  {
    var o :- AsObject(raw, "period");
    var times :- PeriodTimes(o, iso);
    var temperature :- PeriodTemperature(o);
    var wind :- PeriodWind(o);
    var texts :- PeriodTexts(o);
    var icon :- AsOptString(Get(o, "icon", JNull), "icon");
    var pop :- NestedValue(o, "probabilityOfPrecipitation");
    Success(ForecastPeriod(texts.0, times.0, times.1, temperature, wind, texts.1, texts.2, icon, pop))
  }

  /** `ParsePeriod` as a function value, for `MapResult`. */
  function PeriodParser(iso: IsoParser): (f: Json -> Parsed<ForecastPeriod>)
    ensures forall j :: f(j) == ParsePeriod(j, iso)
  {
    (j: Json) => ParsePeriod(j, iso)
  }

  /** `properties.get("updated", "")`: parsed when truthy, otherwise absent. */
  function UpdatedOf(props: map<string, Json>, iso: IsoParser): (r: Parsed<Option<DateTime>>)
    ensures r == Success(None) <==> !Truthy(Get(props, "updated", JStr("")))
    ensures r.Success? && r.value.Some? ==>
              props["updated"].JStr? && ParseTimestamp(props["updated"].s, "updated", iso) == Success(r.value.value)
  {
    var raw := Get(props, "updated", JStr(""));
    if !Truthy(raw) then Success(None)
    else
      var text :- AsString(raw, "updated");
      var t :- ParseTimestamp(text, "updated", iso);
      Success(Some(t))
  }

  /** What `parse_forecast` computes. */
  function ForecastOf(raw: Json, iso: IsoParser): (r: Parsed<Forecast>)
    ensures !raw.JObj? ==> r == Failure(NotAnObject("forecast"))
    ensures raw.JObj? && !Get(raw.fields, "properties", JObj(map[])).JObj? ==>
              r == Failure(NotAnObject("properties"))
  {
    var root :- AsObject(raw, "forecast");
    var props :- AsObject(Get(root, "properties", JObj(map[])), "properties");
    var updated :- UpdatedOf(props, iso);
    var raws :- AsArray(Get(props, "periods", JArr([])), "periods");
    var periods :- MapResult(raws, PeriodParser(iso));
    Success(Forecast(updated, periods))
  }

  /** `parse_forecast`: builds the period list one element at a time. */
  method ParseForecast(raw: Json, iso: IsoParser) returns (r: Parsed<Forecast>)
    ensures r == ForecastOf(raw, iso)
  {
    var root :- AsObject(raw, "forecast");
    var props :- AsObject(Get(root, "properties", JObj(map[])), "properties");
    var updated :- UpdatedOf(props, iso);
    var raws :- AsArray(Get(props, "periods", JArr([])), "periods");
    var periods :- CollectResults(raws, PeriodParser(iso));
    return Success(Forecast(updated, periods));
  }

  /** One period per element of `properties.periods`, in the same order, each
      the parse of that element. */
  lemma ForecastPeriodsInOrder(raw: Json, iso: IsoParser, props: map<string, Json>, f: Forecast)
    requires ForecastOf(raw, iso) == Success(f)
    requires raw.JObj? && Get(raw.fields, "properties", JObj(map[])) == JObj(props)
    ensures Get(props, "periods", JArr([])).JArr?
    ensures var raws := Get(props, "periods", JArr([])).items;
            |f.periods| == |raws| &&
            forall i :: 0 <= i < |raws| ==> ParsePeriod(raws[i], iso) == Success(f.periods[i])
  {
    var raws := Get(props, "periods", JArr([])).items;
    assert MapResult(raws, PeriodParser(iso)) == Success(f.periods);
  }

  /** The first element of `periods` that does not parse makes the whole
      forecast fail with its error. */
  lemma ForecastFailsAtFirstBadPeriod(raw: Json, iso: IsoParser, props: map<string, Json>, i: nat)
    requires raw.JObj? && Get(raw.fields, "properties", JObj(map[])) == JObj(props)
    requires UpdatedOf(props, iso).Success?
    requires Get(props, "periods", JArr([])).JArr?
    requires var raws := Get(props, "periods", JArr([])).items;
             i < |raws| && (forall j :: 0 <= j < i ==> ParsePeriod(raws[j], iso).Success?) &&
             ParsePeriod(raws[i], iso).Failure?
    ensures ForecastOf(raw, iso) == Failure(ParsePeriod(Get(props, "periods", JArr([])).items[i], iso).error)
  {
    var raws := Get(props, "periods", JArr([])).items;
    assert forall j :: 0 <= j < i ==> raws[..i][j] == raws[j];
    MapResultFirstFailure(raws, i, PeriodParser(iso));
  }

  /** A document without `properties`, or whose properties lack `periods` and
      `updated`, is an empty forecast with no update time. */
  lemma ForecastDefaults(iso: IsoParser)
    ensures ForecastOf(JObj(map[]), iso) == Success(Forecast(None, []))
    ensures ForecastOf(JObj(map["properties" := JObj(map[])]), iso) == Success(Forecast(None, []))
    ensures ForecastOf(JObj(map["properties" := JObj(map["updated" := JStr("")])]), iso)
            == Success(Forecast(None, []))
  {
  }

  /** A parsed period holds, field by field, what its keys hold (or their
      defaults). */
  lemma PeriodFieldsOf(o: map<string, Json>, iso: IsoParser, p: ForecastPeriod)
    requires ParsePeriod(JObj(o), iso) == Success(p)
    ensures PeriodTimes(o, iso) == Success((p.startTime, p.endTime))
    ensures PeriodTemperature(o) == Success(p.temperature)
    ensures PeriodWind(o) == Success(p.wind)
    ensures PeriodTexts(o) == Success((p.name, p.shortForecast, p.detailedForecast))
    ensures AsOptString(Get(o, "icon", JNull), "icon") == Success(p.icon)
    ensures NestedValue(o, "probabilityOfPrecipitation") == Success(p.precipitationProbability)
  {
    assert AsObject(JObj(o), "period") == Success(o);
    var times, temperature, wind, texts := PeriodTimes(o, iso), PeriodTemperature(o), PeriodWind(o), PeriodTexts(o);
    var icon, pop := AsOptString(Get(o, "icon", JNull), "icon"), NestedValue(o, "probabilityOfPrecipitation");
    assert times.Success? && temperature.Success? && wind.Success? && texts.Success? && icon.Success? && pop.Success?;
    assert p == ForecastPeriod(texts.value.0, times.value.0, times.value.1, temperature.value, wind.value,
                               texts.value.1, texts.value.2, icon.value, pop.value);
  }

  /** The defaults of a forecast period: temperature 0 in "F", wind from
      "0 mph", no precipitation probability, and a wind always in "mph" with a
      compass direction. */
  lemma PeriodDefaults(o: map<string, Json>, iso: IsoParser, p: ForecastPeriod)
    requires ParsePeriod(JObj(o), iso) == Success(p)
    ensures "temperature" !in o ==> p.temperature.value == Some(0.0)
    ensures "temperatureUnit" !in o ==> p.temperature.unit == "F"
    ensures "windSpeed" !in o ==> p.wind.speed == Some(0.0)
    ensures "windDirection" !in o ==> p.wind.direction == Compass("")
    ensures "name" !in o ==> p.name == ""
    ensures "icon" !in o ==> p.icon.None?
    ensures "probabilityOfPrecipitation" !in o ==> p.precipitationProbability.None?
    ensures p.precipitationProbability.Some? ==> "probabilityOfPrecipitation" in o
    ensures p.wind.unit == "mph"
  {
    PeriodFieldsOf(o, iso, p);
    if "windSpeed" !in o {
      assert NatToString(0) == "0";
      WindSpeedOfNumber(0, " mph");
      assert "0" + " mph" == "0 mph";
    }
  }

  /** A period object parses exactly when every field has the expected kind
      and both timestamps and the wind speed parse; the period then holds
      those values. */
  lemma PeriodFromFields(
    o: map<string, Json>, iso: IsoParser, startText: string, endText: string,
    start: DateTime, end: DateTime, temperature: Option<real>, unit: string, direction: string,
    speedText: string, name: string, short: string, detailed: string,
    icon: Option<string>, pop: Option<real>)
    requires Get(o, "startTime", JStr("")) == JStr(startText)
    requires ParseTimestamp(startText, "startTime", iso) == Success(start)
    requires Get(o, "endTime", JStr("")) == JStr(endText)
    requires ParseTimestamp(endText, "endTime", iso) == Success(end)
    requires Get(o, "temperature", JNum(0.0)) == if temperature.Some? then JNum(temperature.value) else JNull
    requires Get(o, "temperatureUnit", JStr("F")) == JStr(unit)
    requires Get(o, "windDirection", JStr("")) == JStr(direction)
    requires Get(o, "windSpeed", JStr("0 mph")) == JStr(speedText)
    requires WindSpeed(speedText).Success?
    requires Get(o, "name", JStr("")) == JStr(name)
    requires Get(o, "shortForecast", JStr("")) == JStr(short)
    requires Get(o, "detailedForecast", JStr("")) == JStr(detailed)
    requires Get(o, "icon", JNull) == if icon.Some? then JStr(icon.value) else JNull
    requires NestedValue(o, "probabilityOfPrecipitation") == Success(pop)
    ensures ParsePeriod(JObj(o), iso) == Success(ForecastPeriod(
              name, start, end, Temperature(temperature, unit),
              Wind(Some(WindSpeed(speedText).value as real), Compass(direction), "mph"),
              short, detailed, icon, pop))
  {
  }

  /** An example forecast period, with its two
      timestamps left as parameters. */
  function ExamplePeriod(startText: string, endText: string): (j: Json)
    ensures j.JObj? && "temperature" in j.fields && "windSpeed" in j.fields
  {
    JObj(map[
      "startTime" := JStr(startText), "endTime" := JStr(endText),
      "temperature" := JNum(75.0), "temperatureUnit" := JStr("F"),
      "windSpeed" := JStr("10 mph"), "windDirection" := JStr("S")])
  }

  /** The fields of that period as `.get` reads them. */
  lemma ExamplePeriodFields(startText: string, endText: string)
    ensures var o := ExamplePeriod(startText, endText).fields;
            Get(o, "startTime", JStr("")) == JStr(startText) &&
            Get(o, "endTime", JStr("")) == JStr(endText) &&
            Get(o, "temperature", JNum(0.0)) == JNum(75.0) &&
            Get(o, "temperatureUnit", JStr("F")) == JStr("F") &&
            Get(o, "windDirection", JStr("")) == JStr("S") &&
            Get(o, "windSpeed", JStr("0 mph")) == JStr("10 mph") &&
            Get(o, "name", JStr("")) == JStr("") &&
            Get(o, "shortForecast", JStr("")) == JStr("") &&
            Get(o, "detailedForecast", JStr("")) == JStr("") &&
            Get(o, "icon", JNull) == JNull &&
            NestedValue(o, "probabilityOfPrecipitation") == Success(None)
  {
  }

  /** That period parses to temperature 75 in "F" and a wind of 10 mph from
      the south, with every other field at its default. */
  lemma ExamplePeriodParses(iso: IsoParser, startText: string, endText: string, start: DateTime, end: DateTime)
    requires startText != "" && 'Z' !in startText && iso(startText) == Some(start)
    requires endText != "" && 'Z' !in endText && iso(endText) == Some(end)
    ensures ParsePeriod(ExamplePeriod(startText, endText), iso) == Success(ForecastPeriod(
              "", start, end, Temperature(Some(75.0), "F"), Wind(Some(10.0), Compass("S"), "mph"),
              "", "", None, None))
  {
    AbsentChar(startText, 'Z');
    ReplaceAbsent(startText, "Z", "+00:00");
    AbsentChar(endText, 'Z');
    ReplaceAbsent(endText, "Z", "+00:00");
    assert WindSpeed("10 mph") == Success(10) by {
      assert NatToString(10) == "10";
      WindSpeedOfNumber(10, " mph");
      assert "10" + " mph" == "10 mph";
    }
    ExamplePeriodFields(startText, endText);
    PeriodFromFields(ExamplePeriod(startText, endText).fields, iso, startText, endText, start, end,
                     Some(75.0), "F", "S", "10 mph", "", "", "", None, None);
  }

  /** A forecast round trip: a document holding just that
      period yields exactly that one parsed period. */
  lemma OnePeriodForecast(iso: IsoParser, startText: string, endText: string, start: DateTime, end: DateTime)
    requires startText != "" && 'Z' !in startText && iso(startText) == Some(start)
    requires endText != "" && 'Z' !in endText && iso(endText) == Some(end)
    ensures var doc := JObj(map["properties" := JObj(map["periods" := JArr([ExamplePeriod(startText, endText)])])]);
            ForecastOf(doc, iso) == Success(Forecast(None, [ForecastPeriod(
              "", start, end, Temperature(Some(75.0), "F"), Wind(Some(10.0), Compass("S"), "mph"),
              "", "", None, None)]))
  {
    var period := ExamplePeriod(startText, endText);
    var parsed := ForecastPeriod(
      "", start, end, Temperature(Some(75.0), "F"), Wind(Some(10.0), Compass("S"), "mph"), "", "", None, None);
    ExamplePeriodParses(iso, startText, endText, start, end);
    var props := map["periods" := JArr([period])];
    assert UpdatedOf(props, iso) == Success(None);
    MapResultSingleton(period, PeriodParser(iso));
  }

  // ---------------------------------------------------------------------------
  // parse_observation
  // ---------------------------------------------------------------------------

  /** `properties.get("timestamp", "")`: parsed when truthy, otherwise `now`. */
  function TimestampOr(props: map<string, Json>, iso: IsoParser, now: DateTime): (r: Parsed<DateTime>)
    ensures !Truthy(Get(props, "timestamp", JStr(""))) ==> r == Success(now)
    ensures Truthy(Get(props, "timestamp", JStr(""))) && r.Success? ==>
              props["timestamp"].JStr? && ParseTimestamp(props["timestamp"].s, "timestamp", iso) == r
  {
    var raw := Get(props, "timestamp", JStr(""));
    if !Truthy(raw) then Success(now)
    else
      var text :- AsString(raw, "timestamp");
      ParseTimestamp(text, "timestamp", iso)
  }

  /** A temperature-like group (`temperature`, `dewpoint`): present exactly
      when the key is, even when its `value` is `null`. */
  function MeasuredTemperature(props: map<string, Json>, key: string): (r: Parsed<Option<Temperature>>)
    ensures r == Success(None) <==> key !in props
    ensures key in props ==>
              (r.Success? <==> props[key].JObj? &&
                               AsOptNumber(Get(props[key].fields, "value", JNum(0.0)), key).Success? &&
                               UnitOf(props[key].fields, "wmoUnit:degC", key).Success?)
    ensures r.Success? && r.value.Some? ==>
              props[key].JObj? &&
              AsOptNumber(Get(props[key].fields, "value", JNum(0.0)), key) == Success(r.value.value.value) &&
              UnitOf(props[key].fields, "wmoUnit:degC", key) == Success(r.value.value.unit)
  {
    if key !in props then Success(None)
    else
      var group :- AsObject(props[key], key);
      var value :- AsOptNumber(Get(group, "value", JNum(0.0)), key);
      var unit :- UnitOf(group, "wmoUnit:degC", key);
      Success(Some(Temperature(value, unit)))
  }

  /** Wind: present only when both `windSpeed` and `windDirection` are, even
      when either `value` is `null`. */
  function MeasuredWind(props: map<string, Json>): (r: Parsed<Option<Wind>>)
    ensures r == Success(None) <==> "windSpeed" !in props || "windDirection" !in props
    ensures "windSpeed" in props && "windDirection" in props ==>
              (r.Success? <==> props["windSpeed"].JObj? && props["windDirection"].JObj? &&
                               AsOptNumber(Get(props["windSpeed"].fields, "value", JNum(0.0)), "windSpeed").Success? &&
                               AsOptNumber(Get(props["windDirection"].fields, "value", JNum(0.0)), "windDirection").Success? &&
                               UnitOf(props["windSpeed"].fields, "wmoUnit:km_h-1", "windSpeed").Success?)
    ensures r.Success? && r.value.Some? ==>
              props["windSpeed"].JObj? && props["windDirection"].JObj? &&
              AsOptNumber(Get(props["windSpeed"].fields, "value", JNum(0.0)), "windSpeed") == Success(r.value.value.speed) &&
              r.value.value.direction.Degrees? &&
              AsOptNumber(Get(props["windDirection"].fields, "value", JNum(0.0)), "windDirection")
                == Success(r.value.value.direction.angle) &&
              UnitOf(props["windSpeed"].fields, "wmoUnit:km_h-1", "windSpeed") == Success(r.value.value.unit)
  {
    if "windSpeed" !in props || "windDirection" !in props then Success(None)
    else
      var speedGroup :- AsObject(props["windSpeed"], "windSpeed");
      var speed :- AsOptNumber(Get(speedGroup, "value", JNum(0.0)), "windSpeed");
      var directionGroup :- AsObject(props["windDirection"], "windDirection");
      var direction :- AsOptNumber(Get(directionGroup, "value", JNum(0.0)), "windDirection");
      var unit :- UnitOf(speedGroup, "wmoUnit:km_h-1", "windSpeed");
      Success(Some(Wind(speed, Degrees(direction), unit)))
  }

  /** Precipitation in the last hour: present exactly when the key is, even
      when its `value` is `null`. */
  function MeasuredPrecipitation(props: map<string, Json>): (r: Parsed<Option<Precipitation>>)
    ensures r == Success(None) <==> "precipitationLastHour" !in props
    ensures "precipitationLastHour" in props ==>
              var group := props["precipitationLastHour"];
              (r.Success? <==> group.JObj? &&
                               AsOptNumber(Get(group.fields, "value", JNum(0.0)), "precipitationLastHour").Success? &&
                               UnitOf(group.fields, "wmoUnit:mm", "precipitationLastHour").Success?)
    ensures r.Success? && r.value.Some? ==>
              var group := props["precipitationLastHour"];
              group.JObj? && r.value.value.kind.None? &&
              AsOptNumber(Get(group.fields, "value", JNum(0.0)), "precipitationLastHour") == Success(r.value.value.value) &&
              UnitOf(group.fields, "wmoUnit:mm", "precipitationLastHour") == Success(r.value.value.unit)
  {
    if "precipitationLastHour" !in props then Success(None)
    else
      var group :- AsObject(props["precipitationLastHour"], "precipitationLastHour");
      var value :- AsOptNumber(Get(group, "value", JNum(0.0)), "precipitationLastHour");
      var unit :- UnitOf(group, "wmoUnit:mm", "precipitationLastHour");
      Success(Some(Precipitation(value, None, unit)))
  }

  /** `parse_observation`; `now` is the clock reading used when the document has
      no timestamp. */
  function ParseObservation(raw: Json, iso: IsoParser, now: DateTime): (r: Parsed<Observation>)
    ensures !raw.JObj? ==> r == Failure(NotAnObject("observation"))
    ensures raw.JObj? && !Get(raw.fields, "properties", JObj(map[])).JObj? ==>
              r == Failure(NotAnObject("properties"))
  {
    var root :- AsObject(raw, "observation");
    var props :- AsObject(Get(root, "properties", JObj(map[])), "properties");
    var station :- AsString(Get(props, "station", JStr("")), "station");
    var timestamp :- TimestampOr(props, iso, now);
    var temperature :- MeasuredTemperature(props, "temperature");
    var dewpoint :- MeasuredTemperature(props, "dewpoint");
    var humidity :- NestedValue(props, "relativeHumidity");
    var wind :- MeasuredWind(props);
    var pressure :- NestedValue(props, "barometricPressure");
    var visibility :- NestedValue(props, "visibility");
    var text :- AsOptString(Get(props, "textDescription", JStr("")), "textDescription");
    var precipitation :- MeasuredPrecipitation(props);
    Success(Observation(
      station, timestamp, temperature, dewpoint, humidity, wind,
      pressure, visibility, text, precipitation))
  }

  /** A unit code keeps the text after its last colon ("wmoUnit:degC" is "degC"). */
  lemma UnitAfterLastColon(group: map<string, Json>, default: string, field: string, prefix: string, unit: string)
    requires Get(group, "unitCode", JStr(default)) == JStr(prefix + ":" + unit)
    requires ':' !in unit
    ensures UnitOf(group, default, field) == Success(unit)
  {
    LastSegmentAfter(prefix, ':', unit);
    assert prefix + [':'] + unit == prefix + ":" + unit;
  }

  /** A unit code without a colon is kept whole. */
  lemma UnitWithoutColon(group: map<string, Json>, default: string, field: string, code: string)
    requires Get(group, "unitCode", JStr(default)) == JStr(code)
    requires ':' !in code
    ensures UnitOf(group, default, field) == Success(code)
  {
    assert code[|code| - |code|..] == code;
    LastSegmentUnique(code, ':', code);
  }

  /** Without a `unitCode`, a group gets the unit of its default code. */
  lemma DefaultUnit(group: map<string, Json>, field: string, unit: string)
    requires "unitCode" !in group
    requires ':' !in unit
    ensures UnitOf(group, "wmoUnit:" + unit, field) == Success(unit)
  {
    assert "wmoUnit:" + unit == "wmoUnit" + ":" + unit;
    UnitAfterLastColon(group, "wmoUnit:" + unit, field, "wmoUnit", unit);
  }

  /** Without a `unitCode`, a temperature is in "degC". */
  lemma DefaultTemperatureUnit(group: map<string, Json>, field: string)
    requires "unitCode" !in group
    ensures UnitOf(group, "wmoUnit:degC", field) == Success("degC")
  {
    assert "wmoUnit:degC" == "wmoUnit" + ":" + "degC";
    UnitAfterLastColon(group, "wmoUnit:degC", field, "wmoUnit", "degC");
  }

  /** Without a `unitCode`, a wind speed is in "km_h-1". */
  lemma DefaultWindUnit(group: map<string, Json>, field: string)
    requires "unitCode" !in group
    ensures UnitOf(group, "wmoUnit:km_h-1", field) == Success("km_h-1")
  {
    assert "wmoUnit:km_h-1" == "wmoUnit" + ":" + "km_h-1";
    UnitAfterLastColon(group, "wmoUnit:km_h-1", field, "wmoUnit", "km_h-1");
  }

  /** Without a `unitCode`, a precipitation amount is in "mm". */
  lemma DefaultPrecipitationUnit(group: map<string, Json>, field: string)
    requires "unitCode" !in group
    ensures UnitOf(group, "wmoUnit:mm", field) == Success("mm")
  {
    assert "wmoUnit:mm" == "wmoUnit" + ":" + "mm";
    UnitAfterLastColon(group, "wmoUnit:mm", field, "wmoUnit", "mm");
  }

  /** Each measurement group of a parsed observation is present exactly when
      its key is (wind: when both of its keys are), and the scalar fields are
      read from their keys with their defaults. */
  lemma ObservationFields(raw: Json, iso: IsoParser, now: DateTime, props: map<string, Json>, ob: Observation)
    requires ParseObservation(raw, iso, now) == Success(ob)
    requires raw.JObj? && Get(raw.fields, "properties", JObj(map[])) == JObj(props)
    ensures ob.temperature.Some? <==> "temperature" in props
    ensures ob.dewpoint.Some? <==> "dewpoint" in props
    ensures ob.wind.Some? <==> "windSpeed" in props && "windDirection" in props
    ensures ob.precipitationLastHour.Some? <==> "precipitationLastHour" in props
    ensures MeasuredTemperature(props, "temperature") == Success(ob.temperature)
    ensures MeasuredTemperature(props, "dewpoint") == Success(ob.dewpoint)
    ensures MeasuredWind(props) == Success(ob.wind)
    ensures MeasuredPrecipitation(props) == Success(ob.precipitationLastHour)
    ensures NestedValue(props, "relativeHumidity") == Success(ob.relativeHumidity)
    ensures NestedValue(props, "barometricPressure") == Success(ob.barometricPressure)
    ensures NestedValue(props, "visibility") == Success(ob.visibility)
    ensures Get(props, "station", JStr("")) == JStr(ob.station)
    ensures Get(props, "textDescription", JStr("")) ==
              if ob.textDescription.Some? then JStr(ob.textDescription.value) else JNull
    ensures !Truthy(Get(props, "timestamp", JStr(""))) ==> ob.timestamp == now
  {
    assert AsObject(raw, "observation") == Success(raw.fields);
    assert AsObject(Get(raw.fields, "properties", JObj(map[])), "properties") == Success(props);
    var station, timestamp := AsString(Get(props, "station", JStr("")), "station"), TimestampOr(props, iso, now);
    var temperature, dewpoint := MeasuredTemperature(props, "temperature"), MeasuredTemperature(props, "dewpoint");
    var humidity, wind := NestedValue(props, "relativeHumidity"), MeasuredWind(props);
    var pressure, visibility := NestedValue(props, "barometricPressure"), NestedValue(props, "visibility");
    var text := AsOptString(Get(props, "textDescription", JStr("")), "textDescription");
    var precipitation := MeasuredPrecipitation(props);
    assert station.Success? && timestamp.Success? && temperature.Success? && dewpoint.Success?;
    assert humidity.Success? && wind.Success? && pressure.Success? && visibility.Success?;
    assert text.Success? && precipitation.Success?;
    assert ob == Observation(
      station.value, timestamp.value, temperature.value, dewpoint.value, humidity.value, wind.value,
      pressure.value, visibility.value, text.value, precipitation.value);
  }

  /** Conversely, any document whose properties read field by field as those
      of `ob` parses to `ob`. */
  lemma ObservationFromFields(
    top: map<string, Json>, props: map<string, Json>, iso: IsoParser, now: DateTime, ob: Observation)
    requires Get(top, "properties", JObj(map[])) == JObj(props)
    requires Get(props, "station", JStr("")) == JStr(ob.station)
    requires TimestampOr(props, iso, now) == Success(ob.timestamp)
    requires MeasuredTemperature(props, "temperature") == Success(ob.temperature)
    requires MeasuredTemperature(props, "dewpoint") == Success(ob.dewpoint)
    requires MeasuredWind(props) == Success(ob.wind)
    requires MeasuredPrecipitation(props) == Success(ob.precipitationLastHour)
    requires NestedValue(props, "relativeHumidity") == Success(ob.relativeHumidity)
    requires NestedValue(props, "barometricPressure") == Success(ob.barometricPressure)
    requires NestedValue(props, "visibility") == Success(ob.visibility)
    requires Get(props, "textDescription", JStr("")) ==
               if ob.textDescription.Some? then JStr(ob.textDescription.value) else JNull
    ensures ParseObservation(JObj(top), iso, now) == Success(ob)
  {
  }

  /** A measurement group sent with `"value": null` stays present in the
      parsed observation, holding no value. */
  lemma NullReadingsKept(raw: Json, iso: IsoParser, now: DateTime, props: map<string, Json>, ob: Observation)
    requires ParseObservation(raw, iso, now) == Success(ob)
    requires raw.JObj? && Get(raw.fields, "properties", JObj(map[])) == JObj(props)
    ensures "temperature" in props && props["temperature"].JObj? &&
            Get(props["temperature"].fields, "value", JNum(0.0)) == JNull ==>
              ob.temperature.Some? && ob.temperature.value.value.None?
    ensures "dewpoint" in props && props["dewpoint"].JObj? &&
            Get(props["dewpoint"].fields, "value", JNum(0.0)) == JNull ==>
              ob.dewpoint.Some? && ob.dewpoint.value.value.None?
    ensures "windSpeed" in props && "windDirection" in props && props["windSpeed"].JObj? &&
            Get(props["windSpeed"].fields, "value", JNum(0.0)) == JNull ==>
              ob.wind.Some? && ob.wind.value.speed.None?
    ensures "windSpeed" in props && "windDirection" in props && props["windDirection"].JObj? &&
            Get(props["windDirection"].fields, "value", JNum(0.0)) == JNull ==>
              ob.wind.Some? && ob.wind.value.direction == Degrees(None)
    ensures "precipitationLastHour" in props && props["precipitationLastHour"].JObj? &&
            Get(props["precipitationLastHour"].fields, "value", JNum(0.0)) == JNull ==>
              ob.precipitationLastHour.Some? && ob.precipitationLastHour.value.value.None?
  {
    ObservationFields(raw, iso, now, props, ob);
  }

  /** A document whose only reading is a `null` temperature parses, with a
      present temperature in "degC" holding no value. */
  lemma NullTemperatureExample(iso: IsoParser, now: DateTime)
    ensures var doc := JObj(map["properties" := JObj(map["temperature" := JObj(map["value" := JNull])])]);
            ParseObservation(doc, iso, now) ==
              Success(Observation("", now, Some(Temperature(None, "degC")), None, None, None, None, None, Some(""), None))
  {
    var props := map["temperature" := JObj(map["value" := JNull])];
    NullTemperatureReadings(props);
    NullTemperatureScalars(props);
    var top := map["properties" := JObj(props)];
    assert Get(top, "properties", JObj(map[])) == JObj(props);
    ObservationFromFields(top, props, iso, now,
      Observation("", now, Some(Temperature(None, "degC")), None, None, None, None, None, Some(""), None));
  }

  /** The measurement groups of the `null`-temperature document. */
  lemma NullTemperatureReadings(props: map<string, Json>)
    requires props == map["temperature" := JObj(map["value" := JNull])]
    ensures MeasuredTemperature(props, "temperature") == Success(Some(Temperature(None, "degC")))
    ensures MeasuredTemperature(props, "dewpoint") == Success(None)
    ensures MeasuredWind(props) == Success(None)
    ensures MeasuredPrecipitation(props) == Success(None)
    ensures NestedValue(props, "relativeHumidity") == Success(None)
    ensures NestedValue(props, "barometricPressure") == Success(None)
    ensures NestedValue(props, "visibility") == Success(None)
  {
    DefaultTemperatureUnit(map["value" := JNull], "temperature");
  }

  /** The scalar fields of the `null`-temperature document take their defaults. */
  lemma NullTemperatureScalars(props: map<string, Json>)
    requires props == map["temperature" := JObj(map["value" := JNull])]
    ensures Get(props, "station", JStr("")) == JStr("")
    ensures Get(props, "textDescription", JStr("")) == JStr("")
    ensures Get(props, "timestamp", JStr("")) == JStr("")
  {
  }

  /** An observation carrying only a station, a timestamp and a text
      description has every measurement absent, none of them zero. */
  lemma ObservationOptionality(raw: Json, iso: IsoParser, now: DateTime, props: map<string, Json>, ob: Observation)
    requires ParseObservation(raw, iso, now) == Success(ob)
    requires raw.JObj? && Get(raw.fields, "properties", JObj(map[])) == JObj(props)
    requires props.Keys <= {"station", "timestamp", "textDescription"}
    ensures ob.temperature.None? && ob.dewpoint.None? && ob.wind.None?
    ensures ob.relativeHumidity.None? && ob.barometricPressure.None? && ob.visibility.None?
    ensures ob.precipitationLastHour.None?
  {
    OnlyScalarKeys(props);
    ObservationFields(raw, iso, now, props, ob);
  }

  /** An observation with only its scalar keys has none of the measurement keys. */
  lemma OnlyScalarKeys(props: map<string, Json>)
    requires props.Keys <= {"station", "timestamp", "textDescription"}
    ensures "temperature" !in props && "dewpoint" !in props && "windSpeed" !in props
    ensures "relativeHumidity" !in props && "barometricPressure" !in props
    ensures "visibility" !in props && "precipitationLastHour" !in props
  {
  }

  /** An empty document: empty station, the clock's time, an empty text
      description and no measurement. */
  lemma EmptyObservation(iso: IsoParser, now: DateTime)
    ensures ParseObservation(JObj(map[]), iso, now)
            == Success(Observation("", now, None, None, None, None, None, None, Some(""), None))
  {
  }

  // ---------------------------------------------------------------------------
  // parse_alert
  // ---------------------------------------------------------------------------

  /** A required timestamp: missing (read as "") or unparseable fails. */
  function RequiredTime(props: map<string, Json>, key: string, iso: IsoParser): (r: Parsed<DateTime>)
    ensures key !in props ==> r == Failure(BadTimestamp(key))
    ensures r.Success? ==> props[key].JStr? && ParseTimestamp(props[key].s, key, iso) == r
  {
    var text :- AsString(Get(props, key, JStr("")), key);
    ParseTimestamp(text, key, iso)
  }

  /** An optional timestamp: absent when the raw value is missing or falsy. */
  function OptionalTime(props: map<string, Json>, key: string, iso: IsoParser): (r: Parsed<Option<DateTime>>)
    ensures r == Success(None) <==> !Truthy(Get(props, key, JNull))
    ensures r.Success? && r.value.Some? ==>
              props[key].JStr? && ParseTimestamp(props[key].s, key, iso) == Success(r.value.value)
  {
    var raw := Get(props, key, JNull);
    if !Truthy(raw) then Success(None)
    else
      var text :- AsString(raw, key);
      var t :- ParseTimestamp(text, key, iso);
      Success(Some(t))
  }

  /** `zone.split("/")[-1]`: the zone id of one zone URL. */
  function ZoneId(url: Json): (r: Parsed<string>)
    ensures r.Success? <==> url.JStr?
    ensures r.Success? ==> '/' !in r.value
    ensures r.Success? ==> |r.value| <= |url.s| && url.s[|url.s| - |r.value|..] == r.value
    ensures r.Success? && |r.value| < |url.s| ==> url.s[|url.s| - |r.value| - 1] == '/'
  {
    var text :- AsString(url, "affectedZones");
    Success(LastSegment(text, '/'))
  }

  /** One SAME code, copied as it is. */
  function CountyCode(code: Json): (r: Parsed<string>)
    ensures r.Success? <==> code.JStr?
    ensures r.Success? ==> code == JStr(r.value)
  {
    AsString(code, "SAME")
  }

  /** The text fields of an alert and the final record. */
  function AssembleAlert(
    props: map<string, Json>, sent: DateTime, effective: DateTime, onset: Option<DateTime>,
    expires: DateTime, ends: Option<DateTime>, zones: seq<string>, counties: seq<string>
  ): (r: Parsed<Alert>)
    ensures r.Success? ==>
              var a := r.value;
              a.sent == sent && a.effective == effective && a.onset == onset &&
              a.expires == expires && a.ends == ends &&
              a.affectedZones == zones && a.affectedCounties == counties
    ensures r.Success? ==>
              var a := r.value;
              Get(props, "id", JStr("")) == JStr(a.id) &&
              Get(props, "event", JStr("")) == JStr(a.event) &&
              Get(props, "description", JStr("")) == JStr(a.description) &&
              Get(props, "severity", JStr("")) == JStr(a.severity) &&
              Get(props, "certainty", JStr("")) == JStr(a.certainty) &&
              Get(props, "urgency", JStr("")) == JStr(a.urgency) &&
              Get(props, "status", JStr("")) == JStr(a.status) &&
              Get(props, "messageType", JStr("")) == JStr(a.messageType) &&
              Get(props, "category", JStr("")) == JStr(a.category) &&
              Get(props, "response", JStr("")) == JStr(a.responseType)
    ensures r.Success? ==>
              Get(props, "headline", JStr("")) ==
                (if r.value.headline.Some? then JStr(r.value.headline.value) else JNull)
    ensures r.Success? ==>
              Get(props, "instruction", JNull) ==
                (if r.value.instruction.Some? then JStr(r.value.instruction.value) else JNull)
  {
    var id :- AsString(Get(props, "id", JStr("")), "id");
    var event :- AsString(Get(props, "event", JStr("")), "event");
    var headline :- AsOptString(Get(props, "headline", JStr("")), "headline");
    var description :- AsString(Get(props, "description", JStr("")), "description");
    var instruction :- AsOptString(Get(props, "instruction", JNull), "instruction");
    var severity :- AsString(Get(props, "severity", JStr("")), "severity");
    var certainty :- AsString(Get(props, "certainty", JStr("")), "certainty");
    var urgency :- AsString(Get(props, "urgency", JStr("")), "urgency");
    var status :- AsString(Get(props, "status", JStr("")), "status");
    var messageType :- AsString(Get(props, "messageType", JStr("")), "messageType");
    var category :- AsString(Get(props, "category", JStr("")), "category");
    var response :- AsString(Get(props, "response", JStr("")), "response");
    Success(Alert(
      id, event, headline, description, instruction, severity, certainty, urgency,
      sent, effective, onset, expires, ends, status, messageType, category, response,
      zones, counties))
  }

  /** What `parse_alert` computes. */
  function AlertOf(raw: Json, iso: IsoParser): (r: Parsed<Alert>)
    ensures !raw.JObj? ==> r == Failure(NotAnObject("alert"))
    ensures raw.JObj? && !Get(raw.fields, "properties", JObj(map[])).JObj? ==>
              r == Failure(NotAnObject("properties"))
  {
    var root :- AsObject(raw, "alert");
    var props :- AsObject(Get(root, "properties", JObj(map[])), "properties");
    var sent :- RequiredTime(props, "sent", iso);
    var effective :- RequiredTime(props, "effective", iso);
    var expires :- RequiredTime(props, "expires", iso);
    var onset :- OptionalTime(props, "onset", iso);
    var ends :- OptionalTime(props, "ends", iso);
    var urls :- AsArray(Get(props, "affectedZones", JArr([])), "affectedZones");
    var zones :- MapResult(urls, ZoneId);
    var geocode :- AsObject(Get(props, "geocode", JObj(map[])), "geocode");
    var codes :- AsArray(Get(geocode, "SAME", JArr([])), "SAME");
    var counties :- MapResult(codes, CountyCode);
    AssembleAlert(props, sent, effective, onset, expires, ends, zones, counties)
  }

  /** `parse_alert`: the zone and county lists are built one element at a time. */
  method ParseAlert(raw: Json, iso: IsoParser) returns (r: Parsed<Alert>)
    ensures r == AlertOf(raw, iso)
  {
    var root :- AsObject(raw, "alert");
    var props :- AsObject(Get(root, "properties", JObj(map[])), "properties");
    var sent :- RequiredTime(props, "sent", iso);
    var effective :- RequiredTime(props, "effective", iso);
    var expires :- RequiredTime(props, "expires", iso);
    var onset :- OptionalTime(props, "onset", iso);
    var ends :- OptionalTime(props, "ends", iso);

    var urls :- AsArray(Get(props, "affectedZones", JArr([])), "affectedZones");
    var zones :- CollectResults(urls, ZoneId);
    var geocode :- AsObject(Get(props, "geocode", JObj(map[])), "geocode");
    var codes :- AsArray(Get(geocode, "SAME", JArr([])), "SAME");
    var counties :- CollectResults(codes, CountyCode);
    r := AssembleAlert(props, sent, effective, onset, expires, ends, zones, counties);
  }

  /** A parsed alert: the zones follow `affectedZones` one for one and in
      order, each the text after the last '/'; the counties are `geocode.SAME`
      as given; the three required timestamps were present and parsed; `onset`
      and `ends` are absent exactly when their raw value is falsy. */
  lemma AlertFields(raw: Json, iso: IsoParser, props: map<string, Json>, a: Alert)
    requires AlertOf(raw, iso) == Success(a)
    requires raw.JObj? && Get(raw.fields, "properties", JObj(map[])) == JObj(props)
    ensures var urls := Get(props, "affectedZones", JArr([]));
            urls.JArr? && |a.affectedZones| == |urls.items| &&
            forall i :: 0 <= i < |urls.items| ==>
              urls.items[i].JStr? && a.affectedZones[i] == LastSegment(urls.items[i].s, '/')
    ensures var geocode := Get(props, "geocode", JObj(map[]));
            geocode.JObj? && Get(geocode.fields, "SAME", JArr([])).JArr? &&
            var codes := Get(geocode.fields, "SAME", JArr([])).items;
            |codes| == |a.affectedCounties| &&
            forall i :: 0 <= i < |codes| ==> codes[i] == JStr(a.affectedCounties[i])
    ensures "sent" in props && props["sent"].JStr? &&
            ParseTimestamp(props["sent"].s, "sent", iso) == Success(a.sent)
    ensures "effective" in props && props["effective"].JStr? &&
            ParseTimestamp(props["effective"].s, "effective", iso) == Success(a.effective)
    ensures "expires" in props && props["expires"].JStr? &&
            ParseTimestamp(props["expires"].s, "expires", iso) == Success(a.expires)
    ensures a.onset.None? <==> !Truthy(Get(props, "onset", JNull))
    ensures a.ends.None? <==> !Truthy(Get(props, "ends", JNull))
    ensures Get(props, "response", JStr("")) == JStr(a.responseType)
    ensures "id" !in props ==> a.id == ""
    ensures "instruction" !in props ==> a.instruction.None?
  {
    var urls := Get(props, "affectedZones", JArr([])).items;
    assert MapResult(urls, ZoneId) == Success(a.affectedZones);
  }

  /** Without `sent`, `effective` or `expires` an alert does not parse. */
  lemma AlertNeedsTimestamps(raw: Json, iso: IsoParser, props: map<string, Json>)
    requires raw.JObj? && Get(raw.fields, "properties", JObj(map[])) == JObj(props)
    requires "sent" !in props || "effective" !in props || "expires" !in props
    ensures AlertOf(raw, iso).Failure?
  {
  }

  /** A zone URL keeps only its last path segment. */
  lemma ZoneIdExample()
    ensures ZoneId(JStr("https://host/zones/forecast/ABC123")) == Success("ABC123")
  {
    LastSegmentAfter("https://host/zones/forecast", '/', "ABC123");
    assert "https://host/zones/forecast" + ['/'] + "ABC123" == "https://host/zones/forecast/ABC123";
  }

  /** Zone and county extraction: one zone URL and one SAME
      code give `["ABC123"]` and `["12345"]`. */
  lemma AlertZoneCountyExample(raw: Json, iso: IsoParser, props: map<string, Json>, a: Alert)
    requires AlertOf(raw, iso) == Success(a)
    requires raw.JObj? && Get(raw.fields, "properties", JObj(map[])) == JObj(props)
    requires Get(props, "affectedZones", JArr([])) == JArr([JStr("https://host/zones/forecast/ABC123")])
    requires Get(props, "geocode", JObj(map[])) == JObj(map["SAME" := JArr([JStr("12345")])])
    ensures a.affectedZones == ["ABC123"]
    ensures a.affectedCounties == ["12345"]
  {
    AlertFields(raw, iso, props, a);
    ZoneIdExample();
  }
}
