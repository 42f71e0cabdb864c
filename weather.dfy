/** The per-message pipeline of `get_weather` (weather.py): the 404 guard,
    direct extraction of the payload's fields, and the seven-line report.
    The HTTP request and JSON decoding are outside the model: the handler
    receives the decoded payload as a value whose keys may be absent. */
module Weather {
  import opened Wrappers
  import Compass
  import Pressure
  import opened Decimal
  import opened Lines

  /** The `cod` member: the provider sends a number on success and a string
      on errors; only the string "404" is recognised by the guard. */
  datatype Cod = CodText(text: string) | CodNumber(number: int)

  /** One element of the payload's `weather` list. */
  datatype Conditions = Conditions(description: Option<string>)

  /** The `main` object. temp_min and temp_max are taken as already rounded;
      temp is taken as its rendered text. */
  datatype MainBlock = MainBlock(
    tempMin: Option<int>,
    tempMax: Option<int>,
    temp: Option<string>,
    humidity: Option<int>,
    pressure: Option<int>)

  /** The `wind` object; speed is taken as its rendered text, deg in degrees. */
  datatype WindBlock = WindBlock(speed: Option<string>, deg: Option<int>)

  /** The decoded provider response. */
  datatype Payload = Payload(
    cod: Option<Cod>,
    name: Option<string>,
    weather: Option<seq<Conditions>>,
    main: Option<MainBlock>,
    wind: Option<WindBlock>)

  /** The exceptions that abort the handler: the KeyError raised by the 404
      guard, the KeyError of a missing key, and the IndexError of an empty
      `weather` list. */
  datatype WeatherError =
    | CityNotFound(message: string)
    | MissingKey(key: string)
    | NoWeatherEntry

  /** The readings taken from `main`, the pressure already in mmHg. */
  datatype Readings = Readings(tempMin: int, tempMax: int, temp: string, humidity: int, pressureMm: int)

  /** The readings taken from `wind`, the heading already a compass point. */
  datatype Breeze = Breeze(speed: string, direction: string)

  /** The values the report is built from. */
  datatype Fields = Fields(city: string, description: string, readings: Readings, breeze: Breeze)

  /** Every lookup `get_weather` performs, one per subscript. */
  datatype Key =
    | Name | WeatherList | FirstEntry | Description
    | MainObject | TempMin | TempMax | Temp | Humidity | PressureKey
    | WindObject | Speed | Deg

  /** The lookups in the order Python evaluates them. */
  const Lookups: seq<Key> := [
    Name, WeatherList, FirstEntry, Description,
    MainObject, TempMin, TempMax, Temp, Humidity, PressureKey,
    WindObject, Speed, Deg
  ]

  /** Whether the lookup of `key` (and of everything it is nested in) succeeds. */
  predicate Has(data: Payload, key: Key) {
    match key
    case Name => data.name.Some?
    case WeatherList => data.weather.Some?
    case FirstEntry => data.weather.Some? && |data.weather.value| > 0
    case Description =>
      data.weather.Some? && |data.weather.value| > 0 && data.weather.value[0].description.Some?
    case MainObject => data.main.Some?
    case TempMin => data.main.Some? && data.main.value.tempMin.Some?
    case TempMax => data.main.Some? && data.main.value.tempMax.Some?
    case Temp => data.main.Some? && data.main.value.temp.Some?
    case Humidity => data.main.Some? && data.main.value.humidity.Some?
    case PressureKey => data.main.Some? && data.main.value.pressure.Some?
    case WindObject => data.wind.Some?
    case Speed => data.wind.Some? && data.wind.value.speed.Some?
    case Deg => data.wind.Some? && data.wind.value.deg.Some?
  }

  /** Every lookup succeeds. */
  predicate Complete(data: Payload) {
    && Has(data, Name) && Has(data, WeatherList) && Has(data, FirstEntry) && Has(data, Description)
    && Has(data, MainObject) && Has(data, TempMin) && Has(data, TempMax) && Has(data, Temp)
    && Has(data, Humidity) && Has(data, PressureKey)
    && Has(data, WindObject) && Has(data, Speed) && Has(data, Deg)
  }

  /** Position in Lookups of the first lookup at or after `n` that fails,
      or |Lookups| when none does. */
  function FirstMissing(data: Payload, n: nat): (j: nat)
    requires n <= |Lookups|
    ensures n <= j <= |Lookups|
    ensures forall i :: n <= i < j ==> Has(data, Lookups[i])
    ensures j < |Lookups| ==> !Has(data, Lookups[j])
    decreases |Lookups| - n
  {
    if n == |Lookups| || !Has(data, Lookups[n]) then n else FirstMissing(data, n + 1)
  }

  /** The exception a failed lookup raises. */
  function ErrorOf(key: Key): WeatherError {
    match key
    case Name => MissingKey("name")
    case WeatherList => MissingKey("weather")
    case FirstEntry => NoWeatherEntry
    case Description => MissingKey("description")
    case MainObject => MissingKey("main")
    case TempMin => MissingKey("temp_min")
    case TempMax => MissingKey("temp_max")
    case Temp => MissingKey("temp")
    case Humidity => MissingKey("humidity")
    case PressureKey => MissingKey("pressure")
    case WindObject => MissingKey("wind")
    case Speed => MissingKey("speed")
    case Deg => MissingKey("deg")
  }

  /** The guard `data.get('cod') == '404'`. */
  predicate NotFound(data: Payload) {
    data.cod == Some(CodText("404"))
  }

  /** `data['name']` and `data['weather'][0]['description']`. */
  function ExtractHeading(data: Payload): (r: Result<(string, string), WeatherError>)
    ensures r.Success? <==> Has(data, Name) && Has(data, Description)
    ensures r.Success? ==> r.value == (data.name.value, data.weather.value[0].description.value)
  {
    if data.name.None? then Failure(MissingKey("name"))
    else if data.weather.None? then Failure(MissingKey("weather"))
    else if |data.weather.value| == 0 then Failure(NoWeatherEntry)
    else if data.weather.value[0].description.None? then Failure(MissingKey("description"))
    else Success((data.name.value, data.weather.value[0].description.value))
  }

  /** The five lookups in `data['main']`; the pressure is converted to mmHg. */
  function ExtractReadings(data: Payload): (r: Result<Readings, WeatherError>)
    ensures r.Success? <==>
      Has(data, TempMin) && Has(data, TempMax) && Has(data, Temp) && Has(data, Humidity) && Has(data, PressureKey)
    ensures r.Success? ==>
      var m := data.main.value;
      && r.value.tempMin == m.tempMin.value
      && r.value.tempMax == m.tempMax.value
      && r.value.temp == m.temp.value
      && r.value.humidity == m.humidity.value
      && 1333 * r.value.pressureMm >= 1000 * m.pressure.value
      && 1333 * (r.value.pressureMm - 1) < 1000 * m.pressure.value
  {
    if data.main.None? then Failure(MissingKey("main"))
    else
      var m := data.main.value;
      if m.tempMin.None? then Failure(MissingKey("temp_min"))
      else if m.tempMax.None? then Failure(MissingKey("temp_max"))
      else if m.temp.None? then Failure(MissingKey("temp"))
      else if m.humidity.None? then Failure(MissingKey("humidity"))
      else if m.pressure.None? then Failure(MissingKey("pressure"))
      else Success(Readings(m.tempMin.value, m.tempMax.value, m.temp.value, m.humidity.value,
                            Pressure.MmHg(m.pressure.value)))
  }

  /** The two lookups in `data['wind']`; the heading becomes a compass point. */
  function ExtractBreeze(data: Payload): (r: Result<Breeze, WeatherError>)
    ensures r.Success? <==> Has(data, Speed) && Has(data, Deg)
    ensures r.Success? ==>
      && r.value.speed == data.wind.value.speed.value
      && r.value.direction in Compass.Points
      && (forall j :: 0 <= j < 8 ==>
            (r.value.direction == Compass.Points[j] <==> 45 * j <= data.wind.value.deg.value % 360 < 45 * j + 45))
  {
    if data.wind.None? then Failure(MissingKey("wind"))
    else if data.wind.value.speed.None? then Failure(MissingKey("speed"))
    else if data.wind.value.deg.None? then Failure(MissingKey("deg"))
    else
      var deg := data.wind.value.deg.value;
      forall j | 0 <= j < 8 { Compass.DirectionBand(deg, j); }
      Success(Breeze(data.wind.value.speed.value, Compass.Direction(deg)))
  }

  /** Direct extraction, in the order of the source's statements: the first
      lookup that fails aborts, otherwise every field is taken as it is. */
  function Extract(data: Payload): (r: Result<Fields, WeatherError>)
    ensures r.Success? <==> Complete(data)
    ensures r.Success? ==>
      && r.value.city == data.name.value
      && r.value.description == data.weather.value[0].description.value
      && Success(r.value.readings) == ExtractReadings(data)
      && Success(r.value.breeze) == ExtractBreeze(data)
  {
    var heading :- ExtractHeading(data);
    var readings :- ExtractReadings(data);
    var breeze :- ExtractBreeze(data);
    Success(Fields(heading.0, heading.1, readings, breeze))
  }

  /** The position of each key in Lookups. */
  lemma LookupsOrder()
    ensures |Lookups| == 13
    ensures Lookups[0] == Name
    ensures Lookups[1] == WeatherList
    ensures Lookups[2] == FirstEntry
    ensures Lookups[3] == Description
    ensures Lookups[4] == MainObject
    ensures Lookups[5] == TempMin
    ensures Lookups[6] == TempMax
    ensures Lookups[7] == Temp
    ensures Lookups[8] == Humidity
    ensures Lookups[9] == PressureKey
    ensures Lookups[10] == WindObject
    ensures Lookups[11] == Speed
    ensures Lookups[12] == Deg
  {
  }

  /** Lookups lists every key exactly once, so Complete asks for every lookup. */
  lemma LookupsCoverAllKeys()
    ensures forall key: Key :: key in Lookups
    ensures forall i, j :: 0 <= i < j < |Lookups| ==> Lookups[i] != Lookups[j]
  {
    forall key: Key
      ensures key in Lookups
    {
      match key
      case Name => assert Lookups[0] == key;
      case WeatherList => assert Lookups[1] == key;
      case FirstEntry => assert Lookups[2] == key;
      case Description => assert Lookups[3] == key;
      case MainObject => assert Lookups[4] == key;
      case TempMin => assert Lookups[5] == key;
      case TempMax => assert Lookups[6] == key;
      case Temp => assert Lookups[7] == key;
      case Humidity => assert Lookups[8] == key;
      case PressureKey => assert Lookups[9] == key;
      case WindObject => assert Lookups[10] == key;
      case Speed => assert Lookups[11] == key;
      case Deg => assert Lookups[12] == key;
    }
  }


  /** The first failing lookup is `name`, `weather`, its first entry or `description`. */
  lemma ExtractFailsOnCityOrDescription(data: Payload, k: nat)
    requires 0 <= k < 4 && !Has(data, Lookups[k])
    requires forall i :: 0 <= i < k ==> Has(data, Lookups[i])
    ensures Extract(data) == Failure(ErrorOf(Lookups[k]))
  {
    LookupsOrder();
    if k == 0 {
    } else if k == 1 {
      assert Has(data, Lookups[0]);
    } else if k == 2 {
      assert Has(data, Lookups[0]);
      assert Has(data, Lookups[1]);
    } else {
      assert Has(data, Lookups[0]);
      assert Has(data, Lookups[1]);
      assert Has(data, Lookups[2]);
    }
  }

  /** The first failing lookup is `main` or one of its five members. */
  lemma ExtractFailsOnMain(data: Payload, k: nat)
    requires 4 <= k < 10 && !Has(data, Lookups[k])
    requires forall i :: 0 <= i < k ==> Has(data, Lookups[i])
    ensures Extract(data) == Failure(ErrorOf(Lookups[k]))
  {
    LookupsOrder();
    assert Has(data, Lookups[0]);
    assert Has(data, Lookups[1]);
    assert Has(data, Lookups[2]);
    assert Has(data, Lookups[3]);
    if k == 4 {
    } else if k == 5 {
      assert Has(data, Lookups[4]);
    } else if k == 6 {
      assert Has(data, Lookups[4]);
      assert Has(data, Lookups[5]);
    } else if k == 7 {
      assert Has(data, Lookups[4]);
      assert Has(data, Lookups[5]);
      assert Has(data, Lookups[6]);
    } else if k == 8 {
      assert Has(data, Lookups[4]);
      assert Has(data, Lookups[5]);
      assert Has(data, Lookups[6]);
      assert Has(data, Lookups[7]);
    } else {
      assert Has(data, Lookups[4]);
      assert Has(data, Lookups[5]);
      assert Has(data, Lookups[6]);
      assert Has(data, Lookups[7]);
      assert Has(data, Lookups[8]);
    }
  }

  /** The first failing lookup is `wind`, `speed` or `deg`. */
  lemma ExtractFailsOnWind(data: Payload, k: nat)
    requires 10 <= k < 13 && !Has(data, Lookups[k])
    requires forall i :: 0 <= i < k ==> Has(data, Lookups[i])
    ensures Extract(data) == Failure(ErrorOf(Lookups[k]))
  {
    LookupsOrder();
    assert Has(data, Lookups[0]);
    assert Has(data, Lookups[1]);
    assert Has(data, Lookups[2]);
    assert Has(data, Lookups[3]);
    assert Has(data, Lookups[4]);
    assert Has(data, Lookups[5]);
    assert Has(data, Lookups[6]);
    assert Has(data, Lookups[7]);
    assert Has(data, Lookups[8]);
    assert Has(data, Lookups[9]);
    if k == 10 {
    } else if k == 11 {
      assert Has(data, Lookups[10]);
    } else {
      assert Has(data, Lookups[10]);
      assert Has(data, Lookups[11]);
    }
  }

  /** Extraction fails exactly when some lookup fails, and then it raises the
      error of the first lookup, in Python's evaluation order, that fails. */
  lemma ExtractFailsAtFirstMissing(data: Payload)
    ensures var j := FirstMissing(data, 0);
      && (j == |Lookups| <==> forall key: Key :: Has(data, key))
      && (Extract(data).Failure? <==> j < |Lookups|)
      && (Extract(data).Failure? ==> Extract(data).error == ErrorOf(Lookups[j]))
  {
    var j := FirstMissing(data, 0);
    if j < 4 {
      ExtractFailsOnCityOrDescription(data, j);
    } else if j < 10 {
      ExtractFailsOnMain(data, j);
    } else if j < 13 {
      ExtractFailsOnWind(data, j);
    } else {
      LookupsOrder();
      assert Complete(data);
    }
    LookupsCoverAllKeys();
    if j == |Lookups| {
      forall key: Key
        ensures Has(data, key)
      {
        var i :| 0 <= i < |Lookups| && Lookups[i] == key;
      }
    }
  }

  /** `t` is a suffix of `s`. */
  predicate EndsWith(s: string, t: string) {
    |t| <= |s| && s[|s| - |t|..] == t
  }

  /** The seven lines of the report, in template order. */
  function ReportLines(timestamp: string, f: Fields): (lines: seq<string>)
    ensures |lines| == 7
  {
    [ timestamp,
      f.city,
      "Погода: " + IntToString(f.readings.tempMin) + "-" + IntToString(f.readings.tempMax) + "°C, "
        + f.description,
      "Температура: " + f.readings.temp + "°C",
      "Влажность: " + IntToString(f.readings.humidity) + "%",
      "Давление: " + IntToString(f.readings.pressureMm) + " мм.рт.ст",
      "Ветер: " + f.breeze.direction + ", " + f.breeze.speed + " м/с" ]
  }

  /** What each template line shows: the timestamp, the city, then five lines
      that each start with their fixed label and end with their unit. */
  lemma ReportLinesLabels(timestamp: string, f: Fields)
    ensures var lines := ReportLines(timestamp, f);
      && lines[0] == timestamp && lines[1] == f.city
      && "Погода: " <= lines[2] && EndsWith(lines[2], "°C, " + f.description)
      && "Температура: " + f.readings.temp <= lines[3] && EndsWith(lines[3], "°C")
      && "Влажность: " <= lines[4] && EndsWith(lines[4], "%")
      && "Давление: " <= lines[5] && EndsWith(lines[5], " мм.рт.ст")
      && "Ветер: " + f.breeze.direction + ", " <= lines[6] && EndsWith(lines[6], f.breeze.speed + " м/с")
  {
  }

  /** The report text: each line of the template followed by a newline. */
  function Render(timestamp: string, f: Fields): string {
    JoinLines(ReportLines(timestamp, f))
  }

  /** The text fields that come from outside (the clock and the payload). */
  predicate SingleLineFields(timestamp: string, f: Fields) {
    NoNewline(timestamp) && NoNewline(f.city) && NoNewline(f.description)
    && NoNewline(f.readings.temp) && NoNewline(f.breeze.speed) && NoNewline(f.breeze.direction)
  }

  lemma IntToStringSingleLine(n: int)
    ensures NoNewline(IntToString(n))
  {
  }

  /** The report splits back into exactly its seven template lines, in order:
      timestamp, city, range and description, temperature, humidity,
      pressure, wind. */
  lemma {:induction false} RenderSplitsIntoSevenLines(timestamp: string, f: Fields)
    requires SingleLineFields(timestamp, f)
    ensures SplitLines(Render(timestamp, f)) == ReportLines(timestamp, f)
  {
    var lines := ReportLines(timestamp, f);
    IntToStringSingleLine(f.readings.tempMin);
    IntToStringSingleLine(f.readings.tempMax);
    IntToStringSingleLine(f.readings.humidity);
    IntToStringSingleLine(f.readings.pressureMm);
    forall k | 0 <= k < 7
      ensures NoNewline(lines[k])
    {
    }
    SplitJoin(lines);
  }

  /** `get_weather` without its I/O: the 404 guard, then extraction, then the
      report stamped with the given time. */
  function GetWeather(city: string, data: Payload, timestamp: string): (r: Result<string, WeatherError>)
    ensures r.Failure? <==> NotFound(data) || !Complete(data)
    ensures NotFound(data) ==> r == Failure(CityNotFound("Город " + city + " не нейден."))
  {
    if NotFound(data) then Failure(CityNotFound("Город " + city + " не нейден."))
    else
      var f :- Extract(data);
      Success(Render(timestamp, f))
  }

  /** A successful run yields the template filled from the payload. */
  lemma GetWeatherReport(city: string, data: Payload, timestamp: string)
    requires GetWeather(city, data, timestamp).Success?
    ensures Extract(data).Success?
    ensures var f := Extract(data).value;
      GetWeather(city, data, timestamp).value == Render(timestamp, f)
      && (SingleLineFields(timestamp, f) ==>
            SplitLines(GetWeather(city, data, timestamp).value) == ReportLines(timestamp, f))
  {
    var f := Extract(data).value;
    if SingleLineFields(timestamp, f) {
      RenderSplitsIntoSevenLines(timestamp, f);
    }
  }
}
