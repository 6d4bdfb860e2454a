/**
 * The weather tool: the city gazetteer, the WMO weather-code labels
 * (WMO code table 4677, as Open-Meteo reports them), the forecast-length
 * clamp, the per-day forecast report with its travel tips, and the tool's
 * entry point over an abstract forecast fetch.
 *
 * Temperatures and precipitation sums are held in integer tenths (of a
 * degree, of a millimetre) and printed as Python prints such floats;
 * precipitation probabilities are whole percentages.
 */
module Weather {
  import opened Wrappers
  import opened Text
  import opened Calendar

  // ---------------------------------------------------------------------
  // The gazetteer

  datatype City = City(lat: real, lon: real, name: string)

  /** `CITY_COORDINATES`: lower-case keys, with "bengaluru" an alias of Bangalore. */
  const CityCoordinates: map<string, City> := map[
    "goa" := City(15.2993, 74.1240, "Goa"),
    "bangalore" := City(12.9716, 77.5946, "Bangalore"),
    "bengaluru" := City(12.9716, 77.5946, "Bangalore"),
    "delhi" := City(28.7041, 77.1025, "Delhi"),
    "mumbai" := City(19.0760, 72.8777, "Mumbai"),
    "chennai" := City(13.0827, 80.2707, "Chennai"),
    "kolkata" := City(22.5726, 88.3639, "Kolkata"),
    "hyderabad" := City(17.3850, 78.4867, "Hyderabad"),
    "pune" := City(18.5204, 73.8567, "Pune"),
    "jaipur" := City(26.9124, 75.7873, "Jaipur"),
    "ahmedabad" := City(23.0225, 72.5714, "Ahmedabad"),
    "lucknow" := City(26.8467, 80.9462, "Lucknow"),
    "udaipur" := City(24.5854, 73.7125, "Udaipur"),
    "agra" := City(27.1767, 78.0081, "Agra"),
    "varanasi" := City(25.3176, 82.9739, "Varanasi")
  ]

  /** `_get_coordinates`: the entry under the lower-cased, stripped name, if any. */
  function GetCoordinates(city: string): (r: Option<City>)
    ensures r.Some? <==> Trim(ToLower(city)) in CityCoordinates
    ensures r.Some? ==> r.value in CityCoordinates.Values
  {
    var key := Trim(ToLower(city));
    if key in CityCoordinates then Some(CityCoordinates[key]) else None
  }

  /** The lookup ignores letter case and surrounding whitespace. */
  lemma CoordinatesIgnoreCaseAndSpace(w1: string, city: string, w2: string)
    requires AllSpace(w1) && AllSpace(w2)
    ensures GetCoordinates(w1 + city + w2) == GetCoordinates(city)
    ensures GetCoordinates(ToUpper(city)) == GetCoordinates(city)
  {
    TrimLowerSurrounded(w1, city, w2);
    ToLowerOfToUpper(city);
  }

  /** "Bangalore" and "Bengaluru" name the same entry, in any case and with any padding. */
  lemma BengaluruIsBangalore(w1: string, w2: string)
    requires AllSpace(w1) && AllSpace(w2)
    ensures GetCoordinates(w1 + "BENGALURU" + w2) == GetCoordinates("Bangalore")
    ensures GetCoordinates("Bangalore") == Some(City(12.9716, 77.5946, "Bangalore"))
  {
    TrimLowerSurrounded(w1, "BENGALURU", w2);
    assert ToLower("BENGALURU") == "bengaluru";
    assert ToLower("Bangalore") == "bangalore";
    assert TrimStart("bengaluru") == "bengaluru";
    assert TrimEnd("bengaluru") == "bengaluru";
    assert TrimStart("bangalore") == "bangalore";
    assert TrimEnd("bangalore") == "bangalore";
  }

  /** Python's ordering of strings: by code point, a proper prefix first. */
  predicate StringLess(a: string, b: string) {
    if a == [] then b != []
    else if b == [] then false
    else if a[0] != b[0] then a[0] < b[0]
    else StringLess(a[1..], b[1..])
  }

  predicate StrictlyAscending(names: seq<string>) {
    forall i :: 0 <= i < |names| - 1 ==> StringLess(names[i], names[i + 1])
  }

  /** `sorted(set(c["name"] for c in CITY_COORDINATES.values()))`. */
  const AvailableCityNames: seq<string> := [
    "Agra", "Ahmedabad", "Bangalore", "Chennai", "Delhi", "Goa", "Hyderabad",
    "Jaipur", "Kolkata", "Lucknow", "Mumbai", "Pune", "Udaipur", "Varanasi"
  ]

  lemma CityKeys()
    ensures CityCoordinates.Keys == {"goa", "bangalore", "bengaluru", "delhi", "mumbai", "chennai", "kolkata",
                                     "hyderabad", "pune", "jaipur", "ahmedabad", "lucknow", "udaipur", "agra", "varanasi"}
  {
  }

  /** Every entry's display name is listed. */
  lemma TableNamesListed()
    ensures forall k | k in CityCoordinates :: CityCoordinates[k].name in AvailableCityNames
  {
    CityKeys();
  }

  lemma NamesAToH()
    ensures "agra" in CityCoordinates && CityCoordinates["agra"].name == "Agra"
    ensures "ahmedabad" in CityCoordinates && CityCoordinates["ahmedabad"].name == "Ahmedabad"
    ensures "bangalore" in CityCoordinates && CityCoordinates["bangalore"].name == "Bangalore"
    ensures "chennai" in CityCoordinates && CityCoordinates["chennai"].name == "Chennai"
    ensures "delhi" in CityCoordinates && CityCoordinates["delhi"].name == "Delhi"
    ensures "goa" in CityCoordinates && CityCoordinates["goa"].name == "Goa"
    ensures "hyderabad" in CityCoordinates && CityCoordinates["hyderabad"].name == "Hyderabad"
  {
  }

  lemma NamesJToV()
    ensures "jaipur" in CityCoordinates && CityCoordinates["jaipur"].name == "Jaipur"
    ensures "kolkata" in CityCoordinates && CityCoordinates["kolkata"].name == "Kolkata"
    ensures "lucknow" in CityCoordinates && CityCoordinates["lucknow"].name == "Lucknow"
    ensures "mumbai" in CityCoordinates && CityCoordinates["mumbai"].name == "Mumbai"
    ensures "pune" in CityCoordinates && CityCoordinates["pune"].name == "Pune"
    ensures "udaipur" in CityCoordinates && CityCoordinates["udaipur"].name == "Udaipur"
    ensures "varanasi" in CityCoordinates && CityCoordinates["varanasi"].name == "Varanasi"
  {
  }

  /** Every listed name is the display name of some entry. */
  lemma ListedNamesInTable()
    ensures forall n | n in AvailableCityNames :: exists k :: k in CityCoordinates && CityCoordinates[k].name == n
  {
    NamesAToH();
    NamesJToV();
  }

  /** The listed city names are exactly the table's display names. */
  lemma AvailableCitiesAreTableNames()
    ensures (set n | n in AvailableCityNames) == (set k | k in CityCoordinates :: CityCoordinates[k].name)
  {
    var listed := set n | n in AvailableCityNames;
    var names := set k | k in CityCoordinates :: CityCoordinates[k].name;
    forall n | n in names ensures n in listed {
      TableNamesListed();
    }
    forall n | n in listed ensures n in names {
      ListedNamesInTable();
      var k :| k in CityCoordinates && CityCoordinates[k].name == n;
    }
  }

  /** The listed city names are in sorted order, hence each appears once. */
  lemma AvailableCitiesSorted()
    ensures StrictlyAscending(AvailableCityNames)
  {
    var names := AvailableCityNames;
    assert StringLess(names[0], names[1]) by {
      assert "Agra"[1..] == "gra" && "Ahmedabad"[1..] == "hmedabad";
    }
    forall i | 1 <= i < |names| - 1 ensures StringLess(names[i], names[i + 1]) {
      FirstLetterLess(names[i], names[i + 1]);
    }
  }

  lemma FirstLetterLess(a: string, b: string)
    requires a != [] && b != [] && a[0] < b[0]
    ensures StringLess(a, b)
  {
  }

  // ---------------------------------------------------------------------
  // Weather codes

  /** The codes the label table knows, in table order. */
  const KnownCodes: seq<int> := [0, 1, 2, 3, 45, 48, 51, 53, 55, 61, 63, 65, 71, 73, 75, 80, 81, 82, 95, 96, 99]

  const WeatherCodeLabels: map<int, string> := map[
    0 := "Clear Sky \U{2600}\U{FE0F}",
    1 := "Mainly Clear \U{1F324}\U{FE0F}",
    2 := "Partly Cloudy \U{26C5}",
    3 := "Overcast \U{2601}\U{FE0F}",
    45 := "Foggy \U{1F32B}\U{FE0F}",
    48 := "Foggy \U{1F32B}\U{FE0F}",
    51 := "Light Drizzle \U{1F326}\U{FE0F}",
    53 := "Moderate Drizzle \U{1F326}\U{FE0F}",
    55 := "Dense Drizzle \U{1F327}\U{FE0F}",
    61 := "Slight Rain \U{1F327}\U{FE0F}",
    63 := "Moderate Rain \U{1F327}\U{FE0F}",
    65 := "Heavy Rain \U{26C8}\U{FE0F}",
    71 := "Slight Snow \U{2744}\U{FE0F}",
    73 := "Moderate Snow \U{2744}\U{FE0F}",
    75 := "Heavy Snow \U{2744}\U{FE0F}",
    80 := "Rain Showers \U{1F326}\U{FE0F}",
    81 := "Rain Showers \U{1F327}\U{FE0F}",
    82 := "Heavy Showers \U{26C8}\U{FE0F}",
    95 := "Thunderstorm \U{26C8}\U{FE0F}",
    96 := "Thunderstorm with Hail \U{26C8}\U{FE0F}",
    99 := "Heavy Thunderstorm \U{26C8}\U{FE0F}"
  ]

  /** `_interpret_weather_code`: the fixed label of a listed code, "Unknown" for every other. */
  function InterpretWeatherCode(code: int): string {
    if code in WeatherCodeLabels then WeatherCodeLabels[code] else "Unknown"
  }

  /** The label table covers exactly the known codes, and none of its labels is "Unknown". */
  lemma InterpretWeatherCodeLabels(code: int)
    ensures InterpretWeatherCode(code) == "Unknown" <==> code !in KnownCodes
    ensures code in KnownCodes ==> InterpretWeatherCode(code) == WeatherCodeLabels[code]
  {
    LabelKeys();
    NoLabelUnknown();
  }

  lemma LabelKeys()
    ensures WeatherCodeLabels.Keys == set c | c in KnownCodes
  {
  }

  lemma NoLabelUnknown()
    ensures forall c | c in WeatherCodeLabels :: WeatherCodeLabels[c] != "Unknown"
  {
  }

  // ---------------------------------------------------------------------
  // The forecast report

  /** `forecast_days = min(days, 7)`: the number of days asked of the forecast service. */
  function ForecastDays(days: int): (r: int)
    ensures r <= 7
    ensures r == days || (days > 7 && r == 7)
  {
    Min(days, 7)
  }

  /**
   * The `daily` part of a forecast response. A key the response lacks is an
   * empty sequence, as `daily.get(key, [])` gives.
   */
  datatype Daily = Daily(
    time: seq<string>,
    temperatureMax: seq<int>,
    temperatureMin: seq<int>,
    weatherCode: seq<int>,
    precipitationSum: seq<int>,
    precipitationProbability: seq<int>)

  /** What `str(e)` says for an index past the end of a list. */
  const IndexError := "list index out of range"

  /** The rain of day `i`, in tenths of a millimetre; a short list gives the integer 0. */
  function Rain(daily: Daily, i: nat): int {
    if i < |daily.precipitationSum| then daily.precipitationSum[i] else 0
  }

  function RainText(daily: Daily, i: nat): string {
    if i < |daily.precipitationSum| then TenthsToString(daily.precipitationSum[i]) else "0"
  }

  function RainProbability(daily: Daily, i: nat): int {
    if i < |daily.precipitationProbability| then daily.precipitationProbability[i] else 0
  }

  predicate ShowsPrecipitation(daily: Daily, i: nat) {
    Rain(daily, i) > 0 || RainProbability(daily, i) > 20
  }

  /** `strftime("%A, %b %d")`. */
  function DayName(d: Date): string
    requires ValidDate(d)
  {
    WeekdayName(d) + ", " + MonthAbbr(d) + " " + Pad2(d.day)
  }

  function DayTitle(i: nat): string {
    "Day " + IntToString(i + 1) + " ("
  }

  function TemperatureLine(high: int, low: int): string {
    "  Temperature: " + TenthsToString(high) + "\U{B0}C (High) / " + TenthsToString(low) + "\U{B0}C (Low)\n"
  }

  function PrecipitationLine(daily: Daily, i: nat): string {
    "  Precipitation: " + RainText(daily, i) + "mm (" + IntToString(RainProbability(daily, i)) + "% chance)\n"
  }

  /** The lines of a day block before the optional precipitation line. */
  function DayLines(daily: Daily, i: nat, date: Date): string
    requires ValidDate(date) && i < |daily.weatherCode| && i < |daily.temperatureMax| && i < |daily.temperatureMin|
  {
    DayName(date) + "):\n"
    + "  Condition: " + InterpretWeatherCode(daily.weatherCode[i]) + "\n"
    + TemperatureLine(daily.temperatureMax[i], daily.temperatureMin[i])
  }

  function PrecipitationPart(daily: Daily, i: nat): string {
    if ShowsPrecipitation(daily, i) then PrecipitationLine(daily, i) else ""
  }

  /** The block for day `i` (0-based), or the text of what the loop body raises. */
  function DayBlock(daily: Daily, i: nat): (r: Result<string, string>)
    ensures r.Ok? <==> (i < |daily.time| && ParseIsoDate(daily.time[i]).Ok?
      && i < |daily.weatherCode| && i < |daily.temperatureMax| && i < |daily.temperatureMin|)
  {
    if i >= |daily.time| then Err(IndexError)
    else
      match ParseIsoDate(daily.time[i])
      case Err(e) => Err(DateErrorMessage(e))
      case Ok(date) =>
        if i >= |daily.weatherCode| || i >= |daily.temperatureMax| || i >= |daily.temperatureMin| then Err(IndexError)
        else Ok(DayTitle(i) + (DayLines(daily, i, date) + PrecipitationPart(daily, i) + "\n"))
  }

  /** A day block opens with its 1-based day number. */
  lemma DayBlockTitle(daily: Daily, i: nat)
    requires DayBlock(daily, i).Ok?
    ensures StartsWith(DayBlock(daily, i).value, DayTitle(i))
  {
    var date := ParseIsoDate(daily.time[i]).value;
    StartsWithSelf(DayTitle(i), DayLines(daily, i, date) + PrecipitationPart(daily, i) + "\n");
  }

  /** A day block carries the precipitation line exactly when rain is reported or likely. */
  lemma DayBlockPrecipitation(daily: Daily, i: nat)
    requires DayBlock(daily, i).Ok?
    ensures ShowsPrecipitation(daily, i) <==> EndsWith(DayBlock(daily, i).value, " chance)\n\n")
  {
    var date := ParseIsoDate(daily.time[i]).value;
    var t := TemperatureLine(daily.temperatureMax[i], daily.temperatureMin[i]);
    EndsWithSelf("  Temperature: " + TenthsToString(daily.temperatureMax[i]) + "\U{B0}C (High) / "
      + TenthsToString(daily.temperatureMin[i]), "\U{B0}C (Low)\n");
    EndsWithAppend(DayName(date) + "):\n" + "  Condition: " + InterpretWeatherCode(daily.weatherCode[i]) + "\n",
      t, "\U{B0}C (Low)\n");
    if ShowsPrecipitation(daily, i) {
      EndsWithSelf("  Precipitation: " + RainText(daily, i) + "mm (" + IntToString(RainProbability(daily, i)),
        "% chance)\n");
    }
    BlockEnding(DayTitle(i), DayLines(daily, i, date), PrecipitationPart(daily, i));
  }

  /**
   * A block whose day lines end with the low temperature ends with the
   * precipitation line's closing words exactly when that line is present.
   */
  lemma BlockEnding(title: string, lines: string, part: string)
    requires EndsWith(lines, "\U{B0}C (Low)\n")
    requires part == "" || EndsWith(part, "% chance)\n")
    ensures EndsWith(title + (lines + part + "\n"), " chance)\n\n") <==> part != ""
  {
    var v := title + (lines + part + "\n");
    if part == "" {
      assert v[|v| - 4] == lines[|lines| - 3] == 'w';
    } else {
      assert v[|v| - 11..] == part[|part| - 10..] + "\n";
    }
  }

  /** The blocks of days 0 .. n-1; the first day that raises ends the report. */
  function DayBlocks(daily: Daily, n: nat): (r: Result<seq<string>, string>)
    ensures r.Ok? ==> |r.value| == n && forall i :: 0 <= i < n ==> DayBlock(daily, i) == Ok(r.value[i])
    ensures r.Ok? <==> forall i :: 0 <= i < n ==> DayBlock(daily, i).Ok?
  {
    if n == 0 then Ok([])
    else
      match DayBlocks(daily, n - 1)
      case Err(e) => Err(e)
      case Ok(blocks) =>
        match DayBlock(daily, n - 1)
        case Err(e) => Err(e)
        case Ok(b) => Ok(blocks + [b])
  }

  function Concat(parts: seq<string>): string {
    if parts == [] then [] else Concat(parts[..|parts| - 1]) + parts[|parts| - 1]
  }

  /** `range(min(days, len(dates)))`: the number of day blocks. */
  function LoopCount(daily: Daily, days: int): (n: nat)
    ensures n <= |daily.time|
    ensures days >= 0 ==> n == Min(days, |daily.time|)
    ensures days <= 0 ==> n == 0
  {
    if days <= 0 then 0 else Min(days, |daily.time|)
  }

  /** `xs[:n]` with Python's meaning for a negative `n` (all but the last `-n`). */
  function PySlice(xs: seq<int>, n: int): (r: seq<int>)
    ensures |r| <= |xs| && r == xs[..|r|]
    ensures n >= 0 ==> |r| == Min(n, |xs|)
    ensures n < 0 ==> |r| == if |xs| + n >= 0 then |xs| + n else 0
  {
    if n >= 0 then xs[..Min(n, |xs|)]
    else if |xs| + n >= 0 then xs[..|xs| + n]
    else []
  }

  function Sum(xs: seq<int>): int {
    if xs == [] then 0 else Sum(xs[..|xs| - 1]) + xs[|xs| - 1]
  }

  /** `sum(temp_max[:days]) / days`, in degrees. */
  function AverageHigh(daily: Daily, days: int): real
    requires days != 0
  {
    (Sum(PySlice(daily.temperatureMax, days)) as real) / (10.0 * days as real)
  }

  /** `any(p > 5 for p in precipitation[:days])`: more than 5 mm on some day. */
  predicate ExpectsRain(daily: Daily, days: int) {
    var p := PySlice(daily.precipitationSum, days);
    exists j :: 0 <= j < |p| && p[j] > 50
  }

  const HotTip := "  \U{2022} Pack light, breathable clothing and sunscreen\n"
  const ColdTip := "  \U{2022} Bring warm layers and a jacket\n"
  const MildTip := "  \U{2022} Pleasant weather, comfortable clothing recommended\n"
  const UmbrellaTip := "  \U{2022} Carry an umbrella or raincoat\n"
  const DryTip := "  \U{2022} No rain expected, perfect for outdoor activities\n"

  function TemperatureTip(average: real): string {
    if average > 30.0 then HotTip else if average < 20.0 then ColdTip else MildTip
  }

  function Tips(daily: Daily, days: int): string
    requires days != 0
  {
    "\U{1F4A1} Travel Tips:\n" + TemperatureTip(AverageHigh(daily, days))
    + (if ExpectsRain(daily, days) then UmbrellaTip else DryTip)
  }

  lemma ScaledAbove(total: real, d: real, c: real)
    requires d > 0.0
    ensures total / d > c <==> total > c * d
  {
    var q := total / d;
    assert q * d == total;
    if q > c {
      assert (q - c) * d > 0.0;
    } else {
      assert (c - q) * d >= 0.0;
    }
  }

  lemma ScaledBelow(total: real, d: real, c: real)
    requires d > 0.0
    ensures total / d < c <==> total < c * d
  {
    var q := total / d;
    assert q * d == total;
    if q < c {
      assert (c - q) * d > 0.0;
    } else {
      assert (q - c) * d >= 0.0;
    }
  }

  lemma AverageScaled(total: int, days: int)
    requires days > 0
    ensures (total as real) / (10.0 * days as real) > 30.0 <==> total > 300 * days
    ensures (total as real) / (10.0 * days as real) < 20.0 <==> total < 200 * days
  {
    ScaledAbove(total as real, 10.0 * days as real, 30.0);
    ScaledBelow(total as real, 10.0 * days as real, 20.0);
  }

  /**
   * For a positive day count the tips follow the summed highs of the first
   * `days` entries against 30 and 20 degrees a day, and the umbrella tip
   * appears exactly when some day of them has more than 5 mm of rain.
   */
  lemma TipsThresholds(daily: Daily, days: int)
    requires days > 0
    ensures var total := Sum(PySlice(daily.temperatureMax, days));
      Tips(daily, days) == "\U{1F4A1} Travel Tips:\n"
        + (if total > 300 * days then HotTip else if total < 200 * days then ColdTip else MildTip)
        + (if ExpectsRain(daily, days) then UmbrellaTip else DryTip)
  {
    AverageScaled(Sum(PySlice(daily.temperatureMax, days)), days);
  }

  /**
   * The average divides by the days asked for, not by the days summed: seven
   * days at 35.0 degrees asked as a ten-day forecast average 24.5.
   */
  lemma AverageUsesRequestedDays()
    ensures var d := Daily([], [350, 350, 350, 350, 350, 350, 350], [], [], [], []);
      AverageHigh(d, 10) == 24.5 && TemperatureTip(AverageHigh(d, 10)) == MildTip
  {
    var d := Daily([], [350, 350, 350, 350, 350, 350, 350], [], [], [], []);
    assert PySlice(d.temperatureMax, 10) == d.temperatureMax;
    var t := d.temperatureMax;
    assert [350][..0] == [];
    assert [350, 350][..1] == [350];
    assert [350, 350, 350][..2] == [350, 350];
    assert Sum([350, 350, 350]) == 1050;
    assert [350, 350, 350, 350][..3] == [350, 350, 350];
    assert [350, 350, 350, 350, 350][..4] == [350, 350, 350, 350];
    assert Sum([350, 350, 350, 350, 350]) == 1750;
    assert [350, 350, 350, 350, 350, 350][..5] == [350, 350, 350, 350, 350];
    assert t[..6] == [350, 350, 350, 350, 350, 350];
    assert Sum(t) == 2450;
  }

  function Header(cityName: string): string {
    "\U{1F324}\U{FE0F} Weather Forecast for " + cityName + ":\n\n"
  }

  /** What `str()` of a `ZeroDivisionError` says. */
  const DivisionByZero := "division by zero"

  /** The report, or the text of the exception that ends it. */
  function WeatherText(cityName: string, daily: Daily, days: int): Result<string, string> {
    match DayBlocks(daily, LoopCount(daily, days))
    case Err(e) => Err(e)
    case Ok(blocks) =>
      if days == 0 then Err(DivisionByZero)
      else Ok(Header(cityName) + Concat(blocks) + Tips(daily, days))
  }

  /** `_format_weather_output`: every exception becomes an "Error formatting weather data" text. */
  function WeatherReport(cityName: string, daily: Daily, days: int): string {
    match WeatherText(cityName, daily, days)
    case Ok(text) => text
    case Err(e) => "Error formatting weather data: " + e
  }

  /**
   * A report that succeeds has one block per day of `min(days, len(dates))`,
   * each naming its day; a zero-day request always ends in the division error.
   */
  lemma ReportHasOneBlockPerDay(cityName: string, daily: Daily, days: int)
    ensures WeatherText(cityName, daily, days).Ok? ==>
      var blocks := DayBlocks(daily, LoopCount(daily, days)).value;
      |blocks| == LoopCount(daily, days)
      && (forall i :: 0 <= i < |blocks| ==> StartsWith(blocks[i], DayTitle(i)))
      && WeatherText(cityName, daily, days).value == Header(cityName) + Concat(blocks) + Tips(daily, days)
    ensures days == 0 ==> WeatherReport(cityName, daily, days) == "Error formatting weather data: division by zero"
  {
    if WeatherText(cityName, daily, days).Ok? {
      var blocks := DayBlocks(daily, LoopCount(daily, days)).value;
      forall i | 0 <= i < |blocks| ensures StartsWith(blocks[i], DayTitle(i)) {
        DayBlockTitle(daily, i);
      }
    }
  }

  /** `_format_weather_output`, appending to its output as the loop goes. */
  method FormatWeatherOutput(cityName: string, daily: Daily, days: int) returns (output: string)
    ensures output == WeatherReport(cityName, daily, days)
  {
    var n := LoopCount(daily, days);
    var header := Header(cityName);
    var text := header;
    ghost var blocks: seq<string> := [];
    var i := 0;
    while i < n
      invariant 0 <= i <= n
      invariant DayBlocks(daily, i) == Ok(blocks)
      invariant text == header + Concat(blocks)
    {
      var block := DayBlock(daily, i);
      if block.Err? {
        assert DayBlocks(daily, i + 1) == Err(block.error);
        DayBlocksErrorSticks(daily, i + 1, n);
        return "Error formatting weather data: " + block.error;
      }
      assert (blocks + [block.value])[..|blocks|] == blocks;
      AppendAssoc(header, Concat(blocks), block.value);
      blocks := blocks + [block.value];
      text := text + block.value;
      i := i + 1;
    }
    if days == 0 {
      return "Error formatting weather data: " + DivisionByZero;
    }
    output := text + Tips(daily, days);
  }

  /** Once a day has raised, the later days change nothing. */
  lemma {:induction false} DayBlocksErrorSticks(daily: Daily, m: nat, n: nat)
    requires m <= n && DayBlocks(daily, m).Err?
    ensures DayBlocks(daily, n) == DayBlocks(daily, m)
    decreases n
  {
    if n > m {
      DayBlocksErrorSticks(daily, m, n - 1);
      assert DayBlocks(daily, n - 1).Err?;
    }
  }

  // ---------------------------------------------------------------------
  // The tool

  function UnknownCityMessage(city: string): string {
    "City '" + city + "' not found in database. Available cities: " + Join(AvailableCityNames, ", ")
  }

  function FetchFailedMessage(name: string): string {
    "Failed to fetch weather data for " + name + ". Please try again."
  }

  /**
   * `_run`, with the forecast service as `fetch(latitude, longitude, forecastDays)`:
   * `None` for a failed request or an empty response, otherwise the `daily` arrays.
   */
  function WeatherLookup(city: string, days: int, fetch: (real, real, int) -> Option<Daily>): string {
    match GetCoordinates(city)
    case None => UnknownCityMessage(city)
    case Some(c) =>
      match fetch(c.lat, c.lon, ForecastDays(days))
      case None => FetchFailedMessage(c.name)
      case Some(daily) => WeatherReport(c.name, daily, days)
  }

  /** The service is never asked for more than seven days: fetches that agree up to 7 give the same answer. */
  lemma LookupAsksAtMostSevenDays(city: string, days: int, f: (real, real, int) -> Option<Daily>, g: (real, real, int) -> Option<Daily>)
    requires forall lat, lon, n :: n <= 7 ==> f(lat, lon, n) == g(lat, lon, n)
    ensures WeatherLookup(city, days, f) == WeatherLookup(city, days, g)
  {
  }

  /** Unknown cities and failed fetches answer with a message and never reach the report. */
  lemma LookupFailures(city: string, days: int, fetch: (real, real, int) -> Option<Daily>)
    ensures Trim(ToLower(city)) !in CityCoordinates ==> WeatherLookup(city, days, fetch) == UnknownCityMessage(city)
    ensures Trim(ToLower(city)) in CityCoordinates ==>
      var c := CityCoordinates[Trim(ToLower(city))];
      fetch(c.lat, c.lon, ForecastDays(days)).None? ==> WeatherLookup(city, days, fetch) == FetchFailedMessage(c.name)
  {
  }

  /** The tool object; its only state is the forecast service's address, fixed at construction. */
  class WeatherTool {
    const apiBaseUrl: string

    constructor ()
      ensures apiBaseUrl == "https://api.open-meteo.com/v1/forecast"
    {
      apiBaseUrl := "https://api.open-meteo.com/v1/forecast";
    }

    /** `_run`. */
    method Run(city: string, days: int, fetch: (real, real, int) -> Option<Daily>) returns (output: string)
      ensures output == WeatherLookup(city, days, fetch)
    {
      var coords := GetCoordinates(city);
      if coords.None? {
        return UnknownCityMessage(city);
      }
      var c := coords.value;
      var response := fetch(c.lat, c.lon, ForecastDays(days));
      if response.None? {
        return FetchFailedMessage(c.name);
      }
      output := FormatWeatherOutput(c.name, response.value, days);
    }
  }
}
