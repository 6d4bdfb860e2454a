/**
 * The output formatters: currency amounts, the readable date range, and
 * the plain-text itinerary with its fixed sections.
 *
 * Amounts are whole numbers; ratings and temperatures are integer tenths
 * printed as Python prints one-decimal floats.
 */
module Formatters {
  import opened Wrappers
  import opened Text
  import opened Calendar

  // ---------------------------------------------------------------------
  // Currency

  /** `format_currency`: rupees without decimals, dollars and other codes with `.00`. */
  function FormatCurrency(amount: int, currency: string): string {
    if currency == "INR" then "\U{20B9}" + Grouped(amount)
    else if currency == "USD" then "$" + Grouped(amount) + ".00"
    else Grouped(amount) + ".00 " + currency
  }

  /** Reads back an amount written by `FormatCurrency` in the given currency. */
  function ParseCurrency(s: string, currency: string): Option<int> {
    if currency == "INR" then
      if |s| >= 1 && s[0] == '\U{20B9}' then ParseGrouped(s[1..]) else None
    else if currency == "USD" then
      if |s| >= 4 && s[0] == '$' && s[|s| - 3..] == ".00" then ParseGrouped(s[1..|s| - 3]) else None
    else
      var suffix := ".00 " + currency;
      if |s| >= |suffix| && s[|s| - |suffix|..] == suffix then ParseGrouped(s[..|s| - |suffix|]) else None
  }

  /**
   * Dropping the currency decoration and the commas recovers the amount,
   * in every currency.
   */
  lemma CurrencyRoundTrip(amount: int, currency: string)
    ensures ParseCurrency(FormatCurrency(amount, currency), currency) == Some(amount)
  {
    var g := Grouped(amount);
    GroupedRoundTrip(amount);
    var s := FormatCurrency(amount, currency);
    if currency == "INR" {
      assert s[1..] == g;
    } else if currency == "USD" {
      assert s[1..|s| - 3] == g;
      assert s[|s| - 3..] == ".00";
    } else {
      var suffix := ".00 " + currency;
      assert s == g + suffix;
      assert s[..|s| - |suffix|] == g;
      assert s[|s| - |suffix|..] == suffix;
    }
  }

  /** The demo plan's figures: 4,800 and 20,800 rupees. */
  lemma RupeeExamples()
    ensures FormatCurrency(4800, "INR") == "\U{20B9}4,800"
    ensures FormatCurrency(20800, "INR") == "\U{20B9}20,800"
  {
    assert FixedDigits(800, 3) == "800";
    assert GroupedNat(4) == "4" && GroupedNat(20) == "20";
  }

  // ---------------------------------------------------------------------
  // Date ranges

  /** `format_date_range`: "Mon DD - Mon DD, YYYY"; only the end date's year is shown. */
  function FormatDateRange(startDate: string, endDate: string): Result<string, DateError> {
    match ParseIsoDate(startDate)
    case Err(e) => Err(e)
    case Ok(start) =>
      match ParseIsoDate(endDate)
      case Err(e) => Err(e)
      case Ok(end) => Ok(RangeText(start, end))
  }

  /** `'%b %d'` of the start and `'%b %d, %Y'` of the end; the year unpadded, as glibc prints it. */
  function RangeText(start: Date, end: Date): string
    requires ValidDate(start) && ValidDate(end)
  {
    MonthAbbr(start) + " " + Pad2(start.day) + " - " + MonthAbbr(end) + " " + Pad2(end.day) + ", " + IntToString(end.year)
  }

  /** The month number of a `%b` abbreviation. */
  function MonthNumber(abbr: string): Option<int> {
    if abbr == "Jan" then Some(1) else if abbr == "Feb" then Some(2) else if abbr == "Mar" then Some(3)
    else if abbr == "Apr" then Some(4) else if abbr == "May" then Some(5) else if abbr == "Jun" then Some(6)
    else if abbr == "Jul" then Some(7) else if abbr == "Aug" then Some(8) else if abbr == "Sep" then Some(9)
    else if abbr == "Oct" then Some(10) else if abbr == "Nov" then Some(11) else if abbr == "Dec" then Some(12)
    else None
  }

  lemma MonthNumberOfAbbr(d: Date)
    requires ValidDate(d)
    ensures MonthNumber(MonthAbbr(d)) == Some(d.month)
  {
  }

  /** What a date range shows: start month and day, end month, day and year. */
  datatype RangeFields = RangeFields(startMonth: int, startDay: int, endMonth: int, endDay: int, endYear: int)

  /** Reads back a date range text. */
  function ParseDateRange(s: string): Option<RangeFields> {
    if |s| < 18 || s[3] != ' ' || s[6..9] != " - " || s[12] != ' ' || s[15..17] != ", " then None
    else if !AllDigits(s[4..6]) || !AllDigits(s[13..15]) then None
    else
      match (MonthNumber(s[..3]), MonthNumber(s[9..12]), ParseInt(s[17..]))
      case (Some(m1), Some(m2), Some(y)) => Some(RangeFields(m1, DigitsValue(s[4..6]), m2, DigitsValue(s[13..15]), y))
      case _ => None
  }

  /** A date range text determines the months, the days and the end year. */
  lemma DateRangeRoundTrip(start: Date, end: Date)
    requires ValidDate(start) && ValidDate(end)
    ensures ParseDateRange(RangeText(start, end)) == Some(RangeFields(start.month, start.day, end.month, end.day, end.year))
  {
    FixedDigitsValue(start.day, 2);
    FixedDigitsValue(end.day, 2);
    MonthNumberOfAbbr(start);
    MonthNumberOfAbbr(end);
    IntToStringRoundTrip(end.year);
    RangeFieldsAt(MonthAbbr(start), Pad2(start.day), MonthAbbr(end), Pad2(end.day), IntToString(end.year));
  }

  /** The fixed layout of a range text puts each field at its own place. */
  lemma RangeFieldsAt(m1: string, d1: string, m2: string, d2: string, y: string)
    requires |m1| == 3 && |m2| == 3 && |d1| == 2 && |d2| == 2 && AllDigits(d1) && AllDigits(d2)
    requires MonthNumber(m1).Some? && MonthNumber(m2).Some? && ParseInt(y).Some?
    ensures ParseDateRange(m1 + " " + d1 + " - " + m2 + " " + d2 + ", " + y)
         == Some(RangeFields(MonthNumber(m1).value, DigitsValue(d1), MonthNumber(m2).value, DigitsValue(d2), ParseInt(y).value))
  {
    var s := m1 + " " + d1 + " - " + m2 + " " + d2 + ", " + y;
    assert |s| >= 18 && s[3] == ' ' && s[12] == ' ';
    assert s[6..9] == " - " && s[15..17] == ", ";
    assert s[..3] == m1 && s[9..12] == m2 && s[17..] == y;
    assert s[4..6] == d1 && s[13..15] == d2;
  }

  /** The start date's year is not shown: start dates that differ only in the year give the same text. */
  lemma DateRangeIgnoresStartYear(start1: Date, start2: Date, end: Date)
    requires ValidDate(start1) && ValidDate(start2) && ValidDate(end)
    requires start1.month == start2.month && start1.day == start2.day
    ensures RangeText(start1, end) == RangeText(start2, end)
  {
  }

  /** A bad start date is reported before the end date is read. */
  lemma DateRangeErrors(startDate: string, endDate: string)
    ensures FormatDateRange(startDate, endDate).Err? <==> ParseIsoDate(startDate).Err? || ParseIsoDate(endDate).Err?
    ensures ParseIsoDate(startDate).Err? ==> FormatDateRange(startDate, endDate) == Err(ParseIsoDate(startDate).error)
  {
  }

  // ---------------------------------------------------------------------
  // The itinerary text

  datatype FlightChoice = FlightChoice(airline: string, flightId: string, price: int,
                                       departure: string, arrival: string, duration: string)

  datatype HotelChoice = HotelChoice(name: string, rating: int, pricePerNight: int, amenities: seq<string>)

  datatype WeatherDay = WeatherDay(day: int, date: string, condition: string, tempHigh: int)

  datatype Activity = Activity(name: string, kind: string, rating: int, description: string)

  datatype DayPlan = DayPlan(day: int, title: string, activities: seq<Activity>)

  datatype Budget = Budget(flight: int, hotel: int, foodAndTravel: int, activities: int, total: int)

  /** The itinerary record `format_itinerary_text` reads; every key it reads is present. */
  datatype Itinerary = Itinerary(
    numDays: int,
    destination: string,
    startDate: string,
    endDate: string,
    flight: FlightChoice,
    hotel: HotelChoice,
    weather: seq<WeatherDay>,
    dailyItinerary: seq<DayPlan>,
    budget: Budget)

  function Rule(c: string): string {
    Repeat(c, 70)
  }

  function Inr(amount: int): string {
    FormatCurrency(amount, "INR")
  }

  const FlightTitle := "\U{2708}\U{FE0F}  FLIGHT SELECTED"
  const HotelTitle := "\U{1F3E8} HOTEL BOOKED"
  const WeatherTitle := "\U{1F324}\U{FE0F}  WEATHER FORECAST"
  const DaysTitle := "\U{1F4C5} DAY-WISE ITINERARY"
  const BudgetTitle := "\U{1F4B0} BUDGET BREAKDOWN"

  function HeaderLines(it: Itinerary): seq<string> {
    [Rule("="),
     "YOUR " + IntToString(it.numDays) + "-DAY TRIP TO " + ToUpper(it.destination),
     it.startDate + " to " + it.endDate,
     Rule("="),
     ""]
  }

  function FlightLines(f: FlightChoice): seq<string> {
    [FlightTitle,
     Rule("-"),
     "Airline: " + f.airline + " (" + f.flightId + ")",
     "Price: " + Inr(f.price),
     "Departure: " + f.departure + " | Arrival: " + f.arrival,
     "Duration: " + f.duration,
     ""]
  }

  function HotelLines(h: HotelChoice): seq<string> {
    [HotelTitle,
     Rule("-"),
     "Hotel: " + h.name,
     "Rating: \U{2B50} " + TenthsToString(h.rating) + "/5",
     "Price: " + Inr(h.pricePerNight) + "/night",
     "Amenities: " + Join(h.amenities, ", "),
     ""]
  }

  function WeatherLine(w: WeatherDay): string {
    "Day " + IntToString(w.day) + " (" + w.date + "): " + w.condition + " - " + TenthsToString(w.tempHigh) + "\U{B0}C"
  }

  /** One line per weather entry, in order. */
  function WeatherLines(ws: seq<WeatherDay>): (r: seq<string>)
    ensures |r| == |ws|
    ensures forall i :: 0 <= i < |ws| ==> r[i] == WeatherLine(ws[i])
  {
    LinesOf(ws, WeatherLine)
  }

  /** `line(x)` for each `x` of `xs`, in order. */
  function LinesOf<T>(xs: seq<T>, line: T -> string): (r: seq<string>)
    ensures |r| == |xs|
    ensures forall i :: 0 <= i < |xs| ==> r[i] == line(xs[i])
  {
    if xs == [] then [] else LinesOf(xs[..|xs| - 1], line) + [line(xs[|xs| - 1])]
  }

  function ActivityLines(a: Activity): seq<string> {
    ["  \U{1F4CD} " + a.name + " (" + a.kind + ", \U{2B50} " + TenthsToString(a.rating) + ")",
     "     " + a.description]
  }

  /** The two lines of each activity, in order. */
  function ActivitiesLines(acts: seq<Activity>): (r: seq<string>)
    ensures |r| == 2 * |acts|
  {
    if acts == [] then [] else ActivitiesLines(acts[..|acts| - 1]) + ActivityLines(acts[|acts| - 1])
  }

  function DayTitleLine(d: DayPlan): string {
    "\nDay " + IntToString(d.day) + ": " + d.title
  }

  function DayPlanLines(d: DayPlan): seq<string> {
    [DayTitleLine(d)] + ActivitiesLines(d.activities)
  }

  /** Lines a day takes: its title and two per activity. */
  function DayLineCount(days: seq<DayPlan>): nat {
    if days == [] then 0 else DayLineCount(days[..|days| - 1]) + 1 + 2 * |days[|days| - 1].activities|
  }

  function DaysLines(days: seq<DayPlan>): (r: seq<string>)
    ensures |r| == DayLineCount(days)
  {
    if days == [] then [] else DaysLines(days[..|days| - 1]) + DayPlanLines(days[|days| - 1])
  }

  function BudgetLines(b: Budget): seq<string> {
    [BudgetTitle,
     Rule("-"),
     "Flight:              " + Inr(b.flight),
     "Hotel:               " + Inr(b.hotel),
     "Food & Travel:       " + Inr(b.foodAndTravel),
     "Activities:          " + Inr(b.activities),
     Rule("-"),
     "TOTAL COST:          " + Inr(b.total),
     Rule("=")]
  }

  /** Header, flight and hotel sections and the weather heading: 21 lines. */
  function FrontLines(it: Itinerary): (r: seq<string>)
    ensures |r| == 21
    ensures r[1] == "YOUR " + IntToString(it.numDays) + "-DAY TRIP TO " + ToUpper(it.destination)
    ensures r[5] == FlightTitle && r[12] == HotelTitle && r[19] == WeatherTitle
  {
    var head, flight, hotel := HeaderLines(it), FlightLines(it.flight), HotelLines(it.hotel);
    Concat4Index(head, flight, hotel, [WeatherTitle, Rule("-")]);
    head + flight + hotel + [WeatherTitle, Rule("-")]
  }

  /** The blank line closing the weather, the day-wise plan, and its closing blank line. */
  function DaysSection(days: seq<DayPlan>): (r: seq<string>)
    ensures |r| == 4 + DayLineCount(days)
    ensures r[1] == DaysTitle
  {
    ["", DaysTitle, Rule("-")] + DaysLines(days) + [""]
  }

  /** The lines of the itinerary text, section by section. */
  function ItineraryLines(it: Itinerary): seq<string> {
    FrontLines(it) + WeatherLines(it.weather) + DaysSection(it.dailyItinerary) + BudgetLines(it.budget)
  }

  /** `format_itinerary_text`. */
  function ItineraryText(it: Itinerary): string {
    Join(ItineraryLines(it), "\n")
  }

  /**
   * The sections come in a fixed order at fixed places: header, flight,
   * hotel, weather, the day-wise plan, and the budget.
   */
  lemma ItinerarySections(it: Itinerary)
    ensures var lines := ItineraryLines(it); var w := |it.weather|; var d := DayLineCount(it.dailyItinerary);
      |lines| == 34 + w + d
      && lines[1] == "YOUR " + IntToString(it.numDays) + "-DAY TRIP TO " + ToUpper(it.destination)
      && lines[5] == FlightTitle && lines[12] == HotelTitle && lines[19] == WeatherTitle
      && lines[22 + w] == DaysTitle
      && lines[25 + w + d] == BudgetTitle
  {
    Concat4Index(FrontLines(it), WeatherLines(it.weather), DaysSection(it.dailyItinerary), BudgetLines(it.budget));
  }

  /** The weather forecast lists one line per weather entry, in order, from line 21 on. */
  lemma ItineraryWeatherLines(it: Itinerary)
    ensures var lines := ItineraryLines(it);
      21 + |it.weather| <= |lines| && lines[21..21 + |it.weather|] == WeatherLines(it.weather)
  {
    ConcatSecond(FrontLines(it), WeatherLines(it.weather), DaysSection(it.dailyItinerary), BudgetLines(it.budget));
  }

  /**
   * The total line shows the budget's own total, whatever the other
   * figures are: it is printed, not recomputed.
   */
  lemma TotalPrintedAsGiven(it: Itinerary)
    ensures var lines := ItineraryLines(it);
      |lines| >= 2 && StartsWith(lines[|lines| - 2], "TOTAL COST:          ")
      && ParseCurrency(lines[|lines| - 2][21..], "INR") == Some(it.budget.total)
  {
    var lines := ItineraryLines(it);
    var b := BudgetLines(it.budget);
    var prefix := FrontLines(it) + WeatherLines(it.weather) + DaysSection(it.dailyItinerary);
    assert lines == prefix + b;
    assert lines[|lines| - 2] == b[7];
    var t := "TOTAL COST:          ";
    assert |t| == 21;
    StartsWithSelf(t, Inr(it.budget.total));
    assert b[7][21..] == Inr(it.budget.total);
    CurrencyRoundTrip(it.budget.total, "INR");
  }

  /** Each day of the plan takes one title line and two lines per activity. */
  lemma DayLinesStep(days: seq<DayPlan>, k: int)
    requires 0 <= k < |days|
    ensures DaysLines(days[..k + 1]) == DaysLines(days[..k]) + [DayTitleLine(days[k])] + ActivitiesLines(days[k].activities)
    ensures DayLineCount(days[..k + 1]) == DayLineCount(days[..k]) + 1 + 2 * |days[k].activities|
  {
    assert days[..k + 1][..k] == days[..k];
  }

  lemma SeqAssoc3(a: seq<string>, b: seq<string>, c: seq<string>, d: seq<string>)
    ensures a + b + c + d == a + (b + c + d)
  {
  }

  /** Where each of four concatenated pieces sits. */
  lemma Concat4Index<T>(a: seq<T>, b: seq<T>, c: seq<T>, d: seq<T>)
    ensures var s := a + b + c + d;
      |s| == |a| + |b| + |c| + |d|
      && (forall i :: 0 <= i < |a| ==> s[i] == a[i])
      && (forall i :: 0 <= i < |b| ==> s[|a| + i] == b[i])
      && (forall i :: 0 <= i < |c| ==> s[|a| + |b| + i] == c[i])
      && (forall i :: 0 <= i < |d| ==> s[|a| + |b| + |c| + i] == d[i])
  {
  }

  lemma ConcatSecond<T>(a: seq<T>, b: seq<T>, c: seq<T>, d: seq<T>)
    ensures (a + b + c + d)[|a|..|a| + |b|] == b
  {
  }

  lemma SeqAssoc5(a: seq<string>, b: seq<string>, c: seq<string>, d: seq<string>, e: seq<string>)
    ensures (((a + b) + c) + d) + e == a + (b + c + d) + e
  {
  }

  /** The weather loop: one line per entry. */
  method AppendWeatherLines(output: seq<string>, weather: seq<WeatherDay>) returns (r: seq<string>)
    ensures r == output + WeatherLines(weather)
  {
    r := output;
    var i := 0;
    while i < |weather|
      invariant 0 <= i <= |weather|
      invariant r == output + WeatherLines(weather[..i])
    {
      assert weather[..i + 1][..i] == weather[..i];
      r := r + [WeatherLine(weather[i])];
      i := i + 1;
    }
    assert weather[..i] == weather;
  }

  /** The inner loop over a day's activities: a name line and a description line each. */
  method AppendActivityLines(output: seq<string>, acts: seq<Activity>) returns (r: seq<string>)
    ensures r == output + ActivitiesLines(acts)
  {
    r := output;
    var j := 0;
    while j < |acts|
      invariant 0 <= j <= |acts|
      invariant r == output + ActivitiesLines(acts[..j])
    {
      assert acts[..j + 1][..j] == acts[..j];
      var lines := ActivityLines(acts[j]);
      r := r + [lines[0]];
      r := r + [lines[1]];
      assert r == output + ActivitiesLines(acts[..j]) + lines;
      j := j + 1;
    }
    assert acts[..j] == acts;
  }

  /** The outer loop over the days: a title line, then the activities. */
  method AppendDayLines(output: seq<string>, days: seq<DayPlan>) returns (r: seq<string>)
    ensures r == output + DaysLines(days)
  {
    r := output;
    var k := 0;
    while k < |days|
      invariant 0 <= k <= |days|
      invariant r == output + DaysLines(days[..k])
    {
      var day := days[k];
      r := r + [DayTitleLine(day)];
      r := AppendActivityLines(r, day.activities);
      DayLinesStep(days, k);
      SeqAssoc3(output, DaysLines(days[..k]), [DayTitleLine(day)], ActivitiesLines(day.activities));
      k := k + 1;
    }
    assert days[..k] == days;
  }

  /** Builds the lines as `format_itinerary_text` does, section after section, then joins them. */
  method FormatItineraryText(it: Itinerary) returns (text: string)
    ensures text == ItineraryText(it)
  {
    var output := FrontLines(it);
    output := AppendWeatherLines(output, it.weather);
    output := output + ["", DaysTitle, Rule("-")];
    output := AppendDayLines(output, it.dailyItinerary);
    output := output + [""];
    output := output + BudgetLines(it.budget);
    SeqAssoc5(FrontLines(it) + WeatherLines(it.weather), ["", DaysTitle, Rule("-")], DaysLines(it.dailyItinerary), [""], BudgetLines(it.budget));
    text := Join(output, "\n");
  }
}
