/**
 * The flight search tool: route filtering, the stable price/duration sort,
 * duration text, the "top 3" report with its recommendation, and the
 * tool's entry point that turns every failure into a message.
 */
module FlightSearch {
  import opened Wrappers
  import opened Text
  import opened StableSort

  /**
   * One record of the flights dataset. A record without `duration_minutes`
   * or `price` has `None` there; the other fields are present.
   */
  datatype Flight = Flight(
    flightId: string,
    airline: string,
    source: string,
    destination: string,
    departureTime: string,
    arrivalTime: string,
    durationMinutes: Option<int>,
    price: Option<int>,
    availableSeats: int)

  // ---------------------------------------------------------------------
  // Filtering

  /** The record's lower-cased cities equal the (already normalised) query keys. */
  predicate OnRoute(f: Flight, sourceKey: string, destinationKey: string) {
    ToLower(f.source) == sourceKey && ToLower(f.destination) == destinationKey
  }

  /** `a` is `b` with some elements left out and the rest kept in order. */
  predicate IsSubsequence<T(==)>(a: seq<T>, b: seq<T>)
    decreases |b|
  {
    if b == [] then a == []
    else IsSubsequence(a, b[1..]) || (a != [] && a[0] == b[0] && IsSubsequence(a[1..], b[1..]))
  }

  /** The records on the route, in dataset order. */
  function SelectRoute(flights: seq<Flight>, sourceKey: string, destinationKey: string): (r: seq<Flight>)
    ensures forall i :: 0 <= i < |r| ==> OnRoute(r[i], sourceKey, destinationKey)
    ensures IsSubsequence(r, flights)
    ensures forall f :: multiset(r)[f] == if OnRoute(f, sourceKey, destinationKey) then multiset(flights)[f] else 0
  {
    if flights == [] then []
    else
      var rest := SelectRoute(flights[1..], sourceKey, destinationKey);
      assert flights == [flights[0]] + flights[1..];
      if OnRoute(flights[0], sourceKey, destinationKey) then
        assert ([flights[0]] + rest)[1..] == rest;
        [flights[0]] + rest
      else rest
  }

  /** `_filter_flights`: the query is lower-cased and stripped, the records only lower-cased. */
  function FilterFlights(flights: seq<Flight>, source: string, destination: string): (r: seq<Flight>)
    ensures forall i :: 0 <= i < |r| ==>
      ToLower(r[i].source) == Trim(ToLower(source)) && ToLower(r[i].destination) == Trim(ToLower(destination))
    ensures IsSubsequence(r, flights)
    ensures forall f :: multiset(r)[f] == (if OnRoute(f, Trim(ToLower(source)), Trim(ToLower(destination))) then multiset(flights)[f] else 0)
  {
    SelectRoute(flights, Trim(ToLower(source)), Trim(ToLower(destination)))
  }

  /** The query is matched without regard to letter case or surrounding whitespace. */
  lemma FilterIgnoresQueryCaseAndSpace(flights: seq<Flight>, w1: string, source: string, w2: string, w3: string, destination: string, w4: string)
    requires AllSpace(w1) && AllSpace(w2) && AllSpace(w3) && AllSpace(w4)
    ensures FilterFlights(flights, w1 + source + w2, w3 + destination + w4) == FilterFlights(flights, source, destination)
    ensures FilterFlights(flights, ToUpper(source), ToUpper(destination)) == FilterFlights(flights, source, destination)
  {
    TrimLowerSurrounded(w1, source, w2);
    TrimLowerSurrounded(w3, destination, w4);
    ToLowerOfToUpper(source);
    ToLowerOfToUpper(destination);
  }

  // ---------------------------------------------------------------------
  // Durations

  /** `_format_duration`: whole hours, then the remaining minutes when there are any. */
  function FormatDuration(minutes: int): string {
    IntToString(minutes / 60) + "h" + MinutesTail(minutes % 60)
  }

  /** `" Ym"` when there are minutes left over, else nothing. */
  function MinutesTail(mins: int): string {
    if mins > 0 then " " + IntToString(mins) + "m" else ""
  }

  function FirstIndexOf(s: string, c: char): Option<nat> {
    if s == [] then None
    else if s[0] == c then Some(0)
    else match FirstIndexOf(s[1..], c)
      case None => None
      case Some(i) => Some(i + 1)
  }

  /** Reads back `"Xh"` or `"Xh Ym"` as a number of minutes. */
  function ParseDuration(s: string): Option<int> {
    match FirstIndexOf(s, 'h')
    case None => None
    case Some(i) =>
      if i >= |s| then None else HoursAndMinutes(ParseInt(s[..i]), ParseMinutesSuffix(s[i + 1..]))
  }

  /** What follows the `h`: nothing, or `" Ym"`. */
  function ParseMinutesSuffix(rest: string): Option<int> {
    if rest == [] then Some(0)
    else if |rest| >= 2 && rest[0] == ' ' && rest[|rest| - 1] == 'm' then ParseInt(rest[1..|rest| - 1])
    else None
  }

  function HoursAndMinutes(hours: Option<int>, mins: Option<int>): Option<int> {
    if hours.Some? && mins.Some? then Some(hours.value * 60 + mins.value) else None
  }

  lemma {:induction false} FirstIndexOfAfter(a: string, c: char, b: string)
    requires c !in a
    ensures FirstIndexOf(a + [c] + b, c) == Some(|a|)
  {
    if a != [] {
      assert (a + [c] + b)[1..] == a[1..] + [c] + b;
      FirstIndexOfAfter(a[1..], c, b);
    }
  }

  lemma IntToStringHasNoH(i: int)
    ensures 'h' !in IntToString(i)
  {
    if i < 0 {
      NatToStringDigits(-i);
      assert forall k :: 0 <= k < |IntToString(i)| ==> IntToString(i)[k] == '-' || IsDigit(IntToString(i)[k]);
    } else {
      NatToStringDigits(i);
    }
  }

  /** Splitting at the first `h`, when the hours text has none. */
  lemma ParseDurationAt(hs: string, tail: string)
    requires 'h' !in hs
    ensures ParseDuration(hs + "h" + tail) == HoursAndMinutes(ParseInt(hs), ParseMinutesSuffix(tail))
  {
    var s := hs + "h" + tail;
    assert s == hs + ['h'] + tail;
    FirstIndexOfAfter(hs, 'h', tail);
    assert s[..|hs|] == hs;
    assert s[|hs| + 1..] == tail;
  }

  lemma MinutesTailParses(mins: int)
    requires mins >= 0
    ensures ParseMinutesSuffix(MinutesTail(mins)) == Some(mins)
  {
    if mins > 0 {
      var tail := " " + IntToString(mins) + "m";
      assert tail[1..|tail| - 1] == IntToString(mins);
      IntToStringRoundTrip(mins);
    }
  }

  lemma DivMod60(m: int)
    ensures m == (m / 60) * 60 + m % 60
  {
  }

  /** The duration text determines the minutes: hours * 60 + minutes recovers the input. */
  lemma DurationRoundTrip(minutes: int)
    ensures ParseDuration(FormatDuration(minutes)) == Some(minutes)
  {
    var hours, mins := minutes / 60, minutes % 60;
    DivMod60(minutes);
    var hs, tail := IntToString(hours), MinutesTail(mins);
    assert FormatDuration(minutes) == hs + "h" + tail;
    IntToStringHasNoH(hours);
    IntToStringRoundTrip(hours);
    ParseDurationAt(hs, tail);
    MinutesTailParses(mins);
    assert HoursAndMinutes(Some(hours), Some(mins)) == Some(minutes);
  }

  // ---------------------------------------------------------------------
  // Sorting

  /** The price sort key: a record without a price sorts as 999999. */
  function PriceKey(f: Flight): int {
    f.price.GetOr(999999)
  }

  /** The duration sort key: a record without a duration sorts as 999 minutes. */
  function DurationKey(f: Flight): int {
    f.durationMinutes.GetOr(999)
  }

  function SortKey(sortBy: string): Flight -> int {
    if sortBy == "duration" then DurationKey else PriceKey
  }

  /** `_sort_flights`: a stable sort by duration when asked for, by price otherwise. */
  function SortFlights(flights: seq<Flight>, sortBy: string): (r: seq<Flight>)
    ensures multiset(r) == multiset(flights)
    ensures sortBy == "duration" ==> SortedBy(r, DurationKey)
    ensures sortBy != "duration" ==> SortedBy(r, PriceKey)
    ensures forall k :: WithKey(r, SortKey(sortBy), k) == WithKey(flights, SortKey(sortBy), k)
  {
    SortBy(flights, SortKey(sortBy))
  }

  // ---------------------------------------------------------------------
  // The report

  const NoFlightsMessage := "No flights found for this route."

  /** The glyphs the source file carries in mis-decoded form ("â†’", "â‚¹", "ðŸ’¡"). */
  const RouteArrow := "\U{E2}\U{2020}\U{2019}"
  const RupeeSign := "\U{E2}\U{201A}\U{B9}"
  const BulbSign := "\U{F0}\U{178}\U{2019}\U{A1}"

  /** What `str()` of the `TypeError` says when `None` is formatted with `:,`. */
  const NoneFormatError := "unsupported format string passed to NoneType.__format__"

  /** The text of the entry for the `n`-th listed flight, whose price is `p`. */
  function EntryText(n: int, f: Flight, p: int): string {
    IntToString(n) + ". " + f.airline + " (" + f.flightId + ")\n"
    + "   Route: " + f.source + " " + RouteArrow + " " + f.destination + "\n"
    + "   Price: " + RupeeSign + Grouped(p) + "\n"
    + "   Departure: " + f.departureTime + " | Arrival: " + f.arrivalTime + "\n"
    + "   Duration: " + FormatDuration(f.durationMinutes.GetOr(0)) + "\n"
    + "   Available Seats: " + IntToString(f.availableSeats) + "\n\n"
  }

  /** The entry for the `n`-th listed flight; formatting a missing price raises. */
  function FlightEntry(n: int, f: Flight): (r: Result<string, string>)
    ensures r.Ok? <==> f.price.Some?
  {
    match f.price
    case None => Err(NoneFormatError)
    case Some(p) => Ok(EntryText(n, f, p))
  }

  /** The entries of `fs`, numbered from 1 and each written by `entry`; the first failing entry ends the listing. */
  function EntriesBy(fs: seq<Flight>, entry: (int, Flight) -> Result<string, string>): Result<string, string> {
    if fs == [] then Ok("")
    else
      match EntriesBy(fs[..|fs| - 1], entry)
      case Err(e) => Err(e)
      case Ok(text) =>
        match entry(|fs|, fs[|fs| - 1])
        case Err(e) => Err(e)
        case Ok(x) => Ok(text + x)
  }

  /** The entries of the listed flights. */
  function Entries(fs: seq<Flight>): Result<string, string> {
    EntriesBy(fs, FlightEntry)
  }

  /** With an entry writer that fails exactly on unpriced flights, the listing succeeds exactly when all are priced. */
  lemma {:induction false} EntriesBySucceed(fs: seq<Flight>, entry: (int, Flight) -> Result<string, string>)
    requires forall n, f :: entry(n, f).Ok? <==> f.price.Some?
    ensures EntriesBy(fs, entry).Ok? <==> forall i :: 0 <= i < |fs| ==> fs[i].price.Some?
  {
    if fs != [] {
      var init, last := fs[..|fs| - 1], fs[|fs| - 1];
      EntriesBySucceed(init, entry);
      assert EntriesBy(fs, entry).Ok? <==> EntriesBy(init, entry).Ok? && entry(|fs|, last).Ok?;
      assert forall i :: 0 <= i < |init| ==> init[i] == fs[i];
      assert fs == init + [last];
    }
  }

  /** The listing succeeds exactly when every listed flight has a price. */
  lemma EntriesSucceed(fs: seq<Flight>)
    ensures Entries(fs).Ok? <==> forall i :: 0 <= i < |fs| ==> fs[i].price.Some?
  {
    EntriesBySucceed(fs, FlightEntry);
  }

  /** The recommendation names price when a second flight exists that is not cheaper than the first. */
  predicate RecommendsPrice(flights: seq<Flight>)
    requires |flights| > 0
  {
    |flights| > 1 && flights[0].price.Some? && flights[0].price.value <= PriceKey(flights[1])
  }

  function Header(count: int): string {
    "Found " + IntToString(count) + " flight(s):\n\n"
  }

  function RecommendationLine(flights: seq<Flight>): string
    requires |flights| > 0
  {
    BulbSign + " Recommendation: " + flights[0].airline + " offers the best "
    + (if RecommendsPrice(flights) then "price" else "duration") + " for this route.\n"
  }

  /** `_format_flight_output`: Err carries the text of the exception the formatting raises. */
  function FlightOutput(flights: seq<Flight>): Result<string, string> {
    if flights == [] then Ok(NoFlightsMessage)
    else
      match Entries(flights[..Min(3, |flights|)])
      case Err(e) => Err(e)
      case Ok(body) => Ok(Header(|flights|) + body + RecommendationLine(flights))
  }

  /** Builds the report entry by entry over the top three flights, as `_format_flight_output` does. */
  method FormatFlightOutput(flights: seq<Flight>) returns (r: Result<string, string>)
    ensures r == FlightOutput(flights)
  {
    if |flights| == 0 {
      return Ok(NoFlightsMessage);
    }
    var top := flights[..Min(3, |flights|)];
    var output := "";
    var i := 0;
    while i < |top|
      invariant 0 <= i <= |top|
      invariant Entries(top[..i]) == Ok(output)
    {
      var entry := FlightEntry(i + 1, top[i]);
      EntriesStep(top, FlightEntry, i);
      if entry.Err? {
        EntriesPrefixError(top, FlightEntry, i + 1);
        return Err(entry.error);
      }
      output := output + entry.value;
      i := i + 1;
    }
    assert top[..|top|] == top;
    r := Ok(Header(|flights|) + output + RecommendationLine(flights));
  }

  lemma EntriesStep(fs: seq<Flight>, entry: (int, Flight) -> Result<string, string>, i: nat)
    requires i < |fs| && EntriesBy(fs[..i], entry).Ok?
    ensures entry(i + 1, fs[i]).Err? ==> EntriesBy(fs[..i + 1], entry) == Err(entry(i + 1, fs[i]).error)
    ensures entry(i + 1, fs[i]).Ok? ==>
      EntriesBy(fs[..i + 1], entry) == Ok(EntriesBy(fs[..i], entry).value + entry(i + 1, fs[i]).value)
  {
    var p := fs[..i + 1];
    assert p[..|p| - 1] == fs[..i];
    assert p[|p| - 1] == fs[i];
  }

  lemma {:induction false} EntriesPrefixError(fs: seq<Flight>, entry: (int, Flight) -> Result<string, string>, n: nat)
    requires 0 < n <= |fs|
    requires EntriesBy(fs[..n], entry).Err?
    ensures EntriesBy(fs, entry) == EntriesBy(fs[..n], entry)
    decreases |fs| - n
  {
    if n < |fs| {
      assert fs[..n + 1][..n] == fs[..n];
      EntriesPrefixError(fs, entry, n + 1);
    } else {
      assert fs[..n] == fs;
    }
  }

  /** Only the first three flights are listed: the report depends on the others only through the count. */
  lemma OutputListsTopThree(a: seq<Flight>, b: seq<Flight>)
    requires |a| == |b| && a[..Min(3, |a|)] == b[..Min(3, |b|)]
    ensures FlightOutput(a) == FlightOutput(b)
  {
    if |a| > 0 {
      assert a[0] == a[..Min(3, |a|)][0] && b[0] == b[..Min(3, |b|)][0];
      if |a| > 1 {
        assert a[1] == a[..Min(3, |a|)][1] && b[1] == b[..Min(3, |b|)][1];
      }
      assert RecommendationLine(a) == RecommendationLine(b);
    }
  }

  /** The report fails exactly when one of the listed (top three) flights has no price. */
  lemma OutputFailsOnMissingPrice(flights: seq<Flight>)
    ensures FlightOutput(flights).Err? <==> exists i :: 0 <= i < Min(3, |flights|) && flights[i].price.None?
  {
    if flights != [] {
      var top := flights[..Min(3, |flights|)];
      assert forall i :: 0 <= i < |top| ==> top[i] == flights[i];
      EntriesSucceed(top);
    }
  }

  /** A successful report on a non-empty list opens with the number of matching flights. */
  lemma OutputStartsWithCount(flights: seq<Flight>)
    requires |flights| > 0 && FlightOutput(flights).Ok?
    ensures StartsWith(FlightOutput(flights).value, Header(|flights|))
  {
    var h := Header(|flights|);
    var rest := Entries(flights[..Min(3, |flights|)]).value + RecommendationLine(flights);
    AppendAssoc(h, Entries(flights[..Min(3, |flights|)]).value, RecommendationLine(flights));
    assert FlightOutput(flights).value == h + rest;
    assert (h + rest)[..|h|] == h;
  }

  /** After a sort by price, a report on two or more flights recommends the price. */
  lemma PriceSortRecommendsPrice(flights: seq<Flight>)
    requires |flights| >= 2
    ensures |SortFlights(flights, "price")| == |flights|
    ensures var s := SortFlights(flights, "price"); s[0].price.Some? ==> RecommendsPrice(s)
  {
    var s := SortFlights(flights, "price");
    assert |s| == |multiset(s)| == |multiset(flights)| == |flights|;
    assert PriceKey(s[0]) <= PriceKey(s[1]);
  }

  // ---------------------------------------------------------------------
  // The tool

  function NoDirectFlightsMessage(source: string, destination: string): string {
    "No direct flights found from " + source + " to " + destination + ". Please try different cities or check spelling."
  }

  /** `_run`: filter, sort, report; a failure becomes an "Error searching flights" message. */
  function SearchResult(flights: seq<Flight>, source: string, destination: string, sortBy: string): string {
    var matching := FilterFlights(flights, source, destination);
    if matching == [] then NoDirectFlightsMessage(source, destination)
    else
      match FlightOutput(SortFlights(matching, sortBy))
      case Ok(text) => text
      case Err(e) => "Error searching flights: " + e
  }

  /** With every matching flight priced, a price search lists them and, for two or more, recommends the price. */
  lemma PricedSearchSucceeds(flights: seq<Flight>, source: string, destination: string)
    requires var m := FilterFlights(flights, source, destination); forall i :: 0 <= i < |m| ==> m[i].price.Some?
    ensures var m := FilterFlights(flights, source, destination);
      m == [] ==> SearchResult(flights, source, destination, "price") == NoDirectFlightsMessage(source, destination)
    ensures var m := FilterFlights(flights, source, destination); var s := SortFlights(m, "price");
      m != [] ==> (FlightOutput(s).Ok? && SearchResult(flights, source, destination, "price") == FlightOutput(s).value
                   && (|m| >= 2 ==> RecommendsPrice(s)))
  {
    var m := FilterFlights(flights, source, destination);
    var s := SortFlights(m, "price");
    if m != [] {
      assert |s| == |multiset(s)| == |multiset(m)| == |m|;
      forall i | 0 <= i < |s| ensures s[i].price.Some? {
        assert s[i] in multiset(m);
      }
      OutputFailsOnMissingPrice(s);
      if |m| >= 2 {
        PriceSortRecommendsPrice(m);
      }
    }
  }

  /** The tool object: the dataset is fixed when the tool is built. */
  class FlightSearchTool {
    const flightsData: seq<Flight>

    constructor (flightsData: seq<Flight>)
      ensures this.flightsData == flightsData
    {
      this.flightsData := flightsData;
    }

    /** `_run` on this tool's dataset. */
    method Run(source: string, destination: string, sortBy: string) returns (output: string)
      ensures output == SearchResult(flightsData, source, destination, sortBy)
    {
      var matching := FilterFlights(flightsData, source, destination);
      if matching == [] {
        return NoDirectFlightsMessage(source, destination);
      }
      var sorted := SortFlights(matching, sortBy);
      var report := FormatFlightOutput(sorted);
      match report {
        case Ok(text) => output := text;
        case Err(e) => output := "Error searching flights: " + e;
      }
    }
  }
}
