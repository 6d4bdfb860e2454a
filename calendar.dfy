/**
 * Proleptic Gregorian calendar dates as Python's `datetime.date` has them:
 * parsing `YYYY-MM-DD`, the ordinal day number (`toordinal`, with
 * 0001-01-01 as day 1), day differences, week days and the `%b`/`%A` names.
 */
module Calendar {
  import opened Wrappers
  import opened Text

  datatype Date = Date(year: int, month: int, day: int)

  predicate IsLeapYear(y: int) {
    y % 4 == 0 && (y % 100 != 0 || y % 400 == 0)
  }

  function DaysInMonth(y: int, m: int): int
    requires 1 <= m <= 12
  {
    if m == 2 then (if IsLeapYear(y) then 29 else 28)
    else if m == 4 || m == 6 || m == 9 || m == 11 then 30
    else 31
  }

  /** The dates `datetime.date` can represent. */
  predicate ValidDate(d: Date) {
    1 <= d.year <= 9999 && 1 <= d.month <= 12 && 1 <= d.day <= DaysInMonth(d.year, d.month)
  }

  /** Why a string is not a date: not of the `YYYY-MM-DD` shape, or a field out of range. */
  datatype DateError = Malformed(text: string) | YearOutOfRange(year: int) | MonthOutOfRange | DayOutOfRange

  /** The text of the `ValueError` that `datetime.fromisoformat` raises. */
  function DateErrorMessage(e: DateError): string {
    match e
    case Malformed(t) => "Invalid isoformat string: '" + t + "'"
    case YearOutOfRange(y) => "year " + IntToString(y) + " is out of range"
    case MonthOutOfRange => "month must be in 1..12"
    case DayOutOfRange => "day is out of range for month"
  }

  predicate IsoShape(s: string) {
    |s| == 10 && s[4] == '-' && s[7] == '-'
    && AllDigits(s[..4]) && AllDigits(s[5..7]) && AllDigits(s[8..])
  }

  /** Reads a zero-padded `YYYY-MM-DD` date, checking it as the date constructor does. */
  function ParseIsoDate(s: string): (r: Result<Date, DateError>)
    ensures r.Ok? ==> ValidDate(r.value)
    ensures r.Ok? <==> IsoShape(s) && ValidDate(Date(DigitsValue(s[..4]), DigitsValue(s[5..7]), DigitsValue(s[8..])))
  {
    if !IsoShape(s) then Err(Malformed(s))
    else
      var y, m, d := DigitsValue(s[..4]), DigitsValue(s[5..7]), DigitsValue(s[8..]);
      DigitsValueBound(s[..4]);
      if y < 1 then Err(YearOutOfRange(y))
      else if m < 1 || m > 12 then Err(MonthOutOfRange)
      else if d < 1 || d > DaysInMonth(y, m) then Err(DayOutOfRange)
      else Ok(Date(y, m, d))
  }

  /** `date.isoformat()`. */
  function IsoText(d: Date): string
    requires ValidDate(d)
  {
    FixedDigits(d.year, 4) + "-" + Pad2(d.month) + "-" + Pad2(d.day)
  }

  /** Every valid date survives printing and parsing back. */
  lemma IsoRoundTrip(d: Date)
    requires ValidDate(d)
    ensures ParseIsoDate(IsoText(d)) == Ok(d)
  {
    var s := IsoText(d);
    assert s[..4] == FixedDigits(d.year, 4);
    assert s[5..7] == Pad2(d.month);
    assert s[8..] == Pad2(d.day);
    FixedDigitsValue(d.year, 4);
    FixedDigitsValue(d.month, 2);
    FixedDigitsValue(d.day, 2);
  }

  function DaysBeforeYear(y: int): int
    requires y >= 1
  {
    var p := y - 1;
    365 * p + p / 4 - p / 100 + p / 400
  }

  function DaysBeforeMonth(y: int, m: int): int
    requires 1 <= m <= 12
  {
    [0, 31, 59, 90, 120, 151, 181, 212, 243, 273, 304, 334][m - 1]
    + (if m > 2 && IsLeapYear(y) then 1 else 0)
  }

  /** `date.toordinal()`: 0001-01-01 is day 1. */
  function Ordinal(d: Date): int
    requires ValidDate(d)
  {
    DaysBeforeYear(d.year) + DaysBeforeMonth(d.year, d.month) + d.day
  }

  /** The calendar day after `d`. */
  function NextDay(d: Date): Date
    requires ValidDate(d)
  {
    if d.day < DaysInMonth(d.year, d.month) then Date(d.year, d.month, d.day + 1)
    else if d.month < 12 then Date(d.year, d.month + 1, 1)
    else Date(d.year + 1, 1, 1)
  }

  /** The ordinal numbers consecutive days consecutively. */
  lemma NextDayOrdinal(d: Date)
    requires ValidDate(d) && d != Date(9999, 12, 31)
    ensures ValidDate(NextDay(d))
    ensures Ordinal(NextDay(d)) == Ordinal(d) + 1
  {
    if d.day == DaysInMonth(d.year, d.month) {
      if d.month < 12 {
        MonthAfter(d.year, d.month);
      } else {
        YearAfter(d.year);
      }
    }
  }

  lemma MonthAfter(y: int, m: int)
    requires 1 <= m < 12
    ensures DaysBeforeMonth(y, m + 1) == DaysBeforeMonth(y, m) + DaysInMonth(y, m)
  {
  }

  lemma YearAfter(y: int)
    requires y >= 1
    ensures DaysBeforeYear(y + 1) == DaysBeforeYear(y) + DaysBeforeMonth(y, 12) + DaysInMonth(y, 12)
  {
    var p := y - 1;
    DivStep4(p);
    DivStep100(p);
    DivStep400(p);
    var a := if y % 4 == 0 then 1 else 0;
    var b := if y % 100 == 0 then 1 else 0;
    var c := if y % 400 == 0 then 1 else 0;
    assert DaysBeforeYear(y + 1) == DaysBeforeYear(y) + 365 + a - b + c;
    assert a - b + c == if IsLeapYear(y) then 1 else 0;
  }

  lemma DivStep4(p: int)
    ensures (p + 1) / 4 == p / 4 + (if (p + 1) % 4 == 0 then 1 else 0)
  {
  }

  lemma DivStep100(p: int)
    ensures (p + 1) / 100 == p / 100 + (if (p + 1) % 100 == 0 then 1 else 0)
  {
  }

  lemma DivStep400(p: int)
    ensures (p + 1) / 400 == p / 400 + (if (p + 1) % 400 == 0 then 1 else 0)
  {
  }

  /** `(end - start).days`. */
  function DaysBetween(start: Date, end: Date): int
    requires ValidDate(start) && ValidDate(end)
  {
    Ordinal(end) - Ordinal(start)
  }

  /** `(end - start).days + 1`: the number of calendar days from `start` to `end`, both included. */
  function InclusiveDays(start: Date, end: Date): int
    requires ValidDate(start) && ValidDate(end)
  {
    DaysBetween(start, end) + 1
  }

  /** A trip that ends on its first day lasts one day; every further day adds one. */
  lemma InclusiveDaysCounts(start: Date, end: Date)
    requires ValidDate(start) && ValidDate(end) && end != Date(9999, 12, 31)
    ensures InclusiveDays(start, start) == 1
    ensures ValidDate(NextDay(end)) && InclusiveDays(start, NextDay(end)) == InclusiveDays(start, end) + 1
  {
    NextDayOrdinal(end);
  }

  /** `date.weekday()`: Monday is 0. */
  function Weekday(d: Date): nat
    requires ValidDate(d)
  {
    (Ordinal(d) + 6) % 7
  }

  lemma NextDayWeekday(d: Date)
    requires ValidDate(d) && d != Date(9999, 12, 31)
    ensures ValidDate(NextDay(d)) && Weekday(NextDay(d)) == (Weekday(d) + 1) % 7
  {
    NextDayOrdinal(d);
    SuccessorMod7(Ordinal(d) + 6);
  }

  lemma SuccessorMod7(x: int)
    ensures (x + 1) % 7 == (x % 7 + 1) % 7
  {
  }

  const WeekdayNames: seq<string> := ["Monday", "Tuesday", "Wednesday", "Thursday", "Friday", "Saturday", "Sunday"]

  const MonthAbbreviations: seq<string> :=
    ["Jan", "Feb", "Mar", "Apr", "May", "Jun", "Jul", "Aug", "Sep", "Oct", "Nov", "Dec"]

  /** `strftime("%b")`. */
  function MonthAbbr(d: Date): string
    requires ValidDate(d)
  {
    MonthAbbreviations[d.month - 1]
  }

  /** `strftime("%A")`. */
  function WeekdayName(d: Date): string
    requires ValidDate(d)
  {
    WeekdayNames[Weekday(d)]
  }

  lemma FirstOfMarch2024()
    ensures ParseIsoDate("2024-03-01") == Ok(Date(2024, 3, 1))
  {
    assert FixedDigits(2024, 4) == "2024";
    assert Pad2(3) == "03" && Pad2(1) == "01";
    assert IsoText(Date(2024, 3, 1)) == "2024-03-01";
    IsoRoundTrip(Date(2024, 3, 1));
  }

  lemma FourthOfMarch2024()
    ensures ParseIsoDate("2024-03-04") == Ok(Date(2024, 3, 4))
  {
    assert FixedDigits(2024, 4) == "2024";
    assert Pad2(3) == "03" && Pad2(4) == "04";
    assert IsoText(Date(2024, 3, 4)) == "2024-03-04";
    IsoRoundTrip(Date(2024, 3, 4));
  }

  /** 1 March 2024 fell on a Friday, and a trip from then to 4 March lasts four days. */
  lemma DemoTripDates()
    ensures WeekdayName(Date(2024, 3, 1)) == "Friday"
    ensures InclusiveDays(Date(2024, 3, 1), Date(2024, 3, 4)) == 4
  {
    assert Ordinal(Date(2024, 3, 1)) == 738946;
  }
}
