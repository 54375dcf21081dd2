/** Calendar dates as Python's `datetime.date` holds them, the helpers
    `get_first_day` and `get_last_day`, `relativedelta(months=1)`, and the
    ISO text `str(date)` that the cost queries send. */
module Calendar {
  import opened Wrappers
  import opened DecimalText

  /** `datetime.MINYEAR` and `datetime.MAXYEAR`. */
  const MIN_YEAR := 1
  const MAX_YEAR := 9999

  /** Days in each month of a common year, January first (`calendar.mdays`). */
  const COMMON_MONTH_DAYS: seq<int> := [31, 28, 31, 30, 31, 30, 31, 31, 30, 31, 30, 31]

  datatype Date = Date(year: int, month: int, day: int)

  /** The Gregorian rule of `calendar.isleap`. */
  predicate IsLeapYear(year: int) {
    year % 4 == 0 && (year % 100 != 0 || year % 400 == 0)
  }

  /** `calendar.monthrange(year, month)[1]`. */
  function DaysInMonth(year: int, month: int): (n: int)
    requires 1 <= month <= 12
    ensures month == 2 ==> n == (if IsLeapYear(year) then 29 else 28)
    ensures month in {4, 6, 9, 11} ==> n == 30
    ensures month in {1, 3, 5, 7, 8, 10, 12} ==> n == 31
  {
    COMMON_MONTH_DAYS[month - 1] + (if month == 2 && IsLeapYear(year) then 1 else 0)
  }

  /** What `datetime.date` accepts: a year in its range, a month, and a day
      that exists in that month. */
  predicate Valid(d: Date) {
    && MIN_YEAR <= d.year <= MAX_YEAR
    && 1 <= d.month <= 12
    && 1 <= d.day <= DaysInMonth(d.year, d.month)
  }

  predicate SameMonth(a: Date, b: Date) {
    a.year == b.year && a.month == b.month
  }

  /** Python's `a < b` on dates: year, then month, then day. */
  predicate Before(a: Date, b: Date) {
    || a.year < b.year
    || (a.year == b.year && a.month < b.month)
    || (a.year == b.year && a.month == b.month && a.day < b.day)
  }

  predicate AtOrBefore(a: Date, b: Date) {
    a == b || Before(a, b)
  }

  /** Months counted from January of year 0. */
  function MonthIndex(d: Date): (n: int) {
    12 * d.year + d.month - 1
  }

  /** `get_first_day`: `date.replace(day=1)`. */
  function FirstDay(d: Date): (r: Date)
    requires Valid(d)
    ensures Valid(r) && SameMonth(r, d) && r.day == 1
    ensures forall e :: Valid(e) && SameMonth(e, d) ==> AtOrBefore(r, e)
  {
    d.(day := 1)
  }

  /** `get_last_day`: `date.replace(day=calendar.monthrange(...)[1])`. */
  function LastDay(d: Date): (r: Date)
    requires Valid(d)
    ensures Valid(r) && SameMonth(r, d) && r.day == DaysInMonth(d.year, d.month)
    ensures forall e :: Valid(e) && SameMonth(e, d) ==> AtOrBefore(e, r)
    ensures !Valid(r.(day := r.day + 1))
  {
    d.(day := DaysInMonth(d.year, d.month))
  }

  function Min(a: int, b: int): (m: int) {
    if a <= b then a else b
  }

  /** `d + relativedelta(months=1)`: the next month, December rolling over
      to January of the next year, with the day clamped to the length of
      that month. `None` where the result leaves `datetime.date`'s range
      (December of the last year), where Python raises `ValueError`. */
  function AddOneMonth(d: Date): (r: Option<Date>)
    requires Valid(d)
    ensures r.None? <==> d.year == MAX_YEAR && d.month == 12
    ensures r.Some? ==> Valid(r.value) && MonthIndex(r.value) == MonthIndex(d) + 1
    ensures r.Some? ==> r.value.day <= d.day
    ensures r.Some? && d.day <= DaysInMonth(r.value.year, r.value.month) ==> r.value.day == d.day
    ensures r.Some? && d.day > DaysInMonth(r.value.year, r.value.month) ==>
              r.value == LastDay(r.value)
  {
    var year := if d.month == 12 then d.year + 1 else d.year;
    var month := if d.month == 12 then 1 else d.month + 1;
    var day := Min(DaysInMonth(year, month), d.day);
    if year > MAX_YEAR then None else Some(Date(year, month, day))
  }

  /** The month index determines the year and the month. */
  lemma MonthIndexInjective(a: Date, b: Date)
    requires 1 <= a.month <= 12 && 1 <= b.month <= 12
    requires MonthIndex(a) == MonthIndex(b)
    ensures SameMonth(a, b)
  {
  }

  /** `str(date)`: the ISO form YYYY-MM-DD. */
  function IsoFormat(d: Date): (s: string)
    requires Valid(d)
    ensures |s| == 10 && s[4] == '-' && s[7] == '-'
    ensures forall i | 0 <= i < 10 && i != 4 && i != 7 :: IsDigit(s[i])
  {
    Padded(d.year, 4) + "-" + Padded(d.month, 2) + "-" + Padded(d.day, 2)
  }

  /** Reads YYYY-MM-DD back; `None` for anything that is not a valid date. */
  function ParseIso(s: string): (r: Option<Date>)
    ensures r.Some? ==> Valid(r.value)
  {
    if |s| == 10 && s[4] == '-' && s[7] == '-'
       && AllDigits(s[..4]) && AllDigits(s[5..7]) && AllDigits(s[8..])
    then
      var d := Date(ValueOf(s[..4]), ValueOf(s[5..7]), ValueOf(s[8..]));
      if Valid(d) then Some(d) else None
    else None
  }

  /** The ISO text of a date denotes that date. */
  lemma IsoRoundTrip(d: Date)
    requires Valid(d)
    ensures ParseIso(IsoFormat(d)) == Some(d)
  {
    var s := IsoFormat(d);
    assert s[..4] == Padded(d.year, 4);
    assert s[5..7] == Padded(d.month, 2);
    assert s[8..] == Padded(d.day, 2);
    PaddedValue(d.year, 4);
    PaddedValue(d.month, 2);
    PaddedValue(d.day, 2);
  }

  /** Distinct dates have distinct ISO texts. */
  lemma IsoInjective(a: Date, b: Date)
    requires Valid(a) && Valid(b)
    requires IsoFormat(a) == IsoFormat(b)
    ensures a == b
  {
    IsoRoundTrip(a);
    IsoRoundTrip(b);
  }

  /** February has 29 days exactly in leap years, and a year has 366 days
      exactly when it is a leap year. */
  lemma YearLength(year: int)
    ensures DaysInMonth(year, 2) == 29 <==> IsLeapYear(year)
    ensures DaysInMonth(year, 1) + DaysInMonth(year, 2) + DaysInMonth(year, 3)
          + DaysInMonth(year, 4) + DaysInMonth(year, 5) + DaysInMonth(year, 6)
          + DaysInMonth(year, 7) + DaysInMonth(year, 8) + DaysInMonth(year, 9)
          + DaysInMonth(year, 10) + DaysInMonth(year, 11) + DaysInMonth(year, 12)
          == if IsLeapYear(year) then 366 else 365
  {
  }
}
