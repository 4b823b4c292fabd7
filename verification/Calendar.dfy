/** bucketTimestamp in apps/web/src/lib/charting.ts, over the date arithmetic of section 21.4.1 of ECMA-262.
    Times are milliseconds since 1970; the range limit of Date values is not modelled. */
module Calendar {
  import opened Rounding

  const DAY_MS := 86_400_000

  // ---------------------------------------------------------------- ECMA-262 dates

  function Day(t: int): int { t / DAY_MS }

  /** 0 is Sunday. */
  function WeekDay(t: int): int { (Day(t) + 4) % 7 }

  function DayFromYear(y: int): int {
    365 * (y - 1970) + (y - 1969) / 4 - (y - 1901) / 100 + (y - 1601) / 400
  }

  predicate LeapYear(y: int) {
    y % 4 == 0 && (y % 100 != 0 || y % 400 == 0)
  }

  function Extra(y: int): int { if LeapYear(y) then 1 else 0 }

  lemma DivUnique(x: int, m: int, q: int)
    requires m > 0 && m * q <= x < m * q + m
    ensures x / m == q
  {
    var p := x / m;
    assert m * p <= x < m * p + m;
    assert m * (q - p) == m * q - m * p && m * (p - q) == m * p - m * q;
    LessThanOneStep(m, q - p);
    LessThanOneStep(m, p - q);
  }

  /** How a leap-year count steps: k whole periods before year y, and one year earlier. */
  lemma LeapStep(y: int, m: int, k: int)
    requires m > 1
    ensures (y - m * k) / m - (y - m * k - 1) / m == if y % m == 0 then 1 else 0
  {
    var q, r := y / m, y % m;
    assert y == m * q + r;
    assert m * (q - k) == m * q - m * k && m * (q - k - 1) == m * q - m * k - m;
    DivUnique(y - m * k, m, q - k);
    if r == 0 { DivUnique(y - m * k - 1, m, q - k - 1); } else { DivUnique(y - m * k - 1, m, q - k); }
  }

  lemma Multiple(a: int, m: int)
    requires m > 0
    ensures (a * m) / m == a && (a * m) % m == 0
  {
    DivUnique(a * m, m, a);
  }

  lemma LeapNested(y: int)
    ensures y % 400 == 0 ==> y % 100 == 0
    ensures y % 100 == 0 ==> y % 4 == 0
  {
    if y % 400 == 0 { Multiple(4 * (y / 400), 100); }
    if y % 100 == 0 { Multiple(25 * (y / 100), 4); }
  }

  lemma YearLength(y: int)
    ensures DayFromYear(y + 1) == DayFromYear(y) + 365 + Extra(y)
  {
    LeapStep(y, 4, 492);
    LeapStep(y, 100, 19);
    LeapStep(y, 400, 4);
    LeapNested(y);
  }

  function YearUp(d: int, y: int): (r: int)
    requires DayFromYear(y) <= d
    ensures DayFromYear(r) <= d < DayFromYear(r + 1)
    decreases d - DayFromYear(y)
  {
    YearLength(y);
    if DayFromYear(y + 1) <= d then YearUp(d, y + 1) else y
  }

  function YearDown(d: int, y: int): (r: int)
    requires d < DayFromYear(y + 1)
    ensures DayFromYear(r) <= d < DayFromYear(r + 1)
    decreases DayFromYear(y + 1) - d
  {
    YearLength(y);
    if DayFromYear(y) <= d then y else YearDown(d, y - 1)
  }

  /** The year a day falls in. */
  function YearOf(d: int): (r: int)
    ensures DayFromYear(r) <= d < DayFromYear(r + 1)
  {
    assert DayFromYear(1970) == 0;
    if d >= 0 then YearUp(d, 1970) else YearDown(d, 1969)
  }

  lemma {:induction false} YearsAhead(y: int, k: nat)
    ensures DayFromYear(y + k) >= DayFromYear(y) + 365 * k
  {
    if k > 0 {
      YearsAhead(y, k - 1);
      YearLength(y + k - 1);
    }
  }

  lemma YearUnique(d: int, y: int)
    requires DayFromYear(y) <= d < DayFromYear(y + 1)
    ensures y == YearOf(d)
  {
    hide DayFromYear;
    var r := YearOf(d);
    if y < r { YearsAhead(y + 1, r - y - 1); }
    if r < y { YearsAhead(r + 1, y - r - 1); }
  }

  /** Days of the year before month m (0 is January). */
  function MonthStart(m: int, extra: int): int
    requires 0 <= m <= 12
  {
    [0, 31, 59, 90, 120, 151, 181, 212, 243, 273, 304, 334, 365][m] + if m >= 2 then extra else 0
  }

  function MonthFrom(dayInYear: int, extra: int, m: int): (r: int)
    requires 0 <= m < 12 && 0 <= extra <= 1 && MonthStart(m, extra) <= dayInYear < MonthStart(12, extra)
    ensures m <= r < 12 && MonthStart(r, extra) <= dayInYear < MonthStart(r + 1, extra)
    decreases 12 - m
  {
    if dayInYear < MonthStart(m + 1, extra) then m else MonthFrom(dayInYear, extra, m + 1)
  }

  lemma MonthEnds(extra: int)
    ensures MonthStart(0, extra) == 0 && MonthStart(12, extra) == 365 + extra
  {
  }

  lemma DayInYear(d: int)
    ensures MonthStart(0, Extra(YearOf(d))) <= d - DayFromYear(YearOf(d)) < MonthStart(12, Extra(YearOf(d)))
  {
    hide DayFromYear, LeapYear, MonthStart, YearOf;
    MonthEnds(Extra(YearOf(d)));
    YearLength(YearOf(d));
  }

  function MonthOf(d: int): (r: int)
    ensures 0 <= r < 12
  {
    var y := YearOf(d);
    DayInYear(d);
    MonthFrom(d - DayFromYear(y), Extra(y), 0)
  }

  /** The first day of day d's month, of its year. */
  function FirstOfMonth(d: int): int {
    DayFromYear(YearOf(d)) + MonthStart(MonthOf(d), Extra(YearOf(d)))
  }

  /** getUTCDate: 1 on the first of the month. */
  function DateOf(d: int): int { d - FirstOfMonth(d) + 1 }

  /** MakeFullYear: Date.UTC reads a year from 0 to 99 as one of the 1900s. */
  function FullYear(y: int): int { if 0 <= y <= 99 then 1900 + y else y }

  /** Date.UTC(year, month, date); the date may run over either end of the month. */
  function Utc(year: int, month: int, date: int): int
    requires 0 <= month < 12
  {
    var y := FullYear(year);
    (DayFromYear(y) + MonthStart(month, Extra(y)) + date - 1) * DAY_MS
  }

  // ---------------------------------------------------------------- bucketTimestamp

  datatype Resolution = Minutes5 | Minutes30 | Hour1 | Hours4 | Day1 | Week1 | Month1

  predicate Fixed(r: Resolution) { r.Minutes5? || r.Minutes30? || r.Hour1? || r.Hours4? }

  function FixedMs(r: Resolution): (ms: int)
    requires Fixed(r)
    ensures ms > 0
  {
    match r
    case Minutes5 => 300_000
    case Minutes30 => 1_800_000
    case Hour1 => 3_600_000
    case Hours4 => 14_400_000
  }

  function MondayShift(day: int): int { if day == 0 then -6 else 1 - day }

  function Bucket(t: int, r: Resolution): int {
    var d := Day(t);
    match r
    case Month1 => Utc(YearOf(d), MonthOf(d), 1)
    case Week1 => Utc(YearOf(d), MonthOf(d), DateOf(d) + MondayShift(WeekDay(t)))
    case Day1 => Utc(YearOf(d), MonthOf(d), DateOf(d))
    case _ => t / FixedMs(r) * FixedMs(r)
  }

  // ---------------------------------------------------------------- what a bucket is

  /** A time whose year Date.UTC takes as it stands. */
  predicate Plain(t: int) { !(0 <= YearOf(Day(t)) <= 99) }

  /** The last day on the 7-day grid through Monday 1970-01-05 that is not after d. */
  function WeekFloor(d: int): int { 4 + (d - 4) / 7 * 7 }

  /** The start of the interval holding t: a floor to a fixed grid, to midnight, to the 7-day grid through
      Monday 1970-01-05, or to the first of the month. */
  function IntervalStart(t: int, r: Resolution): int {
    match r
    case Month1 => FirstOfMonth(Day(t)) * DAY_MS
    case Week1 => WeekFloor(Day(t)) * DAY_MS
    case Day1 => Day(t) * DAY_MS
    case _ => t / FixedMs(r) * FixedMs(r)
  }

  function MonthLength(m: int, extra: int): int
    requires 0 <= m < 12
  {
    MonthStart(m + 1, extra) - MonthStart(m, extra)
  }

  ghost function IntervalEnd(t: int, r: Resolution): int {
    match r
    case Month1 => (FirstOfMonth(Day(t)) + MonthLength(MonthOf(Day(t)), Extra(YearOf(Day(t))))) * DAY_MS
    case Week1 => IntervalStart(t, r) + 7 * DAY_MS
    case Day1 => IntervalStart(t, r) + DAY_MS
    case _ => IntervalStart(t, r) + FixedMs(r)
  }

  /** The fixed resolutions in milliseconds: the bucket is the last multiple not after t. */
  lemma FixedBuckets(t: int)
    ensures Bucket(t, Minutes5) % 300_000 == 0 && 0 <= t - Bucket(t, Minutes5) < 300_000
    ensures Bucket(t, Minutes30) % 1_800_000 == 0 && 0 <= t - Bucket(t, Minutes30) < 1_800_000
    ensures Bucket(t, Hour1) % 3_600_000 == 0 && 0 <= t - Bucket(t, Hour1) < 3_600_000
    ensures Bucket(t, Hours4) % 14_400_000 == 0 && 0 <= t - Bucket(t, Hours4) < 14_400_000
  {
    Multiple(t / 300_000, 300_000);
    Multiple(t / 1_800_000, 1_800_000);
    Multiple(t / 3_600_000, 3_600_000);
    Multiple(t / 14_400_000, 14_400_000);
  }

  /** The months: thirty days in April, June, September and November, 28 and the leap day in February, else 31. */
  lemma MonthLengths(m: int, extra: int)
    requires 0 <= m < 12
    ensures MonthLength(m, extra) == if m == 1 then 28 + extra else if m == 3 || m == 5 || m == 8 || m == 10 then 30 else 31
  {
  }

  /** Whatever getUTCDay says, the shift lands on the Monday grid. */
  lemma MondayGrid(t: int)
    ensures Day(t) + MondayShift(WeekDay(t)) == WeekFloor(Day(t))
  {
  }

  /** By how many days Date.UTC misplaces a date of day d's month: it reads the years 0 to 99 as 1900 to 1999. */
  function CenturyShift(d: int): int {
    var y := FullYear(YearOf(d));
    DayFromYear(y) + MonthStart(MonthOf(d), Extra(y)) - FirstOfMonth(d)
  }

  lemma NineteenCenturies(y: int)
    requires 0 <= y <= 99
    ensures DayFromYear(y + 1900) - DayFromYear(y) == if y == 0 then 693_961 else 693_960
    ensures Extra(y + 1900) == if y == 0 then 0 else Extra(y)
  {
    var q := y / 4;
    DivUnique(y - 69, 4, (y - 1969) / 4 + 475);
    DivUnique(y - 1, 100, if y == 0 then -1 else 0);
    DivUnique(y - 1901, 100, if y == 0 then -20 else -19);
    DivUnique(y + 299, 400, 0);
    DivUnique(y - 1601, 400, if y == 0 then -5 else -4);
  }

  /** The shift of the first of the year, and what the leap day does to the months after February. */
  lemma CenturyShiftParts(d: int)
    ensures var y := YearOf(d); var z := FullYear(y);
      CenturyShift(d) == DayFromYear(z) - DayFromYear(y) + if MonthOf(d) >= 2 then Extra(z) - Extra(y) else 0
  {
    hide YearOf, MonthOf, DayFromYear, Extra, FullYear, MonthStart;
    MonthWithLeapDay(MonthOf(d), Extra(YearOf(d)));
    MonthWithLeapDay(MonthOf(d), Extra(FullYear(YearOf(d))));
  }

  lemma MonthWithLeapDay(m: int, extra: int)
    requires 0 <= m < 12
    ensures MonthStart(m, extra) == MonthStart(m, 0) + if m >= 2 then extra else 0
  {
  }

  lemma FullYearIs(y: int)
    ensures FullYear(y) == if 0 <= y <= 99 then y + 1900 else y
  {
  }

  lemma LeapZero()
    ensures Extra(0) == 1
  {
  }

  /** The shift is nothing outside those years; inside them it is not a whole number of weeks. */
  lemma CenturyShiftIs(d: int)
    ensures CenturyShift(d) == if !(0 <= YearOf(d) <= 99) then 0 else if YearOf(d) == 0 && MonthOf(d) < 2 then 693_961 else 693_960
  {
    hide *;
    var y := YearOf(d);
    CenturyShiftParts(d);
    FullYearIs(y);
    if 0 <= y <= 99 { NineteenCenturies(y); }
    LeapZero();
  }

  /** Printing a date with Date.UTC gives its midnight moved by the century shift, so the midnight itself
      exactly outside the years 0 to 99. */
  lemma UtcReadsBack(d: int, shift: int)
    ensures var u := Utc(YearOf(d), MonthOf(d), DateOf(d) + shift);
      u == (d + shift + CenturyShift(d)) * DAY_MS && (u == (d + shift) * DAY_MS <==> !(0 <= YearOf(d) <= 99))
  {
    CenturyShiftIs(d);
    hide YearOf, MonthOf, MonthStart, DayFromYear, FirstOfMonth;
  }

  lemma IntervalHolds(t: int, r: Resolution)
    ensures IntervalStart(t, r) <= t < IntervalEnd(t, r)
  {
    if r.Month1? { MonthHolds(Day(t)); }
  }

  lemma MonthHolds(d: int)
    ensures FirstOfMonth(d) <= d < FirstOfMonth(d) + MonthLength(MonthOf(d), Extra(YearOf(d)))
  {
    YearLength(YearOf(d));
  }

  function MillisecondShift(t: int, r: Resolution): int {
    if Fixed(r) then 0 else CenturyShift(Day(t)) * DAY_MS
  }

  /** Every bucket is the start of its interval, moved by the century shift. */
  lemma BucketClosedForm(t: int, r: Resolution)
    ensures Bucket(t, r) == IntervalStart(t, r) + MillisecondShift(t, r)
  {
    var d := Day(t);
    UtcReadsBack(d, 0);
    UtcReadsBack(d, MondayShift(WeekDay(t)));
    UtcReadsBack(d, 1 - DateOf(d));
    MondayGrid(t);
    hide CenturyShift, YearOf, MonthOf, FirstOfMonth, Utc;
  }

  lemma ShiftIs(t: int, r: Resolution)
    ensures Fixed(r) || Plain(t) ==> MillisecondShift(t, r) == 0
    ensures !Fixed(r) && !Plain(t) ==> MillisecondShift(t, r) >= 693_960 * DAY_MS
  {
    CenturyShiftIs(Day(t));
    hide CenturyShift, YearOf, MonthOf, Day;
  }

  lemma BucketIsFloor(t: int, r: Resolution)
    requires Fixed(r) || Plain(t)
    ensures Bucket(t, r) == IntervalStart(t, r)
  {
    BucketClosedForm(t, r);
    ShiftIs(t, r);
  }

  lemma MonthShort(d: int)
    ensures d - 31 < FirstOfMonth(d) && MonthLength(MonthOf(d), Extra(YearOf(d))) <= 31
  {
    MonthHolds(d);
    hide YearOf, DayFromYear, FirstOfMonth;
  }

  lemma IntervalShort(t: int, r: Resolution)
    ensures t - 31 * DAY_MS < IntervalStart(t, r) && IntervalEnd(t, r) <= t + 32 * DAY_MS
  {
    if r.Month1? { MonthHolds(Day(t)); MonthShort(Day(t)); }
    hide YearOf, DayFromYear, FirstOfMonth, MonthLength, MonthOf, Extra;
  }

  /** A bucket is a floor exactly for plain times: bucket <= t < end of the interval. */
  lemma BucketFloorIff(t: int, r: Resolution)
    ensures Bucket(t, r) <= t < IntervalEnd(t, r) <==> Fixed(r) || Plain(t)
  {
    hide Bucket, IntervalStart, IntervalEnd, Plain, MillisecondShift, Fixed;
    IntervalHolds(t, r);
    BucketClosedForm(t, r);
    ShiftIs(t, r);
    IntervalShort(t, r);
  }

  // ---------------------------------------------------------------- intervals

  lemma MonthStartGrows(a: int, b: int, extra: int)
    requires 0 <= a <= b <= 12 && 0 <= extra <= 1
    ensures MonthStart(a, extra) <= MonthStart(b, extra)
  {
  }

  lemma MonthUnique(d: int, m: int)
    requires 0 <= m < 12
    requires var e := Extra(YearOf(d)); MonthStart(m, e) <= d - DayFromYear(YearOf(d)) < MonthStart(m + 1, e)
    ensures MonthOf(d) == m
  {
    var n, e := MonthOf(d), Extra(YearOf(d));
    YearInMonth(d);
    hide MonthOf, MonthStart, YearOf, DayFromYear;
    if n < m { MonthStartGrows(n + 1, m, e); }
    if m < n { MonthStartGrows(m + 1, n, e); }
  }

  /** A day that lies in year y and in month m of it. */
  lemma DayLiesIn(d: int, y: int, m: int)
    requires 0 <= m < 12
    requires MonthStart(m, Extra(y)) <= d - DayFromYear(y) < MonthStart(m + 1, Extra(y))
    ensures YearOf(d) == y && MonthOf(d) == m && FirstOfMonth(d) == DayFromYear(y) + MonthStart(m, Extra(y))
  {
    MonthStartGrows(0, m, Extra(y));
    MonthStartGrows(m + 1, 12, Extra(y));
    MonthEnds(Extra(y));
    YearLength(y);
    hide MonthStart, DayFromYear, MonthOf, YearOf;
    YearUnique(d, y);
    MonthUnique(d, m);
  }

  lemma SameMonth(d: int, x: int)
    requires FirstOfMonth(d) <= x < FirstOfMonth(d) + MonthLength(MonthOf(d), Extra(YearOf(d)))
    ensures YearOf(x) == YearOf(d) && MonthOf(x) == MonthOf(d) && FirstOfMonth(x) == FirstOfMonth(d)
  {
    hide MonthStart, DayFromYear, MonthOf, YearOf;
    DayLiesIn(x, YearOf(d), MonthOf(d));
  }

  lemma YearInMonth(d: int)
    ensures var n, e := MonthOf(d), Extra(YearOf(d));
      MonthStart(n, e) <= d - DayFromYear(YearOf(d)) < MonthStart(n + 1, e)
  {
    YearLength(YearOf(d));
  }

  lemma SameFloor(t: int, x: int, m: int)
    requires m > 0 && t / m * m <= x < t / m * m + m
    ensures x / m == t / m
  {
    DivUnique(x, m, t / m);
  }

  lemma SameWeek(t: int, x: int)
    requires IntervalStart(t, Week1) <= x < IntervalEnd(t, Week1)
    ensures IntervalStart(x, Week1) == IntervalStart(t, Week1)
  {
    var k := (Day(t) - 4) / 7;
    MonthDays(4 + k * 7, 7, x);
    hide Day;
    DivUnique(Day(x) - 4, 7, k);
  }

  lemma SameMonthStart(t: int, x: int)
    requires IntervalStart(t, Month1) <= x < IntervalEnd(t, Month1)
    ensures IntervalStart(x, Month1) == IntervalStart(t, Month1)
  {
    hide FirstOfMonth, MonthLength, MonthOf, Extra, YearOf;
    MonthDays(FirstOfMonth(Day(t)), MonthLength(MonthOf(Day(t)), Extra(YearOf(Day(t)))), x);
    SameMonth(Day(t), Day(x));
  }

  /** Every time in an interval starts the same interval. */
  lemma SameInterval(t: int, x: int, r: Resolution)
    requires IntervalStart(t, r) <= x < IntervalEnd(t, r)
    ensures IntervalStart(x, r) == IntervalStart(t, r)
  {
    hide FirstOfMonth, MonthLength, MonthOf, Extra, YearOf, FixedMs;
    match r
    case Month1 => SameMonthStart(t, x);
    case Week1 => SameWeek(t, x);
    case Day1 => MonthDays(Day(t), 1, x);
    case _ => SameFloor(t, x, FixedMs(r));
  }

  lemma MonthDays(first: int, n: int, x: int)
    requires first * DAY_MS <= x < (first + n) * DAY_MS
    ensures first <= Day(x) < first + n
  {
  }

  lemma IntervalMonotone(s: int, t: int, r: Resolution)
    requires s <= t
    ensures IntervalStart(s, r) <= IntervalStart(t, r)
  {
    hide IntervalStart, IntervalEnd;
    IntervalHolds(s, r);
    IntervalHolds(t, r);
    if IntervalStart(s, r) > IntervalStart(t, r) { SameInterval(t, s, r); }
  }

  lemma IntervalIdempotent(t: int, r: Resolution)
    ensures IntervalStart(IntervalStart(t, r), r) == IntervalStart(t, r)
  {
    hide IntervalStart, IntervalEnd;
    IntervalHolds(t, r);
    SameInterval(t, IntervalStart(t, r), r);
  }

  // ---------------------------------------------------------------- idempotent and monotone

  lemma IsPlainFrom100(d: int)
    ensures d >= DayFromYear(100) ==> YearOf(d) >= 100
    ensures d < DayFromYear(100) ==> YearOf(d) < 100
    ensures d >= DayFromYear(0) ==> YearOf(d) >= 0
  {
    hide *;
    var y := YearOf(d);
    if y < 100 { YearsAhead(y + 1, 99 - y); }
    if y >= 100 { YearsAhead(100, y - 100); }
    if y < 0 { YearsAhead(y + 1, -1 - y); }
  }

  lemma MisreadYears()
    ensures DayFromYear(0) == -719_528 && DayFromYear(100) == -683_003
  {
  }

  /** The times Date.UTC misreads, as an interval of days. */
  lemma MisreadDays(t: int)
    ensures !Plain(t) <==> -719_528 <= Day(t) < -683_003
  {
    MisreadYears();
    IsPlainFrom100(Day(t));
    var y := YearOf(Day(t));
    if y >= 0 { YearsAhead(0, y); }
    hide YearOf, Day;
  }

  lemma ShiftByPlain(t: int)
    ensures Plain(t) ==> CenturyShift(Day(t)) == 0
    ensures !Plain(t) ==> CenturyShift(Day(t)) == 693_960 || CenturyShift(Day(t)) == 693_961
  {
    CenturyShiftIs(Day(t));
    hide CenturyShift, YearOf, MonthOf, Day;
  }

  lemma MidnightIs(d: int)
    ensures Day(d * DAY_MS) == d && (d * DAY_MS) % DAY_MS == 0
  {
  }

  lemma DayBucketIs(t: int)
    ensures Bucket(t, Day1) == (Day(t) + CenturyShift(Day(t))) * DAY_MS
  {
    BucketClosedForm(t, Day1);
    hide CenturyShift, Day, Bucket;
  }

  /** A day bucket, moved or not, is the start of an interval that Date.UTC reads as it stands. */
  lemma DayBucketSettled(t: int)
    ensures Plain(Bucket(t, Day1)) && IntervalStart(Bucket(t, Day1), Day1) == Bucket(t, Day1)
  {
    var d := Day(t) + CenturyShift(Day(t));
    DayBucketIs(t);
    MidnightIs(d);
    ShiftByPlain(t);
    MisreadDays(t);
    MisreadDays(d * DAY_MS);
    hide CenturyShift, Day, Plain, Bucket;
  }

  lemma MonthsHaveDays(m: int, extra: int)
    requires 0 <= m < 12 && 0 <= extra <= 1
    ensures MonthStart(m, extra) < MonthStart(m + 1, extra)
  {
  }

  lemma ExtraIsBit(y: int)
    ensures 0 <= Extra(y) <= 1
  {
  }

  /** The first day of a month is the first of its own month. */
  lemma FirstIsFirst(y: int, m: int)
    requires 0 <= m < 12
    ensures var f := DayFromYear(y) + MonthStart(m, Extra(y)); YearOf(f) == y && MonthOf(f) == m && FirstOfMonth(f) == f
  {
    hide *;
    ExtraIsBit(y);
    MonthsHaveDays(m, Extra(y));
    DayLiesIn(DayFromYear(y) + MonthStart(m, Extra(y)), y, m);
  }

  lemma MonthBucketIs(t: int)
    ensures var y, m := FullYear(YearOf(Day(t))), MonthOf(Day(t));
      Bucket(t, Month1) == (DayFromYear(y) + MonthStart(m, Extra(y))) * DAY_MS
  {
    hide DayFromYear, MonthStart, YearOf, MonthOf, Extra, Day, FullYear;
  }

  lemma FullYearIsPlain(y: int)
    ensures !(0 <= FullYear(y) <= 99)
  {
  }

  /** So is a month bucket. */
  lemma MonthBucketSettled(t: int)
    ensures Plain(Bucket(t, Month1)) && IntervalStart(Bucket(t, Month1), Month1) == Bucket(t, Month1)
  {
    hide *;
    var y, m := FullYear(YearOf(Day(t))), MonthOf(Day(t));
    FullYearIsPlain(YearOf(Day(t)));
    MonthBucketIs(t);
    FirstIsFirst(y, m);
    FirstSettled(DayFromYear(y) + MonthStart(m, Extra(y)));
  }

  lemma FirstSettled(f: int)
    requires FirstOfMonth(f) == f && !(0 <= YearOf(f) <= 99)
    ensures Plain(f * DAY_MS) && IntervalStart(f * DAY_MS, Month1) == f * DAY_MS
  {
    MidnightIs(f);
    hide FirstOfMonth, YearOf, Day;
  }

  lemma WeekBucketIs(t: int)
    ensures Bucket(t, Week1) == (WeekFloor(Day(t)) + CenturyShift(Day(t))) * DAY_MS
    ensures IntervalStart(t, Week1) == WeekFloor(Day(t)) * DAY_MS
  {
    BucketClosedForm(t, Week1);
    hide CenturyShift, Day, Bucket;
  }

  lemma WeekFloorFacts(d: int)
    ensures d - 7 < WeekFloor(d) <= d && WeekFloor(WeekFloor(d)) == WeekFloor(d)
  {
    DivUnique(WeekFloor(d) - 4, 7, (d - 4) / 7);
  }

  /** A week moved by the century shift does not start on the Monday grid. */
  lemma WeekMovedOff(d: int, shift: int)
    requires shift == 693_960 || shift == 693_961
    ensures WeekFloor(WeekFloor(d) + shift) != WeekFloor(d) + shift
  {
    var k := (d - 4) / 7;
    DivUnique(WeekFloor(d) + shift - 4, 7, k + 99_137);
  }

  lemma SameMidnight(a: int, b: int)
    ensures a * DAY_MS == b * DAY_MS <==> a == b
  {
  }

  lemma WeekBucketSettledIff(t: int)
    ensures Bucket(Bucket(t, Week1), Week1) == Bucket(t, Week1) <==> Plain(t) && Plain(IntervalStart(t, Week1))
  {
    hide *;
    var u, w, shift := Bucket(t, Week1), WeekFloor(Day(t)), CenturyShift(Day(t));
    var d := w + shift;
    WeekBucketIs(t);
    WeekBucketIs(u);
    MidnightIs(d);
    ShiftByPlain(t);
    ShiftByPlain(u);
    WeekFloorFacts(Day(t));
    WeekFloorFacts(d);
    if !Plain(t) { WeekMovedOff(Day(t), shift); }
    SameMidnight(WeekFloor(d) + CenturyShift(d), d);
  }

  /** Bucketing a bucket changes nothing, except for weeks that Date.UTC misreads: those of times in the
      years 0 to 99, and the week in which the year 100 begins. */
  lemma BucketIdempotentIff(t: int, r: Resolution)
    ensures Bucket(Bucket(t, r), r) == Bucket(t, r) <==> r.Week1? ==> Plain(t) && Plain(IntervalStart(t, r))
  {
    if r.Week1? {
      WeekBucketSettledIff(t);
    } else {
      if r.Month1? { MonthBucketSettled(t); } else if r.Day1? { DayBucketSettled(t); }
      hide Bucket, IntervalStart, Plain;
      if Fixed(r) {
        BucketIsFloor(t, r);
        IntervalIdempotent(t, r);
      }
      BucketIsFloor(Bucket(t, r), r);
    }
  }

  /** No later time has an earlier bucket exactly when the time itself is not misread. */
  lemma BucketMonotoneIff(s: int, r: Resolution)
    ensures (forall t :: s <= t ==> Bucket(s, r) <= Bucket(t, r)) <==> Fixed(r) || Plain(s)
  {
    if Fixed(r) || Plain(s) {
      forall t | s <= t ensures Bucket(s, r) <= Bucket(t, r) {
        BucketMonotone(s, t, r);
      }
    } else {
      FirstOf100(s, r);
    }
  }

  lemma BucketMonotone(s: int, t: int, r: Resolution)
    requires s <= t && (Fixed(r) || Plain(s))
    ensures Bucket(s, r) <= Bucket(t, r)
  {
    hide Bucket, IntervalStart, Plain, MillisecondShift, Fixed;
    BucketClosedForm(s, r);
    BucketClosedForm(t, r);
    ShiftIs(s, r);
    ShiftIs(t, r);
    IntervalMonotone(s, t, r);
  }

  /** The first instant of the year 100 is later than s, and its bucket earlier. */
  lemma FirstOf100(s: int, r: Resolution)
    requires !Fixed(r) && !Plain(s)
    ensures var t := DayFromYear(100) * DAY_MS; s <= t && Bucket(t, r) < Bucket(s, r)
  {
    var t := DayFromYear(100) * DAY_MS;
    MisreadYears();
    MisreadDays(s);
    MisreadDays(t);
    MidnightIs(DayFromYear(100));
    DayBounds(s);
    hide DayFromYear, Plain, Day, Bucket, IntervalStart, IntervalEnd, MillisecondShift;
    BucketIsFloor(t, r);
    IntervalHolds(t, r);
    BucketClosedForm(s, r);
    ShiftIs(s, r);
    IntervalShort(s, r);
  }

  lemma DayBounds(t: int)
    ensures Day(t) * DAY_MS <= t < (Day(t) + 1) * DAY_MS
  {
  }

  /** Two times share a bucket exactly when their interval starts differ by the difference of their century
      shifts; so when they are read alike, exactly when one lies in the other's interval. */
  lemma SameBucketIff(s: int, t: int, r: Resolution)
    ensures Bucket(s, r) == Bucket(t, r) <==>
            IntervalStart(t, r) - IntervalStart(s, r) == MillisecondShift(s, r) - MillisecondShift(t, r)
    ensures MillisecondShift(s, r) == MillisecondShift(t, r) ==>
            (Bucket(s, r) == Bucket(t, r) <==> IntervalStart(t, r) <= s < IntervalEnd(t, r))
  {
    hide Bucket, IntervalStart, IntervalEnd, MillisecondShift;
    BucketClosedForm(s, r);
    BucketClosedForm(t, r);
    IntervalHolds(s, r);
    if IntervalStart(t, r) <= s < IntervalEnd(t, r) { SameInterval(t, s, r); }
    if IntervalStart(s, r) == IntervalStart(t, r) { SameEnd(s, t, r); }
  }

  lemma SameEnd(s: int, t: int, r: Resolution)
    requires IntervalStart(s, r) == IntervalStart(t, r)
    ensures IntervalEnd(s, r) == IntervalEnd(t, r)
  {
    hide FirstOfMonth, MonthLength, MonthOf, Extra, YearOf;
    if r.Month1? {
      var d, e := Day(s), Day(t);
      MonthHolds(d);
      MonthHolds(e);
      SameMonth(d, FirstOfMonth(d));
      SameMonth(e, FirstOfMonth(e));
    }
  }

  lemma WeekDayOfMidnight(d: int)
    ensures WeekDay(d * DAY_MS) == (d + 4) % 7
  {
    MidnightIs(d);
  }

  lemma MondayUnlessMoved(d: int, shift: int)
    requires shift == 0 || shift == 693_960 || shift == 693_961
    ensures (WeekFloor(d) + shift + 4) % 7 == 1 <==> shift == 0
  {
    var k := (d - 4) / 7;
    DivUnique(WeekFloor(d) + shift + 4, 7, k + 1 + if shift == 0 then 0 else 99_137);
  }

  /** A week bucket is a midnight, and a Monday exactly for plain times. */
  lemma WeekStartsMondayIff(t: int)
    ensures Bucket(t, Week1) % DAY_MS == 0 && (WeekDay(Bucket(t, Week1)) == 1 <==> Plain(t))
  {
    hide *;
    var d := WeekFloor(Day(t)) + CenturyShift(Day(t));
    WeekBucketIs(t);
    MidnightIs(d);
    WeekDayOfMidnight(d);
    ShiftByPlain(t);
    MondayUnlessMoved(Day(t), CenturyShift(Day(t)));
  }
}
