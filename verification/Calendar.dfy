/** Day numbers to Gregorian dates: the closed form used for branch-name dates, against a simple calendar. */
module Calendar {

  datatype Date = Date(year: int, month: int, day: int)

  // ---- The calendar: leap years as in Appendix C, month lengths as in section 5.7 of RFC 3339 ----

  predicate IsLeap(y: int) { y % 4 == 0 && (y % 100 != 0 || y % 400 == 0) }

  function YearLength(y: int): int { if IsLeap(y) then 366 else 365 }

  function MonthLength(y: int, m: int): int
    requires 1 <= m <= 12
  {
    if m == 2 then (if IsLeap(y) then 29 else 28)
    else if m == 4 || m == 6 || m == 9 || m == 11 then 30
    else 31
  }

  predicate Valid(d: Date) { 1 <= d.month <= 12 && 1 <= d.day <= MonthLength(d.year, d.month) }

  /** The next day. */
  function Successor(d: Date): Date
    requires Valid(d)
  {
    if d.day < MonthLength(d.year, d.month) then d.(day := d.day + 1)
    else if d.month < 12 then Date(d.year, d.month + 1, 1)
    else Date(d.year + 1, 1, 1)
  }

  /** Leap days up to the end of year `y`, counted from year 0. */
  function LeapDays(y: int): int { y / 4 - y / 100 + y / 400 }

  /** Days from 1970-01-01 to January 1st of `y`. */
  function DaysBeforeYear(y: int): int { 365 * (y - 1970) + LeapDays(y - 1) - LeapDays(1969) }

  function DaysBeforeMonth(y: int, m: int): int
    requires 1 <= m <= 13
    decreases m
  {
    if m == 1 then 0 else DaysBeforeMonth(y, m - 1) + MonthLength(y, m - 1)
  }

  /** Days from 1970-01-01 to `d`. */
  function DayNumber(d: Date): int
    requires Valid(d)
  {
    DaysBeforeYear(d.year) + DaysBeforeMonth(d.year, d.month) + d.day - 1
  }

  lemma DaysBeforeYearStep(y: int)
    ensures DaysBeforeYear(y + 1) == DaysBeforeYear(y) + YearLength(y)
  {
    LeapDaysStep(y);
  }

  lemma LeapDaysStep(y: int)
    ensures LeapDays(y) == LeapDays(y - 1) + YearLength(y) - 365
    ensures LeapDays(1969) == 477
  {
    Quarters(y);
    Centuries(y);
    Eras(y);
  }

  lemma Quarters(y: int)
    ensures y / 4 == (y - 1) / 4 + if y % 4 == 0 then 1 else 0
    ensures y % 100 == 0 ==> y % 4 == 0
  {}

  lemma Centuries(y: int)
    ensures y / 100 == (y - 1) / 100 + if y % 100 == 0 then 1 else 0
    ensures y % 400 == 0 ==> y % 100 == 0
  {}

  lemma Eras(y: int)
    ensures y / 400 == (y - 1) / 400 + if y % 400 == 0 then 1 else 0
  {}

  lemma MonthTable(y: int)
    ensures forall m :: 3 <= m <= 13 ==> DaysBeforeMonth(y, m) == MarchOffset(m - 3) + 59 + YearLength(y) - 365
    ensures DaysBeforeMonth(y, 1) == 0 && DaysBeforeMonth(y, 2) == 31
    ensures DaysBeforeMonth(y, 13) == YearLength(y)
  {
    MonthTableFrom(y, 13);
    MonthTableFrom(y, 2);
  }

  /** Days from March 1st to the first of the `mp`-th month after March. */
  function MarchOffset(mp: int): int { (153 * mp + 2) / 5 }

  lemma {:induction false} MonthTableFrom(y: int, m: int)
    requires 2 <= m <= 13
    ensures DaysBeforeMonth(y, 2) == 31
    ensures forall i :: 3 <= i <= m ==> DaysBeforeMonth(y, i) == MarchOffset(i - 3) + 59 + YearLength(y) - 365
    decreases m
  {
    if m > 2 { MonthTableFrom(y, m - 1); }
  }

  lemma SuccessorIsNextDay(d: Date)
    requires Valid(d)
    ensures Valid(Successor(d)) && DayNumber(Successor(d)) == DayNumber(d) + 1
  {
    hide DaysBeforeYear, DaysBeforeMonth, IsLeap;
    MonthStep(d.year, d.month);
    MonthStep(d.year + 1, 0);
    MonthTable(d.year);
    DaysBeforeYearStep(d.year);
  }

  lemma MonthStep(y: int, m: int)
    requires 0 <= m <= 12
    ensures m == 0 ==> DaysBeforeMonth(y, 1) == 0
    ensures m >= 1 ==> DaysBeforeMonth(y, m + 1) == DaysBeforeMonth(y, m) + MonthLength(y, m)
  {}

  lemma DaysBeforeYearMonotone(a: int, b: int)
    requires a <= b
    ensures DaysBeforeYear(b) - DaysBeforeYear(a) >= 365 * (b - a)
    decreases b - a
  {
    if a < b {
      DaysBeforeYearMonotone(a, b - 1);
      DaysBeforeYearStep(b - 1);
    }
  }

  lemma WithinYear(d: Date)
    requires Valid(d)
    ensures DaysBeforeYear(d.year) <= DayNumber(d) < DaysBeforeYear(d.year + 1)
  {
    MonthTable(d.year);
    DaysBeforeYearStep(d.year);
  }

  lemma WithinMonth(d: Date)
    requires Valid(d)
    ensures var day := DayNumber(d) - DaysBeforeYear(d.year) + 1;
            DaysBeforeMonth(d.year, d.month) < day <= DaysBeforeMonth(d.year, d.month + 1)
  {}

  /** Different dates have different day numbers. */
  lemma DayNumberInjective(a: Date, b: Date)
    requires Valid(a) && Valid(b) && DayNumber(a) == DayNumber(b)
    ensures a == b
  {
    hide DaysBeforeYear, DaysBeforeMonth, MonthLength;
    WithinYear(a);
    WithinYear(b);
    if a.year < b.year { DaysBeforeYearMonotone(a.year + 1, b.year); }
    if b.year < a.year { DaysBeforeYearMonotone(b.year + 1, a.year); }
    WithinMonth(a);
    WithinMonth(b);
    if a.month < b.month { MonthsMonotone(a.year, a.month + 1, b.month); }
    if b.month < a.month { MonthsMonotone(a.year, b.month + 1, a.month); }
  }

  lemma {:induction false} MonthsMonotone(y: int, a: int, b: int)
    requires 1 <= a <= b <= 13
    ensures DaysBeforeMonth(y, a) <= DaysBeforeMonth(y, b)
    decreases b - a
  {
    if a < b { MonthsMonotone(y, a, b - 1); }
  }

  // ---- The closed form ----

  /** Rust's integer division truncates toward zero. */
  function TruncatedDiv(a: int, b: int): int
    requires b > 0
  {
    if a >= 0 then a / b else -((-a) / b)
  }

  function Era(z: int): int { TruncatedDiv(if z >= 0 then z else z - 146096, 146097) }

  /** The year of the era, of day `doe` of the era; years start on March 1st. */
  function YearOfEra(doe: int): int { (doe - doe / 1460 + doe / 36524 - doe / 146096) / 365 }

  function DayOfYear(doe: int): int {
    var yoe := YearOfEra(doe);
    doe - (365 * yoe + yoe / 4 - yoe / 100)
  }

  function MonthIndex(doy: int): int { (5 * doy + 2) / 153 }

  /** The year the algorithm has in hand before it is narrowed, counted from March. */
  function MarchYear(days: int): int {
    var z := days + 719468;
    YearOfEra(z - Era(z) * 146097) + Era(z) * 400
  }

  /** The date of day `doy` of the March-based year `y`. */
  function DateOf(y: int, doy: int): Date {
    var mp := MonthIndex(doy);
    var m := if mp < 10 then mp + 3 else mp - 9;
    Date(y + if m <= 2 then 1 else 0, m, doy - (153 * mp + 2) / 5 + 1)
  }

  /** `epoch_days_to_ymd` before the results are narrowed to 32 bits. */
  function CivilFromDays(days: int): Date {
    var z := days + 719468;
    DateOf(MarchYear(days), DayOfYear(z - Era(z) * 146097))
  }

  lemma EraIsFloor(z: int)
    ensures Era(z) == z / 146097
    ensures 0 <= z - Era(z) * 146097 <= 146096
  {
    if z < 0 {
      var n := 146096 - z;
      assert n == 146097 * (n / 146097) + n % 146097;
      assert z == 146097 * (-(n / 146097)) + (146096 - n % 146097);
    }
  }

  /** Day `doe` of a 400-year era split into centuries, 4-year cycles, years and days. */
  lemma SplitEra(doe: int) returns (c: int, q: int, s: int, r: int)
    requires 0 <= doe <= 146096
    ensures 0 <= c <= 3 && 0 <= q <= 24 && 0 <= s <= 3 && 0 <= r <= 365
    ensures doe == 36524 * c + 1461 * q + 365 * s + r
    ensures r == 365 ==> s == 3 && (q < 24 || c == 3)
  {
    c := if doe / 36524 == 4 then 3 else doe / 36524;
    var r1 := doe - 36524 * c;
    q := r1 / 1461;
    var r2 := r1 - 1461 * q;
    s := if r2 / 365 == 4 then 3 else r2 / 365;
    r := r2 - 365 * s;
  }

  lemma YearOfEraIs(doe: int, c: int, q: int, s: int, r: int)
    requires 0 <= c <= 3 && 0 <= q <= 24 && 0 <= s <= 3 && 0 <= r <= 365
    requires doe == 36524 * c + 1461 * q + 365 * s + r <= 146096
    requires r == 365 ==> s == 3 && (q < 24 || c == 3)
    ensures YearOfEra(doe) == 100 * c + 4 * q + s && DayOfYear(doe) == r
  {
    var r2 := 365 * s + r;
    var e := if 24 * c + q + r2 >= 1460 then 1 else 0;
    assert doe == 1460 * (25 * c + q + e) + (24 * c + q + r2 - 1460 * e);
    assert doe / 1460 == 25 * c + q + e;
    assert doe / 36524 == if doe == 146096 then c + 1 else c;
    assert doe / 146096 == if doe == 146096 then 1 else 0;
    var y := 100 * c + 4 * q + s;
    var n := doe - doe / 1460 + doe / 36524 - doe / 146096;
    assert n == 365 * y + (r2 - e - 365 * s) && 0 <= r2 - e - 365 * s < 365;
    Divides(n, 365, y, r2 - e - 365 * s);
    assert YearOfEra(doe) == y;
    Divides(y, 4, 25 * c + q, s);
    Divides(y, 100, c, 4 * q + s);
  }

  lemma MonthOfDay(doy: int)
    requires 0 <= doy <= 365
    ensures 0 <= MonthIndex(doy) <= 11
    ensures MarchOffset(MonthIndex(doy)) <= doy
    ensures MonthIndex(doy) < 11 ==> doy < MarchOffset(MonthIndex(doy) + 1)
  {
    var mp := MonthIndex(doy);
    assert 153 * mp <= 5 * doy + 2 < 153 * (mp + 1);
  }

  /** The intermediate quantities stay in the ranges the algorithm's comments give. */
  lemma IntermediateRanges(days: int)
    ensures var z := days + 719468; var doe := z - Era(z) * 146097;
            && 0 <= doe <= 146096 && 0 <= YearOfEra(doe) <= 399 && 0 <= DayOfYear(doe) <= 365
            && 0 <= MonthIndex(DayOfYear(doe)) <= 11
  {
    var z := days + 719468;
    EraIsFloor(z);
    var doe := z - Era(z) * 146097;
    var c, q, s, r := SplitEra(doe);
    YearOfEraIs(doe, c, q, s, r);
    MonthOfDay(r);
  }

  lemma Divides(a: int, b: int, q: int, r: int)
    requires (b == 4 || b == 100 || b == 365 || b == 400) && 0 <= r < b && a == b * q + r
    ensures a / b == q && a % b == r
  {}

  lemma LeapDaysInEra(era: int, yoe: int)
    requires 0 <= yoe <= 399
    ensures LeapDays(400 * era + yoe) == 97 * era + yoe / 4 - yoe / 100
    ensures IsLeap(400 * era + yoe + 1) <==> IsLeap(yoe + 1)
  {
    var y, n := 400 * era + yoe, yoe + 1;
    Divides(y, 4, 100 * era + yoe / 4, yoe % 4);
    Divides(y, 100, 4 * era + yoe / 100, yoe % 100);
    Divides(y, 400, era, yoe);
    Divides(y + 1, 4, 100 * era + n / 4, n % 4);
    Divides(y + 1, 100, 4 * era + n / 100, n % 100);
    Divides(y + 1, 400, era + n / 400, n % 400);
  }

  /** A year of the era with 366 days ends in a leap day. */
  lemma LongYearIsLeap(c: int, q: int, s: int)
    requires 0 <= c <= 3 && 0 <= q <= 24 && s == 3 && (q < 24 || c == 3)
    ensures IsLeap(100 * c + 4 * q + s + 1)
  {
    var n := 100 * c + 4 * q + 4;
    Divides(n, 4, 25 * c + q + 1, 0);
    if q < 24 { Divides(n, 100, c, 4 * q + 4); } else { Divides(n, 400, 1, 0); }
  }

  /** The day number of the date with March-based year `y`, month index `mp` and day of month `d`. */
  lemma MarchBased(y: int, mp: int, d: int)
    requires 0 <= mp <= 11
    ensures var m := if mp < 10 then mp + 3 else mp - 9;
            var year := y + if m <= 2 then 1 else 0;
            DaysBeforeYear(year) + DaysBeforeMonth(year, m) + d - 1
            == 365 * y + LeapDays(y) + MarchOffset(mp) + d - 1 - 719468
  {
    hide DaysBeforeMonth, YearLength, LeapDays;
    var year := y + if mp < 10 then 0 else 1;
    MonthTable(year);
    LeapDaysStep(y);
    assert mp >= 10 ==> MarchOffset(mp) == if mp == 10 then 306 else 337;
  }

  /** Every day number gets a valid date, whose day number it is. */
  lemma CivilIsValid(days: int)
    ensures Valid(CivilFromDays(days)) && DayNumber(CivilFromDays(days)) == days
  {
    hide YearOfEra, Era, DaysBeforeYear, DaysBeforeMonth, LeapDays, MonthIndex, IsLeap, MonthLength, DayOfYear;
    var z := days + 719468;
    EraIsFloor(z);
    var era := Era(z);
    var doe := z - era * 146097;
    var c, q, s, r := SplitEra(doe);
    YearOfEraIs(doe, c, q, s, r);
    var yoe := 100 * c + 4 * q + s;
    var y := yoe + era * 400;
    LeapDaysInEra(era, yoe);
    YearOfCycle(c, q, s);
    if r == 365 { LongYearIsLeap(c, q, s); }
    MarchDate(y, r);
  }

  lemma MarchDate(y: int, doy: int)
    requires 0 <= doy <= 365 && (doy == 365 ==> IsLeap(y + 1))
    ensures Valid(DateOf(y, doy)) && DayNumber(DateOf(y, doy)) == 365 * y + LeapDays(y) + doy - 719468
  {
    hide DaysBeforeYear, DaysBeforeMonth, LeapDays, MonthIndex, IsLeap, MonthLength;
    DayFits(y, doy);
    MarchBased(y, MonthIndex(doy), doy - MarchOffset(MonthIndex(doy)) + 1);
  }

  lemma YearOfCycle(c: int, q: int, s: int)
    requires 0 <= c <= 3 && 0 <= q <= 24 && 0 <= s <= 3
    ensures (100 * c + 4 * q + s) / 4 == 25 * c + q && (100 * c + 4 * q + s) / 100 == c
    ensures 0 <= 100 * c + 4 * q + s <= 399
  {}

  lemma DayFits(y: int, doy: int)
    requires 0 <= doy <= 365 && (doy == 365 ==> IsLeap(y + 1))
    ensures var mp := MonthIndex(doy);
            var m := if mp < 10 then mp + 3 else mp - 9;
            0 <= mp <= 11 && 1 <= doy - MarchOffset(mp) + 1 <= MonthLength(if m <= 2 then y + 1 else y, m)
  {
    MonthOfDay(doy);
    MonthOffsets();
  }

  lemma MonthOffsets()
    ensures MarchOffset(0) == 0 && MarchOffset(1) == 31 && MarchOffset(2) == 61 && MarchOffset(3) == 92
    ensures MarchOffset(4) == 122 && MarchOffset(5) == 153 && MarchOffset(6) == 184 && MarchOffset(7) == 214
    ensures MarchOffset(8) == 245 && MarchOffset(9) == 275 && MarchOffset(10) == 306 && MarchOffset(11) == 337
  {}

  /** The closed form inverts the day count: every valid date comes back from its day number. */
  lemma CivilInverts(d: Date)
    requires Valid(d)
    ensures CivilFromDays(DayNumber(d)) == d
  {
    CivilIsValid(DayNumber(d));
    DayNumberInjective(CivilFromDays(DayNumber(d)), d);
  }

  /** Day 0 is 1970-01-01 and each next day is the calendar successor: the closed form is the calendar. */
  lemma CivilFollowsCalendar(days: int)
    ensures CivilFromDays(0) == Date(1970, 1, 1)
    ensures Valid(CivilFromDays(days)) && CivilFromDays(days + 1) == Successor(CivilFromDays(days))
  {
    CivilInverts(Date(1970, 1, 1));
    CivilIsValid(days);
    SuccessorIsNextDay(CivilFromDays(days));
    CivilInverts(Successor(CivilFromDays(days)));
  }

  // ---- The 32-bit result ----

  const TWO_31: int := 0x8000_0000

  /** `as i32`: two's-complement truncation. */
  function AsI32(n: int): int { (n + TWO_31) % (2 * TWO_31) - TWO_31 }

  /** `epoch_days_to_ymd`. The year is narrowed before 1 is added; an addition that leaves the 32-bit range has no
      result (a debug build panics). */
  function EpochDaysToYmd(days: int): (r: (bool, Date)) {
    var c := CivilFromDays(days);
    var year := AsI32(MarchYear(days)) + if c.month <= 2 then 1 else 0;
    (year < TWO_31, Date(year, c.month, c.day))
  }

  const FIRST_DAY: int := -784353015773
  const LAST_DAY: int := 784351576776

  lemma ExtremeDays()
    ensures DayNumber(Date(-TWO_31, 3, 1)) == FIRST_DAY
    ensures DayNumber(Date(TWO_31 - 1, 12, 31)) == LAST_DAY
  {
    hide DaysBeforeMonth, DaysBeforeYear, IsLeap;
    MonthTable(-TWO_31);
    MonthTable(TWO_31 - 1);
    ExtremeYears();
    assert MarchOffset(0) == 0 && MarchOffset(9) == 275;
  }

  lemma ExtremeYears()
    ensures DaysBeforeYear(-TWO_31) == FIRST_DAY - 60 && YearLength(-TWO_31) == 366
    ensures DaysBeforeYear(TWO_31 - 1) == LAST_DAY - 364 && YearLength(TWO_31 - 1) == 365
  {}

  /** The March-based year of a date. */
  lemma MarchYearOf(days: int)
    ensures var d := CivilFromDays(days); MarchYear(days) == if d.month <= 2 then d.year - 1 else d.year
  {}

  lemma AsI32Keeps(n: int)
    ensures -TWO_31 <= AsI32(n) < TWO_31
    ensures AsI32(n) == n <==> -TWO_31 <= n < TWO_31
  {}

  lemma ExtremesAreValid()
    ensures Valid(Date(-TWO_31, 3, 1)) && Valid(Date(TWO_31 - 1, 12, 31))
  {}

  /** The narrowed result is the calendar date exactly from March 1st of the least 32-bit year to December 31st of the
      greatest one. */
  lemma NarrowingIsExact(days: int)
    ensures EpochDaysToYmd(days) == (true, CivilFromDays(days)) <==> FIRST_DAY <= days <= LAST_DAY
  {
    hide CivilFromDays, MarchYear, DayNumber, IsLeap, AsI32;
    var d := CivilFromDays(days);
    CivilIsValid(days);
    ExtremeDays();
    MarchYearOf(days);
    AsI32Keeps(MarchYear(days));
    var y := MarchYear(days);
    ExtremesAreValid();
    DayOrder(Date(-TWO_31, 3, 1), d);
    DayOrder(d, Date(TWO_31 - 1, 12, 31));
  }

  predicate NotAfter(a: Date, b: Date) {
    a.year < b.year || (a.year == b.year && (a.month < b.month || (a.month == b.month && a.day <= b.day)))
  }

  /** Day numbers are ordered as the dates are. */
  lemma DayOrder(a: Date, b: Date)
    requires Valid(a) && Valid(b)
    ensures NotAfter(a, b) <==> DayNumber(a) <= DayNumber(b)
  {
    if NotAfter(a, b) {
      DayOrderForward(a, b);
    } else {
      DayOrderForward(b, a);
      if DayNumber(a) == DayNumber(b) { DayNumberInjective(a, b); }
    }
  }

  lemma DayOrderForward(a: Date, b: Date)
    requires Valid(a) && Valid(b) && NotAfter(a, b)
    ensures DayNumber(a) <= DayNumber(b)
  {
    hide DaysBeforeYear, DaysBeforeMonth, MonthLength;
    WithinMonth(a);
    WithinMonth(b);
    WithinYear(a);
    WithinYear(b);
    if a.year < b.year {
      DaysBeforeYearMonotone(a.year + 1, b.year);
    } else if a.month < b.month {
      MonthsMonotone(a.year, a.month + 1, b.month);
    }
  }
}
