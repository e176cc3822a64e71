/** The calendar arithmetic behind RFC 3339 timestamps, against an independent definition of the
    proleptic Gregorian calendar (leap years as in appendix C of RFC 3339, days per month as in its
    section 5.7). */
module Calendar {

  // ---------------------------------------------------------------------
  // The calendar

  predicate IsLeap(year: int) {
    year % 4 == 0 && (year % 100 != 0 || year % 400 == 0)
  }

  function DaysInMonth(year: int, month: int): (days: int)
    requires 1 <= month <= 12
    ensures 28 <= days <= 31
  {
    if month == 2 then (if IsLeap(year) then 29 else 28)
    else if month == 4 || month == 6 || month == 9 || month == 11 then 30
    else 31
  }

  function DaysInYear(year: int): int {
    if IsLeap(year) then 366 else 365
  }

  /** Day number of 1 January, counted year by year from 1970. */
  function YearStart(year: int): int
    decreases if year >= 1970 then year - 1970 else 1970 - year
  {
    if year == 1970 then 0
    else if year > 1970 then YearStart(year - 1) + DaysInYear(year - 1)
    else YearStart(year + 1) - DaysInYear(year)
  }

  /** Days of the year before the month begins, counted month by month. */
  function MonthStart(year: int, month: int): int
    requires 1 <= month <= 13
  {
    if month == 1 then 0 else MonthStart(year, month - 1) + DaysInMonth(year, month - 1)
  }

  datatype Date = Date(year: int, month: int, day: int) {
    predicate Valid() {
      1 <= month <= 12 && 1 <= day <= DaysInMonth(year, month)
    }
  }

  /** Days since 1970-01-01. */
  function DayNumber(d: Date): int
    requires d.Valid()
  {
    YearStart(d.year) + MonthStart(d.year, d.month) + d.day - 1
  }

  // ---------------------------------------------------------------------
  // A day number belongs to one date

  lemma YearStep(year: int)
    ensures YearStart(year + 1) == YearStart(year) + DaysInYear(year)
  {
  }

  lemma {:induction false} YearsIncrease(a: int, b: int)
    requires a <= b
    ensures YearStart(a) + 365 * (b - a) <= YearStart(b)
    decreases b - a
  {
    if a < b {
      YearStep(b - 1);
      YearsIncrease(a, b - 1);
    }
  }

  lemma MonthTable(year: int)
    ensures var f := if IsLeap(year) then 1 else 0;
            && MonthStart(year, 1) == 0 && MonthStart(year, 2) == 31
            && MonthStart(year, 3) == 59 + f && MonthStart(year, 4) == 90 + f
            && MonthStart(year, 5) == 120 + f && MonthStart(year, 6) == 151 + f
            && MonthStart(year, 7) == 181 + f && MonthStart(year, 8) == 212 + f
            && MonthStart(year, 9) == 243 + f && MonthStart(year, 10) == 273 + f
            && MonthStart(year, 11) == 304 + f && MonthStart(year, 12) == 334 + f
            && MonthStart(year, 13) == DaysInYear(year)
  {
  }

  lemma {:induction false} MonthsIncrease(year: int, a: int, b: int)
    requires 1 <= a <= b <= 13
    ensures MonthStart(year, a) <= MonthStart(year, b)
    ensures a < b ==> MonthStart(year, a) + DaysInMonth(year, a) <= MonthStart(year, b)
    decreases b - a
  {
    if a < b { MonthsIncrease(year, a, b - 1); }
  }

  lemma DayInYear(d: Date)
    requires d.Valid()
    ensures YearStart(d.year) <= DayNumber(d) < YearStart(d.year + 1)
  {
    MonthsIncrease(d.year, 1, d.month);
    MonthsIncrease(d.year, d.month, 13);
    MonthTable(d.year);
    YearStep(d.year);
  }

  /** Valid dates with the same day number are the same date. */
  lemma DayNumberInjective(a: Date, b: Date)
    requires a.Valid() && b.Valid() && DayNumber(a) == DayNumber(b)
    ensures a == b
  {
    DayInYear(a);
    DayInYear(b);
    if a.year < b.year { YearsIncrease(a.year + 1, b.year); }
    if b.year < a.year { YearsIncrease(b.year + 1, a.year); }
    assert a.year == b.year;
    if a.month < b.month { MonthsIncrease(a.year, a.month, b.month); }
    if b.month < a.month { MonthsIncrease(a.year, b.month, a.month); }
  }

  // ---------------------------------------------------------------------
  // The service's arithmetic

  datatype Timestamp = Timestamp(date: Date, hour: int, minute: int, second: int, millis: int)

  /** Day of the era on which year y of the era begins; eras have 400 years, and years begin on 1 March. */
  function EraYearStart(y: int): int {
    365 * y + y / 4 - y / 100
  }

  function YearOfEra(doe: int): int {
    (doe - doe / 1_460 + doe / 36_524 - doe / 146_096) / 365
  }

  /** The month within a year that begins in March. */
  function MonthPrime(doy: int): int { (5 * doy + 2) / 153 }

  /** The date that is doy days into the March year. */
  function FromMarch(year: int, doy: int): Date {
    var monthPrime := MonthPrime(doy);
    var day := doy - (153 * monthPrime + 2) / 5 + 1;
    var month := monthPrime + (if monthPrime < 10 then 3 else -9);
    Date(if month <= 2 then year + 1 else year, month, day)
  }

  /** The date of a day of an era. */
  function EraDate(era: int, dayOfEra: int): Date {
    var yearOfEra := YearOfEra(dayOfEra);
    FromMarch(yearOfEra + era * 400, dayOfEra - EraYearStart(yearOfEra))
  }

  /** The date part: days since 1970-01-01 to year, month, day. */
  function CivilDate(days: nat): Date {
    var z := days + 719_468;
    var era := (if z >= 0 then z else z - 146_096) / 146_097;
    EraDate(era, z - era * 146_097)
  }

  function Rfc3339(millis: nat): Timestamp {
    var seconds := millis / 1_000;
    var secondsOfDay := seconds % 86_400;
    Timestamp(CivilDate(seconds / 86_400),
              secondsOfDay / 3_600, secondsOfDay % 3_600 / 60, secondsOfDay % 60, millis % 1_000)
  }

  // ---------------------------------------------------------------------
  // The year within the era

  /** Within one four-year cycle. */
  lemma QuadYear(u: int, e: int)
    requires 0 <= u <= 1_460 && (e == 0 || e == 1)
    requires e == 1 ==> u >= 1_364
    requires u == 1_460 ==> e == 1
    ensures 0 <= (u - e) / 365 <= 3
    ensures 0 <= u - 365 * ((u - e) / 365) <= 365
    ensures u - 365 * ((u - e) / 365) == 365 ==> (u - e) / 365 == 3 && u == 1_460
  {
  }

  /** Within one century b of the era (0 to 3), on its day r. */
  lemma CenturyYear(b: int, r: int) returns (k: int, u: int, v: int)
    requires 0 <= b <= 3 && 0 <= r < 36_524
    ensures 0 <= k <= 24 && 0 <= u <= 1_460 && r == 1_461 * k + u && 0 <= v <= 3
    ensures (r - (24 * b + r) / 1_460) / 365 == 4 * k + v
    ensures 0 <= u - 365 * v <= 365
    ensures u - 365 * v == 365 ==> v == 3 && k < 24
  {
    k, u := r / 1_461, r % 1_461;
    var e := if k + u + 24 * b >= 1_460 then 1 else 0;
    assert (24 * b + r) / 1_460 == k + e;
    QuadYear(u, e);
    v := (u - e) / 365;
    assert r - (24 * b + r) / 1_460 == 365 * (4 * k) + (u - e);
    DivShift(u - e, 4 * k);
  }

  lemma DivShift(x: int, q: int)
    ensures (365 * q + x) / 365 == q + x / 365
  {
  }

  lemma YearOfCentury(b: int, r: int, t: int)
    requires 0 <= b <= 3 && 0 <= r < 36_524 && t == (r - (24 * b + r) / 1_460) / 365
    ensures YearOfEra(36_524 * b + r) == 100 * b + t
  {
  }

  lemma StartOfYear(b: int, k: int, v: int)
    requires 0 <= b <= 3 && 0 <= k <= 24 && 0 <= v <= 3
    ensures EraYearStart(100 * b + 4 * k + v) == 36_524 * b + 1_461 * k + 365 * v
    ensures v == 3 && k < 24 ==> IsLeap(100 * b + 4 * k + v + 1)
  {
  }

  /** The quotient picks the year of the era that contains the day; only a leap February reaches
      day 365 of it. */
  lemma YearOfEraCorrect(doe: int)
    requires 0 <= doe < 146_097
    ensures 0 <= YearOfEra(doe) < 400
    ensures 0 <= doe - EraYearStart(YearOfEra(doe)) <= 365
    ensures doe - EraYearStart(YearOfEra(doe)) == 365 ==> IsLeap(YearOfEra(doe) + 1)
  {
    if doe == 146_096 {
      assert YearOfEra(doe) == 399;
    } else {
      var b, r := doe / 36_524, doe % 36_524;
      var k, u, v := CenturyYear(b, r);
      YearOfCentury(b, r, 4 * k + v);
      StartOfYear(b, k, v);
      assert YearOfEra(doe) == 100 * b + 4 * k + v;
      assert doe - EraYearStart(YearOfEra(doe)) == u - 365 * v;
    }
  }

  // ---------------------------------------------------------------------
  // March years on the calendar

  /** Leap years among 1 to n, also for n <= 0. */
  function Leaps(n: int): int {
    n / 4 - n / 100 + n / 400
  }

  lemma LeapStep(n: int)
    ensures Leaps(n) == Leaps(n - 1) + (if IsLeap(n) then 1 else 0)
  {
    QuotientStep(n, 4);
    QuotientStep(n, 100);
    QuotientStep(n, 400);
    Divides(n);
  }

  lemma Divides(n: int)
    ensures n % 400 == 0 ==> n % 100 == 0
    ensures n % 100 == 0 ==> n % 4 == 0
  {
  }

  lemma QuotientStep(n: int, d: int)
    requires d == 4 || d == 100 || d == 400
    ensures n / d == (n - 1) / d + (if n % d == 0 then 1 else 0)
  {
  }

  lemma {:induction false} YearStartClosed(y: int)
    ensures YearStart(y) == 365 * (y - 1970) + Leaps(y - 1) - 477
    decreases if y >= 1970 then y - 1970 else 1970 - y
  {
    if y > 1970 {
      YearStartClosed(y - 1);
      LeapStep(y - 1);
    } else if y < 1970 {
      YearStartClosed(y + 1);
      LeapStep(y);
    }
  }

  /** Days from 0000-03-01 to 1 March of year y. */
  function MarchStart(y: int): int {
    365 * y + Leaps(y)
  }

  lemma MarchOnCalendar(y: int)
    ensures YearStart(y) + MonthStart(y, 3) == MarchStart(y) - 719_468
    ensures YearStart(y + 1) == MarchStart(y) - 719_468 + 306
  {
    YearStartClosed(y);
    YearStartClosed(y + 1);
    LeapStep(y);
    MonthTable(y);
  }

  lemma Shift(x: int, q: int, d: int)
    requires d == 4 || d == 100 || d == 400
    ensures (x + d * q) / d == x / d + q
    ensures (x + d * q) % d == x % d
  {
  }

  lemma MarchInEra(era: nat, yoe: int)
    requires 0 <= yoe < 400
    ensures MarchStart(yoe + 400 * era) == 146_097 * era + EraYearStart(yoe)
  {
    Shift(yoe, 100 * era, 4);
    Shift(yoe, 4 * era, 100);
    Shift(yoe, era, 400);
  }

  lemma LeapInEra(era: nat, y: int)
    ensures IsLeap(y + 400 * era) <==> IsLeap(y)
  {
    Shift(y, 100 * era, 4);
    Shift(y, 4 * era, 100);
    Shift(y, era, 400);
  }

  /** Day doy of the March year y is a valid date with the matching day number. */
  lemma MonthsFromMarch(y: int, doy: int)
    requires 0 <= doy <= 365 && (doy == 365 ==> IsLeap(y + 1))
    ensures FromMarch(y, doy).Valid()
    ensures DayNumber(FromMarch(y, doy)) == MarchStart(y) - 719_468 + doy
  {
    var mp := MonthPrime(doy);
    assert 0 <= mp <= 11;
    MarchOnCalendar(y);
    MonthTable(y);
    MonthTable(y + 1);
    if mp < 10 {
      MarchToDecember(y, doy, mp);
    } else {
      JanuaryFebruary(y, doy, mp);
    }
  }

  lemma MarchToDecember(y: int, doy: int, mp: int)
    requires 0 <= doy <= 365 && mp == MonthPrime(doy) && 0 <= mp < 10
    ensures 1 <= doy - (153 * mp + 2) / 5 + 1 <= DaysInMonth(y, mp + 3)
    ensures MonthStart(y, mp + 3) == MonthStart(y, 3) + (153 * mp + 2) / 5
  {
    MonthTable(y);
    match mp
    case 0 => case 1 => case 2 => case 3 => case 4 =>
    case 5 => case 6 => case 7 => case 8 => case _ =>
  }

  lemma JanuaryFebruary(y: int, doy: int, mp: int)
    requires 0 <= doy <= 365 && (doy == 365 ==> IsLeap(y + 1)) && mp == MonthPrime(doy) && 10 <= mp <= 11
    ensures 1 <= doy - (153 * mp + 2) / 5 + 1 <= DaysInMonth(y + 1, mp - 9)
    ensures 306 + MonthStart(y + 1, mp - 9) == (153 * mp + 2) / 5
  {
  }

  // ---------------------------------------------------------------------
  // The theorem

  /** Day doe of an era, on the calendar. */
  lemma EraDay(era: nat, doe: int)
    requires 0 <= doe < 146_097
    ensures EraDate(era, doe).Valid()
    ensures DayNumber(EraDate(era, doe)) == 146_097 * era + doe - 719_468
  {
    YearOfEraCorrect(doe);
    var yoe := YearOfEra(doe);
    MarchInEra(era, yoe);
    LeapInEra(era, yoe + 1);
    assert yoe + 1 + 400 * era == yoe + 400 * era + 1;
    MonthsFromMarch(yoe + 400 * era, doe - EraYearStart(yoe));
  }

  /** The date computed for a day count is valid, has that day number, and is the only such date. */
  lemma CivilDateCorrect(days: nat)
    ensures CivilDate(days).Valid()
    ensures DayNumber(CivilDate(days)) == days
    ensures forall d: Date :: d.Valid() && DayNumber(d) == days ==> d == CivilDate(days)
  {
    var z := days + 719_468;
    var era, doe := z / 146_097, z % 146_097;
    assert doe == z - era * 146_097;
    var c := CivilDate(days);
    assert c == EraDate(era, doe);
    EraDay(era, doe);
    forall d: Date | d.Valid() && DayNumber(d) == days ensures d == c { DayNumberInjective(d, c); }
  }

  lemma TimeOfDay(s: nat)
    requires s < 86_400
    ensures s / 3_600 < 24 && s % 3_600 / 60 < 60 && s % 60 < 60
    ensures (s / 3_600 * 60 + s % 3_600 / 60) * 60 + s % 60 == s
  {
  }

  /** Every millisecond count gets a valid date and time of day, and reads back as the same count. */
  lemma Rfc3339Correct(millis: nat)
    ensures var t := Rfc3339(millis);
            && t.date.Valid()
            && 0 <= t.hour < 24 && 0 <= t.minute < 60 && 0 <= t.second < 60 && 0 <= t.millis < 1_000
            && (DayNumber(t.date) * 86_400 + (t.hour * 60 + t.minute) * 60 + t.second) * 1_000 + t.millis == millis
  {
    var seconds := millis / 1_000;
    var days := seconds / 86_400;
    CivilDateCorrect(days);
    TimeOfDay(seconds % 86_400);
    assert seconds == days * 86_400 + seconds % 86_400;
  }

  /** Different millisecond counts never share a timestamp. */
  lemma Rfc3339Injective(a: nat, b: nat)
    requires Rfc3339(a) == Rfc3339(b)
    ensures a == b
  {
    Rfc3339Correct(a);
    Rfc3339Correct(b);
  }
}
