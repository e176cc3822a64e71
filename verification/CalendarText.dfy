/** The printed form of a timestamp: zero-padded fields between fixed separators. The text reads back as
    the fields, so different millisecond counts never share a text, and the year has the four digits that
    section 5.6 of RFC 3339 asks for exactly until the end of the year 9999. */
module CalendarText {
  import opened Core
  import opened Calendar

  const DIGITS: string := "0123456789"

  /** The decimal digits of n, with zeros in front up to the width. */
  function Padded(n: nat, width: nat): string
    requires width >= 1
    decreases n + width
  {
    if n < 10 && width == 1 then [DIGITS[n]]
    else Padded(n / 10, if width > 1 then width - 1 else 1) + [DIGITS[n % 10]]
  }

  function Fraction(millis: nat): string {
    if millis == 0 then "Z" else "." + Padded(millis, 3) + "Z"
  }

  predicate Printable(t: Timestamp) {
    && t.date.Valid() && 0 <= t.date.year
    && 0 <= t.hour < 24 && 0 <= t.minute < 60 && 0 <= t.second < 60 && 0 <= t.millis < 1_000
  }

  /** Everything after the year. */
  function Rest(t: Timestamp): string
    requires Printable(t)
  {
    "-" + Padded(t.date.month, 2) + "-" + Padded(t.date.day, 2) + "T" + Padded(t.hour, 2) + ":" + Padded(t.minute, 2)
    + ":" + Padded(t.second, 2) + Fraction(t.millis)
  }

  function Print(t: Timestamp): string
    requires Printable(t)
  {
    Padded(t.date.year, 4) + Rest(t)
  }

  lemma Rfc3339Printable(millis: nat)
    ensures Printable(Rfc3339(millis))
  {
    Rfc3339Correct(millis);
    var days := millis / 1_000 / 86_400;
    CivilDateCorrect(days);
    var d := CivilDate(days);
    DayInYear(d);
    if d.year < 0 { YearsIncrease(d.year + 1, 1970); }
  }

  function Rfc3339Text(millis: nat): string {
    Rfc3339Printable(millis);
    Print(Rfc3339(millis))
  }

  // ---------------------------------------------------------------------
  // Digits

  predicate IsDigit(c: char) { '0' <= c <= '9' }

  predicate AllDigits(s: string) { forall k :: 0 <= k < |s| ==> IsDigit(s[k]) }

  /** The number that decimal digits stand for. */
  function Number(s: string): nat
    requires AllDigits(s)
  {
    if s == [] then 0 else 10 * Number(s[..|s| - 1]) + (s[|s| - 1] as int - '0' as int)
  }

  lemma {:induction false} PaddedLength(n: nat, width: nat)
    requires width >= 1
    ensures |Padded(n, width)| >= width
    ensures AllDigits(Padded(n, width)) && Number(Padded(n, width)) == n
    decreases n + width
  {
    DigitValue(n % 10);
    if !(n < 10 && width == 1) {
      var front := Padded(n / 10, if width > 1 then width - 1 else 1);
      PaddedLength(n / 10, if width > 1 then width - 1 else 1);
      assert Padded(n, width)[..|front|] == front;
    }
  }

  lemma DigitValue(d: nat)
    requires d < 10
    ensures IsDigit(DIGITS[d]) && DIGITS[d] as int - '0' as int == d
  {
  }

  /** The padding holds exactly while n has no more digits than the width. */
  lemma PaddedWidth(n: nat)
    ensures |Padded(n, 2)| == 2 <==> n < 100
    ensures |Padded(n, 3)| == 3 <==> n < 1_000
    ensures |Padded(n, 4)| == 4 <==> n < 10_000
  {
    OneDigit(n / 10);
    OneDigit(n / 10 / 10);
    OneDigit(n / 10 / 10 / 10);
  }

  lemma OneDigit(n: nat)
    ensures |Padded(n, 1)| == 1 <==> n < 10
  {
    if n >= 10 { PaddedLength(n / 10, 1); }
  }

  // ---------------------------------------------------------------------
  // The text

  lemma PartsHaveWidth(t: Timestamp)
    requires Printable(t)
    ensures |Padded(t.date.month, 2)| == |Padded(t.date.day, 2)| == |Padded(t.hour, 2)| == 2
    ensures |Padded(t.minute, 2)| == |Padded(t.second, 2)| == 2
    ensures |Fraction(t.millis)| == if t.millis == 0 then 1 else 5
  {
    PaddedWidth(t.date.month);
    PaddedWidth(t.date.day);
    PaddedWidth(t.hour);
    PaddedWidth(t.minute);
    PaddedWidth(t.second);
    PaddedWidth(t.millis);
  }

  /** Slices of a text of two-character parts. */
  lemma Slices(a: string, b: string, c: string, d: string, e: string, f: string)
    requires |a| == |b| == |c| == |d| == |e| == 2
    ensures var r := "-" + a + "-" + b + "T" + c + ":" + d + ":" + e + f;
            && r[0] == '-' && r[3] == '-' && r[6] == 'T' && r[9] == ':' && r[12] == ':'
            && |r| == 15 + |f| && r[1..3] == a && r[4..6] == b && r[7..9] == c
            && r[10..12] == d && r[13..15] == e && r[15..] == f
  {
  }

  predicate Separated(r: string) {
    |r| >= 16 && r[0] == '-' && r[3] == '-' && r[6] == 'T' && r[9] == ':' && r[12] == ':' && r[|r| - 1] == 'Z'
  }

  /** The fixed places of what follows the year. */
  lemma RestShape(t: Timestamp)
    requires Printable(t)
    ensures |Rest(t)| == if t.millis == 0 then 16 else 20
    ensures Separated(Rest(t))
    ensures Rest(t)[1..3] == Padded(t.date.month, 2) && Rest(t)[4..6] == Padded(t.date.day, 2)
    ensures Rest(t)[7..9] == Padded(t.hour, 2) && Rest(t)[10..12] == Padded(t.minute, 2)
    ensures Rest(t)[13..15] == Padded(t.second, 2) && Rest(t)[15..] == Fraction(t.millis)
  {
    PartsHaveWidth(t);
    Slices(Padded(t.date.month, 2), Padded(t.date.day, 2), Padded(t.hour, 2), Padded(t.minute, 2),
           Padded(t.second, 2), Fraction(t.millis));
  }

  /** The fifth character from the end tells whether there is a fraction. */
  lemma FractionShows(t: Timestamp)
    requires Printable(t)
    ensures |Print(t)| >= 5 && (Print(t)[|Print(t)| - 5] == '.' <==> t.millis != 0)
  {
    RestShape(t);
    PaddedWidth(t.minute);
    PaddedLength(t.minute, 2);
    var s, r := Print(t), Rest(t);
    assert s[|s| - 5] == r[|r| - 5];
    if t.millis == 0 {
      assert r[11] == r[10..12][1];
    } else {
      assert r[15] == r[15..][0];
    }
  }

  // ---------------------------------------------------------------------
  // Reading it back

  /** A decimal field, if it is one. */
  function Field(s: string): Option<nat> { if s != [] && AllDigits(s) then Some(Number(s)) else None }

  /** A reader of timestamps: at least four digits of year, two-digit fields, and three digits of
      milliseconds or none. */
  function Read(s: string): Option<Timestamp> {
    var tail := if |s| >= 5 && s[|s| - 5] == '.' then 20 else 16;
    if |s| < tail + 4 then None
    else
      var y, r := s[..|s| - tail], s[|s| - tail..];
      var millis := if tail == 16 then Some(0) else Field(r[16..19]);
      if !Separated(r) || Field(y).None? || Field(r[1..3]).None? || Field(r[4..6]).None? || Field(r[7..9]).None?
         || Field(r[10..12]).None? || Field(r[13..15]).None? || millis.None? then None
      else
        Some(Timestamp(Date(Field(y).value, Field(r[1..3]).value, Field(r[4..6]).value),
                       Field(r[7..9]).value, Field(r[10..12]).value, Field(r[13..15]).value, millis.value))
  }

  lemma FieldOfPadded(n: nat, width: nat)
    requires width >= 1
    ensures Field(Padded(n, width)) == Some(n)
  {
    PaddedLength(n, width);
  }

  lemma ReadsBack(t: Timestamp)
    requires Printable(t)
    ensures Read(Print(t)) == Some(t)
  {
    FractionShows(t);
    RestShape(t);
    PaddedLength(t.date.year, 4);
    var s, r := Print(t), Rest(t);
    assert s[..|s| - |r|] == Padded(t.date.year, 4) && s[|s| - |r|..] == r;
    FieldOfPadded(t.date.year, 4);
    FieldOfPadded(t.date.month, 2);
    FieldOfPadded(t.date.day, 2);
    FieldOfPadded(t.hour, 2);
    FieldOfPadded(t.minute, 2);
    FieldOfPadded(t.second, 2);
    if t.millis != 0 {
      PartsHaveWidth(t);
      PaddedWidth(t.millis);
      assert r[16..19] == Fraction(t.millis)[1..4] == Padded(t.millis, 3);
      FieldOfPadded(t.millis, 3);
    }
  }

  /** The printed text of every millisecond count reads back as fields that stand for that count. */
  lemma TextReadsBack(millis: nat)
    ensures Read(Rfc3339Text(millis)) == Some(Rfc3339(millis))
    ensures var t := Rfc3339(millis);
            && t.date.Valid()
            && (DayNumber(t.date) * 86_400 + (t.hour * 60 + t.minute) * 60 + t.second) * 1_000 + t.millis == millis
  {
    Rfc3339Correct(millis);
    Rfc3339Printable(millis);
    ReadsBack(Rfc3339(millis));
  }

  /** Different millisecond counts never share a printed timestamp. */
  lemma TextInjective(a: nat, b: nat)
    requires Rfc3339Text(a) == Rfc3339Text(b)
    ensures a == b
  {
    TextReadsBack(a);
    TextReadsBack(b);
    Rfc3339Injective(a, b);
  }

  // ---------------------------------------------------------------------
  // Four digits

  const FIRST_OF_YEAR_10000: nat := 2_932_897

  lemma FirstDayOf(days: nat)
    requires days == FIRST_OF_YEAR_10000
    ensures CivilDate(days).year == 10_000 && CivilDate(days).month == 1 && CivilDate(days).day == 1
  {
    assert (days + 719_468) / 146_097 == 24 && days + 719_468 - 24 * 146_097 == 146_037;
    assert YearOfEra(146_037) == 399 && EraYearStart(399) == 145_731 && MonthPrime(306) == 10;
  }

  lemma YearTenThousand(days: nat, year: int)
    requires days == FIRST_OF_YEAR_10000 && year == CivilDate(days).year
    ensures year == 10_000 && YearStart(year) == days
  {
    FirstDayOf(days);
    CivilDateCorrect(days);
    MonthTable(year);
  }

  lemma YearBound(days: nat)
    ensures CivilDate(days).year < 10_000 <==> days < FIRST_OF_YEAR_10000
  {
    var first: nat := FIRST_OF_YEAR_10000;
    var year := CivilDate(first).year;
    YearTenThousand(first, year);
    CivilDateCorrect(days);
    var d := CivilDate(days);
    DayInYear(d);
    if d.year < year { YearsIncrease(d.year + 1, year); } else { YearsIncrease(year, d.year); }
  }

  /** The text has the length that RFC 3339 gives a timestamp, 20 characters or 24 with milliseconds,
      if and only if the instant lies before the year 10000. */
  lemma FourDigitYears(millis: nat)
    ensures |Rfc3339Text(millis)| == (if millis % 1_000 == 0 then 20 else 24) <==> millis < 253_402_300_800_000
  {
    Rfc3339Printable(millis);
    var t := Rfc3339(millis);
    RestShape(t);
    PaddedWidth(t.date.year);
    YearBound(millis / 1_000 / 86_400);
    assert FIRST_OF_YEAR_10000 * 86_400 * 1_000 == 253_402_300_800_000;
  }
}
