/**
 The lease test compares isoformat strings (src/awr/storage/sqlite.py); this is when that is the
 comparison of the instants. isoformat drops a zero fraction, so the strings differ in length.
 */
module IsoTime {
  import Text

  /** A UTC time as datetime holds it. */
  datatype UtcTime = UtcTime(year: nat, month: nat, day: nat, hour: nat, minute: nat, second: nat, microsecond: nat)

  predicate IsLeap(year: nat) {
    year % 4 == 0 && (year % 100 != 0 || year % 400 == 0)
  }

  function DaysInMonth(year: nat, month: nat): nat {
    if month == 2 then if IsLeap(year) then 29 else 28
    else if month == 4 || month == 6 || month == 9 || month == 11 then 30
    else 31
  }

  predicate Valid(t: UtcTime) {
    && 1 <= t.year <= 9999 && 1 <= t.month <= 12 && 1 <= t.day <= DaysInMonth(t.year, t.month)
    && t.hour < 24 && t.minute < 60 && t.second < 60 && t.microsecond < 1_000_000
  }

  // ---------------------------------------------------------------- instants

  function DaysBeforeYear(year: nat): nat
    requires year >= 1
  {
    var y := year - 1;
    365 * y + y / 4 - y / 100 + y / 400
  }

  function DaysBeforeMonth(year: nat, month: nat): nat
    requires month >= 1
  {
    if month == 1 then 0 else DaysBeforeMonth(year, month - 1) + DaysInMonth(year, month - 1)
  }

  /** The proleptic Gregorian ordinal of the date. */
  function Ordinal(t: UtcTime): nat
    requires t.year >= 1 && t.month >= 1
  {
    DaysBeforeYear(t.year) + DaysBeforeMonth(t.year, t.month) + t.day
  }

  /** Microseconds of the day. */
  function MicrosOfDay(t: UtcTime): nat {
    ((t.hour * 60 + t.minute) * 60 + t.second) * 1_000_000 + t.microsecond
  }

  const MICROS_PER_DAY := 86_400_000_000

  /** The instant, in microseconds. */
  function Instant(t: UtcTime): nat
    requires t.year >= 1 && t.month >= 1
  {
    Ordinal(t) * MICROS_PER_DAY + MicrosOfDay(t)
  }

  // ---------------------------------------------------------------- strings

  /** str(n) padded with zeros to `width` digits. */
  function Pad(n: nat, width: nat): string {
    if width == 0 then "" else Pad(n / 10, width - 1) + [Text.Digit(n % 10)]
  }

  function Fraction(microsecond: nat): string {
    if microsecond == 0 then "" else "." + Pad(microsecond, 6)
  }

  /** isoformat of an aware UTC time. */
  function IsoFormat(t: UtcTime): string {
    Pad(t.year, 4) + ("-" + (Pad(t.month, 2) + ("-" + (Pad(t.day, 2) + ("T" + (Pad(t.hour, 2) + (":" + (Pad(t.minute, 2)
    + (":" + (Pad(t.second, 2) + (Fraction(t.microsecond) + "+00:00")))))))))))
  }

  /** Python's string order. */
  predicate Less(a: string, b: string) {
    b != "" && (a == "" || a[0] < b[0] || (a[0] == b[0] && Less(a[1..], b[1..])))
  }

  // ---------------------------------------------------------------- the order of strings

  /** Strings of equal width decide first, whatever follows. */
  lemma {:induction false} LessOfConcat(a: string, b: string, u: string, v: string)
    requires |a| == |b|
    ensures Less(a + u, b + v) <==> Less(a, b) || (a == b && Less(u, v))
  {
    if a == "" {
      assert a + u == u && b + v == v;
    } else {
      assert (a + u)[1..] == a[1..] + u && (b + v)[1..] == b[1..] + v;
      LessOfConcat(a[1..], b[1..], u, v);
      assert a == [a[0]] + a[1..] && b == [b[0]] + b[1..];
    }
  }

  lemma LessOfTails(c: char, u: string, v: string)
    ensures Less([c] + u, [c] + v) <==> Less(u, v)
  {
    LessOfConcat([c], [c], u, v);
    assert !Less([c], [c]) by { assert [c][1..] == ""; }
  }

  function Pow10(width: nat): nat {
    if width == 0 then 1 else 10 * Pow10(width - 1)
  }

  lemma {:induction false} PadIsOrdered(m: nat, n: nat, width: nat)
    requires m < Pow10(width) && n < Pow10(width)
    ensures |Pad(m, width)| == width && |Pad(n, width)| == width
    ensures Less(Pad(m, width), Pad(n, width)) <==> m < n
    ensures Pad(m, width) == Pad(n, width) <==> m == n
  {
    if width > 0 {
      PadIsOrdered(m / 10, n / 10, width - 1);
      var c, d := Text.Digit(m % 10), Text.Digit(n % 10);
      LessOfConcat(Pad(m / 10, width - 1), Pad(n / 10, width - 1), [c], [d]);
      assert Less([c], [d]) <==> c < d by { assert [c][1..] == "" && [d][1..] == ""; }
      var x, y := Pad(m, width), Pad(n, width);
      assert x[..width - 1] == Pad(m / 10, width - 1) && y[..width - 1] == Pad(n / 10, width - 1);
      assert x[width - 1] == c && y[width - 1] == d;
    }
  }

  /** One padded field, then a separator and the rest. */
  lemma FieldDecides(m: nat, n: nat, width: nat, separator: char, u: string, v: string)
    requires m < Pow10(width) && n < Pow10(width)
    ensures Less(Pad(m, width) + ([separator] + u), Pad(n, width) + ([separator] + v)) <==> m < n || (m == n && Less(u, v))
  {
    PadIsOrdered(m, n, width);
    LessOfConcat(Pad(m, width), Pad(n, width), [separator] + u, [separator] + v);
    LessOfTails(separator, u, v);
  }

  lemma LastField(m: nat, n: nat, width: nat, u: string, v: string)
    requires m < Pow10(width) && n < Pow10(width)
    ensures Less(Pad(m, width) + u, Pad(n, width) + v) <==> m < n || (m == n && Less(u, v))
  {
    PadIsOrdered(m, n, width);
    LessOfConcat(Pad(m, width), Pad(n, width), u, v);
  }

  /** A dropped zero fraction sorts first, because '+' comes before '.'. */
  lemma FractionDecides(m: nat, n: nat)
    requires m < 1_000_000 && n < 1_000_000
    ensures Less(Fraction(m) + "+00:00", Fraction(n) + "+00:00") <==> m < n
  {
    var zone := "+00:00";
    SixDigits();
    NotBelowItself(zone);
    assert "" + zone == zone;
    if m > 0 && n > 0 {
      LastField(m, n, 6, zone, zone);
      LessOfTails('.', Pad(m, 6) + zone, Pad(n, 6) + zone);
      assert Fraction(m) + zone == ['.'] + (Pad(m, 6) + zone) && Fraction(n) + zone == ['.'] + (Pad(n, 6) + zone);
    } else if m == 0 && n > 0 {
      assert (Fraction(n) + zone)[0] == '.' && zone[0] == '+';
    } else if m > 0 {
      assert (Fraction(m) + zone)[0] == '.' && zone[0] == '+';
    }
  }

  lemma SixDigits()
    ensures Pow10(2) == 100 && Pow10(4) == 10_000 && Pow10(6) == 1_000_000
  {
    assert Pow10(1) == 10;
    assert Pow10(3) == 1000;
    assert Pow10(5) == 100_000;
  }

  lemma {:induction false} NotBelowItself(s: string)
    ensures !Less(s, s)
  {
    if s != "" {
      NotBelowItself(s[1..]);
    }
  }

  /** Field by field, as the strings are compared. */
  predicate Before(a: UtcTime, b: UtcTime) {
    || a.year < b.year
    || (a.year == b.year &&
        (|| a.month < b.month
         || (a.month == b.month &&
             (|| a.day < b.day
              || (a.day == b.day &&
                  (|| a.hour < b.hour
                   || (a.hour == b.hour &&
                       (|| a.minute < b.minute
                        || (a.minute == b.minute &&
                            (|| a.second < b.second
                             || (a.second == b.second && a.microsecond < b.microsecond)))))))))))
  }

  lemma StringsFollowFields(a: UtcTime, b: UtcTime)
    requires Valid(a) && Valid(b)
    ensures Less(IsoFormat(a), IsoFormat(b)) <==> Before(a, b)
  {
    SixDigits();
    FractionDecides(a.microsecond, b.microsecond);
    var u0, v0 := Fraction(a.microsecond) + "+00:00", Fraction(b.microsecond) + "+00:00";
    LastField(a.second, b.second, 2, u0, v0);
    var u1, v1 := Pad(a.second, 2) + u0, Pad(b.second, 2) + v0;
    FieldDecides(a.minute, b.minute, 2, ':', u1, v1);
    var u2, v2 := Pad(a.minute, 2) + (":" + u1), Pad(b.minute, 2) + (":" + v1);
    FieldDecides(a.hour, b.hour, 2, ':', u2, v2);
    var u3, v3 := Pad(a.hour, 2) + (":" + u2), Pad(b.hour, 2) + (":" + v2);
    FieldDecides(a.day, b.day, 2, 'T', u3, v3);
    var u4, v4 := Pad(a.day, 2) + ("T" + u3), Pad(b.day, 2) + ("T" + v3);
    FieldDecides(a.month, b.month, 2, '-', u4, v4);
    var u5, v5 := Pad(a.month, 2) + ("-" + u4), Pad(b.month, 2) + ("-" + v4);
    FieldDecides(a.year, b.year, 4, '-', u5, v5);
  }

  // ---------------------------------------------------------------- the order of instants

  lemma CenturiesAreFourths(year: nat)
    ensures year % 100 == 0 ==> year % 4 == 0
    ensures year % 400 == 0 ==> year % 100 == 0
  {
    if year % 100 == 0 { assert year == 4 * (25 * (year / 100)); }
    if year % 400 == 0 { assert year == 100 * (4 * (year / 400)); }
  }

  lemma Fourths(y: nat)
    ensures (y + 1) / 4 == y / 4 + if (y + 1) % 4 == 0 then 1 else 0
  {
  }

  lemma Hundredths(y: nat)
    ensures (y + 1) / 100 == y / 100 + if (y + 1) % 100 == 0 then 1 else 0
  {
  }

  lemma FourHundredths(y: nat)
    ensures (y + 1) / 400 == y / 400 + if (y + 1) % 400 == 0 then 1 else 0
  {
  }

  lemma YearLength(year: nat)
    requires year >= 1
    ensures DaysBeforeYear(year + 1) == DaysBeforeYear(year) + if IsLeap(year) then 366 else 365
  {
    var y: nat := year - 1;
    Fourths(y);
    Hundredths(y);
    FourHundredths(y);
    CenturiesAreFourths(year);
    YearParts(year, y / 4, y / 100, y / 400);
  }

  lemma YearParts(year: nat, fourths: nat, hundredths: nat, fourHundredths: nat)
    requires year >= 1
    requires fourths == (year - 1) / 4 && hundredths == (year - 1) / 100 && fourHundredths == (year - 1) / 400
    requires year / 4 == fourths + if year % 4 == 0 then 1 else 0
    requires year / 100 == hundredths + if year % 100 == 0 then 1 else 0
    requires year / 400 == fourHundredths + if year % 400 == 0 then 1 else 0
    requires year % 100 == 0 ==> year % 4 == 0
    requires year % 400 == 0 ==> year % 100 == 0
    ensures DaysBeforeYear(year + 1) == DaysBeforeYear(year) + if IsLeap(year) then 366 else 365
  {
  }

  lemma {:induction false} YearsGrow(a: nat, b: nat)
    requires 1 <= a < b
    ensures DaysBeforeYear(a) + (if IsLeap(a) then 366 else 365) <= DaysBeforeYear(b)
    decreases b - a
  {
    YearLength(a);
    if a + 1 < b {
      YearsGrow(a + 1, b);
    }
  }

  lemma {:induction false} MonthsGrow(year: nat, a: nat, b: nat)
    requires 1 <= a < b
    ensures DaysBeforeMonth(year, a) + DaysInMonth(year, a) <= DaysBeforeMonth(year, b)
    decreases b
  {
    if a + 1 < b {
      MonthsGrow(year, a, b - 1);
    }
  }

  lemma YearIsFull(year: nat)
    ensures DaysBeforeMonth(year, 12) + 31 == if IsLeap(year) then 366 else 365
  {
    assert DaysBeforeMonth(year, 2) == 31;
    assert DaysBeforeMonth(year, 4) == DaysBeforeMonth(year, 3) + 31;
    assert DaysBeforeMonth(year, 6) == DaysBeforeMonth(year, 4) + 61;
    assert DaysBeforeMonth(year, 8) == DaysBeforeMonth(year, 6) + 61;
    assert DaysBeforeMonth(year, 10) == DaysBeforeMonth(year, 8) + 61;
    assert DaysBeforeMonth(year, 12) == DaysBeforeMonth(year, 10) + 61;
  }

  lemma DayInYear(t: UtcTime)
    requires Valid(t)
    ensures 1 <= DaysBeforeMonth(t.year, t.month) + t.day <= if IsLeap(t.year) then 366 else 365
  {
    YearIsFull(t.year);
    if t.month < 12 {
      MonthsGrow(t.year, t.month, 12);
    }
  }

  predicate DateBefore(a: UtcTime, b: UtcTime) {
    a.year < b.year || (a.year == b.year && (a.month < b.month || (a.month == b.month && a.day < b.day)))
  }

  lemma DatesFollowOrdinals(a: UtcTime, b: UtcTime)
    requires Valid(a) && Valid(b) && DateBefore(a, b)
    ensures Ordinal(a) < Ordinal(b)
  {
    DayInYear(a);
    DayInYear(b);
    if a.year < b.year {
      YearsGrow(a.year, b.year);
    } else if a.month < b.month {
      MonthsGrow(a.year, a.month, b.month);
    }
  }

  lemma DayHolds(t: UtcTime)
    requires Valid(t)
    ensures MicrosOfDay(t) < MICROS_PER_DAY
  {
  }

  lemma FieldsFollowInstants(a: UtcTime, b: UtcTime)
    requires Valid(a) && Valid(b) && Before(a, b)
    ensures Instant(a) < Instant(b)
  {
    DayHolds(a);
    DayHolds(b);
    if DateBefore(a, b) {
      DatesFollowOrdinals(a, b);
      assert Ordinal(a) * MICROS_PER_DAY + MICROS_PER_DAY <= Ordinal(b) * MICROS_PER_DAY;
    }
  }

  /**
   Main result. For UTC times of years 1 to 9999 the order of the isoformat strings is the order of
   the instants, whether or not either of them drops its fraction.
   */
  lemma StringsFollowInstants(a: UtcTime, b: UtcTime)
    requires Valid(a) && Valid(b)
    ensures Less(IsoFormat(a), IsoFormat(b)) <==> Instant(a) < Instant(b)
  {
    StringsFollowFields(a, b);
    if Before(a, b) {
      FieldsFollowInstants(a, b);
    } else if Before(b, a) {
      FieldsFollowInstants(b, a);
    } else {
      assert a == b;
    }
  }
}
