/** Times are stored and compared as ISO 8601 strings of `datetime.isoformat()`, which leaves out
    the fraction when it is zero. */
module IsoTime {

  datatype DateTime = DateTime(year: nat, month: nat, day: nat, hour: nat, minute: nat, second: nat, micro: nat)

  predicate Leap(y: nat) {
    (y % 4 == 0 && y % 100 != 0) || y % 400 == 0
  }

  function YearLength(y: nat): nat { if Leap(y) then 366 else 365 }

  function MonthLength(y: nat, m: nat): nat {
    if m == 2 then (if Leap(y) then 29 else 28)
    else if m == 4 || m == 6 || m == 9 || m == 11 then 30
    else 31
  }

  predicate Valid(t: DateTime) {
    && 1 <= t.year <= 9999 && 1 <= t.month <= 12 && 1 <= t.day <= MonthLength(t.year, t.month)
    && t.hour < 24 && t.minute < 60 && t.second < 60 && t.micro < 1000000
  }

  // ----- the time line -----

  /** Days from the first day of year 1 to the first day of year `y`. */
  function YearStart(y: nat): nat {
    if y <= 1 then 0 else YearStart(y - 1) + YearLength(y - 1)
  }

  function MonthStart(y: nat, m: nat): nat {
    if m <= 1 then 0 else MonthStart(y, m - 1) + MonthLength(y, m - 1)
  }

  function DayNumber(t: DateTime): int {
    YearStart(t.year) + MonthStart(t.year, t.month) + t.day - 1
  }

  /** Microseconds since the beginning of year 1. */
  function Instant(t: DateTime): int {
    (((DayNumber(t) * 24 + t.hour) * 60 + t.minute) * 60 + t.second) * 1000000 + t.micro
  }

  /** Earlier in the first field in which they differ. */
  predicate Earlier(a: DateTime, b: DateTime) {
    a.year < b.year || (a.year == b.year && (
    a.month < b.month || (a.month == b.month && (
    a.day < b.day || (a.day == b.day && (
    a.hour < b.hour || (a.hour == b.hour && (
    a.minute < b.minute || (a.minute == b.minute && (
    a.second < b.second || (a.second == b.second && a.micro < b.micro)))))))))))
  }

  lemma {:induction false} MonthsGrow(y: nat, m: nat, n: nat)
    requires 1 <= m < n
    ensures MonthStart(y, m) + MonthLength(y, m) <= MonthStart(y, n)
    decreases n
  {
    if m + 1 < n { MonthsGrow(y, m, n - 1); }
  }

  lemma {:induction false} YearsGrow(y: nat, z: nat)
    requires 1 <= y < z
    ensures YearStart(y) + YearLength(y) <= YearStart(z)
    decreases z
  {
    if y + 1 < z { YearsGrow(y, z - 1); }
  }

  lemma MonthsFillYear(y: nat)
    ensures MonthStart(y, 13) == YearLength(y)
  {
    assert MonthStart(y, 1) == 0 && MonthStart(y, 2) == MonthLength(y, 1);
    assert MonthStart(y, 3) == MonthLength(y, 1) + MonthLength(y, 2);
    assert MonthStart(y, 5) == MonthStart(y, 3) + 61;
    assert MonthStart(y, 7) == MonthStart(y, 5) + 61;
    assert MonthStart(y, 9) == MonthStart(y, 7) + 62;
    assert MonthStart(y, 11) == MonthStart(y, 9) + 61;
    assert MonthStart(y, 13) == MonthStart(y, 11) + 61;
  }

  lemma DaysGrow(a: DateTime, b: DateTime)
    requires Valid(a) && Valid(b)
    requires a.year < b.year || (a.year == b.year && (a.month < b.month || (a.month == b.month && a.day < b.day)))
    ensures DayNumber(a) < DayNumber(b)
  {
    if a.year < b.year {
      YearsGrow(a.year, b.year);
      MonthsFillYear(a.year);
      MonthsGrow(a.year, a.month, 13);
    } else if a.month < b.month {
      MonthsGrow(a.year, a.month, b.month);
    }
  }

  lemma EarlierIsBefore(a: DateTime, b: DateTime)
    requires Valid(a) && Valid(b) && Earlier(a, b)
    ensures Instant(a) < Instant(b)
  {
    if !(a.year == b.year && a.month == b.month && a.day == b.day) {
      DaysGrow(a, b);
    }
    var x, y := DayNumber(a) * 24 + a.hour, DayNumber(b) * 24 + b.hour;
    assert x <= y;
    assert x < y || (x == y && a.hour == b.hour);
    var u, v := x * 60 + a.minute, y * 60 + b.minute;
    assert u <= v && (u < v || (x == y && a.minute == b.minute));
  }

  lemma EarlierTotal(a: DateTime, b: DateTime)
    ensures a == b || Earlier(a, b) || Earlier(b, a)
  {
  }

  // ----- strings -----

  /** String order by code point. */
  predicate Less(a: string, b: string) {
    b != "" && (a == "" || a[0] < b[0] || (a[0] == b[0] && Less(a[1..], b[1..])))
  }

  function Digit(d: nat): char
    requires d < 10
  {
    ('0' as int + d) as char
  }

  /** `n` in exactly `w` digits. */
  function Digits(n: nat, w: nat): (r: string)
    ensures |r| == w
  {
    if w == 0 then "" else Digits(n / 10, w - 1) + [Digit(n % 10)]
  }

  function Pow10(w: nat): nat { if w == 0 then 1 else 10 * Pow10(w - 1) }

  function Fraction(micro: nat): string {
    if micro == 0 then "" else "." + Digits(micro, 6)
  }

  /** `isoformat()` followed by its offset. */
  function Iso(t: DateTime, offset: string): string {
    Digits(t.year, 4) + ("-" + (Digits(t.month, 2) + ("-" + (Digits(t.day, 2) + ("T" + ClockPart(t, offset))))))
  }

  function ClockPart(t: DateTime, offset: string): string {
    Digits(t.hour, 2) + (":" + (Digits(t.minute, 2) + (":" + (Digits(t.second, 2) + (Fraction(t.micro) + offset)))))
  }

  lemma {:induction false} LessSamePrefix(p: string, a: string, b: string)
    ensures Less(p + a, p + b) == Less(a, b)
  {
    if p == "" {
      assert p + a == a && p + b == b;
    } else {
      assert (p + a)[1..] == p[1..] + a && (p + b)[1..] == p[1..] + b;
      LessSamePrefix(p[1..], a, b);
    }
  }

  /** Two different texts of the same length decide, whatever follows. */
  lemma {:induction false} LessDecided(a: string, b: string, c: string, d: string)
    requires |a| == |b| && a != b
    ensures Less(a + c, b + d) == Less(a, b)
  {
    assert a == [a[0]] + a[1..] && b == [b[0]] + b[1..];
    assert (a + c)[1..] == a[1..] + c && (b + d)[1..] == b[1..] + d;
    if a[0] == b[0] {
      LessDecided(a[1..], b[1..], c, d);
    }
  }

  lemma {:induction false} DigitsLess(m: nat, n: nat, w: nat)
    requires m < Pow10(w) && n < Pow10(w)
    ensures Digits(m, w) == Digits(n, w) <==> m == n
    ensures Less(Digits(m, w), Digits(n, w)) <==> m < n
  {
    if w > 0 {
      var a, b := Digits(m / 10, w - 1), Digits(n / 10, w - 1);
      DigitsLess(m / 10, n / 10, w - 1);
      var c, d := [Digit(m % 10)], [Digit(n % 10)];
      if m / 10 == n / 10 {
        LessSamePrefix(a, c, d);
        assert (a + c)[w - 1] == c[0] && (b + d)[w - 1] == d[0];
      } else {
        LessDecided(a, b, c, d);
        assert (a + c)[..w - 1] == a && (b + d)[..w - 1] == b;
      }
    }
  }

  /** Comparing texts that begin with a number of `w` digits. */
  lemma FieldLess(m: nat, n: nat, w: nat, a: string, b: string)
    requires m < Pow10(w) && n < Pow10(w)
    ensures Less(Digits(m, w) + a, Digits(n, w) + b) <==> m < n || (m == n && Less(a, b))
  {
    DigitsLess(m, n, w);
    if m == n {
      LessSamePrefix(Digits(m, w), a, b);
    } else {
      LessDecided(Digits(m, w), Digits(n, w), a, b);
    }
  }

  predicate UsualOffset(offset: string) {
    offset == "" || offset == "+08:00"
  }

  /** A missing fraction comes before any other, because the offset is absent or begins with a plus,
      which comes before a point. */
  lemma FractionLess(m: nat, n: nat, offset: string)
    requires m < 1000000 && n < 1000000 && UsualOffset(offset)
    ensures Less(Fraction(m) + offset, Fraction(n) + offset) <==> m < n
  {
    assert Pow10(6) == 1000000 by { assert Pow10(3) == 1000; }
    var a, b := Fraction(m) + offset, Fraction(n) + offset;
    if m > 0 && n > 0 {
      assert a == "." + (Digits(m, 6) + offset) && b == "." + (Digits(n, 6) + offset);
      LessSamePrefix(".", Digits(m, 6) + offset, Digits(n, 6) + offset);
      FieldLess(m, n, 6, offset, offset);
      NotLessThanItself(offset);
    } else if m == 0 && n == 0 {
      NotLessThanItself(a);
    } else if m == 0 {
      assert b[0] == '.' && a == offset;
    } else {
      assert a[0] == '.' && b == offset;
    }
  }

  lemma {:induction false} NotLessThanItself(s: string)
    ensures !Less(s, s)
  {
    if s != "" { NotLessThanItself(s[1..]); }
  }

  lemma ClockLess(a: DateTime, b: DateTime, offset: string)
    requires Valid(a) && Valid(b) && UsualOffset(offset)
    ensures Less(ClockPart(a, offset), ClockPart(b, offset)) <==>
      a.hour < b.hour || (a.hour == b.hour && (
      a.minute < b.minute || (a.minute == b.minute && (
      a.second < b.second || (a.second == b.second && a.micro < b.micro)))))
  {
    assert Pow10(2) == 100;
    var fa, fb := Fraction(a.micro) + offset, Fraction(b.micro) + offset;
    FractionLess(a.micro, b.micro, offset);
    FieldLess(a.second, b.second, 2, fa, fb);
    var sa, sb := Digits(a.second, 2) + fa, Digits(b.second, 2) + fb;
    LessSamePrefix(":", sa, sb);
    FieldLess(a.minute, b.minute, 2, ":" + sa, ":" + sb);
    var ma, mb := Digits(a.minute, 2) + (":" + sa), Digits(b.minute, 2) + (":" + sb);
    LessSamePrefix(":", ma, mb);
    FieldLess(a.hour, b.hour, 2, ":" + ma, ":" + mb);
  }

  lemma IsoLess(a: DateTime, b: DateTime, offset: string)
    requires Valid(a) && Valid(b) && UsualOffset(offset)
    ensures Less(Iso(a, offset), Iso(b, offset)) <==> Earlier(a, b)
  {
    assert Pow10(2) == 100 && Pow10(4) == 10000;
    var ca, cb := ClockPart(a, offset), ClockPart(b, offset);
    ClockLess(a, b, offset);
    LessSamePrefix("T", ca, cb);
    FieldLess(a.day, b.day, 2, "T" + ca, "T" + cb);
    var da, db := Digits(a.day, 2) + ("T" + ca), Digits(b.day, 2) + ("T" + cb);
    LessSamePrefix("-", da, db);
    FieldLess(a.month, b.month, 2, "-" + da, "-" + db);
    var ma, mb := Digits(a.month, 2) + ("-" + da), Digits(b.month, 2) + ("-" + db);
    LessSamePrefix("-", ma, mb);
    FieldLess(a.year, b.year, 4, "-" + ma, "-" + mb);
  }

  /** For all valid times of the years 1 to 9999, with or without a fraction, and with the fixed
      offset or none: comparing the strings is comparing the instants, and only equal
      times have equal strings. */
  lemma StringOrderIsTimeOrder(a: DateTime, b: DateTime, offset: string)
    requires Valid(a) && Valid(b) && UsualOffset(offset)
    ensures Less(Iso(a, offset), Iso(b, offset)) <==> Instant(a) < Instant(b)
    ensures Iso(a, offset) == Iso(b, offset) <==> Instant(a) == Instant(b)
  {
    IsoLess(a, b, offset);
    IsoLess(b, a, offset);
    EarlierTotal(a, b);
    if Earlier(a, b) { EarlierIsBefore(a, b); }
    if Earlier(b, a) { EarlierIsBefore(b, a); }
    NotLessThanItself(Iso(a, offset));
  }

  /** `a <= b` on strings. */
  predicate AtMost(a: string, b: string) { a == b || Less(a, b) }

  /** So a job is selected as due by its string exactly when its time has come. */
  lemma DueBy(next: DateTime, now: DateTime, offset: string)
    requires Valid(next) && Valid(now) && UsualOffset(offset)
    ensures AtMost(Iso(next, offset), Iso(now, offset)) <==> Instant(next) <= Instant(now)
  {
    StringOrderIsTimeOrder(next, now, offset);
  }
}
