/** Stored times.  The store prints every time in UTC with time.RFC3339Nano and
    compares the printed texts in SQL (binary collation).  This module models
    the printing, the text order and the parser, and says exactly when text
    order is time order. */
module Timestamps {
  import opened Basics

  /** Nanoseconds since 0000-01-01T00:00:00Z in the proleptic Gregorian calendar. */
  type Instant = nat

  const NANOS: nat := 1_000_000_000
  const DAY: nat := 86_400

  function Sec(t: Instant): nat { t / NANOS }
  function Nano(t: Instant): nat { t % NANOS }

  /** A number of seconds, as a duration. */
  function Seconds(n: nat): nat { n * NANOS }

  // ------------------------------------------------------------- calendar

  predicate Leap(y: nat) { y % 4 == 0 && (y % 100 != 0 || y % 400 == 0) }

  function YearLen(y: nat): nat { if Leap(y) then 366 else 365 }

  function MonthLen(y: nat, m: nat): nat {
    if m == 2 then (if Leap(y) then 29 else 28)
    else if m == 4 || m == 6 || m == 9 || m == 11 then 30
    else 31
  }

  /** The year that holds the given day, counting days from 1 January of `y`,
      and the day's number within that year. */
  function YearOf(days: nat, y: nat): (r: (nat, nat))
    ensures r.0 >= y && r.1 < YearLen(r.0)
    decreases days
  {
    if days < YearLen(y) then (y, days) else YearOf(days - YearLen(y), y + 1)
  }

  /** The days from month `m` to the end of year `y`. */
  function DaysLeft(y: nat, m: nat): nat
    requires 1 <= m <= 13
    decreases 13 - m
  {
    if m == 13 then 0 else MonthLen(y, m) + DaysLeft(y, m + 1)
  }

  /** The month that holds the given day, counting from the first of month `m`. */
  function MonthOf(days: nat, y: nat, m: nat): (r: (nat, nat))
    requires 1 <= m <= 12 && days < DaysLeft(y, m)
    ensures m <= r.0 <= 12 && r.1 < MonthLen(y, r.0)
    decreases 12 - m
  {
    if days < MonthLen(y, m) then (m, days) else MonthOf(days - MonthLen(y, m), y, m + 1)
  }

  datatype Civil = Civil(year: nat, month: nat, day: nat, hour: nat, minute: nat, second: nat)

  function CivilOf(sec: nat): (c: Civil)
    ensures 1 <= c.month <= 12 && 1 <= c.day <= MonthLen(c.year, c.month)
    ensures c.hour < 24 && c.minute < 60 && c.second < 60
  {
    var (year, yday) := YearOf(sec / DAY, 0);
    var (month, mday) := MonthOf(yday, year, 1);
    var tod := sec % DAY;
    Civil(year, month, mday + 1, tod / 3600, tod % 3600 / 60, tod % 60)
  }

  /** Four-digit years, the range in which RFC 3339 and the printer agree. */
  predicate InRange(t: Instant) { CivilOf(Sec(t)).year < 10_000 }

  // ------------------------------------------------------------- printing

  function Digit(d: nat): char
    requires d < 10
  {
    '0' + d as char
  }

  /** The last `w` decimal digits of `n`, zero padded. */
  function Pad(n: nat, w: nat): (s: string)
    ensures |s| == w
  {
    if w == 0 then "" else Pad(n / 10, w - 1) + [Digit(n % 10)]
  }

  /** A year has four digits, or as many as it needs. */
  function YearText(y: nat): string {
    if y < 10_000 then Pad(y, 4) else YearText(y / 10) + [Digit(y % 10)]
  }

  function Prefix(c: Civil): string {
    YearText(c.year) + ("-" + (Pad(c.month, 2) + ("-" + (Pad(c.day, 2) + ("T" +
    (Pad(c.hour, 2) + (":" + (Pad(c.minute, 2) + (":" + Pad(c.second, 2))))))))))
  }

  predicate AllZero(s: string) { forall i :: 0 <= i < |s| ==> s[i] == '0' }

  /** Drops trailing zeros. */
  function Trim(s: string): string {
    if AllZero(s) then "" else [s[0]] + Trim(s[1..])
  }

  /** The digits printed after the decimal point. */
  function Fraction(t: Instant): string { Trim(Pad(Nano(t), 9)) }

  function Suffix(fraction: string): string {
    if fraction == "" then "Z" else "." + fraction + "Z"
  }

  function Timestamp(t: Instant): string { Prefix(CivilOf(Sec(t))) + Suffix(Fraction(t)) }

  // ----------------------------------------------------------- text order

  /** Byte-wise comparison of two texts. */
  predicate TextLess(a: string, b: string) {
    b != "" && (a == "" || a[0] < b[0] || (a[0] == b[0] && TextLess(a[1..], b[1..])))
  }

  /** The SQL comparison `column <= ?` on stored times. */
  predicate SqlLe(a: Instant, b: Instant) { !TextLess(Timestamp(b), Timestamp(a)) }

  lemma {:induction false} SameHead(p: string, a: string, b: string)
    ensures TextLess(p + a, p + b) == TextLess(a, b)
  {
    if p == "" {
      assert p + a == a && p + b == b;
    } else {
      assert (p + a)[1..] == p[1..] + a && (p + b)[1..] == p[1..] + b;
      SameHead(p[1..], a, b);
    }
  }

  /** Texts of one length that differ decide the order of whatever follows. */
  lemma {:induction false} HeadDecides(p: string, q: string, a: string, b: string)
    requires |p| == |q| && p != q
    ensures TextLess(p + a, q + b) == TextLess(p, q)
  {
    if p[0] == q[0] {
      assert (p + a)[1..] == p[1..] + a && (q + b)[1..] == q[1..] + b;
      assert p == [p[0]] + p[1..] && q == [q[0]] + q[1..];
      HeadDecides(p[1..], q[1..], a, b);
    }
  }

  lemma {:induction false} TextTrichotomy(a: string, b: string)
    ensures !(TextLess(a, b) && TextLess(b, a))
    ensures !TextLess(a, a)
    ensures a != b ==> TextLess(a, b) || TextLess(b, a)
  {
    if a != "" && b != "" {
      TextTrichotomy(a[1..], b[1..]);
      TextTrichotomy(a[1..], a[1..]);
      assert a == [a[0]] + a[1..] && b == [b[0]] + b[1..];
    } else if a != "" {
      TextTrichotomy(a[1..], a[1..]);
    }
  }

  lemma {:induction false} TextTransitive(a: string, b: string, c: string)
    requires TextLess(a, b) && TextLess(b, c)
    ensures TextLess(a, c)
  {
    if a != "" && a[0] == b[0] && b[0] == c[0] {
      TextTransitive(a[1..], b[1..], c[1..]);
    }
  }

  // -------------------------------------------------- fixed-width numbers

  /** Zero-padded numbers of one width compare as texts the way they do as numbers. */
  lemma {:induction false} PadOrder(n: nat, m: nat, w: nat, bound: nat)
    requires bound == Pow10(w) && n < bound && m < bound
    ensures TextLess(Pad(n, w), Pad(m, w)) <==> n < m
    ensures Pad(n, w) == Pad(m, w) <==> n == m
  {
    if w > 0 {
      PadOrder(n / 10, m / 10, w - 1, Pow10(w - 1));
      var p, q, x, y := Pad(n / 10, w - 1), Pad(m / 10, w - 1), [Digit(n % 10)], [Digit(m % 10)];
      if p == q {
        SameHead(p, x, y);
        assert (p + x)[w - 1] == Digit(n % 10) && (q + y)[w - 1] == Digit(m % 10);
      } else {
        HeadDecides(p, q, x, y);
        assert (p + x)[..w - 1] == p && (q + y)[..w - 1] == q;
      }
    }
  }

  function Pow10(w: nat): (r: nat)
    ensures r > 0
  {
    if w == 0 then 1 else 10 * Pow10(w - 1)
  }

  /** A padded field followed by more text: the field decides unless it is equal. */
  lemma FieldOrder(n: nat, m: nat, w: nat, a: string, b: string)
    requires n < Pow10(w) && m < Pow10(w)
    ensures TextLess(Pad(n, w) + a, Pad(m, w) + b) <==> n < m || (n == m && TextLess(a, b))
  {
    PadOrder(n, m, w, Pow10(w));
    if n == m {
      SameHead(Pad(n, w), a, b);
    } else {
      HeadDecides(Pad(n, w), Pad(m, w), a, b);
    }
  }

  // ------------------------------------------------- calendar monotonicity

  lemma {:induction false} YearOrder(d: nat, e: nat, y: nat)
    requires d < e
    ensures var (a, i) := YearOf(d, y); var (b, j) := YearOf(e, y); a < b || (a == b && i < j)
    decreases d
  {
    if d >= YearLen(y) {
      YearOrder(d - YearLen(y), e - YearLen(y), y + 1);
    }
  }

  lemma {:induction false} MonthOrder(d: nat, e: nat, y: nat, m: nat)
    requires 1 <= m <= 12 && d < e < DaysLeft(y, m)
    ensures var (a, i) := MonthOf(d, y, m); var (b, j) := MonthOf(e, y, m); a < b || (a == b && i < j)
    decreases 12 - m
  {
    if d >= MonthLen(y, m) {
      MonthOrder(d - MonthLen(y, m), e - MonthLen(y, m), y, m + 1);
    }
  }

  predicate CivilLess(a: Civil, b: Civil) {
    a.year < b.year || (a.year == b.year &&
    (a.month < b.month || (a.month == b.month &&
    (a.day < b.day || (a.day == b.day &&
    (a.hour < b.hour || (a.hour == b.hour &&
    (a.minute < b.minute || (a.minute == b.minute && a.second < b.second)))))))))
  }

  lemma CivilOrder(s: nat, t: nat)
    requires s < t
    ensures CivilLess(CivilOf(s), CivilOf(t))
  {
    var d, e := s / DAY, t / DAY;
    if d < e {
      YearOrder(d, e, 0);
      var (a, i) := YearOf(d, 0);
      var (b, j) := YearOf(e, 0);
      if a == b {
        MonthOrder(i, j, a, 1);
      }
    } else {
      TimeOfDayOrder(s % DAY, t % DAY);
    }
  }

  lemma TimeOfDayOrder(s: nat, t: nat)
    requires s < t
    ensures s / 3600 < t / 3600 || (s / 3600 == t / 3600 &&
            (s % 3600 / 60 < t % 3600 / 60 || (s % 3600 / 60 == t % 3600 / 60 && s % 60 < t % 60)))
  {
    assert s == s / 3600 * 3600 + s % 3600 && t == t / 3600 * 3600 + t % 3600;
    SecondOfHour(s);
    SecondOfHour(t);
    if s / 3600 == t / 3600 {
      MinuteOrder(s % 3600, t % 3600);
    }
  }

  lemma SecondOfHour(s: nat)
    ensures s % 3600 % 60 == s % 60
  {
    assert s == 60 * (60 * (s / 3600)) + s % 3600;
  }

  lemma MinuteOrder(s: nat, t: nat)
    requires s < t
    ensures s / 60 < t / 60 || (s / 60 == t / 60 && s % 60 < t % 60)
  {
  }

  lemma PrefixOrder(a: Civil, b: Civil, x: string, y: string)
    requires a.year < 10_000 && b.year < 10_000
    requires a.month < 100 && a.day < 100 && a.hour < 100 && a.minute < 100 && a.second < 100
    requires b.month < 100 && b.day < 100 && b.hour < 100 && b.minute < 100 && b.second < 100
    ensures TextLess(Prefix(a) + x, Prefix(b) + y) <==> CivilLess(a, b) || (a == b && TextLess(x, y))
  {
    assert Pow10(4) == 10_000 && Pow10(2) == 100;
    var s0, t0 := Pad(a.second, 2) + x, Pad(b.second, 2) + y;
    var s1, t1 := Pad(a.minute, 2) + (":" + s0), Pad(b.minute, 2) + (":" + t0);
    var s2, t2 := Pad(a.hour, 2) + (":" + s1), Pad(b.hour, 2) + (":" + t1);
    var s3, t3 := Pad(a.day, 2) + ("T" + s2), Pad(b.day, 2) + ("T" + t2);
    var s4, t4 := Pad(a.month, 2) + ("-" + s3), Pad(b.month, 2) + ("-" + t3);
    var s5, t5 := Pad(a.year, 4) + ("-" + s4), Pad(b.year, 4) + ("-" + t4);
    FieldOrder(a.second, b.second, 2, x, y);
    SameHead(":", s0, t0);
    FieldOrder(a.minute, b.minute, 2, ":" + s0, ":" + t0);
    SameHead(":", s1, t1);
    FieldOrder(a.hour, b.hour, 2, ":" + s1, ":" + t1);
    SameHead("T", s2, t2);
    FieldOrder(a.day, b.day, 2, "T" + s2, "T" + t2);
    SameHead("-", s3, t3);
    FieldOrder(a.month, b.month, 2, "-" + s3, "-" + t3);
    SameHead("-", s4, t4);
    FieldOrder(a.year, b.year, 4, "-" + s4, "-" + t4);
    PrefixThen(a, x);
    PrefixThen(b, y);
  }

  lemma PrefixThen(c: Civil, x: string)
    requires c.year < 10_000
    ensures Prefix(c) + x == Pad(c.year, 4) + ("-" + (Pad(c.month, 2) + ("-" + (Pad(c.day, 2) + ("T" +
      (Pad(c.hour, 2) + (":" + (Pad(c.minute, 2) + (":" + (Pad(c.second, 2) + x))))))))))
  {
  }

  // ------------------------------------------------------------- fractions

  predicate ProperPrefix(a: string, b: string) { a < b }

  predicate Digits(s: string) { forall i :: 0 <= i < |s| ==> '0' <= s[i] <= '9' }

  lemma {:induction false} PadDigits(n: nat, w: nat)
    ensures Digits(Pad(n, w))
  {
    if w > 0 {
      PadDigits(n / 10, w - 1);
    }
  }

  /** Trimmed digit strings closed by `Z`: the text order is the digit order,
      reversed exactly when one is a proper prefix of the other. */
  lemma {:induction false} TrimmedOrder(p: string, q: string)
    requires |p| == |q| && Digits(p) && Digits(q)
    ensures var a, b := Trim(p), Trim(q);
      && (ProperPrefix(a, b) ==> TextLess(p, q) && TextLess(b + "Z", a + "Z"))
      && (ProperPrefix(b, a) ==> TextLess(q, p) && TextLess(a + "Z", b + "Z"))
      && (!ProperPrefix(a, b) && !ProperPrefix(b, a) ==> TextLess(a + "Z", b + "Z") == TextLess(p, q))
      && (a == b ==> p == q)
  {
    var a, b := Trim(p), Trim(q);
    if AllZero(p) && AllZero(q) {
      assert p == q;
      TextTrichotomy(p, p);
      TextTrichotomy("Z", "Z");
    } else if AllZero(p) {
      ZerosLess(p, q);
    } else if AllZero(q) {
      ZerosLess(q, p);
    } else {
      assert a == [p[0]] + Trim(p[1..]) && b == [q[0]] + Trim(q[1..]);
      assert (a + "Z")[1..] == Trim(p[1..]) + "Z" && (b + "Z")[1..] == Trim(q[1..]) + "Z";
      assert p == [p[0]] + p[1..] && q == [q[0]] + q[1..];
      TrimmedOrder(p[1..], q[1..]);
      if p[0] == q[0] {
        ConsPrefix(p[0], Trim(p[1..]), Trim(q[1..]));
        ConsPrefix(p[0], Trim(q[1..]), Trim(p[1..]));
      } else {
        assert a[0] != b[0];
      }
    }
  }

  lemma ConsPrefix(c: char, x: string, y: string)
    ensures [c] + x < [c] + y <==> x < y
    ensures [c] + x == [c] + y <==> x == y
  {
    assert ([c] + x)[1..] == x && ([c] + y)[1..] == y;
    if x < y {
      assert forall i :: 0 <= i < |x| + 1 ==> ([c] + x)[i] == ([c] + y)[i];
    }
    if [c] + x < [c] + y {
      assert forall i :: 0 <= i < |x| ==> x[i] == ([c] + x)[i + 1] && y[i] == ([c] + y)[i + 1];
    }
  }

  lemma {:induction false} ZerosLess(z: string, q: string)
    requires |z| == |q| && AllZero(z) && !AllZero(q) && Digits(q)
    ensures TextLess(z, q) && Trim(z) == "" && Trim(q) != ""
    ensures TextLess(Trim(q) + "Z", "Z")
  {
    assert (Trim(q) + "Z")[0] == q[0];
    if q[0] == '0' {
      ZerosLess(z[1..], q[1..]);
    }
  }

  /** The pairs of instants on which the store's comparison is wrong. */
  predicate Inverted(a: Instant, b: Instant) {
    && Sec(a) == Sec(b)
    && (ProperPrefix(Fraction(a), Fraction(b)) || ProperPrefix(Fraction(b), Fraction(a)))
  }

  lemma SuffixOrder(a: Instant, b: Instant)
    requires Sec(a) == Sec(b)
    ensures TextLess(Suffix(Fraction(a)), Suffix(Fraction(b))) <==> if Inverted(a, b) then b < a else a < b
    ensures Inverted(a, b) ==> a != b
  {
    var p, q := Pad(Nano(a), 9), Pad(Nano(b), 9);
    var f, g := Fraction(a), Fraction(b);
    assert Pow10(9) == NANOS by { assert Pow10(4) == 10_000; assert Pow10(6) == 1_000_000; assert Pow10(8) == 100_000_000; }
    PadOrder(Nano(a), Nano(b), 9, NANOS);
    PadOrder(Nano(b), Nano(a), 9, NANOS);
    PadDigits(Nano(a), 9);
    PadDigits(Nano(b), 9);
    TrimmedOrder(p, q);
    TextTrichotomy(f + "Z", g + "Z");
    TextTrichotomy(p, q);
    if f != "" && g != "" {
      SameHead(".", f + "Z", g + "Z");
      assert Suffix(f) == "." + (f + "Z") && Suffix(g) == "." + (g + "Z");
    }
  }

  /** Text order is time order, except that it is reversed on the inverted pairs. */
  lemma TextOrderIsTimeOrder(a: Instant, b: Instant)
    requires InRange(a) && InRange(b)
    ensures TextLess(Timestamp(a), Timestamp(b)) <==> if Inverted(a, b) then b < a else a < b
  {
    PrefixOrder(CivilOf(Sec(a)), CivilOf(Sec(b)), Suffix(Fraction(a)), Suffix(Fraction(b)));
    if Sec(a) == Sec(b) {
      SuffixOrder(a, b);
    } else if Sec(a) < Sec(b) {
      CivilOrder(Sec(a), Sec(b));
    } else {
      CivilOrder(Sec(b), Sec(a));
    }
  }

  /** What holds of every comparison across different seconds. */
  lemma SqlLeAcrossSeconds(a: Instant, b: Instant)
    requires InRange(a) && InRange(b)
    ensures SqlLe(a, b) ==> Sec(a) <= Sec(b)
    ensures Sec(a) < Sec(b) ==> SqlLe(a, b) && !SqlLe(b, a)
    ensures SqlLe(a, b) && b < a ==> Inverted(a, b)
  {
    TextOrderIsTimeOrder(b, a);
    TextOrderIsTimeOrder(a, b);
  }

  lemma InRangeBelow(a: Instant, b: Instant)
    requires a <= b && InRange(b)
    ensures InRange(a)
  {
    if Sec(a) < Sec(b) {
      CivilOrder(Sec(a), Sec(b));
    }
  }

  /** Any two instants compare, whatever the range. */
  lemma SqlLeTotal(a: Instant, b: Instant)
    ensures SqlLe(a, b) || SqlLe(b, a)
    ensures SqlLe(a, a)
  {
    TextTrichotomy(Timestamp(a), Timestamp(b));
  }

  /** The inversion is real: half a second past a whole second counts as earlier
      than the whole second. */
  lemma HalfSecondInverted(n: nat)
    requires InRange(Seconds(n))
    ensures var whole, half := Seconds(n), Seconds(n) + 500_000_000;
      InRange(half) && Sec(whole) == Sec(half) == n && Inverted(whole, half) && Inverted(half, whole)
      && SqlLe(half, whole) && !SqlLe(whole, half)
  {
    var whole, half := Seconds(n), Seconds(n) + 500_000_000;
    assert Nano(whole) == 0 && Nano(half) == 500_000_000 && Sec(whole) == Sec(half) == n;
    TenthDigits(5);
    assert Fraction(whole) == Fraction(0) && Fraction(half) == Fraction(500_000_000);
    hide Fraction, CivilOf, Timestamp;
    TextOrderIsTimeOrder(whole, half);
    TextOrderIsTimeOrder(half, whole);
  }

  lemma InversionExample()
    ensures Inverted(0, 500_000_000) && SqlLe(500_000_000, 0) && !SqlLe(0, 500_000_000)
  {
    assert CivilOf(0).year == 0;
    HalfSecondInverted(0);
  }

  lemma PadTenth(d: nat)
    requires d <= 9
    ensures Pad(d * 100_000_000, 9) == [Digit(d)] + Pad(0, 8)
  {
    PadShift(d, 8);
    assert Pow10(8) == 100_000_000 by { assert Pow10(4) == 10_000; }
    hide Pad;
  }

  lemma TrimDigit(c: char, zeros: string)
    requires c != '0' && AllZero(zeros)
    ensures Trim([c] + zeros) == [c]
  {
    assert ([c] + zeros)[1..] == zeros && ([c] + zeros)[0] == c;
    assert Trim(zeros) == "";
  }

  lemma TrimZeros(zeros: string)
    requires AllZero(zeros)
    ensures Trim(zeros) == ""
  {
  }

  /** A whole second prints no fraction, and tenths of a second one digit. */
  lemma TenthDigits(d: nat)
    requires 1 <= d <= 9
    ensures Fraction(0) == "" && Fraction(d * 100_000_000) == [Digit(d)]
  {
    PadZeros(9);
    PadZeros(8);
    PadTenth(d);
    TrimDigit(Digit(d), Pad(0, 8));
    hide Pad, Trim;
    TrimZeros(Pad(0, 9));
    assert Nano(d * 100_000_000) == d * 100_000_000;
  }

  lemma {:induction false} PadZeros(w: nat)
    ensures AllZero(Pad(0, w))
  {
    if w > 0 {
      PadZeros(w - 1);
    }
  }

  lemma {:induction false} PadShift(d: nat, w: nat)
    requires d < 10
    ensures Pad(d * Pow10(w), w + 1) == [Digit(d)] + Pad(0, w)
  {
    if w == 0 {
      assert Pad(d, 0) == "";
    } else {
      PadShift(d, w - 1);
      var n := d * Pow10(w);
      assert n == 10 * (d * Pow10(w - 1)) by { assert Pow10(w) == 10 * Pow10(w - 1); }
      assert n / 10 == d * Pow10(w - 1) && n % 10 == 0;
      assert Pad(n, w + 1) == Pad(n / 10, w) + [Digit(0)];
      assert Pad(0, w) == Pad(0, w - 1) + [Digit(0)];
    }
  }

  // --------------------------------------------------------------- parsing

  /** The number written by a digit string. */
  function Number(s: string): Option<nat> {
    if s == "" then Some(0)
    else match Number(s[..|s| - 1])
      case None => None
      case Some(n) =>
        var c := s[|s| - 1];
        if '0' <= c <= '9' then Some(10 * n + (c as int - '0' as int)) else None
  }

  function DaysBeforeYear(y: nat): nat {
    if y == 0 then 0 else DaysBeforeYear(y - 1) + YearLen(y - 1)
  }

  function DaysBeforeMonth(y: nat, m: nat): nat
    requires 1 <= m <= 13
  {
    if m == 1 then 0 else DaysBeforeMonth(y, m - 1) + MonthLen(y, m - 1)
  }

  function SecondOf(c: Civil): nat
    requires 1 <= c.month <= 12 && 1 <= c.day
  {
    (DaysBeforeYear(c.year) + DaysBeforeMonth(c.year, c.month) + c.day - 1) * DAY
    + c.hour * 3600 + c.minute * 60 + c.second
  }

  function Zeros(n: nat): string { seq(n, i => '0') }

  /** The nanoseconds written by what follows the seconds field: `Z`, or a
      point, one to nine digits, and `Z`. */
  function ParseSuffix(s: string): Option<nat> {
    if s == "Z" then Some(0)
    else if 3 <= |s| <= 11 && s[0] == '.' && s[|s| - 1] == 'Z' then
      var digits := s[1..|s| - 1];
      Number(digits + Zeros(9 - |digits|))
    else None
  }

  function ParsePrefix(s: string): Option<Civil>
    requires |s| == 19
  {
    if s[4] == '-' && s[7] == '-' && s[10] == 'T' && s[13] == ':' && s[16] == ':' then
      match (Number(s[..4]), Number(s[5..7]), Number(s[8..10]), Number(s[11..13]), Number(s[14..16]), Number(s[17..]))
      case (Some(y), Some(mo), Some(d), Some(h), Some(mi), Some(sec)) =>
        if 1 <= mo <= 12 && 1 <= d <= MonthLen(y, mo) && h < 24 && mi < 60 && sec < 60
        then Some(Civil(y, mo, d, h, mi, sec)) else None
      case _ => None
    else None
  }

  /** Reads back what the store wrote. */
  function ParseTime(s: string): Option<Instant> {
    if |s| < 20 then None
    else match (ParsePrefix(s[..19]), ParseSuffix(s[19..]))
      case (Some(c), Some(nano)) =>
        if 1 <= c.month <= 12 && 1 <= c.day then Some(SecondOf(c) * NANOS + nano) else None
      case _ => None
  }

  lemma {:induction false} NumberOfPad(n: nat, w: nat)
    requires n < Pow10(w)
    ensures Number(Pad(n, w)) == Some(n)
  {
    if w > 0 {
      NumberOfPad(n / 10, w - 1);
      var s := Pad(n, w);
      assert s[..w - 1] == Pad(n / 10, w - 1) && s[w - 1] == Digit(n % 10);
    }
  }

  lemma {:induction false} YearOfInverse(days: nat, y: nat)
    ensures var (a, i) := YearOf(days, y); DaysBeforeYear(a) + i == DaysBeforeYear(y) + days
    decreases days
  {
    if days >= YearLen(y) {
      YearOfInverse(days - YearLen(y), y + 1);
    }
  }

  lemma {:induction false} MonthOfInverse(days: nat, y: nat, m: nat)
    requires 1 <= m <= 12 && days < DaysLeft(y, m)
    ensures var (a, i) := MonthOf(days, y, m); DaysBeforeMonth(y, a) + i == DaysBeforeMonth(y, m) + days
    decreases 12 - m
  {
    if days >= MonthLen(y, m) {
      MonthOfInverse(days - MonthLen(y, m), y, m + 1);
    }
  }

  lemma CivilInverse(sec: nat)
    ensures SecondOf(CivilOf(sec)) == sec
  {
    var (year, yday) := YearOf(sec / DAY, 0);
    YearOfInverse(sec / DAY, 0);
    MonthOfInverse(yday, year, 1);
    var tod := sec % DAY;
    assert tod / 3600 * 3600 + tod % 3600 / 60 * 60 + tod % 60 == tod by {
      assert tod % 3600 % 60 == tod % 60;
    }
    assert sec == sec / DAY * DAY + tod;
  }

  lemma {:induction false} Untrim(s: string)
    ensures |Trim(s)| <= |s| && Trim(s) + Zeros(|s| - |Trim(s)|) == s
    ensures Trim(s) == "" <==> AllZero(s)
  {
    if !AllZero(s) {
      Untrim(s[1..]);
      assert s == [s[0]] + s[1..];
    }
  }

  lemma SuffixRoundTrip(t: Instant)
    ensures ParseSuffix(Suffix(Fraction(t))) == Some(Nano(t))
  {
    var p, f := Pad(Nano(t), 9), Fraction(t);
    assert Pow10(9) == NANOS by { assert Pow10(4) == 10_000; assert Pow10(6) == 1_000_000; assert Pow10(8) == 100_000_000; }
    NumberOfPad(Nano(t), 9);
    Untrim(p);
    if f == "" {
      PadZeros(9);
      PadOrder(Nano(t), 0, 9, NANOS);
      assert p == Pad(0, 9);
    } else {
      var s := Suffix(f);
      assert s[1..|s| - 1] == f;
    }
  }

  lemma PrefixFields(c: Civil)
    requires c.year < 10_000
    ensures var s := Prefix(c);
      && |s| == 19 && s[4] == '-' && s[7] == '-' && s[10] == 'T' && s[13] == ':' && s[16] == ':'
      && s[..4] == Pad(c.year, 4) && s[5..7] == Pad(c.month, 2) && s[8..10] == Pad(c.day, 2)
      && s[11..13] == Pad(c.hour, 2) && s[14..16] == Pad(c.minute, 2) && s[17..] == Pad(c.second, 2)
  {
    hide Pad;
  }

  lemma PrefixRoundTrip(sec: nat)
    requires CivilOf(sec).year < 10_000
    ensures |Prefix(CivilOf(sec))| == 19 && ParsePrefix(Prefix(CivilOf(sec))) == Some(CivilOf(sec))
  {
    var c := CivilOf(sec);
    PrefixFields(c);
    assert Pow10(4) == 10_000 && Pow10(2) == 100;
    hide CivilOf, Prefix, Pad, Number;
    NumberOfPad(c.year, 4);
    NumberOfPad(c.month, 2);
    NumberOfPad(c.day, 2);
    NumberOfPad(c.hour, 2);
    NumberOfPad(c.minute, 2);
    NumberOfPad(c.second, 2);
  }

  /** Every stored time reads back as itself. */
  lemma ParseTimeInvertsTimestamp(t: Instant)
    requires InRange(t)
    ensures ParseTime(Timestamp(t)) == Some(t)
  {
    PrefixRoundTrip(Sec(t));
    SuffixRoundTrip(t);
    CivilInverse(Sec(t));
    hide CivilOf, Prefix, Suffix, Fraction, ParsePrefix, ParseSuffix, SecondOf;
    var s := Timestamp(t);
    assert s[..19] == Prefix(CivilOf(Sec(t))) && s[19..] == Suffix(Fraction(t));
  }
}
