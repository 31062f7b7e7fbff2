/** The printed times against the calendar: the fields of every stored text are the
    digits of a Gregorian date and time of day, and the closed form of the day count
    says which. */
module Calendar {
  import opened Basics
  import opened Timestamps

  /** Days from 1 January to the first of each month of a common year. */
  const FIRSTS := [0, 31, 59, 90, 120, 151, 181, 212, 243, 273, 304, 334]

  const LENGTHS := [31, 28, 31, 30, 31, 30, 31, 31, 30, 31, 30, 31]

  /** One every fourth year, none every hundredth, one every four hundredth. */
  function LeapDay(y: nat): nat { if (y % 4 == 0 && y % 100 != 0) || y % 400 == 0 then 1 else 0 }

  function YearStart(y: nat): int { 365 * y + (y + 3) / 4 - (y + 99) / 100 + (y + 399) / 400 }

  /** Days from 1 January of the year 0, without recursion. */
  function DayNumber(y: nat, m: nat, d: nat): int
    requires 1 <= m <= 12
  {
    YearStart(y) + FIRSTS[m - 1] + (if m > 2 then LeapDay(y) else 0) + d - 1
  }

  lemma {:induction false} YearsClosed(y: nat)
    ensures DaysBeforeYear(y) == YearStart(y)
  {
    hide YearStart;
    if y > 0 {
      YearsClosed(y - 1);
      NextYear(y - 1);
    } else {
      FirstYear();
    }
  }

  lemma FirstYear()
    ensures YearStart(0) == 0
  {
  }

  lemma NextYear(y: nat)
    ensures YearStart(y + 1) == YearStart(y) + YearLen(y)
  {
    Step4(y);
    Step100(y);
    Step400(y);
    Multiples(y);
    LeapYear(y);
    YearStarts(y);
    hide YearStart, YearLen;
  }

  lemma YearStarts(y: nat)
    ensures YearStart(y + 1) - YearStart(y)
         == 365 + Step(y, 4) - Step(y, 100) + Step(y, 400)
  {
  }

  /** How much the count of multiples of `n` before a year grows from year `y` to the next. */
  function Step(y: nat, n: nat): int
    requires n > 0
  {
    (y + 1 + (n - 1)) / n - (y + (n - 1)) / n
  }

  lemma LeapYear(y: nat)
    ensures YearLen(y) == if (y % 4 == 0 && y % 100 != 0) || y % 400 == 0 then 366 else 365
  {
    Multiples(y);
  }

  lemma Multiples(y: nat)
    ensures y % 400 == 0 ==> y % 100 == 0
    ensures y % 100 == 0 ==> y % 4 == 0
  {
    if y % 400 == 0 {
      MultipleOf(4 * (y / 400), 100);
    }
    if y % 100 == 0 {
      MultipleOf(25 * (y / 100), 4);
    }
  }

  lemma {:induction false} MultipleOf(k: nat, n: nat)
    requires n == 100 || n == 4
    ensures (k * n) % n == 0
  {
    if k > 0 {
      MultipleOf(k - 1, n);
      assert k * n == (k - 1) * n + n;
    }
  }

  lemma Step4(y: nat)
    ensures Step(y, 4) == if y % 4 == 0 then 1 else 0
  {
  }

  lemma Step100(y: nat)
    ensures Step(y, 100) == if y % 100 == 0 then 1 else 0
  {
  }

  lemma Step400(y: nat)
    ensures Step(y, 400) == if y % 400 == 0 then 1 else 0
  {
  }

  lemma {:induction false} MonthsClosed(y: nat, m: nat)
    requires 1 <= m <= 12
    ensures DaysBeforeMonth(y, m) == FIRSTS[m - 1] + if m > 2 then LeapDay(y) else 0
    ensures MonthLen(y, m) == LENGTHS[m - 1] + if m == 2 then LeapDay(y) else 0
  {
    if m > 1 {
      MonthsClosed(y, m - 1);
    }
  }

  /** Every second falls on the Gregorian date and the time of day that it is taken for. */
  lemma CivilIsGregorian(sec: nat)
    ensures var c := CivilOf(sec);
      && 1 <= c.month <= 12 && 1 <= c.day <= LENGTHS[c.month - 1] + (if c.month == 2 then LeapDay(c.year) else 0)
      && c.hour < 24 && c.minute < 60 && c.second < 60
      && sec == 86_400 * DayNumber(c.year, c.month, c.day) + 3600 * c.hour + 60 * c.minute + c.second
  {
    var c := CivilOf(sec);
    CivilInverse(sec);
    YearsClosed(c.year);
    MonthsClosed(c.year, c.month);
    hide CivilOf;
  }

  /** The nineteen characters before the fraction. */
  predicate PrintsDate(s: string, c: Civil) {
    && |s| == 19 && s[4] == '-' && s[7] == '-' && s[10] == 'T' && s[13] == ':' && s[16] == ':'
    && Number(s[..4]) == Some(c.year) && Number(s[5..7]) == Some(c.month) && Number(s[8..10]) == Some(c.day)
    && Number(s[11..13]) == Some(c.hour) && Number(s[14..16]) == Some(c.minute) && Number(s[17..]) == Some(c.second)
  }

  /** `Z`, or a point, up to nine digits of which the last is not 0, and `Z`. */
  predicate PrintsNanos(s: string, nano: nat) {
    if nano == 0 then s == "Z"
    else
      && 3 <= |s| <= 11 && s[0] == '.' && s[|s| - 1] == 'Z' && s[|s| - 2] != '0'
      && Number(s[1..|s| - 1] + Zeros(11 - |s|)) == Some(nano)
  }

  /** A four-digit year, two digits for each other field, and the separators of
      section 5.6 of RFC 3339; the fraction is printed to the last digit that is not 0. */
  lemma TimestampText(t: Instant)
    requires InRange(t)
    ensures var s := Timestamp(t);
      20 <= |s| && PrintsDate(s[..19], CivilOf(t / 1_000_000_000)) && PrintsNanos(s[19..], t % 1_000_000_000)
  {
    var c, f := CivilOf(Sec(t)), Fraction(t);
    DateText(c);
    NanoText(t);
    hide CivilOf, Prefix, Fraction, Suffix, PrintsDate, PrintsNanos;
    var s := Timestamp(t);
    assert s[..19] == Prefix(c) && s[19..] == Suffix(f);
  }

  lemma DateText(c: Civil)
    requires c.year < 10_000 && c.month < 100 && c.day < 100 && c.hour < 100 && c.minute < 100 && c.second < 100
    ensures |Prefix(c)| == 19 && PrintsDate(Prefix(c), c)
  {
    PrefixFields(c);
    assert Pow10(4) == 10_000 && Pow10(2) == 100;
    hide Prefix, Pad, Number;
    NumberOfPad(c.year, 4);
    NumberOfPad(c.month, 2);
    NumberOfPad(c.day, 2);
    NumberOfPad(c.hour, 2);
    NumberOfPad(c.minute, 2);
    NumberOfPad(c.second, 2);
  }

  lemma NanoText(t: Instant)
    ensures |Suffix(Fraction(t))| > 0 && PrintsNanos(Suffix(Fraction(t)), Nano(t))
  {
    FractionText(t);
    hide Fraction, Number;
    var f, s := Fraction(t), Suffix(Fraction(t));
    if f != "" {
      assert s == "." + f + "Z" && s[1..|s| - 1] == f && s[|s| - 2] == f[|f| - 1];
    }
  }

  lemma FractionText(t: Instant)
    ensures var f := Fraction(t);
      && |f| <= 9 && (f == "" <==> Nano(t) == 0) && (f != "" ==> f[|f| - 1] != '0')
      && Number(f + Zeros(9 - |f|)) == Some(Nano(t))
  {
    var p := Pad(Nano(t), 9);
    assert Pow10(9) == NANOS by { assert Pow10(4) == 10_000; assert Pow10(6) == 1_000_000; assert Pow10(8) == 100_000_000; }
    NumberOfPad(Nano(t), 9);
    NumberOfPad(0, 9);
    Untrim(p);
    LastDigit(p);
    PadZeros(9);
    PadOrder(Nano(t), 0, 9, NANOS);
    if AllZero(p) {
      AllZeros(p, Pad(0, 9));
    }
  }

  lemma AllZeros(a: string, b: string)
    requires |a| == |b| && AllZero(a) && AllZero(b)
    ensures a == b
  {
  }

  lemma {:induction false} LastDigit(s: string)
    ensures Trim(s) != "" ==> Trim(s)[|Trim(s)| - 1] != '0'
  {
    if !AllZero(s) {
      LastDigit(s[1..]);
      if AllZero(s[1..]) {
        assert Trim(s) == [s[0]];
      }
    }
  }

  /** April ends with its 30th, and the February of a leap year with its 29th. */
  lemma MonthEnds()
    ensures CivilOf(86_400 * 60 - 1) == Civil(0, 2, 29, 23, 59, 59)
    ensures CivilOf(86_400 * 121 - 1) == Civil(0, 4, 30, 23, 59, 59) && CivilOf(86_400 * 121) == Civil(0, 5, 1, 0, 0, 0)
  {
    MonthDay(59);
    MonthDay(120);
    MonthDay(121);
    hide YearOf, MonthOf, Leap;
  }

  lemma MonthDay(day: nat)
    requires day == 59 || day == 120 || day == 121
    ensures YearOf(day, 0) == (0, day)
    ensures MonthOf(day, 0, 1) == if day == 59 then (2, 28) else if day == 120 then (4, 29) else (5, 0)
  {
    assert YearLen(0) == 366;
    assert MonthOf(day, 0, 1) == MonthOf(day - 31, 0, 2);
    if day > 59 {
      assert MonthOf(day - 31, 0, 2) == MonthOf(day - 60, 0, 3) == MonthOf(day - 91, 0, 4);
    }
  }
}
