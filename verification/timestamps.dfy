/** ISO 8601 stamps as text. Every claim, recovery, supersession and ordering query compares
    them as strings; that order is the order of the instants. */
module Timestamps {

  /** A UTC date and time, as its fields. */
  datatype Stamp = Stamp(year: nat, month: nat, day: nat, hour: nat, minute: nat, second: nat, micro: nat)

  predicate Leap(year: nat)
  {
    year % 4 == 0 && (year % 100 != 0 || year % 400 == 0)
  }

  function DaysInMonth(year: nat, month: nat): nat
  {
    if month == 2 then (if Leap(year) then 29 else 28)
    else if month in {4, 6, 9, 11} then 30
    else 31
  }

  predicate Valid(x: Stamp)
  {
    && 1 <= x.year <= 9999 && 1 <= x.month <= 12 && 1 <= x.day <= DaysInMonth(x.year, x.month)
    && x.hour < 24 && x.minute < 60 && x.second < 60 && x.micro < 1_000_000
  }

  // ---------------------------------------------------------------- the text

  function Digit(n: nat): char
    requires n < 10
  {
    '0' + n as char
  }

  /** A number in `width` digits. */
  function Pad(n: nat, width: nat): string
  {
    if width == 0 then "" else Pad(n / 10, width - 1) + [Digit(n % 10)]
  }

  function Part(n: nat, width: nat, separator: char, rest: string): string
  {
    Pad(n, width) + ([separator] + rest)
  }

  /** The fraction is left out of a whole second. */
  function Fraction(micro: nat): string
  {
    (if micro == 0 then "" else ['.'] + Pad(micro, 6)) + "+00:00"
  }

  function Text(x: Stamp): string
  {
    Part(x.year, 4, '-', Part(x.month, 2, '-', Part(x.day, 2, 'T',
      Part(x.hour, 2, ':', Part(x.minute, 2, ':', Pad(x.second, 2) + Fraction(x.micro))))))
  }

  /** The order of a text comparison. */
  predicate Less(a: string, b: string)
  {
    b != "" && (a == "" || a[0] < b[0] || (a[0] == b[0] && Less(a[1..], b[1..])))
  }

  // ---------------------------------------------------------------- the instant

  function DaysBeforeYear(year: nat): int
    requires year >= 1
  {
    365 * (year - 1) + (year - 1) / 4 - (year - 1) / 100 + (year - 1) / 400
  }

  function DaysBeforeMonth(year: nat, month: nat): nat
    requires month >= 1
  {
    if month == 1 then 0 else DaysBeforeMonth(year, month - 1) + DaysInMonth(year, month - 1)
  }

  function Days(x: Stamp): int
    requires Valid(x)
  {
    DaysBeforeYear(x.year) + DaysBeforeMonth(x.year, x.month) + x.day - 1
  }

  /** Microseconds since the first day of year 1. */
  function Instant(x: Stamp): int
    requires Valid(x)
  {
    (((Days(x) * 24 + x.hour) * 60 + x.minute) * 60 + x.second) * 1_000_000 + x.micro
  }

  // ---------------------------------------------------------------- text order

  lemma {:induction false} LessConcat(p: string, q: string, s: string, r: string)
    requires |p| == |q|
    ensures Less(p + s, q + r) <==> Less(p, q) || (p == q && Less(s, r))
  {
    if p == "" {
      assert p + s == s && q + r == r;
    } else {
      LessConcat(p[1..], q[1..], s, r);
      assert (p + s)[1..] == p[1..] + s && (q + r)[1..] == q[1..] + r;
      assert p == [p[0]] + p[1..] && q == [q[0]] + q[1..];
    }
  }

  function Power10(n: nat): nat
  {
    if n == 0 then 1 else 10 * Power10(n - 1)
  }

  lemma {:induction false} PadOrder(a: nat, b: nat, width: nat)
    requires a < Power10(width) && b < Power10(width)
    ensures |Pad(a, width)| == |Pad(b, width)| == width
    ensures Less(Pad(a, width), Pad(b, width)) <==> a < b
    ensures Pad(a, width) == Pad(b, width) <==> a == b
  {
    if width > 0 {
      PadOrder(a / 10, b / 10, width - 1);
      var p, q := Pad(a / 10, width - 1), Pad(b / 10, width - 1);
      var s, r := [Digit(a % 10)], [Digit(b % 10)];
      LessConcat(p, q, s, r);
      assert Less(s, r) <==> a % 10 < b % 10;
      assert p + s == q + r ==> p == (p + s)[..width - 1] == q && s[0] == (p + s)[width - 1] == r[0];
    }
  }

  lemma PartOrder(a: nat, b: nat, width: nat, separator: char, s: string, r: string)
    requires a < Power10(width) && b < Power10(width)
    ensures Less(Part(a, width, separator, s), Part(b, width, separator, r)) <==> a < b || (a == b && Less(s, r))
  {
    PadOrder(a, b, width);
    LessConcat(Pad(a, width), Pad(b, width), [separator] + s, [separator] + r);
    LessConcat([separator], [separator], s, r);
    assert !Less([separator], [separator]);
  }

  /** A whole second sorts before its fractions: '+' comes before '.'. */
  lemma FractionOrder(a: nat, b: nat)
    requires a < 1_000_000 && b < 1_000_000
    ensures Less(Fraction(a), Fraction(b)) <==> a < b
  {
    Powers();
    if a > 0 && b > 0 {
      PadOrder(a, b, 6);
      Irreflexive("+00:00");
      LessConcat(Pad(a, 6), Pad(b, 6), "+00:00", "+00:00");
      var x, y := Pad(a, 6) + "+00:00", Pad(b, 6) + "+00:00";
      assert Fraction(a) == ['.'] + x && Fraction(b) == ['.'] + y;
      LessConcat(['.'], ['.'], x, y);
    } else if a == 0 && b == 0 {
      Irreflexive(Fraction(0));
    }
  }

  lemma {:induction false} Irreflexive(s: string)
    ensures !Less(s, s)
  {
    if s != "" {
      Irreflexive(s[1..]);
    }
  }

  lemma Powers()
    ensures Power10(2) == 100 && Power10(4) == 10_000 && Power10(6) == 1_000_000
  {
    assert Power10(2) == 100;
    assert Power10(4) == 10_000;
  }

  /** The fields, most significant first. */
  predicate Earlier(a: Stamp, b: Stamp)
  {
    a.year < b.year || (a.year == b.year &&
      (a.month < b.month || (a.month == b.month &&
        (a.day < b.day || (a.day == b.day &&
          (a.hour < b.hour || (a.hour == b.hour &&
            (a.minute < b.minute || (a.minute == b.minute &&
              (a.second < b.second || (a.second == b.second && a.micro < b.micro)))))))))))
  }

  lemma TextOrder(a: Stamp, b: Stamp)
    requires Valid(a) && Valid(b)
    ensures Less(Text(a), Text(b)) <==> Earlier(a, b)
  {
    Powers();
    FractionOrder(a.micro, b.micro);
    PadOrder(a.second, b.second, 2);
    LessConcat(Pad(a.second, 2), Pad(b.second, 2), Fraction(a.micro), Fraction(b.micro));
    var s, r := Pad(a.second, 2) + Fraction(a.micro), Pad(b.second, 2) + Fraction(b.micro);
    hide Less, Part, Pad, Fraction;
    PartOrder(a.minute, b.minute, 2, ':', s, r);
    s, r := Part(a.minute, 2, ':', s), Part(b.minute, 2, ':', r);
    PartOrder(a.hour, b.hour, 2, ':', s, r);
    s, r := Part(a.hour, 2, ':', s), Part(b.hour, 2, ':', r);
    PartOrder(a.day, b.day, 2, 'T', s, r);
    s, r := Part(a.day, 2, 'T', s), Part(b.day, 2, 'T', r);
    PartOrder(a.month, b.month, 2, '-', s, r);
    s, r := Part(a.month, 2, '-', s), Part(b.month, 2, '-', r);
    PartOrder(a.year, b.year, 4, '-', s, r);
  }

  // ---------------------------------------------------------------- chronological order

  lemma YearLength(year: nat)
    requires year >= 1
    ensures DaysBeforeYear(year + 1) == DaysBeforeYear(year) + if Leap(year) then 366 else 365
  {
    var q4, r4 := year / 4, year % 4;
    var q100, r100 := year / 100, year % 100;
    var q400, r400 := year / 400, year % 400;
    assert year == 4 * q4 + r4 && year == 100 * q100 + r100 && year == 400 * q400 + r400;
    Before(year, 4, q4, r4);
    Before(year, 100, q100, r100);
    Before(year, 400, q400, r400);
    assert r400 == 0 ==> r100 == 100 * (4 * q400 - q100);
    assert r100 == 0 ==> r4 == 4 * (25 * q100 - q4);
  }

  /** Dividing the number before: one less exactly at a multiple. */
  lemma Before(n: nat, k: nat, q: nat, r: nat)
    requires k > 0 && n >= 1 && n == k * q + r && r < k
    requires k == 4 || k == 100 || k == 400
    ensures (n - 1) / k == if r == 0 then q - 1 else q
  {
  }

  lemma {:induction false} YearsGrow(a: nat, b: nat)
    requires 1 <= a < b
    ensures DaysBeforeYear(a) + (if Leap(a) then 366 else 365) <= DaysBeforeYear(b)
    decreases b
  {
    hide DaysBeforeYear, Leap;
    YearLength(b - 1);
    if a < b - 1 {
      YearsGrow(a, b - 1);
    }
  }

  lemma {:induction false} MonthsGrow(year: nat, a: nat, b: nat)
    requires 1 <= a < b
    ensures DaysBeforeMonth(year, a) + DaysInMonth(year, a) <= DaysBeforeMonth(year, b)
  {
    if a < b - 1 {
      MonthsGrow(year, a, b - 1);
    }
  }

  lemma MonthsFit(year: nat, month: nat)
    requires 1 <= month <= 12
    ensures DaysBeforeMonth(year, month) + DaysInMonth(year, month) <= if Leap(year) then 366 else 365
  {
    if month < 12 {
      MonthsGrow(year, month, 12);
    }
    assert DaysBeforeMonth(year, 7) == if Leap(year) then 182 else 181;
    assert DaysBeforeMonth(year, 12) == if Leap(year) then 335 else 334;
  }

  predicate EarlierDay(a: Stamp, b: Stamp)
  {
    a.year < b.year || (a.year == b.year && (a.month < b.month || (a.month == b.month && a.day < b.day)))
  }

  lemma DaysGrow(a: Stamp, b: Stamp)
    requires Valid(a) && Valid(b) && EarlierDay(a, b)
    ensures Days(a) < Days(b)
  {
    hide DaysBeforeYear, DaysBeforeMonth, DaysInMonth, Leap;
    if a.year < b.year {
      YearsGrow(a.year, b.year);
      MonthsFit(a.year, a.month);
    } else if a.month < b.month {
      MonthsGrow(a.year, a.month, b.month);
    }
  }

  lemma InstantOrder(a: Stamp, b: Stamp)
    requires Valid(a) && Valid(b)
    ensures Instant(a) < Instant(b) <==> Earlier(a, b)
  {
    hide Days;
    if EarlierDay(a, b) {
      DaysGrow(a, b);
    } else if EarlierDay(b, a) {
      DaysGrow(b, a);
    } else {
      assert Days(a) == Days(b) by { SameDay(a, b); }
    }
  }

  lemma SameDay(a: Stamp, b: Stamp)
    requires Valid(a) && Valid(b) && a.year == b.year && a.month == b.month && a.day == b.day
    ensures Days(a) == Days(b)
  {
  }

  /** Comparing stamps as text compares the instants, with and without a fraction. */
  lemma TextOrderIsChronological(a: Stamp, b: Stamp)
    requires Valid(a) && Valid(b)
    ensures Less(Text(a), Text(b)) <==> Instant(a) < Instant(b)
    ensures Text(a) == Text(b) <==> Instant(a) == Instant(b)
  {
    hide Text, Less, Instant, Earlier;
    TextOrder(a, b);
    TextOrder(b, a);
    InstantOrder(a, b);
    InstantOrder(b, a);
    Irreflexive(Text(a));
    SameFields(a, b);
  }

  lemma SameFields(a: Stamp, b: Stamp)
    ensures a == b || Earlier(a, b) || Earlier(b, a)
  {
  }

  /** The written form, with a fraction and without. */
  lemma TextLooksLike(x: Stamp)
    requires Valid(x)
    ensures Text(x) ==
      Pad(x.year, 4) + "-" + Pad(x.month, 2) + "-" + Pad(x.day, 2) + "T" + Pad(x.hour, 2) + ":" + Pad(x.minute, 2) + ":"
      + Pad(x.second, 2) + (if x.micro == 0 then "" else "." + Pad(x.micro, 6)) + "+00:00"
  {
    hide Pad;
  }
}
