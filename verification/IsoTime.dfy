/**
 * Timestamps are stored as `datetime.isoformat()` text and compared as text. isoformat leaves out a zero fraction, so
 * texts of two widths meet (outside what section 5.1 of RFC 3339 promises); the order still comes out right.
 */
module IsoTime {
  import opened Text

  /** An aware datetime in UTC. */
  datatype UtcTime = UtcTime(year: nat, month: nat, day: nat, hour: nat, minute: nat, second: nat, micro: nat) {
    predicate Valid() {
      && 1 <= year <= 9999 && 1 <= month <= 12 && 1 <= day <= DaysInMonth(year, month)
      && hour < 24 && minute < 60 && second < 60 && micro < 1_000_000
    }
  }

  // ---------- The calendar ----------

  predicate IsLeap(year: nat) {
    year % 4 == 0 && (year % 100 != 0 || year % 400 == 0)
  }

  function DaysInMonth(year: nat, month: nat): nat {
    if month == 2 then (if IsLeap(year) then 29 else 28)
    else if month == 4 || month == 6 || month == 9 || month == 11 then 30
    else 31
  }

  function DaysBeforeYear(year: nat): int {
    var y := year - 1;
    y * 365 + y / 4 - y / 100 + y / 400
  }

  function DaysBeforeMonth(year: nat, month: nat): nat {
    if month <= 1 then 0 else DaysBeforeMonth(year, month - 1) + DaysInMonth(year, month - 1)
  }

  /** Microseconds on the proleptic Gregorian calendar. */
  function Micros(t: UtcTime): int {
    var days := DaysBeforeYear(t.year) + DaysBeforeMonth(t.year, t.month) + t.day;
    (((days * 24 + t.hour) * 60 + t.minute) * 60 + t.second) * 1_000_000 + t.micro
  }

  // ---------- isoformat ----------

  function Digit(d: nat): char
    requires d < 10
  {
    '0' + d as char
  }

  /** n in exactly `width` digits. */
  function Pad(n: nat, width: nat): (s: string)
    ensures |s| == width
  {
    if width == 0 then "" else Pad(n / 10, width - 1) + [Digit(n % 10)]
  }

  function Fraction(micro: nat): string {
    if micro == 0 then "" else "." + Pad(micro, 6)
  }

  function IsoFormat(t: UtcTime): string {
    Pad(t.year, 4) + ("-" + (Pad(t.month, 2) + ("-" + (Pad(t.day, 2) + ("T" + (Pad(t.hour, 2) + (":" +
      (Pad(t.minute, 2) + (":" + (Pad(t.second, 2) + (Fraction(t.micro) + "+00:00")))))))))))
  }

  // ---------- Digits ----------

  function Pow10(n: nat): nat {
    if n == 0 then 1 else 10 * Pow10(n - 1)
  }

  /** Appending one digit to texts that are ordered as their numbers. */
  lemma AppendDigit(p: string, q: string, c: nat, d: nat)
    requires |p| == |q| && c < 10 && d < 10
    ensures Less(p + [Digit(c)], q + [Digit(d)]) <==> if p == q then c < d else Less(p, q)
    ensures p + [Digit(c)] == q + [Digit(d)] <==> p == q && c == d
  {
    if p == q {
      LessPrefix(p, [Digit(c)], [Digit(d)]);
      assert (p + [Digit(c)])[|p|] == Digit(c) && (q + [Digit(d)])[|q|] == Digit(d);
    } else {
      LessHead(p, q, [Digit(c)], [Digit(d)]);
      assert (p + [Digit(c)])[..|p|] == p && (q + [Digit(d)])[..|q|] == q;
    }
  }

  lemma LastDigit(a: nat, b: nat)
    ensures a < b <==> a / 10 < b / 10 || (a / 10 == b / 10 && a % 10 < b % 10)
    ensures a == b <==> a / 10 == b / 10 && a % 10 == b % 10
  {}

  lemma {:induction false} PadOrder(a: nat, b: nat, width: nat)
    requires a < Pow10(width) && b < Pow10(width)
    ensures Less(Pad(a, width), Pad(b, width)) <==> a < b
    ensures Pad(a, width) == Pad(b, width) <==> a == b
  {
    if width > 0 {
      assert Pow10(width) == 10 * Pow10(width - 1);
      assert Pad(a, width) == Pad(a / 10, width - 1) + [Digit(a % 10)];
      assert Pad(b, width) == Pad(b / 10, width - 1) + [Digit(b % 10)];
      hide Less, Pad, Pow10, Digit;
      PadOrder(a / 10, b / 10, width - 1);
      AppendDigit(Pad(a / 10, width - 1), Pad(b / 10, width - 1), a % 10, b % 10);
      LastDigit(a, b);
    }
  }

  /** A fixed-width field decides the order unless it ties. */
  lemma FieldOrder(x: nat, y: nat, width: nat, a: string, b: string)
    requires x < Pow10(width) && y < Pow10(width)
    ensures Less(Pad(x, width) + a, Pad(y, width) + b) <==> x < y || (x == y && Less(a, b))
  {
    PadOrder(x, y, width);
    if x == y {
      LessPrefix(Pad(x, width), a, b);
    } else {
      LessHead(Pad(x, width), Pad(y, width), a, b);
    }
  }

  /** '+' sorts before '.', so a missing fraction sorts before every fraction. */
  lemma FractionOrder(a: nat, b: nat)
    requires a < 1_000_000 && b < 1_000_000
    ensures Less(Fraction(a) + "+00:00", Fraction(b) + "+00:00") <==> a < b
  {
    var zone := "+00:00";
    assert Pow10(6) == 1_000_000;
    if a != 0 && b != 0 {
      assert Fraction(a) + zone == "." + (Pad(a, 6) + zone) && Fraction(b) + zone == "." + (Pad(b, 6) + zone);
      LessPrefix(".", Pad(a, 6) + zone, Pad(b, 6) + zone);
      FieldOrder(a, b, 6, zone, zone);
      LessIrreflexive(zone);
    } else if a == b {
      LessIrreflexive(Fraction(a) + zone);
    }
  }

  // ---------- Text order is field order ----------

  predicate TimeBefore(a: UtcTime, b: UtcTime) {
    a.hour < b.hour || (a.hour == b.hour && (a.minute < b.minute || (a.minute == b.minute && (a.second < b.second ||
      (a.second == b.second && a.micro < b.micro)))))
  }

  predicate FieldsBefore(a: UtcTime, b: UtcTime) {
    a.year < b.year || (a.year == b.year && (a.month < b.month || (a.month == b.month && (a.day < b.day ||
      (a.day == b.day && TimeBefore(a, b))))))
  }

  lemma TextOrderIsFieldOrder(a: UtcTime, b: UtcTime)
    requires a.Valid() && b.Valid()
    ensures Less(IsoFormat(a), IsoFormat(b)) <==> FieldsBefore(a, b)
  {
    hide Pad, Fraction, Less;
    var u5, v5 := Fraction(a.micro) + "+00:00", Fraction(b.micro) + "+00:00";
    var u4, v4 := Pad(a.second, 2) + u5, Pad(b.second, 2) + v5;
    var u3, v3 := Pad(a.minute, 2) + (":" + u4), Pad(b.minute, 2) + (":" + v4);
    var u2, v2 := Pad(a.hour, 2) + (":" + u3), Pad(b.hour, 2) + (":" + v3);
    var u1, v1 := Pad(a.day, 2) + ("T" + u2), Pad(b.day, 2) + ("T" + v2);
    var u0, v0 := Pad(a.month, 2) + ("-" + u1), Pad(b.month, 2) + ("-" + v1);
    assert Pow10(2) == 100 && Pow10(4) == 10_000;
    FieldOrder(a.year, b.year, 4, "-" + u0, "-" + v0);
    LessPrefix("-", u0, v0);
    FieldOrder(a.month, b.month, 2, "-" + u1, "-" + v1);
    LessPrefix("-", u1, v1);
    FieldOrder(a.day, b.day, 2, "T" + u2, "T" + v2);
    LessPrefix("T", u2, v2);
    FieldOrder(a.hour, b.hour, 2, ":" + u3, ":" + v3);
    LessPrefix(":", u3, v3);
    FieldOrder(a.minute, b.minute, 2, ":" + u4, ":" + v4);
    LessPrefix(":", u4, v4);
    FieldOrder(a.second, b.second, 2, u5, v5);
    FractionOrder(a.micro, b.micro);
  }

  // ---------- Field order is time order ----------

  lemma OneYearOn(y: nat, n: nat)
    requires y >= 1 && n in {4, 100, 400}
    ensures y / n == (y - 1) / n + if y % n == 0 then 1 else 0
  {}

  lemma Divisors(y: nat)
    ensures y % 400 == 0 ==> y % 100 == 0
    ensures y % 100 == 0 ==> y % 4 == 0
  {
    if y % 400 == 0 {
      ByHundred(y, 4 * (y / 400));
    }
    if y % 100 == 0 {
      ByFour(y, 25 * (y / 100));
    }
  }

  lemma ByHundred(y: nat, q: nat)
    requires y == 100 * q
    ensures y % 100 == 0
  {}

  lemma ByFour(y: nat, q: nat)
    requires y == 4 * q
    ensures y % 4 == 0
  {}

  lemma MonthsAdd(year: nat)
    ensures DaysBeforeMonth(year, 13) == if IsLeap(year) then 366 else 365
  {
    assert DaysBeforeMonth(year, 2) == 31;
    assert DaysBeforeMonth(year, 3) == 31 + DaysInMonth(year, 2);
    assert DaysBeforeMonth(year, 4) == 62 + DaysInMonth(year, 2);
    assert DaysBeforeMonth(year, 5) == 92 + DaysInMonth(year, 2);
    assert DaysBeforeMonth(year, 6) == 123 + DaysInMonth(year, 2);
    assert DaysBeforeMonth(year, 7) == 153 + DaysInMonth(year, 2);
    assert DaysBeforeMonth(year, 8) == 184 + DaysInMonth(year, 2);
    assert DaysBeforeMonth(year, 9) == 215 + DaysInMonth(year, 2);
    assert DaysBeforeMonth(year, 10) == 245 + DaysInMonth(year, 2);
    assert DaysBeforeMonth(year, 11) == 276 + DaysInMonth(year, 2);
    assert DaysBeforeMonth(year, 12) == 306 + DaysInMonth(year, 2);
  }

  lemma YearLength(year: nat)
    requires year >= 1
    ensures DaysBeforeYear(year + 1) == DaysBeforeYear(year) + DaysBeforeMonth(year, 13)
  {
    hide DaysBeforeMonth;
    MonthsAdd(year);
    OneYearOn(year, 4);
    OneYearOn(year, 100);
    OneYearOn(year, 400);
    Divisors(year);
  }

  lemma {:induction false} LaterYear(a: nat, b: nat)
    requires 1 <= a < b
    ensures DaysBeforeYear(a) + DaysBeforeMonth(a, 13) <= DaysBeforeYear(b)
    decreases b
  {
    YearLength(b - 1);
    if a < b - 1 {
      LaterYear(a, b - 1);
    }
  }

  lemma {:induction false} LaterMonth(year: nat, a: nat, b: nat)
    requires 1 <= a < b
    ensures DaysBeforeMonth(year, a) + DaysInMonth(year, a) <= DaysBeforeMonth(year, b)
    decreases b
  {
    if a < b - 1 {
      LaterMonth(year, a, b - 1);
    }
  }

  lemma EarlierIsLess(a: UtcTime, b: UtcTime)
    requires a.Valid() && b.Valid() && FieldsBefore(a, b)
    ensures Micros(a) < Micros(b)
  {
    hide DaysBeforeYear, DaysInMonth;
    var d := DaysBeforeYear(a.year) + DaysBeforeMonth(a.year, a.month) + a.day;
    var e := DaysBeforeYear(b.year) + DaysBeforeMonth(b.year, b.month) + b.day;
    if a.year < b.year {
      LaterYear(a.year, b.year);
      LaterMonth(a.year, a.month, 13);
      assert d < e;
    } else if a.month < b.month {
      LaterMonth(a.year, a.month, b.month);
      assert d < e;
    } else {
      assert d < e || (d == e && TimeBefore(a, b));
    }
  }

  lemma FieldsTotal(a: UtcTime, b: UtcTime)
    ensures FieldsBefore(a, b) || a == b || FieldsBefore(b, a)
  {}

  /** Comparing two stored timestamps as text is comparing the instants they stand for. */
  lemma TextOrderIsTimeOrder(a: UtcTime, b: UtcTime)
    requires a.Valid() && b.Valid()
    ensures Less(IsoFormat(a), IsoFormat(b)) <==> Micros(a) < Micros(b)
    ensures IsoFormat(a) == IsoFormat(b) <==> Micros(a) == Micros(b)
  {
    hide IsoFormat, Micros;
    TextOrderIsFieldOrder(a, b);
    TextOrderIsFieldOrder(b, a);
    FieldsTotal(a, b);
    LessIrreflexive(IsoFormat(a));
    if FieldsBefore(a, b) {
      EarlierIsLess(a, b);
    } else if FieldsBefore(b, a) {
      EarlierIsLess(b, a);
    }
  }

  // ---------- Reading the text back ----------

  /** The number a text of decimal digits stands for. */
  function Value(s: string): int {
    if s == [] then 0 else 10 * Value(s[..|s| - 1]) + (s[|s| - 1] as int - '0' as int)
  }

  lemma {:induction false} PadValue(n: nat, width: nat)
    requires n < Pow10(width)
    ensures Value(Pad(n, width)) == n
  {
    if width > 0 {
      PadValue(n / 10, width - 1);
      assert Pad(n, width)[..width - 1] == Pad(n / 10, width - 1);
    }
  }

  lemma Part(s: string, i: nat, p: string, rest: string)
    ensures i <= |s| && s[i..] == p + rest ==> i + |p| <= |s| && s[i..i + |p|] == p && s[i + |p|..] == rest
  {}

  /** A field of `width` characters, a separator of one, and the rest. */
  lemma Field(s: string, i: nat, width: nat, p: string, sep: string, rest: string)
    requires i <= |s| && s[i..] == p + (sep + rest) && |p| == width && |sep| == 1
    ensures i + width + 1 <= |s| && s[i..i + width] == p && s[i + width..i + width + 1] == sep
    ensures s[i + width + 1..] == rest
  {
    Part(s, i, p, sep + rest);
    Part(s, i + width, sep, rest);
  }

  /** The stored text reads back as the very instant: its fields in their places, a fraction exactly when there is one. */
  lemma TextReadsBack(t: UtcTime)
    requires t.Valid()
    ensures
      var s := IsoFormat(t);
      && |s| == (if t.micro == 0 then 25 else 32)
      && Value(s[0..4]) == t.year && s[4..5] == "-" && Value(s[5..7]) == t.month && s[7..8] == "-"
      && Value(s[8..10]) == t.day && s[10..11] == "T" && Value(s[11..13]) == t.hour && s[13..14] == ":"
      && Value(s[14..16]) == t.minute && s[16..17] == ":" && Value(s[17..19]) == t.second
      && (t.micro != 0 ==> s[19..20] == "." && Value(s[20..26]) == t.micro) && s[|s| - 6..] == "+00:00"
  {
    var s := IsoFormat(t);
    var fraction := Fraction(t.micro) + "+00:00";
    var time := Pad(t.hour, 2) + (":" + (Pad(t.minute, 2) + (":" + (Pad(t.second, 2) + fraction))));
    hide Pad, Value, Fraction, Less;
    assert s == Pad(t.year, 4) + ("-" + (Pad(t.month, 2) + ("-" + (Pad(t.day, 2) + ("T" + time)))));
    DateReadsBack(t, s, time);
    TimeReadsBack(t, s, fraction);
    hide IsoFormat;
    FractionReadsBack(s, t.micro);
  }

  lemma DateReadsBack(t: UtcTime, s: string, time: string)
    requires t.Valid() && s == Pad(t.year, 4) + ("-" + (Pad(t.month, 2) + ("-" + (Pad(t.day, 2) + ("T" + time)))))
    ensures |s| >= 11 && s[11..] == time && s[4..5] == "-" && s[7..8] == "-" && s[10..11] == "T"
    ensures Value(s[0..4]) == t.year && Value(s[5..7]) == t.month && Value(s[8..10]) == t.day
  {
    FieldValues(t);
    hide Pad, Value;
    var days := Pad(t.day, 2) + ("T" + time);
    var months := Pad(t.month, 2) + ("-" + days);
    assert s[0..] == s;
    Field(s, 0, 4, Pad(t.year, 4), "-", months);
    Field(s, 5, 2, Pad(t.month, 2), "-", days);
    Field(s, 8, 2, Pad(t.day, 2), "T", time);
  }

  lemma TimeReadsBack(t: UtcTime, s: string, fraction: string)
    requires t.Valid() && |s| >= 11
    requires s[11..] == Pad(t.hour, 2) + (":" + (Pad(t.minute, 2) + (":" + (Pad(t.second, 2) + fraction))))
    ensures |s| >= 19 && s[19..] == fraction && s[13..14] == ":" && s[16..17] == ":"
    ensures Value(s[11..13]) == t.hour && Value(s[14..16]) == t.minute && Value(s[17..19]) == t.second
  {
    FieldValues(t);
    hide Pad, Value;
    var seconds := Pad(t.second, 2) + fraction;
    var minutes := Pad(t.minute, 2) + (":" + seconds);
    Field(s, 11, 2, Pad(t.hour, 2), ":", minutes);
    Field(s, 14, 2, Pad(t.minute, 2), ":", seconds);
    Part(s, 17, Pad(t.second, 2), fraction);
  }

  lemma FieldValues(t: UtcTime)
    requires t.Valid()
    ensures Value(Pad(t.year, 4)) == t.year && Value(Pad(t.month, 2)) == t.month && Value(Pad(t.day, 2)) == t.day
    ensures Value(Pad(t.hour, 2)) == t.hour && Value(Pad(t.minute, 2)) == t.minute && Value(Pad(t.second, 2)) == t.second
  {
    assert Pow10(2) == 100 && Pow10(4) == 10_000;
    PadValue(t.year, 4);
    PadValue(t.month, 2);
    PadValue(t.day, 2);
    PadValue(t.hour, 2);
    PadValue(t.minute, 2);
    PadValue(t.second, 2);
  }

  lemma FractionReadsBack(s: string, micro: nat)
    requires micro < 1_000_000 && 19 <= |s| && s[19..] == Fraction(micro) + "+00:00"
    ensures |s| == (if micro == 0 then 25 else 32) && s[|s| - 6..] == "+00:00"
    ensures micro != 0 ==> s[19..20] == "." && Value(s[20..26]) == micro
  {
    assert Pow10(6) == 1_000_000;
    PadValue(micro, 6);
    if micro == 0 {
      assert s[19..] == "+00:00";
    } else {
      hide Pad, Value;
      assert s[19..] == "." + (Pad(micro, 6) + "+00:00");
      Part(s, 19, ".", Pad(micro, 6) + "+00:00");
      Part(s, 20, Pad(micro, 6), "+00:00");
    }
  }
}
