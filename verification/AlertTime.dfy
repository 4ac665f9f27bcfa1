/**
 alert_time (ai-ops/src/ai_ops/alerts.py:26-38): an RFC 3339 timestamp becomes a UTC text that keeps
 nanoseconds and serves as a deduplication key and, by plain string comparison, as a time order.
 Characters are ASCII.
 */
module AlertTime {
  import opened Wrappers

  // ---------------------------------------------------------------- text

  predicate IsDigit(c: char) { '0' <= c <= '9' }

  predicate AllDigits(s: string) { forall i :: 0 <= i < |s| ==> IsDigit(s[i]) }

  function Pow10(n: nat): (r: nat)
    ensures r >= 1
  {
    if n == 0 then 1 else 10 * Pow10(n - 1)
  }

  /** int(s) for a text of decimal digits. */
  function Value(s: string): (r: nat)
    requires AllDigits(s)
    ensures r < Pow10(|s|)
  {
    if s == "" then 0
    else 10 * Value(s[..|s| - 1]) + (s[|s| - 1] as int - '0' as int) as nat
  }

  function DigitChar(d: nat): (c: char)
    requires d < 10
    ensures IsDigit(c) && c as int - '0' as int == d
  {
    ('0' as int + d) as char
  }

  /** Zero-padded decimal of a fixed width. */
  function Padded(n: nat, width: nat): (s: string)
    requires n < Pow10(width)
    ensures |s| == width && AllDigits(s) && Value(s) == n
  {
    if width == 0 then ""
    else
      var s := Padded(n / 10, width - 1) + [DigitChar(n % 10)];
      assert s[..|s| - 1] == Padded(n / 10, width - 1);
      s
  }

  /** Decimal without padding. */
  function Decimal(n: nat): (s: string)
    ensures s != "" && AllDigits(s)
  {
    if n < 10 then [DigitChar(n)] else Decimal(n / 10) + [DigitChar(n % 10)]
  }

  /** Python's `<` on strings. */
  predicate Less(a: string, b: string) {
    if b == "" then false
    else if a == "" then true
    else if a[0] != b[0] then a[0] < b[0]
    else Less(a[1..], b[1..])
  }

  lemma {:induction false} LessOfConcat(p: string, q: string, x: string, y: string)
    requires |p| == |x|
    ensures Less(p + q, x + y) <==> Less(p, x) || (p == x && Less(q, y))
  {
    if p == "" {
      assert p + q == q && x + y == y;
    } else {
      assert (p + q)[1..] == p[1..] + q && (x + y)[1..] == x[1..] + y;
      assert p == [p[0]] + p[1..] && x == [x[0]] + x[1..];
      LessOfConcat(p[1..], q, x[1..], y);
    }
  }

  lemma {:induction false} LessOfDigits(a: string, b: string)
    requires |a| == |b| && AllDigits(a) && AllDigits(b)
    ensures Less(a, b) <==> Value(a) < Value(b)
    ensures a == b <==> Value(a) == Value(b)
  {
    if a != "" {
      var n := |a| - 1;
      LessOfDigits(a[..n], b[..n]);
      LessOfConcat(a[..n], [a[n]], b[..n], [b[n]]);
      assert a == a[..n] + [a[n]] && b == b[..n] + [b[n]];
    }
  }

  lemma {:induction false} LessIsTotal(a: string, b: string)
    ensures Less(a, b) || a == b || Less(b, a)
    ensures !(Less(a, b) && Less(b, a))
    ensures Less(a, b) || Less(b, a) ==> a != b
  {
    if a != "" && b != "" {
      LessIsTotal(a[1..], b[1..]);
      assert a == [a[0]] + a[1..] && b == [b[0]] + b[1..];
    }
  }

  lemma {:induction false} LessIsTransitive(a: string, b: string, c: string)
    requires Less(a, b) && Less(b, c)
    ensures Less(a, c)
  {
    if a != "" { LessIsTransitiveTail(a, b, c); }
  }

  lemma {:induction false} LessIsTransitiveTail(a: string, b: string, c: string)
    requires Less(a, b) && Less(b, c) && a != ""
    ensures Less(a, c)
  {
    if a[0] == b[0] == c[0] && a[1..] != "" { LessIsTransitiveTail(a[1..], b[1..], c[1..]); }
  }

  // ---------------------------------------------------------------- calendar

  datatype Date = Date(year: nat, month: nat, day: nat)
  datatype Civil = Civil(date: Date, hour: nat, minute: nat, second: nat)

  predicate Leap(y: nat) { y % 4 == 0 && (y % 100 != 0 || y % 400 == 0) }

  function DaysInMonth(y: nat, m: nat): nat {
    if m == 2 then (if Leap(y) then 29 else 28)
    else if m == 4 || m == 6 || m == 9 || m == 11 then 30 else 31
  }

  predicate ValidDate(d: Date) {
    1 <= d.year && 1 <= d.month <= 12 && 1 <= d.day <= DaysInMonth(d.year, d.month)
  }

  predicate ValidCivil(c: Civil) {
    ValidDate(c.date) && c.date.year <= 9999 && c.hour < 24 && c.minute < 60 && c.second < 60
  }

  function DaysBeforeYear(y: nat): nat
    requires y >= 1
  {
    (y - 1) * 365 + (y - 1) / 4 - (y - 1) / 100 + (y - 1) / 400
  }

  function DaysBeforeMonth(y: nat, m: nat): nat
    requires 1 <= m <= 12
  {
    if m == 1 then 0 else DaysBeforeMonth(y, m - 1) + DaysInMonth(y, m - 1)
  }

  /** Proleptic Gregorian ordinal, 1 for 0001-01-01. */
  function Ordinal(d: Date): nat
    requires ValidDate(d)
  {
    DaysBeforeYear(d.year) + DaysBeforeMonth(d.year, d.month) + d.day
  }

  function NextDay(d: Date): (n: Date)
    requires ValidDate(d)
    ensures ValidDate(n)
  {
    if d.day < DaysInMonth(d.year, d.month) then d.(day := d.day + 1)
    else if d.month < 12 then Date(d.year, d.month + 1, 1)
    else Date(d.year + 1, 1, 1)
  }

  lemma LeapCounts(y: nat)
    requires y >= 1
    ensures y / 4 == (y - 1) / 4 + if y % 4 == 0 then 1 else 0
    ensures y / 100 == (y - 1) / 100 + if y % 100 == 0 then 1 else 0
    ensures y / 400 == (y - 1) / 400 + if y % 400 == 0 then 1 else 0
    ensures y % 400 == 0 ==> y % 100 == 0
    ensures y % 100 == 0 ==> y % 4 == 0
  {}

  lemma MonthSums(y: nat)
    ensures DaysBeforeMonth(y, 12) == if Leap(y) then 335 else 334
  {
    assert DaysBeforeMonth(y, 2) == 31;
    assert DaysBeforeMonth(y, 3) == 31 + DaysInMonth(y, 2);
    assert DaysBeforeMonth(y, 5) == DaysBeforeMonth(y, 3) + 61;
    assert DaysBeforeMonth(y, 7) == DaysBeforeMonth(y, 5) + 61;
    assert DaysBeforeMonth(y, 9) == DaysBeforeMonth(y, 7) + 62;
    assert DaysBeforeMonth(y, 11) == DaysBeforeMonth(y, 9) + 61;
  }

  lemma YearLength(y: nat)
    requires y >= 1
    ensures DaysBeforeYear(y + 1) == DaysBeforeYear(y) + DaysBeforeMonth(y, 12) + 31
  {
    LeapCounts(y);
    MonthSums(y);
  }

  lemma NextDayIsNext(d: Date)
    requires ValidDate(d)
    ensures Ordinal(NextDay(d)) == Ordinal(d) + 1
    ensures DateLess(d, NextDay(d))
  {
    YearLength(d.year);
  }

  predicate DateLess(a: Date, b: Date) {
    || a.year < b.year
    || (a.year == b.year && (a.month < b.month || (a.month == b.month && a.day < b.day)))
  }

  function DateOf(n: nat): (d: Date)
    requires n >= 1
    ensures ValidDate(d)
  {
    if n == 1 then Date(1, 1, 1) else NextDay(DateOf(n - 1))
  }

  lemma {:induction false} DateOfInvertsOrdinal(n: nat)
    requires n >= 1
    ensures Ordinal(DateOf(n)) == n
  {
    if n > 1 {
      DateOfInvertsOrdinal(n - 1);
      NextDayIsNext(DateOf(n - 1));
    }
  }

  lemma {:induction false} DateOfIsMonotone(m: nat, n: nat)
    requires 1 <= m < n
    ensures DateLess(DateOf(m), DateOf(n))
  {
    var before, last := DateOf(n - 1), DateOf(n);
    assert last == NextDay(before);
    NextDayIsNext(before);
    if m < n - 1 { DateOfIsMonotone(m, n - 1); }
  }

  function Seconds(c: Civil): int
    requires ValidCivil(c)
  {
    Ordinal(c.date) * 86400 + c.hour * 3600 + c.minute * 60 + c.second
  }

  /** The UTC civil time of a second count: astimezone(timezone.utc). */
  function CivilOf(t: nat): (c: Civil)
    requires t >= 86400
    ensures ValidDate(c.date) && c.hour < 24 && c.minute < 60 && c.second < 60
  {
    var s := t % 86400;
    ClockOf(s);
    Civil(DateOf(t / 86400), s / 3600, s / 60 % 60, s % 60)
  }

  lemma ClockOf(s: nat)
    requires s < 86400
    ensures s / 3600 < 24
    ensures s / 3600 * 3600 + s / 60 % 60 * 60 + s % 60 == s
  {
    assert s / 60 / 60 == s / 3600;
  }

  lemma CivilOfInvertsSeconds(t: nat)
    requires t >= 86400
    ensures var c := CivilOf(t); Ordinal(c.date) * 86400 + c.hour * 3600 + c.minute * 60 + c.second == t
  {
    DateOfInvertsOrdinal(t / 86400);
    ClockOf(t % 86400);
  }

  ghost predicate CivilLess(a: Civil, b: Civil) {
    || DateLess(a.date, b.date)
    || (a.date == b.date && (|| a.hour < b.hour
                             || (a.hour == b.hour && (a.minute < b.minute
                                                      || (a.minute == b.minute && a.second < b.second)))))
  }

  lemma ClockIsMonotone(s: nat, t: nat)
    requires s < t < 86400
    ensures s / 3600 < t / 3600 ||
      (s / 3600 == t / 3600 && (s / 60 % 60 < t / 60 % 60 || (s / 60 % 60 == t / 60 % 60 && s % 60 < t % 60)))
  {
    ClockOf(s);
    ClockOf(t);
  }

  lemma CivilOfIsMonotone(s: nat, t: nat)
    requires 86400 <= s < t
    ensures CivilLess(CivilOf(s), CivilOf(t))
  {
    if s / 86400 < t / 86400 {
      DateOfIsMonotone(s / 86400, t / 86400);
    } else {
      assert s / 86400 == t / 86400 && s % 86400 < t % 86400;
      ClockIsMonotone(s % 86400, t % 86400);
    }
  }

  // ---------------------------------------------------------------- parsing

  const EPOCH := 719163 * 86400   // 1970-01-01T00:00:00Z
  const LAST := 3652060 * 86400   // the first second after year 9999

  datatype Stamp = Stamp(local: Civil, fraction: string, plus: bool, offsetHours: nat, offsetMinutes: nat)
  {
    function Offset(): int {
      var m := offsetHours * 60 + offsetMinutes;
      if plus then m else -m
    }
  }

  datatype Error = BadFormat | BadOffset | BadCivil | OutOfRange

  predicate DateTimeShape(s: string) {
    && |s| == 19
    && s[4] == '-' && s[7] == '-' && s[10] == 'T' && s[13] == ':' && s[16] == ':'
    && AllDigits(s[..4]) && AllDigits(s[5..7]) && AllDigits(s[8..10])
    && AllDigits(s[11..13]) && AllDigits(s[14..16]) && AllDigits(s[17..])
  }

  function ParseDateTime(s: string): Civil
    requires DateTimeShape(s)
  {
    Civil(Date(Value(s[..4]), Value(s[5..7]), Value(s[8..10])),
          Value(s[11..13]), Value(s[14..16]), Value(s[17..]))
  }

  predicate ZoneShape(z: string) {
    z == "Z" || (|z| == 6 && (z[0] == '+' || z[0] == '-') && AllDigits(z[1..3]) && z[3] == ':' && AllDigits(z[4..]))
  }

  /** The length of the leading run of digits. */
  function DigitRun(s: string): (n: nat)
    ensures n <= |s| && AllDigits(s[..n]) && (n < |s| ==> !IsDigit(s[n]))
  {
    if s == "" || !IsDigit(s[0]) then 0
    else
      var n := 1 + DigitRun(s[1..]);
      assert s[..n] == [s[0]] + s[1..][..n - 1];
      n
  }

  /** Full match of the timestamp pattern. */
  function Parse(s: string): (r: Option<Stamp>)
    ensures r.Some? ==> |r.value.fraction| <= 9 && AllDigits(r.value.fraction)
  {
    if |s| < 19 || !DateTimeShape(s[..19]) then None
    else
      var rest := s[19..];
      var dot := rest != "" && rest[0] == '.';
      var n := if dot then DigitRun(rest[1..]) else 0;
      if dot && !(1 <= n <= 9) then None
      else
        var fraction := if dot then rest[1..][..n] else "";
        var zone := if dot then rest[1..][n..] else rest;
        if !ZoneShape(zone) then None
        else if zone == "Z" then Some(Stamp(ParseDateTime(s[..19]), fraction, true, 0, 0))
        else Some(Stamp(ParseDateTime(s[..19]), fraction, zone[0] == '+', Value(zone[1..3]), Value(zone[4..])))
  }

  /** ljust(9, '0') */
  function PadRight(f: string): (r: string)
    requires |f| <= 9 && AllDigits(f)
    ensures |r| == 9 && AllDigits(r)
    decreases 9 - |f|
  {
    if |f| == 9 then f else PadRight(f + "0")
  }

  /** strftime('%Y-%m-%dT%H:%M:%S'); the C library does not pad the year. */
  function Text(c: Civil): string
    requires ValidDate(c.date) && c.hour < 24 && c.minute < 60 && c.second < 60
  {
    assert Pow10(2) == 100;
    Decimal(c.date.year) + (("-" + Padded(c.date.month, 2)) + (("-" + Padded(c.date.day, 2)) +
      (("T" + Padded(c.hour, 2)) + ((":" + Padded(c.minute, 2)) + (":" + Padded(c.second, 2))))))
  }

  function KeyText(t: nat, fraction: string): string
    requires t >= 86400 && |fraction| == 9 && AllDigits(fraction)
  {
    Text(CivilOf(t)) + ("." + fraction + "Z")
  }

  datatype Moment = Moment(key: string, number: real)

  predicate Acceptable(p: Stamp) {
    && |p.fraction| <= 9 && AllDigits(p.fraction)
    && p.offsetHours <= 23 && p.offsetMinutes <= 59 && ValidCivil(p.local)
    && 86400 <= Seconds(p.local) - 60 * p.Offset() < LAST
  }

  /** Local time minus offset, in seconds. */
  function Utc(p: Stamp): (t: nat)
    requires Acceptable(p)
    ensures 86400 <= t < LAST
  {
    Seconds(p.local) - 60 * p.Offset()
  }

  function MomentOf(p: Stamp): Moment
    requires Acceptable(p)
  {
    var fraction := PadRight(p.fraction);
    Moment(KeyText(Utc(p), fraction), (Utc(p) - EPOCH) as real + Value(fraction) as real / 1000000000.0)
  }

  function Normalize(s: string): (r: Result<Moment, Error>)
    ensures r.Success? <==> Parse(s).Some? && Acceptable(Parse(s).value)
  {
    match Parse(s)
    case None => Failure(BadFormat)
    case Some(p) =>
      if p.offsetHours > 23 || p.offsetMinutes > 59 then Failure(BadOffset)
      else if !ValidCivil(p.local) then Failure(BadCivil)
      else if !Acceptable(p) then Failure(OutOfRange)
      else Success(MomentOf(p))
  }

  // ---------------------------------------------------------------- the reference: instants

  /** The instant a stamp denotes, in nanoseconds. */
  ghost function Instant(p: Stamp): int
    requires ValidCivil(p.local) && |p.fraction| <= 9 && AllDigits(p.fraction)
  {
    (Seconds(p.local) - 60 * p.Offset()) * 1000000000 + Value(p.fraction) * Pow10(9 - |p.fraction|)
  }

  lemma {:induction false} PadRightScales(f: string)
    requires |f| <= 9 && AllDigits(f)
    ensures Value(PadRight(f)) == Value(f) * Pow10(9 - |f|)
    decreases 9 - |f|
  {
    if |f| < 9 {
      PadRightScales(f + "0");
      assert (f + "0")[..|f|] == f;
      assert Value(f + "0") == 10 * Value(f);
      Regroup(Value(f), Pow10(8 - |f|));
    }
  }

  lemma Regroup(v: nat, p: nat)
    ensures (10 * v) * p == v * (10 * p)
  {}

  // ---------------------------------------------------------------- text order is civil order

  lemma FieldOrder(sep: string, m: nat, n: nat, x: string, y: string)
    requires m < 100 && n < 100
    ensures Pow10(2) == 100
    ensures var a, b := (sep + Padded(m, 2)) + x, (sep + Padded(n, 2)) + y;
      (Less(a, b) <==> m < n || (m == n && Less(x, y))) && (a == b <==> m == n && x == y)
  {
    assert Pow10(2) == 100;
    var p, q := Padded(m, 2), Padded(n, 2);
    LessOfConcat(sep + p, x, sep + q, y);
    LessOfConcat(sep, p, sep, q);
    LessOfDigits(p, q);
    NotLessItself(sep);
    SplitEqual(sep + p, x, sep + q, y);
    SplitEqual(sep, p, sep, q);
  }

  lemma {:induction false} NotLessItself(s: string)
    ensures !Less(s, s)
  {
    if s != "" { NotLessItself(s[1..]); }
  }

  lemma SplitEqual(p: string, q: string, x: string, y: string)
    requires |p| == |x|
    ensures p + q == x + y <==> p == x && q == y
  {
    if p + q == x + y {
      assert p == (p + q)[..|p|] && x == (x + y)[..|p|];
      assert q == (p + q)[|p|..] && y == (x + y)[|p|..];
    }
  }

  lemma FourDigitYear(y: nat)
    requires 1000 <= y <= 9999
    ensures Pow10(4) == 10000 && Decimal(y) == Padded(y, 4)
  {
    assert Pow10(2) == 100 && Pow10(3) == 1000;
    var a, b, c := y / 10, y / 100, y / 1000;
    assert a / 10 == b && b / 10 == c && 1 <= c < 10;
    assert Decimal(c) == [DigitChar(c)] && Padded(c, 1) == [DigitChar(c)];
    assert Decimal(b) == Padded(b, 2);
    assert Decimal(a) == Padded(a, 3);
  }

  ghost predicate Usual(c: Civil) {
    ValidDate(c.date) && 1000 <= c.date.year <= 9999 && c.hour < 24 && c.minute < 60 && c.second < 60
  }

  function ClockText(c: Civil, x: string): string
    requires c.hour < 24 && c.minute < 60 && c.second < 60
  {
    assert Pow10(2) == 100;
    ("T" + Padded(c.hour, 2)) + ((":" + Padded(c.minute, 2)) + (":" + Padded(c.second, 2) + x))
  }

  /** The time of day orders as hours, then minutes, then seconds, then what follows. */
  lemma ClockOrder(a: Civil, b: Civil, x: string, y: string)
    requires Usual(a) && Usual(b)
    ensures Less(ClockText(a, x), ClockText(b, y)) <==>
      || a.hour < b.hour
      || (a.hour == b.hour && a.minute < b.minute)
      || (a.hour == b.hour && a.minute == b.minute && a.second < b.second)
      || (a.hour == b.hour && a.minute == b.minute && a.second == b.second && Less(x, y))
    ensures ClockText(a, x) == ClockText(b, y) <==>
            a.hour == b.hour && a.minute == b.minute && a.second == b.second && x == y
  {
    var a5, b5 := ":" + Padded(a.second, 2) + x, ":" + Padded(b.second, 2) + y;
    FieldOrder(":", a.second, b.second, x, y);
    var a4, b4 := (":" + Padded(a.minute, 2)) + a5, (":" + Padded(b.minute, 2)) + b5;
    FieldOrder(":", a.minute, b.minute, a5, b5);
    FieldOrder("T", a.hour, b.hour, a4, b4);
  }

  lemma TextOrder(a: Civil, b: Civil, x: string, y: string)
    requires Usual(a) && Usual(b)
    ensures Less(Text(a) + x, Text(b) + y) <==> CivilLess(a, b) || (a == b && Less(x, y))
    ensures Text(a) + x == Text(b) + y <==> a == b && x == y
  {
    var a3, b3 := ClockText(a, x), ClockText(b, y);
    ClockOrder(a, b, x, y);
    var a2, b2 := ("-" + Padded(a.date.day, 2)) + a3, ("-" + Padded(b.date.day, 2)) + b3;
    FieldOrder("-", a.date.day, b.date.day, a3, b3);
    var a1, b1 := ("-" + Padded(a.date.month, 2)) + a2, ("-" + Padded(b.date.month, 2)) + b2;
    FieldOrder("-", a.date.month, b.date.month, a2, b2);
    FourDigitYear(a.date.year);
    FourDigitYear(b.date.year);
    var u, v := Padded(a.date.year, 4), Padded(b.date.year, 4);
    LessOfDigits(u, v);
    LessOfConcat(u, a1, v, b1);
    SplitEqual(u, a1, v, b1);
    assert Text(a) + x == u + a1 by { Unfold(a, x); }
    assert Text(b) + y == v + b1 by { Unfold(b, y); }
  }

  lemma Reassociate(y: string, m: string, d: string, h: string, i: string, s: string, x: string)
    ensures y + (m + (d + (h + (i + s)))) + x == y + (m + (d + (h + (i + (s + x)))))
  {
    assert i + s + x == i + (s + x);
    assert h + (i + s) + x == h + (i + (s + x));
    assert d + (h + (i + s)) + x == d + (h + (i + (s + x)));
  }

  lemma Unfold(c: Civil, x: string)
    requires Usual(c)
    ensures Pow10(2) == 100 && Pow10(4) == 10000
    ensures Text(c) + x ==
      Padded(c.date.year, 4) + (("-" + Padded(c.date.month, 2)) + (("-" + Padded(c.date.day, 2)) +
      (("T" + Padded(c.hour, 2)) + ((":" + Padded(c.minute, 2)) + (":" + Padded(c.second, 2) + x)))))
  {
    FourDigitYear(c.date.year);
    assert Pow10(2) == 100;
    Reassociate(Decimal(c.date.year), "-" + Padded(c.date.month, 2), "-" + Padded(c.date.day, 2),
                "T" + Padded(c.hour, 2),
            ":" + Padded(c.minute, 2), ":" + Padded(c.second, 2), x);
  }

  // ---------------------------------------------------------------- the order embedding

  function UtcYear(p: Stamp): nat
    requires Acceptable(p)
  {
    CivilOf(Utc(p)).date.year
  }

  lemma {:induction false} YearsGrow(y: nat, z: nat)
    requires 1 <= y < z
    ensures DaysBeforeYear(y + 1) <= DaysBeforeYear(z)
  {
    if y + 1 < z {
      YearsGrow(y, z - 1);
      YearLength(z - 1);
    }
  }

  lemma {:induction false} MonthsGrow(y: nat, m: nat, n: nat)
    requires 1 <= m < n <= 12
    ensures DaysBeforeMonth(y, m) + DaysInMonth(y, m) <= DaysBeforeMonth(y, n)
  {
    if m + 1 < n { MonthsGrow(y, m, n - 1); }
  }

  lemma OrdinalIsMonotone(a: Date, b: Date)
    requires ValidDate(a) && ValidDate(b) && DateLess(a, b)
    ensures Ordinal(a) < Ordinal(b)
  {
    if a.year < b.year {
      YearLength(a.year);
      if a.month < 12 { MonthsGrow(a.year, a.month, 12); }
      YearsGrow(a.year, b.year);
    } else if a.month < b.month {
      MonthsGrow(a.year, a.month, b.month);
    }
  }

  lemma DateOfOrdinal(d: Date)
    requires ValidDate(d)
    ensures Ordinal(d) >= 1 && DateOf(Ordinal(d)) == d
  {
    var e := DateOf(Ordinal(d));
    DateOfInvertsOrdinal(Ordinal(d));
    if DateLess(d, e) { OrdinalIsMonotone(d, e); }
    if DateLess(e, d) { OrdinalIsMonotone(e, d); }
  }

  lemma ClockBack(n: nat, h: nat, m: nat, s: nat)
    requires h < 24 && m < 60 && s < 60
    ensures var t := n * 86400 + h * 3600 + m * 60 + s;
            t / 86400 == n && t % 86400 / 3600 == h && t % 86400 / 60 % 60 == m && t % 86400 % 60 == s
  {
    var r := h * 3600 + m * 60 + s;
    assert (n * 86400 + r) / 86400 == n && (n * 86400 + r) % 86400 == r;
    assert r / 60 == h * 60 + m && r % 60 == s && r / 3600 == h;
  }

  lemma CivilOfParts(t: nat, n: nat, h: nat, m: nat, s: nat)
    requires n >= 1 && h < 24 && m < 60 && s < 60 && t == n * 86400 + h * 3600 + m * 60 + s
    ensures CivilOf(t) == Civil(DateOf(n), h, m, s)
  {
    ClockBack(n, h, m, s);
  }

  lemma CivilOfSeconds(c: Civil)
    requires ValidCivil(c)
    ensures Seconds(c) >= 86400 && CivilOf(Seconds(c)) == c
  {
    DateOfOrdinal(c.date);
    CivilOfParts(Seconds(c), Ordinal(c.date), c.hour, c.minute, c.second);
  }

  lemma LateDate(d: Date)
    requires ValidDate(d) && d.year >= 10000
    ensures Ordinal(d) >= 3652060
  {
    assert DaysBeforeYear(10000) == 3652059;
    if d.year > 10000 { YearsGrow(9999, d.year); }
  }

  lemma YearInRange(t: nat)
    requires 86400 <= t < LAST
    ensures CivilOf(t).date.year <= 9999
  {
    var d := CivilOf(t).date;
    DateOfInvertsOrdinal(t / 86400);
    if d.year >= 10000 { LateDate(d); }
  }

  /** The instant, read off the parts the key is made of. */
  lemma InstantParts(p: Stamp)
    requires Acceptable(p)
    ensures var f := PadRight(p.fraction);
      Instant(p) == Utc(p) * 1000000000 + Value(f) && Value(f) < 1000000000
  {
    PadRightScales(p.fraction);
    assert Pow10(3) == 1000 && Pow10(6) == 1000000 && Pow10(9) == 1000000000;
  }

  lemma StampsOrder(p: Stamp, q: Stamp)
    requires Acceptable(p) && Acceptable(q) && UtcYear(p) >= 1000 && UtcYear(q) >= 1000
    ensures MomentOf(p).key == MomentOf(q).key <==> Instant(p) == Instant(q)
    ensures Less(MomentOf(p).key, MomentOf(q).key) <==> Instant(p) < Instant(q)
  {
    InstantParts(p);
    InstantParts(q);
    KeyOrder(Utc(p), PadRight(p.fraction), Utc(q), PadRight(q.fraction));
  }

  /**
   Two accepted timestamps, with any offsets and fractions, get equal keys exactly when they denote the
   same instant; string order of the keys is the order of the instants.
   */
  lemma KeysOrderInstants(a: string, b: string)
    requires Normalize(a).Success? && Normalize(b).Success?
    requires UtcYear(Parse(a).value) >= 1000 && UtcYear(Parse(b).value) >= 1000
    ensures var s, t := Instant(Parse(a).value), Instant(Parse(b).value);
      && (Normalize(a).value.key == Normalize(b).value.key <==> s == t)
      && (Less(Normalize(a).value.key, Normalize(b).value.key) <==> s < t)
  {
    StampsOrder(Parse(a).value, Parse(b).value);
  }

  lemma KeyOrder(s: nat, f: string, t: nat, g: string)
    requires 86400 <= s < LAST && 86400 <= t < LAST
    requires |f| == |g| == 9 && AllDigits(f) && AllDigits(g)
    requires CivilOf(s).date.year >= 1000 && CivilOf(t).date.year >= 1000
    ensures Less(KeyText(s, f), KeyText(t, g)) <==> s < t || (s == t && Value(f) < Value(g))
    ensures KeyText(s, f) == KeyText(t, g) <==> s == t && Value(f) == Value(g)
  {
    var x, y := "." + f + "Z", "." + g + "Z";
    YearInRange(s);
    YearInRange(t);
    TextOrder(CivilOf(s), CivilOf(t), x, y);
    FractionOrder(f, g);
    if s < t { CivilOfIsMonotone(s, t); }
    if t < s { CivilOfIsMonotone(t, s); }
  }

  lemma FractionOrder(f: string, g: string)
    requires |f| == |g| == 9 && AllDigits(f) && AllDigits(g)
    ensures Less("." + f + "Z", "." + g + "Z") <==> Value(f) < Value(g)
    ensures "." + f + "Z" == "." + g + "Z" <==> Value(f) == Value(g)
  {
    LessOfConcat("." + f, "Z", "." + g, "Z");
    LessOfConcat(".", f, ".", g);
    LessOfDigits(f, g);
    SplitEqual("." + f, "Z", "." + g, "Z");
    SplitEqual(".", f, ".", g);
    NotLessItself("Z");
    NotLessItself(".");
  }

  /** The second component is the instant in seconds since 1970. */
  lemma NumberIsInstant(p: Stamp)
    requires Acceptable(p)
    ensures MomentOf(p).number * 1000000000.0 == (Instant(p) - EPOCH * 1000000000) as real
  {
    InstantParts(p);
    Scale(Utc(p) - EPOCH, Value(PadRight(p.fraction)));
  }

  lemma Scale(t: int, v: int)
    ensures (t as real + v as real / 1000000000.0) * 1000000000.0 == (t * 1000000000 + v) as real
  {}

  // ---------------------------------------------------------------- below the year 1000

  /** String order is time order among all accepted timestamps of UTC year m or later. */
  ghost predicate OrdersFrom(m: nat) {
    forall p, q {:trigger Ordered(p, q)} ::
      Acceptable(p) && Acceptable(q) && UtcYear(p) >= m && UtcYear(q) >= m ==> Ordered(p, q)
  }

  lemma OrdinalRange(d: Date)
    requires ValidDate(d) && d.year <= 9999
    ensures 1 <= Ordinal(d) < 3652060
  {
    YearLength(9999);
    assert DaysBeforeYear(10000) == 3652059 && Ordinal(Date(9999, 12, 31)) == 3652059;
    if d != Date(9999, 12, 31) { OrdinalIsMonotone(d, Date(9999, 12, 31)); }
  }

  function NewYear(year: nat): Stamp { Stamp(Civil(Date(year, 1, 1), 0, 0, 0), "", true, 0, 0) }

  lemma CivilOfMidnight(t: nat, n: nat)
    requires n >= 1 && t == n * 86400
    ensures CivilOf(t) == Civil(DateOf(n), 0, 0, 0)
  {
    assert t / 86400 == n && t % 86400 == 0;
  }

  lemma NewYearIsUtc(year: nat)
    requires 1 <= year <= 9999
    ensures Acceptable(NewYear(year)) && Utc(NewYear(year)) == Ordinal(Date(year, 1, 1)) * 86400
    ensures CivilOf(Utc(NewYear(year))) == NewYear(year).local
  {
    var d := Date(year, 1, 1);
    OrdinalRange(d);
    DateOfOrdinal(d);
    CivilOfMidnight(Utc(NewYear(year)), Ordinal(d));
  }

  /** The C library writes year 999 with three digits, so all of it sorts after year 1000. */
  lemma ShortYearSortsWrong(p: Stamp, q: Stamp)
    requires Acceptable(p) && Acceptable(q) && UtcYear(p) == 999 && UtcYear(q) == 1000
    ensures Instant(p) < Instant(q) && Less(MomentOf(q).key, MomentOf(p).key) && !Less(MomentOf(p).key, MomentOf(q).key)
  {
    InstantParts(p);
    InstantParts(q);
    EarlierYearFirst(p, q);
    FirstDigits(CivilOf(Utc(p)), CivilOf(Utc(q)));
  }

  lemma EarlierYearFirst(p: Stamp, q: Stamp)
    requires Acceptable(p) && Acceptable(q) && UtcYear(p) < UtcYear(q)
    ensures Utc(p) < Utc(q)
  {
    if Utc(q) < Utc(p) { CivilOfIsMonotone(Utc(q), Utc(p)); }
  }

  lemma FirstDigits(a: Civil, b: Civil)
    requires ValidDate(a.date) && a.hour < 24 && a.minute < 60 && a.second < 60
    requires ValidDate(b.date) && b.hour < 24 && b.minute < 60 && b.second < 60
    requires a.date.year == 999 && b.date.year == 1000
    ensures forall x, y :: Less(Text(b) + y, Text(a) + x)
    ensures forall x, y :: !Less(Text(a) + x, Text(b) + y)
  {
    assert Decimal(9) == "9" && Decimal(99)[0] == '9' && Decimal(999)[0] == '9';
    assert Decimal(1) == "1" && Decimal(10)[0] == '1' && Decimal(100)[0] == '1' && Decimal(1000)[0] == '1';
    forall x, y ensures Less(Text(b) + y, Text(a) + x) && !Less(Text(a) + x, Text(b) + y) {
      assert (Text(a) + x)[0] == '9' && (Text(b) + y)[0] == '1';
    }
  }

  ghost predicate Ordered(p: Stamp, q: Stamp)
    requires Acceptable(p) && Acceptable(q)
  {
    Less(MomentOf(p).key, MomentOf(q).key) <==> Instant(p) < Instant(q)
  }

  lemma SomeStampOf(year: nat) returns (p: Stamp)
    requires 1 <= year <= 9999
    ensures Acceptable(p) && UtcYear(p) == year
  {
    p := NewYear(year);
    NewYearIsUtc(year);
  }

  /** The embedding holds from year m on exactly when m is at least 1000. */
  lemma OrderHoldsFrom1000(m: nat)
    ensures OrdersFrom(m) <==> m >= 1000
  {
    if m >= 1000 {
      forall p, q | Acceptable(p) && Acceptable(q) && UtcYear(p) >= m && UtcYear(q) >= m ensures Ordered(p, q) {
        StampsOrder(p, q);
      }
    } else {
      var p := SomeStampOf(999);
      var q := SomeStampOf(1000);
      ShortYearSortsWrong(p, q);
      assert !Ordered(p, q);
    }
  }
}
