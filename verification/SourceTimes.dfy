/**
 Source times and UTC texts (ai-ops/src/ai_ops/evidence.py:41-64): the laws that normalising evidence
 rests on hold of them, and where a time that reads well leaves the years a UTC time can be written in.
 */
module SourceTimes {
  import opened Wrappers
  import A = AlertTime
  import opened Evidence
  import opened CapturedLaws

  // ---- UTC texts ----

  /** Calendar date and clock, always with a four-digit year. */
  function DateTimeText(c: A.Civil): (s: string)
    requires A.ValidCivil(c)
  {
    assert A.Pow10(2) == 100 && A.Pow10(4) == 10000;
    A.Padded(c.date.year, 4) + "-" + A.Padded(c.date.month, 2) + "-" + A.Padded(c.date.day, 2)
    + "T" + A.Padded(c.hour, 2) + ":" + A.Padded(c.minute, 2) + ":" + A.Padded(c.second, 2)
  }

  function SecondsOf(t: int): nat
    requires InRange(t)
  {
    t / 1000000
  }

  lemma CivilIsValid(t: int)
    requires InRange(t)
    ensures 86400 <= SecondsOf(t) < A.LAST && A.ValidCivil(A.CivilOf(SecondsOf(t)))
  {
    A.YearInRange(SecondsOf(t));
  }

  /** The fraction is left out when it is zero. */
  function FractionText(micro: nat): string
    requires micro < 1000000
  {
    assert A.Pow10(3) == 1000 && A.Pow10(6) == 1000000;
    if micro == 0 then "" else "." + A.Padded(micro, 6)
  }

  function CivilAt(t: int): (c: A.Civil)
    requires InRange(t)
    ensures A.ValidCivil(c)
  {
    CivilIsValid(t);
    A.CivilOf(SecondsOf(t))
  }

  function CivilText(c: A.Civil, micro: nat): string
    requires A.ValidCivil(c) && micro < 1000000
  {
    DateTimeText(c) + (FractionText(micro) + "Z")
  }

  function UtcText(t: int): string { if !InRange(t) then "" else CivilText(CivilAt(t), t % 1000000) }

  // ---- source times ----

  /** Digits beyond the sixth are dropped. */
  function Micro(fraction: string): nat
    requires A.AllDigits(fraction)
  {
    if |fraction| >= 6 then A.Value(fraction[..6]) else A.Value(fraction) * A.Pow10(6 - |fraction|)
  }

  function ZoneMinutes(zone: string): int
    requires A.ZoneShape(zone)
  {
    if zone == "Z" then 0
    else
      var m := A.Value(zone[1..3]) * 60 + A.Value(zone[4..]);
      if zone[0] == '-' then -m else m
  }

  const FARTHEST := 14 * 60

  /** A full timestamp with an explicit offset of at most 14 hours. */
  function Parse(s: string): Option<Stamp> {
    if |s| < 19 || !A.DateTimeShape(s[..19]) then None else ParseRest(A.ParseDateTime(s[..19]), s[19..])
  }

  function ParseRest(civil: A.Civil, rest: string): Option<Stamp> {
    var dot := rest != "" && rest[0] == '.';
    var n := if dot then A.DigitRun(rest[1..]) else 0;
    var zone := if dot then rest[1..][n..] else rest;
    if (dot && n == 0) || !A.ZoneShape(zone) || !A.ValidCivil(civil) || !(-FARTHEST <= ZoneMinutes(zone) <= FARTHEST)
    then None
    else
      Some(Stamp((A.Seconds(civil) - 60 * ZoneMinutes(zone)) * 1000000 + Micro(if dot then rest[1..][..n] else ""),
                 zone))
  }

  // ---- a UTC text reads back ----

  /** A text made of two parts of known length comes apart again. */
  lemma Cut(a: string, b: string)
    ensures (a + b)[..|a|] == a && (a + b)[|a|..] == b
  {
  }

  /** The clock half, from the T on. */
  lemma ClockParts(front: string, h: string, i: string, s: string)
    requires |front| == 10 && |h| == |i| == |s| == 2
    ensures var t := front + "T" + h + ":" + i + ":" + s;
            && |t| == 19 && t[..10] == front && t[10] == 'T' && t[13] == ':' && t[16] == ':'
            && t[11..13] == h && t[14..16] == i && t[17..] == s
  {
  }

  lemma DateParts(y: string, m: string, d: string)
    requires |y| == 4 && |m| == |d| == 2
    ensures var t := y + "-" + m + "-" + d;
            |t| == 10 && t[4] == '-' && t[7] == '-' && t[..4] == y && t[5..7] == m && t[8..10] == d
  {
  }

  /** The date half, in the longer text. */
  lemma DatePartsStay(t: string, front: string)
    requires |t| == 19 && |front| == 10 && t[..10] == front
    ensures t[4] == front[4] && t[7] == front[7]
    ensures t[..4] == front[..4] && t[5..7] == front[5..7] && t[8..10] == front[8..10]
  {
    assert forall i :: 0 <= i < 10 ==> t[..10][i] == t[i];
  }

  lemma DateTimeReads(c: A.Civil)
    requires A.ValidCivil(c)
    ensures var s := DateTimeText(c); |s| == 19 && A.DateTimeShape(s) && A.ParseDateTime(s) == c
  {
    assert A.Pow10(2) == 100 && A.Pow10(4) == 10000;
    var y, m, d := A.Padded(c.date.year, 4), A.Padded(c.date.month, 2), A.Padded(c.date.day, 2);
    var front := y + "-" + m + "-" + d;
    DateParts(y, m, d);
    ClockParts(front, A.Padded(c.hour, 2), A.Padded(c.minute, 2), A.Padded(c.second, 2));
    DatePartsStay(DateTimeText(c), front);
  }

  lemma {:induction false} RunOfDigits(f: string, rest: string)
    requires A.AllDigits(f) && rest != "" && !A.IsDigit(rest[0])
    ensures A.DigitRun(f + rest) == |f|
  {
    if f == "" {
      assert f + rest == rest;
    } else {
      assert (f + rest)[1..] == f[1..] + rest;
      RunOfDigits(f[1..], rest);
    }
  }

  lemma FractionReads(civil: A.Civil, micro: nat, t: int)
    requires A.ValidCivil(civil) && micro < 1000000 && A.Seconds(civil) * 1000000 + micro == t
    ensures ParseRest(civil, FractionText(micro) + "Z") == Some(Stamp(t, "Z")) && |FractionText(micro)| in {0, 7}
  {
    var rest := FractionText(micro) + "Z";
    if micro == 0 {
      assert rest == "Z";
    } else {
      assert A.Pow10(3) == 1000 && A.Pow10(6) == 1000000;
      var f := A.Padded(micro, 6);
      assert rest[1..] == f + "Z";
      RunOfDigits(f, "Z");
      assert (f + "Z")[..6] == f && (f + "Z")[6..] == "Z" && f[..6] == f;
    }
  }

  lemma ParseJoined(front: string, civil: A.Civil, rest: string, p: Stamp)
    requires |front| == 19 && A.DateTimeShape(front) && A.ParseDateTime(front) == civil
             && ParseRest(civil, rest) == Some(p)
    ensures Parse(front + rest) == Some(p)
  {
    Cut(front, rest);
  }

  lemma SecondsBack(t: int)
    requires InRange(t)
    ensures A.Seconds(CivilAt(t)) * 1000000 + t % 1000000 == t
  {
    A.CivilOfInvertsSeconds(SecondsOf(t));
  }

  lemma CivilTextReads(c: A.Civil, micro: nat, t: int)
    requires A.ValidCivil(c) && micro < 1000000 && A.Seconds(c) * 1000000 + micro == t
    ensures Parse(CivilText(c, micro)) == Some(Stamp(t, "Z")) && 20 <= |CivilText(c, micro)| <= 27
  {
    DateTimeReads(c);
    FractionReads(c, micro, t);
    ParseJoined(DateTimeText(c), c, FractionText(micro) + "Z", Stamp(t, "Z"));
  }

  lemma UtcTextReads(t: int)
    requires InRange(t)
    ensures Parse(UtcText(t)) == Some(Stamp(t, "Z")) && 20 <= |UtcText(t)| <= 27
  {
    SecondsBack(t);
    CivilTextReads(CivilAt(t), t % 1000000, t);
  }

  // ---- a time with any offset reads as its instant ----

  /** A sign, two digits of hours, a colon, two digits of minutes. */
  predicate ZoneSays(zone: string, ahead: bool, hours: nat, minutes: nat) {
    && |zone| == 6 && zone[0] == (if ahead then '+' else '-') && zone[3] == ':'
    && A.AllDigits(zone[1..3]) && A.AllDigits(zone[4..])
    && A.Value(zone[1..3]) == hours && A.Value(zone[4..]) == minutes
  }

  /** Minutes ahead of UTC. */
  function Offset(ahead: bool, hours: nat, minutes: nat): int {
    if ahead then 60 * hours + minutes else -60 * hours - minutes
  }

  /** What its sign and digits say are the minutes a time is ahead of UTC. */
  lemma ZoneSaysOffset(zone: string, ahead: bool, hours: nat, minutes: nat)
    requires ZoneSays(zone, ahead, hours, minutes)
    ensures A.ZoneShape(zone) && ZoneMinutes(zone) == Offset(ahead, hours, minutes)
  {
  }

  function Fraction(digits: string): string { if digits == "" then "" else "." + digits }

  lemma PlainRestReads(civil: A.Civil, zone: string)
    requires A.ValidCivil(civil) && A.ZoneShape(zone) && |zone| == 6 && -FARTHEST <= ZoneMinutes(zone) <= FARTHEST
    ensures ParseRest(civil, zone) == Some(Stamp((A.Seconds(civil) - 60 * ZoneMinutes(zone)) * 1000000, zone))
  {
    assert A.Value("") == 0 && Micro("") == 0;
  }

  lemma FractionRestReads(civil: A.Civil, digits: string, zone: string)
    requires A.ValidCivil(civil) && A.AllDigits(digits) && digits != "" && A.ZoneShape(zone) && |zone| == 6
    requires -FARTHEST <= ZoneMinutes(zone) <= FARTHEST
    ensures ParseRest(civil, "." + (digits + zone))
            == Some(Stamp((A.Seconds(civil) - 60 * ZoneMinutes(zone)) * 1000000 + Micro(digits), zone))
  {
    var rest := "." + (digits + zone);
    assert rest[1..] == digits + zone;
    RunOfDigits(digits, zone);
    Cut(digits, zone);
  }

  lemma RestReads(civil: A.Civil, digits: string, zone: string)
    requires A.ValidCivil(civil) && A.AllDigits(digits) && A.ZoneShape(zone) && |zone| == 6
    requires -FARTHEST <= ZoneMinutes(zone) <= FARTHEST
    ensures ParseRest(civil, Fraction(digits) + zone)
            == Some(Stamp((A.Seconds(civil) - 60 * ZoneMinutes(zone)) * 1000000 + Micro(digits), zone))
  {
    if digits == "" {
      PlainRestReads(civil, zone);
      assert Fraction(digits) + zone == zone && Micro("") == 0;
    } else {
      FractionRestReads(civil, digits, zone);
      assert Fraction(digits) + zone == "." + (digits + zone);
    }
  }

  /** A time reads as the instant that many minutes before its own clock, and its offset is kept as it was written. */
  lemma ZonedReads(c: A.Civil, digits: string, zone: string)
    requires A.ValidCivil(c) && A.AllDigits(digits) && A.ZoneShape(zone) && |zone| == 6
    requires -FARTHEST <= ZoneMinutes(zone) <= FARTHEST
    ensures Parse(DateTimeText(c) + (Fraction(digits) + zone))
            == Some(Stamp((A.Seconds(c) - 60 * ZoneMinutes(zone)) * 1000000 + Micro(digits), zone))
  {
    DateTimeReads(c);
    RestReads(c, digits, zone);
    ParseJoined(DateTimeText(c), c, Fraction(digits) + zone,
                Stamp((A.Seconds(c) - 60 * ZoneMinutes(zone)) * 1000000 + Micro(digits), zone));
  }

  /** Digits count as microseconds, and those beyond the sixth not at all. */
  lemma MicroOfDigits(n: nat, width: nat, more: string)
    requires width <= 6 && n < A.Pow10(width) && A.AllDigits(more) && (width < 6 ==> more == "")
    ensures A.AllDigits(A.Padded(n, width) + more)
    ensures Micro(A.Padded(n, width) + more) == n * A.Pow10(6 - width)
  {
    var f := A.Padded(n, width);
    if width == 6 {
      Cut(f, more);
      assert A.Pow10(0) == 1;
    } else {
      assert f + more == f;
    }
  }

  // ---- the characters of times ----

  predicate TimeChar(c: char) { A.IsDigit(c) || c in "-T:.Z+" }

  predicate TimeChars(s: string) { forall i :: 0 <= i < |s| ==> TimeChar(s[i]) }

  lemma DateTimeChars(s: string)
    requires A.DateTimeShape(s)
    ensures TimeChars(s)
  {
    forall i | 0 <= i < |s| ensures TimeChar(s[i]) {
      if 0 <= i < 4 { assert s[..4][i] == s[i]; }
      else if 5 <= i < 7 { assert s[5..7][i - 5] == s[i]; }
      else if 8 <= i < 10 { assert s[8..10][i - 8] == s[i]; }
      else if 11 <= i < 13 { assert s[11..13][i - 11] == s[i]; }
      else if 14 <= i < 16 { assert s[14..16][i - 14] == s[i]; }
      else if 17 <= i { assert s[17..][i - 17] == s[i]; }
    }
  }

  lemma ZoneChars(z: string)
    requires A.ZoneShape(z)
    ensures TimeChars(z)
  {
    forall i | 0 <= i < |z| ensures TimeChar(z[i]) {
      if |z| == 6 {
        if 1 <= i < 3 { assert z[1..3][i - 1] == z[i]; }
        if 4 <= i { assert z[4..][i - 4] == z[i]; }
      }
    }
  }

  lemma RestChars(civil: A.Civil, rest: string)
    requires ParseRest(civil, rest).Some?
    ensures TimeChars(rest)
  {
    if rest != "" && rest[0] == '.' {
      var n := A.DigitRun(rest[1..]);
      ZoneChars(rest[1..][n..]);
      forall i | 0 <= i < |rest| ensures TimeChar(rest[i]) {
        if 1 <= i <= n { assert rest[1..][..n][i - 1] == rest[i]; }
        if n < i { assert rest[1..][n..][i - 1 - n] == rest[i]; }
      }
    } else {
      ZoneChars(rest);
    }
  }

  lemma ReadTimeChars(s: string)
    requires Parse(s).Some?
    ensures TimeChars(s)
  {
    DateTimeChars(s[..19]);
    RestChars(A.ParseDateTime(s[..19]), s[19..]);
    forall i | 0 <= i < |s| ensures TimeChar(s[i]) {
      if i < 19 { assert s[..19][i] == s[i]; } else { assert s[19..][i - 19] == s[i]; }
    }
  }

  lemma UtcTextIsShort(t: int)
    requires InRange(t)
    ensures Parse(UtcText(t)) == Some(Stamp(t, "Z")) && ' ' !in UtcText(t) && |UtcText(t)| <= 64
  {
    UtcTextReads(t);
    ReadTimeIsPlain(UtcText(t));
  }

  lemma ReadTimeIsPlain(s: string)
    requires Parse(s).Some?
    ensures '[' !in s && ' ' !in s
  {
    ReadTimeChars(s);
    TimeCharsArePlain(s);
  }

  lemma TimeCharsArePlain(s: string)
    requires TimeChars(s)
    ensures '[' !in s && ' ' !in s
  {
  }

  /** The program's own times are as the laws ask. */
  lemma SourceTimesAreLawful()
    ensures TimesLawful(Parse, UtcText)
  {
    forall t {:trigger UtcText(t)} | InRange(t)
      ensures Parse(UtcText(t)) == Some(Stamp(t, "Z")) && ' ' !in UtcText(t) && |UtcText(t)| <= 64 {
      UtcTextIsShort(t);
    }
    forall s {:trigger Parse(s)} | Parse(s).Some? ensures '[' !in s {
      ReadTimeIsPlain(s);
    }
  }

  // ---- texts whose instant no UTC time can hold ----

  function TimeOfDay(c: A.Civil): nat { c.hour * 3600 + c.minute * 60 + c.second }

  predicate FirstDay(d: A.Date) { d.year == 1 && d.month == 1 && d.day == 1 }

  predicate LastDay(d: A.Date) { d.year == 9999 && d.month == 12 && d.day == 31 }

  /** The offset carries the first day before itself, or the last day past itself. */
  predicate Leaves(c: A.Civil, zone: string)
    requires A.ZoneShape(zone)
  {
    || (FirstDay(c.date) && TimeOfDay(c) < 60 * ZoneMinutes(zone))
    || (LastDay(c.date) && TimeOfDay(c) - 60 * ZoneMinutes(zone) >= 86400)
  }

  lemma ReadOffset(s: string, p: Stamp)
    requires Parse(s) == Some(p)
    ensures |s| >= 19 && A.DateTimeShape(s[..19]) && A.ValidCivil(A.ParseDateTime(s[..19]))
    ensures A.ZoneShape(p.offset) && -FARTHEST <= ZoneMinutes(p.offset) <= FARTHEST
    ensures var at := A.Seconds(A.ParseDateTime(s[..19])) - 60 * ZoneMinutes(p.offset);
            at * 1000000 <= p.at < (at + 1) * 1000000
  {
    var rest := s[19..];
    if rest != "" && rest[0] == '.' { MicroIsSmall(rest[1..][..A.DigitRun(rest[1..])]); } else { MicroIsSmall(""); }
  }

  lemma MicroIsSmall(fraction: string)
    requires A.AllDigits(fraction)
    ensures Micro(fraction) < 1000000
  {
    assert A.Pow10(3) == 1000 && A.Pow10(6) == 1000000;
    if |fraction| < 6 { PowersMultiply(|fraction|, 6 - |fraction|, A.Value(fraction)); }
  }

  lemma {:induction false} PowersMultiply(m: nat, n: nat, v: nat)
    requires v < A.Pow10(m)
    ensures v * A.Pow10(n) < A.Pow10(m + n)
  {
    if n > 0 {
      PowersMultiply(m, n - 1, v);
      A.Regroup(v, A.Pow10(n - 1));
      assert v * A.Pow10(n) == 10 * (v * A.Pow10(n - 1)) && A.Pow10(m + n) == 10 * A.Pow10(m + n - 1);
    }
  }

  lemma FirstOrdinal(d: A.Date)
    requires FirstDay(d)
    ensures A.ValidDate(d) && A.Ordinal(d) == 1
  {
  }

  lemma LastOrdinal(d: A.Date)
    requires LastDay(d)
    ensures A.ValidDate(d) && A.Ordinal(d) == 3652059
  {
    A.YearLength(9999);
  }

  lemma OrdinalOne(d: A.Date)
    requires A.ValidDate(d) && A.Ordinal(d) == 1
    ensures d == A.DateOf(1)
  {
    A.DateOfOrdinal(d);
  }

  lemma OrdinalOneIsFirst(d: A.Date)
    requires A.ValidDate(d) && A.Ordinal(d) == 1
    ensures FirstDay(d)
  {
    OrdinalOne(d);
  }

  lemma FirstDayTells(d: A.Date)
    requires A.ValidDate(d)
    ensures A.Ordinal(d) == 1 <==> FirstDay(d)
  {
    if FirstDay(d) { FirstOrdinal(d); } else if A.Ordinal(d) == 1 { OrdinalOneIsFirst(d); }
  }

  lemma LastDayTells(d: A.Date, last: A.Date)
    requires A.ValidDate(d) && LastDay(last)
    ensures A.Ordinal(d) == 3652059 <==> LastDay(d)
  {
    LastOrdinal(last);
    A.DateOfOrdinal(last);
    A.DateOfOrdinal(d);
    if LastDay(d) { LastOrdinal(d); }
  }

  lemma DaysLeave(n: nat, clock: nat, minutes: int)
    requires 1 <= n <= 3652059 && clock < 86400 && -FARTHEST <= minutes <= FARTHEST
    ensures !(86400 <= n * 86400 + clock - 60 * minutes < A.LAST)
            <==> (n == 1 && clock < 60 * minutes) || (n == 3652059 && clock - 60 * minutes >= 86400)
  {
  }

  lemma SecondsAre(c: A.Civil)
    requires A.ValidCivil(c)
    ensures A.Seconds(c) == A.Ordinal(c.date) * 86400 + TimeOfDay(c) && TimeOfDay(c) < 86400
    ensures 1 <= A.Ordinal(c.date) <= 3652059
  {
    A.OrdinalRange(c.date);
  }

  /** Which edge of the calendar a day is, if any. */
  lemma EdgeDays(d: A.Date, n: nat)
    requires A.ValidDate(d) && n == A.Ordinal(d)
    ensures (n == 1 <==> FirstDay(d)) && (n == 3652059 <==> LastDay(d))
  {
    FirstDayTells(d);
    LastDayTells(d, A.Date(9999, 12, 31));
  }

  lemma EdgesLeave(c: A.Civil, zone: string, n: nat)
    requires A.ZoneShape(zone) && -FARTHEST <= ZoneMinutes(zone) <= FARTHEST && TimeOfDay(c) < 86400
             && 1 <= n <= 3652059
    requires (n == 1 <==> FirstDay(c.date)) && (n == 3652059 <==> LastDay(c.date))
    ensures !(86400 <= n * 86400 + TimeOfDay(c) - 60 * ZoneMinutes(zone) < A.LAST) <==> Leaves(c, zone)
  {
    DaysLeave(n, TimeOfDay(c), ZoneMinutes(zone));
  }

  lemma DayNumber(c: A.Civil) returns (n: nat)
    requires A.ValidCivil(c)
    ensures A.Seconds(c) == n * 86400 + TimeOfDay(c) && n == A.Ordinal(c.date) && 1 <= n <= 3652059
            && TimeOfDay(c) < 86400
  {
    SecondsAre(c);
    n := A.Ordinal(c.date);
  }

  lemma EdgesOf(c: A.Civil, zone: string, n: nat)
    requires A.ValidDate(c.date) && n == A.Ordinal(c.date) && 1 <= n <= 3652059 && TimeOfDay(c) < 86400
    requires A.ZoneShape(zone) && -FARTHEST <= ZoneMinutes(zone) <= FARTHEST
    ensures !(86400 <= n * 86400 + TimeOfDay(c) - 60 * ZoneMinutes(zone) < A.LAST) <==> Leaves(c, zone)
  {
    EdgeDays(c.date, n);
    EdgesLeave(c, zone, n);
  }

  /** In seconds: only an offset on the first or the last day leads out of the years 1 to 9999. */
  lemma SecondsLeave(c: A.Civil, zone: string, at: int)
    requires A.ValidCivil(c) && A.ZoneShape(zone) && -FARTHEST <= ZoneMinutes(zone) <= FARTHEST
    requires at == A.Seconds(c) - 60 * ZoneMinutes(zone)
    ensures !(86400 <= at < A.LAST) <==> Leaves(c, zone)
  {
    var n := DayNumber(c);
    EdgesOf(c, zone, n);
  }

  /** A text that reads well, and leaves the range by its date and offset. */
  predicate TooFar(s: string) {
    && |s| >= 19 && A.DateTimeShape(s[..19]) && Parse(s).Some? && A.ZoneShape(Parse(s).value.offset)
    && Leaves(A.ParseDateTime(s[..19]), Parse(s).value.offset)
  }

  /**
   What a text that reads well denotes is out of range exactly when its date is the first or the last of
   the calendar and its offset carries it over.
   */
  lemma OutOfRangeExactly(s: string)
    requires Parse(s).Some?
    ensures !InRange(Parse(s).value.at) <==> TooFar(s)
  {
    var p := Parse(s).value;
    ReadOffset(s, p);
    var c := A.ParseDateTime(s[..19]);
    SecondsLeave(c, p.offset, A.Seconds(c) - 60 * ZoneMinutes(p.offset));
  }

  const TOO_EARLY: string := MIDNIGHT + ZONE
  const MIDNIGHT: string := "0001-01-01T00:00:00"
  const ZONE: string := "+14:00"

  lemma SmallValues()
    ensures A.Value("00") == 0 && A.Value("01") == 1 && A.Value("14") == 14 && A.Value("0001") == 1 && A.Value("") == 0
  {
    assert "00"[..1] == "0" && "01"[..1] == "0" && "14"[..1] == "1" && "0"[..0] == "" && "1"[..0] == "";
    assert A.Value("0") == 0 && A.Value("1") == 1;
    assert "0001"[..3] == "000" && "000"[..2] == "00";
    assert A.Value("00") == 0 && A.Value("000") == 0;
  }

  lemma MidnightParts()
    ensures |MIDNIGHT| == 19 && MIDNIGHT[..4] == "0001" && MIDNIGHT[5..7] == "01" && MIDNIGHT[8..10] == "01"
    ensures MIDNIGHT[11..13] == "00" && MIDNIGHT[14..16] == "00" && MIDNIGHT[17..] == "00"
  {
  }

  predicate IsFirstMidnight(c: A.Civil) { FirstDay(c.date) && c.hour == 0 && c.minute == 0 && c.second == 0 }

  lemma FirstMidnightIsValid(c: A.Civil)
    requires IsFirstMidnight(c)
    ensures A.ValidCivil(c)
  {
  }

  lemma FirstSecond(c: A.Civil)
    requires IsFirstMidnight(c)
    ensures A.ValidCivil(c) && A.Seconds(c) == 86400
  {
    FirstMidnightIsValid(c);
    FirstOrdinal(c.date);
    MidnightSeconds(c);
  }

  lemma MidnightSeconds(c: A.Civil)
    requires A.ValidCivil(c) && c.hour == 0 && c.minute == 0 && c.second == 0
    ensures A.Seconds(c) == A.Ordinal(c.date) * 86400
  {
  }

  lemma MidnightReads()
    ensures A.DateTimeShape(MIDNIGHT) && IsFirstMidnight(A.ParseDateTime(MIDNIGHT))
  {
    MidnightParts();
    SmallValues();
  }

  lemma ZoneReads()
    ensures A.ZoneShape(ZONE) && ZoneMinutes(ZONE) == FARTHEST
  {
    SmallValues();
    assert ZONE[1..3] == "14" && ZONE[4..] == "00";
  }

  lemma ZoneParses(civil: A.Civil)
    requires A.ValidCivil(civil)
    ensures ParseRest(civil, ZONE) == Some(Stamp((A.Seconds(civil) - 60 * FARTHEST) * 1000000, ZONE))
  {
    ZoneReads();
    SmallValues();
  }

  lemma FirstInstant() returns (c: A.Civil)
    ensures A.ValidCivil(c) && A.Seconds(c) == 86400 && A.DateTimeShape(MIDNIGHT) && A.ParseDateTime(MIDNIGHT) == c
  {
    MidnightReads();
    c := A.ParseDateTime(MIDNIGHT);
    FirstSecond(c);
  }

  lemma TooEarlyParses(c: A.Civil)
    requires A.ValidCivil(c) && A.Seconds(c) == 86400 && A.DateTimeShape(MIDNIGHT) && A.ParseDateTime(MIDNIGHT) == c
    ensures Parse(TOO_EARLY) == Some(Stamp(36000000000, ZONE))
  {
    ZoneParses(c);
    ParseJoined(MIDNIGHT, c, ZONE, Stamp(36000000000, ZONE));
  }

  /** Such a text: midnight of the first day, fourteen hours ahead of UTC. */
  lemma TooEarlyIsRead()
    ensures Parse(TOO_EARLY) == Some(Stamp(36000000000, ZONE)) && !InRange(36000000000) && |TOO_EARLY| == 25
  {
    var c := FirstInstant();
    TooEarlyParses(c);
  }
}
