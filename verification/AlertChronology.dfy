/**
 What the string comparisons of acceptance mean in time: an accepted alert ends no earlier than it
 started, and the stored end is the latest delivered instant, as long as ends lie in year 1000 or later.
 Starts always do, because they are not before 1970.
 */
module AlertChronology {
  import opened Wrappers
  import opened JobQueue
  import opened JobQueueLaws
  import opened Alerts
  import opened AlertLaws
  import T = AlertTime

  // ---- starts ----

  lemma EpochIs1970()
    ensures T.CivilOf(T.EPOCH).date == T.Date(1970, 1, 1)
  {
    var d := T.Date(1970, 1, 1);
    assert T.Ordinal(d) == 719163;
    T.DateOfOrdinal(d);
    T.CivilOfMidnight(T.EPOCH, 719163);
  }

  lemma NotBeforeEpoch(p: T.Stamp)
    requires T.Acceptable(p) && T.MomentOf(p).number >= 0.0
    ensures T.Utc(p) >= T.EPOCH
  {
    T.InstantParts(p);
    Whole(T.Utc(p) - T.EPOCH, T.Value(T.PadRight(p.fraction)));
  }

  lemma Whole(t: int, v: nat)
    requires v < 1000000000 && t as real + v as real / 1000000000.0 >= 0.0
    ensures t >= 0
  {
    T.Scale(t, v);
    assert (t * 1000000000 + v) as real >= 0.0;
  }

  lemma StartsFrom1970(p: T.Stamp)
    requires T.Acceptable(p) && T.MomentOf(p).number >= 0.0
    ensures T.UtcYear(p) >= 1970
  {
    NotBeforeEpoch(p);
    EpochIs1970();
    if T.Utc(p) > T.EPOCH { T.CivilOfIsMonotone(T.EPOCH, T.Utc(p)); }
  }

  // ---- ends against starts ----

  /** A resolved alert with the stamps its two times were read as, in scope and well formed. */
  predicate Ending(s: Settings, raw: RawAlert, p: T.Stamp, q: T.Stamp) {
    && raw.status == "resolved" && Admissible(s, raw.labels) && IsHex16(raw.fingerprint)
    && T.Parse(raw.startsAt) == Some(p) && T.Acceptable(p)
    && raw.endsAt.Some? && T.Parse(raw.endsAt.value) == Some(q) && T.Acceptable(q)
  }

  predicate Recent(p: T.Stamp, now: real)
    requires T.Acceptable(p)
  {
    T.MomentOf(p).number <= now + FUTURE_SECONDS
  }

  lemma NormalizedStamp(text: string, p: T.Stamp)
    requires T.Parse(text) == Some(p) && T.Acceptable(p)
    ensures T.Normalize(text) == Success(T.MomentOf(p))
  {
  }

  /** Both times of the alert were read so. */
  predicate Timed(s: Settings, raw: RawAlert, starts: T.Moment, ends: T.Moment) {
    && raw.status == "resolved" && Admissible(s, raw.labels) && IsHex16(raw.fingerprint) && raw.endsAt.Some?
    && T.Normalize(raw.startsAt) == Success(starts) && T.Normalize(raw.endsAt.value) == Success(ends)
  }

  predicate Fit(starts: T.Moment, ends: T.Moment, now: real) {
    starts.number >= 0.0 && starts.number <= now + FUTURE_SECONDS && !EndsWrong(starts, ends, now)
  }

  lemma FitIsAccepted(s: Settings, raw: RawAlert, now: real, starts: T.Moment, ends: T.Moment)
    requires Timed(s, raw, starts, ends) && Fit(starts, ends, now)
    ensures Prepare(s, raw, now).Success?
  {
    EndingPrepares(s, raw, now, starts, ends);
  }

  lemma EndingPrepares(s: Settings, raw: RawAlert, now: real, starts: T.Moment, ends: T.Moment)
    requires Admissible(s, raw.labels) && raw.endsAt.Some? && T.Normalize(raw.endsAt.value) == Success(ends)
    ensures PrepareEnding(s, raw, starts, now).Success? <==> !EndsWrong(starts, ends, now)
  {
  }

  lemma UnfitIsRefused(s: Settings, raw: RawAlert, now: real, starts: T.Moment, ends: T.Moment)
    requires Timed(s, raw, starts, ends) && !Fit(starts, ends, now)
    ensures Prepare(s, raw, now).Failure?
  {
  }

  lemma AcceptedKeys(s: Settings, raw: RawAlert, now: real, starts: T.Moment, ends: T.Moment)
    requires Timed(s, raw, starts, ends)
    ensures Prepare(s, raw, now).Success? <==> Fit(starts, ends, now)
  {
    if Fit(starts, ends, now) { FitIsAccepted(s, raw, now, starts, ends); }
    else { UnfitIsRefused(s, raw, now, starts, ends); }
  }

  /** What is accepted, still in string order. */
  lemma AcceptedExactly(s: Settings, raw: RawAlert, now: real, p: T.Stamp, q: T.Stamp)
    requires Ending(s, raw, p, q)
    ensures Prepare(s, raw, now).Success? <==>
            && T.MomentOf(p).number >= 0.0 && Recent(p, now) && Recent(q, now)
            && !T.Less(T.MomentOf(q).key, T.MomentOf(p).key)
  {
    NormalizedStamp(raw.startsAt, p);
    NormalizedStamp(raw.endsAt.value, q);
    AcceptedKeys(s, raw, now, T.MomentOf(p), T.MomentOf(q));
  }

  /** From year 1000 on a well-formed resolved alert is accepted exactly when it ended no earlier than it started. */
  lemma EndsInOrderAreAccepted(s: Settings, raw: RawAlert, now: real, p: T.Stamp, q: T.Stamp)
    requires Ending(s, raw, p, q) && T.UtcYear(q) >= 1000
    ensures Prepare(s, raw, now).Success? <==>
            T.MomentOf(p).number >= 0.0 && Recent(p, now) && Recent(q, now) && T.Instant(p) <= T.Instant(q)
  {
    AcceptedExactly(s, raw, now, p, q);
    if T.MomentOf(p).number >= 0.0 {
      StartsFrom1970(p);
      T.StampsOrder(q, p);
    }
  }

  /** An accepted alert ends no earlier than it started exactly when its end lies in year 1000 or later. */
  lemma AcceptedEndsInOrder(s: Settings, raw: RawAlert, now: real, p: T.Stamp, q: T.Stamp)
    requires Ending(s, raw, p, q) && Prepare(s, raw, now).Success?
    ensures T.Instant(p) <= T.Instant(q) <==> T.UtcYear(q) >= 1000
  {
    AcceptedExactly(s, raw, now, p, q);
    StartsFrom1970(p);
    if T.UtcYear(q) >= 1000 {
      T.StampsOrder(q, p);
    } else {
      T.EarlierYearFirst(q, p);
      T.InstantParts(p);
      T.InstantParts(q);
    }
  }

  lemma FirstDigit(y: nat)
    requires 1000 <= y < 9000
    ensures T.Decimal(y)[0] < '9'
  {
    var a, b, c := y / 10, y / 100, y / 1000;
    assert a / 10 == b && b / 10 == c && 1 <= c < 9;
    assert T.Decimal(c) == [T.DigitChar(c)];
    assert T.Decimal(b)[0] == T.DigitChar(c);
    assert T.Decimal(a)[0] == T.DigitChar(c);
  }

  lemma ShortYearDigit()
    ensures T.Decimal(999)[0] == '9'
  {
    assert T.Decimal(9) == "9" && T.Decimal(99)[0] == '9';
  }

  lemma ShortYearKey(p: T.Stamp, q: T.Stamp)
    requires T.Acceptable(p) && T.Acceptable(q) && 1000 <= T.UtcYear(p) < 9000 && T.UtcYear(q) == 999
    ensures !T.Less(T.MomentOf(q).key, T.MomentOf(p).key)
  {
    FirstDigit(T.UtcYear(p));
    ShortYearDigit();
    assert T.MomentOf(q).key[0] == '9' && T.MomentOf(p).key[0] < '9';
  }

  /** And there are others: whatever started before year 9000 and is said to end in year 999 is accepted. */
  lemma ShortYearEndIsAccepted(s: Settings, raw: RawAlert, now: real, p: T.Stamp, q: T.Stamp)
    requires Ending(s, raw, p, q) && T.MomentOf(p).number >= 0.0 && Recent(p, now)
    requires T.UtcYear(p) < 9000 && T.UtcYear(q) == 999
    ensures Prepare(s, raw, now).Success? && T.Instant(q) < T.Instant(p)
  {
    StartsFrom1970(p);
    ShortYearKey(p, q);
    T.EarlierYearFirst(q, p);
    T.InstantParts(p);
    T.InstantParts(q);
    T.NumberIsInstant(p);
    T.NumberIsInstant(q);
    AcceptedExactly(s, raw, now, p, q);
  }

  // ---- the stored end ----

  /** Of two ends, acceptance keeps the later instant. */
  ghost predicate KeepsLater(p: T.Stamp, q: T.Stamp)
    requires T.Acceptable(p) && T.Acceptable(q)
  {
    Later(Some(T.MomentOf(p).key), T.MomentOf(q).key) == T.MomentOf(if T.Instant(p) <= T.Instant(q) then q else p).key
  }

  ghost predicate KeepsLaterFrom(year: nat) {
    forall p, q {:trigger KeepsLater(p, q)} ::
      T.Acceptable(p) && T.Acceptable(q) && T.UtcYear(p) >= year && T.UtcYear(q) >= year ==> KeepsLater(p, q)
  }

  lemma LateYearsKeepLater(p: T.Stamp, q: T.Stamp)
    requires T.Acceptable(p) && T.Acceptable(q) && T.UtcYear(p) >= 1000 && T.UtcYear(q) >= 1000
    ensures KeepsLater(p, q)
  {
    T.StampsOrder(q, p);
    assert T.MomentOf(p).key != "" by { assert T.KeyText(T.Utc(p), T.PadRight(p.fraction)) != ""; }
  }

  /** The later instant is kept, among all ends of some year or later, exactly from year 1000. */
  lemma KeepsLaterFrom1000(year: nat)
    ensures KeepsLaterFrom(year) <==> year >= 1000
  {
    if year >= 1000 {
      forall p, q | T.Acceptable(p) && T.Acceptable(q) && T.UtcYear(p) >= year && T.UtcYear(q) >= year
        ensures KeepsLater(p, q) {
        LateYearsKeepLater(p, q);
      }
    } else {
      var p := T.SomeStampOf(999);
      var q := T.SomeStampOf(1000);
      T.ShortYearSortsWrong(p, q);
      T.LessIsTotal(T.MomentOf(q).key, T.MomentOf(p).key);
      assert !KeepsLater(p, q);
    }
  }

  /**
   After any history of deliveries the end stored for an episode is the latest instant any of its resolved
   alerts named, when those lie in year 1000 or later.
   */
  lemma StoredEndIsLatestInstant(s: Settings, events: seq<Event>, k: EpisodeKey, p: T.Stamp, x: Item, q: T.Stamp)
    requires WorldInv(START) && forall e :: e in events ==> WellFormed(s, e)
    requires k in History(s, START, events).alerts && T.Acceptable(p) && T.UtcYear(p) >= 1000
    requires History(s, START, events).alerts[k].ends == Some(T.MomentOf(p).key)
    requires x in History(s, START, events).delivered && x.Ends() && x.key == k
    requires T.Acceptable(q) && T.UtcYear(q) >= 1000 && x.ends == Some(T.MomentOf(q).key)
    ensures T.Instant(q) <= T.Instant(p)
  {
    var w := History(s, START, events);
    assert RowExplained(w.alerts, w.delivered, k);
    T.StampsOrder(p, q);
  }
}
