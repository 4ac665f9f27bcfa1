/**
 The program's own times in a collection: the agreement with them, the observations that raise past the
 builder, and the snapshot the checker refuses, one event whose owner uid redaction changes.  The builder
 freezes it, with every budget kept and every time in its window; the checker reads a uid that is none.
 */
module SnapshotRefusal {
  import opened Wrappers
  import opened Evidence
  import opened Captured
  import opened CapturedLaws
  import opened Snapshot
  import opened SnapshotLaws
  import R = Redaction
  import T = SourceTimes

  /** With the program's times nothing is taken for granted of times; redaction may be any that keeps its laws. */
  lemma AgreeWithProgramTimes(redact: string -> Option<string>, size: Json -> nat, safe: string -> bool, s: Settings,
                              started: Moment, xs: seq<Candidate>, now: Moment, late: bool, tooLarge: bool)
    requires RedactionLawful(T.UtcText, redact) && s.lookback > 0 && Registered(s, xs)
    requires var env := Program(Codec(T.Parse, T.UtcText, redact), size, safe);
             Finish(env, s, AddAll(env, s, Opened(started), xs), now, late, tooLarge).Success?
    ensures var env := Program(Codec(T.Parse, T.UtcText, redact), size, safe);
            var b := AddAll(env, s, Opened(started), xs);
            Validate(env, s, Finish(env, s, b, now, late, tooLarge).value.1)
            <==> forall i {:trigger b.items[i]} :: 0 <= i < |b.items| ==> UidOk(b.items[i])
  {
    T.SourceTimesAreLawful();
    ProducerAndCheckerAgree(Codec(T.Parse, T.UtcText, redact), size, safe, s, started, xs, now, late, tooLarge);
  }

  // ---- observations that raise ----

  /** Another candidate could be added now. */
  predicate Addable(env: Env, s: Settings, b: Builder, x: Candidate) {
    AddError(env, s, b, x.q, None, x.failed, x.now, x.late).None?
  }

  /** The time of the candidate is looked at, and its UTC instant cannot be written. */
  predicate Raises(x: Candidate) {
    !x.late && x.failed.None? && x.observedAt.Some? && |x.observedAt.value| <= 64 && T.TooFar(x.observedAt.value)
  }

  lemma RaisesIsTheError(env: Env, s: Settings, b: Builder, x: Candidate)
    requires env.codec.parse == T.Parse && Addable(env, s, b, x)
    ensures AddError(env, s, b, x.q, x.observedAt, x.failed, x.now, x.late)
            == if Raises(x) then Some(OutOfRange) else None
  {
    UnrepresentableTells(env.codec, x.observedAt);
    OnlyTheTimeRaises(env, s, b, x);
  }

  lemma UnrepresentableTells(c: Codec, observedAt: Option<string>)
    requires c.parse == T.Parse
    ensures Unrepresentable(c, observedAt)
            <==> observedAt.Some? && |observedAt.value| <= 64 && T.TooFar(observedAt.value)
  {
    if observedAt.Some? && T.Parse(observedAt.value).Some? { T.OutOfRangeExactly(observedAt.value); }
  }

  lemma OnlyTheTimeRaises(env: Env, s: Settings, b: Builder, x: Candidate)
    requires Addable(env, s, b, x)
    ensures AddError(env, s, b, x.q, x.observedAt, x.failed, x.now, x.late)
            == if !x.late && x.failed.None? && Unrepresentable(env.codec, x.observedAt) then Some(OutOfRange) else None
  {
  }

  lemma AddByError(env: Env, s: Settings, b: Builder, x: Candidate)
    ensures var e := AddError(env, s, b, x.q, x.observedAt, x.failed, x.now, x.late);
            var r := Add(env, s, b, x.q, x.observedAt, x.payload, x.failed, x.dimension, x.now, x.late);
            if e.Some? then r == Failure(e.value)
            else && r.Success? && r.value.items[..|b.items|] == b.items && |r.value.items| == |b.items| + 1
                 && |r.value.entries| == |b.entries| + 1
  {
  }

  /**
   A candidate that could be added is either recorded, with its audit entry, or raises and leaves nothing;
   it raises exactly when its time reads well and its offset carries it out of the first or the last day.
   */
  lemma AddRaisesExactly(redact: string -> Option<string>, size: Json -> nat, safe: string -> bool, s: Settings,
                         b: Builder, x: Candidate)
    requires Addable(Program(Codec(T.Parse, T.UtcText, redact), size, safe), s, b, x)
    ensures var env := Program(Codec(T.Parse, T.UtcText, redact), size, safe);
            var r := Add(env, s, b, x.q, x.observedAt, x.payload, x.failed, x.dimension, x.now, x.late);
            if Raises(x) then r == Failure(OutOfRange)
            else && r.Success? && r.value.items[..|b.items|] == b.items && |r.value.items| == |b.items| + 1
                 && |r.value.entries| == |b.entries| + 1
  {
    var env := Program(Codec(T.Parse, T.UtcText, redact), size, safe);
    RaisesIsTheError(env, s, b, x);
    AddByError(env, s, b, x);
  }

  lemma RaisingLeavesNothing(redact: string -> Option<string>, size: Json -> nat, safe: string -> bool, s: Settings,
                             b: Builder, x: Candidate)
    requires Addable(Program(Codec(T.Parse, T.UtcText, redact), size, safe), s, b, x) && Raises(x)
    ensures AddAll(Program(Codec(T.Parse, T.UtcText, redact), size, safe), s, b, [x]) == b
  {
    AddRaisesExactly(redact, size, safe, s, b, x);
    assert [x][1..] == [];
  }

  /** Midnight of the first day, fourteen hours ahead of UTC, is such a time. */
  lemma TooEarlyRaises(x: Candidate)
    requires !x.late && x.failed.None? && x.observedAt == Some(T.TOO_EARLY)
    ensures Raises(x)
  {
    T.TooEarlyIsRead();
    T.OutOfRangeExactly(T.TOO_EARLY);
  }

  // ---- the event the checker refuses ----

  /** An event the builder keeps: in scope, observed inside the window, and within every budget. */
  predicate Collectable(c: Codec, safe: string -> bool, s: Settings, q: Source, raw: string, started: Moment,
                        now: Moment) {
    && q.kind == Event && q.target == s.target && Dates(Event, q.timeField) && safe(q.ref) && s.maxItems > 0
    && started <= now && s.lookback > 0 && InRange(started - s.lookback)
    && |raw| <= 64 && c.parse(raw).Some? && In(Window(started - s.lookback, now), c.parse(raw).value.at)
  }

  ghost predicate Ample(size: Json -> nat, s: Settings) {
    forall j {:trigger size(j)} :: size(j) <= s.responseBytes && size(j) <= s.payloadBytes
  }

  function EventOf(q: Source, raw: string, p: Payload, now: Moment): Candidate {
    Candidate(q, Some(raw), Some(p), None, None, now, false)
  }

  /** An event in budget is kept with its normal form. */
  lemma NormalEventIsKept(env: Env, s: Settings, b: Builder, p: Payload, n: Payload, t: Timed, f: TimeField, now: int)
    requires Ample(env.size, s) && t.observed.Some? && t.raw.Some? && t.offset.Some? && TextAt(n, "involved_uid")
    ensures var k := Keep(env, s, b, Event, Some(p), Success(n), t, f, now);
            && k.status == Available && k.payload.Some? && TextAt(k.payload.value, "involved_uid")
            && k.payload.value["involved_uid"] == n["involved_uid"]
  {
    var full := n["source_time" := SourceTime(env.codec, t.raw.value, t.offset.value, now, f)];
    assert env.size(Object(full)) <= s.payloadBytes;
    assert env.size(Object(p)) <= s.responseBytes;
  }

  /** What the builder makes of it: an available item with the redacted uid. */
  lemma EventIsKept(env: Env, s: Settings, b: Builder, q: Source, raw: string, p: Payload, n: Payload, now: Moment)
    requires InRange(b.started) && Collectable(env.codec, env.safe, s, q, raw, b.started, now) && Ample(env.size, s)
    requires TextAt(n, "involved_uid")
    ensures var item := Made(env, s, b, q, Some(raw), Some(p), Success(n), None, None, now, false).0;
            && item.status == Available && item.payload.Some? && item.kind == Event && item.collected == now
            && TextAt(item.payload.value, "involved_uid") && item.payload.value["involved_uid"] == n["involved_uid"]
  {
    var t := TimeOf(env.codec, s, Some(raw), Window(b.started - s.lookback, now));
    assert t.status == Available && t.observed.Some? && t.raw.Some? && t.offset.Some?;
    NormalEventIsKept(env, s, b, p, n, t, q.timeField, now);
  }

  /** The builder with that one item. */
  lemma OneItem(env: Env, s: Settings, q: Source, raw: string, p: Payload, started: Moment, now: Moment)
    requires Collectable(env.codec, env.safe, s, q, raw, started, now)
    ensures var b := Opened(started); var n := Snapshot.NormalForm(env, s, b, Event, Some(p), now);
            AddAll(env, s, b, [EventOf(q, raw, p, now)])
            == Appended(b, Made(env, s, b, q, Some(raw), Some(p), n, None, None, now, false))
  {
    var b := Opened(started);
    var xs := [EventOf(q, raw, p, now)];
    assert AddError(env, s, b, q, Some(raw), None, now, false).None?;
    var r := Add(env, s, b, q, Some(raw), Some(p), None, None, now, false);
    assert AddAll(env, s, b, xs) == AddAll(env, s, r.value, xs[1..]) && xs[1..] == [];
  }

  lemma OneItemFreezes(env: Env, s: Settings, b: Builder, item: Item, now: Moment)
    requires !b.closed && b.items == [item] && item.collected == now
    ensures Finish(env, s, b, now, false, false).Success?
  {
  }

  /** The builder after an event whose uid redaction changes. */
  lemma ChangedUidIsStored(c: Codec, size: Json -> nat, safe: string -> bool, s: Settings, q: Source, raw: string,
                           p: Payload, started: Moment, now: Moment)
    requires Lawful(c) && Collectable(c, safe, s, q, raw, started, now) && Ample(size, s) && EventSourceOk(p)
    requires var uid := p["involved_uid"].s; c.redact(uid).Some? && c.redact(uid).value != uid
    ensures var env := Program(c, size, safe); var b := AddAll(env, s, Opened(started), [EventOf(q, raw, p, now)]);
            !b.closed && |b.items| == 1 && b.items[0].collected == now && !UidOk(b.items[0])
  {
    var env := Program(c, size, safe);
    var b := Opened(started);
    EventStored(c, p);
    var n := NormalizeEvent(c, p).value;
    OneItem(env, s, q, raw, p, started, now);
    EventIsKept(env, s, b, q, raw, p, n, now);
    assert '[' in c.redact(p["involved_uid"].s).value;
  }

  /**
   Whatever uid redaction changes, whenever and by whomever the event was collected: the snapshot is frozen and
   refused.
   */
  lemma ChangedUidIsRefused(c: Codec, size: Json -> nat, safe: string -> bool, s: Settings, q: Source, raw: string,
                            p: Payload, started: Moment, now: Moment)
    requires Lawful(c) && Collectable(c, safe, s, q, raw, started, now) && Ample(size, s) && EventSourceOk(p)
    requires var uid := p["involved_uid"].s; c.redact(uid).Some? && c.redact(uid).value != uid
    ensures var env := Program(c, size, safe);
            var f := Finish(env, s, AddAll(env, s, Opened(started), [EventOf(q, raw, p, now)]), now, false, false);
            f.Success? && !Validate(env, s, f.value.1)
  {
    var env := Program(c, size, safe);
    var xs := [EventOf(q, raw, p, now)];
    var b := AddAll(env, s, Opened(started), xs);
    ChangedUidIsStored(c, size, safe, s, q, raw, p, started, now);
    OneItemFreezes(env, s, b, b.items[0], now);
    assert Registered(s, xs);
    ProducerAndCheckerAgree(c, size, safe, s, started, xs, now, false, false);
  }

  // ---- the concrete input ----

  const AT: Moment := 63903859200000000
  const SETTINGS := Settings("t", "c", "q", 3600000000, 1, 65536, 65536, 65536, 1048576, 200, 0, {})
  const SOURCE := Source(0, Event, "kubernetes/events/0", "t", EventTime)
  const EVENT := EventPayload("BackOff", "Warning", R.KEY, "")

  function Small(j: Json): nat { 0 }

  function Anything(ref: string): bool { true }

  lemma EventIsCollectable(raw: string)
    requires R.CODEC.parse(raw) == Some(Stamp(AT, "Z")) && |raw| <= 64
    ensures Collectable(R.CODEC, Anything, SETTINGS, SOURCE, raw, AT, AT)
  {
  }

  lemma EventIsWellFormed()
    ensures EventSourceOk(EVENT) && EVENT["involved_uid"].s == R.KEY
  {
    R.SomeKey();
    R.KeysPassForUids(R.KEY);
    PayloadIsSource("BackOff", "Warning", R.KEY, "");
  }

  /** With the program's times and its rule for access keys: an owner uid of AKIA and sixteen zeros. */
  lemma KeyForUidIsRefused()
    ensures var env := Program(R.CODEC, Small, Anything);
            var xs := [EventOf(SOURCE, T.UtcText(AT), EVENT, AT)];
            var f := Finish(env, SETTINGS, AddAll(env, SETTINGS, Opened(AT), xs), AT, false, false);
            f.Success? && !Validate(env, SETTINGS, f.value.1)
  {
    R.SomeKey();
    R.KeysPassForUids(R.KEY);
    R.CodecIsLawful();
    EventIsWellFormed();
    T.UtcTextReads(AT);
    EventIsCollectable(T.UtcText(AT));
    ChangedUidIsRefused(R.CODEC, Small, Anything, SETTINGS, SOURCE, T.UtcText(AT), EVENT, AT, AT);
  }
}
