/**
 Producer and checker agree: whatever candidates a collection was given, the checker accepts the snapshot
 it froze, except when an available event carries an owner uid that redaction changed.
 */
module SnapshotLaws {
  import opened Wrappers
  import opened Evidence
  import opened Captured
  import opened CapturedLaws
  import opened Snapshot

  // ---- stored payloads hold no checker metadata of their own ----

  lemma ProjectedKeys(c: Codec, kind: Kind, source: Payload)
    requires ProjectKind(c, kind, source).Some?
    ensures ProjectKind(c, kind, source).value.Keys <= ShapeOf(kind).Keys
  {
    var kept := ProjectEach(c.redact, source, ShapeOf(kind), 1);
    assert ProjectKind(c, kind, source).value == Unwrap(kept);
  }

  lemma ShapesHaveNoMetadata(kind: Kind)
    ensures "source_time" !in ShapeOf(kind) && "line_times" !in ShapeOf(kind)
  {
  }

  lemma NormalizedKeys(c: Codec, kind: Kind, source: Payload, w: Window)
    requires Normalize(c, kind, source, w).Success?
    ensures var p := Normalize(c, kind, source, w).value;
            "source_time" !in p && (kind != Log ==> "line_times" !in p)
  {
    ShapesHaveNoMetadata(kind);
    match kind
    case Log =>
      var ls := ReadLines(c, source["lines"].items, w).value;
      var container := if "container" in source then source["container"] else Null;
      ProjectedKeys(c, Log, map["container" := container, "lines" := List(CleanLines(c, ls))]);
    case Event =>
      var message := if "message" in source then source["message"].s else "";
      ProjectedKeys(c, Event, source["message" := Text(EventMessage(message))]);
    case _ => ProjectedKeys(c, kind, source);
  }

  lemma RawOfStored(kind: Kind, p: Payload, st: Json)
    requires "source_time" !in p && (kind != Log ==> "line_times" !in p)
    ensures RawOf(kind, p["source_time" := st]) == Rebuild(kind, p)
  {
    var full := p["source_time" := st];
    assert full - {"source_time"} == p;
    if kind != Log { assert p - {"line_times"} == p; }
  }

  lemma SameUnderMetadata(p: Payload, q: Payload, st: Json)
    requires "source_time" !in p && "source_time" !in q
    ensures p["source_time" := st] == q["source_time" := st] <==> p == q
  {
    assert p["source_time" := st] - {"source_time"} == p;
    assert q["source_time" := st] - {"source_time"} == q;
  }

  /** The owner uid as stored, when there is one. */
  predicate PlainUid(kind: Kind, p: Payload) {
    kind == Event && TextAt(p, "involved_uid") ==> NoBracket(p["involved_uid"].s)
  }

  /** Whether redaction left the uid alone can be seen on the stored payload. */
  lemma UidSeenInPayload(c: Codec, kind: Kind, source: Payload, w: Window)
    requires Lawful(c) && Normalize(c, kind, source, w).Success?
    ensures UidStays(c, kind, source) <==> PlainUid(kind, Normalize(c, kind, source, w).value)
  {
    if kind == Event {
      EventStored(c, source);
      SpelledHasNoBracket(source["involved_uid"].s, 80, "-");
    }
  }

  // ---- what freezing and checking need of normalisation ----

  predicate NormalForm(kind: Kind, p: Payload) {
    "source_time" !in p && (kind != Log ==> "line_times" !in p) && Rebuild(kind, p).Some?
  }

  /** Normal forms hold no metadata, and normalise to themselves in any wider window exactly when their uid is plain. */
  ghost predicate Stable(env: Env) {
    forall kind, source, w, big {:trigger env.normal(kind, source, w), Nested(w, big)} ::
      env.normal(kind, source, w).Success? && Datable(w) && Nested(w, big) ==>
        var p := env.normal(kind, source, w).value;
        && NormalForm(kind, p)
        && (env.normal(kind, Rebuild(kind, p).value, big) == Success(p) <==> PlainUid(kind, p))
  }

  /** The program's normalisation is so. */
  lemma ProgramIsStable(c: Codec, size: Json -> nat, safe: string -> bool)
    requires Lawful(c)
    ensures Stable(Program(c, size, safe))
  {
    forall kind, source, w, big | Normalize(c, kind, source, w).Success? && Datable(w) && Nested(w, big)
      ensures var p := Normalize(c, kind, source, w).value;
              && NormalForm(kind, p)
              && (Normalize(c, kind, Rebuild(kind, p).value, big) == Success(p) <==> PlainUid(kind, p)) {
      NormalizedKeys(c, kind, source, w);
      NormalizeAgain(c, kind, source, w, big);
      UidSeenInPayload(c, kind, source, w);
    }
  }

  lemma NormalIn(env: Env, kind: Kind, source: Payload, w: Window)
    requires Stable(env) && env.normal(kind, source, w).Success? && Datable(w)
    ensures NormalForm(kind, env.normal(kind, source, w).value)
  {
    assert Nested(w, w);
  }

  /** Re-deriving a stored payload in a wider window gives it back exactly when its uid is plain. */
  lemma StoredRenormalizes(env: Env, kind: Kind, source: Payload, w: Window, big: Window, st: Json)
    requires Stable(env) && env.normal(kind, source, w).Success? && Datable(w) && Datable(big) && Nested(w, big)
    ensures var p := env.normal(kind, source, w).value; var full := p["source_time" := st];
            && RawOf(kind, full).Some?
            && (Renormalized(env.normal(kind, RawOf(kind, full).value, big), full) <==> PlainUid(kind, p))
  {
    var p := env.normal(kind, source, w).value;
    NormalIn(env, kind, source, w);
    RawOfStored(kind, p, st);
    var n := env.normal(kind, Rebuild(kind, p).value, big);
    if n.Success? {
      NormalIn(env, kind, Rebuild(kind, p).value, big);
      SameUnderMetadata(n.value, p, st);
    }
  }

  // ---- what every item of a collection is like ----

  predicate DimensionOk(s: Settings, d: Option<string>) { d.Some? ==> d.value in s.dimensions }

  predicate HeadOk(env: Env, s: Settings, started: int, item: Item, e: Entry) {
    && e.id == item.id && e.status == item.status && e.collected == item.collected && started <= item.collected
    && item.target == s.target && item.origin == Origin(s) && Dates(item.kind, e.timeField) && env.safe(item.ref)
    && DimensionOk(s, e.dimension) && item.window == Window(started - s.lookback, item.collected)
       && Datable(item.window)
    && (item.status != Available ==> item.missing == Some(e.reason))
        && (item.status == Available ==> e.reason == "collected")
  }

  predicate ReadOk(c: Codec, item: Item, e: Entry) {
    && (if e.raw.Some?
        then |e.raw.value| <= 64 && Read(c, e.raw.value).Some? && Some(Read(c, e.raw.value).value.offset) == e.offset
        else e.offset.None?)
    && (item.observed.Some? ==>
          In(item.window, item.observed.value) && e.raw.Some? && Read(c, e.raw.value).value.at == item.observed.value)
  }

  /** The payload is the normal form `n`, with its time metadata. */
  predicate MadeFrom(c: Codec, item: Item, e: Entry, started: int, n: Result<Payload, Refusal>) {
    && item.payload.Some? && item.observed.Some? && e.raw.Some? && e.offset.Some? && n.Success?
    && item.payload.value == n.value["source_time" :=
                                     SourceTime(c, e.raw.value, e.offset.value, item.collected, e.timeField)]
    && (item.kind == Metric ==> EvaluatedAtStart(c, n.value, item.observed.value, started))
  }

  /** The normal form of some candidate, in the window of its addition. */
  predicate StoredFrom(env: Env, item: Item, e: Entry, started: int, source: Payload) {
    MadeFrom(env.codec, item, e, started, env.normal(item.kind, source, item.window))
  }

  ghost predicate PairOk(env: Env, s: Settings, started: int, item: Item, e: Entry) {
    && HeadOk(env, s, started, item, e) && ReadOk(env.codec, item, e)
    && (item.status == Available ==> exists source :: StoredFrom(env, item, e, started, source))
  }

  ghost predicate BuilderOk(env: Env, s: Settings, b: Builder) {
    && |b.items| == |b.entries|
    && (forall i {:trigger b.items[i]} :: 0 <= i < |b.items| ==> PairOk(env, s, b.started, b.items[i], b.entries[i]))
    && (forall i, j :: 0 <= i < j < |b.items| ==> b.items[i].id != b.items[j].id)
  }

  /** Read failures never claim success. */
  predicate FailureOk(f: Option<Failed>) { f.Some? ==> f.value.status in {Missing, PermissionDenied, InvalidData} }

  // ---- adding keeps it ----

  lemma TimeIsRead(c: Codec, s: Settings, observedAt: Option<string>, w: Window)
    requires !Unrepresentable(c, observedAt)
    ensures var t := TimeOf(c, s, observedAt, w);
            && (if t.raw.Some?
                then |t.raw.value| <= 64 && Read(c, t.raw.value).Some?
                     && Some(Read(c, t.raw.value).value.offset) == t.offset
                else t.offset.None?)
            && (t.observed.Some? ==>
                  In(w, t.observed.value) && t.raw.Some? && Read(c, t.raw.value).value.at == t.observed.value)
            && (t.status == Available <==> t.observed.Some?) && (t.status == Available ==> t.reason == "collected")
  {
  }

  /** A kept payload is the candidate's normal form with its time metadata. */
  lemma NormalIsKept(env: Env, s: Settings, b: Builder, kind: Kind, candidate: Option<Payload>, n: Result<Payload,
                     Refusal>,
                     t: Timed, f: TimeField, now: int)
    requires t.observed.Some? && t.raw.Some? && t.offset.Some?
    ensures var k := Keep(env, s, b, kind, candidate, n, t, f, now);
            && (k.status == Available <==> k.payload.Some?)
            && (k.status == Available ==>
                  && k.reason == "collected" && n.Success? && candidate.Some?
                  && k.payload.value == n.value["source_time" :=
                                                SourceTime(env.codec, t.raw.value, t.offset.value, now, f)]
                  && (kind == Metric ==> EvaluatedAtStart(env.codec, n.value, t.observed.value, b.started)))
  {
  }

  lemma MadeIsOk(env: Env, s: Settings, b: Builder, q: Source, observedAt: Option<string>, payload: Option<Payload>,
                 n: Result<Payload, Refusal>, failed: Option<Failed>, dimension: Option<string>, now: Moment,
                 late: bool)
    requires FailureOk(failed) && DimensionOk(s, dimension)
             && AddError(env, s, b, q, observedAt, failed, now, late).None?
    ensures var m := Made(env, s, b, q, observedAt, payload, n, failed, dimension, now, late);
            && HeadOk(env, s, b.started, m.0, m.1) && ReadOk(env.codec, m.0, m.1) && m.0.kind == q.kind
            && (m.0.status == Available ==> payload.Some? && MadeFrom(env.codec, m.0, m.1, b.started, n))
  {
    if !late && failed.None? {
      TimeIsRead(env.codec, s, observedAt, Window(b.started - s.lookback, now));
      var t := TimeOf(env.codec, s, observedAt, Window(b.started - s.lookback, now));
      if t.status == Available { NormalIsKept(env, s, b, q.kind, payload, n, t, q.timeField, now); }
    }
  }

  lemma StoredFromCandidate(env: Env, s: Settings, b: Builder, item: Item, e: Entry, payload: Option<Payload>)
    requires payload.Some? && item.window == Window(b.started - s.lookback, item.collected)
    requires MadeFrom(env.codec, item, e, b.started, Snapshot.NormalForm(env, s, b, item.kind, payload, item.collected))
    ensures StoredFrom(env, item, e, b.started, payload.value)
  {
  }

  lemma NewPairIsOk(env: Env, s: Settings, b: Builder, q: Source, observedAt: Option<string>, payload: Option<Payload>,
                    failed: Option<Failed>, dimension: Option<string>, now: Moment, late: bool)
    requires FailureOk(failed) && DimensionOk(s, dimension)
             && AddError(env, s, b, q, observedAt, failed, now, late).None?
    ensures var m := Made(env, s, b, q, observedAt, payload, Snapshot.NormalForm(env, s, b, q.kind, payload, now),
                          failed, dimension, now, late);
            PairOk(env, s, b.started, m.0, m.1) && m.0.id == q.id
  {
    var n := Snapshot.NormalForm(env, s, b, q.kind, payload, now);
    var m := Made(env, s, b, q, observedAt, payload, n, failed, dimension, now, late);
    MadeIsOk(env, s, b, q, observedAt, payload, n, failed, dimension, now, late);
    if m.0.status == Available { StoredFromCandidate(env, s, b, m.0, m.1, payload); }
  }

  lemma AppendKeepsBuilder(env: Env, s: Settings, b: Builder, made: (Item, Entry, nat))
    requires BuilderOk(env, s, b) && PairOk(env, s, b.started, made.0, made.1)
    requires forall i :: 0 <= i < |b.items| ==> b.items[i].id != made.0.id
    ensures BuilderOk(env, s, Appended(b, made))
  {
    var c := Appended(b, made);
    forall i | 0 <= i < |c.items| ensures PairOk(env, s, c.started, c.items[i], c.entries[i]) {
      if i < |b.items| { assert c.items[i] == b.items[i] && c.entries[i] == b.entries[i]; }
    }
  }

  lemma AddKeepsBuilder(env: Env, s: Settings, b: Builder, q: Source, observedAt: Option<string>,
                        payload: Option<Payload>,
                        failed: Option<Failed>, dimension: Option<string>, now: Moment, late: bool)
    requires BuilderOk(env, s, b) && FailureOk(failed) && DimensionOk(s, dimension)
    ensures var r := Add(env, s, b, q, observedAt, payload, failed, dimension, now, late); r.Success? ==>
            BuilderOk(env, s, r.value)
  {
    if AddError(env, s, b, q, observedAt, failed, now, late).None? {
      NewPairIsOk(env, s, b, q, observedAt, payload, failed, dimension, now, late);
      AppendKeepsBuilder(env, s, b,
                         Made(env, s, b, q, observedAt, payload, Snapshot.NormalForm(env, s, b, q.kind, payload, now),
                                         failed, dimension, now, late));
    }
  }

  // ---- the checker on a frozen item ----

  lemma {:induction false} EntryIsFound(entries: seq<Entry>, i: nat)
    requires i < |entries| && forall j, k :: 0 <= j < k < |entries| ==> entries[j].id != entries[k].id
    ensures EntryFor(entries, entries[i].id) == Some(entries[i])
  {
    var n := |entries| - 1;
    if i < n { EntryIsFound(entries[..n], i); }
  }

  lemma SourceTimeKeys(c: Codec, raw: string, offset: string, collected: int, f: TimeField)
    ensures var st := SourceTime(c, raw, offset, collected, f);
            && st.Object? && st.fields.Keys
               == {"observed_raw", "observed_offset", "collected_raw", "collected_offset", "time_field"}
            && st.fields["observed_raw"] == Text(raw) && st.fields["observed_offset"] == Text(offset)
            && st.fields["collected_raw"] == Text(c.text(collected)) && st.fields["collected_offset"] == Text("Z")
            && st.fields["time_field"] == Text(FieldName(f))
  {
  }

  lemma TextReadsBack(c: Codec, t: int)
    requires Lawful(c) && InRange(t)
    ensures Read(c, c.text(t)) == Some(Stamp(t, "Z"))
  {
  }

  lemma SourceTimeReads(c: Codec, item: Item, e: Entry)
    requires Read(c, c.text(item.collected)) == Some(Stamp(item.collected, "Z"))
    requires item.observed.Some? && e.raw.Some? && e.offset.Some? && ReadOk(c, item, e)
    ensures SourceTimeOk(c, SourceTime(c, e.raw.value, e.offset.value, item.collected, e.timeField), item, e)
  {
    SourceTimeKeys(c, e.raw.value, e.offset.value, item.collected, e.timeField);
  }

  /** The samples of a stored metric read back as the start of the snapshot. */
  lemma MetricReads(c: Codec, p: Payload, observed: int, started: int, st: Json)
    requires Lawful(c) && InRange(started) && EvaluatedAtStart(c, p, observed, started)
    ensures SamplesAt(c, p["source_time" := st], started)
  {
  }

  /** The condition, on a frozen item: an available event whose stored owner uid holds no bracket. */
  predicate UidOk(item: Item) {
    item.status == Available && item.payload.Some? ==> PlainUid(item.kind, item.payload.value)
  }

  lemma StoredMetricReads(env: Env, item: Item, e: Entry, started: int, source: Payload)
    requires Lawful(env.codec) && InRange(started) && StoredFrom(env, item, e, started, source) && item.kind == Metric
    ensures item.observed == Some(started) && SamplesAt(env.codec, item.payload.value, started)
  {
    var p := env.normal(item.kind, source, item.window).value;
    MetricReads(env.codec, p, item.observed.value, started,
                SourceTime(env.codec, e.raw.value, e.offset.value, item.collected, e.timeField));
  }

  lemma StoredPayloadRenormalizes(env: Env, item: Item, e: Entry, started: int, source: Payload, big: Window)
    requires Stable(env) && StoredFrom(env, item, e, started, source)
    requires Datable(item.window) && Datable(big) && Nested(item.window, big)
    ensures var full := item.payload.value;
            && "source_time" in full && RawOf(item.kind, full).Some?
            && (Renormalized(env.normal(item.kind, RawOf(item.kind, full).value, big), full)
                <==> PlainUid(item.kind, full))
  {
    var p := env.normal(item.kind, source, item.window).value;
    var st := SourceTime(env.codec, e.raw.value, e.offset.value, item.collected, e.timeField);
    StoredRenormalizes(env, item.kind, source, item.window, big, st);
    PlainUnderMetadata(item.kind, p, st);
  }

  lemma PlainUnderMetadata(kind: Kind, p: Payload, st: Json)
    ensures PlainUid(kind, p) <==> PlainUid(kind, p["source_time" := st])
  {
  }

  lemma StoredPayloadChecks(env: Env, item: Item, e: Entry, started: int, source: Payload, big: Window)
    requires Stable(env) && Lawful(env.codec) && StoredFrom(env, item, e, started, source) && InRange(started)
    requires Datable(item.window) && Datable(big) && Nested(item.window, big)
    ensures item.payload.Some? && (PayloadOk(env, item, item.payload.value, big, started)
                                   <==> PlainUid(item.kind, item.payload.value))
  {
    StoredPayloadRenormalizes(env, item, e, started, source, big);
    if item.kind == Metric { StoredMetricReads(env, item, e, started, source); }
  }

  // ---- freezing and checking ----

  lemma CountOfWidened(items: seq<Item>, w: Window)
    ensures CountAvailable(Widened(items, w)) == CountAvailable(items)
  {
    if items != [] {
      var n := |items| - 1;
      CountOfWidened(items[..n], w);
      assert Widened(items, w)[..n] == Widened(items[..n], w);
    }
  }

  predicate HeadChecks(env: Env, s: Settings, item: Item, a: Audit, b: Bundle) {
    var e := EntryFor(a.entries, item.id);
    TimesOk(item, b) && e.Some? && EntryOk(env, s, item, e.value, a)
  }

  /** A frozen item passes every check but the payload's, and the payload's exactly when its uid is plain. */
  lemma FrozenItemChecks(env: Env, s: Settings, item: Item, e: Entry, a: Audit, b: Bundle)
    requires Stable(env) && Lawful(env.codec) && PairOk(env, s, a.started, item, e)
    requires EntryFor(a.entries, item.id) == Some(e)
    requires b.window == Window(a.started - s.lookback, b.created) && item.collected <= b.created && Datable(b.window)
    requires InRange(a.started)
    requires b.target == s.target && a.configHash == s.configHash
    ensures ItemOk(env, s, item.(window := b.window), a, b) <==> UidOk(item)
  {
    var wide := item.(window := b.window);
    assert HeadChecks(env, s, wide, a, b);
    if item.status == Available {
      var source :| StoredFrom(env, item, e, a.started, source);
      TextReadsBack(env.codec, item.collected);
      SourceTimeReads(env.codec, item, e);
      StoredPayloadChecks(env, item, e, a.started, source, b.window);
      SourceTimeSame(env, item, wide, e, a, b);
    }
  }

  /** The window of an item plays no part in the checks of its payload. */
  lemma SourceTimeSame(env: Env, item: Item, wide: Item, e: Entry, a: Audit, b: Bundle)
    requires wide == item.(window := b.window)
    requires item.payload.Some? && "source_time" in item.payload.value
    ensures SourceTimeOk(env.codec, item.payload.value["source_time"], wide, e)
            <==> SourceTimeOk(env.codec, item.payload.value["source_time"], item, e)
    ensures PayloadOk(env, wide, item.payload.value, b.window, a.started)
            <==> PayloadOk(env, item, item.payload.value, b.window, a.started)
  {
  }

  lemma EntriesDiffer(env: Env, s: Settings, b: Builder)
    requires BuilderOk(env, s, b)
    ensures forall j, k :: 0 <= j < k < |b.entries| ==> b.entries[j].id != b.entries[k].id
  {
    forall j, k | 0 <= j < k < |b.entries| ensures b.entries[j].id != b.entries[k].id {
      assert PairOk(env, s, b.started, b.items[j], b.entries[j]) && PairOk(env, s, b.started, b.items[k], b.entries[k]);
    }
  }

  lemma StartedInside(env: Env, s: Settings, b: Builder, now: int)
    requires BuilderOk(env, s, b) && b.items != [] && !(exists i :: 0 <= i < |b.items| && now < b.items[i].collected)
    ensures b.started <= now
  {
    assert PairOk(env, s, b.started, b.items[0], b.entries[0]);
  }

  lemma FrozenHeader(env: Env, s: Settings, b: Builder, now: Moment, late: bool, tooLarge: bool)
    requires BuilderOk(env, s, b) && s.lookback > 0 && Finish(env, s, b, now, late, tooLarge).Success?
    ensures var f := Finish(env, s, b, now, late, tooLarge).value.1;
            && HeaderOk(s, f.bundle, f.audit) && f.audit.status == StatusOf(f.bundle.evidence, f.audit.late)
            && |f.bundle.evidence| == |b.items| && f.audit.entries == b.entries && f.audit.started == b.started
            && f.bundle.window == Window(b.started - s.lookback, now) && f.bundle.created == now
            && forall i :: 0 <= i < |b.items| ==> f.bundle.evidence[i] == b.items[i].(window := f.bundle.window)
  {
    EntriesDiffer(env, s, b);
    StartedInside(env, s, b, now);
    CountOfWidened(b.items, Window(b.started - s.lookback, now));
  }

  lemma FrozenItem(env: Env, s: Settings, b: Builder, f: Frozen, i: nat)
    requires Stable(env) && Lawful(env.codec) && BuilderOk(env, s, b) && i < |b.items|
    requires b.items[i].collected <= f.bundle.created
    requires HeaderOk(s, f.bundle, f.audit) && f.audit.entries == b.entries && f.audit.started == b.started
    requires f.bundle.window == Window(b.started - s.lookback, f.bundle.created) && InRange(b.started)
             && InRange(f.bundle.created)
    ensures ItemOk(env, s, b.items[i].(window := f.bundle.window), f.audit, f.bundle) <==> UidOk(b.items[i])
  {
    assert PairOk(env, s, b.started, b.items[i], b.entries[i]);
    EntryIsFound(b.entries, i);
    FrozenItemChecks(env, s, b.items[i], b.entries[i], f.audit, f.bundle);
  }

  lemma FrozenIsValid(env: Env, s: Settings, b: Builder, f: Frozen)
    requires HeaderOk(s, f.bundle, f.audit) && f.audit.status == StatusOf(f.bundle.evidence, f.audit.late)
    requires |f.bundle.evidence| == |b.items|
    requires forall i {:trigger b.items[i]} :: 0 <= i < |b.items| ==>
             (ItemOk(env, s, f.bundle.evidence[i], f.audit, f.bundle) <==> UidOk(b.items[i]))
    ensures Validate(env, s, f) <==> forall i {:trigger b.items[i]} :: 0 <= i < |b.items| ==> UidOk(b.items[i])
  {
    if Validate(env, s, f) {
      forall i | 0 <= i < |b.items| ensures UidOk(b.items[i]) {
        assert ItemOk(env, s, f.bundle.evidence[i], f.audit, f.bundle);
      }
    }
    if forall i {:trigger b.items[i]} :: 0 <= i < |b.items| ==> UidOk(b.items[i]) {
      forall i | 0 <= i < |f.bundle.evidence| ensures ItemOk(env, s, f.bundle.evidence[i], f.audit, f.bundle) {
        assert UidOk(b.items[i]);
      }
    }
  }

  /**
   The checker accepts a frozen snapshot exactly when every available event's owner uid was left alone by
   redaction; nothing else about the candidates, the clock readings or the deadline can make it refuse.
   */
  lemma CheckerAcceptsExactly(env: Env, s: Settings, b: Builder, now: Moment, late: bool, tooLarge: bool)
    requires Stable(env) && Lawful(env.codec) && BuilderOk(env, s, b) && InRange(b.started) && s.lookback > 0
    requires Finish(env, s, b, now, late, tooLarge).Success?
    ensures Validate(env, s, Finish(env, s, b, now, late, tooLarge).value.1)
            <==> forall i {:trigger b.items[i]} :: 0 <= i < |b.items| ==> UidOk(b.items[i])
  {
    var f := Finish(env, s, b, now, late, tooLarge).value.1;
    FrozenHeader(env, s, b, now, late, tooLarge);
    forall i | 0 <= i < |b.items|
      ensures ItemOk(env, s, f.bundle.evidence[i], f.audit, f.bundle) <==> UidOk(b.items[i]) {
      FrozenItem(env, s, b, f, i);
    }
    FrozenIsValid(env, s, b, f);
  }

  // ---- whole collections ----

  datatype Candidate = Candidate(q: Source, observedAt: Option<string>, payload: Option<Payload>,
                                 failed: Option<Failed>, dimension: Option<string>, now: Moment, late: bool)

  /** Candidates the builder refuses change nothing. */
  function AddAll(env: Env, s: Settings, b: Builder, xs: seq<Candidate>): Builder
    decreases |xs|
  {
    if xs == [] then b
    else
      var x := xs[0];
      var r := Add(env, s, b, x.q, x.observedAt, x.payload, x.failed, x.dimension, x.now, x.late);
      AddAll(env, s, if r.Success? then r.value else b, xs[1..])
  }

  /** Read failures are failures, and dimensions come from the registered binding. */
  predicate Registered(s: Settings, xs: seq<Candidate>) {
    forall x :: x in xs ==> FailureOk(x.failed) && DimensionOk(s, x.dimension)
  }

  lemma {:induction false} AddAllKeepsBuilder(env: Env, s: Settings, b: Builder, xs: seq<Candidate>)
    requires BuilderOk(env, s, b) && Registered(s, xs)
    ensures BuilderOk(env, s, AddAll(env, s, b, xs))
    decreases |xs|
  {
    if xs != [] {
      var x := xs[0];
      AddKeepsBuilder(env, s, b, x.q, x.observedAt, x.payload, x.failed, x.dimension, x.now, x.late);
      var r := Add(env, s, b, x.q, x.observedAt, x.payload, x.failed, x.dimension, x.now, x.late);
      AddAllKeepsBuilder(env, s, if r.Success? then r.value else b, xs[1..]);
    }
  }

  lemma {:induction false} AddAllKeepsStart(env: Env, s: Settings, b: Builder, xs: seq<Candidate>)
    ensures AddAll(env, s, b, xs).started == b.started
    decreases |xs|
  {
    if xs != [] {
      var x := xs[0];
      var r := Add(env, s, b, x.q, x.observedAt, x.payload, x.failed, x.dimension, x.now, x.late);
      AddAllKeepsStart(env, s, if r.Success? then r.value else b, xs[1..]);
    }
  }

  function Opened(started: Moment): Builder { Builder(started, [], [], 0, false) }

  /**
   Producer and checker agree: after any candidates at all, the program's checker accepts what its builder
   froze, exactly when no available event holds an owner uid that redaction changed.
   */
  lemma ProducerAndCheckerAgree(c: Codec, size: Json -> nat, safe: string -> bool, s: Settings, started: Moment,
                                xs: seq<Candidate>, now: Moment, late: bool, tooLarge: bool)
    requires Lawful(c) && s.lookback > 0 && Registered(s, xs)
    requires var env := Program(c, size, safe);
             Finish(env, s, AddAll(env, s, Opened(started), xs), now, late, tooLarge).Success?
    ensures var env := Program(c, size, safe); var b := AddAll(env, s, Opened(started), xs);
            Validate(env, s, Finish(env, s, b, now, late, tooLarge).value.1)
            <==> forall i {:trigger b.items[i]} :: 0 <= i < |b.items| ==> UidOk(b.items[i])
  {
    var env := Program(c, size, safe);
    ProgramIsStable(c, size, safe);
    AddAllKeepsBuilder(env, s, Opened(started), xs);
    AddAllKeepsStart(env, s, Opened(started), xs);
    CheckerAcceptsExactly(env, s, AddAll(env, s, Opened(started), xs), now, late, tooLarge);
  }
}
