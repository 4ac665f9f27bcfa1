/**
 Normalising captured evidence is stable: what it stored, rebuilt in raw form and normalised again in any
 wider window, is what it stored.  The one exception is stated exactly: an event whose owner uid redaction
 would change.
 */
module CapturedLaws {
  import opened Wrappers
  import D = DiagnosticTokens
  import opened Evidence
  import opened Captured

  /** What the proofs use of times: UTC texts read back and hold no space, and no time holds a bracket. */
  ghost predicate TimesLawful(parse: string -> Option<Stamp>, text: int -> string) {
    && (forall t {:trigger text(t)} :: InRange(t) ==>
          parse(text(t)) == Some(Stamp(t, "Z")) && ' ' !in text(t) && |text(t)| <= 64)
    && (forall s {:trigger parse(s)} :: parse(s).Some? ==> '[' !in s)
  }

  /** What they use of redaction: whatever it changes, it leaves a bracket; and it leaves the fixed vocabulary alone. */
  ghost predicate RedactionLawful(text: int -> string, redact: string -> Option<string>) {
    && (forall s {:trigger redact(s)} :: redact(s).Some? && redact(s).value != s ==> '[' in redact(s).value)
    && (forall t, m {:trigger text(t), D.Diagnose(m)} ::
          InRange(t) ==> redact(text(t) + " " + D.Diagnose(m)) == Some(text(t) + " " + D.Diagnose(m)))
    && (forall m {:trigger D.Diagnose(m)} :: redact(D.Diagnose(m)) == Some(D.Diagnose(m)))
    && redact(OMITTED) == Some(OMITTED)
    && (forall s {:trigger redact(s)} :: s in REASONS || s == "Normal" || s == "Warning" ==> redact(s) == Some(s))
  }

  ghost predicate Lawful(c: Codec) { TimesLawful(c.parse, c.text) && RedactionLawful(c.text, c.redact) }

  predicate NoBracket(s: string) { '[' !in s }

  lemma SpelledHasNoBracket(s: string, limit: nat, extra: string)
    requires Spelled(s, limit, extra) && '[' !in extra
    ensures NoBracket(s)
  {
  }

  /** Kept text without a bracket was not redacted, so it is clean. */
  lemma KeptTextIsClean(c: Codec, raw: string)
    requires Lawful(c) && |raw| <= TEXT_LIMIT && c.redact(raw).Some? && NoBracket(c.redact(raw).value)
    ensures c.redact(raw).value == raw && Clean(c.redact, raw)
  {
  }

  /** The fields of a projection are projections of the fields. */
  lemma ProjectedField(c: Codec, kind: Kind, source: Payload, k: string)
    requires ProjectKind(c, kind, source).Some? && k in ProjectKind(c, kind, source).value
    ensures k in source && k in ShapeOf(kind)
    ensures Project(c.redact, source[k], ShapeOf(kind)[k], 1) == Some(ProjectKind(c, kind, source).value[k])
  {
    var kept := ProjectEach(c.redact, source, ShapeOf(kind), 1);
    assert k in Unwrap(kept);
  }

  predicate FieldClean(c: Codec, kind: Kind, p: Payload, k: string)
    requires k in p && k in ShapeOf(kind)
  {
    AllClean(c.redact, p[k], ShapeOf(kind)[k], 1)
  }

  predicate FieldsClean(c: Codec, kind: Kind, p: Payload) {
    forall k {:trigger FieldClean(c, kind, p, k)} :: k in p && k in ShapeOf(kind) ==> FieldClean(c, kind, p, k)
  }

  /** A projection whose texts are clean projects to itself. */
  lemma CleanKindAgain(c: Codec, kind: Kind, source: Payload)
    requires ProjectKind(c, kind, source).Some?
    requires FieldsClean(c, kind, ProjectKind(c, kind, source).value)
    ensures ProjectKind(c, kind, ProjectKind(c, kind, source).value) == ProjectKind(c, kind, source)
  {
    var p := ProjectKind(c, kind, source).value;
    forall k | k in ShapeOf(kind) && k in p ensures AllClean(c.redact, p[k], ShapeOf(kind)[k], 1) {
      assert FieldClean(c, kind, p, k);
    }
    assert AllClean(c.redact, Object(p), ObjectShape(ShapeOf(kind)), 0);
    ProjectAgain(c.redact, Object(source), ObjectShape(ShapeOf(kind)), 0);
  }

  lemma TextFieldIsClean(c: Codec, kind: Kind, source: Payload, k: string)
    requires Lawful(c) && ProjectKind(c, kind, source).Some? && k in ProjectKind(c, kind, source).value
    requires k in ShapeOf(kind) && ShapeOf(kind)[k].TextShape?
    ensures var v := ProjectKind(c, kind, source).value[k]; v.Text? && (NoBracket(v.s) ==> Clean(c.redact, v.s))
  {
    ProjectedField(c, kind, source, k);
    if NoBracket(ProjectKind(c, kind, source).value[k].s) { KeptTextIsClean(c, source[k].s); }
  }

  lemma WordsHaveNoBracket(s: string)
    requires s in PHASES || s in ROLES || s in STATUSES
    ensures NoBracket(s)
  {
  }

  lemma FlatTextHasNoBracket(kind: Kind, p: Payload, k: string)
    requires FlatOk(kind, p) && k in p && p[k].Text? && k in ShapeOf(kind) && ShapeOf(kind)[k].TextShape?
    ensures NoBracket(p[k].s)
  {
    if k in {"image"} {
      SpelledHasNoBracket(p[k].s, 512, "._/@:+-");
    } else if k in {"phase", "read_engine_role", "status"} {
      WordsHaveNoBracket(p[k].s);
    } else {
      SpelledHasNoBracket(p[k].s, 160, "._/-");
    }
  }

  lemma FlatFieldIsClean(c: Codec, kind: Kind, source: Payload, k: string)
    requires Lawful(c) && ProjectKind(c, kind, source).Some? && FlatOk(kind, ProjectKind(c, kind, source).value)
    requires k in ProjectKind(c, kind, source).value && k in ShapeOf(kind)
    ensures FieldClean(c, kind, ProjectKind(c, kind, source).value, k)
  {
    if ShapeOf(kind)[k].TextShape? {
      TextFieldIsClean(c, kind, source, k);
      FlatTextHasNoBracket(kind, ProjectKind(c, kind, source).value, k);
    } else {
      FlatShapes(kind, k);
    }
  }

  lemma FlatShapes(kind: Kind, k: string)
    requires kind in {Workload, Deployment, Config} && k in ShapeOf(kind)
    ensures ShapeOf(kind)[k] in {TextShape, BoolShape, NumberShape}
  {
  }

  lemma FlatIsProjection(c: Codec, kind: Kind, source: Payload)
    ensures NormalizeFlat(c, kind, source).Some? <==>
            ProjectKind(c, kind, source).Some? && FlatOk(kind, ProjectKind(c, kind, source).value)
    ensures NormalizeFlat(c, kind, source).Some? ==> NormalizeFlat(c, kind, source) == ProjectKind(c, kind, source)
  {
  }

  lemma FlatAgain(c: Codec, kind: Kind, source: Payload)
    requires Lawful(c) && NormalizeFlat(c, kind, source).Some?
    ensures NormalizeFlat(c, kind, NormalizeFlat(c, kind, source).value) == NormalizeFlat(c, kind, source)
  {
    FlatIsProjection(c, kind, source);
    var p := ProjectKind(c, kind, source).value;
    forall k | k in p && k in ShapeOf(kind) ensures FieldClean(c, kind, p, k) {
      FlatFieldIsClean(c, kind, source, k);
    }
    CleanKindAgain(c, kind, source);
    FlatIsProjection(c, kind, p);
  }

  // ---- events ----

  lemma EventMessageIsStable(message: string)
    ensures EventMessage(EventMessage(message)) == EventMessage(message) && |EventMessage(message)| <= 820
  {
    if D.Tokens(message) == [] {
      D.WordlessHasNoTokens(OMITTED);
    } else {
      D.DiagnoseIsStable(message);
      D.DiagnoseIsShort(message);
    }
  }

  function MessageOf(source: Payload): string {
    if "message" in source && source["message"].Text? then source["message"].s else ""
  }

  lemma ProjectText(c: Codec, s: string)
    requires |s| <= TEXT_LIMIT
    ensures Project(c.redact, Text(s), TextShape, 1) == if c.redact(s).None? then None
            else Some(Text(c.redact(s).value))
  {
  }

  lemma EventShape(k: string)
    ensures k in ShapeOf(Event) <==> k in {"reason", "type", "involved_uid", "message"}
    ensures k in ShapeOf(Event) ==> ShapeOf(Event)[k] == TextShape
  {
  }

  /** The fields projected from a filtered event. */
  lemma EventEach(c: Codec, filtered: Payload)
    requires forall k :: k in {"reason", "type", "involved_uid", "message"} ==> k in filtered
    ensures var kept := ProjectEach(c.redact, filtered, ShapeOf(Event), 1);
            && kept.Keys == {"reason", "type", "involved_uid", "message"}
            && forall k :: k in kept ==> kept[k] == Project(c.redact, filtered[k], TextShape, 1)
  {
    forall k ensures k in ShapeOf(Event) <==> k in {"reason", "type", "involved_uid", "message"} {
      EventShape(k);
    }
    forall k | k in ShapeOf(Event) ensures ShapeOf(Event)[k] == TextShape {
      EventShape(k);
    }
  }

  lemma EventUnwraps(c: Codec, filtered: Payload)
    requires forall k :: k in {"reason", "type", "involved_uid", "message"} ==> k in filtered
    ensures var kept := ProjectEach(c.redact, filtered, ShapeOf(Event), 1);
            && (ProjectKind(c, Event, filtered).Some? <==> AllSome(kept))
            && (AllSome(kept) ==> ProjectKind(c, Event, filtered).value == Unwrap(kept))
  {
    EventEach(c, filtered);
    assert "reason" in ProjectEach(c.redact, filtered, ShapeOf(Event), 1);
  }

  lemma UnwrapIs(kept: map<string, Option<Json>>, m: Payload)
    requires kept.Keys == m.Keys && forall k :: k in kept ==> kept[k] == Some(m[k])
    ensures AllSome(kept) && Unwrap(kept) == m
  {
  }

  /** The event payload with these four texts. */
  function EventPayload(reason: string, type_: string, uid: string, message: string): Payload {
    map["reason" := Text(reason), "type" := Text(type_), "involved_uid" := Text(uid), "message" := Text(message)]
  }

  predicate HasEvent(filtered: Payload, reason: string, type_: string, uid: string, message: string) {
    && "reason" in filtered && "type" in filtered && "involved_uid" in filtered && "message" in filtered
    && filtered["reason"] == Text(reason) && filtered["type"] == Text(type_)
    && filtered["involved_uid"] == Text(uid) && filtered["message"] == Text(message)
  }

  lemma EventTexts(c: Codec, reason: string, type_: string, uid: string, message: string)
    requires Lawful(c) && reason in REASONS && type_ in {"Normal", "Warning"} && |uid| <= 80 && |message| <= 820
    requires c.redact(message) == Some(message)
    ensures Project(c.redact, Text(reason), TextShape, 1) == Some(Text(reason))
    ensures Project(c.redact, Text(type_), TextShape, 1) == Some(Text(type_))
    ensures Project(c.redact, Text(message), TextShape, 1) == Some(Text(message))
    ensures Project(c.redact, Text(uid), TextShape, 1) == if c.redact(uid).None? then None
            else Some(Text(c.redact(uid).value))
  {
    ReasonsAreShort(reason, type_);
    ProjectText(c, reason);
    ProjectText(c, type_);
    ProjectText(c, uid);
    ProjectText(c, message);
  }

  lemma EventAssembles(c: Codec, reason: string, type_: string, uid: string, message: string, filtered: Payload)
    requires HasEvent(filtered, reason, type_, uid, message)
    requires Project(c.redact, Text(reason), TextShape, 1) == Some(Text(reason))
    requires Project(c.redact, Text(type_), TextShape, 1) == Some(Text(type_))
    requires Project(c.redact, Text(message), TextShape, 1) == Some(Text(message))
    requires Project(c.redact, Text(uid), TextShape, 1) == if c.redact(uid).None? then None
             else Some(Text(c.redact(uid).value))
    ensures var kept := ProjectEach(c.redact, filtered, ShapeOf(Event), 1);
            && (c.redact(uid).None? ==> !AllSome(kept))
            && (c.redact(uid).Some? ==>
                AllSome(kept) && Unwrap(kept) == EventPayload(reason, type_, c.redact(uid).value, message))
  {
    EventEach(c, filtered);
    var kept := ProjectEach(c.redact, filtered, ShapeOf(Event), 1);
    if c.redact(uid).Some? {
      UnwrapIs(kept, EventPayload(reason, type_, c.redact(uid).value, message));
    } else {
      assert "involved_uid" in kept && kept["involved_uid"].None?;
    }
  }

  /** What projecting a filtered event keeps: three texts redaction leaves, and the owner uid redacted. */
  lemma EventProjects(c: Codec, reason: string, type_: string, uid: string, message: string, filtered: Payload)
    requires Lawful(c) && reason in REASONS && type_ in {"Normal", "Warning"} && |uid| <= 80 && |message| <= 820
    requires c.redact(message) == Some(message) && HasEvent(filtered, reason, type_, uid, message)
    ensures ProjectKind(c, Event, filtered) ==
            if c.redact(uid).None? then None else Some(EventPayload(reason, type_, c.redact(uid).value, message))
  {
    EventTexts(c, reason, type_, uid, message);
    EventAssembles(c, reason, type_, uid, message, filtered);
    EventUnwraps(c, filtered);
  }

  lemma ReasonsAreShort(reason: string, type_: string)
    requires reason in REASONS && type_ in {"Normal", "Warning"}
    ensures |reason| <= 20 && |type_| <= 20
  {
  }

  lemma EventMessageIsKept(c: Codec, message: string)
    requires Lawful(c)
    ensures c.redact(EventMessage(message)) == Some(EventMessage(message))
  {
  }

  lemma EventStored(c: Codec, source: Payload)
    requires Lawful(c) && EventSourceOk(source)
    ensures var uid := source["involved_uid"].s;
            NormalizeEvent(c, source) ==
            if c.redact(uid).None? then None
            else Some(EventPayload(source["reason"].s, source["type"].s, c.redact(uid).value,
                                   EventMessage(MessageOf(source))))
  {
    var message := EventMessage(MessageOf(source));
    EventMessageIsStable(MessageOf(source));
    EventMessageIsKept(c, MessageOf(source));
    EventProjects(c, source["reason"].s, source["type"].s, source["involved_uid"].s, message,
                  source["message" := Text(message)]);
  }

  /** An event whose uid was redacted cannot pass the check of the uid again. */
  lemma RedactedUidIsRefused(c: Codec, reason: string, type_: string, uid: string, message: string)
    requires Lawful(c) && c.redact(uid).Some? && c.redact(uid).value != uid
    ensures NormalizeEvent(c, EventPayload(reason, type_, c.redact(uid).value, message)) == None
  {
    var kept := c.redact(uid).value;
    assert '[' in kept;
    if Uid(kept) { SpelledHasNoBracket(kept, 80, "-"); }
  }

  lemma PayloadIsSource(reason: string, type_: string, uid: string, message: string)
    requires reason in REASONS && type_ in {"Normal", "Warning"} && Uid(uid) && |message| <= 820
    ensures var p := EventPayload(reason, type_, uid, message);
            && EventSourceOk(p) && MessageOf(p) == message
            && p["reason"] == Text(reason) && p["type"] == Text(type_) && p["involved_uid"] == Text(uid)
  {
  }

  lemma PlainEventAgain(c: Codec, reason: string, type_: string, uid: string, message: string)
    requires Lawful(c) && reason in REASONS && type_ in {"Normal", "Warning"} && Uid(uid) && c.redact(uid) == Some(uid)
    ensures var p := EventPayload(reason, type_, uid, EventMessage(message)); NormalizeEvent(c, p) == Some(p)
  {
    EventMessageIsStable(message);
    PayloadIsSource(reason, type_, uid, EventMessage(message));
    EventStored(c, EventPayload(reason, type_, uid, EventMessage(message)));
  }

  /** The checker accepts a stored event exactly when redaction left its owner uid alone. */
  lemma EventAgain(c: Codec, source: Payload)
    requires Lawful(c) && NormalizeEvent(c, source).Some?
    ensures var p := NormalizeEvent(c, source).value; var uid := source["involved_uid"].s;
            NormalizeEvent(c, p) == Some(p) <==> c.redact(uid) == Some(uid)
  {
    EventStored(c, source);
    var uid := source["involved_uid"].s;
    if c.redact(uid) == Some(uid) {
      PlainEventAgain(c, source["reason"].s, source["type"].s, uid, MessageOf(source));
    } else {
      RedactedUidIsRefused(c, source["reason"].s, source["type"].s, uid, EventMessage(MessageOf(source)));
    }
  }

  // ---- metrics ----

  predicate Nested(small: Window, big: Window) { big.start <= small.start && small.end <= big.end }

  lemma {:induction false} StampsStay(c: Codec, items: seq<Json>, w: Window, big: Window)
    requires Nested(w, big) && StampAll(c, items, w).Some?
    ensures StampAll(c, items, big) == StampAll(c, items, w) && |StampAll(c, items, w).value| == |items|
    ensures forall i :: 0 <= i < |items| ==> StampSample(c, items[i], w) == Some(StampAll(c, items, w).value[i])
  {
    if items != [] {
      var n := |items| - 1;
      StampsStay(c, items[..n], w, big);
      assert forall i :: 0 <= i < n ==> items[..n][i] == items[i];
    }
  }

  predicate ThreeFields(s: Json) { s.Object? && s.fields.Keys == {"at", "outcome", "value"} }

  lemma UnstampUndoesStamp(c: Codec, s: Json, w: Window)
    requires ThreeFields(s) && StampSample(c, s, w).Some?
    ensures Unstamp(StampSample(c, s, w).value) == s
  {
    var t := StampSample(c, s, w).value.fields;
    assert t["source_at"] == s.fields["at"] && t["outcome"] == s.fields["outcome"] && t["value"] == s.fields["value"];
    assert map["at" := t["source_at"], "outcome" := t["outcome"], "value" := t["value"]] == s.fields;
  }

  lemma SampleShape(k: string)
    ensures k in SAMPLE.fields <==> k in {"at", "outcome", "value"}
    ensures k in {"at", "outcome"} ==> SAMPLE.fields[k] == TextShape
    ensures k == "value" ==> SAMPLE.fields[k] == NumberShape
  {
  }

  /** A text field of a projected sample is the projection of that field. */
  lemma SampleText(c: Codec, v: Json, k: string)
    requires Project(c.redact, v, SAMPLE, 2).Some? && k in {"at", "outcome"}
    ensures var u := Project(c.redact, v, SAMPLE, 2).value;
            && u.Object? && v.Object?
            && (k in u.fields ==> k in v.fields && Project(c.redact, v.fields[k], TextShape, 3) == Some(u.fields[k]))
  {
    SampleShape(k);
    var kept := ProjectEach(c.redact, v.fields, SAMPLE.fields, 3);
    assert Project(c.redact, v, SAMPLE, 2).value == Object(Unwrap(kept));
  }

  lemma OutcomesHaveNoBracket(query: string, outcome: string)
    requires query in QUERIES && outcome in OutcomesOf(query)
    ensures NoBracket(outcome) && NoBracket(query) && NoBracket(UnitOf(query))
  {
  }

  lemma CleanSample(c: Codec, u: Json)
    requires ThreeFields(u) && TextAt(u.fields, "at") && TextAt(u.fields, "outcome")
    requires Clean(c.redact, u.fields["at"].s) && Clean(c.redact, u.fields["outcome"].s)
    ensures AllClean(c.redact, u, SAMPLE, 2)
  {
    forall k | k in SAMPLE.fields && k in u.fields ensures AllClean(c.redact, u.fields[k], SAMPLE.fields[k], 3) {
      SampleShape(k);
    }
  }

  lemma StampedTimeHasNoBracket(c: Codec, u: Json, w: Window)
    requires Lawful(c) && StampSample(c, u, w).Some?
    ensures u.Object? && TextAt(u.fields, "at") && NoBracket(u.fields["at"].s)
  {
  }

  lemma SampleKeys(c: Codec, v: Json)
    requires Project(c.redact, v, SAMPLE, 2).Some?
    ensures var u := Project(c.redact, v, SAMPLE, 2).value; u.Object? && u.fields.Keys <= SAMPLE.fields.Keys
  {
  }

  lemma SampleHasThreeFields(c: Codec, v: Json, u: Json, query: string)
    requires Project(c.redact, v, SAMPLE, 2) == Some(u) && SampleOk(query, u)
    ensures ThreeFields(u)
  {
    SampleKeys(c, v);
    assert SAMPLE.fields.Keys == {"at", "outcome", "value"};
  }

  lemma SampleTextIsClean(c: Codec, v: Json, u: Json, k: string)
    requires Lawful(c) && Project(c.redact, v, SAMPLE, 2) == Some(u) && k in {"at", "outcome"}
    requires u.Object? && TextAt(u.fields, k) && NoBracket(u.fields[k].s)
    ensures Clean(c.redact, u.fields[k].s)
  {
    SampleText(c, v, k);
    KeptTextIsClean(c, v.fields[k].s);
  }

  lemma SampleIsClean(c: Codec, v: Json, u: Json, query: string, w: Window)
    requires Lawful(c) && query in QUERIES && Project(c.redact, v, SAMPLE, 2) == Some(u)
    requires SampleOk(query, u) && StampSample(c, u, w).Some?
    ensures ThreeFields(u) && AllClean(c.redact, u, SAMPLE, 2)
  {
    SampleHasThreeFields(c, v, u, query);
    OutcomesHaveNoBracket(query, u.fields["outcome"].s);
    StampedTimeHasNoBracket(c, u, w);
    SampleTextIsClean(c, v, u, "at");
    SampleTextIsClean(c, v, u, "outcome");
    CleanSample(c, u);
  }

  lemma SamplesAreProjected(c: Codec, source: Payload)
    requires ProjectKind(c, Metric, source).Some? && MetricShapeOk(ProjectKind(c, Metric, source).value)
    ensures "samples" in source && source["samples"].List?
    ensures var items := ProjectKind(c, Metric, source).value["samples"].items;
            && |source["samples"].items| == |items| <= LIST_LIMIT
            && forall i :: 0 <= i < |items| ==>
               Project(c.redact, source["samples"].items[i], SAMPLE, 2) == Some(items[i])
  {
    ProjectedField(c, Metric, source, "samples");
    ProjectAllItems(c.redact, source["samples"].items, SAMPLE, 2);
  }

  lemma MetricSamplesAreClean(c: Codec, source: Payload, w: Window)
    requires Lawful(c) && NormalizeMetric(c, source, w).Some?
    ensures var p := ProjectKind(c, Metric, source).value;
            && AllClean(c.redact, p["samples"], ListShape(SAMPLE), 1)
            && forall i :: 0 <= i < |p["samples"].items| ==> ThreeFields(p["samples"].items[i])
  {
    var p := ProjectKind(c, Metric, source).value;
    var items := p["samples"].items;
    SamplesAreProjected(c, source);
    StampsStay(c, items, w, w);
    forall i | 0 <= i < |items| ensures ThreeFields(items[i]) && AllClean(c.redact, items[i], SAMPLE, 2) {
      SampleIsClean(c, source["samples"].items[i], items[i], p["query_id"].s, w);
    }
  }

  lemma MetricShape(k: string)
    ensures k in ShapeOf(Metric) <==> k in {"query_id", "unit", "samples"}
    ensures k in {"query_id", "unit"} ==> ShapeOf(Metric)[k] == TextShape
    ensures k == "samples" ==> ShapeOf(Metric)[k] == ListShape(SAMPLE)
  {
  }

  lemma MetricIsClean(c: Codec, source: Payload, w: Window)
    requires Lawful(c) && NormalizeMetric(c, source, w).Some?
    ensures FieldsClean(c, Metric, ProjectKind(c, Metric, source).value)
  {
    var p := ProjectKind(c, Metric, source).value;
    MetricSamplesAreClean(c, source, w);
    OutcomesHaveNoBracket(p["query_id"].s, p["samples"].items[0].fields["outcome"].s);
    forall k | k in p && k in ShapeOf(Metric) ensures FieldClean(c, Metric, p, k) {
      MetricShape(k);
      if k != "samples" { TextFieldIsClean(c, Metric, source, k); }
    }
  }

  lemma RebuildUndoesStamps(c: Codec, items: seq<Json>, w: Window)
    requires StampAll(c, items, w).Some? && forall i :: 0 <= i < |items| ==> ThreeFields(items[i])
    ensures var st := StampAll(c, items, w).value;
            seq(|st|, i requires 0 <= i < |st| => Unstamp(st[i])) == items
  {
    StampsStay(c, items, w, w);
    forall i | 0 <= i < |items| ensures Unstamp(StampAll(c, items, w).value[i]) == items[i] {
      UnstampUndoesStamp(c, items[i], w);
    }
  }

  lemma MetricUnfolds(c: Codec, source: Payload, w: Window)
    ensures NormalizeMetric(c, source, w).Some? <==>
            var p := ProjectKind(c, Metric, source);
            && p.Some? && MetricShapeOk(p.value) && StampAll(c, p.value["samples"].items, w).Some? && MetricOk(p.value)
    ensures NormalizeMetric(c, source, w).Some? ==>
            var p := ProjectKind(c, Metric, source).value;
            NormalizeMetric(c, source, w).value == p["samples" := List(StampAll(c, p["samples"].items, w).value)]
  {
  }

  lemma MetricIsRebuilt(c: Codec, p: Payload, w: Window)
    requires MetricShapeOk(p) && StampAll(c, p["samples"].items, w).Some?
    requires forall i :: 0 <= i < |p["samples"].items| ==> ThreeFields(p["samples"].items[i])
    ensures Rebuild(Metric, p["samples" := List(StampAll(c, p["samples"].items, w).value)]) == Some(p)
  {
    RebuildUndoesStamps(c, p["samples"].items, w);
    var stored := p["samples" := List(StampAll(c, p["samples"].items, w).value)];
    assert stored["samples" := p["samples"]] == p;
  }

  /** A stored metric is rebuilt to its projection, and normalises to itself in any wider window. */
  lemma MetricAgain(c: Codec, source: Payload, w: Window, big: Window)
    requires Lawful(c) && NormalizeMetric(c, source, w).Some? && Nested(w, big)
    ensures var p := NormalizeMetric(c, source, w).value;
            Rebuild(Metric, p).Some? && NormalizeMetric(c, Rebuild(Metric, p).value, big) == Some(p)
  {
    MetricUnfolds(c, source, w);
    var p := ProjectKind(c, Metric, source).value;
    MetricSamplesAreClean(c, source, w);
    MetricIsClean(c, source, w);
    CleanKindAgain(c, Metric, source);
    StampsStay(c, p["samples"].items, w, big);
    MetricIsRebuilt(c, p, w);
    MetricUnfolds(c, p, big);
  }

  // ---- logs ----

  predicate LineOk(c: Codec, l: Line, w: Window) {
    && c.parse(l.raw) == Some(l.stamp) && ' ' !in l.raw && |l.raw| <= 64 && In(w, l.stamp.at)
       && D.Tokens(l.message) != []
  }

  lemma {:induction false} ReadLinesAreOk(c: Codec, lines: seq<Json>, w: Window)
    requires ReadLines(c, lines, w).Some?
    ensures |ReadLines(c, lines, w).value| <= |lines|
    ensures forall i :: 0 <= i < |ReadLines(c, lines, w).value| ==> LineOk(c, ReadLines(c, lines, w).value[i], w)
  {
    if lines != [] {
      var n := |lines| - 1;
      ReadLinesAreOk(c, lines[..n], w);
      FindBounds(lines[n].s, ' ');
    }
  }

  lemma {:induction false} FindAfter(raw: string, rest: string)
    requires ' ' !in raw
    ensures Find(raw + " " + rest, ' ') == |raw|
  {
    if raw == "" {
      assert (raw + " " + rest)[0] == ' ';
    } else {
      assert (raw + " " + rest)[1..] == raw[1..] + " " + rest;
      FindAfter(raw[1..], rest);
    }
  }

  /** What the checker puts back together for a stored line. */
  function Rejoined(l: Line): Json { Text(l.raw + " " + D.Diagnose(l.message)) }

  function Shortened(l: Line): Line { Line(l.raw, l.stamp, D.Diagnose(l.message)) }

  predicate DatedLine(l: Line) { InRange(l.stamp.at) }

  predicate DatedLines(ls: seq<Line>) { forall i :: 0 <= i < |ls| ==> DatedLine(ls[i]) }

  lemma RejoinIs(c: Codec, l: Line)
    requires Lawful(c) && DatedLine(l)
    ensures Rejoin(Text(CleanLine(c, l)), LineTime(c, l)) == Rejoined(l)
  {
    FindAfter(c.text(l.stamp.at), D.Diagnose(l.message));
    var s := CleanLine(c, l);
    assert s[|c.text(l.stamp.at)| + 1..] == D.Diagnose(l.message);
  }

  lemma RejoinedIsRead(c: Codec, l: Line, w: Window, big: Window)
    requires LineOk(c, l, w) && Nested(w, big)
    ensures ReadLine(c, Rejoined(l), big) == Some(Shortened(l)) && D.Tokens(Shortened(l).message) != []
  {
    D.DiagnoseIsShort(l.message);
    D.DiagnoseIsStable(l.message);
    FindAfter(l.raw, D.Diagnose(l.message));
    var s := Rejoined(l).s;
    assert s[..|l.raw|] == l.raw && s[|l.raw| + 1..] == D.Diagnose(l.message);
  }

  function RejoinedAll(ls: seq<Line>): seq<Json> { seq(|ls|, i requires 0 <= i < |ls| => Rejoined(ls[i])) }

  function ShortenedAll(ls: seq<Line>): seq<Line> { seq(|ls|, i requires 0 <= i < |ls| => Shortened(ls[i])) }

  lemma {:induction false} RejoinedLinesAreRead(c: Codec, ls: seq<Line>, w: Window, big: Window)
    requires Nested(w, big) && forall i :: 0 <= i < |ls| ==> LineOk(c, ls[i], w)
    ensures ReadLines(c, RejoinedAll(ls), big) == Some(ShortenedAll(ls))
  {
    if ls == [] {
      assert RejoinedAll(ls) == [] && ShortenedAll(ls) == [];
    } else {
      var n := |ls| - 1;
      RejoinedLinesAreRead(c, ls[..n], w, big);
      RejoinedIsRead(c, ls[n], w, big);
      RejoinedParts(ls);
      ReadOneMore(c, RejoinedAll(ls), big, ShortenedAll(ls[..n]), Shortened(ls[n]));
    }
  }

  lemma ReadOneMore(c: Codec, lines: seq<Json>, w: Window, first: seq<Line>, last: Line)
    requires lines != [] && ReadLines(c, lines[..|lines| - 1], w) == Some(first)
    requires ReadLine(c, lines[|lines| - 1], w) == Some(last) && D.Tokens(last.message) != []
    ensures ReadLines(c, lines, w) == Some(first + [last])
  {
  }

  lemma RejoinedParts(ls: seq<Line>)
    requires ls != []
    ensures var n := |ls| - 1;
            && |RejoinedAll(ls)| == |ls| && RejoinedAll(ls)[..n] == RejoinedAll(ls[..n])
               && RejoinedAll(ls)[n] == Rejoined(ls[n])
            && ShortenedAll(ls) == ShortenedAll(ls[..n]) + [Shortened(ls[n])]
  {
  }

  lemma RejoinAllIs(c: Codec, ls: seq<Line>)
    requires Lawful(c) && DatedLines(ls)
    ensures |CleanLines(c, ls)| == |LineTimes(c, ls)| && RejoinAll(CleanLines(c, ls), LineTimes(c, ls))
            == RejoinedAll(ls)
  {
    forall i | 0 <= i < |ls| ensures RejoinAll(CleanLines(c, ls), LineTimes(c, ls))[i] == RejoinedAll(ls)[i] {
      RejoinIs(c, ls[i]);
    }
  }

  /** The shortened lines are cleaned to the same text, at the same times. */
  lemma ShortenedAreClean(c: Codec, ls: seq<Line>)
    ensures CleanLines(c, ShortenedAll(ls)) == CleanLines(c, ls) && LineTimes(c, ShortenedAll(ls)) == LineTimes(c, ls)
  {
    forall i | 0 <= i < |ls| ensures CleanLine(c, Shortened(ls[i])) == CleanLine(c, ls[i]) {
      D.DiagnoseIsStable(ls[i].message);
    }
  }

  lemma LogShape(k: string)
    ensures k in ShapeOf(Log) <==> k in {"container", "lines"}
    ensures k == "container" ==> ShapeOf(Log)[k] == TextShape
    ensures k == "lines" ==> ShapeOf(Log)[k] == ListShape(TextShape)
  {
  }

  lemma CleanLineStays(c: Codec, l: Line)
    requires Lawful(c) && DatedLine(l)
    ensures c.redact(CleanLine(c, l)) == Some(CleanLine(c, l)) && |CleanLine(c, l)| <= 900
    ensures Project(c.redact, Text(CleanLine(c, l)), TextShape, 2) == Some(Text(CleanLine(c, l)))
    ensures AllClean(c.redact, Text(CleanLine(c, l)), TextShape, 2)
  {
    D.DiagnoseIsShort(l.message);
  }

  lemma CleanLinesProject(c: Codec, ls: seq<Line>)
    requires Lawful(c) && DatedLines(ls) && |ls| <= LIST_LIMIT
    ensures Project(c.redact, List(CleanLines(c, ls)), ListShape(TextShape), 1) == Some(List(CleanLines(c, ls)))
    ensures AllClean(c.redact, List(CleanLines(c, ls)), ListShape(TextShape), 1)
  {
    var lines := CleanLines(c, ls);
    forall i | 0 <= i < |lines|
      ensures Project(c.redact, lines[i], TextShape, 2) == Some(lines[i])
              && AllClean(c.redact, lines[i], TextShape, 2) {
      CleanLineStays(c, ls[i]);
    }
    ProjectAllItems(c.redact, lines, TextShape, 2);
    assert ProjectAll(c.redact, lines, TextShape, 2).value == lines;
  }

  function LogFields(container: Json, lines: seq<Json>): Payload {
    map["container" := container, "lines" := List(lines)]
  }

  lemma ContainerIsKept(c: Codec, source: Payload)
    requires Lawful(c) && ProjectKind(c, Log, source).Some?
    requires var p := ProjectKind(c, Log, source).value; TextAt(p, "container") && ContainerName(p["container"].s)
    ensures "container" in source && ProjectKind(c, Log, source).value["container"] == source["container"]
    ensures source["container"].Text? && Clean(c.redact, source["container"].s)
  {
    var p := ProjectKind(c, Log, source).value;
    LogShape("container");
    SpelledHasNoBracket(p["container"].s, 63, "-");
    ProjectedField(c, Log, source, "container");
    KeptTextIsClean(c, source["container"].s);
  }

  lemma LinesStay(c: Codec, source: Payload, ls: seq<Line>)
    requires Lawful(c) && ProjectKind(c, Log, source).Some? && DatedLines(ls) && |ls| <= LIST_LIMIT
    requires "lines" in source && source["lines"] == List(CleanLines(c, ls))
    ensures "lines" in ProjectKind(c, Log, source).value && ProjectKind(c, Log, source).value["lines"]
            == source["lines"]
  {
    LogKeys(c, source);
    LogShape("lines");
    ProjectedField(c, Log, source, "lines");
    CleanLinesProject(c, ls);
  }

  /** What projecting cleaned lines keeps: exactly the container's name and those lines. */
  lemma LogKeeps(c: Codec, container: Json, ls: seq<Line>)
    requires Lawful(c) && DatedLines(ls) && |ls| <= LIST_LIMIT
    requires var p := ProjectKind(c, Log, LogFields(container, CleanLines(c, ls)));
             p.Some? && TextAt(p.value, "container") && ContainerName(p.value["container"].s)
    ensures ProjectKind(c, Log, LogFields(container, CleanLines(c, ls)))
            == Some(LogFields(container, CleanLines(c, ls)))
    ensures container.Text?
  {
    var source := LogFields(container, CleanLines(c, ls));
    ContainerIsKept(c, source);
    LinesStay(c, source, ls);
    LogKeys(c, source);
    SameTwoFields(ProjectKind(c, Log, source).value, source);
  }

  lemma SameTwoFields(p: Payload, source: Payload)
    requires source.Keys == {"container", "lines"} && p.Keys == source.Keys * {"container", "lines"}
    requires "container" in p && "lines" in p && p["container"] == source["container"] && p["lines"] == source["lines"]
    ensures p == source
  {
  }

  lemma LogKeys(c: Codec, source: Payload)
    requires ProjectKind(c, Log, source).Some?
    ensures ProjectKind(c, Log, source).value.Keys == source.Keys * {"container", "lines"}
  {
    var kept := ProjectEach(c.redact, source, ShapeOf(Log), 1);
    assert ProjectKind(c, Log, source).value == Unwrap(kept);
    assert ShapeOf(Log).Keys == {"container", "lines"};
  }

  lemma LogUnfolds(c: Codec, source: Payload, w: Window, ls: seq<Line>)
    requires "lines" in source && source["lines"].List? && 1 <= |source["lines"].items| <= 200 && "container" in source
    requires ReadLines(c, source["lines"].items, w) == Some(ls) && ls != []
    ensures NormalizeLog(c, source, w) ==
            var p := ProjectKind(c, Log, LogFields(source["container"], CleanLines(c, ls)));
            if p.None? || !TextAt(p.value, "container") || !ContainerName(p.value["container"].s) then Failure(Invalid)
            else Success(p.value["line_times" := List(LineTimes(c, ls))])
  {
  }

  /** The payload of a stored log. */
  function LogPayload(c: Codec, container: Json, ls: seq<Line>): Payload {
    LogFields(container, CleanLines(c, ls))["line_times" := List(LineTimes(c, ls))]
  }

  lemma LogStored(c: Codec, source: Payload, w: Window) returns (ls: seq<Line>)
    requires Lawful(c) && Datable(w) && NormalizeLog(c, source, w).Success?
    ensures DatedLines(ls)
    ensures "container" in source && source["container"].Text? && ls != [] && |ls| <= 200
    ensures forall i :: 0 <= i < |ls| ==> LineOk(c, ls[i], w)
    ensures NormalizeLog(c, source, w).value == LogPayload(c, source["container"], ls)
    ensures ProjectKind(c, Log, LogFields(source["container"], CleanLines(c, ls)))
            == Some(LogFields(source["container"], CleanLines(c, ls)))
    ensures ContainerName(source["container"].s)
  {
    ls := ReadLines(c, source["lines"].items, w).value;
    ReadLinesAreOk(c, source["lines"].items, w);
    var container := if "container" in source then source["container"] else Null;
    LogKeeps(c, container, ls);
  }

  lemma LogRebuilds(container: Json, lines: seq<Json>, times: seq<Json>)
    requires |lines| == |times|
    ensures Rebuild(Log, LogFields(container, lines)["line_times" := List(times)])
            == Some(LogFields(container, RejoinAll(lines, times)))
  {
    var p := LogFields(container, lines)["line_times" := List(times)];
    assert p - {"line_times"} == LogFields(container, lines);
    assert LogFields(container, lines)["lines" := List(RejoinAll(lines, times))]
      == LogFields(container, RejoinAll(lines, times));
  }

  lemma LogIsRebuilt(c: Codec, container: Json, ls: seq<Line>)
    requires Lawful(c) && DatedLines(ls)
    ensures Rebuild(Log, LogPayload(c, container, ls)) == Some(LogFields(container, RejoinedAll(ls)))
  {
    RejoinAllIs(c, ls);
    LogRebuilds(container, CleanLines(c, ls), LineTimes(c, ls));
  }

  /** A stored log, its lines put back behind their original times, normalises to itself in any wider window. */
  lemma LogAgain(c: Codec, source: Payload, w: Window, big: Window)
    requires Lawful(c) && Datable(w) && NormalizeLog(c, source, w).Success? && Nested(w, big)
    ensures var p := NormalizeLog(c, source, w).value;
            Rebuild(Log, p).Some? && NormalizeLog(c, Rebuild(Log, p).value, big) == Success(p)
  {
    var ls := LogStored(c, source, w);
    var container := source["container"];
    LogIsRebuilt(c, container, ls);
    RejoinedLinesAreRead(c, ls, w, big);
    ShortenedAreClean(c, ls);
    LogUnfolds(c, LogFields(container, RejoinedAll(ls)), big, ShortenedAll(ls));
  }

  // ---- all kinds ----

  /** The owner uid of an event, where redaction may interfere; any other evidence has nothing to say here. */
  predicate UidStays(c: Codec, kind: Kind, source: Payload) {
    kind == Event && TextAt(source, "involved_uid") ==>
      c.redact(source["involved_uid"].s) == Some(source["involved_uid"].s)
  }

  /**
   What was stored, rebuilt and normalised again in any wider window, is what was stored: for an event
   exactly when redaction left its owner uid alone, and for everything else always.
   */
  lemma NormalizeAgain(c: Codec, kind: Kind, source: Payload, w: Window, big: Window)
    requires Lawful(c) && Datable(w) && Normalize(c, kind, source, w).Success? && Nested(w, big)
    ensures var p := Normalize(c, kind, source, w).value;
            Rebuild(kind, p).Some?
            && (Normalize(c, kind, Rebuild(kind, p).value, big) == Success(p) <==> UidStays(c, kind, source))
  {
    match kind
    case Metric => MetricAgain(c, source, w, big);
    case Log => LogAgain(c, source, w, big);
    case Event => EventAgain(c, source);
    case _ => FlatAgain(c, kind, source);
  }
}
