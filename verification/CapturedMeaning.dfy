/**
 What of captured evidence is ever stored: which values projection keeps, and for events, metrics and flat evidence
 exactly which sources are accepted and what is left of them.
 */
module CapturedMeaning {
  import opened Wrappers
  import D = DiagnosticTokens
  import opened Evidence
  import opened Captured
  import opened CapturedLaws

  // ---- projection ----

  /** A value of the shape: bounded text that redaction keeps, a truth value, a number in range, or made of such. */
  predicate Conforms(redact: string -> Option<string>, v: Json, shape: Shape, depth: nat)
    decreases if depth > 5 then 0 else 6 - depth
  {
    depth <= 5 &&
    match shape
    case TextShape => v.Text? && |v.s| <= 4096 && redact(v.s).Some?
    case BoolShape => v.Bool?
    case NumberShape => v.Number? && v.n >= 0.0 && v.n <= 1000000000000000.0
    case ListShape(item) =>
      v.List? && |v.items| <= 256 && forall i :: 0 <= i < |v.items| ==> Conforms(redact, v.items[i], item, depth + 1)
    case ObjectShape(fields) =>
      && v.Object? && (exists k :: k in v.fields && k in fields)
      && forall k :: k in v.fields && k in fields ==> Conforms(redact, v.fields[k], fields[k], depth + 1)
  }

  /** What is left of it: redacted texts, and of every object the named fields only. */
  predicate LeftOf(redact: string -> Option<string>, v: Json, u: Json, shape: Shape, depth: nat)
    decreases if depth > 5 then 0 else 6 - depth
  {
    depth <= 5 &&
    match shape
    case TextShape => v.Text? && u.Text? && redact(v.s) == Some(u.s)
    case BoolShape => u == v
    case NumberShape => u == v
    case ListShape(item) =>
      && v.List? && u.List? && |u.items| == |v.items|
      && forall i :: 0 <= i < |v.items| ==> LeftOf(redact, v.items[i], u.items[i], item, depth + 1)
    case ObjectShape(fields) =>
      && v.Object? && u.Object? && u.fields.Keys == v.fields.Keys * fields.Keys
      && forall k :: k in v.fields && k in fields ==>
           k in u.fields && LeftOf(redact, v.fields[k], u.fields[k], fields[k], depth + 1)
  }

  /** A value is projected exactly if it conforms, and then to just that. */
  lemma {:induction false} ProjectedExactly(redact: string -> Option<string>, v: Json, shape: Shape, depth: nat)
    ensures Project(redact, v, shape, depth).Some? <==> Conforms(redact, v, shape, depth)
    ensures Project(redact, v, shape, depth).Some? ==>
              LeftOf(redact, v, Project(redact, v, shape, depth).value, shape, depth)
    decreases if depth > 5 then 0 else 6 - depth
  {
    if depth <= 5 {
      match shape
      case ListShape(item) =>
        if v.List? {
          ProjectAllItems(redact, v.items, item, depth + 1);
          forall i | 0 <= i < |v.items|
            ensures Project(redact, v.items[i], item, depth + 1).Some?
                    <==> Conforms(redact, v.items[i], item, depth + 1)
            ensures Project(redact, v.items[i], item, depth + 1).Some? ==>
                      LeftOf(redact, v.items[i], Project(redact, v.items[i], item, depth + 1).value, item, depth + 1) {
            ProjectedExactly(redact, v.items[i], item, depth + 1);
          }
        }
      case ObjectShape(fields) =>
        if v.Object? { ObjectProjected(redact, v, fields, depth); }
      case _ =>
    }
  }

  lemma {:induction false} ObjectProjected(redact: string -> Option<string>, v: Json, fields: map<string, Shape>,
                                           depth: nat)
    requires v.Object? && depth <= 5
    ensures Project(redact, v, ObjectShape(fields), depth).Some? <==> Conforms(redact, v, ObjectShape(fields), depth)
    ensures Project(redact, v, ObjectShape(fields), depth).Some? ==>
              LeftOf(redact, v, Project(redact, v, ObjectShape(fields), depth).value, ObjectShape(fields), depth)
    decreases if depth > 5 then 0 else 6 - depth, 0
  {
    forall k | k in v.fields && k in fields
      ensures Project(redact, v.fields[k], fields[k], depth + 1).Some?
              <==> Conforms(redact, v.fields[k], fields[k], depth + 1)
      ensures Project(redact, v.fields[k], fields[k], depth + 1).Some? ==>
                LeftOf(redact, v.fields[k], Project(redact, v.fields[k], fields[k], depth + 1).value, fields[k],
                       depth + 1) {
      ProjectedExactly(redact, v.fields[k], fields[k], depth + 1);
    }
    var kept := ProjectEach(redact, v.fields, fields, depth + 1);
    assert forall k :: k in kept <==> k in v.fields && k in fields;
    assert forall k :: k in kept ==> kept[k] == Project(redact, v.fields[k], fields[k], depth + 1);
    if k :| k in v.fields && k in fields { assert k in kept; }
  }

  // ---- events ----

  predicate EventFits(source: Payload) {
    && "reason" in source && source["reason"].Text? && source["reason"].s in REASONS
    && "type" in source && (source["type"] == Text("Normal") || source["type"] == Text("Warning"))
    && "involved_uid" in source && source["involved_uid"].Text? && 1 <= |source["involved_uid"].s| <= 80
    && (forall ch :: ch in source["involved_uid"].s ==>
          'a' <= ch <= 'z' || 'A' <= ch <= 'Z' || '0' <= ch <= '9' || ch == '-')
    && ("message" in source ==> source["message"].Text? && |source["message"].s| <= 4096)
  }

  /** The tokens of the message, or the fixed notice that it was left out. */
  predicate MessageLeft(message: string, left: string) {
    if D.Tokens(message) == [] then left == OMITTED
    else D.AllKnown(D.Tokens(message)) && left == D.Render(D.Tokens(message))
  }

  lemma EventFitsExactly(source: Payload)
    ensures EventFits(source) <==> EventSourceOk(source)
  {
    if TextAt(source, "involved_uid") {
      var uid := source["involved_uid"].s;
      if EventFits(source) {
        forall i | 0 <= i < |uid| ensures AlphaNumeric(uid[i]) || uid[i] == '-' { assert uid[i] in uid; }
      }
    }
  }

  lemma MessageIsLeft(message: string)
    ensures MessageLeft(message, EventMessage(message))
  {
    D.TokensAreKnown(message);
  }

  lemma EventIsStored(c: Codec, source: Payload)
    requires Lawful(c) && EventSourceOk(source)
    ensures NormalizeEvent(c, source).Some? <==> c.redact(source["involved_uid"].s).Some?
    ensures NormalizeEvent(c, source).Some? ==>
              NormalizeEvent(c, source).value
              == EventPayload(source["reason"].s, source["type"].s, c.redact(source["involved_uid"].s).value,
                              EventMessage(MessageOf(source)))
  {
    EventStored(c, source);
  }

  /** What is left of an event: its reason and type, the owner redacted, and the tokens of its message. */
  predicate EventLeft(c: Codec, source: Payload, p: Payload) {
    && EventFits(source) && p.Keys == {"reason", "type", "involved_uid", "message"}
    && p["reason"] == source["reason"] && p["type"] == source["type"]
    && p["involved_uid"].Text? && c.redact(source["involved_uid"].s) == Some(p["involved_uid"].s)
    && p["message"].Text? && MessageLeft(if "message" in source then source["message"].s else "", p["message"].s)
  }

  /** An event is stored exactly if it fits and its owner is kept by redaction, and nothing else of it is left. */
  lemma EventHoldsTokensOnly(c: Codec, source: Payload)
    requires Lawful(c)
    ensures NormalizeEvent(c, source).Some? <==> EventFits(source) && c.redact(source["involved_uid"].s).Some?
    ensures NormalizeEvent(c, source).Some? ==> EventLeft(c, source, NormalizeEvent(c, source).value)
  {
    EventFitsExactly(source);
    if EventSourceOk(source) {
      EventIsStored(c, source);
      if c.redact(source["involved_uid"].s).Some? { EventIsLeft(c, source, c.redact(source["involved_uid"].s).value); }
    }
  }

  lemma EventIsLeft(c: Codec, source: Payload, uid: string)
    requires EventFits(source) && c.redact(source["involved_uid"].s) == Some(uid)
    ensures EventLeft(c, source,
                      EventPayload(source["reason"].s, source["type"].s, uid, EventMessage(MessageOf(source))))
  {
    MessageIsLeft(MessageOf(source));
  }

  // ---- workloads, deployments and configuration ----

  /** A value of the allowed type that redaction leaves as it is. */
  predicate PlainValue(c: Codec, v: Json, shape: Shape) {
    match shape
    case TextShape => v.Text? && |v.s| <= 4096 && c.redact(v.s) == Some(v.s)
    case BoolShape => v.Bool?
    case NumberShape => v.Number? && 0.0 <= v.n <= 1000000000000000.0
    case _ => false
  }

  /** The allowed fields of a source, and nothing else of it. */
  function AllowedPart(kind: Kind, source: Payload): Payload { map k | k in source && k in ShapeOf(kind) :: source[k] }

  /** Letters, digits and the given marks only, and a bounded number of them. */
  predicate Characters(s: string, limit: nat, marks: string) {
    && 1 <= |s| <= limit
    && forall ch :: ch in s ==> 'a' <= ch <= 'z' || 'A' <= ch <= 'Z' || '0' <= ch <= '9' || ch in marks
  }

  /** An image reference, and no address. */
  predicate Image(v: Json) {
    && v.Text? && Characters(v.s, 512, "._/@:+-")
    && forall i :: 0 <= i < |v.s| ==> !AddressAt(v.s, i)
  }

  predicate AddressAt(s: string, i: nat) { i + 2 < |s| && s[i] == ':' && s[i + 1] == '/' && s[i + 2] == '/' }

  predicate Label(v: Json) { v.Text? && Characters(v.s, 160, "._/-") }

  predicate OneOf(v: Json, words: set<string>) { v.Text? && v.s in words }

  /** What a workload, a deployment or a configuration must say. */
  predicate KindMeans(kind: Kind, p: Payload) {
    if kind == Workload then
      && p.Keys >= {"image", "phase", "ready", "restarts"} && Image(p["image"])
      && OneOf(p["phase"], {"Pending", "Running", "Succeeded", "Failed", "Unknown"})
      && p["restarts"].Number? && p["restarts"].whole
    else if kind == Kind.Deployment then
      && ("image" in p ==> Image(p["image"])) && "status" in p
      && OneOf(p["status"], {"failed", "progressing", "healthy", "healthy_after_rollback", "unknown"})
      && ("source_sha" in p ==> Label(p["source_sha"])) && ("gitops_revision" in p ==> Label(p["gitops_revision"]))
      && ("rollback_revision" in p ==> Label(p["rollback_revision"])) && ("ci_run_id" in p ==> Label(p["ci_run_id"]))
    else kind == Config && ("read_engine_role" in p ==> OneOf(p["read_engine_role"], {"primary", "replica", "unknown"}))
  }

  lemma CharactersExactly(s: string, limit: nat, marks: string)
    ensures Characters(s, limit, marks) <==> Spelled(s, limit, marks)
  {
    if Characters(s, limit, marks) {
      forall i | 0 <= i < |s| ensures AlphaNumeric(s[i]) || s[i] in marks { assert s[i] in s; }
    }
  }

  lemma AddressStarts(s: string, i: nat)
    requires i <= |s|
    ensures "://" <= s[i..] <==> AddressAt(s, i)
  {
    if i + 2 < |s| { assert s[i..][..3] == [s[i], s[i + 1], s[i + 2]]; }
  }

  lemma AddressExactly(s: string)
    ensures Contains(s, "://") <==> exists i :: 0 <= i < |s| && AddressAt(s, i)
  {
    if Contains(s, "://") {
      var i :| 0 <= i <= |s| && "://" <= s[i..];
      AddressStarts(s, i);
    }
    if i :| 0 <= i < |s| && AddressAt(s, i) { AddressStarts(s, i); }
  }

  lemma ImageExactly(v: Json)
    ensures Image(v) <==> v.Text? && ImageRef(v.s)
  {
    if v.Text? {
      CharactersExactly(v.s, 512, "._/@:+-");
      AddressExactly(v.s);
    }
  }

  lemma LabelExactly(v: Json)
    ensures Label(v) <==> v.Text? && Reference(v.s)
  {
    if v.Text? { CharactersExactly(v.s, 160, "._/-"); }
  }

  lemma KindMeansExactly(kind: Kind, p: Payload)
    requires kind in {Workload, Kind.Deployment, Config}
    ensures KindMeans(kind, p) <==> FlatOk(kind, p)
  {
    if "image" in p { ImageExactly(p["image"]); }
    forall k | k in {"source_sha", "gitops_revision", "rollback_revision", "ci_run_id"} && k in p
      ensures Label(p[k]) <==> TextAt(p, k) && Reference(p[k].s) {
      LabelExactly(p[k]);
    }
  }

  /**
   Such evidence is stored exactly if it has allowed fields, each of them plain, that say what its kind must; and then
   as those very fields.
   */
  lemma FlatHoldsAllowedFields(c: Codec, kind: Kind, source: Payload)
    requires Lawful(c) && kind in {Workload, Kind.Deployment, Config}
    ensures NormalizeFlat(c, kind, source).Some? <==>
              && AllowedPart(kind, source) != map[] && KindMeans(kind, AllowedPart(kind, source))
              && forall k :: k in AllowedPart(kind, source) ==> PlainValue(c, source[k], ShapeOf(kind)[k])
    ensures NormalizeFlat(c, kind, source).Some? ==> NormalizeFlat(c, kind, source).value == AllowedPart(kind, source)
  {
    FlatIsProjection(c, kind, source);
    KindProjected(c, kind, source);
    KindMeansExactly(kind, AllowedPart(kind, source));
    if NormalizeFlat(c, kind, source).Some? { FlatIsAllowedPart(c, kind, source); }
    var part := AllowedPart(kind, source);
    if part != map[] && (forall k :: k in part ==> PlainValue(c, source[k], ShapeOf(kind)[k])) {
      PlainPartIsKept(c, kind, source);
    }
  }

  lemma KindUnfolds(c: Codec, kind: Kind, source: Payload)
    ensures var kept := ProjectEach(c.redact, source, ShapeOf(kind), 1);
            && kept.Keys == AllowedPart(kind, source).Keys
            && (ProjectKind(c, kind, source).Some? <==> kept != map[] && AllSome(kept))
            && (ProjectKind(c, kind, source).Some? ==> ProjectKind(c, kind, source).value == Unwrap(kept))
  {
  }

  /** Projection onto a kind keeps exactly its allowed fields. */
  lemma KindProjected(c: Codec, kind: Kind, source: Payload)
    ensures ProjectKind(c, kind, source).Some? <==>
              && AllowedPart(kind, source) != map[]
              && forall k :: k in AllowedPart(kind, source) ==> Project(c.redact, source[k], ShapeOf(kind)[k], 1).Some?
    ensures ProjectKind(c, kind, source).Some? ==>
              && ProjectKind(c, kind, source).value.Keys == AllowedPart(kind, source).Keys
              && forall k :: k in AllowedPart(kind, source) ==>
                   Project(c.redact, source[k], ShapeOf(kind)[k], 1) == Some(ProjectKind(c, kind, source).value[k])
  {
    KindUnfolds(c, kind, source);
    var kept := ProjectEach(c.redact, source, ShapeOf(kind), 1);
    forall k | k in kept ensures k in AllowedPart(kind, source)
      && kept[k] == Project(c.redact, source[k], ShapeOf(kind)[k], 1) {
      assert k in kept.Keys;
    }
    SameEmptiness(kept, AllowedPart(kind, source));
    assert forall k :: k in AllowedPart(kind, source) ==> k in kept;
  }

  lemma SameEmptiness<A, B>(m: map<string, A>, n: map<string, B>)
    requires m.Keys == n.Keys
    ensures m == map[] <==> n == map[]
  {
    if m == map[] { assert n.Keys == {}; }
    if n == map[] { assert m.Keys == {}; }
  }

  lemma FlatIsAllowedPart(c: Codec, kind: Kind, source: Payload)
    requires Lawful(c) && kind in {Workload, Kind.Deployment, Config} && NormalizeFlat(c, kind, source).Some?
    ensures ProjectKind(c, kind, source) == Some(AllowedPart(kind, source))
    ensures forall k :: k in AllowedPart(kind, source) ==> PlainValue(c, source[k], ShapeOf(kind)[k])
  {
    KindProjected(c, kind, source);
    var p := ProjectKind(c, kind, source).value;
    forall k | k in p ensures k in source && p[k] == source[k] && PlainValue(c, source[k], ShapeOf(kind)[k]) {
      FlatShapes(kind, k);
      FlatFieldIsPlain(c, kind, source, k);
    }
    SameMap(p, AllowedPart(kind, source));
  }

  lemma SameMap(p: Payload, q: Payload)
    requires p.Keys == q.Keys && forall k :: k in p ==> p[k] == q[k]
    ensures p == q
  {
  }

  lemma FlatFieldIsPlain(c: Codec, kind: Kind, source: Payload, k: string)
    requires Lawful(c) && ProjectKind(c, kind, source).Some? && FlatOk(kind, ProjectKind(c, kind, source).value)
    requires k in ProjectKind(c, kind, source).value && k in source && k in ShapeOf(kind)
    requires ShapeOf(kind)[k] in {TextShape, BoolShape, NumberShape}
    requires Project(c.redact, source[k], ShapeOf(kind)[k], 1) == Some(ProjectKind(c, kind, source).value[k])
    ensures ProjectKind(c, kind, source).value[k] == source[k] && PlainValue(c, source[k], ShapeOf(kind)[k])
  {
    if ShapeOf(kind)[k].TextShape? {
      FlatTextHasNoBracket(kind, ProjectKind(c, kind, source).value, k);
      KeptTextIsClean(c, source[k].s);
    }
  }

  lemma PlainPartIsKept(c: Codec, kind: Kind, source: Payload)
    requires kind in {Workload, Kind.Deployment, Config} && AllowedPart(kind, source) != map[]
    requires forall k :: k in AllowedPart(kind, source) ==> PlainValue(c, source[k], ShapeOf(kind)[k])
    ensures ProjectKind(c, kind, source) == Some(AllowedPart(kind, source))
  {
    var part := AllowedPart(kind, source);
    forall k | k in part ensures Project(c.redact, source[k], ShapeOf(kind)[k], 1) == Some(source[k]) {
      FlatShapes(kind, k);
    }
    KindProjected(c, kind, source);
    assert ProjectKind(c, kind, source).value == part;
  }

  // ---- metrics ----

  predicate SampleFits(s: Json) {
    && s.Object? && "at" in s.fields && s.fields["at"].Text? && "outcome" in s.fields && s.fields["outcome"].Text?
    && "value" in s.fields && s.fields["value"].Number?
  }

  predicate SampleIs(s: Json, outcome: string) { SampleFits(s) && s.fields["outcome"].s == outcome }

  /** Just two samples: a measure, and the traffic behind it, which is not nothing. */
  predicate MeasureWithTraffic(items: seq<Json>, measure: string, traffic: string) {
    && |items| == 2
    && exists i :: 0 <= i < 2 && SampleIs(items[i], measure) && SampleIs(items[1 - i], traffic)
                   && items[1 - i].fields["value"].n != 0.0
  }

  /** Counters: some of the six outcomes, each once. */
  predicate Counters(items: seq<Json>) {
    && items != []
    && (forall i :: 0 <= i < |items| ==>
          SampleFits(items[i])
          && items[i].fields["outcome"].s in {"hit", "miss", "error", "unavailable", "bypass", "consistency_primary"})
    && (forall i, j :: 0 <= i < j < |items| ==> !SampleIs(items[j], OutcomeAt(items, i)))
  }

  /** A ratio is one at most. */
  predicate RatiosFit(items: seq<Json>) {
    forall i :: 0 <= i < |items| && SampleIs(items[i], "ratio") ==> items[i].fields["value"].n <= 1.0
  }

  /** What each query means: its unit, and the samples it consists of. */
  predicate MetricMeans(query: string, unit: string, items: seq<Json>) {
    || (query == "cache_outcomes" && unit == "count" && Counters(items))
    || (query == "cache_hit_ratio" && unit == "ratio" && MeasureWithTraffic(items, "ratio", "requests")
        && RatiosFit(items))
    || (query == "http_error_ratio" && unit == "ratio" && MeasureWithTraffic(items, "ratio", "requests")
        && RatiosFit(items))
    || (query == "api_latency" && unit == "seconds" && MeasureWithTraffic(items, "p95", "count"))
    || (query == "db_latency" && unit == "seconds" && MeasureWithTraffic(items, "p99", "count"))
  }

  /** Two outcomes, each there and neither twice, are two samples. */
  lemma TwoOutcomesTwoSamples(items: seq<Json>, a: string, b: string)
    requires a != b && forall i :: 0 <= i < |items| ==> OutcomeAt(items, i) == a || OutcomeAt(items, i) == b
    requires forall i, j :: 0 <= i < j < |items| ==> OutcomeAt(items, i) != OutcomeAt(items, j)
    requires HasOutcome(items, a) && HasOutcome(items, b)
    ensures |items| == 2
  {
    var i :| 0 <= i < |items| && OutcomeAt(items, i) == a;
    var j :| 0 <= j < |items| && OutcomeAt(items, j) == b;
    OneOfTwo(items, a, b, i, j, 0);
    OneOfTwo(items, a, b, i, j, 1);
    OneOfTwo(items, a, b, i, j, |items| - 1);
  }

  lemma OneOfTwo(items: seq<Json>, a: string, b: string, i: nat, j: nat, k: nat)
    requires i < |items| && j < |items| && k < |items| && OutcomeAt(items, i) == a && OutcomeAt(items, j) == b
    requires forall i :: 0 <= i < |items| ==> OutcomeAt(items, i) == a || OutcomeAt(items, i) == b
    requires forall i, j :: 0 <= i < j < |items| ==> OutcomeAt(items, i) != OutcomeAt(items, j)
    ensures k == i || k == j
  {
    if OutcomeAt(items, k) == a { OnlyOne(items, i, k); } else { OnlyOne(items, j, k); }
  }

  lemma OnlyOne(items: seq<Json>, i: nat, k: nat)
    requires i < |items| && k < |items| && OutcomeAt(items, i) == OutcomeAt(items, k)
    requires forall i, j :: 0 <= i < j < |items| ==> OutcomeAt(items, i) != OutcomeAt(items, j)
    ensures i == k
  {
  }

  predicate HasOutcome(items: seq<Json>, o: string) { exists i :: 0 <= i < |items| && OutcomeAt(items, i) == o }

  /** The checks of a query with a measure and its traffic. */
  predicate PairChecks(items: seq<Json>, a: string, b: string) {
    && items != [] && (forall i :: 0 <= i < |items| ==> SampleFits(items[i]) && OutcomeAt(items, i) in {a, b})
    && (forall i, j :: 0 <= i < j < |items| ==> OutcomeAt(items, i) != OutcomeAt(items, j))
    && HasOutcome(items, a) && HasOutcome(items, b)
    && (forall i :: 0 <= i < |items| && OutcomeAt(items, i) == b ==> ValueAt(items, i) != 0.0)
  }

  lemma PairExactly(items: seq<Json>, a: string, b: string)
    requires a != b
    ensures PairChecks(items, a, b) <==> MeasureWithTraffic(items, a, b)
  {
    if PairChecks(items, a, b) {
      TwoOutcomesTwoSamples(items, a, b);
      var i := if OutcomeAt(items, 0) == a then 0 else 1;
      assert SampleIs(items[i], a) && SampleIs(items[1 - i], b);
    }
    if MeasureWithTraffic(items, a, b) {
      var i :| 0 <= i < 2 && SampleIs(items[i], a) && SampleIs(items[1 - i], b)
        && items[1 - i].fields["value"].n != 0.0;
      assert OutcomeAt(items, i) == a && OutcomeAt(items, 1 - i) == b;
    }
  }

  /** The texts and samples a metric is read from. */
  predicate MetricRead(p: Payload) {
    TextAt(p, "query_id") && "samples" in p && p["samples"].List?
  }

  lemma CountersExactly(p: Payload)
    requires MetricRead(p) && p["query_id"].s == "cache_outcomes"
    ensures MetricShapeOk(p) && MetricOk(p) <==>
              TextAt(p, "unit") && p["unit"].s == "count" && Counters(p["samples"].items)
  {
    var items := p["samples"].items;
    forall i | 0 <= i < |items|
      ensures SampleOk("cache_outcomes", items[i]) <==>
                SampleFits(items[i]) && items[i].fields["outcome"].s in D.OUTCOMES {}
    if MetricShapeOk(p) || Counters(items) {
      forall i | 0 <= i < |items| ensures SampleFits(items[i]) && OutcomeAt(items, i) == items[i].fields["outcome"].s {
        if MetricShapeOk(p) { assert SampleOk("cache_outcomes", items[i]); }
      }
    }
  }

  lemma PairQueryExactly(p: Payload, a: string, b: string)
    requires MetricRead(p) && p["query_id"].s in QUERIES && p["query_id"].s != "cache_outcomes"
    requires OutcomesOf(p["query_id"].s) == {a, b} && a !in {"requests", "count"} && b in {"requests", "count"}
    ensures MetricShapeOk(p) && MetricOk(p) <==>
              && TextAt(p, "unit") && p["unit"].s == UnitOf(p["query_id"].s)
              && MeasureWithTraffic(p["samples"].items, a, b) && RatiosFit(p["samples"].items)
  {
    var items := p["samples"].items;
    PairExactly(items, a, b);
    PairShape(p, a, b);
    if MetricShapeOk(p) { PairOk(p, a, b); }
  }

  lemma PairShape(p: Payload, a: string, b: string)
    requires MetricRead(p) && p["query_id"].s in QUERIES && OutcomesOf(p["query_id"].s) == {a, b}
    ensures MetricShapeOk(p) <==>
              var items := p["samples"].items;
              items != [] && forall i :: 0 <= i < |items| ==> SampleFits(items[i]) && OutcomeAt(items, i) in {a, b}
  {
  }

  predicate AllFit(items: seq<Json>) { forall i :: 0 <= i < |items| ==> SampleFits(items[i]) }

  lemma FittingSample(items: seq<Json>, i: nat)
    requires i < |items| && SampleFits(items[i])
    ensures OutcomeAt(items, i) == items[i].fields["outcome"].s && ValueAt(items, i) == items[i].fields["value"].n
  {
  }

  lemma PairIsComplete(items: seq<Json>, q: string, a: string, b: string)
    requires OutcomesOf(q) == {a, b}
    ensures (forall o :: o in OutcomesOf(q) ==> exists i :: 0 <= i < |items| && OutcomeAt(items, i) == o)
            <==> HasOutcome(items, a) && HasOutcome(items, b)
  {
    assert a in OutcomesOf(q) && b in OutcomesOf(q);
  }

  lemma PairHasTraffic(items: seq<Json>, a: string, b: string)
    requires a !in {"requests", "count"} && b in {"requests", "count"}
    requires forall i :: 0 <= i < |items| ==> OutcomeAt(items, i) in {a, b}
    ensures (forall i :: 0 <= i < |items| && OutcomeAt(items, i) in {"requests", "count"} ==> ValueAt(items, i) != 0.0)
            <==> (forall i :: 0 <= i < |items| && OutcomeAt(items, i) == b ==> ValueAt(items, i) != 0.0)
  {
  }

  lemma RatiosAre(items: seq<Json>)
    requires AllFit(items)
    ensures (forall i :: 0 <= i < |items| && OutcomeAt(items, i) == "ratio" ==> ValueAt(items, i) <= 1.0)
            <==> RatiosFit(items)
  {
    forall i | 0 <= i < |items| ensures SampleIs(items[i], "ratio") <==> OutcomeAt(items, i) == "ratio"
      ensures ValueAt(items, i) == items[i].fields["value"].n {
      FittingSample(items, i);
    }
  }

  lemma PairOk(p: Payload, a: string, b: string)
    requires MetricRead(p) && MetricShapeOk(p) && p["query_id"].s != "cache_outcomes" && AllFit(p["samples"].items)
    requires OutcomesOf(p["query_id"].s) == {a, b} && a !in {"requests", "count"} && b in {"requests", "count"}
    requires forall i :: 0 <= i < |p["samples"].items| ==> OutcomeAt(p["samples"].items, i) in {a, b}
    ensures MetricOk(p) <==>
              && TextAt(p, "unit") && p["unit"].s == UnitOf(p["query_id"].s)
              && PairChecks(p["samples"].items, a, b) && RatiosFit(p["samples"].items)
  {
    var items := p["samples"].items;
    PairIsComplete(items, p["query_id"].s, a, b);
    PairHasTraffic(items, a, b);
    RatiosAre(items);
  }

  /** The checks of a metric are exactly what its query means. */
  lemma MetricMeansExactly(p: Payload)
    requires MetricRead(p)
    ensures MetricShapeOk(p) && MetricOk(p) <==>
              TextAt(p, "unit") && MetricMeans(p["query_id"].s, p["unit"].s, p["samples"].items)
  {
    var q := p["query_id"].s;
    if q == "cache_outcomes" {
      CountersExactly(p);
    } else if q in {"cache_hit_ratio", "http_error_ratio"} {
      PairQueryExactly(p, "ratio", "requests");
    } else if q == "api_latency" {
      PairQueryExactly(p, "p95", "count");
      NoRatios(p["samples"].items, "p95", "count");
    } else if q == "db_latency" {
      PairQueryExactly(p, "p99", "count");
      NoRatios(p["samples"].items, "p99", "count");
    }
  }

  lemma NoRatios(items: seq<Json>, a: string, b: string)
    requires a != "ratio" && b != "ratio"
    ensures MeasureWithTraffic(items, a, b) ==> RatiosFit(items)
  {
  }

  // ---- the times of samples ----

  lemma {:induction false} StampAllExactly(c: Codec, items: seq<Json>, w: Window)
    ensures StampAll(c, items, w).Some? <==> forall i :: 0 <= i < |items| ==> StampSample(c, items[i], w).Some?
    ensures StampAll(c, items, w).Some? ==>
              && |StampAll(c, items, w).value| == |items|
              && forall i :: 0 <= i < |items| ==> StampSample(c, items[i], w) == Some(StampAll(c, items, w).value[i])
    decreases |items|
  {
    if items != [] {
      var n := |items| - 1;
      StampAllExactly(c, items[..n], w);
      assert forall i :: 0 <= i < n ==> items[..n][i] == items[i];
    }
  }

  /** The sample with its time in UTC, and as it was written. */
  predicate Dated(c: Codec, s: Json, u: Json, w: Window) {
    && s.Object? && u.Object? && TextAt(s.fields, "at") && c.parse(s.fields["at"].s).Some?
    && var t := c.parse(s.fields["at"].s).value;
       && w.start <= t.at <= w.end
       && u.fields.Keys == s.fields.Keys + {"source_at", "source_offset"}
       && u.fields["at"] == Text(c.text(t.at)) && u.fields["source_at"] == s.fields["at"]
       && u.fields["source_offset"] == Text(t.offset)
       && forall k :: k in s.fields && k !in {"at", "source_at", "source_offset"} ==> u.fields[k] == s.fields[k]
  }

  lemma SampleDated(c: Codec, s: Json, w: Window)
    ensures StampSample(c, s, w).Some? <==> SampleInWindow(c, s, w)
    ensures StampSample(c, s, w).Some? ==> Dated(c, s, StampSample(c, s, w).value, w)
  {
  }

  predicate SampleInWindow(c: Codec, s: Json, w: Window) {
    && s.Object? && TextAt(s.fields, "at") && c.parse(s.fields["at"].s).Some?
    && w.start <= c.parse(s.fields["at"].s).value.at <= w.end
  }

  predicate SamplesInWindow(c: Codec, items: seq<Json>, w: Window) {
    forall i :: 0 <= i < |items| ==> SampleInWindow(c, items[i], w)
  }

  /**
   A metric is stored exactly if its projection means what its query asks and its samples lie in the window, and then
   as that projection with every sample dated in UTC.
   */
  lemma MetricHoldsItsMeaning(c: Codec, source: Payload, w: Window)
    ensures NormalizeMetric(c, source, w).Some? <==>
              var p := ProjectKind(c, Metric, source);
              && p.Some? && MetricRead(p.value) && TextAt(p.value, "unit")
              && MetricMeans(p.value["query_id"].s, p.value["unit"].s, p.value["samples"].items)
              && SamplesInWindow(c, p.value["samples"].items, w)
    ensures NormalizeMetric(c, source, w).Some? ==>
              var p, u := ProjectKind(c, Metric, source).value, NormalizeMetric(c, source, w).value;
              && MetricRead(p) && MetricRead(u) && u == p["samples" := u["samples"]]
              && |u["samples"].items| == |p["samples"].items|
              && forall i :: 0 <= i < |p["samples"].items| ==> Dated(c, p["samples"].items[i], u["samples"].items[i], w)
  {
    MetricAcceptedExactly(c, source, w);
    if NormalizeMetric(c, source, w).Some? {
      MetricUnfolds(c, source, w);
      SamplesDated(c, ProjectKind(c, Metric, source).value["samples"].items, w);
    }
  }

  lemma MetricAcceptedExactly(c: Codec, source: Payload, w: Window)
    ensures NormalizeMetric(c, source, w).Some? <==>
              var p := ProjectKind(c, Metric, source);
              && p.Some? && MetricRead(p.value) && TextAt(p.value, "unit")
              && MetricMeans(p.value["query_id"].s, p.value["unit"].s, p.value["samples"].items)
              && SamplesInWindow(c, p.value["samples"].items, w)
  {
    MetricUnfolds(c, source, w);
    var p := ProjectKind(c, Metric, source);
    if p.Some? && MetricRead(p.value) {
      MetricMeansExactly(p.value);
      SamplesDated(c, p.value["samples"].items, w);
    }
  }

  lemma SamplesDated(c: Codec, items: seq<Json>, w: Window)
    ensures StampAll(c, items, w).Some? <==> SamplesInWindow(c, items, w)
    ensures StampAll(c, items, w).Some? ==>
              && |StampAll(c, items, w).value| == |items|
              && forall i :: 0 <= i < |items| ==> Dated(c, items[i], StampAll(c, items, w).value[i], w)
  {
    StampAllExactly(c, items, w);
    forall i | 0 <= i < |items| ensures StampSample(c, items[i], w).Some? <==> SampleInWindow(c, items[i], w)
      ensures StampSample(c, items[i], w).Some? ==> Dated(c, items[i], StampSample(c, items[i], w).value, w) {
      SampleDated(c, items[i], w);
    }
  }
}
