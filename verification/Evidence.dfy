/**
 Normalising captured evidence (ai-ops/src/ai_ops/evidence.py:254-439).  Reading and writing times and
 redacting secrets are parameters, with the few laws the proofs need.
 */
module Evidence {
  import opened Wrappers
  import opened DiagnosticTokens

  datatype Json =
    | Null | Bool(b: bool) | Number(n: real, whole: bool) | Text(s: string) | List(items: seq<Json>)
    | Object(fields: map<string, Json>)

  datatype Shape =
    | TextShape | BoolShape | NumberShape | ListShape(item: Shape) | ObjectShape(fields: map<string, Shape>)

  // Microseconds, counted so that day 1 is the first of January of year 1: the instants of the years 1 to 9999.
  const FIRST: int := 86400000000
  const END: int := 315537984000000000

  predicate InRange(t: int) { FIRST <= t < END }

  /** A UTC clock reading. */
  type Moment = t: int | InRange(t) witness FIRST

  /** A source time; its instant may lie outside the years a UTC time can be written in. */
  datatype Stamp = Stamp(at: int, offset: string)
  datatype Window = Window(start: int, end: int)

  predicate Datable(w: Window) { InRange(w.start) && InRange(w.end) }

  /** Source times with an explicit offset, UTC texts, and the redaction of secret-looking text. */
  datatype Codec = Codec(parse: string -> Option<Stamp>, text: int -> string, redact: string -> Option<string>)

  const TEXT_LIMIT := 4096
  const LIST_LIMIT := 256
  const NUMBER_LIMIT: real := 1000000000000000.0

  // ---- projection onto the allowed fields ----

  function Project(redact: string -> Option<string>, v: Json, shape: Shape, depth: nat): Option<Json>
    decreases if depth > 5 then 0 else 6 - depth, 0
  {
    if depth > 5 then None
    else
      match shape
      case TextShape =>
        if !v.Text? || |v.s| > TEXT_LIMIT || redact(v.s).None? then None else Some(Text(redact(v.s).value))
      case BoolShape => if v.Bool? then Some(v) else None
      case NumberShape => if v.Number? && 0.0 <= v.n <= NUMBER_LIMIT then Some(v) else None
      case ListShape(item) =>
        if !v.List? || |v.items| > LIST_LIMIT then None
        else
          var items := ProjectAll(redact, v.items, item, depth + 1);
          if items.None? then None else Some(List(items.value))
      case ObjectShape(fields) =>
        if !v.Object? then None
        else
          var kept := ProjectEach(redact, v.fields, fields, depth + 1);
          if kept == map[] || !AllSome(kept) then None else Some(Object(Unwrap(kept)))
  }

  /** The allowed fields that are there, projected. */
  function ProjectEach(redact: string -> Option<string>, v: map<string, Json>, fields: map<string, Shape>, depth: nat)
    : map<string, Option<Json>>
    decreases if depth > 5 then 0 else 6 - depth, 1
  {
    map k | k in v && k in fields :: Project(redact, v[k], fields[k], depth)
  }

  predicate AllSome(m: map<string, Option<Json>>) { forall k :: k in m ==> m[k].Some? }

  function Unwrap(m: map<string, Option<Json>>): map<string, Json>
    requires AllSome(m)
  {
    map k | k in m :: m[k].value
  }

  function ProjectAll(redact: string -> Option<string>, items: seq<Json>, shape: Shape,
                      depth: nat): (r: Option<seq<Json>>)
    ensures r.Some? ==> |r.value| == |items|
    decreases if depth > 5 then 0 else 6 - depth, |items| + 1
  {
    if items == [] then Some([])
    else
      var n := |items| - 1;
      var first := ProjectAll(redact, items[..n], shape, depth);
      var last := Project(redact, items[n], shape, depth);
      if first.None? || last.None? then None else Some(first.value + [last.value])
  }

  /** Text that projection would leave as it is. */
  predicate Clean(redact: string -> Option<string>, s: string) { |s| <= TEXT_LIMIT && redact(s) == Some(s) }

  /** Every text a shape keeps is clean. */
  predicate AllClean(redact: string -> Option<string>, v: Json, shape: Shape, depth: nat)
    decreases if depth > 5 then 0 else 6 - depth
  {
    depth <= 5 ==>
      match shape
      case TextShape => v.Text? ==> Clean(redact, v.s)
      case ListShape(item) => v.List? ==> forall i :: 0 <= i < |v.items| ==>
        AllClean(redact, v.items[i], item, depth + 1)
      case ObjectShape(fields) =>
        v.Object? ==> forall k :: k in fields && k in v.fields ==> AllClean(redact, v.fields[k], fields[k], depth + 1)
      case _ => true
  }

  lemma {:induction false} ProjectAllItems(redact: string -> Option<string>, items: seq<Json>, shape: Shape, depth: nat)
    ensures ProjectAll(redact, items, shape, depth).Some? <==>
            forall i :: 0 <= i < |items| ==> Project(redact, items[i], shape, depth).Some?
    ensures ProjectAll(redact, items, shape, depth).Some? ==>
            forall i :: 0 <= i < |items| ==>
              ProjectAll(redact, items, shape, depth).value[i] == Project(redact, items[i], shape, depth).value
  {
    if items != [] {
      var n := |items| - 1;
      ProjectAllItems(redact, items[..n], shape, depth);
      assert forall i :: 0 <= i < n ==> items[..n][i] == items[i];
    }
  }

  /**
   Projecting a projection again gives it back exactly when redaction leaves every kept text, and the
   redacted text is still short enough.
   */
  lemma {:induction false} ProjectAgain(redact: string -> Option<string>, v: Json, shape: Shape, depth: nat)
    requires Project(redact, v, shape, depth).Some?
    ensures var u := Project(redact, v, shape, depth).value;
            Project(redact, u, shape, depth) == Some(u) <==> AllClean(redact, u, shape, depth)
    decreases if depth > 5 then 0 else 6 - depth
  {
    var u := Project(redact, v, shape, depth).value;
    match shape
    case ListShape(item) => ProjectListAgain(redact, v.items, u.items, item, depth);
    case ObjectShape(fields) =>
      forall k | k in u.fields
        ensures Project(redact, u.fields[k], fields[k], depth + 1) == Some(u.fields[k])
                <==> AllClean(redact, u.fields[k], fields[k], depth + 1) {
        ProjectAgain(redact, v.fields[k], fields[k], depth + 1);
      }
      ObjectAgain(redact, u, fields, depth);
    case _ =>
  }

  lemma {:induction false} ProjectListAgain(redact: string -> Option<string>, items: seq<Json>, us: seq<Json>,
                                            item: Shape, depth: nat)
    requires depth <= 5 && |items| <= LIST_LIMIT && ProjectAll(redact, items, item, depth + 1) == Some(us)
    ensures Project(redact, List(us), ListShape(item), depth) == Some(List(us))
            <==> AllClean(redact, List(us), ListShape(item), depth)
    decreases 6 - depth, 0
  {
    ProjectAllItems(redact, items, item, depth + 1);
    forall i | 0 <= i < |us|
      ensures Project(redact, us[i], item, depth + 1) == Some(us[i]) <==> AllClean(redact, us[i], item, depth + 1) {
      ProjectAgain(redact, items[i], item, depth + 1);
    }
    AllAgain(redact, us, item, depth + 1);
  }

  /** A list projects to itself exactly when each of its items does. */
  lemma AllAgain(redact: string -> Option<string>, us: seq<Json>, item: Shape, depth: nat)
    ensures ProjectAll(redact, us, item, depth) == Some(us) <==>
            forall i :: 0 <= i < |us| ==> Project(redact, us[i], item, depth) == Some(us[i])
  {
    ProjectAllItems(redact, us, item, depth);
    if forall i :: 0 <= i < |us| ==> Project(redact, us[i], item, depth) == Some(us[i]) {
      assert ProjectAll(redact, us, item, depth).value == us;
    }
  }

  lemma ObjectAgain(redact: string -> Option<string>, u: Json, fields: map<string, Shape>, depth: nat)
    requires depth <= 5 && u.Object? && u.fields != map[] && forall k :: k in u.fields ==> k in fields
    requires forall k :: k in u.fields ==>
               (Project(redact, u.fields[k], fields[k], depth + 1) == Some(u.fields[k])
                <==> AllClean(redact, u.fields[k], fields[k], depth + 1))
    ensures Project(redact, u, ObjectShape(fields), depth) == Some(u)
            <==> AllClean(redact, u, ObjectShape(fields), depth)
  {
    var kept := ProjectEach(redact, u.fields, fields, depth + 1);
    assert kept.Keys == u.fields.Keys;
    if AllClean(redact, u, ObjectShape(fields), depth) {
      forall k | k in u.fields ensures kept[k] == Some(u.fields[k]) {
        assert AllClean(redact, u.fields[k], fields[k], depth + 1);
      }
      assert Unwrap(kept) == u.fields;
      assert kept != map[];
    }
    if Project(redact, u, ObjectShape(fields), depth) == Some(u) {
      forall k | k in u.fields ensures Project(redact, u.fields[k], fields[k], depth + 1) == Some(u.fields[k]) {
        assert Unwrap(kept)[k] == kept[k].value;
      }
    }
  }
}
