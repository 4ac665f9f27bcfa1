/**
 The blind A/B review (ai-ops/scripts/prepare_blind_review.py:20-155): sixteen cases, two reports each,
 shown without saying which way of working wrote which; and the judgements put back under the way that
 wrote the report.  The shuffle is a parameter.
 */
module BlindReview {
  import opened Wrappers

  const CASES := 16

  type CaseId = nat  // a case name, as its rank in the order the program sorts by

  datatype Mode = Fixed | Ai

  function Name(mode: Mode): string { if mode == Fixed then "fixed" else "ai" }

  datatype Report = Report(repeat: int, body: string)

  datatype Row = Row(caseId: CaseId, class_: string, scenario: string, criterion: string, forbidden: string,
                     required: seq<string>, evidence: string, reports: seq<Report>)

  datatype Packet = Packet(version: int, mode: string, firstOnly: bool, suiteId: string, suiteHash: string,
                           rubricHash: string, rows: seq<Row>)

  datatype Item = Item(caseId: CaseId, class_: string, criterion: string, forbidden: string,
                       required: seq<string>, evidence: string, a: Report, b: Report)

  /** What the reviewer gets. */
  datatype Package = Package(packageId: string, suiteHash: string, items: seq<Item>)

  /** Which mode wrote the report behind each alias. */
  datatype Assigned = Assigned(a: Mode, b: Mode)
  datatype PrivateMap = PrivateMap(packageId: string, suiteHash: string,
                                   assignments: map<CaseId, Assigned>, classes: map<CaseId, string>)

  datatype Error =
    | BadPacket(mode: Mode) | Different | FieldsDiffer | BadHeader | NoReviewer | BadTemplate(mode: Mode)
    | WrongCount | BadCase | BadTop1 | BadFields | ModeCount

  // ---- building ----

  function CaseMap(rows: seq<Row>): map<CaseId, Row> {
    if rows == [] then map[] else CaseMap(rows[..|rows| - 1])[rows[|rows| - 1].caseId := rows[|rows| - 1]]
  }

  predicate PacketOk(p: Packet, mode: Mode) {
    && p.version == 1 && p.mode == Name(mode) && p.firstOnly && |p.rows| == CASES && |CaseMap(p.rows)| == CASES
    && forall i :: 0 <= i < |p.rows| ==> |p.rows[i].reports| == 1 && p.rows[i].reports[0].repeat == 1
  }

  predicate SameFields(x: Row, y: Row) {
    && x.class_ == y.class_ && x.scenario == y.scenario && x.criterion == y.criterion
    && x.forbidden == y.forbidden && x.required == y.required && x.evidence == y.evidence
  }

  predicate PacketsAgree(fixed: Packet, ai: Packet) {
    && fixed.suiteId == "a7-holdout-v3" && fixed.suiteHash == ai.suiteHash && fixed.rubricHash == ai.rubricHash
    && CaseMap(fixed.rows).Keys == CaseMap(ai.rows).Keys
  }

  predicate Buildable(fixed: Packet, ai: Packet) {
    && PacketOk(fixed, Fixed) && PacketOk(ai, Ai) && PacketsAgree(fixed, ai)
    && forall c :: c in CaseMap(fixed.rows) ==> SameFields(CaseMap(fixed.rows)[c], CaseMap(ai.rows)[c])
  }

  predicate IsLeast(s: set<nat>, m: nat) { m in s && forall k :: k in s ==> m <= k }

  lemma {:induction false} HasLeast(s: set<nat>)
    requires s != {}
    ensures exists m :: IsLeast(s, m)
  {
    var x :| x in s;
    var rest := s - {x};
    if rest == {} {
      assert s == {x} && IsLeast(s, x);
    } else {
      HasLeast(rest);
      var m :| IsLeast(rest, m);
      assert s == rest + {x};
      assert IsLeast(s, if x < m then x else m);
    }
  }

  function Least(s: set<nat>): (m: nat)
    requires s != {}
    ensures IsLeast(s, m)
  {
    HasLeast(s);
    var m :| m in s && IsLeast(s, m);
    m
  }

  function Ascending(s: set<nat>): (r: seq<nat>)
    ensures |r| == |s|
    decreases |s|
  {
    if s == {} then [] else [Least(s)] + Ascending(s - {Least(s)})
  }

  lemma {:induction false} AscendingHasAll(s: set<nat>, k: nat)
    ensures k in Ascending(s) <==> k in s
    decreases |s|
  {
    if s != {} {
      AscendingHasAll(s - {Least(s)}, k);
    }
  }

  lemma {:induction false} AscendingOrder(s: set<nat>, i: nat, j: nat)
    requires i < j < |s|
    ensures Ascending(s)[i] < Ascending(s)[j]
    decreases |s|
  {
    var rest := s - {Least(s)};
    if i > 0 {
      AscendingOrder(rest, i - 1, j - 1);
    } else {
      AscendingHasAll(rest, Ascending(rest)[j - 1]);
    }
  }

  function Orient(fixedFirst: bool): Assigned { if fixedFirst then Assigned(Fixed, Ai) else Assigned(Ai, Fixed) }

  function ModeOf(x: Assigned, alias: string): Mode { if alias == "A" then x.a else x.b }

  /** Both packets have the same cases, with a report each. */
  predicate Paired(fc: map<CaseId, Row>, ac: map<CaseId, Row>) {
    fc.Keys == ac.Keys && forall c :: c in fc ==> |fc[c].reports| == 1 && |ac[c].reports| == 1
  }

  /** The only report of a case in the packet of a mode. */
  function ReportOf(fc: map<CaseId, Row>, ac: map<CaseId, Row>, mode: Mode, c: CaseId): Report
    requires Paired(fc, ac) && c in fc
  {
    (if mode == Fixed then fc else ac)[c].reports[0]
  }

  lemma {:induction false} CaseMapRows(rows: seq<Row>, c: CaseId)
    requires c in CaseMap(rows)
    ensures CaseMap(rows)[c] in rows && CaseMap(rows)[c].caseId == c
  {
    var n := |rows| - 1;
    if rows[n].caseId != c { CaseMapRows(rows[..n], c); }
  }

  lemma PacketsPair(fixed: Packet, ai: Packet)
    requires PacketOk(fixed, Fixed) && PacketOk(ai, Ai) && PacketsAgree(fixed, ai)
    ensures Paired(CaseMap(fixed.rows), CaseMap(ai.rows))
  {
    forall c | c in CaseMap(fixed.rows)
      ensures |CaseMap(fixed.rows)[c].reports| == 1 && |CaseMap(ai.rows)[c].reports| == 1 {
      CaseMapRows(fixed.rows, c);
      CaseMapRows(ai.rows, c);
    }
  }

  /** Eight true and eight false, in any order. */
  predicate Shuffled(orientations: seq<bool>) {
    |orientations| == CASES && multiset(orientations)[true] == CASES / 2
  }

  /** The reviewer's item for a case shows behind each alias the report of the mode the map names. */
  predicate Shows(fc: map<CaseId, Row>, ac: map<CaseId, Row>, item: Item, c: CaseId, x: Assigned)
    requires Paired(fc, ac) && c in fc
  {
    && item.caseId == c && item.a == ReportOf(fc, ac, x.a, c) && item.b == ReportOf(fc, ac, x.b, c)
    && item.class_ == fc[c].class_ && item.criterion == fc[c].criterion && item.forbidden == fc[c].forbidden
    && item.required == fc[c].required && item.evidence == fc[c].evidence
  }

  function Elements(ids: seq<CaseId>): set<CaseId> { set c | c in ids }

  predicate ItemsShow(fc: map<CaseId, Row>, ac: map<CaseId, Row>, ids: seq<CaseId>, orientations: seq<bool>,
                      items: seq<Item>)
    requires Paired(fc, ac) && |items| <= |ids| == |orientations| && forall c :: c in ids ==> c in fc
  {
    forall i {:trigger items[i]} :: 0 <= i < |items| ==> Shows(fc, ac, items[i], ids[i], Orient(orientations[i]))
  }

  predicate Maps(ids: seq<CaseId>, orientations: seq<bool>, assignments: map<CaseId, Assigned>, n: nat)
    requires n <= |ids| == |orientations|
  {
    && assignments.Keys == Elements(ids[..n])
    && forall i {:trigger ids[i]} :: 0 <= i < n && ids[i] in assignments ==>
       assignments[ids[i]] == Orient(orientations[i])
  }

  predicate Classes(fc: map<CaseId, Row>, classes: map<CaseId, string>) {
    forall c :: c in classes ==> c in fc && classes[c] == fc[c].class_
  }

  predicate Distinct(ids: seq<CaseId>) { forall i, j :: 0 <= i < j < |ids| ==> ids[i] != ids[j] }

  lemma ElementsGrow(ids: seq<CaseId>, n: nat)
    requires n < |ids| && Distinct(ids)
    ensures Elements(ids[..n + 1]) == Elements(ids[..n]) + {ids[n]} && ids[n] !in Elements(ids[..n])
  {
    assert ids[..n + 1] == ids[..n] + [ids[n]];
  }

  lemma MapOneMore(ids: seq<CaseId>, orientations: seq<bool>, assignments: map<CaseId, Assigned>, n: nat)
    requires n < |ids| == |orientations| && Distinct(ids) && Maps(ids, orientations, assignments, n)
    ensures Maps(ids, orientations, assignments[ids[n] := Orient(orientations[n])], n + 1)
  {
    ElementsGrow(ids, n);
    var more := assignments[ids[n] := Orient(orientations[n])];
    forall i | 0 <= i < n + 1 && ids[i] in more ensures more[ids[i]] == Orient(orientations[i]) {
      if i < n { assert ids[i] != ids[n]; }
    }
  }

  predicate BuiltFrom(fc: map<CaseId, Row>, ac: map<CaseId, Row>, ids: seq<CaseId>, orientations: seq<bool>,
                      p: Package, m: PrivateMap)
  {
    && Paired(fc, ac) && |p.items| == |ids| == |orientations| == CASES && (forall c :: c in ids ==> c in fc)
    && ItemsShow(fc, ac, ids, orientations, p.items) && Maps(ids, orientations, m.assignments, CASES)
    && m.classes.Keys == m.assignments.Keys && Classes(fc, m.classes)
  }

  predicate Built(fixed: Packet, ai: Packet, orientations: seq<bool>, packageId: string, p: Package, m: PrivateMap) {
    && p.packageId == m.packageId == packageId && p.suiteHash == m.suiteHash == fixed.suiteHash
    && BuiltFrom(CaseMap(fixed.rows), CaseMap(ai.rows), Ascending(CaseMap(fixed.rows).Keys), orientations, p, m)
  }

  lemma AscendingIsDistinct(s: set<nat>)
    ensures Distinct(Ascending(s)) && forall k :: k in Ascending(s) <==> k in s
  {
    forall i, j | 0 <= i < j < |s| ensures Ascending(s)[i] != Ascending(s)[j] {
      AscendingOrder(s, i, j);
    }
    forall k: nat ensures k in Ascending(s) <==> k in s {
      AscendingHasAll(s, k);
    }
  }

  method BuildPackage(fixed: Packet, ai: Packet, orientations: seq<bool>, packageId: string)
    returns (r: Result<(Package, PrivateMap), Error>)
    requires Shuffled(orientations)
    ensures r.Success? <==> Buildable(fixed, ai)
    ensures r.Success? ==> Built(fixed, ai, orientations, packageId, r.value.0, r.value.1)
  {
    if !PacketOk(fixed, Fixed) { return Failure(BadPacket(Fixed)); }
    if !PacketOk(ai, Ai) { return Failure(BadPacket(Ai)); }
    if !PacketsAgree(fixed, ai) { return Failure(Different); }
    PacketsPair(fixed, ai);
    var ids := Ascending(CaseMap(fixed.rows).Keys);
    AscendingIsDistinct(CaseMap(fixed.rows).Keys);
    var items, assignments, classes, agree := Assemble(CaseMap(fixed.rows), CaseMap(ai.rows), ids, orientations);
    SameEverywhere(CaseMap(fixed.rows), CaseMap(ai.rows), ids);
    if !agree { return Failure(FieldsDiffer); }
    r := Success((Package(packageId, fixed.suiteHash, items),
                  PrivateMap(packageId, fixed.suiteHash, assignments, classes)));
  }

  function ItemFor(fc: map<CaseId, Row>, ac: map<CaseId, Row>, c: CaseId, x: Assigned): Item
    requires Paired(fc, ac) && c in fc
  {
    Item(c, fc[c].class_, fc[c].criterion, fc[c].forbidden, fc[c].required, fc[c].evidence,
         ReportOf(fc, ac, x.a, c), ReportOf(fc, ac, x.b, c))
  }

  lemma ShowOneMore(fc: map<CaseId, Row>, ac: map<CaseId, Row>, ids: seq<CaseId>, orientations: seq<bool>,
                    items: seq<Item>)
    requires Paired(fc, ac) && |items| < |ids| == |orientations| && forall c :: c in ids ==> c in fc
    requires ItemsShow(fc, ac, ids, orientations, items)
    ensures var item := ItemFor(fc, ac, ids[|items|], Orient(orientations[|items|]));
            ItemsShow(fc, ac, ids, orientations, items + [item])
  {
    var n := |items|;
    var more := items + [ItemFor(fc, ac, ids[n], Orient(orientations[n]))];
    forall i | 0 <= i < |more| ensures Shows(fc, ac, more[i], ids[i], Orient(orientations[i])) {
      if i < n { assert more[i] == items[i]; }
    }
  }

  /** The first n cases have the same fields in both packets. */
  predicate SameUpTo(fc: map<CaseId, Row>, ac: map<CaseId, Row>, ids: seq<CaseId>, n: nat)
    requires Paired(fc, ac) && n <= |ids| && forall c :: c in ids ==> c in fc
  {
    forall i {:trigger ids[i]} :: 0 <= i < n ==> SameFields(fc[ids[i]], ac[ids[i]])
  }

  /** What the loop has made of the first cases. */
  predicate Assembled(fc: map<CaseId, Row>, ac: map<CaseId, Row>, ids: seq<CaseId>, orientations: seq<bool>,
                      items: seq<Item>, assignments: map<CaseId, Assigned>, classes: map<CaseId, string>)
    requires Paired(fc, ac) && |items| <= |ids| == |orientations| && forall c :: c in ids ==> c in fc
  {
    && SameUpTo(fc, ac, ids, |items|) && ItemsShow(fc, ac, ids, orientations, items)
    && Maps(ids, orientations, assignments, |items|) && classes.Keys == assignments.Keys && Classes(fc, classes)
  }

  lemma AssembleOneMore(fc: map<CaseId, Row>, ac: map<CaseId, Row>, ids: seq<CaseId>, orientations: seq<bool>,
                        items: seq<Item>, assignments: map<CaseId, Assigned>, classes: map<CaseId, string>)
    requires Paired(fc, ac) && Distinct(ids) && |items| < |ids| == |orientations| && forall c :: c in ids ==> c in fc
    requires Assembled(fc, ac, ids, orientations, items, assignments, classes)
    requires SameFields(fc[ids[|items|]], ac[ids[|items|]])
    ensures var c, x := ids[|items|], Orient(orientations[|items|]);
            Assembled(fc, ac, ids, orientations, items + [ItemFor(fc, ac, c, x)], assignments[c := x],
                      classes[c := fc[c].class_])
  {
    SameOneMore(fc, ac, ids, |items|);
    MapOneMore(ids, orientations, assignments, |items|);
    ShowOneMore(fc, ac, ids, orientations, items);
    ClassOneMore(fc, classes, ids[|items|]);
  }

  lemma SameOneMore(fc: map<CaseId, Row>, ac: map<CaseId, Row>, ids: seq<CaseId>, n: nat)
    requires Paired(fc, ac) && n < |ids| && forall c :: c in ids ==> c in fc
    requires SameUpTo(fc, ac, ids, n) && SameFields(fc[ids[n]], ac[ids[n]])
    ensures SameUpTo(fc, ac, ids, n + 1)
  {
  }

  lemma ClassOneMore(fc: map<CaseId, Row>, classes: map<CaseId, string>, c: CaseId)
    requires Classes(fc, classes) && c in fc
    ensures Classes(fc, classes[c := fc[c].class_])
  {
  }

  /** The loop over the cases: it stops at the first whose two rows differ. */
  method Assemble(fc: map<CaseId, Row>, ac: map<CaseId, Row>, ids: seq<CaseId>, orientations: seq<bool>)
    returns (items: seq<Item>, assignments: map<CaseId, Assigned>, classes: map<CaseId, string>, agree: bool)
    requires Paired(fc, ac) && Distinct(ids) && |ids| == |orientations| && forall c :: c in ids <==> c in fc
    ensures agree <==> SameUpTo(fc, ac, ids, |ids|)
    ensures agree ==> |items| == |ids| && Assembled(fc, ac, ids, orientations, items, assignments, classes)
  {
    items, assignments, classes, agree := [], map[], map[], true;
    while |items| < |ids|
      invariant agree && |items| <= |ids| && Assembled(fc, ac, ids, orientations, items, assignments, classes)
    {
      var c, x := ids[|items|], Orient(orientations[|items|]);
      var left, right := fc[c], ac[c];
      if !SameFields(left, right) {
        agree := false;
        return;
      }
      var a := if x.a == Fixed then left.reports[0] else right.reports[0];
      var b := if x.b == Fixed then left.reports[0] else right.reports[0];
      AssembleOneMore(fc, ac, ids, orientations, items, assignments, classes);
      assignments := assignments[c := x];
      classes := classes[c := left.class_];
      items := items + [Item(c, left.class_, left.criterion, left.forbidden, left.required, left.evidence, a, b)];
    }
  }

  lemma SameEverywhere(fc: map<CaseId, Row>, ac: map<CaseId, Row>, ids: seq<CaseId>)
    requires Paired(fc, ac) && forall c :: c in ids <==> c in fc
    ensures SameUpTo(fc, ac, ids, |ids|) <==> forall c :: c in fc ==> SameFields(fc[c], ac[c])
  {
    if SameUpTo(fc, ac, ids, |ids|) {
      forall c | c in fc ensures SameFields(fc[c], ac[c]) {
        var i :| 0 <= i < |ids| && ids[i] == c;
      }
    }
  }

  // ---- what the map of a built package is like ----

  /** A map that names both modes for every one of sixteen cases, in one order or the other. */
  predicate Invertible(m: PrivateMap) {
    && |m.assignments| == CASES && m.classes.Keys == m.assignments.Keys
    && forall c :: c in m.assignments ==> m.assignments[c].a != m.assignments[c].b
  }

  lemma MapsAreInvertible(ids: seq<CaseId>, orientations: seq<bool>, assignments: map<CaseId, Assigned>, c: CaseId)
    requires |ids| == |orientations| && Maps(ids, orientations, assignments, |ids|) && c in assignments
    ensures assignments[c].a != assignments[c].b
  {
    assert ids[..|ids|] == ids;
    var i :| 0 <= i < |ids| && ids[i] == c;
  }

  lemma BuiltFromIsInvertible(fc: map<CaseId, Row>, ac: map<CaseId, Row>, ids: seq<CaseId>, orientations: seq<bool>,
                              p: Package, m: PrivateMap)
    requires BuiltFrom(fc, ac, ids, orientations, p, m) && Distinct(ids)
    ensures Invertible(m) && m.assignments.Keys == Elements(ids)
  {
    assert ids[..CASES] == ids;
    ElementsCount(ids);
    forall c | c in m.assignments ensures m.assignments[c].a != m.assignments[c].b {
      MapsAreInvertible(ids, orientations, m.assignments, c);
    }
  }

  lemma {:induction false} ElementsCount(ids: seq<CaseId>)
    requires Distinct(ids)
    ensures |Elements(ids)| == |ids|
  {
    if ids != [] {
      var n := |ids| - 1;
      ElementsCount(ids[..n]);
      ElementsGrow(ids, n);
      assert ids[..n + 1] == ids;
    }
  }

  /** The map of a built package names the sixteen cases of both packets, and can be inverted. */
  lemma BuiltMapIsInvertible(fixed: Packet, ai: Packet, orientations: seq<bool>, packageId: string,
                             p: Package, m: PrivateMap)
    requires Built(fixed, ai, orientations, packageId, p, m)
    ensures Invertible(m) && m.assignments.Keys == CaseMap(fixed.rows).Keys
  {
    var s := CaseMap(fixed.rows).Keys;
    AscendingIsDistinct(s);
    BuiltFromIsInvertible(CaseMap(fixed.rows), CaseMap(ai.rows), Ascending(s), orientations, p, m);
  }

  function FixedFirst(m: PrivateMap): set<CaseId> { set c | c in m.assignments && m.assignments[c].a == Fixed }

  function TrueIds(ids: seq<CaseId>, orientations: seq<bool>): set<CaseId>
    requires |ids| == |orientations|
  {
    set i | 0 <= i < |ids| && orientations[i] :: ids[i]
  }

  lemma {:induction false} TrueIdsCount(ids: seq<CaseId>, orientations: seq<bool>)
    requires |ids| == |orientations| && Distinct(ids)
    ensures |TrueIds(ids, orientations)| == multiset(orientations)[true]
  {
    if ids != [] {
      var n := |ids| - 1;
      var less := TrueIds(ids[..n], orientations[..n]);
      TrueIdsCount(ids[..n], orientations[..n]);
      assert orientations == orientations[..n] + [orientations[n]];
      assert TrueIds(ids, orientations) == if orientations[n] then less + {ids[n]} else less;
    }
  }

  lemma FixedFirstIsTrue(ids: seq<CaseId>, orientations: seq<bool>, m: PrivateMap)
    requires |ids| == |orientations| && Maps(ids, orientations, m.assignments, |ids|)
    ensures FixedFirst(m) == TrueIds(ids, orientations)
  {
    assert ids[..|ids|] == ids;
    forall c | c in FixedFirst(m) ensures c in TrueIds(ids, orientations) {
      var i :| 0 <= i < |ids| && ids[i] == c;
    }
  }

  /** Whatever the shuffle, exactly half of the cases show the fixed report first. */
  lemma HalfShowFixedFirst(fixed: Packet, ai: Packet, orientations: seq<bool>, packageId: string,
                           p: Package, m: PrivateMap)
    requires Built(fixed, ai, orientations, packageId, p, m) && Shuffled(orientations)
    ensures |FixedFirst(m)| == CASES / 2
  {
    var ids := Ascending(CaseMap(fixed.rows).Keys);
    AscendingIsDistinct(CaseMap(fixed.rows).Keys);
    TrueIdsCount(ids, orientations);
    FixedFirstIsTrue(ids, orientations, m);
  }
}
