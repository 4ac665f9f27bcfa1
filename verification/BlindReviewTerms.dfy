/**
 What the two steps of the blind review take in, said of the packets and judgements themselves, and that the
 package alone does not tell which way of working wrote which report.
 */
module BlindReviewTerms {
  import opened Wrappers
  import opened BlindReview
  import opened BlindReviewImport
  import Sets

  // ---- the packets ----

  predicate DistinctCases(rows: seq<Row>) { forall i, j :: 0 <= i < j < |rows| ==> rows[i].caseId != rows[j].caseId }

  lemma {:induction false} CaseMapHas(rows: seq<Row>, c: CaseId)
    ensures c in CaseMap(rows) <==> exists i :: 0 <= i < |rows| && rows[i].caseId == c
    decreases |rows|
  {
    if rows != [] {
      var n := |rows| - 1;
      CaseMapHas(rows[..n], c);
      if i :| 0 <= i < n && rows[i].caseId == c { assert rows[..n][i].caseId == c; }
      if i :| 0 <= i < n && rows[..n][i].caseId == c { assert rows[i].caseId == c; }
    }
  }

  /** As many cases as rows means no case twice. */
  lemma {:induction false} CaseMapCounts(rows: seq<Row>)
    ensures |CaseMap(rows)| <= |rows|
    ensures |CaseMap(rows)| == |rows| <==> DistinctCases(rows)
    decreases |rows|
  {
    if rows != [] {
      var n := |rows| - 1;
      CaseMapCounts(rows[..n]);
      CaseMapHas(rows[..n], rows[n].caseId);
      var m := CaseMap(rows[..n]);
      assert CaseMap(rows).Keys == m.Keys + {rows[n].caseId};
      assert |CaseMap(rows)| == |CaseMap(rows).Keys| && |m| == |m.Keys|;
      assert DistinctCases(rows) ==> DistinctCases(rows[..n]);
      if rows[n].caseId in m {
        var i :| 0 <= i < n && rows[..n][i].caseId == rows[n].caseId;
        assert rows[i].caseId == rows[n].caseId;
      } else if DistinctCases(rows[..n]) {
        forall i, j | 0 <= i < j < |rows| ensures rows[i].caseId != rows[j].caseId {
          assert rows[..n][i] == rows[i];
          if j < n { assert rows[..n][j] == rows[j]; }
        }
      }
    }
  }

  lemma {:induction false} CaseMapRow(rows: seq<Row>, i: nat)
    requires DistinctCases(rows) && i < |rows|
    ensures rows[i].caseId in CaseMap(rows) && CaseMap(rows)[rows[i].caseId] == rows[i]
    decreases |rows|
  {
    var n := |rows| - 1;
    if i < n {
      assert rows[..n][i] == rows[i];
      CaseMapRow(rows[..n], i);
    }
  }

  /** Sixteen different cases, with the first report of the named way of working for each. */
  predicate FirstReports(p: Packet, mode: string) {
    && p.version == 1 && p.mode == mode && p.firstOnly && |p.rows| == 16 && DistinctCases(p.rows)
    && forall i :: 0 <= i < 16 ==> |p.rows[i].reports| == 1 && p.rows[i].reports[0].repeat == 1
  }

  /** The same case, whoever wrote the report: everything but the report agrees. */
  predicate SameCase(x: Row, y: Row) {
    && x.caseId == y.caseId && (x.class_, x.scenario) == (y.class_, y.scenario)
    && (x.criterion, x.forbidden) == (y.criterion, y.forbidden) && (x.required, x.evidence) == (y.required, y.evidence)
  }

  predicate Matched(rows: seq<Row>, others: seq<Row>) {
    forall i :: 0 <= i < |rows| ==> exists j :: 0 <= j < |others| && SameCase(rows[i], others[j])
  }

  lemma MatchedRows(rows: seq<Row>, others: seq<Row>)
    requires DistinctCases(rows) && DistinctCases(others) && |rows| == |others|
    ensures Matched(rows, others) <==>
              && CaseMap(rows).Keys == CaseMap(others).Keys
              && forall c :: c in CaseMap(rows) ==> SameFields(CaseMap(rows)[c], CaseMap(others)[c])
  {
    if Matched(rows, others) { MatchedMaps(rows, others); }
    var f, a := CaseMap(rows), CaseMap(others);
    if f.Keys == a.Keys && forall c :: c in f ==> SameFields(f[c], a[c]) {
      forall i | 0 <= i < |rows| ensures exists j :: 0 <= j < |others| && SameCase(rows[i], others[j]) {
        CaseMapRow(rows, i);
        CaseMapHas(others, rows[i].caseId);
        var j :| 0 <= j < |others| && others[j].caseId == rows[i].caseId;
        CaseMapRow(others, j);
        assert SameCase(rows[i], others[j]);
      }
    }
  }

  lemma MatchedMaps(rows: seq<Row>, others: seq<Row>)
    requires DistinctCases(rows) && DistinctCases(others) && |rows| == |others| && Matched(rows, others)
    ensures CaseMap(rows).Keys == CaseMap(others).Keys
    ensures forall c :: c in CaseMap(rows) ==> SameFields(CaseMap(rows)[c], CaseMap(others)[c])
  {
    var f, a := CaseMap(rows), CaseMap(others);
    forall c | c in f ensures c in a && SameFields(f[c], a[c]) {
      CaseMapHas(rows, c);
      var i :| 0 <= i < |rows| && rows[i].caseId == c;
      var j :| 0 <= j < |others| && SameCase(rows[i], others[j]);
      CaseMapRow(rows, i);
      CaseMapRow(others, j);
    }
    CaseMapCounts(rows);
    CaseMapCounts(others);
    assert |f.Keys| == |f| && |a.Keys| == |a|;
    Sets.FullSubset(f.Keys, a.Keys);
  }

  /** A package can be built exactly from two such packets of one suite and rubric whose cases are the same. */
  lemma BuildableExactly(fixed: Packet, ai: Packet)
    ensures Buildable(fixed, ai) <==>
              && FirstReports(fixed, "fixed") && FirstReports(ai, "ai") && fixed.suiteId == "a7-holdout-v3"
              && fixed.suiteHash == ai.suiteHash && fixed.rubricHash == ai.rubricHash && Matched(fixed.rows, ai.rows)
  {
    FirstReportsExactly(fixed, Fixed);
    FirstReportsExactly(ai, Ai);
    if FirstReports(fixed, "fixed") && FirstReports(ai, "ai") { MatchedRows(fixed.rows, ai.rows); }
  }

  lemma FirstReportsExactly(p: Packet, mode: Mode)
    ensures PacketOk(p, mode) <==> FirstReports(p, if mode == Fixed then "fixed" else "ai")
  {
    CaseMapCounts(p.rows);
  }

  // ---- blinding ----

  /** The same cases with the two ways of working exchanged. */
  predicate Exchanged(fc: map<CaseId, Row>, ac: map<CaseId, Row>, fc2: map<CaseId, Row>, ac2: map<CaseId, Row>) {
    && Paired(fc, ac) && Paired(fc2, ac2) && fc2.Keys == fc.Keys
    && forall c :: c in fc ==>
         && SameFields(fc[c], fc2[c]) && fc2[c].reports == ac[c].reports && ac2[c].reports == fc[c].reports
  }

  /**
   What the reader of a package holds is the same if the two ways of working had written each other's reports and
   the shuffle had fallen the other way: the package does not tell which of them wrote which report.
   */
  lemma PackageTellsNothing(fixed: Packet, ai: Packet, o: seq<bool>, fixed2: Packet, ai2: Packet, o2: seq<bool>,
                            id: string, p: Package, m: PrivateMap, p2: Package, m2: PrivateMap)
    requires Built(fixed, ai, o, id, p, m) && Built(fixed2, ai2, o2, id, p2, m2)
    requires fixed.suiteHash == fixed2.suiteHash && Opposite(o, o2)
    requires Exchanged(CaseMap(fixed.rows), CaseMap(ai.rows), CaseMap(fixed2.rows), CaseMap(ai2.rows))
    ensures p2 == p
    ensures m2.assignments.Keys == m.assignments.Keys
    ensures forall c :: c in m.assignments ==>
              m2.assignments[c].a == m.assignments[c].b && m2.assignments[c].b == m.assignments[c].a
  {
    var ids := Ascending(CaseMap(fixed.rows).Keys);
    ItemsAreAlike(CaseMap(fixed.rows), CaseMap(ai.rows), CaseMap(fixed2.rows), CaseMap(ai2.rows), ids, o, o2,
                  p.items, p2.items);
    MapsAreOpposite(ids, o, o2, m.assignments, m2.assignments);
  }

  predicate Opposite(o: seq<bool>, o2: seq<bool>) { |o| == |o2| && forall i :: 0 <= i < |o| ==> o2[i] == !o[i] }

  lemma ItemsAreAlike(fc: map<CaseId, Row>, ac: map<CaseId, Row>, fc2: map<CaseId, Row>, ac2: map<CaseId, Row>,
                      ids: seq<CaseId>, o: seq<bool>, o2: seq<bool>, items: seq<Item>, items2: seq<Item>)
    requires Exchanged(fc, ac, fc2, ac2) && Opposite(o, o2) && |items| == |items2| == |ids| == |o|
    requires forall c :: c in ids ==> c in fc
    requires ItemsShow(fc, ac, ids, o, items) && ItemsShow(fc2, ac2, ids, o2, items2)
    ensures items2 == items
  {
    forall i | 0 <= i < |items| ensures items[i] == items2[i] {
      assert Shows(fc, ac, items[i], ids[i], Orient(o[i]));
      assert Shows(fc2, ac2, items2[i], ids[i], Orient(o2[i]));
    }
  }

  lemma MapsAreOpposite(ids: seq<CaseId>, o: seq<bool>, o2: seq<bool>, x: map<CaseId, Assigned>,
                        y: map<CaseId, Assigned>)
    requires |ids| == |o| && Opposite(o, o2) && Maps(ids, o, x, |ids|) && Maps(ids, o2, y, |ids|)
    ensures y.Keys == x.Keys && forall c :: c in x ==> y[c].a == x[c].b && y[c].b == x[c].a
  {
    assert ids[..|ids|] == ids;
    forall c | c in x ensures y[c].a == x[c].b && y[c].b == x[c].a {
      var i :| 0 <= i < |ids| && ids[i] == c;
      assert x[ids[i]] == Orient(o[i]) && y[ids[i]] == Orient(o2[i]);
    }
  }

  // ---- what is shown ----

  /** The item shows the case of the row, and behind its aliases one report of each packet, as the map says. */
  predicate ShowsCase(item: Item, x: Row, y: Row, who: Assigned)
    requires |x.reports| == 1 && |y.reports| == 1
  {
    && item.caseId == x.caseId && (item.class_, item.criterion, item.forbidden) == (x.class_, x.criterion, x.forbidden)
    && (item.required, item.evidence) == (x.required, x.evidence)
    && (if who.a == Fixed then item.a == x.reports[0] else item.a == y.reports[0])
    && (if who.b == Fixed then item.b == x.reports[0] else item.b == y.reports[0])
  }

  /**
   In a built package the case of any row of the fixed packet is shown once, with its report and that of the other
   packet behind the two aliases, and the private map says which is which and keeps the class of the case.
   */
  lemma CaseIsShownOnce(fixed: Packet, ai: Packet, o: seq<bool>, id: string, p: Package, m: PrivateMap, i: nat, j: nat)
    requires Buildable(fixed, ai) && Built(fixed, ai, o, id, p, m) && i < 16 && j < 16
    requires fixed.rows[i].caseId == ai.rows[j].caseId
    ensures var c := fixed.rows[i].caseId;
            && c in m.assignments && m.assignments[c].a != m.assignments[c].b
            && c in m.classes && m.classes[c] == fixed.rows[i].class_
            && |fixed.rows[i].reports| == 1 && |ai.rows[j].reports| == 1
            && exists k :: 0 <= k < |p.items| && ShowsCase(p.items[k], fixed.rows[i], ai.rows[j], m.assignments[c])
                           && forall n :: 0 <= n < |p.items| && p.items[n].caseId == c ==> n == k
  {
    BuildableExactly(fixed, ai);
    CaseMapRow(fixed.rows, i);
    CaseMapRow(ai.rows, j);
    BuiltMapIsInvertible(fixed, ai, o, id, p, m);
    var fc, ac := CaseMap(fixed.rows), CaseMap(ai.rows);
    AscendingIsDistinct(fc.Keys);
    ShownOnce(fc, ac, Ascending(fc.Keys), o, p, m, fixed.rows[i], ai.rows[j]);
  }

  lemma ShownOnce(fc: map<CaseId, Row>, ac: map<CaseId, Row>, ids: seq<CaseId>, o: seq<bool>, p: Package, m: PrivateMap,
                  x: Row, y: Row)
    requires BuiltFrom(fc, ac, ids, o, p, m) && Distinct(ids) && (forall c :: c in ids <==> c in fc)
    requires x.caseId in fc && fc[x.caseId] == x && ac[x.caseId] == y && x.caseId in m.assignments
    ensures |x.reports| == 1 && |y.reports| == 1
    ensures exists k :: 0 <= k < |p.items| && ShowsCase(p.items[k], x, y, m.assignments[x.caseId])
                        && forall n :: 0 <= n < |p.items| && p.items[n].caseId == x.caseId ==> n == k
  {
    var k :| 0 <= k < |ids| && ids[k] == x.caseId;
    assert Shows(fc, ac, p.items[k], ids[k], Orient(o[k]));
    assert m.assignments[ids[k]] == Orient(o[k]);
    assert ShowsCase(p.items[k], x, y, m.assignments[x.caseId]);
    forall n | 0 <= n < |p.items| && p.items[n].caseId == x.caseId ensures n == k {
      assert Shows(fc, ac, p.items[n], ids[n], Orient(o[n]));
    }
  }

  // ---- the judgements ----

  /** A text with something in it besides white space. */
  predicate Says(s: string) { exists i :: 0 <= i < |s| && s[i] != ' ' && s[i] != '\t' && s[i] != '\n' && s[i] != '\r' }

  lemma {:induction false} TrimLeftKeeps(s: string)
    ensures TrimLeft(s) != "" <==> Says(s)
    ensures TrimLeft(s) != "" ==> TrimLeft(s)[0] !in " \t\n\r"
    decreases |s|
  {
    if s != "" && s[0] in " \t\n\r" {
      TrimLeftKeeps(s[1..]);
      if i :| 0 <= i < |s| && s[i] !in " \t\n\r" { assert s[1..][i - 1] == s[i]; }
      if Says(s[1..]) {
        var i :| 0 <= i < |s[1..]| && s[1..][i] != ' ' && s[1..][i] != '\t' && s[1..][i] != '\n' && s[1..][i] != '\r';
        assert s[i + 1] == s[1..][i];
      }
    }
  }

  lemma {:induction false} TrimRightKeeps(s: string)
    requires s != "" && s[0] !in " \t\n\r"
    ensures TrimRight(s) != ""
    decreases |s|
  {
    if s[|s| - 1] in " \t\n\r" { TrimRightKeeps(s[..|s| - 1]); }
  }

  lemma TrimSays(s: string)
    ensures Trim(s) != "" <==> Says(s)
  {
    TrimLeftKeeps(s);
    if TrimLeft(s) != "" { TrimRightKeeps(TrimLeft(s)); }
  }

  /** A blank form of a way of working: the sixteen cases of the map, each once and for the first report. */
  predicate BlankForm(t: Template, mode: string, m: PrivateMap) {
    && t.version == 1 && t.mode == mode && t.suiteHash == m.suiteHash && |t.rows| == 16
    && (forall i :: 0 <= i < 16 ==> t.rows[i].repeat == 1 && t.rows[i].caseId in m.assignments)
    && (forall c :: c in m.assignments ==> exists i :: 0 <= i < 16 && t.rows[i].caseId == c)
  }

  /** The judgement says why, and names the top cause exactly for an incident. */
  predicate Complete(m: PrivateMap, r: Review) {
    r.caseId in m.classes && (r.top1.Some? <==> m.classes[r.caseId] == "incident") && Says(r.note)
  }

  predicate Judges(r: Review, c: CaseId, alias: string) { r.caseId == c && r.alias == alias }

  /** Every report of every case is judged by exactly one of the judgements, and there are no others. */
  predicate EveryReportOnce(m: PrivateMap, reviews: seq<Review>) {
    && (forall i :: 0 <= i < |reviews| ==> reviews[i].caseId in m.assignments && reviews[i].alias in {"A", "B"})
    && (forall i, j :: 0 <= i < j < |reviews| ==> !Judges(reviews[j], reviews[i].caseId, reviews[i].alias))
    && (forall c :: c in m.assignments ==> Judged(reviews, c, "A") && Judged(reviews, c, "B"))
  }

  predicate Judged(reviews: seq<Review>, c: CaseId, alias: string) {
    exists i :: 0 <= i < |reviews| && Judges(reviews[i], c, alias)
  }

  lemma PairIsJudged(m: PrivateMap, reviews: seq<Review>, c: CaseId, alias: string)
    requires Pairs(reviews) == Under(m.assignments.Keys, "A") + Under(m.assignments.Keys, "B")
    requires c in m.assignments && alias in {"A", "B"}
    ensures Judged(reviews, c, alias)
  {
    assert (c, alias) in Under(m.assignments.Keys, alias);
    var i :| 0 <= i < |reviews| && (reviews[i].caseId, reviews[i].alias) == (c, alias);
    assert Judges(reviews[i], c, alias);
  }

  lemma RowIsComplete(m: PrivateMap, r: Review)
    ensures RowOk(m, r) <==> r.caseId in m.assignments && r.alias in {"A", "B"} && Complete(m, r)
  {
    TrimSays(r.note);
  }

  /** Thirty-two different judgements of known reports are one of each. */
  lemma RowsAreOnce(m: PrivateMap, reviews: seq<Review>)
    requires Invertible(m) && |reviews| == 32 && RowsOk(m, reviews)
    ensures EveryReportOnce(m, reviews) && forall i :: 0 <= i < |reviews| ==> Complete(m, reviews[i])
  {
    forall i | 0 <= i < |reviews|
      ensures reviews[i].caseId in m.assignments && reviews[i].alias in {"A", "B"} && Complete(m, reviews[i]) {
      RowIsComplete(m, reviews[i]);
    }
    AllPairsJudged(m, reviews);
    forall c | c in m.assignments ensures Judged(reviews, c, "A") && Judged(reviews, c, "B") {
      PairIsJudged(m, reviews, c, "A");
      PairIsJudged(m, reviews, c, "B");
    }
  }

  /** And the other way round. */
  lemma OnceAreRows(m: PrivateMap, reviews: seq<Review>)
    requires Invertible(m) && EveryReportOnce(m, reviews)
    requires forall i :: 0 <= i < |reviews| ==> Complete(m, reviews[i])
    ensures |reviews| == 32 && RowsOk(m, reviews)
  {
    OnceIsThirtyTwo(m, reviews);
    forall r | r in reviews ensures RowOk(m, r) {
      var i :| 0 <= i < |reviews| && reviews[i] == r;
      RowIsComplete(m, reviews[i]);
    }
  }

  lemma OnceIsOneEach(m: PrivateMap, reviews: seq<Review>)
    requires EveryReportOnce(m, reviews)
    ensures OneEach(reviews)
  {
    forall i, j | 0 <= i < j < |reviews|
      ensures (reviews[i].caseId, reviews[i].alias) != (reviews[j].caseId, reviews[j].alias) {
      assert !Judges(reviews[j], reviews[i].caseId, reviews[i].alias);
    }
  }

  lemma OnceIsAllPairs(m: PrivateMap, reviews: seq<Review>)
    requires EveryReportOnce(m, reviews)
    ensures Pairs(reviews) == Under(m.assignments.Keys, "A") + Under(m.assignments.Keys, "B")
  {
    var cases := m.assignments.Keys;
    forall p | p in Under(cases, "A") + Under(cases, "B") ensures p in Pairs(reviews) {
      assert p.0 in cases && Judged(reviews, p.0, p.1);
      var i :| 0 <= i < |reviews| && Judges(reviews[i], p.0, p.1);
    }
    forall p | p in Pairs(reviews) ensures p in Under(cases, "A") + Under(cases, "B") {
      var i :| 0 <= i < |reviews| && p == (reviews[i].caseId, reviews[i].alias);
    }
  }

  lemma OnceIsThirtyTwo(m: PrivateMap, reviews: seq<Review>)
    requires Invertible(m) && EveryReportOnce(m, reviews)
    ensures |reviews| == 32 && OneEach(reviews)
  {
    var cases := m.assignments.Keys;
    OnceIsOneEach(m, reviews);
    OnceIsAllPairs(m, reviews);
    PairsCount(reviews);
    UnderCount(cases, "A");
    UnderCount(cases, "B");
    assert Under(cases, "A") !! Under(cases, "B");
  }

  lemma BlankFormExactly(t: Template, mode: Mode, m: PrivateMap)
    requires Invertible(m)
    ensures TemplateOk(t, mode, m) <==> BlankForm(t, if mode == Fixed then "fixed" else "ai", m)
  {
    var ids := set i | 0 <= i < |t.rows| :: t.rows[i].caseId;
    if BlankForm(t, Name(mode), m) {
      assert ids == m.assignments.Keys;
    }
    assert |m.assignments.Keys| == |m.assignments|;
    if ids == m.assignments.Keys {
      forall c | c in m.assignments ensures exists i :: 0 <= i < |t.rows| && t.rows[i].caseId == c {
        assert c in ids;
      }
      forall i | 0 <= i < |t.rows| ensures t.rows[i].caseId in m.assignments { assert t.rows[i].caseId in ids; }
    }
  }

  /**
   On the map of a built package, judgements are imported exactly if a named reader attests to them for this package,
   both blank forms are its own, and every one of the thirty-two reports is judged once and completely.
   */
  lemma AcceptableExactly(s: Submission, m: PrivateMap, fixed: Template, ai: Template)
    requires Invertible(m)
    ensures Acceptable(s, m, fixed, ai) && CountsOk(s, m) <==>
              && s.version == 1 && s.packageId == m.packageId && s.suiteHash == m.suiteHash && s.attested
              && Says(s.reviewer) && BlankForm(fixed, "fixed", m) && BlankForm(ai, "ai", m)
              && EveryReportOnce(m, s.reviews) && forall i :: 0 <= i < |s.reviews| ==> Complete(m, s.reviews[i])
  {
    TrimSays(s.reviewer);
    BlankFormExactly(fixed, Fixed, m);
    BlankFormExactly(ai, Ai, m);
    if Acceptable(s, m, fixed, ai) {
      RowsAreOnce(m, s.reviews);
      CountCheckNeverFires(s, m, fixed, ai);
    }
    if EveryReportOnce(m, s.reviews) && forall i :: 0 <= i < |s.reviews| ==> Complete(m, s.reviews[i]) {
      OnceAreRows(m, s.reviews);
      if Acceptable(s, m, fixed, ai) { CountCheckNeverFires(s, m, fixed, ai); }
    }
  }

  // ---- what is imported ----

  predicate Blank(s: string) { forall i :: 0 <= i < |s| ==> s[i] in " \t\n\r" }

  /** `t` is the text without the white space around it. */
  predicate Stripped(s: string, t: string) {
    && (exists n :: 0 <= n <= |s| - |t| && s[n..n + |t|] == t && Blank(s[..n]) && Blank(s[n + |t|..]))
    && (t != "" ==> t[0] !in " \t\n\r" && t[|t| - 1] !in " \t\n\r")
  }

  lemma {:induction false} TrimLeftStrips(s: string)
    ensures exists n :: 0 <= n <= |s| && TrimLeft(s) == s[n..] && Blank(s[..n])
    decreases |s|
  {
    if s != "" && s[0] in " \t\n\r" {
      TrimLeftStrips(s[1..]);
      var n :| 0 <= n <= |s[1..]| && TrimLeft(s[1..]) == s[1..][n..] && Blank(s[1..][..n]);
      assert s[1..][n..] == s[n + 1..] && s[..n + 1] == [s[0]] + s[1..][..n];
    } else {
      assert s[0..] == s && Blank(s[..0]);
    }
  }

  lemma {:induction false} TrimRightStrips(s: string)
    ensures |TrimRight(s)| <= |s| && TrimRight(s) == s[..|TrimRight(s)|] && Blank(s[|TrimRight(s)|..])
    ensures TrimRight(s) != "" ==> TrimRight(s)[|TrimRight(s)| - 1] !in " \t\n\r"
    decreases |s|
  {
    if s != "" && s[|s| - 1] in " \t\n\r" {
      var n := |s| - 1;
      TrimRightStrips(s[..n]);
      var k := |TrimRight(s)|;
      assert s[..n][..k] == s[..k] && s[k..] == s[..n][k..] + [s[n]];
    }
  }

  lemma TrimStrips(s: string)
    ensures Stripped(s, Trim(s))
  {
    TrimLeftKeeps(s);
    TrimLeftStrips(s);
    var rest, t := TrimLeft(s), Trim(s);
    var n :| 0 <= n <= |s| && rest == s[n..] && Blank(s[..n]);
    TrimRightStrips(rest);
    assert rest[..|t|] == s[n..n + |t|] && rest[|t|..] == s[n + |t|..];
  }

  /** The judgement says of the case what the reader said of the report. */
  predicate SaysTheSame(j: Judgement, r: Review, reviewer: string) {
    && j.caseId == r.caseId && j.top1 == r.top1 && j.supported == r.supported && j.forbidden == r.forbidden
    && Stripped(r.note, j.note) && Stripped(reviewer, j.reviewer)
  }

  /**
   Every judgement of an accepted submission is imported under the way of working whose report it judged, as the only
   one of its case there, and says the same.
   */
  lemma JudgementIsImportedWhole(fp: Packet, ap: Packet, o: seq<bool>, id: string, p: Package, m: PrivateMap,
                                 s: Submission, fixed: Template, ai: Template, i: nat)
    requires Built(fp, ap, o, id, p, m) && Acceptable(s, m, fixed, ai) && i < |s.reviews|
    ensures s.reviews[i].caseId in m.assignments
    ensures var row := s.reviews[i]; var who := m.assignments[row.caseId];
            var js := Output(s, m, if row.alias == "A" then who.a else who.b).reviews;
            && (exists j :: j in js && j.caseId == row.caseId && SaysTheSame(j, row, s.reviewer))
            && forall j :: j in js && j.caseId == row.caseId ==> SaysTheSame(j, row, s.reviewer)
  {
    var row := s.reviews[i];
    assert RowOk(m, row);
    BuiltMapIsInvertible(fp, ap, o, id, p, m);
    JudgementArrives(s, m, fixed, ai, ModeOf(m.assignments[row.caseId], row.alias), i);
    TrimStrips(row.note);
    TrimStrips(s.reviewer);
    assert SaysTheSame(Judge(row, s.reviewer), row, s.reviewer);
  }
}
