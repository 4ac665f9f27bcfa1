/**
 Putting the blind judgements back (ai-ops/scripts/prepare_blind_review.py:95-155), and the proof that
 it undoes the blinding.
 */
module BlindReviewImport {
  import opened Wrappers
  import opened BlindReview
  import Sets

  datatype Review = Review(caseId: CaseId, alias: string, top1: Option<bool>, supported: bool, forbidden: bool,
                           note: string)

  datatype Submission = Submission(version: int, packageId: string, suiteHash: string, attested: bool,
                                   reviewer: string, reviews: seq<Review>)

  datatype TemplateRow = TemplateRow(caseId: CaseId, repeat: int)
  datatype Template = Template(version: int, mode: string, suiteHash: string, rows: seq<TemplateRow>)

  datatype Judgement = Judgement(caseId: CaseId, top1: Option<bool>, supported: bool, forbidden: bool,
                                 reviewer: string, note: string)

  datatype Scored = Scored(suiteHash: string, mode: Mode, reviews: seq<Judgement>)

  function TrimLeft(s: string): string { if s != "" && s[0] in " \t\n\r" then TrimLeft(s[1..]) else s }

  function Trim(s: string): string { TrimRight(TrimLeft(s)) }

  function TrimRight(s: string): string {
    if s != "" && s[|s| - 1] in " \t\n\r" then TrimRight(s[..|s| - 1]) else s
  }

  predicate TemplateOk(t: Template, mode: Mode, m: PrivateMap) {
    && t.version == 1 && t.mode == Name(mode) && t.suiteHash == m.suiteHash && |t.rows| == CASES
    && (forall i :: 0 <= i < |t.rows| ==> t.rows[i].repeat == 1)
    && var ids := set i | 0 <= i < |t.rows| :: t.rows[i].caseId;
       |ids| == CASES && ids == m.assignments.Keys
  }

  predicate HeaderOk(s: Submission, m: PrivateMap) {
    s.version == 1 && s.packageId == m.packageId && s.suiteHash == m.suiteHash && s.attested
  }

  predicate Known(m: PrivateMap, r: Review) { r.caseId in m.assignments && (r.alias == "A" || r.alias == "B") }

  /** An incident needs a judgement of the top cause, and any other case must not have one. */
  predicate Top1Fits(m: PrivateMap, r: Review) {
    r.caseId in m.classes && (m.classes[r.caseId] == "incident" <==> r.top1.Some?)
  }

  predicate RowOk(m: PrivateMap, r: Review) { Known(m, r) && Top1Fits(m, r) && Trim(r.note) != "" }

  /** No two judgements are about the same report. */
  predicate OneEach(reviews: seq<Review>) {
    forall i, j :: 0 <= i < j < |reviews| ==>
      (reviews[i].caseId, reviews[i].alias) != (reviews[j].caseId, reviews[j].alias)
  }

  predicate RowsOk(m: PrivateMap, reviews: seq<Review>) {
    OneEach(reviews) && forall r :: r in reviews ==> RowOk(m, r)
  }

  function Judge(r: Review, reviewer: string): Judgement {
    Judgement(r.caseId, r.top1, r.supported, r.forbidden, Trim(reviewer), Trim(r.note))
  }

  function ModeFor(m: PrivateMap, r: Review): Option<Mode> {
    if r.caseId in m.assignments then Some(ModeOf(m.assignments[r.caseId], r.alias)) else None
  }

  /** The judgements of the reports one mode wrote, in the order they were given. */
  function ByMode(m: PrivateMap, reviewer: string, reviews: seq<Review>, mode: Mode): seq<Judgement> {
    if reviews == [] then []
    else
      var n := |reviews| - 1;
      ByMode(m, reviewer, reviews[..n], mode)
        + if ModeFor(m, reviews[n]) == Some(mode) then [Judge(reviews[n], reviewer)] else []
  }

  function Insert(j: Judgement, js: seq<Judgement>): seq<Judgement> {
    if js == [] || j.caseId < js[0].caseId then [j] + js else [js[0]] + Insert(j, js[1..])
  }

  /** A stable sort by case. */
  function ByCase(js: seq<Judgement>): seq<Judgement> {
    if js == [] then [] else Insert(js[|js| - 1], ByCase(js[..|js| - 1]))
  }

  predicate Acceptable(s: Submission, m: PrivateMap, fixed: Template, ai: Template) {
    && HeaderOk(s, m) && Trim(s.reviewer) != "" && TemplateOk(fixed, Fixed, m) && TemplateOk(ai, Ai, m)
    && |s.reviews| == 2 * CASES && RowsOk(m, s.reviews)
  }

  predicate CountsOk(s: Submission, m: PrivateMap) {
    |ByMode(m, s.reviewer, s.reviews, Fixed)| == CASES && |ByMode(m, s.reviewer, s.reviews, Ai)| == CASES
  }

  function Output(s: Submission, m: PrivateMap, mode: Mode): Scored {
    Scored(m.suiteHash, mode, ByCase(ByMode(m, s.reviewer, s.reviews, mode)))
  }

  lemma RowsOneMore(m: PrivateMap, reviews: seq<Review>, i: nat)
    requires i < |reviews| && RowsOk(m, reviews[..i])
    ensures RowsOk(m, reviews[..i + 1]) <==>
            RowOk(m, reviews[i]) && forall j :: 0 <= j < i ==>
              (reviews[j].caseId, reviews[j].alias) != (reviews[i].caseId, reviews[i].alias)
    ensures RowsOk(m, reviews) ==> RowsOk(m, reviews[..i + 1])
  {
    var part := reviews[..i + 1];
    assert part == reviews[..i] + [reviews[i]];
    assert part[i] == reviews[i] && forall j :: 0 <= j < i ==> part[j] == reviews[j];
  }

  /** The loop over the judgements. */
  method Convert(reviews: seq<Review>, m: PrivateMap, reviewer: string)
    returns (error: Option<Error>, forFixed: seq<Judgement>, forAi: seq<Judgement>)
    requires m.classes.Keys == m.assignments.Keys
    ensures error.None? <==> RowsOk(m, reviews)
    ensures error.None? || error.value in {BadCase, BadTop1, BadFields}
    ensures error.None? ==> forFixed == ByMode(m, reviewer, reviews, Fixed) && forAi == ByMode(m, reviewer, reviews, Ai)
  {
    error, forFixed, forAi := None, [], [];
    var seen: set<(CaseId, string)> := {};
    var i := 0;
    while i < |reviews|
      invariant 0 <= i <= |reviews| && error.None? && RowsOk(m, reviews[..i])
      invariant seen == set j | 0 <= j < i :: (reviews[j].caseId, reviews[j].alias)
      invariant forFixed == ByMode(m, reviewer, reviews[..i], Fixed)
      invariant forAi == ByMode(m, reviewer, reviews[..i], Ai)
    {
      var row := reviews[i];
      RowsOneMore(m, reviews, i);
      error := CheckRow(m, row, (row.caseId, row.alias) in seen);
      if error.Some? { return; }
      seen := seen + {(row.caseId, row.alias)};
      assert reviews[..i + 1] == reviews[..i] + [row] && reviews[..i + 1][..i] == reviews[..i];
      if ModeOf(m.assignments[row.caseId], row.alias) == Fixed {
        forFixed := forFixed + [Judge(row, reviewer)];
      } else {
        forAi := forAi + [Judge(row, reviewer)];
      }
      i := i + 1;
    }
    assert reviews[..i] == reviews;
  }

  method CheckRow(m: PrivateMap, row: Review, seen: bool) returns (error: Option<Error>)
    requires m.classes.Keys == m.assignments.Keys
    ensures error.None? <==> RowOk(m, row) && !seen
    ensures error.None? || error.value in {BadCase, BadTop1, BadFields}
  {
    if !Known(m, row) || seen { return Some(BadCase); }
    if (m.classes[row.caseId] == "incident") != row.top1.Some? { return Some(BadTop1); }
    if Trim(row.note) == "" { return Some(BadFields); }
    error := None;
  }

  method ImportReviews(s: Submission, m: PrivateMap, fixed: Template, ai: Template)
    returns (r: Result<(Scored, Scored), Error>)
    requires m.classes.Keys == m.assignments.Keys
    ensures r.Success? <==> Acceptable(s, m, fixed, ai) && CountsOk(s, m)
    ensures r.Success? ==> r.value == (Output(s, m, Fixed), Output(s, m, Ai))
    ensures r == Failure(ModeCount) <==> Acceptable(s, m, fixed, ai) && !CountsOk(s, m)
  {
    if !HeaderOk(s, m) { return Failure(BadHeader); }
    if Trim(s.reviewer) == "" { return Failure(NoReviewer); }
    if !TemplateOk(fixed, Fixed, m) { return Failure(BadTemplate(Fixed)); }
    if !TemplateOk(ai, Ai, m) { return Failure(BadTemplate(Ai)); }
    if |s.reviews| != 2 * CASES { return Failure(WrongCount); }
    var error, forFixed, forAi := Convert(s.reviews, m, s.reviewer);
    if error.Some? { return Failure(error.value); }
    if |forFixed| != CASES || |forAi| != CASES { return Failure(ModeCount); }
    r := Success((Scored(m.suiteHash, Fixed, ByCase(forFixed)), Scored(m.suiteHash, Ai, ByCase(forAi))));
  }

  // ---- on the map of a built package, the count check cannot fail ----

  function Pairs(reviews: seq<Review>): set<(CaseId, string)> {
    set i | 0 <= i < |reviews| :: (reviews[i].caseId, reviews[i].alias)
  }

  lemma {:induction false} PairsCount(reviews: seq<Review>)
    requires OneEach(reviews)
    ensures |Pairs(reviews)| == |reviews|
  {
    if reviews != [] {
      var n := |reviews| - 1;
      PairsCount(reviews[..n]);
      assert Pairs(reviews) == Pairs(reviews[..n]) + {(reviews[n].caseId, reviews[n].alias)};
    }
  }

  function Under(cases: set<CaseId>, alias: string): set<(CaseId, string)> { set c | c in cases :: (c, alias) }

  lemma {:induction false} UnderCount(cases: set<CaseId>, alias: string)
    ensures |Under(cases, alias)| == |cases|
  {
    if cases != {} {
      var c :| c in cases;
      UnderCount(cases - {c}, alias);
      assert Under(cases, alias) == Under(cases - {c}, alias) + {(c, alias)};
    }
  }

  /** Pigeonhole: thirty-two different known pairs are all the pairs there are. */
  lemma AllPairsJudged(m: PrivateMap, reviews: seq<Review>)
    requires |m.assignments| == CASES && |reviews| == 2 * CASES && RowsOk(m, reviews)
    ensures Pairs(reviews) == Under(m.assignments.Keys, "A") + Under(m.assignments.Keys, "B")
  {
    var cases := m.assignments.Keys;
    PairsCount(reviews);
    UnderCount(cases, "A");
    UnderCount(cases, "B");
    assert Under(cases, "A") !! Under(cases, "B");
    forall p | p in Pairs(reviews) ensures p in Under(cases, "A") + Under(cases, "B") {
      var i :| 0 <= i < |reviews| && p == (reviews[i].caseId, reviews[i].alias);
      assert RowOk(m, reviews[i]);
    }
    Sets.FullSubset(Pairs(reviews), Under(cases, "A") + Under(cases, "B"));
  }

  lemma {:induction false} ByModeHas(m: PrivateMap, reviewer: string, reviews: seq<Review>, mode: Mode, j: Judgement)
    ensures j in ByMode(m, reviewer, reviews, mode) <==>
            exists i :: 0 <= i < |reviews| && ModeFor(m, reviews[i]) == Some(mode) && j == Judge(reviews[i], reviewer)
  {
    if reviews != [] {
      var n := |reviews| - 1;
      ByModeHas(m, reviewer, reviews[..n], mode, j);
      if j in ByMode(m, reviewer, reviews[..n], mode) {
        var i :| 0 <= i < n && ModeFor(m, reviews[..n][i]) == Some(mode) && j == Judge(reviews[..n][i], reviewer);
        assert reviews[i] == reviews[..n][i];
      }
      if i :| 0 <= i < |reviews| && ModeFor(m, reviews[i]) == Some(mode) && j == Judge(reviews[i], reviewer) {
        if i < n { assert reviews[..n][i] == reviews[i]; }
      }
    }
  }

  predicate CasesDiffer(js: seq<Judgement>) { forall i, j :: 0 <= i < j < |js| ==> js[i].caseId != js[j].caseId }

  function CasesOf(js: seq<Judgement>): set<CaseId> { set j | j in js :: j.caseId }

  /** On an invertible map, each mode gets no case twice. */
  lemma {:induction false} ByModeDiffers(m: PrivateMap, reviewer: string, reviews: seq<Review>, mode: Mode)
    requires Invertible(m) && RowsOk(m, reviews)
    ensures CasesDiffer(ByMode(m, reviewer, reviews, mode))
  {
    if reviews != [] {
      var n := |reviews| - 1;
      var less, last := reviews[..n], reviews[n];
      ByModeDiffers(m, reviewer, less, mode);
      if ModeFor(m, last) == Some(mode) {
        var js := ByMode(m, reviewer, less, mode);
        forall k | 0 <= k < |js| ensures js[k].caseId != last.caseId {
          ByModeHas(m, reviewer, less, mode, js[k]);
          var i :| 0 <= i < n && ModeFor(m, less[i]) == Some(mode) && js[k] == Judge(less[i], reviewer);
          assert less[i] == reviews[i] && RowOk(m, reviews[i]) && RowOk(m, last);
        }
      }
    }
  }

  lemma {:induction false} CasesCount(js: seq<Judgement>)
    requires CasesDiffer(js)
    ensures |CasesOf(js)| == |js|
  {
    if js != [] {
      var n := |js| - 1;
      CasesCount(js[..n]);
      assert js == js[..n] + [js[n]];
      assert CasesOf(js) == CasesOf(js[..n]) + {js[n].caseId};
    }
  }

  /** Each mode gets a judgement of every case. */
  lemma ByModeCovers(m: PrivateMap, reviewer: string, reviews: seq<Review>, mode: Mode, c: CaseId)
    requires Invertible(m) && |reviews| == 2 * CASES && RowsOk(m, reviews) && c in m.assignments
    ensures c in CasesOf(ByMode(m, reviewer, reviews, mode))
  {
    var alias := if m.assignments[c].a == mode then "A" else "B";
    AllPairsJudged(m, reviews);
    assert (c, alias) in Under(m.assignments.Keys, alias);
    var i :| 0 <= i < |reviews| && (reviews[i].caseId, reviews[i].alias) == (c, alias);
    ByModeHas(m, reviewer, reviews, mode, Judge(reviews[i], reviewer));
  }

  lemma ByModeIsOfCases(m: PrivateMap, reviewer: string, reviews: seq<Review>, mode: Mode)
    requires Invertible(m) && |reviews| == 2 * CASES && RowsOk(m, reviews)
    ensures CasesOf(ByMode(m, reviewer, reviews, mode)) == m.assignments.Keys
    ensures |ByMode(m, reviewer, reviews, mode)| == CASES
  {
    var js := ByMode(m, reviewer, reviews, mode);
    forall c | c in m.assignments ensures c in CasesOf(js) {
      ByModeCovers(m, reviewer, reviews, mode, c);
    }
    forall j | j in js ensures j.caseId in m.assignments {
      ByModeHas(m, reviewer, reviews, mode, j);
      var i :| 0 <= i < |reviews| && ModeFor(m, reviews[i]) == Some(mode) && j == Judge(reviews[i], reviewer);
      assert RowOk(m, reviews[i]);
    }
    ByModeDiffers(m, reviewer, reviews, mode);
    CasesCount(js);
  }

  /** The last check of the import, that each mode has sixteen judgements, never fires on a built package's map. */
  lemma CountCheckNeverFires(s: Submission, m: PrivateMap, fixed: Template, ai: Template)
    requires Invertible(m) && Acceptable(s, m, fixed, ai)
    ensures CountsOk(s, m)
  {
    ByModeIsOfCases(m, s.reviewer, s.reviews, Fixed);
    ByModeIsOfCases(m, s.reviewer, s.reviews, Ai);
  }

  // ---- sorting keeps the judgements ----

  predicate Sorted(js: seq<Judgement>) { forall i, j :: 0 <= i < j < |js| ==> js[i].caseId <= js[j].caseId }

  lemma {:induction false} InsertAdds(j: Judgement, js: seq<Judgement>)
    ensures multiset(Insert(j, js)) == multiset(js) + multiset{j}
  {
    if js != [] && !(j.caseId < js[0].caseId) {
      InsertAdds(j, js[1..]);
      assert js == [js[0]] + js[1..];
    }
  }

  lemma {:induction false} InsertSorts(j: Judgement, js: seq<Judgement>)
    requires Sorted(js)
    ensures Sorted(Insert(j, js))
  {
    if js != [] && !(j.caseId < js[0].caseId) {
      InsertSorts(j, js[1..]);
      var rest := Insert(j, js[1..]);
      InsertAdds(j, js[1..]);
      forall i | 0 <= i < |rest| ensures js[0].caseId <= rest[i].caseId {
        assert rest[i] in multiset(js[1..]) + multiset{j};
      }
    }
  }

  lemma {:induction false} ByCaseKeeps(js: seq<Judgement>)
    ensures multiset(ByCase(js)) == multiset(js) && Sorted(ByCase(js))
  {
    if js != [] {
      var n := |js| - 1;
      ByCaseKeeps(js[..n]);
      InsertAdds(js[n], ByCase(js[..n]));
      InsertSorts(js[n], ByCase(js[..n]));
      assert js == js[..n] + [js[n]];
    }
  }

  /** Each mode's output is its sixteen judgements, once each, in the order of the cases. */
  lemma OutputIsComplete(s: Submission, m: PrivateMap, fixed: Template, ai: Template, mode: Mode)
    requires Invertible(m) && Acceptable(s, m, fixed, ai)
    ensures var js := Output(s, m, mode).reviews;
            |js| == CASES && CasesOf(js) == m.assignments.Keys && Sorted(js) && CasesDiffer(js)
  {
    var js := ByMode(m, s.reviewer, s.reviews, mode);
    ByModeIsOfCases(m, s.reviewer, s.reviews, mode);
    ByCaseKeeps(js);
    SameElements(js, ByCase(js));
    DifferByCount(ByCase(js));
  }

  lemma SameElements(js: seq<Judgement>, ks: seq<Judgement>)
    requires multiset(js) == multiset(ks)
    ensures |js| == |ks| && CasesOf(js) == CasesOf(ks) && forall j :: j in js <==> j in ks
  {
    assert |multiset(js)| == |js| && |multiset(ks)| == |ks|;
    assert forall j :: j in js <==> j in multiset(js);
    assert forall j :: j in ks <==> j in multiset(ks);
  }

  /** As many cases as entries means no case twice. */
  lemma {:induction false} DifferByCount(js: seq<Judgement>)
    requires |CasesOf(js)| == |js|
    ensures CasesDiffer(js)
  {
    if js != [] {
      var n := |js| - 1;
      var less := CasesOf(js[..n]);
      assert js == js[..n] + [js[n]];
      assert CasesOf(js) == less + {js[n].caseId};
      CasesAtMost(js[..n]);
      DifferByCount(js[..n]);
      assert js[n].caseId !in less;
      forall i | 0 <= i < n ensures js[i].caseId != js[n].caseId {
        assert js[..n][i] in js[..n];
      }
    }
  }

  lemma {:induction false} CasesAtMost(js: seq<Judgement>)
    ensures |CasesOf(js)| <= |js|
  {
    if js != [] {
      var n := |js| - 1;
      CasesAtMost(js[..n]);
      assert js == js[..n] + [js[n]];
      assert CasesOf(js) == CasesOf(js[..n]) + {js[n].caseId};
    }
  }

  /**
   Unblinding undoes blinding: a judgement of the report shown as `alias` for a case ends up, with its
   content, under the mode whose report was shown there, and nothing else ends up there for that case.
   */
  lemma UnblindingInvertsBlinding(fp: Packet, ap: Packet, orientations: seq<bool>, packageId: string, p: Package,
                                  m: PrivateMap, s: Submission, fixed: Template, ai: Template, k: nat, i: nat)
    requires Built(fp, ap, orientations, packageId, p, m) && Acceptable(s, m, fixed, ai)
    requires i < |s.reviews| && k < |p.items| && p.items[k].caseId == s.reviews[i].caseId
    ensures s.reviews[i].caseId in m.assignments
    ensures var row := s.reviews[i]; var mode := ModeOf(m.assignments[row.caseId], row.alias);
            var shown := if row.alias == "A" then p.items[k].a else p.items[k].b;
            && Paired(CaseMap(fp.rows), CaseMap(ap.rows)) && row.caseId in CaseMap(fp.rows)
            && shown == ReportOf(CaseMap(fp.rows), CaseMap(ap.rows), mode, row.caseId)
            && Judge(row, s.reviewer) in Output(s, m, mode).reviews
            && forall j :: j in Output(s, m, mode).reviews && j.caseId == row.caseId ==> j == Judge(row, s.reviewer)
  {
    var row := s.reviews[i];
    assert RowOk(m, row);
    var mode := ModeOf(m.assignments[row.caseId], row.alias);
    BuiltMapIsInvertible(fp, ap, orientations, packageId, p, m);
    ShownIsAssigned(CaseMap(fp.rows), CaseMap(ap.rows), Ascending(CaseMap(fp.rows).Keys), orientations, p, m, k);
    JudgementArrives(s, m, fixed, ai, mode, i);
  }

  lemma ShownIsAssigned(fc: map<CaseId, Row>, ac: map<CaseId, Row>, ids: seq<CaseId>, orientations: seq<bool>,
                        p: Package, m: PrivateMap, k: nat)
    requires BuiltFrom(fc, ac, ids, orientations, p, m) && k < |p.items| && p.items[k].caseId in m.assignments
    ensures var c := p.items[k].caseId; var x := m.assignments[c];
            c in fc && p.items[k].a == ReportOf(fc, ac, x.a, c) && p.items[k].b == ReportOf(fc, ac, x.b, c)
  {
    assert Shows(fc, ac, p.items[k], ids[k], Orient(orientations[k]));
    assert m.assignments[ids[k]] == Orient(orientations[k]);
  }

  lemma JudgementArrives(s: Submission, m: PrivateMap, fixed: Template, ai: Template, mode: Mode, i: nat)
    requires Invertible(m) && Acceptable(s, m, fixed, ai) && i < |s.reviews| && ModeFor(m, s.reviews[i]) == Some(mode)
    ensures var js := Output(s, m, mode).reviews;
            && Judge(s.reviews[i], s.reviewer) in js
            && forall j :: j in js && j.caseId == s.reviews[i].caseId ==> j == Judge(s.reviews[i], s.reviewer)
  {
    var js := ByMode(m, s.reviewer, s.reviews, mode);
    ByModeHas(m, s.reviewer, s.reviews, mode, Judge(s.reviews[i], s.reviewer));
    ByModeDiffers(m, s.reviewer, s.reviews, mode);
    ByCaseKeeps(js);
    SameElements(js, ByCase(js));
    OneOfEachCase(js, Judge(s.reviews[i], s.reviewer));
  }

  lemma OneOfEachCase(js: seq<Judgement>, j: Judgement)
    requires CasesDiffer(js) && j in js
    ensures forall k :: k in js && k.caseId == j.caseId ==> k == j
  {
  }
}
