/**
 The life of one comparison, from its preparation to the tombstone that outlives it: what each operation does
 and when it refuses, and what no later operation can change.
 */
module ModelComparisonLife {
  import opened Wrappers
  import opened ModelComparison
  import opened ModelComparisonLaws
  import opened ModelComparisonApprovals

  /** Every other record and both ledgers are as they were. */
  ghost predicate OnlyRecord(f: Files, g: Files, id: nat) {
    && g.mock == f.mock && g.live == f.live
    && forall i :: i != id ==> (i in g.records <==> i in f.records) && (i in f.records ==> g.records[i] == f.records[i])
  }

  // ---- its start ----

  /** A new record is stored for seven days; a known identifier is left alone, and refused under other terms. */
  lemma PreparedOnce(f: Files, id: nat, b: Bound, rules: string, evidence: bool, now: int)
    ensures var r := ModelComparison.Prepare(f, id, b, rules, evidence, now);
            && (r.Success? <==> evidence && (id in f.records ==> f.records[id].bound == b))
            && (r.Failure? ==> r.error == if evidence then IdentityConflict else NoEvidence)
            && (r.Success? && id in f.records ==> r.value == f)
            && (r.Success? && id !in f.records ==>
                  && OnlyRecord(f, r.value, id) && id in r.value.records
                  && r.value.records[id] == Record(b, Prepared, rules, now, now + WEEK, None, None))
  {
  }

  /** Prepared and in its seven days, under the terms that are named, with both acknowledgements if it is live. */
  predicate MayApprove(f: Files, code: Code, id: nat, hash: Bound, retention: bool, sharingOff: bool, now: int) {
    && id in f.records && f.records[id].Record? && f.records[id].state.Prepared? && f.records[id].bound == hash
    && f.records[id].created <= now < f.records[id].created + WEEK && UpToDate(code, f.records[id], now)
    && (hash.plan.mode.Live? ==> retention && sharingOff)
  }

  /** Over every run: an approval is given exactly then, and it changes nothing but the state and the approval. */
  lemma ApprovedExactly(es: seq<Event>, code: Code, id: nat, hash: Bound, actor: string, retention: bool,
                        sharingOff: bool, now: int)
    requires AllPossible(START, es) && Play(START, es).running.None?
    ensures var w := Play(START, es);
            var v := Step(w, Event.Approve(code, id, hash, actor, retention, sharingOff, now));
            if !MayApprove(w.files, code, id, hash, retention, sharingOff, now) then v.files == w.files
            else
              && OnlyRecord(w.files, v.files, id) && id in v.files.records && v.files.records[id].Record?
              && v.files.records[id].state.Approved? && v.files.records[id].approval.Some?
              && v.files.records[id] == w.files.records[id].(state := v.files.records[id].state,
                                                             approval := v.files.records[id].approval)
  {
    PlayKeepsRecords(START, es);
    if id in Play(START, es).files.records { assert RecordOk(Play(START, es), id); }
  }

  /** Of any files whatever, forged ones included: nothing is paid without an approval of these very terms. */
  lemma PaidRecordsAgree(f: Files, code: Code, id: nat, transport: Option<Transport>, now: int)
    requires Begin(f, code, id, transport, now).Reserved?
    ensures id in f.records && f.records[id].Record? && f.records[id].state.Approved? && f.records[id].approval.Some?
    ensures var r := f.records[id]; var a := r.approval.value;
            && a.bound == r.bound && a.at <= now < a.expires && UpToDate(code, r, now) && Suits(transport, r.bound.plan)
            && (r.bound.plan.mode.Live? ==> a.retention && a.sharingOff)
  {
  }

  // ---- its end ----

  /** Over every run: what a sender reports after its send is stored as the end, and nothing else. */
  lemma SendIsClosed(es: seq<Event>, state: State, reason: string)
    requires AllPossible(START, es) && Possible(Play(START, es), Event.Close(state, reason))
    ensures state.NeedsReview? || state.Failed?
    ensures forall why :: && Possible(Play(START, es), Event.Close(NeedsReview, why))
                          && Possible(Play(START, es), Event.Close(State.Failed, why))
    ensures var w := Play(START, es); var v := Step(w, Event.Close(state, reason)); var id := w.running.value.slot.id;
            && v.running.None? && v.sent == w.sent && v.slots == w.slots && OnlyRecord(w.files, v.files, id)
            && id in w.files.records && id in v.files.records && v.files.records[id].Record?
            && v.files.records[id].state == state && v.files.records[id].reason == Some(reason)
            && SameTerms(w.files.records[id], v.files.records[id])
  {
  }

  /** The running code still derives what was bound, whatever the prices. */
  predicate Derives(code: Code, r: Record)
    requires r.Record?
  {
    && r.bound.implementation == code.implementation
    && (r.bound.projection, r.bound.plan) in code.templates
    && code.templates[(r.bound.projection, r.bound.plan)] == r.bound.templates
    && r.bound.projection in code.rules && code.rules[r.bound.projection] == r.rules
  }

  /** A send whose process stopped is never repeated: the next run holds it for review and reports it unknown. */
  lemma StoppedSendIsParked(w: World, code: Code, id: nat, transport: Option<Transport>, now: int)
    requires Sound(w) && w.running.None? && id in w.files.records && w.files.records[id].Record?
    requires w.files.records[id].state.Sending? && Derives(code, w.files.records[id])
    requires Suits(transport, w.files.records[id].bound.plan)
    ensures Begin(w.files, code, id, transport, now).Interrupted?
    ensures var v := Step(w, Run(code, id, transport, now));
            && v.slots == w.slots && v.running.None? && OnlyRecord(w.files, v.files, id) && id in v.files.records
            && v.files.records[id] == w.files.records[id].(state := NeedsReview,
                                                           reason := Some("projection_interrupted_unknown"))
  {
  }

  predicate Ended(r: Record) { r.Record? && (r.state.NeedsReview? || r.state.Failed?) }

  /** Only its tombstone replaces an ended record. */
  predicate EndKept(r: Record, s: Record) { s == r || (s.Tombstone? && s.bound == r.bound) }

  lemma StepKeepsEnd(w: World, e: Event, id: nat)
    requires Sound(w) && Possible(w, e) && id in w.files.records
    requires Ended(w.files.records[id]) || w.files.records[id].Tombstone?
    ensures id in Step(w, e).files.records
    ensures if w.files.records[id].Tombstone? then Step(w, e).files.records[id] == w.files.records[id]
            else EndKept(w.files.records[id], Step(w, e).files.records[id])
  {
  }

  /** Whatever runs later: an ended record keeps its end until its tombstone replaces it, and that stays for ever. */
  lemma {:induction false} EndsAreKept(w: World, es: seq<Event>, id: nat)
    requires Sound(w) && AllPossible(w, es) && id in w.files.records
    requires Ended(w.files.records[id]) || w.files.records[id].Tombstone?
    ensures id in Play(w, es).files.records
    ensures if w.files.records[id].Tombstone? then Play(w, es).files.records[id] == w.files.records[id]
            else EndKept(w.files.records[id], Play(w, es).files.records[id])
    decreases |es|
  {
    if es != [] {
      StepIsSound(w, es[0]);
      StepKeepsEnd(w, es[0], id);
      EndsAreKept(Step(w, es[0]), es[1..], id);
    }
  }

  /** A run of an ended comparison returns what is stored, and of a purged one is refused. */
  lemma EndIsReturned(f: Files, code: Code, id: nat, transport: Option<Transport>, now: int)
    requires id in f.records && transport.Some?
    ensures f.records[id].Tombstone? ==> Begin(f, code, id, transport, now) == Refused(Purged)
    ensures Ended(f.records[id]) && Derives(code, f.records[id]) && Suits(transport, f.records[id].bound.plan) ==>
              Begin(f, code, id, transport, now) == Finished
  {
  }

  // ---- purging ----

  /** Over every run: a purge replaces a record by its tombstone exactly when its seven days are over. */
  lemma BuriedExactly(es: seq<Event>, id: nat, now: int)
    requires AllPossible(START, es) && Play(START, es).running.None? && id in Play(START, es).files.records
    ensures var w := Play(START, es); var v := Step(w, PurgeOne(id, now)); var r := w.files.records[id];
            && OnlyRecord(w.files, v.files, id) && id in v.files.records
            && v.files.records[id] == if r.Record? && r.created + WEEK <= now then Tombstone(r.bound, now) else r
  {
    PlayKeepsRecords(START, es);
    assert RecordOk(Play(START, es), id);
  }

  /** Of a ledger only days 90 days old or older go, and none if the reading is behind the last reservation. */
  ghost predicate Cut(l: Option<Ledger>, m: Option<Ledger>, now: int) {
    if l.None? then m.None?
    else
      && m.Some? && m.value.lastAt == l.value.lastAt
      && (forall d :: d in m.value.days <==> d in l.value.days && d > Day(now) - 90)
      && (forall d :: d in m.value.days ==> m.value.days[d] == l.value.days[d])
  }

  predicate Ahead(l: Option<Ledger>, now: int) { l.Some? && l.value.lastAt > now }

  /** A whole purge: every record, then the mock ledger, then the live one, up to the first that is ahead. */
  lemma PurgedExactly(f: Files, now: int)
    ensures var (g, e) := Purge(f, now);
            && g.records.Keys == f.records.Keys
            && (forall id :: id in f.records ==> g.records[id] == PurgeRecord(f, id, now).records[id])
            && (if Ahead(f.mock, now) then g.mock == f.mock else Cut(f.mock, g.mock, now))
            && (if Ahead(f.mock, now) || Ahead(f.live, now) then g.live == f.live && e == Some(ClockMovedBackwards)
                else Cut(f.live, g.live, now) && e == None)
  {
  }

  lemma LedgerIsCut(f: Files, mode: Mode, now: int)
    ensures var r := PurgeLedger(f, mode, now);
            && (r.Failure? <==> Ahead(LedgerOf(f, mode), now))
            && (r.Success? ==>
                  && r.value.records == f.records && Cut(LedgerOf(f, mode), LedgerOf(r.value, mode), now)
                  && forall other: Mode :: other != mode ==> LedgerOf(r.value, other) == LedgerOf(f, other))
  {
  }
}
