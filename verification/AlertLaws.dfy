/**
 Delivery order does not matter: permuting a delivery changes nothing but job ids, and over any
 history of deliveries an episode's status and end depend only on the set of alerts delivered.
 */
module AlertLaws {
  import opened Wrappers
  import opened JobQueue
  import opened JobQueueLaws
  import opened Alerts
  import T = AlertTime

  // ---------------------------------------------------------------- the inbox without job ids

  datatype Shape = Shape(identity: Labels, target: Target, name: string, starts: string, ends: Option<string>,
                         status: Status, hasJob: bool, received: real, updated: real)

  /** An inbox with job ids erased: jobs by episode key, and how many of them wait. */
  datatype Erased = Erased(rows: map<EpisodeKey, Shape>, jobs: map<EpisodeKey, Job>, purged: set<EpisodeKey>,
                           known: set<EpisodeKey>, waiting: nat, counts: Counts)

  ghost function ShapeOf(row: Row): Shape {
    Shape(row.identity, row.target, row.name, row.starts, row.ends, row.status, row.job.Some?, row.received,
          row.updated)
  }

  ghost function Shapes(alerts: map<EpisodeKey, Row>): (r: map<EpisodeKey, Shape>)
    ensures r.Keys == alerts.Keys && |r| == |alerts|
  {
    var r := map k | k in alerts :: ShapeOf(alerts[k]);
    assert r.Keys == alerts.Keys;
    assert |r| == |r.Keys| && |alerts| == |alerts.Keys|;
    r
  }

  ghost function JobsByKey(t: Tables): map<EpisodeKey, Job> {
    map k | k in t.episodes && t.episodes[k] in t.jobs :: t.jobs[t.episodes[k]]
  }

  ghost function PurgedKeys(t: Tables): set<EpisodeKey> {
    set k | k in t.episodes && t.episodes[k] in t.purges
  }

  ghost function Erase(b: Inbox): Erased {
    Erased(Shapes(b.alerts), JobsByKey(b.queue), PurgedKeys(b.queue), b.queue.episodes.Keys,
           |WaitingJobs(b.queue.jobs)|, b.counts)
  }

  ghost function NewJob(item: Item, now: real): Job
    requires item.Item?
  {
    Job(item.key, AlertPrint(item.payload), item.payload, Queued, 0, 0, None, now, now, now, None, None, None)
  }

  ghost function NewShape(item: Item, hasJob: bool, now: real): Shape
    requires item.Item?
  {
    Shape(item.identity, item.target, item.name, item.starts, item.ends, item.status, hasJob, now, now)
  }

  /** AcceptItem, read on the erased inbox. */
  ghost function ErasedStep(e: Erased, item: Item, now: real): Option<Erased>
    requires item.Ends() ==> item.ends.Some?
  {
    if item.Rejected? then Some(e.(counts := e.counts.(rejected := e.counts.rejected + 1)))
    else if item.status.Resolved? then EndStep(e, item, now)
    else FireStep(e, item, now)
  }

  ghost predicate Conflicts(e: Erased, item: Item)
    requires item.Item?
  {
    item.key in e.rows && (e.rows[item.key].identity != item.identity || e.rows[item.key].target != item.target)
  }

  ghost predicate NoRoom(e: Erased, item: Item)
    requires item.Item?
  {
    item.key !in e.rows && |e.rows| >= MAX_ALERT_EPISODES
  }

  ghost function EndedShape(e: Erased, item: Item, now: real): Shape
    requires item.Ends() && item.ends.Some?
  {
    if item.key in e.rows
    then e.rows[item.key].(status := Resolved, updated := now,
                           ends := Some(Later(e.rows[item.key].ends, item.ends.value)))
    else NewShape(item, false, now)
  }

  ghost function EndStep(e: Erased, item: Item, now: real): Option<Erased>
    requires item.Ends() && item.ends.Some?
  {
    if Conflicts(e, item) || NoRoom(e, item) then None
    else Some(e.(rows := e.rows[item.key := EndedShape(e, item, now)],
                 counts := e.counts.(resolved := e.counts.resolved + 1)))
  }

  /** A firing alert for a new episode needs a job it may have. */
  ghost predicate NoJob(e: Erased, item: Item)
    requires item.Item?
  {
    || item.key in e.purged
    || (item.key in e.jobs && e.jobs[item.key].fingerprint != AlertPrint(item.payload))
    || (item.key !in e.jobs && (e.waiting >= MAX_WAITING || item.key in e.known))
  }

  ghost function FireStep(e: Erased, item: Item, now: real): Option<Erased>
    requires item.Fires()
  {
    var c := e.counts;
    if Conflicts(e, item) || NoRoom(e, item) then None
    else if item.key in e.rows then
      Some(e.(counts := if e.rows[item.key].status.Resolved? then c.(suppressed := c.suppressed + 1)
                        else c.(duplicate := c.duplicate + 1)))
    else if NoJob(e, item) then None
    else Some(StartEpisode(e, item, now))
  }

  ghost function StartEpisode(e: Erased, item: Item, now: real): Erased
    requires item.Fires()
  {
    var u := e.(rows := e.rows[item.key := NewShape(item, true, now)],
                counts := e.counts.(accepted := e.counts.accepted + 1));
    if item.key in e.jobs then u
    else u.(jobs := e.jobs[item.key := NewJob(item, now)], known := e.known + {item.key}, waiting := e.waiting + 1)
  }

  ghost predicate Fresh(t: Tables, uuid: JobId) { uuid !in t.jobs && uuid !in t.episodes.Values }

  /** What submitting does, said on the erased inbox. */
  ghost predicate SubmitAgrees(b: Inbox, item: Item, now: real, uuid: JobId)
    requires KeysUnique(b.queue.jobs) && item.Fires()
  {
    var e := Erase(b);
    match Submit(b.queue, item.key, AlertPrint(item.payload), item.payload, now, uuid)
    case Failure(_) => NoJob(e, item)
    case Success((u, j, duplicate)) =>
      && !NoJob(e, item) && (duplicate <==> item.key in e.jobs)
      && if duplicate then u == b.queue
         else item.key !in b.queue.episodes && j == uuid &&
              u == b.queue.(episodes := b.queue.episodes[item.key := uuid],
                            jobs := b.queue.jobs[uuid := NewJob(item, now)])
  }

  lemma SubmitErased(b: Inbox, item: Item, now: real, uuid: JobId)
    requires Inv(b.queue) && KeysUnique(b.queue.jobs) && Fresh(b.queue, uuid) && item.Fires()
    ensures SubmitAgrees(b, item, now, uuid)
  {
    JobIsByKey(b.queue, item.key);
    if item.key in JobsByKey(b.queue) { SubmitKnown(b, item, now, uuid); } else { SubmitNew(b, item, now, uuid); }
  }

  /** The job of a key is the one its episode names. */
  lemma JobIsByKey(t: Tables, key: EpisodeKey)
    requires Inv(t) && KeysUnique(t.jobs)
    ensures JobWithKey(t.jobs, key).Some? <==> key in JobsByKey(t)
    ensures key in JobsByKey(t) ==> JobWithKey(t.jobs, key).value == t.episodes[key]
  {
    var row := JobWithKey(t.jobs, key);
    if row.Some? { assert JobRow(t, row.value); }
  }

  lemma SubmitKnown(b: Inbox, item: Item, now: real, uuid: JobId)
    requires KeysUnique(b.queue.jobs) && item.Fires() && item.key in JobsByKey(b.queue)
    requires JobWithKey(b.queue.jobs, item.key) == Some(b.queue.episodes[item.key])
    ensures SubmitAgrees(b, item, now, uuid)
  {
    assert item.key in PurgedKeys(b.queue) <==> b.queue.episodes[item.key] in b.queue.purges;
  }

  lemma SubmitNew(b: Inbox, item: Item, now: real, uuid: JobId)
    requires KeysUnique(b.queue.jobs) && Fresh(b.queue, uuid) && item.Fires() && item.key !in JobsByKey(b.queue)
    requires JobWithKey(b.queue.jobs, item.key).None?
    ensures SubmitAgrees(b, item, now, uuid)
  {
    assert item.key in PurgedKeys(b.queue) <==>
             item.key in b.queue.episodes && b.queue.episodes[item.key] in b.queue.purges;
  }

  lemma InsertErased(t: Tables, key: EpisodeKey, uuid: JobId, job: Job)
    requires Episodes(t) && key !in t.episodes && Fresh(t, uuid) && job.state.Queued?
    ensures var u := t.(episodes := t.episodes[key := uuid], jobs := t.jobs[uuid := job]);
      && JobsByKey(u) == JobsByKey(t)[key := job]
      && PurgedKeys(u) == PurgedKeys(t)
      && u.episodes.Keys == t.episodes.Keys + {key}
      && |WaitingJobs(u.jobs)| == |WaitingJobs(t.jobs)| + 1
  {
    var u := t.(episodes := t.episodes[key := uuid], jobs := t.jobs[uuid := job]);
    assert WaitingJobs(u.jobs) == WaitingJobs(t.jobs) + {uuid};
    InsertedJobs(t, key, uuid, job);
    InsertedPurges(t, key, uuid, job);
  }

  lemma InsertedJobs(t: Tables, key: EpisodeKey, uuid: JobId, job: Job)
    requires key !in t.episodes && Fresh(t, uuid)
    ensures var u := t.(episodes := t.episodes[key := uuid], jobs := t.jobs[uuid := job]);
      JobsByKey(u) == JobsByKey(t)[key := job]
  {
    forall k | k in t.episodes ensures t.episodes[k] != uuid {
      assert t.episodes[k] in t.episodes.Values;
    }
  }

  lemma InsertedPurges(t: Tables, key: EpisodeKey, uuid: JobId, job: Job)
    requires Episodes(t) && key !in t.episodes && Fresh(t, uuid)
    ensures var u := t.(episodes := t.episodes[key := uuid], jobs := t.jobs[uuid := job]);
      PurgedKeys(u) == PurgedKeys(t)
  {
    assert uuid !in t.purges;
  }

  lemma ShapesUpdate(alerts: map<EpisodeKey, Row>, key: EpisodeKey, row: Row)
    ensures Shapes(alerts[key := row]) == Shapes(alerts)[key := ShapeOf(row)]
  {}

  lemma StartedWithNewJob(b: Inbox, item: Item, now: real, uuid: JobId)
    requires Episodes(b.queue) && Fresh(b.queue, uuid) && item.Fires() && item.key !in b.queue.episodes
    ensures var queue := b.queue.(episodes := b.queue.episodes[item.key := uuid],
                                  jobs := b.queue.jobs[uuid := NewJob(item, now)]);
      Erase(Inbox(queue, b.alerts[item.key := RowOf(item, Some(uuid), now)],
                  b.counts.(accepted := b.counts.accepted + 1)))
      == StartEpisode(Erase(b), item, now)
  {
    ShapesUpdate(b.alerts, item.key, RowOf(item, Some(uuid), now));
    InsertErased(b.queue, item.key, uuid, NewJob(item, now));
  }

  lemma StartedWithOldJob(b: Inbox, item: Item, now: real, job: JobId)
    requires item.Fires() && item.key in Erase(b).jobs
    ensures Erase(Inbox(b.queue, b.alerts[item.key := RowOf(item, Some(job), now)],
                        b.counts.(accepted := b.counts.accepted + 1)))
      == StartEpisode(Erase(b), item, now)
  {
    ShapesUpdate(b.alerts, item.key, RowOf(item, Some(job), now));
  }

  lemma StartJobErased(b: Inbox, item: Item, now: real, uuid: JobId)
    requires Episodes(b.queue) && KeysUnique(b.queue.jobs) && Fresh(b.queue, uuid) && item.Fires()
    requires SubmitAgrees(b, item, now, uuid)
    ensures var r := StartJob(b, item, now, uuid);
      if NoJob(Erase(b), item) then r.Failure? else r.Success? && Erase(r.value) == StartEpisode(Erase(b), item, now)
  {
    var submitted := Submit(b.queue, item.key, AlertPrint(item.payload), item.payload, now, uuid);
    if submitted.Success? {
      if submitted.value.2 {
        StartedWithOldJob(b, item, now, submitted.value.1);
      } else {
        StartedWithNewJob(b, item, now, uuid);
      }
    }
  }

  /** Erasing commutes with accepting one item. */
  lemma AcceptItemErased(b: Inbox, item: Item, now: real, uuid: JobId)
    requires Inv(b.queue) && KeysUnique(b.queue.jobs) && Fresh(b.queue, uuid) && (item.Ends() ==> item.ends.Some?)
    ensures var r := AcceptItem(b, item, now, uuid);
      ErasedStep(Erase(b), item, now) == if r.Success? then Some(Erase(r.value)) else None
  {
    if item.Fires() {
      SubmitErased(b, item, now, uuid);
      StartJobErased(b, item, now, uuid);
    }
    AcceptItemBranches(b, item, now, uuid);
  }

  lemma AcceptItemBranches(b: Inbox, item: Item, now: real, uuid: JobId)
    requires KeysUnique(b.queue.jobs) && (item.Ends() ==> item.ends.Some?)
    requires item.Fires() ==>
      var r := StartJob(b, item, now, uuid);
      if NoJob(Erase(b), item) then r.Failure? else r.Success? && Erase(r.value) == StartEpisode(Erase(b), item, now)
    ensures var r := AcceptItem(b, item, now, uuid);
      ErasedStep(Erase(b), item, now) == if r.Success? then Some(Erase(r.value)) else None
  {
    if item.Fires() {
      AcceptFiring(b, item, now, uuid);
    } else if item.Ends() {
      AcceptEnding(b, item, now, uuid);
    }
  }

  lemma AcceptEnding(b: Inbox, item: Item, now: real, uuid: JobId)
    requires KeysUnique(b.queue.jobs) && item.Ends() && item.ends.Some?
    ensures var r := AcceptItem(b, item, now, uuid);
      ErasedStep(Erase(b), item, now) == if r.Success? then Some(Erase(r.value)) else None
  {
    ShapesUpdate(b.alerts, item.key, EndedRow(b.alerts, item, now));
  }

  lemma AcceptFiring(b: Inbox, item: Item, now: real, uuid: JobId)
    requires KeysUnique(b.queue.jobs) && item.Fires()
    requires var r := StartJob(b, item, now, uuid);
      if NoJob(Erase(b), item) then r.Failure? else r.Success? && Erase(r.value) == StartEpisode(Erase(b), item, now)
    ensures var r := AcceptItem(b, item, now, uuid);
      ErasedStep(Erase(b), item, now) == if r.Success? then Some(Erase(r.value)) else None
  {
    ErasedRows(b, item);
    if item.key !in b.alerts && |b.alerts| < MAX_ALERT_EPISODES {
      assert AcceptItem(b, item, now, uuid) == StartJob(b, item, now, uuid);
    } else {
      AcceptNoJob(b, item, now, uuid);
    }
  }

  /** What a firing alert looks up is the same before and after erasing. */
  lemma ErasedRows(b: Inbox, item: Item)
    requires item.Item?
    ensures item.key in Erase(b).rows <==> item.key in b.alerts
    ensures |Erase(b).rows| == |b.alerts|
    ensures Conflicts(Erase(b), item) <==>
      item.key in b.alerts && (b.alerts[item.key].identity != item.identity || b.alerts[item.key].target != item.target)
  {
    assert Erase(b).rows.Keys == b.alerts.Keys;
  }

  lemma AcceptNoJob(b: Inbox, item: Item, now: real, uuid: JobId)
    requires KeysUnique(b.queue.jobs) && item.Fires() && (item.key in b.alerts || |b.alerts| >= MAX_ALERT_EPISODES)
    ensures var r := AcceptItem(b, item, now, uuid);
      ErasedStep(Erase(b), item, now) == if r.Success? then Some(Erase(r.value)) else None
  {
    ErasedRows(b, item);
    if item.key in b.alerts && !Conflicts(Erase(b), item) { AcceptAgain(b, item, now, uuid); }
  }

  /** An alert that fires again is counted, and nothing else. */
  lemma AcceptAgain(b: Inbox, item: Item, now: real, uuid: JobId)
    requires KeysUnique(b.queue.jobs) && item.Fires() && item.key in b.alerts && item.key in Erase(b).rows
    requires b.alerts[item.key].identity == item.identity && b.alerts[item.key].target == item.target
    ensures var r := AcceptItem(b, item, now, uuid);
      r.Success? && ErasedStep(Erase(b), item, now) == Some(Erase(r.value))
  {
    AgainIsCounted(b, item, now, uuid);
    AgainErased(Erase(b), item, now);
    assert Erase(b).rows[item.key].status == b.alerts[item.key].status;
  }

  function Again(c: Counts, status: Status): Counts {
    if status.Resolved? then c.(suppressed := c.suppressed + 1) else c.(duplicate := c.duplicate + 1)
  }

  lemma AgainIsCounted(b: Inbox, item: Item, now: real, uuid: JobId)
    requires KeysUnique(b.queue.jobs) && item.Fires() && item.key in b.alerts
    requires b.alerts[item.key].identity == item.identity && b.alerts[item.key].target == item.target
    ensures AcceptItem(b, item, now, uuid) == Success(b.(counts := Again(b.counts, b.alerts[item.key].status)))
  {
  }

  lemma AgainErased(e: Erased, item: Item, now: real)
    requires item.Fires() && item.key in e.rows && !Conflicts(e, item)
    ensures ErasedStep(e, item, now) == Some(e.(counts := Again(e.counts, e.rows[item.key].status)))
  {
  }

  // ---------------------------------------------------------------- items of one kind commute

  ghost function ErasedTwo(e: Erased, x: Item, y: Item, now: real): Option<Erased>
    requires (x.Ends() ==> x.ends.Some?) && (y.Ends() ==> y.ends.Some?)
  {
    match ErasedStep(e, x, now)
    case None => None
    case Some(u) => ErasedStep(u, y, now)
  }

  lemma LaterCommutes(known: Option<string>, a: string, b: string)
    requires a != "" && b != ""
    ensures Later(Some(Later(known, a)), b) == Later(Some(Later(known, b)), a)
  {
    T.LessIsTotal(a, b);
    if known.Some? {
      var k := known.value;
      T.LessIsTotal(k, a);
      T.LessIsTotal(k, b);
      if T.Less(a, k) && T.Less(k, b) { T.LessIsTransitive(a, k, b); }
      if T.Less(b, k) && T.Less(k, a) { T.LessIsTransitive(b, k, a); }
    }
  }

  lemma UpdatesCommute<K, V>(m: map<K, V>, i: K, x: V, j: K, y: V)
    requires i != j
    ensures m[i := x][j := y] == m[j := y][i := x]
  {}

  lemma EndingOthersCommute(e: Erased, x: Item, y: Item, now: real)
    requires x.Ends() && y.Ends() && x.ends.Some? && y.ends.Some? && x.key != y.key
    ensures ErasedTwo(e, x, y, now) == ErasedTwo(e, y, x, now)
  {
    UpdatesCommute(e.rows, x.key, EndedShape(e, x, now), y.key, EndedShape(e, y, now));
  }

  lemma EndingSameRow(s: Settings, e: Erased, x: Item, y: Item, now: real)
    requires FromLabels(s, x) && FromLabels(s, y) && x.Ends() && y.Ends() && x.key == y.key
    ensures ErasedTwo(e, x, y, now).Some? <==> ErasedTwo(e, y, x, now).Some?
    ensures ErasedTwo(e, x, y, now).Some? ==>
      ErasedTwo(e, x, y, now).value.rows[x.key] == ErasedTwo(e, y, x, now).value.rows[x.key]
  {
    LaterCommutes(if x.key in e.rows then e.rows[x.key].ends else None, x.ends.value, y.ends.value);
    LaterOfTwo(x.ends.value, y.ends.value);
  }

  lemma EndingTwiceRows(e: Erased, x: Item, y: Item, now: real)
    requires x.Ends() && y.Ends() && x.ends.Some? && y.ends.Some? && x.key == y.key && ErasedTwo(e, x, y, now).Some?
    ensures var a := ErasedTwo(e, x, y, now).value;
      x.key in a.rows && a == e.(rows := e.rows[x.key := a.rows[x.key]],
                                 counts := e.counts.(resolved := e.counts.resolved + 2))
  {}

  lemma EndingSameCommute(s: Settings, e: Erased, x: Item, y: Item, now: real)
    requires FromLabels(s, x) && FromLabels(s, y) && x.Ends() && y.Ends() && x.key == y.key
    ensures ErasedTwo(e, x, y, now) == ErasedTwo(e, y, x, now)
  {
    EndingSameRow(s, e, x, y, now);
    if ErasedTwo(e, x, y, now).Some? {
      EndingTwiceRows(e, x, y, now);
      EndingTwiceRows(e, y, x, now);
    }
  }

  lemma EndingCommute(s: Settings, e: Erased, x: Item, y: Item, now: real)
    requires FromLabels(s, x) && FromLabels(s, y) && x.Ends() && y.Ends()
    ensures ErasedTwo(e, x, y, now) == ErasedTwo(e, y, x, now)
  {
    if x.key == y.key { EndingSameCommute(s, e, x, y, now); } else { EndingOthersCommute(e, x, y, now); }
  }

  lemma LaterOfTwo(a: string, b: string)
    requires a != "" && b != ""
    ensures Later(Some(a), b) == Later(Some(b), a)
  {
    T.LessIsTotal(a, b);
  }

  lemma FiringOthersCommute(e: Erased, x: Item, y: Item, now: real)
    requires x.Fires() && y.Fires() && x.key != y.key
    ensures ErasedTwo(e, x, y, now) == ErasedTwo(e, y, x, now)
  {
    if x.key in e.rows { KnownFiringCommutes(e, x, y, now); }
    else if y.key in e.rows { KnownFiringCommutes(e, y, x, now); }
    else { NewFiringsCommute(e, x, y, now); }
  }

  lemma KnownFiringCommutes(e: Erased, x: Item, y: Item, now: real)
    requires x.Fires() && y.Fires() && x.key != y.key && x.key in e.rows
    ensures ErasedTwo(e, x, y, now) == ErasedTwo(e, y, x, now)
  {}

  /** Two alerts that each start an episode need room and a job for both. */
  lemma NewFiringTwo(e: Erased, x: Item, y: Item, now: real)
    requires x.Fires() && y.Fires() && x.key != y.key && x.key !in e.rows && y.key !in e.rows
    ensures ErasedTwo(e, x, y, now) ==
      if |e.rows| + 1 >= MAX_ALERT_EPISODES || NoJob(e, x) || NoJob(StartEpisode(e, x, now), y) then None
      else Some(StartEpisode(StartEpisode(e, x, now), y, now))
  {
    assert |StartEpisode(e, x, now).rows| == |e.rows| + 1;
  }

  lemma NoJobStays(e: Erased, x: Item, y: Item, now: real)
    requires x.Fires() && y.Fires() && x.key != y.key && NoJob(e, y)
    ensures NoJob(StartEpisode(e, x, now), y)
  {}

  lemma NewFiringsCommute(e: Erased, x: Item, y: Item, now: real)
    requires x.Fires() && y.Fires() && x.key != y.key && x.key !in e.rows && y.key !in e.rows
    ensures ErasedTwo(e, x, y, now) == ErasedTwo(e, y, x, now)
  {
    NewFiringTwo(e, x, y, now);
    NewFiringTwo(e, y, x, now);
    if NoJob(e, y) {
      NoJobStays(e, x, y, now);
    } else if NoJob(e, x) {
      NoJobStays(e, y, x, now);
    } else {
      NoJobAfter(e, x, y, now);
      NoJobAfter(e, y, x, now);
      StartsCommute(e, x, y, now);
    }
  }

  lemma NoJobAfter(e: Erased, x: Item, y: Item, now: real)
    requires x.Fires() && y.Fires() && x.key != y.key && !NoJob(e, x) && !NoJob(e, y)
    ensures NoJob(StartEpisode(e, x, now), y) <==> x.key !in e.jobs && y.key !in e.jobs && e.waiting + 1 >= MAX_WAITING
  {}

  lemma StartsCommute(e: Erased, x: Item, y: Item, now: real)
    requires x.Fires() && y.Fires() && x.key != y.key
    ensures StartEpisode(StartEpisode(e, x, now), y, now) == StartEpisode(StartEpisode(e, y, now), x, now)
  {
    UpdatesCommute(e.rows, x.key, NewShape(x, true, now), y.key, NewShape(y, true, now));
    UpdatesCommute(e.jobs, x.key, NewJob(x, now), y.key, NewJob(y, now));
    assert e.known + {x.key} + {y.key} == e.known + {y.key} + {x.key};
  }

  lemma FiringSameCommute(s: Settings, e: Erased, x: Item, y: Item, now: real)
    requires FromLabels(s, x) && FromLabels(s, y) && x.Fires() && y.Fires() && x.key == y.key
    ensures ErasedTwo(e, x, y, now) == ErasedTwo(e, y, x, now)
  {
    if x.identity == y.identity {
      assert NewShape(x, true, now) == NewShape(y, true, now);
    }
  }

  lemma RestCommute(s: Settings, e: Erased, x: Item, y: Item, now: real)
    requires FromLabels(s, x) && FromLabels(s, y) && !x.Ends() && !y.Ends()
    ensures ErasedTwo(e, x, y, now) == ErasedTwo(e, y, x, now)
  {
    if x.Rejected? { RejectedCommutes(e, y, now); }
    else if y.Rejected? { RejectedCommutes(e, x, now); }
    else if x.key == y.key { FiringSameCommute(s, e, x, y, now); }
    else { FiringOthersCommute(e, x, y, now); }
  }

  lemma RejectedCommutes(e: Erased, y: Item, now: real)
    requires !y.Ends()
    ensures ErasedTwo(e, Rejected, y, now) == ErasedTwo(e, y, Rejected, now)
  {}

  // ---------------------------------------------------------------- permuting a delivery

  ghost function ErasedAll(e: Option<Erased>, items: seq<Item>, now: real): Option<Erased>
    requires forall x :: x in items && x.Ends() ==> x.ends.Some?
    decreases |items|
  {
    if e.None? || items == [] then e else ErasedAll(ErasedStep(e.value, items[0], now), items[1..], now)
  }

  /** The list is one side of the sort: all resolved alerts, or none. */
  ghost predicate OneKind(s: Settings, items: seq<Item>, ending: bool) {
    forall x :: x in items ==> FromLabels(s, x) && (x.Ends() <==> ending)
  }

  lemma NeighboursCommute(s: Settings, e: Option<Erased>, x: Item, y: Item, rest: seq<Item>, ending: bool, now: real)
    requires OneKind(s, [x, y] + rest, ending)
    ensures ErasedAll(e, [x, y] + rest, now) == ErasedAll(e, [y, x] + rest, now)
  {
    if e.Some? {
      assert x in [x, y] + rest && y in [x, y] + rest;
      if ending { EndingCommute(s, e.value, x, y, now); } else { RestCommute(s, e.value, x, y, now); }
      TwoThenRest(e.value, x, y, rest, now);
      TwoThenRest(e.value, y, x, rest, now);
    }
  }

  lemma TwoThenRest(e: Erased, x: Item, y: Item, rest: seq<Item>, now: real)
    requires forall z :: z in [x, y] + rest && z.Ends() ==> z.ends.Some?
    ensures (x.Ends() ==> x.ends.Some?) && (y.Ends() ==> y.ends.Some?)
    ensures forall z :: z in rest && z.Ends() ==> z.ends.Some?
    ensures ErasedAll(Some(e), [x, y] + rest, now) == ErasedAll(ErasedTwo(e, x, y, now), rest, now)
  {
    var all := [x, y] + rest;
    assert all[0] == x && all[1] == y && all[1..][0] == y && all[1..][1..] == rest;
    assert forall z :: z in rest ==> z in all;
  }

  lemma {:induction false} MoveToFront(s: Settings, e: Option<Erased>, p: seq<Item>, x: Item, q: seq<Item>,
                                       ending: bool, now: real)
    requires OneKind(s, p + [x] + q, ending)
    ensures OneKind(s, [x] + p + q, ending)
    ensures ErasedAll(e, p + [x] + q, now) == ErasedAll(e, [x] + p + q, now)
    decreases |p|
  {
    if p == [] {
      assert p + [x] + q == [x] + p + q;
    } else {
      var y, tail := p[0], p[1..];
      assert p + [x] + q == [y] + (tail + [x] + q);
      assert [x] + p + q == [x, y] + (tail + q);
      assert [y] + ([x] + tail + q) == [y, x] + (tail + q);
      if e.Some? {
        MoveToFront(s, ErasedStep(e.value, y, now), tail, x, q, ending, now);
        FirstThenRest(e, y, tail + [x] + q, now);
        FirstThenRest(e, y, [x] + tail + q, now);
      }
      NeighboursCommute(s, e, x, y, tail + q, ending, now);
    }
  }

  lemma FirstThenRest(e: Option<Erased>, x: Item, rest: seq<Item>, now: real)
    requires e.Some? && forall z :: z in [x] + rest && z.Ends() ==> z.ends.Some?
    ensures (x.Ends() ==> x.ends.Some?) && forall z :: z in rest && z.Ends() ==> z.ends.Some?
    ensures ErasedAll(e, [x] + rest, now) == ErasedAll(ErasedStep(e.value, x, now), rest, now)
  {
    assert ([x] + rest)[0] == x && ([x] + rest)[1..] == rest;
    assert forall z :: z in rest ==> z in [x] + rest;
  }

  lemma SplitAtFirst<X>(a: seq<X>, b: seq<X>) returns (p: seq<X>, q: seq<X>)
    requires a != [] && multiset(a) == multiset(b)
    ensures b == p + [a[0]] + q && multiset(a[1..]) == multiset(p + q)
  {
    assert a[0] in multiset(b);
    p, q := SplitAt(b, a[0]);
    Removing(p, a[0], q);
    RemovingFirst(a);
  }

  lemma SplitAt<X>(b: seq<X>, x: X) returns (p: seq<X>, q: seq<X>)
    requires x in b
    ensures b == p + [x] + q
  {
    var i :| 0 <= i < |b| && b[i] == x;
    p, q := b[..i], b[i + 1..];
  }

  lemma RemovingFirst<X>(a: seq<X>)
    requires a != []
    ensures multiset(a[1..]) == multiset(a) - multiset{a[0]}
  {
    assert a == [a[0]] + a[1..];
  }

  lemma Removing<X>(p: seq<X>, x: X, q: seq<X>)
    ensures multiset(p + q) == multiset(p + [x] + q) - multiset{x}
  {
    assert multiset(p + [x] + q) == multiset(p) + multiset{x} + multiset(q);
    assert multiset(p + q) == multiset(p) + multiset(q);
  }

  lemma {:induction false} PermutedKind(s: Settings, e: Option<Erased>, a: seq<Item>, b: seq<Item>, ending: bool,
                                        now: real)
    requires OneKind(s, a, ending) && OneKind(s, b, ending) && multiset(a) == multiset(b)
    ensures ErasedAll(e, a, now) == ErasedAll(e, b, now)
    decreases |a|
  {
    if a == [] {
      assert |multiset(b)| == 0;
    } else if e.Some? {
      var x := a[0];
      var p, q := SplitAtFirst(a, b);
      MoveToFront(s, e, p, x, q, ending, now);
      assert [x] + p + q == [x] + (p + q) && a == [x] + a[1..];
      assert OneKind(s, p + q, ending) by { assert forall z :: z in p + q ==> z in [x] + p + q; }
      FirstThenRest(e, x, a[1..], now);
      FirstThenRest(e, x, p + q, now);
      PermutedKind(s, ErasedStep(e.value, x, now), a[1..], p + q, ending, now);
    }
  }

  // The sort keeps each kind's multiset.

  lemma {:induction false} SortKeepsAll(items: seq<Item>)
    ensures multiset(OnlyEnding(items)) + multiset(WithoutEnding(items)) == multiset(items)
  {
    if items != [] {
      var rest := items[1..];
      SortKeepsAll(rest);
      assert items == [items[0]] + rest;
      if items[0].Ends() {
        assert OnlyEnding(items) == [items[0]] + OnlyEnding(rest) && WithoutEnding(items) == WithoutEnding(rest);
      } else {
        assert OnlyEnding(items) == OnlyEnding(rest) && WithoutEnding(items) == [items[0]] + WithoutEnding(rest);
      }
    }
  }

  lemma SortCounts(items: seq<Item>)
    ensures multiset(OnlyEnding(items)) + multiset(WithoutEnding(items)) == multiset(items)
    ensures forall x :: x in multiset(OnlyEnding(items)) ==> x.Ends()
    ensures forall x :: x in multiset(WithoutEnding(items)) ==> !x.Ends()
  {
    SortKeepsAll(items);
  }

  lemma SortedPermutation(a: seq<Item>, b: seq<Item>)
    requires multiset(a) == multiset(b)
    ensures multiset(OnlyEnding(a)) == multiset(OnlyEnding(b))
    ensures multiset(WithoutEnding(a)) == multiset(WithoutEnding(b))
  {
    SortCounts(a);
    SortCounts(b);
    EqualParts(multiset(OnlyEnding(a)), multiset(WithoutEnding(a)), multiset(OnlyEnding(b)),
               multiset(WithoutEnding(b)));
  }

  lemma EqualParts(a: multiset<Item>, b: multiset<Item>, c: multiset<Item>, d: multiset<Item>)
    requires a + b == c + d
    requires forall x :: x in a || x in c ==> x.Ends()
    requires forall x :: x in b || x in d ==> !x.Ends()
    ensures a == c && b == d
  {
    forall x ensures a[x] == c[x] && b[x] == d[x] {
      assert (a + b)[x] == (c + d)[x];
    }
  }

  lemma {:induction false} ErasedAppend(e: Option<Erased>, a: seq<Item>, b: seq<Item>, now: real)
    requires forall x :: x in a + b && x.Ends() ==> x.ends.Some?
    ensures ErasedAll(e, a + b, now) == ErasedAll(ErasedAll(e, a, now), b, now)
    decreases |a|
  {
    if a == [] {
      assert a + b == b;
    } else if e.Some? {
      assert a + b == [a[0]] + (a[1..] + b);
      FirstThenRest(e, a[0], a[1..] + b, now);
      ErasedAppend(ErasedStep(e.value, a[0], now), a[1..], b, now);
    }
  }

  ghost predicate AllFresh(t: Tables, uuids: seq<JobId>) {
    && (forall i :: 0 <= i < |uuids| ==> Fresh(t, uuids[i]))
    && (forall i, j :: 0 <= i < j < |uuids| ==> uuids[i] != uuids[j])
  }

  lemma FreshIdsRemain(b: Inbox, item: Item, now: real, uuids: seq<JobId>)
    requires KeysUnique(b.queue.jobs) && uuids != [] && AllFresh(b.queue, uuids) && (item.Ends() ==> item.ends.Some?)
    ensures var r := AcceptItem(b, item, now, uuids[0]); r.Success? ==> AllFresh(r.value.queue, uuids[1..])
  {}

  lemma {:induction false} AcceptAllErased(s: Settings, b: Inbox, items: seq<Item>, now: real, uuids: seq<JobId>)
    requires Inv(b.queue) && AllFromLabels(s, items) && |uuids| == |items| && AllFresh(b.queue, uuids)
    ensures forall x :: x in items && x.Ends() ==> x.ends.Some?
    ensures var r := AcceptAll(s, b, items, now, uuids);
      ErasedAll(Some(Erase(b)), items, now) == if r.Success? then Some(Erase(r.value)) else None
    decreases |items|
  {
    forall x | x in items ensures FromLabels(s, x) {}
    if items != [] {
      InvHasUniqueKeys(b.queue);
      assert FromLabels(s, items[0]);
      AcceptItemErased(b, items[0], now, uuids[0]);
      AcceptItemKeepsInv(b, items[0], now, uuids[0]);
      FreshIdsRemain(b, items[0], now, uuids);
      var r := AcceptItem(b, items[0], now, uuids[0]);
      if r.Success? {
        AcceptAllErased(s, r.value, items[1..], now, uuids[1..]);
      }
    }
  }

  lemma SortedItems(s: Settings, items: seq<Item>)
    requires AllFromLabels(s, items)
    ensures |ResolvedFirst(items)| == |items| && AllFromLabels(s, ResolvedFirst(items))
  {
    SortCounts(items);
    assert |multiset(OnlyEnding(items))| + |multiset(WithoutEnding(items))| == |multiset(items)|;
  }

  /**
   The same alerts in another order, with other fresh job ids: the delivery is accepted or refused alike,
   and when accepted leaves the same episodes, jobs and counts up to the ids.
   */
  lemma PermutedDelivery(s: Settings, b: Inbox, a: seq<Item>, c: seq<Item>, now: real,
                         uuids: seq<JobId>, others: seq<JobId>)
    requires Inv(b.queue) && AllFromLabels(s, a) && AllFromLabels(s, c) && multiset(a) == multiset(c)
    requires |uuids| == |ResolvedFirst(a)| && |others| == |ResolvedFirst(c)|
    requires AllFresh(b.queue, uuids) && AllFresh(b.queue, others)
    requires AllFromLabels(s, ResolvedFirst(a)) && AllFromLabels(s, ResolvedFirst(c))
    ensures var r, q := AcceptAll(s, b, ResolvedFirst(a), now, uuids), AcceptAll(s, b, ResolvedFirst(c), now, others);
      (r.Success? <==> q.Success?) && (r.Success? ==> Erase(r.value) == Erase(q.value))
  {
    SortedPermutation(a, c);
    AcceptAllErased(s, b, ResolvedFirst(a), now, uuids);
    AcceptAllErased(s, b, ResolvedFirst(c), now, others);
    var e := Some(Erase(b));
    ErasedAppend(e, OnlyEnding(a), WithoutEnding(a), now);
    ErasedAppend(e, OnlyEnding(c), WithoutEnding(c), now);
    PermutedKind(s, e, OnlyEnding(a), OnlyEnding(c), true, now);
    PermutedKind(s, ErasedAll(e, OnlyEnding(a), now), WithoutEnding(a), WithoutEnding(c), false, now);
  }

  // The same for the alerts as they arrive.

  /** Preparing a delivery fails when some alert is malformed, wherever it stands. */
  lemma {:induction false} PrepareSplits(s: Settings, p: seq<RawAlert>, x: RawAlert, q: seq<RawAlert>, now: real)
    ensures var r := PrepareAll(s, p + [x] + q, now);
      && (r.Success? <==> Prepare(s, x, now).Success? && PrepareAll(s, p + q, now).Success?)
      && (r.Success? ==>
            multiset(r.value) == multiset{Prepare(s, x, now).value} + multiset(PrepareAll(s, p + q, now).value))
    decreases |p|
  {
    if p == [] {
      FirstPrepared(s, x, q, now);
      assert p + [x] + q == [x] + q && ([x] + q)[1..] == q && p + q == q;
    } else {
      assert p + [x] + q == [p[0]] + (p[1..] + [x] + q) && p + q == [p[0]] + (p[1..] + q);
      PrepareSplits(s, p[1..], x, q, now);
      FirstPrepared(s, p[0], p[1..] + [x] + q, now);
      FirstPrepared(s, p[0], p[1..] + q, now);
    }
  }

  lemma FirstPrepared(s: Settings, x: RawAlert, rest: seq<RawAlert>, now: real)
    ensures var r := PrepareAll(s, [x] + rest, now);
      && (r.Success? <==> Prepare(s, x, now).Success? && PrepareAll(s, rest, now).Success?)
      && (r.Success? ==>
            multiset(r.value) == multiset{Prepare(s, x, now).value} + multiset(PrepareAll(s, rest, now).value))
  {
    assert ([x] + rest)[1..] == rest;
  }

  lemma {:induction false} PreparesOrMalformed(s: Settings, raws: seq<RawAlert>, now: real)
    ensures PrepareAll(s, raws, now).Failure? ==> PrepareAll(s, raws, now) == Failure(Malformed)
  {
    if raws != [] { PreparesOrMalformed(s, raws[1..], now); }
  }

  lemma {:induction false} PermutedRaws(s: Settings, a: seq<RawAlert>, c: seq<RawAlert>, now: real)
    requires multiset(a) == multiset(c)
    ensures match (PrepareAll(s, a, now), PrepareAll(s, c, now))
      case (Success(x), Success(y)) => multiset(x) == multiset(y)
      case (Failure(x), Failure(y)) => x == y == Malformed
      case _ => false
    decreases |a|
  {
    PreparesOrMalformed(s, a, now);
    PreparesOrMalformed(s, c, now);
    if a == [] {
      assert |multiset(c)| == 0;
    } else {
      var p, q := SplitAtFirst(a, c);
      PrepareSplits(s, p, a[0], q, now);
      PermutedRaws(s, a[1..], p + q, now);
      assert a == [a[0]] + a[1..];
      FirstPrepared(s, a[0], a[1..], now);
    }
  }

  /** What a delivery of raw alerts leaves: prepared, sorted, applied. */
  ghost function Delivered(s: Settings, b: Inbox, raws: seq<RawAlert>, now: real,
                           uuids: seq<JobId>): Result<Inbox, AlertError>
    requires Inv(b.queue) && |uuids| == |raws|
  {
    var r := PrepareAll(s, raws, now);
    if r.Failure? then Failure(r.error)
    else
      SortedItems(s, r.value);
      AcceptAll(s, b, ResolvedFirst(r.value), now, uuids)
  }

  /**
   The same raw alerts in another order, with other fresh job ids: malformed alerts refuse both deliveries
   alike; otherwise both are accepted, and leave the same but for the ids, or both are refused.
   */
  lemma PermutedRawDelivery(s: Settings, b: Inbox, a: seq<RawAlert>, c: seq<RawAlert>, now: real,
                            uuids: seq<JobId>, others: seq<JobId>)
    requires Inv(b.queue) && multiset(a) == multiset(c) && |uuids| == |a| && |others| == |c|
    requires AllFresh(b.queue, uuids) && AllFresh(b.queue, others)
    ensures var r, q := Delivered(s, b, a, now, uuids), Delivered(s, b, c, now, others);
      && (r.Success? <==> q.Success?) && (r.Success? ==> Erase(r.value) == Erase(q.value))
      && (PrepareAll(s, a, now).Failure? ==> r == q == Failure(Malformed))
  {
    PermutedRaws(s, a, c, now);
    if PrepareAll(s, a, now).Success? {
      var x, y := PrepareAll(s, a, now).value, PrepareAll(s, c, now).value;
      SortedItems(s, x);
      SortedItems(s, y);
      PermutedDelivery(s, b, x, y, now, uuids, others);
    }
  }

  // ---------------------------------------------------------------- counts

  lemma {:induction false} CountsSum(s: Settings, b: Inbox, items: seq<Item>, now: real, uuids: seq<JobId>)
    requires Inv(b.queue) && AllFromLabels(s, items) && |uuids| == |items|
    ensures var r := AcceptAll(s, b, items, now, uuids); r.Success? ==> r.value.counts.Sum() == b.counts.Sum() + |items|
    decreases |items|
  {
    if items != [] {
      InvHasUniqueKeys(b.queue);
      assert FromLabels(s, items[0]);
      AcceptItemKeepsInv(b, items[0], now, uuids[0]);
      var r := AcceptItem(b, items[0], now, uuids[0]);
      if r.Success? {
        assert r.value.counts.Sum() == b.counts.Sum() + 1;
        CountsSum(s, r.value, items[1..], now, uuids[1..]);
      }
    }
  }

  // ---------------------------------------------------------------- what a history of deliveries leaves

  /** The ledger says of every episode exactly what the set of delivered alerts says. */
  ghost predicate Explains(alerts: map<EpisodeKey, Row>, delivered: set<Item>) {
    && (forall x :: x in delivered && x.Item? ==> x.key in alerts)
    && (forall k {:trigger RowExplained(alerts, delivered, k)} :: k in alerts ==> RowExplained(alerts, delivered, k))
  }

  ghost predicate RowExplained(alerts: map<EpisodeKey, Row>, delivered: set<Item>, k: EpisodeKey)
    requires k in alerts
  {
    && (exists x :: x in delivered && x.Item? && x.key == k)
    && (alerts[k].status.Resolved? <==> exists x :: x in delivered && x.Ends() && x.key == k)
    && (alerts[k].ends.Some? <==> alerts[k].status.Resolved?)
    && (alerts[k].ends.Some? ==> IsLatestEnd(alerts[k].ends.value, delivered, k))
  }

  ghost predicate IsLatestEnd(end: string, delivered: set<Item>, k: EpisodeKey) {
    && end != ""
    && (exists x :: x in delivered && x.Ends() && x.key == k && x.ends == Some(end))
    && (forall x :: x in delivered && x.Ends() && x.key == k && x.ends.Some? ==> !T.Less(end, x.ends.value))
  }

  lemma LaterIsLatest(known: Option<string>, item: Item, delivered: set<Item>)
    requires item.Ends() && item.ends.Some? && item.ends.value != ""
    requires if known.Some? then IsLatestEnd(known.value, delivered, item.key)
             else forall x :: x in delivered && x.Item? && x.key == item.key ==> !x.Ends()
    ensures IsLatestEnd(Later(known, item.ends.value), delivered + {item}, item.key)
  {
    var now, all := Later(known, item.ends.value), delivered + {item};
    if known.Some? {
      T.LessIsTotal(known.value, item.ends.value);
      forall x | x in all && x.Ends() && x.key == item.key && x.ends.Some? ensures !T.Less(now, x.ends.value) {
        T.LessIsTotal(now, x.ends.value);
        if x in delivered && T.Less(now, x.ends.value) && T.Less(known.value, now) {
          T.LessIsTransitive(known.value, now, x.ends.value);
        }
      }
    } else {
      T.LessIsTotal(now, now);
    }
    assert item in all || known.Some?;
  }

  lemma AcceptItemExplains(s: Settings, b: Inbox, item: Item, now: real, uuid: JobId, delivered: set<Item>)
    requires KeysUnique(b.queue.jobs) && FromLabels(s, item) && Explains(b.alerts, delivered)
    ensures var r := AcceptItem(b, item, now, uuid); r.Success? ==> Explains(r.value.alerts, delivered + {item})
  {
    var r := AcceptItem(b, item, now, uuid);
    var all := delivered + {item};
    if r.Success? && item.Item? {
      var u := r.value.alerts;
      forall k | k in u ensures RowExplained(u, all, k) {
        if k != item.key {
          OtherEpisode(b.alerts, u, delivered, item, k);
        } else if item.Ends() {
          EndedEpisode(b.alerts, u, delivered, item, now);
        } else {
          FiredEpisode(b.alerts, u, delivered, item);
        }
      }
    } else if r.Success? {
      forall k | k in b.alerts ensures RowExplained(b.alerts, all, k) {
        OtherEpisode(b.alerts, b.alerts, delivered, item, k);
      }
    }
  }

  lemma OtherEpisode(alerts: map<EpisodeKey, Row>, u: map<EpisodeKey, Row>, delivered: set<Item>, item: Item,
                     k: EpisodeKey)
    requires k in alerts && k in u && u[k] == alerts[k] && RowExplained(alerts, delivered, k)
    requires item.Item? ==> item.key != k
    ensures RowExplained(u, delivered + {item}, k)
  {
    var all := delivered + {item};
    var x :| x in delivered && x.Item? && x.key == k;
    assert x in all;
    assert forall y :: y in all && y.Item? && y.key == k <==> y in delivered && y.Item? && y.key == k;
  }

  lemma EndedEpisode(alerts: map<EpisodeKey, Row>, u: map<EpisodeKey, Row>, delivered: set<Item>, item: Item, now: real)
    requires item.Ends() && item.ends.Some? && item.ends.value != "" && Explains(alerts, delivered)
    requires item.key in u && u[item.key] == EndedRow(alerts, item, now)
    ensures RowExplained(u, delivered + {item}, item.key)
  {
    var known := if item.key in alerts then alerts[item.key].ends else None;
    if item.key in alerts { assert RowExplained(alerts, delivered, item.key); }
    LaterIsLatest(known, item, delivered);
    assert item in delivered + {item};
    assert u[item.key].ends == Some(Later(known, item.ends.value));
  }

  lemma FiredEpisode(alerts: map<EpisodeKey, Row>, u: map<EpisodeKey, Row>, delivered: set<Item>, item: Item)
    requires item.Fires() && item.ends.None? && Explains(alerts, delivered)
    requires item.key in u
    requires if item.key in alerts then u[item.key] == alerts[item.key]
             else u[item.key].status.Firing? && u[item.key].ends.None?
    ensures RowExplained(u, delivered + {item}, item.key)
  {
    var k, all := item.key, delivered + {item};
    assert item in all;
    assert forall y :: y in all && y.Ends() && y.key == k <==> y in delivered && y.Ends() && y.key == k;
    if k in alerts { assert RowExplained(alerts, delivered, k); }
  }

  lemma {:induction false} AcceptAllExplains(s: Settings, b: Inbox, items: seq<Item>, now: real, uuids: seq<JobId>,
                                             delivered: set<Item>)
    requires Inv(b.queue) && AllFromLabels(s, items) && |uuids| == |items| && Explains(b.alerts, delivered)
    ensures var r := AcceptAll(s, b, items, now, uuids);
      r.Success? ==> Explains(r.value.alerts, delivered + set x | x in items)
    decreases |items|
  {
    if items == [] {
      assert delivered + (set x | x in items) == delivered;
    } else {
      InvHasUniqueKeys(b.queue);
      assert FromLabels(s, items[0]);
      AcceptItemKeepsInv(b, items[0], now, uuids[0]);
      AcceptItemExplains(s, b, items[0], now, uuids[0], delivered);
      var r := AcceptItem(b, items[0], now, uuids[0]);
      if r.Success? {
        AcceptAllExplains(s, r.value, items[1..], now, uuids[1..], delivered + {items[0]});
        assert delivered + {items[0]} + (set x | x in items[1..]) == delivered + set x | x in items;
      }
    }
  }

  // ---------------------------------------------------------------- histories

  /** Deliveries, interleaved with the queue operations of workers and operators. */
  datatype Event =
    | Deliver(items: seq<Item>, now: real, uuids: seq<JobId>)
    | Other(op: Op)

  datatype World = World(queue: Tables, alerts: map<EpisodeKey, Row>, delivered: set<Item>)

  ghost predicate WellFormed(s: Settings, event: Event) {
    event.Deliver? ==> AllFromLabels(s, ResolvedFirst(event.items)) && |event.uuids| == |ResolvedFirst(event.items)|
  }

  /** Every row that started a job still names the one job of its episode key. */
  ghost predicate Linked(queue: Tables, alerts: map<EpisodeKey, Row>) {
    forall k :: k in alerts && alerts[k].job.Some? ==> k in queue.episodes && queue.episodes[k] == alerts[k].job.value
  }

  ghost predicate WorldInv(w: World) {
    Inv(w.queue) && Explains(w.alerts, w.delivered) && Linked(w.queue, w.alerts)
  }

  /** A refused delivery is rolled back and does not count as delivered. */
  ghost function Happen(s: Settings, w: World, event: Event): World
    requires WorldInv(w) && WellFormed(s, event)
  {
    match event
    case Other(op) => w.(queue := Step(w.queue, op))
    case Deliver(items, now, uuids) =>
      match AcceptAll(s, Inbox(w.queue, w.alerts, NONE), ResolvedFirst(items), now, uuids)
      case Failure(_) => w
      case Success(b) => World(b.queue, b.alerts, w.delivered + set x | x in ResolvedFirst(items))
  }

  ghost predicate KeepsJobs(alerts: map<EpisodeKey, Row>, u: map<EpisodeKey, Row>) {
    forall k :: k in alerts ==> k in u && u[k].job == alerts[k].job
  }

  lemma SubmitNames(t: Tables, key: EpisodeKey, fingerprint: Fingerprint, payload: Payload, now: real, uuid: JobId)
    requires Inv(t) && KeysUnique(t.jobs)
    ensures var r := Submit(t, key, fingerprint, payload, now, uuid);
      r.Success? ==>
        && key in r.value.0.episodes && r.value.0.episodes[key] == r.value.1
        && forall k :: k in t.episodes ==> k in r.value.0.episodes && r.value.0.episodes[k] == t.episodes[k]
  {
    SubmitAddsNoKnownJob(t, key, fingerprint, payload, now, uuid);
    var row := JobWithKey(t.jobs, key);
    if row.Some? { assert JobRow(t, row.value); }
  }

  lemma AcceptItemLinks(b: Inbox, item: Item, now: real, uuid: JobId)
    requires Inv(b.queue) && KeysUnique(b.queue.jobs) && Linked(b.queue, b.alerts) && (item.Ends() ==> item.ends.Some?)
    ensures var r := AcceptItem(b, item, now, uuid);
      r.Success? ==> Linked(r.value.queue, r.value.alerts) && KeepsJobs(b.alerts, r.value.alerts)
  {
    var r := AcceptItem(b, item, now, uuid);
    if item.Fires() && r.Success? && item.key !in b.alerts {
      SubmitNames(b.queue, item.key, AlertPrint(item.payload), item.payload, now, uuid);
      StartedLinks(b, r.value, item.key);
    }
  }

  lemma StartedLinks(b: Inbox, u: Inbox, key: EpisodeKey)
    requires Linked(b.queue, b.alerts) && key in u.alerts && key in u.queue.episodes
    requires u.alerts[key].job == Some(u.queue.episodes[key])
    requires u.alerts == b.alerts[key := u.alerts[key]]
    requires forall k :: k in b.queue.episodes ==> k in u.queue.episodes && u.queue.episodes[k] == b.queue.episodes[k]
    ensures Linked(u.queue, u.alerts)
  {}

  lemma {:induction false} AcceptAllLinks(s: Settings, b: Inbox, items: seq<Item>, now: real, uuids: seq<JobId>)
    requires Inv(b.queue) && AllFromLabels(s, items) && |uuids| == |items| && Linked(b.queue, b.alerts)
    ensures var r := AcceptAll(s, b, items, now, uuids);
      r.Success? ==> Linked(r.value.queue, r.value.alerts) && KeepsJobs(b.alerts, r.value.alerts)
    decreases |items|
  {
    if items != [] {
      InvHasUniqueKeys(b.queue);
      assert FromLabels(s, items[0]);
      AcceptItemKeepsInv(b, items[0], now, uuids[0]);
      AcceptItemLinks(b, items[0], now, uuids[0]);
      var r := AcceptItem(b, items[0], now, uuids[0]);
      if r.Success? { AcceptAllLinks(s, r.value, items[1..], now, uuids[1..]); }
    }
  }

  lemma HappenKeepsInv(s: Settings, w: World, event: Event)
    requires WorldInv(w) && WellFormed(s, event)
    ensures WorldInv(Happen(s, w, event))
  {
    match event
    case Other(op) =>
      StepKeepsInv(w.queue, op);
      forall k | k in w.alerts && w.alerts[k].job.Some?
        ensures k in Step(w.queue, op).episodes && Step(w.queue, op).episodes[k] == w.alerts[k].job.value
      {
        StepKeepsKey(w.queue, op, k);
      }
    case Deliver(items, now, uuids) =>
      AcceptAllExplains(s, Inbox(w.queue, w.alerts, NONE), ResolvedFirst(items), now, uuids, w.delivered);
      AcceptAllLinks(s, Inbox(w.queue, w.alerts, NONE), ResolvedFirst(items), now, uuids);
  }

  ghost function History(s: Settings, w: World, events: seq<Event>): (u: World)
    requires WorldInv(w) && forall e :: e in events ==> WellFormed(s, e)
    ensures WorldInv(u)
    decreases |events|
  {
    if events == [] then w
    else HappenKeepsInv(s, w, events[0]); History(s, Happen(s, w, events[0]), events[1..])
  }

  const START := World(EMPTY, map[], {})

  lemma StartInv()
    ensures WorldInv(START)
  {
    EmptyInv();
  }

  lemma LatestIsUnique(a: string, b: string, delivered: set<Item>, k: EpisodeKey)
    requires IsLatestEnd(a, delivered, k) && IsLatestEnd(b, delivered, k)
    ensures a == b
  {
    T.LessIsTotal(a, b);
  }

  /**
   Two histories that delivered the same alerts, in whatever order, batches and repetitions and with whatever
   queue activity in between, agree on which episodes exist, which are resolved and when they ended.
   */
  lemma OrderBatchingAndRepetitionDoNotMatter(s: Settings, a: seq<Event>, b: seq<Event>)
    requires WorldInv(START)
    requires (forall e :: e in a ==> WellFormed(s, e)) && (forall e :: e in b ==> WellFormed(s, e))
    requires History(s, START, a).delivered == History(s, START, b).delivered
    ensures var u, v := History(s, START, a).alerts, History(s, START, b).alerts;
      && u.Keys == v.Keys
      && forall k :: k in u ==> u[k].status == v[k].status && u[k].ends == v[k].ends
  {
    var w, x := History(s, START, a), History(s, START, b);
    var u, v := w.alerts, x.alerts;
    forall k | k in u || k in v ensures k in u && k in v && u[k].status == v[k].status && u[k].ends == v[k].ends {
      if k in u { assert RowExplained(u, w.delivered, k); }
      if k in v { assert RowExplained(v, x.delivered, k); }
      if u[k].ends.Some? { LatestIsUnique(u[k].ends.value, v[k].ends.value, w.delivered, k); }
    }
  }

  // ---------------------------------------------------------------- resolved first

  /** A new episode that a delivery both fires and resolves starts no job, wherever the alerts stand in it. */
  lemma ResolvedInDeliveryStartsNoJob(s: Settings, b: Inbox, items: seq<Item>, x: Item, now: real, uuids: seq<JobId>)
    requires Inv(b.queue) && Linked(b.queue, b.alerts)
    requires AllFromLabels(s, ResolvedFirst(items)) && |uuids| == |ResolvedFirst(items)|
    requires x in items && x.Ends() && x.key !in b.alerts
    ensures var r := AcceptAll(s, b, ResolvedFirst(items), now, uuids);
      r.Success? ==> x.key in r.value.alerts && r.value.alerts[x.key].job.None?
  {
    SortCounts(items);
    assert x in multiset(items);
    assert x in multiset(OnlyEnding(items));
    EndingPrefixStartsNoJob(s, b, OnlyEnding(items), WithoutEnding(items), x, now, uuids);
  }

  lemma {:induction false} EndingPrefixStartsNoJob(s: Settings, b: Inbox, ending: seq<Item>, rest: seq<Item>, x: Item,
                                                  now: real, uuids: seq<JobId>)
    requires Inv(b.queue) && Linked(b.queue, b.alerts)
    requires AllFromLabels(s, ending + rest) && |uuids| == |ending + rest|
    requires (forall z :: z in ending ==> z.Ends()) && x in ending && x.Ends() && x.key !in b.alerts
    ensures var r := AcceptAll(s, b, ending + rest, now, uuids);
      r.Success? ==> x.key in r.value.alerts && r.value.alerts[x.key].job.None?
    decreases |ending|
  {
    var all := ending + rest;
    InvHasUniqueKeys(b.queue);
    assert FromLabels(s, all[0]);
    AcceptItemKeepsInv(b, all[0], now, uuids[0]);
    AcceptItemLinks(b, all[0], now, uuids[0]);
    var r := AcceptItem(b, all[0], now, uuids[0]);
    if r.Success? {
      assert all[1..] == ending[1..] + rest;
      if all[0].key == x.key {
        AcceptAllLinks(s, r.value, all[1..], now, uuids[1..]);
      } else {
        EndingPrefixStartsNoJob(s, r.value, ending[1..], rest, x, now, uuids[1..]);
      }
    }
  }
}