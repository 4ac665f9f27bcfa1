/** The inbox as the program has it: one object beside the queue, one transaction over both. */
module AlertInbox {
  import opened Wrappers
  import opened Q = JobQueue
  import opened Laws = JobQueueLaws
  import opened A = Alerts
  import opened AlertLaws
  import Store = JobQueueStore

  class AlertInbox {
    const queue: Store.JobQueue
    const settings: Settings
    var alertEpisodes: map<EpisodeKey, Row>

    ghost predicate Valid()
      reads this, queue
    {
      queue.Valid() && Linked(queue.View(), alertEpisodes)
    }

    constructor (queue: Store.JobQueue, settings: Settings)
      requires queue.Valid()
      ensures Valid() && this.queue == queue && this.settings == settings && alertEpisodes == map[]
    {
      this.queue, this.settings, this.alertEpisodes := queue, settings, map[];
    }

    /** Validates every alert before the transaction; one malformed alert refuses the delivery. */
    method Prepare(raws: seq<RawAlert>, now: real) returns (r: Result<seq<Item>, AlertError>)
      ensures r == PrepareAll(settings, raws, now)
    {
      var prepared: seq<Item> := [];
      assert raws[0..] == raws;
      AfterNone(PrepareAll(settings, raws, now));
      for i := 0 to |raws|
        invariant PrepareAll(settings, raws, now) == After(prepared, PrepareAll(settings, raws[i..], now))
      {
        assert raws[i..][0] == raws[i] && raws[i..][1..] == raws[i + 1..];
        var item := A.Prepare(settings, raws[i], now);
        if item.Failure? {
          return Failure(item.error);
        }
        AfterMore(prepared, item.value, PrepareAll(settings, raws[i + 1..], now));
        prepared := prepared + [item.value];
      }
      assert prepared + [] == prepared;
      r := Success(prepared);
    }

    /** The body of the transaction: the loop over the sorted items, on a private copy of the tables. */
    method Transact(b: Inbox, items: seq<Item>, now: real, uuids: seq<JobId>) returns (r: Result<Inbox, AlertError>)
      requires Inv(b.queue) && AllFromLabels(settings, items) && |uuids| == |items|
      ensures r == AcceptAll(settings, b, items, now, uuids)
    {
      var staged := b;
      for i := 0 to |items|
        invariant Inv(staged.queue) && AllFromLabels(settings, items[i..])
        invariant AcceptAll(settings, b, items, now, uuids) == AcceptAll(settings, staged, items[i..], now, uuids[i..])
      {
        InvHasUniqueKeys(staged.queue);
        assert items[i] in items[i..] && FromLabels(settings, items[i]);
        assert items[i..][0] == items[i] && items[i..][1..] == items[i + 1..];
        assert uuids[i..][0] == uuids[i] && uuids[i..][1..] == uuids[i + 1..];
        AcceptItemKeepsInv(staged, items[i], now, uuids[i]);
        var next := AcceptItem(staged, items[i], now, uuids[i]);
        if next.Failure? {
          return Failure(next.error);
        }
        staged := next.value;
      }
      r := Success(staged);
    }

    /** Everything up to the commit, on a private copy of the tables. */
    method Stage(b: Inbox, raws: seq<RawAlert>, now: real, uuids: seq<JobId>) returns (r: Result<Inbox, AlertError>)
      requires Inv(b.queue) && |uuids| == |raws|
      ensures r == if 1 <= |raws| <= MAX_ALERTS then Delivered(settings, b, raws, now, uuids) else Failure(Malformed)
    {
      if !(1 <= |raws| <= MAX_ALERTS) {
        return Failure(Malformed);
      }
      var prepared := Prepare(raws, now);
      if prepared.Failure? {
        return Failure(prepared.error);
      }
      SortedItems(settings, prepared.value);
      r := Transact(b, ResolvedFirst(prepared.value), now, uuids);
    }

    /**
     All or nothing: on success the queue and the ledger hold what the delivery leaves and the counts add up
     to the number of alerts; on failure neither has changed.
     */
    method Accept(raws: seq<RawAlert>, now: real, uuids: seq<JobId>) returns (r: Result<Counts, AlertError>)
      requires Valid() && |uuids| == |raws|
      modifies this, queue
      ensures Valid() && Inv(old(queue.View()))
      ensures var d := Delivered(settings, Inbox(old(queue.View()), old(alertEpisodes), NONE), raws, now, uuids);
        match r
        case Success(counts) =>
          && 1 <= |raws| <= MAX_ALERTS && d == Success(Inbox(queue.View(), alertEpisodes, counts))
             && counts.Sum() == |raws|
        case Failure(e) =>
          && queue.View() == old(queue.View()) && alertEpisodes == old(alertEpisodes)
          && if 1 <= |raws| <= MAX_ALERTS then d == Failure(e) else e == Malformed
    {
      var start := Copy();
      var done := Stage(start, raws, now, uuids);
      if done.Failure? {
        return Failure(done.error);
      }
      DeliveredAddsUp(settings, start, raws, now, uuids);
      Commit(done.value);
      r := Success(done.value.counts);
    }

    /** The tables as the transaction finds them. */
    method Copy() returns (b: Inbox)
      requires Valid()
      ensures b == Inbox(queue.View(), alertEpisodes, NONE) && Inv(b.queue) && Linked(b.queue, b.alerts)
    {
      b := Inbox(Tables(queue.episodes, queue.jobs, queue.attempts, queue.purges), alertEpisodes, NONE);
    }

    /** Both tables at once. */
    method Commit(b: Inbox)
      requires Inv(b.queue) && Linked(b.queue, b.alerts)
      modifies this, queue
      ensures Valid() && queue.View() == b.queue && alertEpisodes == b.alerts
    {
      alertEpisodes := b.alerts;
      queue.Commit(b.queue);
    }
  }

  lemma DeliveredAddsUp(s: Settings, b: Inbox, raws: seq<RawAlert>, now: real, uuids: seq<JobId>)
    requires Inv(b.queue) && Linked(b.queue, b.alerts) && |uuids| == |raws|
             && Delivered(s, b, raws, now, uuids).Success?
    ensures var u := Delivered(s, b, raws, now, uuids).value;
            Inv(u.queue) && Linked(u.queue, u.alerts) && u.counts.Sum() == b.counts.Sum() + |raws|
  {
    var items := ResolvedFirst(PrepareAll(s, raws, now).value);
    SortedItems(s, PrepareAll(s, raws, now).value);
    AcceptAllLinks(s, b, items, now, uuids);
    CountsSum(s, b, items, now, uuids);
  }

  /** The prepared items so far, followed by the outcome for the rest. */
  ghost function After(prepared: seq<Item>, rest: Result<seq<Item>, AlertError>): Result<seq<Item>, AlertError> {
    match rest
    case Failure(e) => Failure(e)
    case Success(items) => Success(prepared + items)
  }

  lemma AfterNone(rest: Result<seq<Item>, AlertError>)
    ensures After([], rest) == rest
  {
    if rest.Success? { assert [] + rest.value == rest.value; }
  }

  lemma AfterMore(prepared: seq<Item>, item: Item, rest: Result<seq<Item>, AlertError>)
    ensures After(prepared, After([item], rest)) == After(prepared + [item], rest)
  {
    if rest.Success? {
      assert prepared + ([item] + rest.value) == prepared + [item] + rest.value;
    }
  }
}
