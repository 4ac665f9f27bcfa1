/**
 What the checker of a frozen snapshot accepts, whoever wrote it: exactly the snapshots of these settings in which
 evidence and audit say the same of every item, and every payload is its own normal form.
 */
module SnapshotChecking {
  import opened Wrappers
  import opened Evidence
  import opened Captured
  import opened Snapshot
  import opened SnapshotLaws
  import opened SnapshotKeeping

  /** The snapshot is of these settings, and its times follow each other. */
  predicate HeaderFits(s: Settings, b: Bundle, a: Audit) {
    && (b.target, a.configHash, a.catalogHash) == (s.target, s.configHash, s.catalogHash)
    && b.window.start == a.started - s.lookback && b.window.start < a.started && a.started <= a.completed
    && b.created == a.completed
  }

  /** As many entries as items, no two for the same one. */
  predicate OneEntryEach(f: Frozen) {
    && |f.audit.entries| == |f.bundle.evidence|
    && forall i, j :: 0 <= i < |f.audit.entries| && 0 <= j < |f.audit.entries| && i != j ==>
         f.audit.entries[i].id != f.audit.entries[j].id
  }

  /** The item lies in the snapshot. */
  predicate InPlace(item: Item, b: Bundle) {
    && item.target == b.target && item.window == b.window && item.collected <= b.created
    && (item.observed.Some? ==> b.window.start <= item.observed.value && item.observed.value <= b.window.end)
  }

  /** A time text reads as this UTC instant with this offset. */
  predicate ReadsAs(c: Codec, raw: string, at: int, offset: string) {
    c.parse(raw) == Some(Stamp(at, offset)) && InRange(at)
  }

  /** The entry is of the item, with a time of its kind that reads, and a registered dimension. */
  ghost predicate EntryFits(env: Env, s: Settings, item: Item, e: Entry, a: Audit) {
    && (e.id, e.status, e.collected) == (item.id, item.status, item.collected)
    && e.timeField in TimesOf(item.kind) && (e.dimension.None? || e.dimension.value in s.dimensions)
    && env.safe(item.ref) && item.origin == "captured-snapshot-v1:" + a.configHash
    && (if e.raw.None? then e.offset.None?
        else |e.raw.value| <= 64 && e.offset.Some? && exists at :: ReadsAs(env.codec, e.raw.value, at, e.offset.value))
  }

  /**
   The times stored in the payload: as they were written, reading as the times of the item, and those of the
   entry.
   */
  ghost predicate TimesStored(c: Codec, stored: Json, item: Item, e: Entry) {
    && item.observed.Some? && e.raw.Some? && e.offset.Some?
    && ReadsAs(c, e.raw.value, item.observed.value, e.offset.value)
    && exists raw, offset {:trigger ReadsAs(c, raw, item.collected, offset)} ::
         && ReadsAs(c, raw, item.collected, offset)
         && stored == Object(map["observed_raw" := Text(e.raw.value), "observed_offset" := Text(e.offset.value),
                                 "collected_raw" := Text(raw), "collected_offset" := Text(offset),
                                 "time_field" := Text(FieldName(e.timeField))])
  }

  /** A metric was evaluated at the start, in every sample. */
  predicate AtStart(c: Codec, p: Payload, item: Item, started: int) {
    && item.observed == Some(started) && "samples" in p && p["samples"].List?
    && forall i :: 0 <= i < |p["samples"].items| ==> SampleAt(c, p["samples"].items[i], started)
  }

  predicate SampleAt(c: Codec, x: Json, started: int) {
    && x.Object? && "at" in x.fields && x.fields["at"].Text? && c.parse(x.fields["at"].s).Some?
    && c.parse(x.fields["at"].s).value.at == started && InRange(started)
  }

  /** Put back as it was read and normalised again in the window of the snapshot, it is the same. */
  ghost predicate IsNormal(env: Env, kind: Kind, p: Payload, w: Window)
    requires "source_time" in p
  {
    exists raw, n ::
      && RawOf(kind, p) == Some(raw) && env.normal(kind, raw, w) == Success(n)
      && n["source_time" := p["source_time"]] == p
  }

  /** Everything about an item and its entry fits. */
  ghost predicate Fits(env: Env, s: Settings, item: Item, e: Entry, f: Frozen) {
    && InPlace(item, f.bundle) && EntryFits(env, s, item, e, f.audit)
    && (if item.status != Available then item.missing == Some(e.reason)
        else && e.reason == "collected" && item.payload.Some? && "source_time" in item.payload.value
             && TimesStored(env.codec, item.payload.value["source_time"], item, e)
             && IsNormal(env, item.kind, item.payload.value, f.bundle.window)
             && (item.kind == Metric ==> AtStart(env.codec, item.payload.value, item, f.audit.started)))
  }

  lemma {:induction false} EntryForFinds(entries: seq<Entry>, id: nat, j: nat)
    requires j < |entries| && entries[j].id == id
    requires forall i :: 0 <= i < |entries| && i != j ==> entries[i].id != id
    ensures EntryFor(entries, id) == Some(entries[j])
    decreases |entries|
  {
    var n := |entries| - 1;
    if j < n { EntryForFinds(entries[..n], id, j); }
  }

  lemma {:induction false} EntryForIsThere(entries: seq<Entry>, id: nat)
    requires EntryFor(entries, id).Some?
    ensures exists j :: 0 <= j < |entries| && entries[j].id == id && EntryFor(entries, id) == Some(entries[j])
    decreases |entries|
  {
    var n := |entries| - 1;
    if entries[n].id != id {
      EntryForIsThere(entries[..n], id);
      var j :| 0 <= j < n && entries[..n][j].id == id && EntryFor(entries[..n], id) == Some(entries[..n][j]);
      assert entries[j] == entries[..n][j];
    }
  }

  lemma ReadExactly(c: Codec, raw: string, at: int, offset: string)
    ensures Read(c, raw) == Some(Stamp(at, offset)) <==> ReadsAs(c, raw, at, offset)
  {
  }

  lemma EntryFitsExactly(env: Env, s: Settings, item: Item, e: Entry, a: Audit)
    requires e.id == item.id
    ensures EntryFits(env, s, item, e, a) <==> EntryOk(env, s, item, e, a)
  {
    assert Dates(item.kind, e.timeField) <==> e.timeField in TimesOf(item.kind);
    if e.raw.Some? && Read(env.codec, e.raw.value).Some? {
      var t := Read(env.codec, e.raw.value).value;
      ReadExactly(env.codec, e.raw.value, t.at, t.offset);
    }
  }

  lemma TimesStoredExactly(c: Codec, stored: Json, item: Item, e: Entry)
    ensures TimesStored(c, stored, item, e) <==> SourceTimeOk(c, stored, item, e)
  {
    if SourceTimeOk(c, stored, item, e) { StoredTimesRead(c, stored, item, e); }
  }

  lemma StoredTimesRead(c: Codec, stored: Json, item: Item, e: Entry)
    requires SourceTimeOk(c, stored, item, e)
    ensures TimesStored(c, stored, item, e)
  {
    var o, k := Read(c, stored.fields["observed_raw"].s).value, Read(c, stored.fields["collected_raw"].s).value;
    ReadExactly(c, stored.fields["observed_raw"].s, o.at, o.offset);
    ReadExactly(c, stored.fields["collected_raw"].s, k.at, k.offset);
    assert ReadsAs(c, stored.fields["collected_raw"].s, item.collected, k.offset);
    assert stored.fields == map["observed_raw" := Text(e.raw.value), "observed_offset" := Text(e.offset.value),
                                "collected_raw" := Text(stored.fields["collected_raw"].s),
                                "collected_offset" := Text(k.offset), "time_field" := Text(FieldName(e.timeField))];
  }

  lemma PayloadFitsExactly(env: Env, item: Item, p: Payload, w: Window, started: int)
    ensures PayloadOk(env, item, p, w, started) <==>
              && "source_time" in p && IsNormal(env, item.kind, p, w)
              && (item.kind == Metric ==> AtStart(env.codec, p, item, started))
  {
    if "source_time" in p && RawOf(item.kind, p).Some? {
      var n := env.normal(item.kind, RawOf(item.kind, p).value, w);
      if Renormalized(n, p) { assert RawOf(item.kind, p) == Some(RawOf(item.kind, p).value) && n == Success(n.value); }
    }
  }

  lemma ItemFitsExactly(env: Env, s: Settings, item: Item, e: Entry, f: Frozen)
    requires EntryFor(f.audit.entries, item.id) == Some(e) && e.id == item.id
    ensures ItemOk(env, s, item, f.audit, f.bundle) <==> Fits(env, s, item, e, f)
  {
    EntryFitsExactly(env, s, item, e, f.audit);
    if item.status == Available && item.payload.Some? && "source_time" in item.payload.value {
      TimesStoredExactly(env.codec, item.payload.value["source_time"], item, e);
      PayloadFitsExactly(env, item, item.payload.value, f.bundle.window, f.audit.started);
    }
  }

  ghost predicate HasItsEntry(env: Env, s: Settings, item: Item, f: Frozen) {
    exists j :: 0 <= j < |f.audit.entries| && f.audit.entries[j].id == item.id
      && Fits(env, s, item, f.audit.entries[j], f)
  }

  lemma ItemCheckedExactly(env: Env, s: Settings, item: Item, f: Frozen)
    requires OneEntryEach(f)
    ensures ItemOk(env, s, item, f.audit, f.bundle) <==> HasItsEntry(env, s, item, f)
  {
    var entries := f.audit.entries;
    if EntryFor(entries, item.id).Some? {
      EntryForIsThere(entries, item.id);
      var j :| 0 <= j < |entries| && entries[j].id == item.id && EntryFor(entries, item.id) == Some(entries[j]);
      ItemFitsExactly(env, s, item, entries[j], f);
    }
    if j :| 0 <= j < |entries| && entries[j].id == item.id && Fits(env, s, item, entries[j], f) {
      EntryForFinds(entries, item.id, j);
      ItemFitsExactly(env, s, item, entries[j], f);
    }
  }

  /** Complete exactly if all is available in time, unavailable exactly if nothing is. */
  predicate StatusFits(f: Frozen) {
    && (f.audit.status == Unavailable <==> NoneAvailable(f.bundle.evidence))
    && (f.audit.status == Complete <==>
          !NoneAvailable(f.bundle.evidence) && AllAvailable(f.bundle.evidence) && !f.audit.late)
  }

  lemma StatusExactly(f: Frozen)
    ensures f.audit.status == StatusOf(f.bundle.evidence, f.audit.late) <==> StatusFits(f)
  {
    CountTells(f.bundle.evidence);
  }

  lemma HeaderExactly(s: Settings, f: Frozen)
    ensures HeaderOk(s, f.bundle, f.audit) <==> HeaderFits(s, f.bundle, f.audit) && OneEntryEach(f)
  {
  }

  /** Whoever wrote it: a snapshot is accepted exactly if header, status and every item with its entry fit. */
  lemma CheckedExactly(env: Env, s: Settings, f: Frozen)
    ensures Validate(env, s, f) <==>
              && HeaderFits(s, f.bundle, f.audit) && OneEntryEach(f) && StatusFits(f)
              && forall i {:trigger f.bundle.evidence[i]} :: 0 <= i < |f.bundle.evidence| ==>
                   HasItsEntry(env, s, f.bundle.evidence[i], f)
  {
    HeaderExactly(s, f);
    StatusExactly(f);
    if OneEntryEach(f) {
      forall i {:trigger f.bundle.evidence[i]} | 0 <= i < |f.bundle.evidence|
        ensures ItemOk(env, s, f.bundle.evidence[i], f.audit, f.bundle)
                <==> HasItsEntry(env, s, f.bundle.evidence[i], f) {
        ItemCheckedExactly(env, s, f.bundle.evidence[i], f);
      }
    }
  }
}
