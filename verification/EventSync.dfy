/** Folding backup events into the event table: `sync_backup_events_for_source` in
    app/db_reports.py. Times are given in seconds; a table row's key is the VM's
    database id and the start time. */
module EventSync {
  import opened Wrappers

  datatype Event = Event(vmid: int, startedAt: int, finishedAt: Option<int>, duration: Option<int>, size: Option<int>,
                         encrypted: Option<bool>, verifyState: Option<string>, status: string, upid: string,
                         guestName: Option<string>, origin: Option<string>)

  datatype Key = Key(vmId: int, startedAt: int)

  datatype Row = Row(finishedAt: Option<int>, duration: Option<int>, size: Option<int>, encrypted: Option<bool>,
                     verifyState: Option<string>, status: string, upid: string, source: string,
                     guestName: Option<string>, origin: Option<string>, removedAt: Option<int>)

  // A prepared row of the batch: the event under its key.
  datatype Item = Item(key: Key, event: Event)

  type Table = map<Key, Row>

  /** The last full minute. */
  function Minute(t: int): (m: int)
    ensures m % 60 == 0 && m <= t < m + 60
  {
    t - t % 60
  }

  function Coalesce<T>(a: Option<T>, b: Option<T>): Option<T> {
    if a.Some? then a else b
  }

  /** A size of at most one byte does not count as a real backup. */
  predicate HasRealSize(e: Event): (b: bool)
    ensures !b <==> e.size == None || e.size.value < 2
  {
    e.size.Some? && e.size.value > 1
  }

  // ---- the merge rules --------------------------------------------------------

  function Inserted(e: Event, source: string): Row {
    Row(e.finishedAt, e.duration, e.size, e.encrypted, e.verifyState, e.status, e.upid, source, e.guestName, e.origin, None)
  }

  /** ON CONFLICT DO UPDATE */
  function Merged(r: Row, e: Event, source: string): Row {
    r.(size := Coalesce(e.size, r.size),
       encrypted := Coalesce(e.encrypted, r.encrypted),
       verifyState := Coalesce(e.verifyState, r.verifyState),
       guestName := Coalesce(e.guestName, r.guestName),
       source := if r.source == "pbs" && source == "pve" then "pbs" else source,
       origin := if e.origin == Some("pbs") then Some("pbs") else Coalesce(r.origin, e.origin),
       status := if HasRealSize(e) then e.status else if r.status == "failed" then r.status else e.status,
       finishedAt := if HasRealSize(e) then Coalesce(e.finishedAt, r.finishedAt) else r.finishedAt,
       removedAt := None)
  }

  function Get(t: Table, k: Key): Option<Row> {
    if k in t then Some(t[k]) else None
  }

  function Upsert(r: Option<Row>, e: Event, source: string): Row {
    if r.Some? then Merged(r.value, e, source) else Inserted(e, source)
  }

  /** The batch, row by row and in order. */
  function UpsertAll(t: Table, batch: seq<Item>, source: string): Table {
    if batch == [] then t
    else
      var before := UpsertAll(t, batch[..|batch| - 1], source);
      var last := batch[|batch| - 1];
      before[last.key := Upsert(Get(before, last.key), last.event, source)]
  }

  /** The rows of known VMs, keyed by the start minute. */
  function Prepare(vms: map<int, int>, events: seq<Event>): seq<Item> {
    if events == [] then []
    else
      var e := events[|events| - 1];
      Prepare(vms, events[..|events| - 1])
      + if e.vmid in vms then [Item(Key(vms[e.vmid], Minute(e.startedAt)), e)] else []
  }

  function Seen(batch: seq<Item>): set<Key> {
    set i | i in batch :: i.key
  }

  predicate Gone(k: Key, r: Row, vms: map<int, int>, source: string, seen: set<Key>) {
    k.vmId in vms.Values && r.source == source && r.removedAt.None? && Key(k.vmId, Minute(k.startedAt)) !in seen
  }

  function MarkRemoved(t: Table, vms: map<int, int>, source: string, seen: set<Key>, today: int): Table {
    map k | k in t :: if Gone(k, t[k], vms, source, seen) then t[k].(removedAt := Some(today)) else t[k]
  }

  /** What one sync makes of the table. */
  function Synced(t: Table, vms: map<int, int>, source: string, events: seq<Event>, markRemoved: bool, today: int): Table {
    var batch := Prepare(vms, events);
    var upserted := UpsertAll(t, batch, source);
    if markRemoved then MarkRemoved(upserted, vms, source, Seen(batch), today) else upserted
  }

  class BackupEvents {
    var rows: Table

    constructor (rows: Table)
      ensures this.rows == rows
    {
      this.rows := rows;
    }

    method Sync(vms: map<int, int>, source: string, events: seq<Event>, markRemoved: bool, today: int)
      modifies this
      ensures rows == Synced(old(rows), vms, source, events, markRemoved, today)
    {
      hide Merged, Inserted;
      var seenKeys: set<Key> := {};
      var batch: seq<Item> := [];
      for k := 0 to |events|
        invariant batch == Prepare(vms, events[..k]) && seenKeys == Seen(batch)
      {
        var e := events[k];
        assert events[..k + 1][..k] == events[..k];
        if e.vmid in vms {
          var key := Key(vms[e.vmid], Minute(e.startedAt));
          seenKeys := seenKeys + {key};
          batch := batch + [Item(key, e)];
        }
      }
      assert events[..|events|] == events;
      for k := 0 to |batch|
        invariant rows == UpsertAll(old(rows), batch[..k], source)
      {
        assert batch[..k + 1][..k] == batch[..k];
        rows := rows[batch[k].key := Upsert(Get(rows, batch[k].key), batch[k].event, source)];
      }
      assert batch[..|batch|] == batch;
      if vms.Values == {} || !markRemoved {
        assert vms.Values == {} ==> rows == MarkRemoved(rows, vms, source, seenKeys, today);
        return;
      }
      var gone := set k | k in rows && Gone(k, rows[k], vms, source, seenKeys);
      rows := map k | k in rows :: if k in gone then rows[k].(removedAt := Some(today)) else rows[k];
    }
  }

  // ---- one key at a time ------------------------------------------------------

  /** The events of a batch that concern one key, in order. */
  ghost function EventsOf(batch: seq<Item>, k: Key): seq<Event> {
    if batch == [] then []
    else
      var last := batch[|batch| - 1];
      EventsOf(batch[..|batch| - 1], k) + if last.key == k then [last.event] else []
  }

  ghost function Fold(r: Option<Row>, events: seq<Event>, source: string): Option<Row> {
    if events == [] then r
    else Some(Upsert(Fold(r, events[..|events| - 1], source), events[|events| - 1], source))
  }

  lemma {:induction false} UpsertByKey(t: Table, batch: seq<Item>, source: string, k: Key)
    ensures Get(UpsertAll(t, batch, source), k) == Fold(Get(t, k), EventsOf(batch, k), source)
  {
    if batch != [] {
      var init, last := batch[..|batch| - 1], batch[|batch| - 1];
      UpsertByKey(t, init, source, k);
      if last.key == k {
        var events := EventsOf(batch, k);
        assert events[..|events| - 1] == EventsOf(init, k) && events[|events| - 1] == last.event;
      } else {
        assert EventsOf(batch, k) == EventsOf(init, k);
      }
    }
  }

  lemma {:induction false} SeenHasEvents(batch: seq<Item>, k: Key)
    ensures EventsOf(batch, k) != [] <==> k in Seen(batch)
  {
    if batch != [] {
      var init, last := batch[..|batch| - 1], batch[|batch| - 1];
      SeenHasEvents(init, k);
      assert batch == init + [last];
      assert last in batch && forall i :: i in batch <==> i in init || i == last;
    }
  }

  // ---- merging as an effect ---------------------------------------------------

  datatype OriginEffect = KeepOrigin | FillOrigin(value: string) | SetPbs
  datatype StatusEffect = KeepStatus | SetStatus(value: string) | SoftStatus(value: string) // failed stays failed

  /** What a list of events does to an existing row, whatever the row is. */
  datatype Effect = Effect(some: bool, finishedAt: Option<int>, size: Option<int>, encrypted: Option<bool>,
                           verifyState: Option<string>, guestName: Option<string>, origin: OriginEffect, status: StatusEffect)

  ghost function Applied(f: Effect, r: Row, source: string): Row {
    if !f.some then r
    else r.(finishedAt := Coalesce(f.finishedAt, r.finishedAt),
            size := Coalesce(f.size, r.size),
            encrypted := Coalesce(f.encrypted, r.encrypted),
            verifyState := Coalesce(f.verifyState, r.verifyState),
            guestName := Coalesce(f.guestName, r.guestName),
            source := if r.source == "pbs" && source == "pve" then "pbs" else source,
            origin := (match f.origin
                       case KeepOrigin => r.origin
                       case FillOrigin(v) => Coalesce(r.origin, Some(v))
                       case SetPbs => Some("pbs")),
            status := (match f.status
                       case KeepStatus => r.status
                       case SetStatus(v) => v
                       case SoftStatus(v) => if r.status == "failed" then r.status else v),
            removedAt := None)
  }

  ghost function Then(f: Effect, e: Event): Effect {
    Effect(true,
      if HasRealSize(e) then Coalesce(e.finishedAt, f.finishedAt) else f.finishedAt,
      Coalesce(e.size, f.size),
      Coalesce(e.encrypted, f.encrypted),
      Coalesce(e.verifyState, f.verifyState),
      Coalesce(e.guestName, f.guestName),
      if e.origin == Some("pbs") then SetPbs
      else if f.origin.KeepOrigin? && e.origin.Some? then FillOrigin(e.origin.value) else f.origin,
      if HasRealSize(e) then SetStatus(e.status)
      else match f.status
           case KeepStatus => SoftStatus(e.status)
           case SetStatus(v) => SetStatus(if v == "failed" then v else e.status)
           case SoftStatus(v) => if v == "failed" then SetStatus(v) else SoftStatus(e.status))
  }

  ghost function EffectOf(events: seq<Event>): Effect {
    if events == [] then Effect(false, None, None, None, None, None, KeepOrigin, KeepStatus)
    else Then(EffectOf(events[..|events| - 1]), events[|events| - 1])
  }

  lemma {:induction false} FoldIsEffect(r: Row, events: seq<Event>, source: string)
    ensures Fold(Some(r), events, source) == Some(Applied(EffectOf(events), r, source))
  {
    if events != [] {
      var init, last := events[..|events| - 1], events[|events| - 1];
      FoldIsEffect(r, init, source);
      MergedIsThen(EffectOf(init), r, last, source);
    }
  }

  lemma {:induction false} MergedIsThen(f: Effect, r: Row, e: Event, source: string)
    requires f.some || f == EffectOf([])
    ensures Merged(Applied(f, r, source), e, source) == Applied(Then(f, e), r, source)
  {
  }

  lemma AppliedTwice(f: Effect, r: Row, source: string)
    ensures Applied(f, Applied(f, r, source), source) == Applied(f, r, source)
  {
  }

  /** Inserting and then merging the same event is the same as inserting it. */
  lemma {:induction false} InsertIsMerge(events: seq<Event>, source: string)
    requires events != []
    ensures Fold(None, events, source) == Fold(Some(Inserted(events[0], source)), events, source)
  {
    if |events| > 1 {
      InsertIsMerge(events[..|events| - 1], source);
    } else {
      assert events[..0] == [];
    }
  }

  /** Merging the events of a key again changes nothing. */
  lemma {:induction false} FoldIdempotent(r: Option<Row>, events: seq<Event>, source: string)
    ensures Fold(Fold(r, events, source), events, source) == Fold(r, events, source)
    ensures events != [] ==> Fold(r, events, source).Some? && Fold(r, events, source).value.removedAt.None?
  {
    if events != [] {
      var row := if r.Some? then r.value else Inserted(events[0], source);
      if r.None? {
        InsertIsMerge(events, source);
      }
      FoldIsEffect(row, events, source);
      FoldIsEffect(Applied(EffectOf(events), row, source), events, source);
      AppliedTwice(EffectOf(events), row, source);
    }
  }

  // ---- what the merged row says -------------------------------------------------

  /** An event whose end counts. */
  predicate Ends(e: Event) {
    e.size.Some? && e.size.value > 1 && e.finishedAt.Some?
  }

  /** Size, encryption, verification and name are those of the last event that knows them; the
      end is that of the last event of real size that knows it. */
  lemma {:induction false} LastKnown(r: Option<Row>, events: seq<Event>, source: string, i: nat)
    requires i < |events|
    ensures Fold(r, events, source).Some?
    ensures var row := Fold(r, events, source).value;
      && (events[i].size.Some? && (forall j :: i < j < |events| ==> events[j].size.None?) ==> row.size == events[i].size)
      && (events[i].encrypted.Some? && (forall j :: i < j < |events| ==> events[j].encrypted.None?) ==> row.encrypted == events[i].encrypted)
      && (events[i].verifyState.Some? && (forall j :: i < j < |events| ==> events[j].verifyState.None?) ==> row.verifyState == events[i].verifyState)
      && (events[i].guestName.Some? && (forall j :: i < j < |events| ==> events[j].guestName.None?) ==> row.guestName == events[i].guestName)
      && (Ends(events[i]) && (forall j :: i < j < |events| ==> !Ends(events[j])) ==> row.finishedAt == events[i].finishedAt)
  {
    var init, last := events[..|events| - 1], events[|events| - 1];
    if i < |init| {
      LastKnown(r, init, source, i);
    }
  }

  /** Duration and task are those of the row, or of the event that made it; a row is of this
      source then, but one read from PBS stays so when PVE reports it again. It is live. */
  lemma {:induction false} FirstKnown(r: Option<Row>, events: seq<Event>, source: string)
    requires events != []
    ensures Fold(r, events, source).Some?
    ensures var row := Fold(r, events, source).value;
      && row.removedAt.None?
      && row.duration == (if r.Some? then r.value.duration else events[0].duration)
      && row.upid == (if r.Some? then r.value.upid else events[0].upid)
      && row.source == if r.Some? && r.value.source == "pbs" && source == "pve" then "pbs" else source
  {
    var init := events[..|events| - 1];
    if init != [] {
      FirstKnown(r, init, source);
    }
  }

  /** What no event knows stays as it was. */
  lemma {:induction false} NeverKnown(r: Row, events: seq<Event>, source: string)
    ensures Fold(Some(r), events, source).Some?
    ensures var row := Fold(Some(r), events, source).value;
      && ((forall k :: 0 <= k < |events| ==> events[k].size.None?) ==> row.size == r.size)
      && ((forall k :: 0 <= k < |events| ==> events[k].encrypted.None?) ==> row.encrypted == r.encrypted)
      && ((forall k :: 0 <= k < |events| ==> events[k].verifyState.None?) ==> row.verifyState == r.verifyState)
      && ((forall k :: 0 <= k < |events| ==> events[k].guestName.None?) ==> row.guestName == r.guestName)
      && ((forall k :: 0 <= k < |events| ==> !Ends(events[k])) ==> row.finishedAt == r.finishedAt)
  {
    if events != [] {
      NeverKnown(r, events[..|events| - 1], source);
    }
  }

  /** A new row: what no event knows is unknown, and the end is the first event's if no later
      one has a real size. */
  lemma {:induction false} NewRow(events: seq<Event>, source: string)
    requires events != []
    ensures Fold(None, events, source).Some?
    ensures var row := Fold(None, events, source).value;
      && ((forall k :: 0 <= k < |events| ==> events[k].size.None?) ==> row.size.None?)
      && ((forall k :: 0 <= k < |events| ==> events[k].encrypted.None?) ==> row.encrypted.None?)
      && ((forall k :: 0 <= k < |events| ==> events[k].verifyState.None?) ==> row.verifyState.None?)
      && ((forall k :: 0 <= k < |events| ==> events[k].guestName.None?) ==> row.guestName.None?)
      && ((forall k :: 0 <= k < |events| ==> !Ends(events[k])) ==> row.finishedAt == events[0].finishedAt)
  {
    InsertIsMerge(events, source);
    NeverKnown(Inserted(events[0], source), events, source);
  }

  /** A failure holds until an event of real size comes after it. */
  ghost predicate FailureStands(r: Option<Row>, events: seq<Event>) {
    || (r.Some? && r.value.status == "failed" && forall k :: 0 <= k < |events| ==> !HasRealSize(events[k]))
    || exists j :: 0 <= j < |events| && events[j].status == "failed" && forall k :: j < k < |events| ==> !HasRealSize(events[k])
  }

  lemma {:induction false} FailureStep(r: Option<Row>, events: seq<Event>)
    requires events != []
    ensures var init, last := events[..|events| - 1], events[|events| - 1];
      FailureStands(r, events) <==> last.status == "failed" || (FailureStands(r, init) && !HasRealSize(last))
  {
    var init, last := events[..|events| - 1], events[|events| - 1];
    if FailureStands(r, init) && !HasRealSize(last) {
      if j :| 0 <= j < |init| && init[j].status == "failed" && forall k :: j < k < |init| ==> !HasRealSize(init[k]) {
        assert events[j] == init[j] && forall k :: j < k < |events| ==> !HasRealSize(events[k]);
      }
    }
    if j :| 0 <= j < |events| && events[j].status == "failed" && forall k :: j < k < |events| ==> !HasRealSize(events[k]) {
      assert j < |init| ==> init[j] == events[j] && forall k :: j < k < |init| ==> !HasRealSize(init[k]);
    }
  }

  /** The status is that of the last event, unless a failure stands. */
  lemma {:induction false} StatusOfFold(r: Option<Row>, events: seq<Event>, source: string)
    requires events != []
    ensures Fold(r, events, source).Some?
    ensures Fold(r, events, source).value.status == if FailureStands(r, events) then "failed" else events[|events| - 1].status
  {
    var init := events[..|events| - 1];
    FailureStep(r, events);
    hide FailureStands;
    if init != [] {
      StatusOfFold(r, init, source);
    } else {
      NothingFolded(r);
    }
  }

  lemma NothingFolded(r: Option<Row>)
    ensures FailureStands(r, []) <==> r.Some? && r.value.status == "failed"
  {
  }

  ghost function FirstOrigin(events: seq<Event>): Option<string> {
    if events == [] then None
    else if events[0].origin.Some? then events[0].origin else FirstOrigin(events[1..])
  }

  lemma {:induction false} FirstOriginSnoc(events: seq<Event>, e: Event)
    ensures FirstOrigin(events + [e]) == if FirstOrigin(events).Some? then FirstOrigin(events) else e.origin
  {
    if events == [] {
      assert (events + [e])[1..] == [];
    } else {
      assert (events + [e])[1..] == events[1..] + [e];
      FirstOriginSnoc(events[1..], e);
    }
  }

  ghost predicate SaysPbs(events: seq<Event>) {
    exists k :: 0 <= k < |events| && events[k].origin == Some("pbs")
  }

  lemma SaysPbsSnoc(events: seq<Event>, e: Event)
    ensures SaysPbs(events + [e]) <==> SaysPbs(events) || e.origin == Some("pbs")
  {
    var all := events + [e];
    assert all[|events|] == e && forall k :: 0 <= k < |events| ==> all[k] == events[k];
  }

  /** The origin is "pbs" as soon as an event says so, else what was known first. */
  lemma {:induction false} OriginOfFold(r: Option<Row>, events: seq<Event>, source: string)
    requires events != []
    ensures Fold(r, events, source).Some?
    ensures Fold(r, events, source).value.origin ==
      if SaysPbs(events) then Some("pbs")
      else if r.Some? && r.value.origin.Some? then r.value.origin else FirstOrigin(events)
  {
    var init, last := events[..|events| - 1], events[|events| - 1];
    assert events == init + [last];
    FirstOriginSnoc(init, last);
    SaysPbsSnoc(init, last);
    hide FirstOrigin, SaysPbs;
    if init != [] {
      OriginOfFold(r, init, source);
    } else {
      NoOrigin();
    }
  }

  lemma NoOrigin()
    ensures FirstOrigin([]) == None && !SaysPbs([])
  {
  }

  // ---- properties of a sync -----------------------------------------------------

  lemma {:induction false} PreparedKeys(vms: map<int, int>, events: seq<Event>)
    ensures forall i :: i in Prepare(vms, events) ==> i.key.vmId in vms.Values && i.key.startedAt == Minute(i.key.startedAt)
  {
    if events != [] {
      PreparedKeys(vms, events[..|events| - 1]);
    }
  }

  /** Syncing the same batch twice, even on another day, is the same as syncing it once. */
  lemma {:induction false} SyncIdempotent(t: Table, vms: map<int, int>, source: string, events: seq<Event>, mark: bool, today: int, later: int)
    ensures Synced(Synced(t, vms, source, events, mark, today), vms, source, events, mark, later)
         == Synced(t, vms, source, events, mark, today)
  {
    var batch := Prepare(vms, events);
    PreparedKeys(vms, events);
    var once := Synced(t, vms, source, events, mark, today);
    var twice := Synced(once, vms, source, events, mark, later);
    forall k ensures Get(twice, k) == Get(once, k) {
      var events_k := EventsOf(batch, k);
      SeenHasEvents(batch, k);
      UpsertByKey(t, batch, source, k);
      UpsertByKey(once, batch, source, k);
      FoldIdempotent(Get(t, k), events_k, source);
    }
    assert forall k :: k in twice <==> Get(twice, k).Some?;
    assert forall k :: k in once <==> Get(once, k).Some?;
    assert twice.Keys == once.Keys;
    forall k | k in once ensures twice[k] == once[k] {
      assert Get(twice, k) == Get(once, k);
    }
  }

  /** With removal marking, afterwards every key seen is live, and every live row
      stored under this source for one of the cluster's VMs was seen. */
  lemma {:induction false} MarkingExact(t: Table, vms: map<int, int>, source: string, events: seq<Event>, today: int)
    ensures var seen := Seen(Prepare(vms, events));
      var after := Synced(t, vms, source, events, true, today);
      && (forall k :: k in seen ==> k in after && after[k].removedAt.None?)
      && (forall k :: k in after && k.vmId in vms.Values && after[k].source == source && after[k].removedAt.None?
            ==> Key(k.vmId, Minute(k.startedAt)) in seen)
  {
    var batch := Prepare(vms, events);
    PreparedKeys(vms, events);
    forall k | k in Seen(batch) ensures var after := Synced(t, vms, source, events, true, today); k in after && after[k].removedAt.None? {
      SeenHasEvents(batch, k);
      UpsertByKey(t, batch, source, k);
      FoldIdempotent(Get(t, k), EventsOf(batch, k), source);
    }
  }

  /** The batch is exactly the events of known VMs, each under its VM and full minute. */
  lemma {:induction false} PrepareMeans(vms: map<int, int>, events: seq<Event>, i: Item)
    ensures i in Prepare(vms, events) <==>
      i.event in events && i.event.vmid in vms && i.key == Key(vms[i.event.vmid], Minute(i.event.startedAt))
  {
    if events != [] {
      var init, last := events[..|events| - 1], events[|events| - 1];
      PrepareMeans(vms, init, i);
      assert events == init + [last];
    }
  }

  /** A row with an event is that row, or a new one, folded with its events in order. */
  lemma SyncedRow(t: Table, vms: map<int, int>, source: string, events: seq<Event>, mark: bool, today: int, k: Key)
    requires k in Seen(Prepare(vms, events))
    ensures Get(Synced(t, vms, source, events, mark, today), k) == Fold(Get(t, k), EventsOf(Prepare(vms, events), k), source)
    ensures EventsOf(Prepare(vms, events), k) != []
  {
    var batch := Prepare(vms, events);
    PreparedKeys(vms, events);
    SeenHasEvents(batch, k);
    UpsertByKey(t, batch, source, k);
  }

  /** What a sync without an event for a row does to it: nothing, unless removals are marked, it is
      one of this source's live rows of the cluster's VMs, and its minute was not seen. */
  lemma {:induction false} MarkingSpares(t: Table, vms: map<int, int>, source: string, events: seq<Event>, mark: bool, today: int, k: Key)
    requires k in t && k !in Seen(Prepare(vms, events))
    ensures var after, seen := Synced(t, vms, source, events, mark, today), Seen(Prepare(vms, events));
      && k in after
      && after[k] == if mark && k.vmId in vms.Values && t[k].source == source && t[k].removedAt.None?
                        && Key(k.vmId, Minute(k.startedAt)) !in seen
                     then t[k].(removedAt := Some(today)) else t[k]
  {
    var batch := Prepare(vms, events);
    SeenHasEvents(batch, k);
    UpsertByKey(t, batch, source, k);
  }

  lemma {:induction false} NoRealSizeKeepsFailed(r: Row, events: seq<Event>, source: string)
    requires r.status == "failed" && forall e :: e in events ==> !HasRealSize(e)
    ensures Fold(Some(r), events, source).value.status == "failed"
  {
    if events != [] {
      NoRealSizeKeepsFailed(r, events[..|events| - 1], source);
    }
  }

  lemma {:induction false} EventsOfMembers(batch: seq<Item>, k: Key, e: Event)
    requires e in EventsOf(batch, k)
    ensures Item(k, e) in batch
  {
    var last := batch[|batch| - 1];
    if !(last.key == k && last.event == e) {
      EventsOfMembers(batch[..|batch| - 1], k, e);
    }
  }

  /** A failed row changes its status only when an event with a real size arrives for it. */
  lemma {:induction false} FailedSticks(t: Table, vms: map<int, int>, source: string, events: seq<Event>, mark: bool, today: int, k: Key)
    requires k in t && t[k].status == "failed"
    ensures var after := Synced(t, vms, source, events, mark, today);
      k in after && (after[k].status == "failed" || exists e :: HasRealSize(e) && Item(k, e) in Prepare(vms, events))
  {
    var batch := Prepare(vms, events);
    UpsertByKey(t, batch, source, k);
    if forall e :: e in EventsOf(batch, k) ==> !HasRealSize(e) {
      NoRealSizeKeepsFailed(t[k], EventsOf(batch, k), source);
    } else {
      var e :| e in EventsOf(batch, k) && HasRealSize(e);
      EventsOfMembers(batch, k, e);
      FoldIsEffect(t[k], EventsOf(batch, k), source);
    }
  }

  /** `after` knows at least what `before` knew. */
  ghost predicate NothingForgotten(before: Row, after: Row, source: string) {
    && (before.size.Some? ==> after.size.Some?) && (before.encrypted.Some? ==> after.encrypted.Some?)
    && (before.verifyState.Some? ==> after.verifyState.Some?) && (before.guestName.Some? ==> after.guestName.Some?)
    && (before.finishedAt.Some? ==> after.finishedAt.Some?)
    && (before.origin.Some? ==> after.origin.Some? && (after.origin == before.origin || after.origin == Some("pbs")))
    && (before.source == "pbs" && source == "pve" ==> after.source == "pbs")
    && after.upid == before.upid && after.duration == before.duration
  }

  /** A sync never forgets: no row disappears, no known field becomes unknown, a row read
      from PBS stays so when PVE reports it again, and a known origin only changes to PBS. */
  lemma {:induction false} SyncForgetsNothing(t: Table, vms: map<int, int>, source: string, events: seq<Event>, mark: bool, today: int, k: Key)
    requires k in t
    ensures var after := Synced(t, vms, source, events, mark, today); k in after && NothingForgotten(t[k], after[k], source)
  {
    var batch := Prepare(vms, events);
    UpsertByKey(t, batch, source, k);
    FoldIsEffect(t[k], EventsOf(batch, k), source);
    EffectForgetsNothing(EffectOf(EventsOf(batch, k)), t[k], source);
    hide NothingForgotten, Applied, EffectOf;
    MarkForgetsNothing(UpsertAll(t, batch, source), vms, source, Seen(batch), today, k, t[k]);
  }

  lemma EffectForgetsNothing(f: Effect, r: Row, source: string)
    ensures NothingForgotten(r, Applied(f, r, source), source)
  {
  }

  lemma MarkForgetsNothing(t: Table, vms: map<int, int>, source: string, seen: set<Key>, today: int, k: Key, before: Row)
    requires k in t && NothingForgotten(before, t[k], source)
    ensures var after := MarkRemoved(t, vms, source, seen, today); k in after && NothingForgotten(before, after[k], source)
  {
  }

  // ---- duplicates between PVE and PBS ---------------------------------------------

  // A PBS backup event, and whether it was read through PVE.
  datatype Snapshot = Snapshot(vmid: int, startedAt: int, fromPve: bool)

  function Hour(s: Snapshot): int {
    s.startedAt / 3600
  }

  /** The full hours since the epoch. */
  lemma HourMeans(s: Snapshot)
    ensures Hour(s) * 3600 <= s.startedAt < (Hour(s) + 1) * 3600
  {
  }

  /** A direct event of the same VM in the same or a neighbouring hour. */
  ghost predicate Shadowed(events: seq<Snapshot>, s: Snapshot) {
    s.fromPve && exists d :: d in events && !d.fromPve && d.vmid == s.vmid && -1 <= Hour(d) - Hour(s) <= 1
  }

  ghost function Unshadowed(all: seq<Snapshot>, events: seq<Snapshot>): seq<Snapshot> {
    if events == [] then []
    else Unshadowed(all, events[..|events| - 1]) + if Shadowed(all, events[|events| - 1]) then [] else [events[|events| - 1]]
  }

  /** `_dedup_pbs_events`: drops exactly the shadowed events and keeps the order. */
  method DedupPbsEvents(events: seq<Snapshot>) returns (deduped: seq<Snapshot>)
    ensures deduped == Unshadowed(events, events)
  {
    var direct: set<(int, int)> := {};
    for k := 0 to |events|
      invariant forall v, h :: (v, h) in direct <==> exists d :: d in events[..k] && !d.fromPve && d.vmid == v && Hour(d) == h
    {
      if !events[k].fromPve {
        direct := direct + {(events[k].vmid, Hour(events[k]))};
      }
      assert events[..k + 1] == events[..k] + [events[k]];
    }
    assert events[..|events|] == events;
    deduped := [];
    for k := 0 to |events|
      invariant deduped == Unshadowed(events, events[..k])
    {
      var e := events[k];
      assert events[..k + 1][..k] == events[..k];
      var hour := Hour(e);
      assert Shadowed(events, e) <==> e.fromPve && ((e.vmid, hour) in direct || (e.vmid, hour - 1) in direct || (e.vmid, hour + 1) in direct) by {
        ShadowedByHour(events, e, direct);
      }
      if !e.fromPve {
        deduped := deduped + [e];
      } else if (e.vmid, hour) !in direct && (e.vmid, hour - 1) !in direct && (e.vmid, hour + 1) !in direct {
        deduped := deduped + [e];
      }
    }
  }

  lemma {:induction false} ShadowedByHour(events: seq<Snapshot>, e: Snapshot, direct: set<(int, int)>)
    requires forall v, h :: (v, h) in direct <==> exists d :: d in events && !d.fromPve && d.vmid == v && Hour(d) == h
    ensures var v, h := e.vmid, Hour(e);
      Shadowed(events, e) <==> e.fromPve && ((v, h) in direct || (v, h - 1) in direct || (v, h + 1) in direct)
  {
    if Shadowed(events, e) {
      var d :| d in events && !d.fromPve && d.vmid == e.vmid && -1 <= Hour(d) - Hour(e) <= 1;
      assert (d.vmid, Hour(d)) in direct;
    }
  }

  lemma {:induction false} UnshadowedMembers(all: seq<Snapshot>, events: seq<Snapshot>)
    ensures forall s :: s in Unshadowed(all, events) <==> s in events && !Shadowed(all, s)
  {
    if events != [] {
      UnshadowedMembers(all, events[..|events| - 1]);
      assert events == events[..|events| - 1] + [events[|events| - 1]];
    }
  }

  lemma {:induction false} NothingShadowed(all: seq<Snapshot>, events: seq<Snapshot>)
    requires forall k :: 0 <= k < |events| ==> !Shadowed(all, events[k])
    ensures Unshadowed(all, events) == events
  {
    hide Shadowed;
    if events != [] {
      var init, last := events[..|events| - 1], events[|events| - 1];
      assert forall k :: 0 <= k < |init| ==> init[k] == events[k];
      NothingShadowed(all, init);
      assert events == init + [last];
    }
  }

  /** Deduplicating again changes nothing. */
  lemma {:induction false} DedupIdempotent(events: seq<Snapshot>)
    ensures var once := Unshadowed(events, events); Unshadowed(once, once) == once
  {
    var once := Unshadowed(events, events);
    UnshadowedMembers(events, events);
    forall k | 0 <= k < |once| ensures !Shadowed(once, once[k]) {
      assert once[k] in once && !Shadowed(events, once[k]);
    }
    NothingShadowed(once, once);
  }
}
