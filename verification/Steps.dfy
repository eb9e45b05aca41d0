/** Everything that can happen to the rows of restore runs and the actions in flight, one
    transaction at a time, whoever makes it: the web application, the worker, the drainer, a
    recovery. A log of such steps says all there is to know about a life of the system. */
module Steps {
  import opened Wrappers
  import opened Alloc
  import opened RestoreRuns
  import opened RestoreQueue
  import opened Books

  // What others than the worker do. A re-test that raises is abandoned: it neither
  // promotes nor gives its helper back.
  datatype Web =
    | Create(vm: int, now: int)
    | EnqueueIfNeverPassed(vm: int, now: int)
    | Delete(id: nat)
    | Cancel(id: nat)
    | Reorder(ids: seq<nat>)
    | BeginHeld(k: nat, id: nat, kind: Kind, created: bool)
    | BeginRecovery(k: nat, id: nat, recent: bool, taskRunning: bool)
    | EndAction(k: nat, passed: bool, fate: Fate)
    | Abandon(k: nat)

  // The tables and what is in flight.
  datatype View = View(db: Db, actions: map<nat, Action>)

  const START := View(Db(map[], []), map[])

  datatype Label =
    | ByWeb(web: Web)
    | Starting(id: nat, a: Allocation)
    | Recording(id: nat, result: Status, status: Status) // by the worker, the drainer or a recovery
    | Clearing(id: nat)
    | Cancelling(id: nat)
    | Late(id: nat, result: Status, hold: bool, plan: Env, fate: Fate) // by a worker that was overtaken

  datatype Event = Event(what: Label, before: View, guests: set<Guest>, after: View)

  // ---- what a step does --------------------------------------------------------------

  ghost predicate IsHeld(db: Db, id: nat) {
    id in db.runs && db.runs[id].status == Held
  }

  ghost predicate CreatesRun(before: Db, after: Db, vm: int, now: int) {
    exists id :: id !in before.runs && after == Created(before, id, vm, now)
  }

  /** A re-test gives the run a helper and an address that are free, if an environment is. */
  ghost predicate GivesHelper(cfg: Config, before: Db, after: Db, id: nat) {
    exists a :: Allocatable(cfg, before, a) && after == HelperSet(before, id, Some(a.helperVmid), Some(a.mgmtIp))
  }

  ghost predicate Begins(b: View, n: View, k: nat, id: nat, kind: Kind) {
    id in n.db.runs && n.actions == b.actions[k := Action(id, kind, n.db.runs[id].env)]
  }

  /** A recovery begins if the run is not fresh and neither task nor VM of it can be seen. */
  ghost predicate LooksStuck(db: Db, guests: set<Guest>, id: nat, recent: bool, taskRunning: bool) {
    IsRunning(db, id) && !recent && !taskRunning && !Present(guests, db.runs[id].env.restoreVmid)
  }

  ghost predicate WebOk(cfg: Config, web: Web, b: View, guests: set<Guest>, n: View) {
    match web
    case Create(vm, now) => CreatesRun(b.db, n.db, vm, now) && n.actions == b.actions
    case EnqueueIfNeverPassed(vm, now) =>
      n.actions == b.actions && if NeverPassedAndIdle(b.db, vm) then CreatesRun(b.db, n.db, vm, now) else n.db == b.db
    case Delete(id) => n == b.(db := Deleted(b.db, id))
    case Cancel(id) => n == b.(db := CancelRequested(b.db, id))
    case Reorder(ids) => n == b.(db := Reordered(b.db, ids))
    case BeginHeld(k, id, kind, _) =>
      if k in b.actions || kind == Recovering || !IsHeld(b.db, id) then n == b
      else if kind != Retesting then n.db == b.db && Begins(b, n, k, id, kind)
      else if CanAllocate(cfg, b.db) then GivesHelper(cfg, b.db, n.db, id) && Begins(b, n, k, id, kind)
      else n == b
    case BeginRecovery(k, id, recent, taskRunning) =>
      if k !in b.actions && LooksStuck(b.db, guests, id, recent, taskRunning) then n.db == b.db && Begins(b, n, k, id, Recovering)
      else n == b
    case EndAction(k, passed, fate) =>
      if k in b.actions && Settled(b.db, b.actions[k].id) then n == View(AfterEnd(b.db, b.actions[k], passed), b.actions - {k})
      else n == b
    case Abandon(k) => n == b.(actions := b.actions - {k})
  }

  ghost predicate StepOk(cfg: Config, e: Event) {
    var b, n := e.before, e.after;
    match e.what
    case ByWeb(web) => WebOk(cfg, web, b, e.guests, n)
    case Starting(id, a) =>
      NoneRunning(b.db) && IsQueued(b.db, id) && Allocatable(cfg, b.db, a) && n == b.(db := Started(b.db, id, a))
    case Recording(id, result, status) =>
      && id in b.db.runs && (b.db.runs[id].status == Queued || b.db.runs[id].status == Running) && !Live(result)
      && (status == result || (status == Held && (result == Failed || result == Error) && b.db.runs[id].status == Running))
      && n == b.(db := Recorded(b.db, id, b.db.runs[id].vm, result, status))
    case Clearing(id) => IsHeld(b.db, id) && n == b.(db := HelperSet(b.db, id, None, None))
    case Cancelling(id) => n == b.(db := CancelRequested(b.db, id))
    case Late(id, result, hold, plan, fate) =>
      && Settled(b.db, id) && IsOutcome(result) && VmInRange(cfg, b.db.runs[id].env)
      && n == b.(db := LateDb(b.db, id, result, hold))
  }

  // ---- what a step amounts to ----------------------------------------------------------

  ghost function StartsOf(e: Event): seq<Start> {
    if e.what.Starting? then [Start(e.before.db, e.what.id)] else []
  }

  ghost function EndsOf(e: Event): seq<End> {
    match e.what
    case ByWeb(EndAction(k, passed, fate)) =>
      if k in e.before.actions && Settled(e.before.db, e.before.actions[k].id)
      then [EndOf(e.before.db, e.guests, e.before.actions[k], passed, fate)] else []
    case Late(id, result, hold, plan, fate) =>
      [End(e.before.db, e.guests, id, Victims(plan, if Holds(result, hold) then fate.(vm := false) else fate), true)]
    case _ => []
  }

  ghost function WebsOf(e: Event): seq<Web> {
    if e.what.ByWeb? then [e.what.web] else []
  }

  /** An action begins on a run that has one in flight, the run of an action is recorded
      without it, or a worker is overtaken by a recovery. */
  ghost predicate Overlapping(e: Event) {
    match e.what
    case ByWeb(_) => exists k :: k in e.after.actions && k !in e.before.actions && ActionOn(e.before.actions, e.after.actions[k].id)
    case Recording(id, _, _) => ActionOn(e.before.actions, id)
    case Clearing(id) => ActionOn(e.before.actions, id)
    case Late(_, _, _, _, _) => true
    case _ => false
  }

  /** A worker that was overtaken holds its run although another has its VM or VLAN. */
  ghost predicate Clashes(e: Event) {
    e.what.Late? && Holds(e.what.result, e.what.hold) && e.what.id in e.before.db.runs && TakenOver(e.before.db, e.what.id)
  }

  // ---- every step keeps the books ------------------------------------------------------

  lemma Softer(v: View, starts: seq<Start>, ends: seq<End>, robbed: bool, before: bool, after: bool)
    requires BooksOk(v.db, v.actions, starts, before) && EndsOk(v.db, ends, robbed, before) && (before ==> after)
    ensures BooksOk(v.db, v.actions, starts, after) && EndsOk(v.db, ends, robbed, after)
  {
  }

  lemma EndsSame(db: Db, n: Db, ends: seq<End>, robbed: bool, overlapped: bool)
    requires EndsOk(db, ends, robbed, overlapped) && (NoOrphans(n) <==> NoOrphans(db))
    ensures EndsOk(n, ends, robbed, overlapped)
  {
  }

  lemma EndsMore(db: Db, n: Db, ends: seq<End>, robbed: bool, overlapped: bool, e: End)
    requires EndsOk(db, ends, robbed, overlapped) && (NoOrphans(n) <==> NoOrphans(db) && !Doubles(e))
    requires overlapped || (!Robs(e) && !Doubles(e))
    ensures EndsOk(n, ends + [e], robbed || Robs(e), overlapped)
  {
    hide NoOrphans, Robs, Doubles;
    NoneSnoc(ends, e);
  }

  lemma OneRobs(e: End)
    ensures NoneRobs([e]) <==> !Robs(e)
  {
    assert [e][0] == e;
  }

  /** Nothing but queue places and cancel flags has changed. */
  lemma BooksSame(db: Db, n: Db, actions: map<nat, Action>, starts: seq<Start>, overlapped: bool)
    requires BooksOk(db, actions, starts, overlapped)
    requires forall i :: (i in n.runs <==> i in db.runs) && (i in db.runs ==> SameRow(db.runs[i], n.runs[i]))
    ensures BooksOk(n, actions, starts, overlapped)
  {
  }

  lemma BooksAdd(db: Db, actions: map<nat, Action>, starts: seq<Start>, overlapped: bool, k: nat, a: Action)
    requires BooksOk(db, actions, starts, overlapped) && k !in actions && Intact(db, a)
    ensures BooksOk(db, actions[k := a], starts, overlapped || ActionOn(actions, a.id))
  {
  }

  lemma BooksDrop(db: Db, actions: map<nat, Action>, starts: seq<Start>, overlapped: bool, k: nat)
    requires BooksOk(db, actions, starts, overlapped)
    ensures BooksOk(db, actions - {k}, starts, overlapped)
  {
  }

  lemma MoreStarts(db: Db, actions: map<nat, Action>, starts: seq<Start>, overlapped: bool, s: Start)
    requires BooksOk(db, actions, starts, overlapped)
    ensures BooksOk(db, actions, starts + [s], overlapped) && s.id in StartedIds(starts + [s])
  {
    var all := starts + [s];
    assert all[|starts|] == s && forall k :: 0 <= k < |starts| ==> all[k] == starts[k];
    forall id | id in StartedIds(starts) ensures id in StartedIds(all) {
      var k :| 0 <= k < |starts| && starts[k].id == id;
      assert all[k].id == id;
    }
  }

  /** What a step leaves behind. */
  ghost predicate Kept(cfg: Config, e: Event, starts: seq<Start>, ends: seq<End>, robbed: bool, overlapped: bool) {
    && (Consistent(cfg, e.after.db) <==> !Clashes(e)) && RowsOk(e.after.db) && OneRunning(e.after.db)
    && BooksOk(e.after.db, e.after.actions, starts + StartsOf(e), overlapped || Overlapping(e))
    && EndsOk(e.after.db, ends + EndsOf(e), robbed || !NoneRobs(EndsOf(e)), overlapped || Overlapping(e))
  }

  lemma PlainKept(cfg: Config, e: Event, starts: seq<Start>, ends: seq<End>, robbed: bool, overlapped: bool)
    requires Consistent(cfg, e.after.db) && !e.what.Late? && StartsOf(e) == [] && EndsOf(e) == []
    requires BooksOk(e.after.db, e.after.actions, starts, overlapped || Overlapping(e))
    requires EndsOk(e.after.db, ends, robbed, overlapped || Overlapping(e))
    ensures Kept(cfg, e, starts, ends, robbed, overlapped)
  {
    assert starts + [] == starts && ends + [] == ends;
  }

  lemma EndedKept(cfg: Config, e: Event, starts: seq<Start>, ends: seq<End>, robbed: bool, overlapped: bool, end: End)
    requires Consistent(cfg, e.after.db) && !e.what.Late? && StartsOf(e) == [] && EndsOf(e) == [end]
    requires BooksOk(e.after.db, e.after.actions, starts, overlapped || Overlapping(e))
    requires EndsOk(e.after.db, ends + [end], robbed || Robs(end), overlapped || Overlapping(e))
    ensures Kept(cfg, e, starts, ends, robbed, overlapped)
  {
    hide BooksOk, EndsOk, Robs, Overlapping, RowsOk, EnvsOk, OneRunning, NoneRobs;
    assert starts + [] == starts;
    OneRobs(end);
  }

  ghost predicate Ready(cfg: Config, e: Event, starts: seq<Start>, ends: seq<End>, robbed: bool, overlapped: bool) {
    && StepOk(cfg, e) && Consistent(cfg, e.before.db)
    && BooksOk(e.before.db, e.before.actions, starts, overlapped) && EndsOk(e.before.db, ends, robbed, overlapped)
  }

  lemma CreateKept(cfg: Config, e: Event, starts: seq<Start>, ends: seq<End>, robbed: bool, overlapped: bool, id: nat, vm: int, now: int)
    requires Ready(cfg, e, starts, ends, robbed, overlapped) && e.what.ByWeb? && !e.what.web.EndAction? && id !in e.before.db.runs
    requires e.after == e.before.(db := Created(e.before.db, id, vm, now))
    ensures Kept(cfg, e, starts, ends, robbed, overlapped)
  {
    hide Consistent, NoOrphans, RowsStay, Overlapping;
    var o := overlapped || Overlapping(e);
    Softer(e.before, starts, ends, robbed, overlapped, o);
    CreatedKeeps(cfg, e.before.db, id, vm, now);
    BooksCarry(e.before.db, e.after.db, id, e.before.actions, starts, o);
    EndsSame(e.before.db, e.after.db, ends, robbed, o);
    PlainKept(cfg, e, starts, ends, robbed, overlapped);
  }

  lemma DeleteKept(cfg: Config, e: Event, starts: seq<Start>, ends: seq<End>, robbed: bool, overlapped: bool, id: nat)
    requires Ready(cfg, e, starts, ends, robbed, overlapped) && e.what == ByWeb(Delete(id))
    ensures Kept(cfg, e, starts, ends, robbed, overlapped)
  {
    hide Consistent, NoOrphans, RowsStay, Overlapping;
    var o := overlapped || Overlapping(e);
    Softer(e.before, starts, ends, robbed, overlapped, o);
    DeletedKeeps(cfg, e.before.db, id);
    BooksCarry(e.before.db, e.after.db, id, e.before.actions, starts, o);
    EndsSame(e.before.db, e.after.db, ends, robbed, o);
    PlainKept(cfg, e, starts, ends, robbed, overlapped);
  }

  lemma FlagKept(cfg: Config, e: Event, starts: seq<Start>, ends: seq<End>, robbed: bool, overlapped: bool, id: nat)
    requires Ready(cfg, e, starts, ends, robbed, overlapped) && (e.what == ByWeb(Cancel(id)) || e.what == Cancelling(id))
    ensures Kept(cfg, e, starts, ends, robbed, overlapped)
  {
    hide Consistent, NoOrphans, Overlapping, BooksOk, EndsOk;
    var o := overlapped || Overlapping(e);
    Softer(e.before, starts, ends, robbed, overlapped, o);
    CancelKeeps(cfg, e.before.db, id);
    BooksSame(e.before.db, e.after.db, e.before.actions, starts, o);
    EndsSame(e.before.db, e.after.db, ends, robbed, o);
    PlainKept(cfg, e, starts, ends, robbed, overlapped);
  }

  lemma ReorderKept(cfg: Config, e: Event, starts: seq<Start>, ends: seq<End>, robbed: bool, overlapped: bool, ids: seq<nat>)
    requires Ready(cfg, e, starts, ends, robbed, overlapped) && e.what == ByWeb(Reorder(ids))
    ensures Kept(cfg, e, starts, ends, robbed, overlapped)
  {
    hide Consistent, NoOrphans, Overlapping, BooksOk, EndsOk;
    var o := overlapped || Overlapping(e);
    Softer(e.before, starts, ends, robbed, overlapped, o);
    ReorderedKeeps(cfg, e.before.db, ids);
    BooksSame(e.before.db, e.after.db, e.before.actions, starts, o);
    EndsSame(e.before.db, e.after.db, ends, robbed, o);
    PlainKept(cfg, e, starts, ends, robbed, overlapped);
  }

  /** An action begins; nothing else happens, or the run gets a helper. */
  lemma BeginKept(cfg: Config, e: Event, starts: seq<Start>, ends: seq<End>, robbed: bool, overlapped: bool, k: nat, a: Action)
    requires Ready(cfg, e, starts, ends, robbed, overlapped) && e.what.ByWeb? && !e.what.web.EndAction?
    requires k !in e.before.actions && e.after.actions == e.before.actions[k := a] && Intact(e.after.db, a)
    requires e.after.db == e.before.db || (IsHeld(e.before.db, a.id) && GivesHelper(cfg, e.before.db, e.after.db, a.id))
    ensures Kept(cfg, e, starts, ends, robbed, overlapped)
  {
    var b, n := e.before, e.after;
    hide Consistent, NoOrphans, RowsStay, Intact;
    var o := overlapped || ActionOn(b.actions, a.id);
    assert ActionOn(b.actions, a.id) ==> Overlapping(e);
    Softer(b, starts, ends, robbed, overlapped, o);
    if n.db != b.db {
      HelperKept(cfg, b, n.db, a.id, starts, ends, robbed, o);
    }
    hide BooksOk, EndsOk, Overlapping, GivesHelper;
    BooksAdd(n.db, b.actions, starts, o, k, a);
    Softer(n, starts, ends, robbed, o, overlapped || Overlapping(e));
    PlainKept(cfg, e, starts, ends, robbed, overlapped);
  }

  lemma HelperKept(cfg: Config, b: View, n: Db, id: nat, starts: seq<Start>, ends: seq<End>, robbed: bool, overlapped: bool)
    requires Consistent(cfg, b.db) && BooksOk(b.db, b.actions, starts, overlapped) && EndsOk(b.db, ends, robbed, overlapped)
    requires IsHeld(b.db, id) && GivesHelper(cfg, b.db, n, id) && (overlapped || !ActionOn(b.actions, id))
    ensures Consistent(cfg, n) && BooksOk(n, b.actions, starts, overlapped) && EndsOk(n, ends, robbed, overlapped)
  {
    hide Consistent, NoOrphans, RowsStay, ListsOwned, Free;
    var a :| Allocatable(cfg, b.db, a) && n == HelperSet(b.db, id, Some(a.helperVmid), Some(a.mgmtIp));
    var owned :| ListsOwned(b.db, owned) && Free(cfg, owned, a);
    HelperSetKeeps(cfg, b.db, owned, id, a);
    BooksCarry(b.db, n, id, b.actions, starts, overlapped);
    EndsSame(b.db, n, ends, robbed, overlapped);
  }

  lemma EndKept(cfg: Config, e: Event, starts: seq<Start>, ends: seq<End>, robbed: bool, overlapped: bool, k: nat, passed: bool, fate: Fate)
    requires Ready(cfg, e, starts, ends, robbed, overlapped) && e.what == ByWeb(EndAction(k, passed, fate))
    requires k in e.before.actions && Settled(e.before.db, e.before.actions[k].id)
    ensures Kept(cfg, e, starts, ends, robbed, overlapped)
  {
    var b, n, a := e.before, e.after, e.before.actions[k];
    var end := EndOf(b.db, e.guests, a, passed, fate);
    EndTables(cfg, b.db, e.guests, a, passed, fate);
    if !overlapped {
      IntactIsHarmless(cfg, b.db, a, end, fate);
    }
    assert EndsOf(e) == [end] && StartsOf(e) == [] && n.db == AfterEnd(b.db, a, passed) && n.actions == b.actions - {k};
    hide *;
    EndBooks(b.db, n.db, b.actions, k, starts, overlapped);
    EndsMore(b.db, n.db, ends, robbed, overlapped, end);
    Softer(n, starts, ends + [end], robbed || Robs(end), overlapped, overlapped || Overlapping(e));
    EndedKept(cfg, e, starts, ends, robbed, overlapped, end);
  }

  lemma EndBooks(db: Db, n: Db, actions: map<nat, Action>, k: nat, starts: seq<Start>, overlapped: bool)
    requires BooksOk(db, actions, starts, overlapped) && k in actions && RowsStay(db, n, actions[k].id)
    requires Settled(db, actions[k].id) && Settled(n, actions[k].id)
    requires n.runs[actions[k].id].env.restoreVmid == db.runs[actions[k].id].env.restoreVmid
    ensures BooksOk(n, actions - {k}, starts, overlapped)
  {
    BooksDrop(db, actions, starts, overlapped, k);
    hide RowsStay;
    BooksCarry(db, n, actions[k].id, actions - {k}, starts, overlapped);
  }

  lemma StartKept(cfg: Config, e: Event, starts: seq<Start>, ends: seq<End>, robbed: bool, overlapped: bool, id: nat, a: Allocation)
    requires Ready(cfg, e, starts, ends, robbed, overlapped) && e.what == Starting(id, a)
    ensures Kept(cfg, e, starts, ends, robbed, overlapped)
  {
    hide RowsOk, EnvsOk, OneRunning, NoOrphans, RowsStay, ListsOwned, Free, NoneRunning;
    var b, n := e.before, e.after;
    var owned :| ListsOwned(b.db, owned) && Free(cfg, owned, a);
    StartedKeeps(cfg, b.db, owned, id, a);
    MoreStarts(b.db, b.actions, starts, overlapped, Start(b.db, id));
    BooksCarry(b.db, n.db, id, b.actions, starts + [Start(b.db, id)], overlapped);
    EndsSame(b.db, n.db, ends, robbed, overlapped);
    assert ends + [] == ends;
  }

  /** A queued or running run is recorded: no action on a held run is on it, and a
      recovery is overtaken. */
  lemma RecordKept(cfg: Config, e: Event, starts: seq<Start>, ends: seq<End>, robbed: bool, overlapped: bool, id: nat, result: Status, status: Status)
    requires Ready(cfg, e, starts, ends, robbed, overlapped) && e.what == Recording(id, result, status)
    ensures Kept(cfg, e, starts, ends, robbed, overlapped)
  {
    var b, n := e.before, e.after;
    assert RowOk(b.db.tests, id, b.db.runs[id]);
    hide Consistent, NoOrphans, RowsStay;
    var o := overlapped || Overlapping(e);
    Softer(b, starts, ends, robbed, overlapped, o);
    RecordedKeeps(cfg, b.db, id, result, status);
    BooksCarry(b.db, n.db, id, b.actions, starts, o);
    EndsSame(b.db, n.db, ends, robbed, o);
    PlainKept(cfg, e, starts, ends, robbed, overlapped);
  }

  lemma ClearKept(cfg: Config, e: Event, starts: seq<Start>, ends: seq<End>, robbed: bool, overlapped: bool, id: nat)
    requires Ready(cfg, e, starts, ends, robbed, overlapped) && e.what == Clearing(id)
    ensures Kept(cfg, e, starts, ends, robbed, overlapped)
  {
    var b, n := e.before, e.after;
    hide Consistent, NoOrphans, RowsStay;
    var o := overlapped || Overlapping(e);
    Softer(b, starts, ends, robbed, overlapped, o);
    HelperClearedKeeps(cfg, b.db, id);
    BooksCarry(b.db, n.db, id, b.actions, starts, o);
    EndsSame(b.db, n.db, ends, robbed, o);
    PlainKept(cfg, e, starts, ends, robbed, overlapped);
  }

  lemma LateKept(cfg: Config, e: Event, starts: seq<Start>, ends: seq<End>, robbed: bool, overlapped: bool)
    requires Ready(cfg, e, starts, ends, robbed, overlapped) && e.what.Late?
    ensures Kept(cfg, e, starts, ends, robbed, overlapped)
  {
    var b, n, id := e.before, e.after, e.what.id;
    LateExact(cfg, b.db, id, e.what.result, e.what.hold);
    var end := EndsOf(e)[0];
    assert EndsOf(e) == [end] && StartsOf(e) == [] && Overlapping(e) && (NoOrphans(n.db) <==> NoOrphans(b.db) && !Doubles(end));
    assert EnvsOk(cfg, n.db) <==> !Clashes(e);
    hide *;
    LateBooks(cfg, b, n, id, starts, overlapped);
    Softer(b, starts, ends, robbed, overlapped, true);
    EndsMore(b.db, n.db, ends, robbed, true, end);
    LatePut(cfg, e, starts, ends, robbed, overlapped, end);
  }

  lemma LatePut(cfg: Config, e: Event, starts: seq<Start>, ends: seq<End>, robbed: bool, overlapped: bool, end: End)
    requires (EnvsOk(cfg, e.after.db) <==> !Clashes(e)) && RowsOk(e.after.db) && OneRunning(e.after.db)
    requires Overlapping(e) && StartsOf(e) == [] && EndsOf(e) == [end]
    requires BooksOk(e.after.db, e.after.actions, starts, true) && EndsOk(e.after.db, ends + [end], robbed || Robs(end), true)
    ensures Kept(cfg, e, starts, ends, robbed, overlapped)
  {
    hide BooksOk, EndsOk, Robs, Overlapping, RowsOk, EnvsOk, OneRunning, NoneRobs, Clashes;
    assert starts + [] == starts;
    OneRobs(end);
  }

  lemma LateBooks(cfg: Config, b: View, n: View, id: nat, starts: seq<Start>, overlapped: bool)
    requires BooksOk(b.db, b.actions, starts, overlapped) && RowsStay(b.db, n.db, id) && n.actions == b.actions
    requires Settled(b.db, id) && Settled(n.db, id) && SameVm(b.db.runs[id].env, n.db.runs[id].env)
    ensures BooksOk(n.db, n.actions, starts, true)
  {
    hide RowsStay;
    BooksCarry(b.db, n.db, id, b.actions, starts, true);
  }

  lemma SkipKept(cfg: Config, e: Event, starts: seq<Start>, ends: seq<End>, robbed: bool, overlapped: bool)
    requires Ready(cfg, e, starts, ends, robbed, overlapped) && e.what.ByWeb? && EndsOf(e) == []
    requires e.after.db == e.before.db && (e.after.actions == e.before.actions || exists k :: e.after.actions == e.before.actions - {k})
    ensures Kept(cfg, e, starts, ends, robbed, overlapped)
  {
    hide Consistent, NoOrphans, Overlapping, EndsOf;
    if e.after.actions != e.before.actions {
      var k :| e.after.actions == e.before.actions - {k};
      BooksDrop(e.before.db, e.before.actions, starts, overlapped, k);
    }
    Softer(e.after, starts, ends, robbed, overlapped, overlapped || Overlapping(e));
    PlainKept(cfg, e, starts, ends, robbed, overlapped);
  }

  lemma WebKept(cfg: Config, e: Event, starts: seq<Start>, ends: seq<End>, robbed: bool, overlapped: bool)
    requires Ready(cfg, e, starts, ends, robbed, overlapped) && e.what.ByWeb?
    ensures Kept(cfg, e, starts, ends, robbed, overlapped)
  {
    hide Consistent, BooksOk, EndsOk, Overlapping, NeverPassedAndIdle, GivesHelper, CanAllocate, Kept;
    var b, n := e.before, e.after;
    if n.db == b.db && n.actions == b.actions && EndsOf(e) == [] {
      SkipKept(cfg, e, starts, ends, robbed, overlapped);
    } else {
      match e.what.web
      case Create(vm, now) =>
        var id :| id !in b.db.runs && n.db == Created(b.db, id, vm, now);
        CreateKept(cfg, e, starts, ends, robbed, overlapped, id, vm, now);
      case EnqueueIfNeverPassed(vm, now) =>
        var id :| id !in b.db.runs && n.db == Created(b.db, id, vm, now);
        CreateKept(cfg, e, starts, ends, robbed, overlapped, id, vm, now);
      case Delete(id) => DeleteKept(cfg, e, starts, ends, robbed, overlapped, id);
      case Cancel(id) => FlagKept(cfg, e, starts, ends, robbed, overlapped, id);
      case Reorder(ids) => ReorderKept(cfg, e, starts, ends, robbed, overlapped, ids);
      case BeginHeld(k, id, kind, _) =>
        BegunIntact(cfg, b, n, k, id, kind);
        BeginKept(cfg, e, starts, ends, robbed, overlapped, k, n.actions[k]);
      case BeginRecovery(k, id, _, _) =>
        BeginKept(cfg, e, starts, ends, robbed, overlapped, k, n.actions[k]);
      case EndAction(k, passed, fate) => EndKept(cfg, e, starts, ends, robbed, overlapped, k, passed, fate);
      case Abandon(k) => SkipKept(cfg, e, starts, ends, robbed, overlapped);
    }
  }

  lemma BegunIntact(cfg: Config, b: View, n: View, k: nat, id: nat, kind: Kind)
    requires IsHeld(b.db, id) && kind != Recovering && Begins(b, n, k, id, kind)
    requires n.db == b.db || GivesHelper(cfg, b.db, n.db, id)
    ensures n.actions[k].id == id && Intact(n.db, n.actions[k])
  {
  }

  /** Every step keeps the tables consistent, but for a late hold that clashes; it keeps the
      books, and does harm only if an end in it does. */
  lemma StepKeeps(cfg: Config, e: Event, starts: seq<Start>, ends: seq<End>, robbed: bool, overlapped: bool)
    requires Ready(cfg, e, starts, ends, robbed, overlapped)
    ensures Kept(cfg, e, starts, ends, robbed, overlapped)
  {
    hide Consistent, BooksOk, EndsOk, Overlapping, WebOk, Kept;
    match e.what
    case ByWeb(_) => WebKept(cfg, e, starts, ends, robbed, overlapped);
    case Starting(id, a) => StartKept(cfg, e, starts, ends, robbed, overlapped, id, a);
    case Recording(id, result, status) => RecordKept(cfg, e, starts, ends, robbed, overlapped, id, result, status);
    case Clearing(id) => ClearKept(cfg, e, starts, ends, robbed, overlapped, id);
    case Cancelling(id) => FlagKept(cfg, e, starts, ends, robbed, overlapped, id);
    case Late(_, _, _, _, _) => LateKept(cfg, e, starts, ends, robbed, overlapped);
  }

  // ---- the log ---------------------------------------------------------------------------

  ghost function StartsIn(log: seq<Event>): seq<Start> {
    if log == [] then [] else StartsIn(log[..|log| - 1]) + StartsOf(log[|log| - 1])
  }

  ghost function EndsIn(log: seq<Event>): seq<End> {
    if log == [] then [] else EndsIn(log[..|log| - 1]) + EndsOf(log[|log| - 1])
  }

  ghost function WebsIn(log: seq<Event>): seq<Web> {
    if log == [] then [] else WebsIn(log[..|log| - 1]) + WebsOf(log[|log| - 1])
  }

  ghost predicate Overlaps(log: seq<Event>) {
    exists k :: 0 <= k < |log| && Overlapping(log[k])
  }

  /** The state a log leads to. */
  ghost function After(log: seq<Event>): View {
    if log == [] then START else log[|log| - 1].after
  }

  /** Each step is one that can happen, and begins where the one before it left off. */
  ghost predicate IsLog(cfg: Config, log: seq<Event>) {
    forall k :: 0 <= k < |log| ==> StepOk(cfg, log[k]) && log[k].before == After(log[..k])
  }

  ghost predicate LogOk(cfg: Config, log: seq<Event>, v: View, robbed: bool) {
    && IsLog(cfg, log) && After(log) == v
    && BooksOk(v.db, v.actions, StartsIn(log), Overlaps(log)) && EndsOk(v.db, EndsIn(log), robbed, Overlaps(log))
  }

  lemma LogParts(log: seq<Event>, e: Event)
    ensures StartsIn(log + [e]) == StartsIn(log) + StartsOf(e) && EndsIn(log + [e]) == EndsIn(log) + EndsOf(e)
    ensures WebsIn(log + [e]) == WebsIn(log) + WebsOf(e)
    ensures Overlaps(log + [e]) <==> Overlaps(log) || Overlapping(e)
    ensures After(log + [e]) == e.after
  {
    var all := log + [e];
    assert all[..|log|] == log && all[|log|] == e && forall k :: 0 <= k < |log| ==> all[k] == log[k];
  }

  lemma LogMore(cfg: Config, log: seq<Event>, e: Event)
    requires IsLog(cfg, log) && StepOk(cfg, e) && e.before == After(log)
    ensures IsLog(cfg, log + [e])
  {
    hide StepOk;
    var all := log + [e];
    forall k | 0 <= k < |all| ensures StepOk(cfg, all[k]) && all[k].before == After(all[..k]) {
      if k < |log| {
        assert all[..k] == log[..k] && all[k] == log[k];
      } else {
        assert all[..k] == log;
      }
    }
  }

  /** One more step: the books stay in order, and so do the tables unless it clashes. */
  lemma LogStep(cfg: Config, log: seq<Event>, e: Event, robbed: bool)
    requires LogOk(cfg, log, e.before, robbed) && Consistent(cfg, e.before.db) && StepOk(cfg, e)
    ensures LogOk(cfg, log + [e], e.after, robbed || !NoneRobs(EndsOf(e)))
    ensures (Consistent(cfg, e.after.db) <==> !Clashes(e)) && RowsOk(e.after.db) && OneRunning(e.after.db)
    ensures StartsIn(log + [e]) == StartsIn(log) + StartsOf(e) && WebsIn(log + [e]) == WebsIn(log) + WebsOf(e)
    ensures log <= log + [e]
  {
    hide StepOk, BooksOk, EndsOk, Overlapping, Consistent, RowsOk, OneRunning, Clashes, NoneRobs;
    StepKeeps(cfg, e, StartsIn(log), EndsIn(log), robbed, Overlaps(log));
    LogParts(log, e);
    LogMore(cfg, log, e);
  }

  /** What has happened since `before`. */
  ghost predicate Grew(before: seq<Event>, after: seq<Event>) {
    before <= after
  }

  lemma GrewTrans(a: seq<Event>, b: seq<Event>, c: seq<Event>)
    requires Grew(a, b) && Grew(b, c)
    ensures Grew(a, c)
  {
  }

  /** The log has grown by steps that are no starts; of others these acts are in it. */
  ghost predicate Noted(before: seq<Event>, after: seq<Event>, webs: seq<Web>) {
    Grew(before, after) && StartsIn(after) == StartsIn(before) && WebsIn(after) == WebsIn(before) + webs
  }

  lemma NotedStep(log: seq<Event>, e: Event)
    requires !e.what.Starting?
    ensures Noted(log, log + [e], WebsOf(e))
  {
    LogParts(log, e);
    assert StartsIn(log) + [] == StartsIn(log);
  }

  lemma NotedNow(log: seq<Event>)
    ensures Noted(log, log, [])
  {
    assert WebsIn(log) + [] == WebsIn(log);
  }

  /** A step that ends no action: everything stays in order. */
  lemma PlainStep(cfg: Config, log: seq<Event>, e: Event, robbed: bool)
    requires LogOk(cfg, log, e.before, robbed) && Consistent(cfg, e.before.db) && StepOk(cfg, e)
    requires !e.what.Late? && (e.what.ByWeb? && e.what.web.EndAction? ==> e.after == e.before)
    ensures LogOk(cfg, log + [e], e.after, robbed) && Consistent(cfg, e.after.db)
    ensures StartsIn(log + [e]) == StartsIn(log) + StartsOf(e) && WebsIn(log + [e]) == WebsIn(log) + WebsOf(e)
    ensures !e.what.Starting? ==> Noted(log, log + [e], WebsOf(e))
  {
    assert EndsOf(e) == [] by {
      assert e.what.ByWeb? && e.what.web.EndAction? && e.what.web.k in e.before.actions ==> e.what.web.k in e.after.actions;
    }
    assert NoneRobs([]) && !Clashes(e);
    hide LogOk, StepOk, Consistent, NoneRobs, Clashes, Noted, RowsOk, OneRunning;
    LogStep(cfg, log, e, robbed);
    if !e.what.Starting? {
      NotedStep(log, e);
    }
  }

  /** The end of an action: harm is done only if it robs or doubles. */
  lemma EndStep(cfg: Config, log: seq<Event>, e: Event, robbed: bool, k: nat, passed: bool, fate: Fate)
    requires LogOk(cfg, log, e.before, robbed) && Consistent(cfg, e.before.db) && StepOk(cfg, e)
    requires e.what == ByWeb(EndAction(k, passed, fate)) && k in e.before.actions && Settled(e.before.db, e.before.actions[k].id)
    ensures LogOk(cfg, log + [e], e.after, robbed || Robs(EndOf(e.before.db, e.guests, e.before.actions[k], passed, fate)))
    ensures Consistent(cfg, e.after.db) && Noted(log, log + [e], [EndAction(k, passed, fate)])
  {
    assert EndsOf(e) == [EndOf(e.before.db, e.guests, e.before.actions[k], passed, fate)] && !Clashes(e);
    OneRobs(EndsOf(e)[0]);
    hide LogOk, StepOk, Consistent, NoneRobs, Clashes, Noted, Robs, RowsOk, OneRunning;
    LogStep(cfg, log, e, robbed);
    NotedStep(log, e);
  }

  /** A late record: the environments stay apart unless it clashes. */
  lemma LateStep(cfg: Config, log: seq<Event>, e: Event, robbed: bool, id: nat, result: Status, hold: bool, plan: Env, fate: Fate)
    requires LogOk(cfg, log, e.before, robbed) && Consistent(cfg, e.before.db) && StepOk(cfg, e)
    requires e.what == Late(id, result, hold, plan, fate)
    ensures LogOk(cfg, log + [e], e.after, robbed || Robs(EndsOf(e)[0])) && RowsOk(e.after.db) && OneRunning(e.after.db)
    ensures Consistent(cfg, e.after.db) <==> !(Holds(result, hold) && TakenOver(e.before.db, id))
    ensures (NoneRunning(e.before.db) ==> NoneRunning(e.after.db)) && e.after.db.runs.Keys == e.before.db.runs.Keys
    ensures Noted(log, log + [e], [])
  {
    LateFacts(cfg, e);
    hide *;
    OneRobs(EndsOf(e)[0]);
    LogStep(cfg, log, e, robbed);
    NotedStep(log, e);
  }

  lemma LateFacts(cfg: Config, e: Event)
    requires StepOk(cfg, e) && e.what.Late?
    ensures EndsOf(e) == [EndsOf(e)[0]] && WebsOf(e) == []
    ensures Clashes(e) <==> Holds(e.what.result, e.what.hold) && TakenOver(e.before.db, e.what.id)
    ensures (NoneRunning(e.before.db) ==> NoneRunning(e.after.db)) && e.after.db.runs.Keys == e.before.db.runs.Keys
  {
    hide TakenOver;
  }
}
