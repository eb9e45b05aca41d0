/** The rows of restore runs, the guests on the restore host and the actions in flight: who
    owns what, what may change under the worker's run, and what an action may do that looked
    at a run before others changed it (app/services/restore_worker.py,
    app/web/routes_restore.py). */
module Books {
  import opened Wrappers
  import opened Alloc
  import opened RestoreRuns
  import opened RestoreQueue

  // A guest on the restore host.
  datatype Guest = Guest(vmid: int, lxc: bool)

  // How the host operations of a teardown turn out: whether each destroy succeeds, and
  // after how many destroyed guests the sweep fails.
  datatype Fate = Fate(vm: bool, helper: bool, sweep: nat)

  // An action in flight, on a held run or to recover a running one: it looked at the run's
  // status and environment when it began, and does not look again.
  datatype Kind = Discarding | Promoting | Retesting | Recovering
  datatype Action = Action(id: nat, kind: Kind, plan: Env)

  // ---- ownership -------------------------------------------------------------------

  ghost predicate OwnedBy(db: Db, id: nat, vmid: int) {
    id in db.runs && Owns(db.runs[id]) && vmid in VmidsOf(db.runs[id].env)
  }

  ghost predicate OwnedByOther(db: Db, id: nat, vmid: int) {
    exists j :: j != id && OwnedBy(db, j, vmid)
  }

  /** The live runs' VMIDs (`owned_vmids`). */
  function OwnedVmids(db: Db): set<int> {
    set id, v | id in db.runs && Owns(db.runs[id]) && v in VmidsOf(db.runs[id].env) :: v
  }

  /** A live run's VMIDs are its own. */
  lemma OwnedOnce(cfg: Config, db: Db, id: nat, vmid: int)
    requires Consistent(cfg, db) && OwnedBy(db, id, vmid)
    ensures forall j :: j != id ==> !OwnedBy(db, j, vmid)
  {
    forall j | j != id && j in db.runs && Owns(db.runs[j]) ensures vmid !in VmidsOf(db.runs[j].env) {
      assert Apart(db.runs[id].env, db.runs[j].env);
    }
  }

  lemma OwnedVmidsExact(db: Db)
    ensures forall v :: v in OwnedVmids(db) <==> exists id :: OwnedBy(db, id, v)
  {
    forall v | v in OwnedVmids(db) ensures exists id :: OwnedBy(db, id, v) {
      var id, w :| id in db.runs && Owns(db.runs[id]) && w in VmidsOf(db.runs[id].env) && w == v;
      assert OwnedBy(db, id, v);
    }
  }

  /** Is there a guest with this VMID on the host? */
  predicate Present(guests: set<Guest>, vmid: Option<int>) {
    exists g :: g in guests && Some(g.vmid) == vmid
  }

  /** The restored VM and its helper are on the host. */
  ghost predicate GuestsPresent(guests: set<Guest>, e: Env) {
    && e.restoreVmid.Some? && Guest(e.restoreVmid.value, false) in guests
    && e.helperVmid.Some? && Guest(e.helperVmid.value, true) in guests
  }

  // ---- what others may do to the worker's run -----------------------------------------

  ghost predicate IsRunning(db: Db, id: nat) {
    id in db.runs && db.runs[id].status == Running
  }

  /** Past the queue and the worker: held or ended. */
  ghost predicate Settled(db: Db, id: nat) {
    id in db.runs && db.runs[id].status != Queued && db.runs[id].status != Running
  }

  /** The VM and the VLAN an environment was set up with. */
  predicate SameVm(e: Env, f: Env) {
    e.restoreVmid == f.restoreVmid && e.vlanTag == f.vlanTag
  }

  /** The running run is at most flagged for cancellation, and what is settled stays so,
      with its VM and VLAN on record. */
  ghost predicate Undisturbed(before: Db, after: Db) {
    && (forall id :: IsRunning(before, id) <==> IsRunning(after, id))
    && (forall id :: IsRunning(before, id) ==>
          && after.runs[id] == before.runs[id].(cancelRequested := after.runs[id].cancelRequested)
          && (before.runs[id].cancelRequested ==> after.runs[id].cancelRequested))
    && (forall id :: Settled(before, id) ==> Settled(after, id) && SameVm(before.runs[id].env, after.runs[id].env))
  }

  lemma UndisturbedTrans(a: Db, b: Db, c: Db)
    requires Undisturbed(a, b) && Undisturbed(b, c)
    ensures Undisturbed(a, c)
  {
    forall id | IsRunning(a, id)
      ensures c.runs[id] == a.runs[id].(cancelRequested := c.runs[id].cancelRequested)
      ensures a.runs[id].cancelRequested ==> c.runs[id].cancelRequested
    {
      assert IsRunning(b, id);
    }
    forall id ensures IsRunning(a, id) <==> IsRunning(c, id) {
      assert IsRunning(a, id) <==> IsRunning(b, id);
    }
    forall id | Settled(a, id) ensures Settled(c, id) && SameVm(a.runs[id].env, c.runs[id].env) {
      assert Settled(b, id);
    }
  }

  lemma StaysUndisturbed(db: Db)
    ensures Undisturbed(db, db)
  {
    forall id | IsRunning(db, id) ensures db.runs[id] == db.runs[id].(cancelRequested := db.runs[id].cancelRequested) {}
  }

  /** No guest of a running run disappears. */
  ghost predicate GuestsStay(db: Db, before: set<Guest>, after: set<Guest>) {
    forall g, id :: g in before && IsRunning(db, id) && OwnedBy(db, id, g.vmid) ==> g in after
  }

  lemma GuestsStayTrans(a: Db, b: Db, first: set<Guest>, second: set<Guest>, third: set<Guest>)
    requires Undisturbed(a, b) && GuestsStay(a, first, second) && GuestsStay(b, second, third)
    ensures GuestsStay(a, first, third)
  {
    forall g, id | g in first && IsRunning(a, id) && OwnedBy(a, id, g.vmid) ensures g in third {
      assert IsRunning(b, id) && OwnedBy(b, id, g.vmid);
    }
  }

  lemma AllStay(db: Db, guests: set<Guest>)
    ensures forall more :: guests <= more ==> GuestsStay(db, guests, more)
  {
  }

  // ---- the queue as a measure -----------------------------------------------------------

  ghost function QueuedIds(db: Db): set<nat> {
    set id | id in db.runs && db.runs[id].status == Queued
  }

  lemma Sizes(a: set<nat>, b: set<nat>, x: nat)
    requires a <= b + {x}
    ensures |a| <= |b| + 1
    ensures a <= b ==> |a| <= |b|
    ensures a <= b && x in b && x !in a ==> |a| < |b|
  {
    if a <= b {
      assert b == a + (b - a);
      if x in b && x !in a {
        assert x in b - a;
      }
    } else {
      assert |b + {x}| <= |b| + 1;
      assert b + {x} == a + (b + {x} - a);
    }
  }

  predicate IsOutcome(s: Status) {
    s == Passed || s == Limited || s == Failed || s == Error || s == Cancelled
  }

  /** `not has_active_run()` */
  predicate NoneRunning'(db: Db)
    ensures NoneRunning'(db) <==> NoneRunning(db)
  {
    forall id :: id in db.runs ==> db.runs[id].status != Running
  }

  // ---- starts, actions and their ends ----------------------------------------------------

  // A run is started: which one, and the tables just before.
  datatype Start = Start(db: Db, id: nat)

  // The end of an action: tables and host just before, the guests it destroys if they
  // are there, and whether it records a result.
  datatype End = End(db: Db, guests: set<Guest>, id: nat, victims: set<Guest>, records: bool)

  /** The guests of an environment that a teardown succeeds in destroying. */
  function Victims(plan: Env, fate: Fate): set<Guest> {
    (if plan.restoreVmid.Some? && fate.vm then {Guest(plan.restoreVmid.value, false)} else {})
    + (if plan.helperVmid.Some? && fate.helper then {Guest(plan.helperVmid.value, true)} else {})
  }

  /** It destroys a guest that belongs to another live run. */
  ghost predicate Robs(e: End) {
    exists g :: g in e.victims && g in e.guests && OwnedByOther(e.db, e.id, g.vmid)
  }

  /** It documents a run that is documented already. */
  ghost predicate Doubles(e: End) {
    e.records && e.id in e.db.runs && e.db.runs[e.id].test.Some?
  }

  ghost predicate NoneDoubles(ends: seq<End>) {
    forall k :: 0 <= k < |ends| ==> !Doubles(ends[k])
  }

  ghost predicate NoneRobs(ends: seq<End>) {
    forall k :: 0 <= k < |ends| ==> !Robs(ends[k])
  }

  lemma NoneSnoc(ends: seq<End>, e: End)
    ensures NoneDoubles(ends + [e]) <==> NoneDoubles(ends) && !Doubles(e)
    ensures NoneRobs(ends + [e]) <==> NoneRobs(ends) && !Robs(e)
  {
    var all := ends + [e];
    assert all[|ends|] == e && forall k :: 0 <= k < |ends| ==> all[k] == ends[k];
  }

  /** The run is still as the action found or left it. */
  ghost predicate Intact(db: Db, a: Action) {
    && a.id in db.runs && db.runs[a.id].env == a.plan
    && db.runs[a.id].status == if a.kind == Recovering then Running else Held
  }

  /** An action on a held run is on a settled one ever after; one that recovers a run may
      see it end by itself. */
  ghost predicate Taken(db: Db, a: Action) {
    a.id in db.runs && db.runs[a.id].status != Queued && (a.kind != Recovering ==> Settled(db, a.id))
  }

  /** Ending an action harms nobody if the run is as it was. */
  lemma IntactIsHarmless(cfg: Config, db: Db, a: Action, e: End, fate: Fate)
    requires Consistent(cfg, db) && Intact(db, a) && Settled(db, a.id)
    requires e.db == db && e.id == a.id && e.victims <= Victims(a.plan, fate)
    ensures !Robs(e) && !Doubles(e)
  {
    assert RowOk(db.tests, a.id, db.runs[a.id]);
    hide Consistent;
    forall g | g in e.victims ensures forall j :: j != e.id ==> !OwnedBy(db, j, g.vmid) {
      assert OwnedBy(db, a.id, g.vmid);
      OwnedOnce(cfg, db, a.id, g.vmid);
    }
  }

  function StartedIds(starts: seq<Start>): set<nat> {
    set k | 0 <= k < |starts| :: starts[k].id
  }

  /** Every run that has an environment was started, no action is on a queued run, and
      unless two have overlapped, each run is as its action left it. */
  ghost predicate BooksOk(db: Db, actions: map<nat, Action>, starts: seq<Start>, overlapped: bool) {
    && (forall id :: id in db.runs && db.runs[id].env.restoreVmid.Some? ==> id in StartedIds(starts))
    && (forall k :: k in actions ==> Taken(db, actions[k]))
    && (!overlapped ==> forall k :: k in actions ==> Intact(db, actions[k]))
    && (!overlapped ==> forall k, l :: k in actions && l in actions && actions[k].id == actions[l].id ==> k == l)
  }

  /** Tests are in order exactly as long as no action has documented a run twice. */
  ghost predicate EndsOk(db: Db, ends: seq<End>, robbed: bool, overlapped: bool) {
    && (NoOrphans(db) <==> NoneDoubles(ends)) && (robbed <==> !NoneRobs(ends))
    && (!overlapped ==> NoneDoubles(ends) && NoneRobs(ends))
  }

  /** Is an action in flight on this run? */
  ghost predicate ActionOn(actions: map<nat, Action>, id: nat) {
    exists k :: k in actions && actions[k].id == id
  }

  /** A transaction on row `id` keeps the books, if it suits the actions on that run. */
  lemma BooksCarry(db: Db, n: Db, id: nat, actions: map<nat, Action>, starts: seq<Start>, overlapped: bool)
    requires BooksOk(db, actions, starts, overlapped) && RowsStay(db, n, id)
    requires id in n.runs && n.runs[id].env.restoreVmid.Some? ==>
      id in StartedIds(starts) || (id in db.runs && db.runs[id].env.restoreVmid.Some?)
    requires forall k :: k in actions && actions[k].id == id ==> Taken(n, actions[k]) && (overlapped || Intact(n, actions[k]))
    ensures BooksOk(n, actions, starts, overlapped)
  {
    forall i | i != id && i in db.runs ensures i in n.runs && SameRow(db.runs[i], n.runs[i]) {}
  }

  // ---- the transactions, seen from the worker ---------------------------------------------

  lemma CreatedUndisturbed(db: Db, id: nat, vm: int, now: int)
    requires forall i :: i in db.runs ==> i < id
    ensures Undisturbed(db, Created(db, id, vm, now)) && QueuedIds(Created(db, id, vm, now)) == QueuedIds(db) + {id}
  {
  }

  lemma DeletedUndisturbed(db: Db, id: nat)
    ensures Undisturbed(db, Deleted(db, id)) && QueuedIds(Deleted(db, id)) == QueuedIds(db) - {id}
  {
  }

  lemma CancelUndisturbed(db: Db, id: nat)
    ensures Undisturbed(db, CancelRequested(db, id)) && QueuedIds(CancelRequested(db, id)) == QueuedIds(db)
  {
  }

  lemma HelperUndisturbed(db: Db, id: nat, helper: Option<int>, ip: Option<int>)
    ensures QueuedIds(HelperSet(db, id, helper, ip)) == QueuedIds(db)
    ensures Settled(db, id) ==> Undisturbed(db, HelperSet(db, id, helper, ip))
  {
  }

  lemma RecordUndisturbed(db: Db, id: nat, result: Status)
    requires Settled(db, id) && !Live(result)
    ensures var n := Recorded(db, id, db.runs[id].vm, result, result);
      Undisturbed(db, n) && QueuedIds(n) == QueuedIds(db) && Settled(n, id) && SameVm(db.runs[id].env, n.runs[id].env)
  {
  }

  lemma ReorderUndisturbed(cfg: Config, db: Db, ids: seq<nat>)
    requires Consistent(cfg, db)
    ensures Undisturbed(db, Reordered(db, ids)) && QueuedIds(Reordered(db, ids)) == QueuedIds(db)
  {
    hide Consistent;
    var n := Reordered(db, ids);
    ReorderedKeeps(cfg, db, ids);
    forall id ensures (id in n.runs <==> id in db.runs) && (IsRunning(db, id) ==> n.runs[id] == db.runs[id])
      && (id in db.runs ==> n.runs[id].status == db.runs[id].status)
    {
      ReorderedRows(db, ids, id);
    }
  }

  /** The running run is recorded: consistent again, and nothing is running. */
  lemma FinishedKeeps(cfg: Config, db: Db, id: nat, result: Status, status: Status)
    requires Consistent(cfg, db) && IsRunning(db, id) && IsOutcome(result)
    requires status == result || (status == Held && (result == Failed || result == Error))
    ensures var n := Recorded(db, id, db.runs[id].vm, result, status);
      && Consistent(cfg, n) && NoneRunning(n) && id in n.runs && n.runs[id].status == status && n.runs[id].env == db.runs[id].env
      && QueuedIds(n) == QueuedIds(db) && RowsStay(db, n, id) && (NoOrphans(n) <==> NoOrphans(db))
  {
    assert RowOk(db.tests, id, db.runs[id]);
    hide RowsOk, EnvsOk, NoOrphans;
    RecordedKeeps(cfg, db, id, result, status);
    NoneLeftRunning(db, id, result, status);
  }

  lemma NoneLeftRunning(db: Db, id: nat, result: Status, status: Status)
    requires OneRunning(db) && IsRunning(db, id) && status != Running && status != Queued
    ensures var n := Recorded(db, id, db.runs[id].vm, result, status); NoneRunning(n) && QueuedIds(n) == QueuedIds(db)
  {
    var n := Recorded(db, id, db.runs[id].vm, result, status);
    forall i | i in n.runs ensures n.runs[i].status != Running {
      if i != id {
        assert db.runs[i].status == Running ==> i == id;
      }
    }
  }

  // ---- how an action ends ---------------------------------------------------------------

  /** What is destroyed and whether a result is recorded: a re-test that did not pass
      only gives its helper back. */
  function EndOf(db: Db, guests: set<Guest>, a: Action, passed: bool, fate: Fate): End {
    if a.kind == Retesting && !passed then End(db, guests, a.id, Victims(a.plan, fate.(vm := false)), false)
    else End(db, guests, a.id, Victims(a.plan, fate), true)
  }

  /** The result recorded: a recovered run is in error, a discarded one keeps its own
      result, if it has failed. */
  function EndResult(r: Run, kind: Kind): Status {
    if kind == Recovering then Error
    else if kind != Discarding then Passed
    else if r.result == Some(Failed) || r.result == Some(Error) then r.result.value
    else Failed
  }

  function AfterEnd(db: Db, a: Action, passed: bool): Db
    requires a.id in db.runs
  {
    var r := db.runs[a.id];
    if a.kind == Retesting && !passed then HelperSet(db, a.id, None, None)
    else Recorded(db, a.id, r.vm, EndResult(r, a.kind), EndResult(r, a.kind))
  }

  /** What an action leaves of its run: a recovered one is in error; a promoted one, or one that
      passed its re-test, is documented as passed; a discarded one is what it was held for; after
      a re-test that did not pass the run is as before, without its helper and address. */
  lemma EndMeans(db: Db, a: Action, passed: bool)
    requires a.id in db.runs
    ensures var r, after := db.runs[a.id], AfterEnd(db, a, passed);
      a.id in after.runs && var n := after.runs[a.id];
      && (a.kind == Recovering ==> n.status == Error && n.test.None? && after.tests == db.tests)
      && (a.kind == Promoting || (a.kind == Retesting && passed) ==>
            n.status == Passed && after.tests == db.tests + [Test(r.vm, Passed, a.id)] && n.test == Some(|db.tests|))
      && (a.kind == Discarding ==> after.tests == db.tests && n.test.None?)
      && (a.kind == Discarding ==> Some(n.status) == if r.result == Some(Error) then Some(Error) else Some(Failed))
      && (a.kind == Retesting && !passed ==> after.tests == db.tests && n == r.(env := HeldEnv(r.env)))
      && (!(a.kind == Retesting && !passed) ==> n.result == Some(n.status) && n.env == r.env && n.vm == r.vm)
      && forall id :: id in db.runs && id != a.id ==> id in after.runs && after.runs[id] == db.runs[id]
  {
  }

  /** The end of an action keeps the tables consistent whatever has happened to the run. */
  lemma EndTables(cfg: Config, db: Db, guests: set<Guest>, a: Action, passed: bool, fate: Fate)
    requires Consistent(cfg, db) && Settled(db, a.id)
    ensures var n, e := AfterEnd(db, a, passed), EndOf(db, guests, a, passed, fate);
      && Consistent(cfg, n) && RowsStay(db, n, a.id) && Settled(n, a.id) && (NoOrphans(n) <==> NoOrphans(db) && !Doubles(e))
      && Undisturbed(db, n) && QueuedIds(n) == QueuedIds(db) && n.runs.Keys == db.runs.Keys
      && n.runs[a.id].env.restoreVmid == db.runs[a.id].env.restoreVmid
  {
    hide Consistent, RowsStay, NoOrphans, Undisturbed, QueuedIds;
    var result := EndResult(db.runs[a.id], a.kind);
    if a.kind == Retesting && !passed {
      HelperClearedKeeps(cfg, db, a.id);
      HelperUndisturbed(db, a.id, None, None);
    } else {
      RecordedKeeps(cfg, db, a.id, result, result);
      RecordUndisturbed(db, a.id, result);
    }
  }

  /** Whoever is not robbed keeps its guests. */
  lemma NotRobbed(db: Db, before: set<Guest>, after: set<Guest>, e: End)
    requires Settled(db, e.id) && e.db == db && e.guests == before && !Robs(e)
    requires forall g :: g in before - after ==> g in e.victims || forall j :: !OwnedBy(db, j, g.vmid)
    ensures GuestsStay(db, before, after)
  {
    forall g, j | g in before && IsRunning(db, j) && OwnedBy(db, j, g.vmid) ensures g in after {
      assert j != e.id && OwnedByOther(db, e.id, g.vmid);
    }
  }

  // ---- allocating ----------------------------------------------------------------------------

  ghost predicate Allocatable(cfg: Config, db: Db, a: Allocation) {
    exists owned :: ListsOwned(db, owned) && Free(cfg, owned, a)
  }

  /** Is there a free environment at all? */
  ghost predicate CanAllocate(cfg: Config, db: Db) {
    exists a :: Allocatable(cfg, db, a)
  }

  /** Whoever lists the owned rows finds the same values free. */
  lemma FreeSame(cfg: Config, db: Db, first: seq<Env>, second: seq<Env>, a: Allocation)
    requires ListsOwned(db, first) && ListsOwned(db, second) && Free(cfg, first, a)
    ensures Free(cfg, second, a)
  {
    forall e | e in second ensures e in first {
      var id :| id in db.runs && Owns(db.runs[id]) && db.runs[id].env == e;
    }
    assert forall k :: 0 <= k < |second| ==> second[k] in second;
  }

  lemma AllocationFound(cfg: Config, db: Db, owned: seq<Env>, a: Option<Allocation>)
    requires ListsOwned(db, owned) && (a.None? <==> !exists b :: Free(cfg, owned, b)) && (a.Some? ==> Free(cfg, owned, a.value))
    ensures a.Some? ==> Allocatable(cfg, db, a.value)
    ensures CanAllocate(cfg, db) <==> a.Some?
  {
    if CanAllocate(cfg, db) {
      var b :| Allocatable(cfg, db, b);
      var other :| ListsOwned(db, other) && Free(cfg, other, b);
      FreeSame(cfg, db, other, owned, b);
    }
  }

  /** A re-test takes two values nobody has. */
  ghost predicate IsFresh(cfg: Config, db: Db, helper: int, ip: int) {
    && cfg.vmidFrom <= helper <= cfg.vmidTo && cfg.ipFrom <= ip <= cfg.ipTo
    && forall j :: j in db.runs && Owns(db.runs[j]) ==> helper !in VmidsOf(db.runs[j].env) && db.runs[j].env.mgmtIp != Some(ip)
  }

  lemma AllocatableIsFresh(cfg: Config, db: Db, a: Allocation)
    requires Allocatable(cfg, db, a)
    ensures IsFresh(cfg, db, a.helperVmid, a.mgmtIp)
  {
    var owned :| ListsOwned(db, owned) && Free(cfg, owned, a);
    forall j | j in db.runs && Owns(db.runs[j])
      ensures a.helperVmid !in VmidsOf(db.runs[j].env) && db.runs[j].env.mgmtIp != Some(a.mgmtIp)
    {
      FreeIsApart(cfg, db, owned, a, j);
    }
  }

  // ---- a worker that comes late ----------------------------------------------------------

  lemma RestStays(before: Db, after: Db, id: nat)
    requires Undisturbed(before, after) && Settled(before, id)
    ensures Settled(after, id) && SameVm(before.runs[id].env, after.runs[id].env)
    ensures NoneRunning(before) ==> NoneRunning(after)
  {
    if NoneRunning(before) {
      forall i | i in after.runs ensures after.runs[i].status != Running {
        assert !IsRunning(before, i);
      }
    }
  }

  /** Does `_finalize` hold a run with this result? */
  predicate Holds(result: Status, hold: bool) {
    hold && (result == Failed || result == Error)
  }

  /** What a worker makes of its run that others have ended meanwhile: it does not look. */
  function LateDb(db: Db, id: nat, result: Status, hold: bool): Db
    requires id in db.runs
  {
    if Holds(result, hold) then HelperSet(Recorded(db, id, db.runs[id].vm, result, Held), id, None, None)
    else Recorded(db, id, db.runs[id].vm, result, result)
  }

  /** The environment a held run keeps. */
  function HeldEnv(e: Env): Env {
    e.(helperVmid := None, mgmtIp := None)
  }

  predicate VmInRange(cfg: Config, e: Env) {
    && e.restoreVmid.Some? && InRange(cfg.vmidFrom, cfg.vmidTo, e.restoreVmid)
    && e.vlanTag.Some? && InRange(cfg.vlanFrom, cfg.vlanTo, e.vlanTag)
  }

  /** The VM or the VLAN of the run is another live run's by now. */
  predicate TakenOver(db: Db, id: nat)
    requires id in db.runs
  {
    exists j :: j in db.runs && j != id && Owns(db.runs[j])
      && !(Apart(HeldEnv(db.runs[id].env), db.runs[j].env) && Apart(db.runs[j].env, HeldEnv(db.runs[id].env)))
  }

  /** Holding the run late leaves all live environments apart if and only if nobody has
      taken them over; everything else it keeps in any case. */
  lemma LateExact(cfg: Config, db: Db, id: nat, result: Status, hold: bool)
    requires Consistent(cfg, db) && Settled(db, id) && IsOutcome(result) && VmInRange(cfg, db.runs[id].env)
    ensures var n := LateDb(db, id, result, hold);
      && RowsStay(db, n, id) && Settled(n, id) && SameVm(db.runs[id].env, n.runs[id].env)
      && RowsOk(n) && OneRunning(n) && (EnvsOk(cfg, n) <==> !(Holds(result, hold) && TakenOver(db, id)))
      && (NoOrphans(n) <==> NoOrphans(db) && db.runs[id].test.None?)
  {
    hide NoOrphans;
    if !Holds(result, hold) {
      RecordedKeeps(cfg, db, id, result, result);
    } else {
      LateRows(db, id, result);
      LateEnvs(cfg, db, id, result);
    }
  }

  lemma LateRows(db: Db, id: nat, result: Status)
    requires RowsOk(db) && OneRunning(db) && Settled(db, id) && (result == Failed || result == Error)
    ensures var n := LateDb(db, id, result, true);
      RowsStay(db, n, id) && RowsOk(n) && OneRunning(n) && (NoOrphans(n) <==> NoOrphans(db) && db.runs[id].test.None?)
  {
    var held, n := Recorded(db, id, db.runs[id].vm, result, Held), LateDb(db, id, result, true);
    RecordedOrphans(db, id, result, Held);
    RowsStayOk(db, n, id);
    OrphansStay(held, n, id);
    forall i | i in n.runs && n.runs[i].status == Running ensures i in db.runs && db.runs[i].status == Running {}
  }

  lemma LateEnvs(cfg: Config, db: Db, id: nat, result: Status)
    requires EnvsOk(cfg, db) && Settled(db, id) && (result == Failed || result == Error) && VmInRange(cfg, db.runs[id].env)
    ensures EnvsOk(cfg, LateDb(db, id, result, true)) <==> !TakenOver(db, id)
  {
    var n := LateDb(db, id, result, true);
    assert n.runs[id].env == HeldEnv(db.runs[id].env) && EnvOk(cfg, n.runs[id]);
    assert forall i :: i != id && i in db.runs ==> n.runs[i] == db.runs[i];
  }
}
