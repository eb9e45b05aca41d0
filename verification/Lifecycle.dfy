/** Restore runs from start to end (app/services/restore_worker.py,
    app/services/restore_orchestrator.py, app/web/sync.py): one worker executes, resumes
    or recovers runs, while the web application creates, cancels, re-orders, re-tests,
    promotes and discards runs, and other threads look for stuck ones, between any two of
    its steps. Host operations succeed or fail as a script says; allocating and recording
    an environment is one step. */
module Lifecycle {
  import opened Wrappers
  import opened Alloc
  import opened RestoreRuns
  import opened RestoreQueue
  import opened Books
  import opened Steps
  import opened Script

  /** What is left of an environment on the host when its run has ended: nothing, if the
      host's answer let it go; of a held run's the helper goes. */
  ghost predicate CleanedUp(o: Outcome, e: Env, held: bool, guests: set<Guest>) {
    && (!held && o.fate.vm && e.restoreVmid.Some? ==> Guest(e.restoreVmid.value, false) !in guests)
    && (!held && o.fate.helper && e.helperVmid.Some? ==> Guest(e.helperVmid.value, true) !in guests)
    && (held && o.ok && e.helperVmid.Some? ==> Guest(e.helperVmid.value, true) !in guests)
  }

  /** The recorded result and status are in the log. */
  ghost predicate Records(log: seq<Event>, from: nat, id: nat, result: Status, status: Status) {
    exists k :: from <= k < |log| && log[k].what == Recording(id, result, status)
  }

  lemma RecordsStay(p: Point, q: Point, from: nat, id: nat, result: Status, status: Status)
    requires Records(p.log, from, id, result, status) && Goes(p, q)
    ensures Records(q.log, from, id, result, status)
  {
    var k :| from <= k < |p.log| && p.log[k].what == Recording(id, result, status);
    assert q.log[k] == p.log[k];
  }

  lemma RecordsLast(start: Point, p: Point, e: Event, id: nat, result: Status, status: Status)
    requires e.what == Recording(id, result, status) && Goes(start, p)
    ensures Records(p.log + [e], |start.log|, id, result, status)
  {
    assert (p.log + [e])[|p.log|] == e;
  }

  lemma RowIsOk(cfg: Config, db: Db, id: nat)
    requires Consistent(cfg, db) && id in db.runs
    ensures db.runs[id].test.Some? <==> db.runs[id].status == Passed || db.runs[id].status == Limited
  {
    hide EnvsOk, OneRunning;
    assert RowOk(db.tests, id, db.runs[id]);
  }

  // A moment: the tables, what has happened and what is still to happen.
  datatype Point = Point(db: Db, log: seq<Event>, script: seq<Step>, robbed: bool)

  /** Is run `id` to be cancelled? */
  ghost predicate Asked(p: Point, id: nat) {
    id in p.db.runs && p.db.runs[id].cancelRequested
  }

  /** Since `start` the worker has had `n` answers, and run `id` is to be cancelled if it was
      then or somebody has asked for it since. */
  ghost predicate Told(start: Point, id: nat, n: nat, now: Point) {
    now.script == Left(start.script, n) && (Asked(now, id) <==> Stopped(Asked(start, id), start.script, id, n))
  }

  lemma ToldNow(p: Point, id: nat)
    ensures Told(p, id, 0, p)
  {
  }

  lemma ToldParts(start: Point, id: nat, n: nat, now: Point)
    requires Told(start, id, n, now)
    ensures now.script == Left(start.script, n) && (Asked(now, id) <==> Stopped(Asked(start, id), start.script, id, n))
  {
  }

  lemma AfterLeft(script: seq<Step>, n: nat)
    ensures Left(script, n + 1) == RestOf(Left(script, n)) && Ahead(script, n) == NextAnswer(Left(script, n))
  {
  }

  lemma ToldNext(start: Point, id: nat, n: nat, now: Point, next: Point)
    requires Told(start, id, n, now) && IsRunning(now.db, id)
    requires next.script == RestOf(now.script) && Flagged(now.db, next.db, Script.Before(now.script))
    ensures Told(start, id, n + 1, next) && NextAnswer(now.script) == Ahead(start.script, n)
  {
  }

  /** From one moment to a later one: no run was started, and of what others were to do,
      the first part has happened. */
  ghost predicate Goes(p: Point, q: Point) {
    && Grew(p.log, q.log) && StartsIn(q.log) == StartsIn(p.log)
    && WebsIn(q.log) + Webs(q.script) == WebsIn(p.log) + Webs(p.script) && (p.robbed ==> q.robbed)
  }

  /** .. and the running run was left alone. */
  ghost predicate Since(p: Point, q: Point) {
    Undisturbed(p.db, q.db) && Goes(p, q)
  }

  lemma GoesTrans(p: Point, q: Point, r: Point)
    requires Goes(p, q) && Goes(q, r)
    ensures Goes(p, r)
  {
    GrewTrans(p.log, q.log, r.log);
  }

  lemma SinceTrans(p: Point, q: Point, r: Point)
    requires Since(p, q) && Since(q, r)
    ensures Since(p, r)
  {
    hide Goes;
    UndisturbedTrans(p.db, q.db, r.db);
    GoesTrans(p, q, r);
  }

  lemma SinceNow(p: Point)
    ensures Since(p, p) && Goes(p, p)
  {
    StaysUndisturbed(p.db);
  }

  lemma SinceParts(p: Point, q: Point)
    requires Since(p, q)
    ensures Undisturbed(p.db, q.db) && Goes(p, q)
  {
  }

  lemma GoesNoted(p: Point, q: Point)
    requires Noted(p.log, q.log, []) && q.script == p.script && (p.robbed ==> q.robbed)
    ensures Goes(p, q)
  {
    assert WebsIn(p.log) + [] == WebsIn(p.log);
  }

  lemma GoesActed(p: Point, q: Point)
    requires p.script != [] && p.script[0].Acts? && q.script == p.script[1..]
    requires Noted(p.log, q.log, [p.script[0].web]) && (p.robbed ==> q.robbed)
    ensures Goes(p, q)
  {
  }

  lemma FlagNoted(cfg: Config, log: seq<Event>, v: View, robbed: bool)
    requires LogOk(cfg, log, v, robbed) && log != [] && log[|log| - 1].what.ByWeb? && log[|log| - 1].after == v
    ensures Flagged(log[|log| - 1].before.db, v.db, [log[|log| - 1].what.web])
  {
    var e := log[|log| - 1];
    assert StepOk(cfg, e);
    FlagStep(cfg, e.what.web, e.before, e.guests, e.after);
  }

  lemma GoesReturned(p: Point, q: Point)
    requires Goes(p, q) && q.script != [] && q.script[0].Returns?
    ensures forall db :: Goes(p, Point(db, q.log, q.script[1..], q.robbed))
  {
  }

  lemma GoesGrew(p: Point, q: Point)
    requires Goes(p, q)
    ensures Grew(p.log, q.log) && |p.log| <= |q.log| && StartsIn(q.log) == StartsIn(p.log) && WebsIn(q.log) + Webs(q.script) == WebsIn(p.log) + Webs(p.script)
  {
  }

  /** Only others have acted. */
  ghost predicate OnlyWebs(before: seq<Event>, after: seq<Event>) {
    before <= after && forall k :: |before| <= k < |after| ==> after[k].what.ByWeb?
  }

  lemma OnlyWebsMore(a: seq<Event>, b: seq<Event>, e: Event)
    requires OnlyWebs(a, b) && e.what.ByWeb?
    ensures OnlyWebs(a, b + [e])
  {
  }

  lemma OnlyWebsGrew(a: seq<Event>, b: seq<Event>)
    ensures OnlyWebs(a, a) && (OnlyWebs(a, b) ==> Grew(a, b))
  {
  }

  function StartEvent(v: View, guests: set<Guest>, id: nat, a: Allocation): Event {
    Event(Starting(id, a), v, guests, v.(db := Started(v.db, id, a)))
  }

  lemma StartingOk(cfg: Config, v: View, guests: set<Guest>, id: nat, a: Allocation, owned: seq<Env>)
    requires NoneRunning(v.db) && IsQueued(v.db, id) && ListsOwned(v.db, owned) && Free(cfg, owned, a)
    ensures StepOk(cfg, StartEvent(v, guests, id, a))
  {
    assert Allocatable(cfg, v.db, a);
  }

  lemma EndingOk(cfg: Config, v: View, guests: set<Guest>, k: nat, passed: bool, fate: Fate)
    requires k in v.actions && Settled(v.db, v.actions[k].id)
    ensures StepOk(cfg, Event(ByWeb(EndAction(k, passed, fate)), v, guests, View(AfterEnd(v.db, v.actions[k], passed), v.actions - {k})))
  {
  }

  function RecordEvent(v: View, guests: set<Guest>, id: nat, result: Status, status: Status): Event
    requires id in v.db.runs
  {
    Event(Recording(id, result, status), v, guests, v.(db := Recorded(v.db, id, v.db.runs[id].vm, result, status)))
  }

  lemma IdleOk(cfg: Config, v: View, guests: set<Guest>, k: nat, id: nat, kind: Kind, created: bool)
    ensures !IsHeld(v.db, id) || (kind == Retesting && !CanAllocate(cfg, v.db)) ==> WebOk(cfg, BeginHeld(k, id, kind, created), v, guests, v)
  {
  }

  lemma BegunOk(cfg: Config, v: View, guests: set<Guest>, k: nat, id: nat, kind: Kind, created: bool, n: Db)
    requires k !in v.actions && kind != Recovering && IsHeld(v.db, id) && (kind == Retesting ==> CanAllocate(cfg, v.db))
    requires if kind == Retesting then GivesHelper(cfg, v.db, n, id) else n == v.db
    ensures id in n.runs && n.runs.Keys == v.db.runs.Keys
    ensures WebOk(cfg, BeginHeld(k, id, kind, created), v, guests, View(n, v.actions[k := Action(id, kind, n.runs[id].env)]))
  {
  }

  lemma RecordingOk(cfg: Config, v: View, guests: set<Guest>, id: nat, result: Status, status: Status)
    requires id in v.db.runs && (v.db.runs[id].status == Queued || v.db.runs[id].status == Running) && IsOutcome(result)
    requires status == result || (status == Held && (result == Failed || result == Error) && v.db.runs[id].status == Running)
    ensures StepOk(cfg, RecordEvent(v, guests, id, result, status))
  {
  }

  /** The VM and the VLAN of a running run are in range. */
  lemma RunningVm(cfg: Config, db: Db, id: nat)
    requires Consistent(cfg, db) && IsRunning(db, id)
    ensures VmInRange(cfg, db.runs[id].env)
  {
    assert EnvOk(cfg, db.runs[id]);
  }

  /** The last step of an overtaken worker. */
  ghost predicate IsLate(e: Event, id: nat, result: Status, hold: bool, fate: Fate) {
    e.what.Late? && e.what.id == id && e.what.result == result && e.what.hold == hold && e.what.fate == fate
  }

  lemma EndedIsSettled(db: Db, id: nat)
    ensures id in db.runs && db.runs[id].status == Error ==> Settled(db, id)
  {
  }

  lemma StillInRange(cfg: Config, before: Db, after: Db, id: nat)
    requires Undisturbed(before, after) && Settled(before, id) && NoneRunning(before) && VmInRange(cfg, before.runs[id].env)
    ensures Settled(after, id) && NoneRunning(after) && VmInRange(cfg, after.runs[id].env)
  {
    hide Undisturbed, NoneRunning;
    RestStays(before, after, id);
  }

  class System {
    const cfg: Config
    var db: Db
    var guests: set<Guest>
    var nextId: nat
    var actions: map<nat, Action>
    var script: seq<Step>
    ghost var log: seq<Event>         // every transaction, whoever made it
    ghost var robbed: bool            // a live run has lost a guest to another's action
    ghost var workerKills: set<Guest> // guests the worker thread has destroyed

    ghost function V(): View reads this {
      View(db, actions)
    }

    /** The log is complete and says whether harm has been done. */
    ghost predicate Logged() reads this {
      (forall id :: id in db.runs ==> id < nextId) && LogOk(cfg, log, V(), robbed)
    }

    ghost predicate Valid() reads this {
      Consistent(cfg, db) && Logged()
    }

    /** Queued runs and things still to happen: every new run uses up one of the latter. */
    ghost function Work(): nat reads this {
      |QueuedIds(db)| + |script|
    }

    ghost function Now(): Point reads this {
      Point(db, log, script, robbed)
    }

    constructor (cfg: Config, guests: set<Guest>, script: seq<Step>)
      ensures Valid() && V() == START && log == [] && !robbed
      ensures this.cfg == cfg && this.guests == guests && this.script == script
    {
      this.cfg, this.guests, this.script := cfg, guests, script;
      db, nextId, actions := Db(map[], []), 0, map[];
      log, robbed, workerKills := [], false, {};
    }

    // ---- the host ------------------------------------------------------------------

    /** Destroying a guest. The worker, the reaper and a recovery may call this only for a
        guest that no other live run owns: a precondition, proved at every call. */
    method Destroy(g: Guest, ghost caller: Option<nat>, ghost byWorker: bool)
      requires forall j: nat :: OwnedBy(db, j, g.vmid) ==> caller == Some(j)
      modifies `guests, `workerKills
      ensures guests == old(guests) - {g}
      ensures workerKills == old(workerKills) + if byWorker then {g} else {}
    {
      guests := guests - {g};
      workerKills := workerKills + if byWorker then {g} else {};
    }

    /** An action destroys a guest by the VMID it noted when it began. */
    method DestroyNoted(g: Guest, ghost id: nat)
      modifies `guests, `robbed
      ensures guests == old(guests) - {g}
      ensures robbed <==> old(robbed) || (g in old(guests) && OwnedByOther(db, id, g.vmid))
    {
      hide OwnedByOther;
      robbed := robbed || (g in guests && OwnedByOther(db, id, g.vmid));
      guests := guests - {g};
    }

    /** `reap`: destroys every guest that no live run owns; fails after `failsAfter` of them. */
    method Reap(failsAfter: Option<nat>, ghost byWorker: bool)
      modifies `guests, `workerKills
      ensures guests <= old(guests)
      ensures forall g :: g in old(guests) - guests ==> forall id :: !OwnedBy(db, id, g.vmid)
      ensures failsAfter.None? ==> forall g :: g in guests ==> exists id :: OwnedBy(db, id, g.vmid)
      ensures !byWorker ==> workerKills == old(workerKills)
    {
      var owned := OwnedVmids(db);
      var targets := set g | g in guests && g.vmid !in owned;
      ghost var guests0 := guests;
      OwnedVmidsExact(db);
      var destroyed := 0;
      while targets != {} && (failsAfter.None? || destroyed < failsAfter.value)
        invariant targets <= guests <= guests0
        invariant forall g :: g in targets ==> g.vmid !in owned
        invariant forall g :: g in guests0 - guests ==> g.vmid !in owned
        invariant forall g :: g in guests && g.vmid !in owned ==> g in targets
        invariant !byWorker ==> workerKills == old(workerKills)
        decreases targets
      {
        var g :| g in targets;
        targets := targets - {g};
        Destroy(g, None, byWorker);
        destroyed := destroyed + 1;
      }
    }

    /** `_teardown` of run `id`'s own environment. */
    method Teardown(id: nat, fate: Fate, ghost byWorker: bool)
      requires Valid() && id in db.runs && Owns(db.runs[id])
      modifies `guests, `workerKills
      ensures guests <= old(guests)
      ensures forall o: Outcome :: o.fate == fate ==> CleanedUp(o, db.runs[id].env, false, guests)
      ensures forall g, j :: g in old(guests) - guests && OwnedBy(db, j, g.vmid) ==> j == id
      ensures !byWorker ==> workerKills == old(workerKills)
    {
      hide Consistent, LogOk;
      var e := db.runs[id].env;
      if e.restoreVmid.Some? && Guest(e.restoreVmid.value, false) in guests && fate.vm {
        OwnedOnce(cfg, db, id, e.restoreVmid.value);
        Destroy(Guest(e.restoreVmid.value, false), Some(id), byWorker);
      }
      if e.helperVmid.Some? && Guest(e.helperVmid.value, true) in guests && fate.helper {
        OwnedOnce(cfg, db, id, e.helperVmid.value);
        Destroy(Guest(e.helperVmid.value, true), Some(id), byWorker);
      }
      Reap(Some(fate.sweep), byWorker);
    }

    /** `_teardown` of the environment an action noted for run `id`. It robs another run
        exactly when one of the guests it finds there is that run's by now. */
    method TeardownNoted(id: nat, plan: Env, fate: Fate)
      modifies `guests, `robbed, `workerKills
      ensures guests <= old(guests) && workerKills == old(workerKills)
      ensures forall o: Outcome :: o.fate == fate ==> CleanedUp(o, plan, false, guests)
      ensures robbed <==> old(robbed) || Robs(End(db, old(guests), id, Victims(plan, fate), true))
      ensures forall g :: g in old(guests) - guests ==> g in Victims(plan, fate) || forall j :: !OwnedBy(db, j, g.vmid)
    {
      hide OwnedByOther;
      ghost var e := End(db, guests, id, Victims(plan, fate), true);
      if plan.restoreVmid.Some? && Guest(plan.restoreVmid.value, false) in guests && fate.vm {
        DestroyNoted(Guest(plan.restoreVmid.value, false), id);
      }
      if plan.helperVmid.Some? && Guest(plan.helperVmid.value, true) in guests && fate.helper {
        DestroyNoted(Guest(plan.helperVmid.value, true), id);
      }
      assert robbed <==> old(robbed) || Robs(e);
      Reap(Some(fate.sweep), false);
    }

    /** A re-test that did not pass gives the helper back that it noted. */
    method DropNoted(id: nat, plan: Env, fate: Fate, ghost records: bool)
      modifies `guests, `robbed
      ensures guests <= old(guests)
      ensures robbed <==> old(robbed) || Robs(End(db, old(guests), id, Victims(plan, fate.(vm := false)), records))
      ensures forall g :: g in old(guests) - guests ==> g in Victims(plan, fate.(vm := false))
    {
      hide OwnedByOther;
      if plan.helperVmid.Some? && fate.helper {
        DestroyNoted(Guest(plan.helperVmid.value, true), id);
      }
    }

    // ---- the tables ----------------------------------------------------------------

    method CreateRun(vm: int, now: int, ghost web: Web) returns (id: nat)
      requires Valid()
      requires web == Create(vm, now) || (web == EnqueueIfNeverPassed(vm, now) && NeverPassedAndIdle(db, vm))
      modifies `db, `nextId, `log
      ensures Valid() && id == old(nextId) && id !in old(db.runs) && db == Created(old(db), id, vm, now)
      ensures log == old(log) + [Event(ByWeb(web), old(V()), guests, V())] && Noted(old(log), log, [web])
    {
      hide Consistent, LogOk, NeverPassedAndIdle, Noted;
      id := nextId;
      ghost var e := Event(ByWeb(web), V(), guests, V().(db := Created(db, id, vm, now)));
      PlainStep(cfg, log, e, robbed);
      db, nextId, log := Created(db, id, vm, now), nextId + 1, log + [e];
    }

    /** `enqueue_if_never_passed`: it never gives a guest a second live run. */
    method EnqueueIfNever(vm: int, now: int) returns (id: Option<nat>)
      requires Valid()
      modifies `db, `nextId, `log
      ensures Valid()
      ensures id.Some? <==> forall i :: i in old(db.runs) && old(db.runs)[i].vm == vm ==>
        var r := old(db.runs)[i];
        r.status != Queued && r.status != Running && r.status != Held && r.result != Some(Passed)
      ensures id.Some? ==> id.value == old(nextId) && id.value !in old(db.runs) && db == Created(old(db), id.value, vm, now)
      ensures id.None? ==> db == old(db)
      ensures forall other :: OneLive(old(db), other) ==> OneLive(db, other)
      ensures log == old(log) + [Event(ByWeb(EnqueueIfNeverPassed(vm, now)), old(V()), guests, V())]
      ensures Noted(old(log), log, [EnqueueIfNeverPassed(vm, now)])
    {
      hide Consistent, LogOk, OneLive, Noted;
      if NeverPassedAndIdle(db, vm) {
        ghost var before := db;
        var i := CreateRun(vm, now, EnqueueIfNeverPassed(vm, now));
        forall other | OneLive(before, other) ensures OneLive(db, other) {
          CreatedOneLive(before, i, vm, now, other);
        }
        return Some(i);
      }
      Idle(EnqueueIfNeverPassed(vm, now));
      return None;
    }

    /** `active_and_held_runs` */
    method ActiveAndHeld() returns (owned: seq<Env>)
      ensures ListsOwned(db, owned)
    {
      owned := [];
      var left := db.runs.Keys;
      while left != {}
        invariant left <= db.runs.Keys
        invariant forall id :: id in db.runs && id !in left && Owns(db.runs[id]) ==> db.runs[id].env in owned
        invariant forall e :: e in owned ==> exists id :: id in db.runs && Owns(db.runs[id]) && db.runs[id].env == e
      {
        var id :| id in left;
        left := left - {id};
        if Owns(db.runs[id]) {
          owned := owned + [db.runs[id].env];
        }
      }
    }

    /** An act that finds nothing to do. */
    ghost method Idle(web: Web)
      requires Valid() && WebOk(cfg, web, V(), guests, V())
      modifies `log
      ensures Valid() && log == old(log) + [Event(ByWeb(web), V(), guests, V())] && Noted(old(log), log, [web])
    {
      hide Consistent, LogOk, WebOk, Noted;
      var e := Event(ByWeb(web), V(), guests, V());
      PlainStep(cfg, log, e, robbed);
      log := log + [e];
    }

    // ---- what the web application does ------------------------------------------------

    /** A held action begins, if the run is held: it notes the environment, and a re-test
        gives the run a fresh helper and address, if there are any. */
    method BeginHeldAction(k: nat, id: nat, kind: Kind, created: bool)
      requires Valid() && k !in actions && kind != Recovering
      modifies `db, `guests, `actions, `log
      ensures Valid() && Undisturbed(old(db), db) && QueuedIds(db) == QueuedIds(old(db)) && old(guests) <= guests
      ensures k in actions <==> IsHeld(old(db), id) && (kind == Retesting ==> CanAllocate(cfg, old(db)))
      ensures k in actions ==> id in db.runs && actions == old(actions)[k := Action(id, kind, db.runs[id].env)]
      ensures k in actions && kind == Retesting ==> GivesHelper(cfg, old(db), db, id)
      ensures k in actions && kind != Retesting ==> db == old(db)
      ensures k !in actions ==> db == old(db) && actions == old(actions)
      ensures log == old(log) + [Event(ByWeb(BeginHeld(k, id, kind, created)), old(V()), old(guests), V())]
      ensures Noted(old(log), log, [BeginHeld(k, id, kind, created)])
    {
      hide Consistent, LogOk, Undisturbed, QueuedIds, ListsOwned, Free, Noted, Allocatable, CanAllocate, WebOk;
      IdleOk(cfg, V(), guests, k, id, kind, created);
      StaysUndisturbed(db);
      var web := BeginHeld(k, id, kind, created);
      if id !in db.runs || db.runs[id].status != Held {
        Idle(web);
        return;
      }
      var n := db;
      if kind == Retesting {
        var owned := ActiveAndHeld();
        var a := Allocate(cfg, owned);
        AllocationFound(cfg, db, owned, a);
        if a.None? {
          Idle(web);
          return;
        }
        HelperUndisturbed(db, id, Some(a.value.helperVmid), Some(a.value.mgmtIp));
        n := HelperSet(db, id, Some(a.value.helperVmid), Some(a.value.mgmtIp));
        assert GivesHelper(cfg, db, n, id);
      }
      BegunOk(cfg, V(), guests, k, id, kind, created, n);
      ghost var guests0 := guests;
      if kind == Retesting && created {
        guests := guests + {Guest(n.runs[id].env.helperVmid.value, true)};
      }
      Begin(k, id, kind, n, web, guests0);
    }

    method Begin(k: nat, id: nat, kind: Kind, n: Db, ghost web: Web, ghost guests0: set<Guest>)
      requires Valid() && n.runs.Keys == db.runs.Keys && id in n.runs && !web.EndAction?
      requires WebOk(cfg, web, V(), guests0, View(n, actions[k := Action(id, kind, n.runs[id].env)]))
      modifies `db, `actions, `log
      ensures Valid() && V() == View(n, old(actions)[k := Action(id, kind, n.runs[id].env)])
      ensures log == old(log) + [Event(ByWeb(web), old(V()), guests0, V())] && Noted(old(log), log, [web])
    {
      hide Consistent, LogOk, Noted, WebOk;
      ghost var e := Event(ByWeb(web), V(), guests0, View(n, actions[k := Action(id, kind, n.runs[id].env)]));
      PlainStep(cfg, log, e, robbed);
      db, actions, log := n, actions[k := Action(id, kind, n.runs[id].env)], log + [e];
    }

    /** Another thread looks for stuck runs. */
    method BeginRecoveryAction(k: nat, id: nat, recent: bool, taskRunning: bool)
      requires Valid() && k !in actions
      modifies `actions, `log
      ensures Valid()
      ensures k in actions <==> LooksStuck(db, guests, id, recent, taskRunning)
      ensures log == old(log) + [Event(ByWeb(BeginRecovery(k, id, recent, taskRunning)), old(V()), guests, V())]
      ensures Noted(old(log), log, [BeginRecovery(k, id, recent, taskRunning)])
    {
      hide Consistent, LogOk, Noted;
      var web := BeginRecovery(k, id, recent, taskRunning);
      if id !in db.runs || db.runs[id].status != Running || recent || taskRunning || Present(guests, db.runs[id].env.restoreVmid) {
        Idle(web);
        return;
      }
      ghost var e := Event(ByWeb(web), V(), guests, View(db, actions[k := Action(id, Recovering, db.runs[id].env)]));
      PlainStep(cfg, log, e, robbed);
      actions, log := actions[k := Action(id, Recovering, db.runs[id].env)], log + [e];
    }

    /** An action ends, whatever has happened to the run since it began. */
    method EndActionNow(k: nat, passed: bool, fate: Fate)
      requires Valid() && k in actions && Settled(db, actions[k].id)
      modifies `db, `guests, `actions, `log, `robbed, `workerKills
      ensures Valid() && Undisturbed(old(db), db) && workerKills == old(workerKills) && QueuedIds(db) == QueuedIds(old(db))
      ensures actions == old(actions) - {k} && db == AfterEnd(old(db), old(actions)[k], passed)
      ensures robbed <==> old(robbed) || Robs(EndOf(old(db), old(guests), old(actions)[k], passed, fate))
      ensures !robbed ==> GuestsStay(old(db), old(guests), guests)
      ensures log == old(log) + [Event(ByWeb(EndAction(k, passed, fate)), old(V()), old(guests), V())]
      ensures Noted(old(log), log, [EndAction(k, passed, fate)])
    {
      hide Consistent, LogOk, Undisturbed, QueuedIds, Robs, GuestsStay, Noted, StepOk;
      var a := actions[k];
      EndingOk(cfg, V(), guests, k, passed, fate);
      ghost var db0, guests0, end := db, guests, EndOf(db, guests, a, passed, fate);
      ghost var e := Event(ByWeb(EndAction(k, passed, fate)), V(), guests, View(AfterEnd(db, a, passed), actions - {k}));
      EndTables(cfg, db, guests, a, passed, fate);
      EndStep(cfg, log, e, robbed, k, passed, fate);
      if a.kind == Retesting && !passed {
        DropNoted(a.id, a.plan, fate, false);
        db := HelperSet(db, a.id, None, None);
      } else {
        TeardownNoted(a.id, a.plan, fate);
        var result := EndResult(db.runs[a.id], a.kind);
        db := Recorded(db, a.id, db.runs[a.id].vm, result, result);
      }
      actions, log := actions - {k}, log + [e];
      if !robbed {
        NotRobbed(db0, guests0, guests, end);
      }
    }

    /** An action raises and is given up. */
    method AbandonAction(k: nat)
      requires Valid()
      modifies `actions, `log
      ensures Valid() && actions == old(actions) - {k}
      ensures log == old(log) + [Event(ByWeb(Abandon(k)), old(V()), guests, V())] && Noted(old(log), log, [Abandon(k)])
    {
      hide Consistent, LogOk, Noted;
      ghost var e := Event(ByWeb(Abandon(k)), V(), guests, View(db, actions - {k}));
      PlainStep(cfg, log, e, robbed);
      actions, log := actions - {k}, log + [e];
    }

    /** One act of others. A recovery that finds its run still running is ended by its own
        operations, not here. */
    method Act(a: Web)
      requires Valid()
      modifies `db, `guests, `nextId, `actions, `log, `robbed, `workerKills
      ensures Valid() && Undisturbed(old(db), db) && workerKills == old(workerKills)
      ensures QueuedIds(db) <= QueuedIds(old(db)) + {old(nextId)}
      ensures (old(robbed) ==> robbed) && (!robbed ==> GuestsStay(old(db), old(guests), guests))
      ensures log == old(log) + [Event(ByWeb(a), old(V()), old(guests), V())] && Noted(old(log), log, [a])
    {
      hide Consistent, LogOk, Undisturbed, QueuedIds, GuestsStay, Robs, Noted, CanAllocate, GivesHelper;
      AllStay(db, guests);
      StaysUndisturbed(db);
      match a
      case Create(vm, now) =>
        CreatedUndisturbed(db, nextId, vm, now);
        var id := CreateRun(vm, now, a);
      case EnqueueIfNeverPassed(vm, now) =>
        CreatedUndisturbed(db, nextId, vm, now);
        var id := EnqueueIfNever(vm, now);
      case Delete(id) => DeleteRun(id);
      case Cancel(id) => RequestCancel(id, ByWeb(a));
      case Reorder(ids) => ReorderRuns(ids);
      case BeginHeld(k, id, kind, created) =>
        if k in actions || kind == Recovering { Idle(a); } else { BeginHeldAction(k, id, kind, created); }
      case BeginRecovery(k, id, recent, taskRunning) =>
        if k in actions { Idle(a); } else { BeginRecoveryAction(k, id, recent, taskRunning); }
      case EndAction(k, passed, fate) =>
        if k in actions && actions[k].id in db.runs && db.runs[actions[k].id].status != Queued && db.runs[actions[k].id].status != Running {
          EndActionNow(k, passed, fate);
        } else {
          Idle(a);
        }
      case Abandon(k) => AbandonAction(k);
    }

    method DeleteRun(id: nat)
      requires Valid()
      modifies `db, `log
      ensures Valid() && db == Deleted(old(db), id) && Undisturbed(old(db), db) && QueuedIds(db) <= QueuedIds(old(db))
      ensures log == old(log) + [Event(ByWeb(Delete(id)), old(V()), guests, V())] && Noted(old(log), log, [Delete(id)])
    {
      hide Consistent, LogOk, Undisturbed, QueuedIds, Noted;
      ghost var e := Event(ByWeb(Delete(id)), V(), guests, V().(db := Deleted(db, id)));
      DeletedUndisturbed(db, id);
      PlainStep(cfg, log, e, robbed);
      db, log := Deleted(db, id), log + [e];
    }

    method RequestCancel(id: nat, ghost what: Label)
      requires Valid() && (what == ByWeb(Cancel(id)) || what == Cancelling(id))
      modifies `db, `log
      ensures Valid() && db == CancelRequested(old(db), id) && Undisturbed(old(db), db) && QueuedIds(db) == QueuedIds(old(db))
      ensures log == old(log) + [Event(what, old(V()), guests, V())]
      ensures Noted(old(log), log, if what.ByWeb? then [what.web] else [])
    {
      hide Consistent, LogOk, Undisturbed, QueuedIds, Noted;
      ghost var e := Event(what, V(), guests, V().(db := CancelRequested(db, id)));
      CancelUndisturbed(db, id);
      PlainStep(cfg, log, e, robbed);
      db, log := CancelRequested(db, id), log + [e];
    }

    method ReorderRuns(ids: seq<nat>)
      requires Valid()
      modifies `db, `log
      ensures Valid() && db == Reordered(old(db), ids) && Undisturbed(old(db), db) && QueuedIds(db) == QueuedIds(old(db))
      ensures log == old(log) + [Event(ByWeb(Reorder(ids)), old(V()), guests, V())] && Noted(old(log), log, [Reorder(ids)])
    {
      hide Consistent, LogOk, Undisturbed, QueuedIds, Noted;
      ghost var e := Event(ByWeb(Reorder(ids)), V(), guests, V().(db := Reordered(db, ids)));
      ReorderUndisturbed(cfg, db, ids);
      ReorderedKeeps(cfg, db, ids);
      PlainStep(cfg, log, e, robbed);
      var after, updated := ReorderQueue(db, ids);
      db, log := after, log + [e];
    }

    /** Until the worker's next host operation returns, others may act. */
    method Await() returns (o: Outcome)
      requires Valid()
      modifies this
      ensures Valid() && Undisturbed(old(db), db) && workerKills == old(workerKills) && Work() <= old(Work())
      ensures OnlyWebs(old(log), log) && Goes(old(Now()), Now()) && script == RestOf(old(script))
      ensures o == NextAnswer(old(script)) && Flagged(old(db), db, Script.Before(old(script)))
      ensures (old(robbed) ==> robbed) && (!robbed ==> GuestsStay(old(db), old(guests), guests))
    {
      hide Consistent, LogOk, Undisturbed, QueuedIds, GuestsStay, OnlyWebs, Goes, Noted, Flagged;
      StaysUndisturbed(db);
      AllStay(db, guests);
      OnlyWebsGrew(log, log);
      SinceNow(Now());
      FlaggedNow(db);
      ghost var acts: seq<Web> := [];
      while script != [] && script[0].Acts?
        invariant Valid() && Undisturbed(old(db), db) && workerKills == old(workerKills) && Work() <= old(Work())
        invariant OnlyWebs(old(log), log) && Goes(old(Now()), Now()) && RestOf(script) == RestOf(old(script))
        invariant NextAnswer(script) == NextAnswer(old(script))
        invariant acts + Script.Before(script) == Script.Before(old(script)) && Flagged(old(db), db, acts)
        invariant (old(robbed) ==> robbed) && (!robbed ==> GuestsStay(old(db), old(guests), guests))
        decreases |script|
      {
        ghost var before, newId, guests0, point := db, nextId, guests, Now();
        var web := script[0].web;
        script := script[1..];
        Act(web);
        FlagNoted(cfg, log, V(), robbed);
        FlaggedTrans(old(db), before, db, acts, [web]);
        acts := acts + [web];
        OnlyWebsMore(old(log), point.log, log[|point.log|]);
        GoesActed(point, Now());
        GoesTrans(old(Now()), point, Now());
        Sizes(QueuedIds(db), QueuedIds(before), newId);
        UndisturbedTrans(old(db), before, db);
        if !robbed {
          GuestsStayTrans(old(db), before, old(guests), guests0, guests);
        }
      }
      assert acts + [] == acts;
      if script == [] {
        return FINE;
      }
      GoesReturned(old(Now()), Now());
      o, script := script[0].outcome, script[1..];
    }

    // ---- the worker --------------------------------------------------------------------

    /** `execute` from the host check to the probes. The run stays running with its
        environment whatever happens; guests may be left behind. The result is what the
        host answered, unless the run was cancelled. */
    method Pipeline(id: nat) returns (result: Status, ghost n: nat)
      requires Valid() && IsRunning(db, id)
      modifies this
      ensures Valid() && Since(old(Now()), Now()) && IsOutcome(result) && Work() <= old(Work())
      ensures old(robbed) ==> robbed
      ensures IsRunning(db, id) && db.runs[id].env == old(db.runs[id].env) && (result == Cancelled ==> db.runs[id].cancelRequested)
      ensures !robbed && (result == Passed || result == Limited || result == Failed) ==> GuestsPresent(guests, db.runs[id].env)
      ensures Tells(old(db.runs[id].cancelRequested), old(script), id, n, result) && script == Left(old(script), n)
      ensures result == Passed || result == Limited || result == Failed ==> !db.runs[id].cancelRequested && n == 8
    {
      hide Consistent, LogOk, Since, QueuedIds, Told, Left, Ahead, Going, Stopped, Says, Tells;
      ghost var start := Now();
      SinceNow(start);
      ToldNow(start, id);
      NothingTold(Asked(start, id), script, id);
      var e := db.runs[id].env;
      var stop;
      stop, n := Prepare(id, start, e);
      ToldParts(start, id, n, Now());
      if stop.Some? { return stop.value, n; }
      stop, n := BringUp(id, start, e);
      ToldParts(start, id, n, Now());
      if stop.Some? { return stop.value, n; }
      var o := Call(id, start, e, 6); // rewrite_nics, wait_unlocked, start
      ToldParts(start, id, 7, Now());
      Stops(Asked(start, id), start.script, id, 6);
      if !o.ok { return Error, 7; }
      result := Probe(id, start, e, 7);
      ToldParts(start, id, 8, Now());
      StopsLast(Asked(start, id), start.script, id, result);
      n := 8;
    }

    /** The checks before anything is created; they may end the run already. */
    method Prepare(id: nat, ghost start: Point, ghost e: Env) returns (stop: Option<Status>, ghost n: nat)
      requires Valid() && IsRunning(db, id) && Since(start, Now()) && db.runs[id].env == e
      requires Told(start, id, 0, Now())
      modifies this
      ensures Valid() && IsRunning(db, id) && Since(start, Now()) && db.runs[id].env == e && Work() <= old(Work())
      ensures old(robbed) ==> robbed
      ensures stop.Some? ==> stop.value == Error || (stop.value == Cancelled && db.runs[id].cancelRequested)
      ensures stop.None? ==> !db.runs[id].cancelRequested
      ensures Told(start, id, n, Now())
      ensures if stop.Some? then Tells(Asked(start, id), start.script, id, n, stop.value)
              else n == 4 && Going(Asked(start, id), start.script, id, 4)
    {
      hide Consistent, LogOk, Since, QueuedIds, Told, Left, Ahead, Going, Stopped, Says, Tells;
      stop, n := CheckHost(id, start, e);
      if stop.Some? { return stop, n; }
      var o := Call(id, start, e, 2); // ensure_sandbox_bridge
      ToldParts(start, id, 3, Now());
      Stops(Asked(start, id), start.script, id, 2);
      if !o.ok { return Some(Error), 3; }
      if db.runs[id].cancelRequested { return Some(Cancelled), 3; }
      o := Call(id, start, e, 3); // preflight_check
      ToldParts(start, id, 4, Now());
      Stops(Asked(start, id), start.script, id, 3);
      if !o.ok { return Some(Error), 4; }
      return if db.runs[id].cancelRequested then Some(Cancelled) else None, 4;
    }

    /** The host is the right one, and what no live run owns is gone. */
    method CheckHost(id: nat, ghost start: Point, ghost e: Env) returns (stop: Option<Status>, ghost n: nat)
      requires Valid() && IsRunning(db, id) && Since(start, Now()) && db.runs[id].env == e
      requires Told(start, id, 0, Now())
      modifies this
      ensures Valid() && IsRunning(db, id) && Since(start, Now()) && db.runs[id].env == e && Work() <= old(Work())
      ensures old(robbed) ==> robbed
      ensures Told(start, id, n, Now())
      ensures if stop.Some? then stop.value == Error && Tells(Asked(start, id), start.script, id, n, Error)
              else n == 2 && Going(Asked(start, id), start.script, id, 2)
    {
      hide Consistent, LogOk, Since, QueuedIds, Told, Left, Ahead, Going, Stopped, Says, Tells;
      NothingTold(Asked(start, id), start.script, id);
      var o := Call(id, start, e, 0); // verify_host_identity
      ToldParts(start, id, 1, Now());
      Stops(Asked(start, id), start.script, id, 0);
      if !o.ok { return Some(Error), 1; }
      o := Call(id, start, e, 1);
      ToldParts(start, id, 2, Now());
      Stops(Asked(start, id), start.script, id, 1);
      Reap(if o.ok then None else Some(o.fate.sweep), true);
      if !o.ok { return Some(Error), 2; }
      return None, 2;
    }

    /** The helper and the restore; either may leave its guest behind when it fails. */
    method BringUp(id: nat, ghost start: Point, e: Env) returns (stop: Option<Status>, ghost n: nat)
      requires Valid() && IsRunning(db, id) && Since(start, Now()) && db.runs[id].env == e
      requires Told(start, id, 4, Now()) && Going(Asked(start, id), start.script, id, 4)
      modifies this
      ensures Valid() && IsRunning(db, id) && Since(start, Now()) && db.runs[id].env == e && Work() <= old(Work())
      ensures old(robbed) ==> robbed
      ensures stop.Some? ==> stop.value == Error || (stop.value == Cancelled && db.runs[id].cancelRequested)
      ensures stop.None? ==> !db.runs[id].cancelRequested && (!robbed ==> GuestsPresent(guests, e))
      ensures Told(start, id, n, Now())
      ensures if stop.Some? then Tells(Asked(start, id), start.script, id, n, stop.value)
              else n == 6 && Going(Asked(start, id), start.script, id, 6)
    {
      hide Consistent, LogOk, Since, QueuedIds, Told, Left, Ahead, Going, Stopped, Says, Tells;
      var o := Call(id, start, e, 4); // provision_helper
      ToldParts(start, id, 5, Now());
      Stops(Asked(start, id), start.script, id, 4);
      if o.ok || o.partly {
        guests := guests + {Guest(e.helperVmid.value, true)};
      }
      if !o.ok { return Some(Error), 5; }
      if db.runs[id].cancelRequested { return Some(Cancelled), 5; }
      o := Call(id, start, e, 5); // restore, which polls the cancel flag itself
      ToldParts(start, id, 6, Now());
      Stops(Asked(start, id), start.script, id, 5);
      if o.ok || o.partly {
        guests := guests + {Guest(e.restoreVmid.value, false)};
      }
      if !o.ok { return Some(if db.runs[id].cancelRequested then Cancelled else Error), 6; }
      return if db.runs[id].cancelRequested then Some(Cancelled) else None, 6;
    }

    /** One host operation of the worker for run `id`: the one after `n` others. */
    method Call(id: nat, ghost start: Point, ghost e: Env, ghost n: nat) returns (o: Outcome)
      requires Valid() && IsRunning(db, id) && Since(start, Now()) && db.runs[id].env == e
      requires Told(start, id, n, Now())
      modifies this
      ensures Valid() && IsRunning(db, id) && Since(start, Now()) && db.runs[id].env == e
      ensures e.restoreVmid.Some? && e.helperVmid.Some? && workerKills == old(workerKills) && Work() <= old(Work())
      ensures old(robbed) ==> robbed
      ensures old(db.runs[id].cancelRequested) ==> db.runs[id].cancelRequested
      ensures !robbed ==> forall g :: g in old(guests) && Some(g.vmid) in {e.restoreVmid, e.helperVmid} ==> g in guests
      ensures o == Ahead(start.script, n) && Told(start, id, n + 1, Now()) && script == RestOf(old(script)) && o == NextAnswer(old(script))
    {
      hide RowsOk, OneRunning, LogOk, OnlyWebs, Goes, Ahead, Told, Left, Stopped, Flagged;
      ghost var now := Now();
      o := Await();
      SinceTrans(start, now, Now());
      ToldNext(start, id, n, now, Now());
    }

    /** `_probe_loop`, in execute and in resume. */
    method Probe(id: nat, ghost start: Point, ghost e: Env, ghost n: nat) returns (result: Status)
      requires Valid() && IsRunning(db, id) && Since(start, Now()) && db.runs[id].env == e
      requires Told(start, id, n, Now())
      modifies this
      ensures Valid() && IsRunning(db, id) && Since(start, Now()) && db.runs[id].env == e
      ensures IsOutcome(result) && workerKills == old(workerKills) && Work() <= old(Work())
      ensures old(robbed) ==> robbed
      ensures result == Cancelled <==> db.runs[id].cancelRequested
      ensures !robbed && old(GuestsPresent(guests, e)) ==> GuestsPresent(guests, e)
      ensures Told(start, id, n + 1, Now())
      ensures result != Cancelled ==>
        var o := Ahead(start.script, n);
        && (result == Error <==> !o.ok)
        && (result == Passed <==> o.ok && o.probe == Passed)
        && (result == Failed <==> o.ok && o.probe == Failed)
        && Says(o, result)
    {
      hide Consistent, LogOk, Since, QueuedIds, Told, Left, Ahead, Stopped;
      var o := Call(id, start, e, n);
      if db.runs[id].cancelRequested { return Cancelled; }
      if !o.ok { return Error; }
      return if o.probe == Passed || o.probe == Failed then o.probe else Limited;
    }

    /** What `_finalize` does on the host: the helper of a run to be held goes, otherwise
        the whole environment. */
    method FinalizeHost(id: nat, result: Status, hold: bool)
      requires Valid() && IsRunning(db, id) && IsOutcome(result)
      modifies this
      ensures Valid() && IsRunning(db, id) && db.runs[id].env == old(db.runs[id].env) && Work() <= old(Work())
      ensures Since(old(Now()), Now())
      ensures old(robbed) ==> robbed
      ensures old(db.runs[id].cancelRequested) ==> db.runs[id].cancelRequested
      ensures CleanedUp(NextAnswer(old(script)), db.runs[id].env, Holds(result, hold), guests)
      ensures script == RestOf(old(script))
      ensures var vm := db.runs[id].env.restoreVmid;
        !robbed && Holds(result, hold) && vm.Some? && Guest(vm.value, false) in old(guests) ==> Guest(vm.value, false) in guests
    {
      hide Consistent, LogOk, Since, QueuedIds, Told, Left, Ahead, Stopped;
      ghost var start, e := Now(), db.runs[id].env;
      SinceNow(start);
      ToldNow(start, id);
      var o := Call(id, start, e, 0);
      if Holds(result, hold) {
        var helper := db.runs[id].env.helperVmid;
        if helper.Some? && Guest(helper.value, true) in guests && o.ok {
          OwnedOnce(cfg, db, id, helper.value);
          Destroy(Guest(helper.value, true), Some(id), true);
        }
      } else {
        Teardown(id, o.fate, true);
      }
    }

    /** `record_run_result` for the run the worker, or a recovery, is on. */
    method FinishRun(id: nat, ghost start: Point, result: Status, status: Status)
      requires Valid() && IsRunning(db, id) && IsOutcome(result) && Goes(start, Now())
      requires status == result || (status == Held && (result == Failed || result == Error))
      modifies `db, `log
      ensures Valid() && NoneRunning(db) && Work() == old(Work())
      ensures db == Recorded(old(db), id, old(db.runs[id].vm), result, status) && id in db.runs
      ensures log == old(log) + [Event(Recording(id, result, status), old(V()), guests, V())] && Noted(old(log), log, [])
      ensures Goes(start, Now()) && Records(log, |start.log|, id, result, status)
    {
      hide Consistent, LogOk, NoneRunning, QueuedIds, Noted, RowsStay, NoOrphans, StepOk, Goes, Records;
      ghost var now := Now();
      ghost var e := RecordEvent(V(), guests, id, result, status);
      RecordingOk(cfg, V(), guests, id, result, status);
      FinishedKeeps(cfg, db, id, result, status);
      PlainStep(cfg, log, e, robbed);
      db, log := Recorded(db, id, db.runs[id].vm, result, status), log + [e];
      GoesNoted(now, Now());
      RecordsLast(start, now, e, id, result, status);
      GoesTrans(start, now, Now());
    }

    /** `record_run_result(.., "error")` for a run that cannot be started. */
    method DropQueued(id: nat)
      requires Valid() && IsQueued(db, id)
      modifies `db, `log
      ensures Valid() && db == Recorded(old(db), id, old(db.runs[id].vm), Error, Error)
      ensures Noted(old(log), log, [])
    {
      hide Consistent, LogOk, Noted, StepOk;
      ghost var e := RecordEvent(V(), guests, id, Error, Error);
      RecordingOk(cfg, V(), guests, id, Error, Error);
      PlainStep(cfg, log, e, robbed);
      db, log := Recorded(db, id, db.runs[id].vm, Error, Error), log + [e];
    }

    /** A run just held gives its helper and address back. */
    method ClearHelper(id: nat)
      requires Valid() && IsHeld(db, id) && NoneRunning(db)
      modifies `db, `log
      ensures Valid() && NoneRunning(db) && Work() == old(Work()) && db == HelperSet(old(db), id, None, None)
      ensures Noted(old(log), log, [])
    {
      hide Consistent, LogOk, QueuedIds, Noted;
      ghost var e := Event(Clearing(id), V(), guests, V().(db := HelperSet(db, id, None, None)));
      HelperUndisturbed(db, id, None, None);
      PlainStep(cfg, log, e, robbed);
      db, log := HelperSet(db, id, None, None), log + [e];
    }

    /** `_finalize`: the run ends, or is held without its helper and address. */
    method Finalize(id: nat, ghost start: Point, result: Status, hold: bool) returns (status: Status)
      requires Valid() && IsRunning(db, id) && IsOutcome(result) && Goes(start, Now())
      modifies this
      ensures Valid() && NoneRunning(db) && id in db.runs && db.runs[id].status == status && Work() <= old(Work())
      ensures Goes(start, Now()) && (old(robbed) ==> robbed)
      ensures status == if hold && (result == Failed || result == Error) then Held else result
      ensures db.runs[id].result == Some(result)
      ensures status == Held ==> db.runs[id].env == HeldEnv(old(db.runs[id].env))
      ensures old(db.runs[id].cancelRequested) ==> db.runs[id].cancelRequested
      ensures Records(log, |start.log|, id, result, status)
      ensures CleanedUp(NextAnswer(old(script)), old(db.runs[id].env), status == Held, guests)
      ensures script == RestOf(old(script))
      ensures var vm := old(db.runs[id].env.restoreVmid);
        !robbed && status == Held && vm.Some? && Guest(vm.value, false) in old(guests) ==> Guest(vm.value, false) in guests
    {
      hide Consistent, LogOk, QueuedIds, NoneRunning, Undisturbed, Goes, Noted, Since, RestOf, CleanedUp, Records;
      ghost var now := Now();
      FinalizeHost(id, result, hold);
      ghost var cleaned := Now();
      SinceParts(now, cleaned);
      GoesTrans(start, now, cleaned);
      status := if Holds(result, hold) then Held else result;
      FinishRun(id, start, result, status);
      if status == Held {
        ghost var recorded := Now();
        ClearHelper(id);
        GoesNoted(recorded, Now());
        GoesTrans(start, recorded, Now());
        RecordsStay(recorded, Now(), |start.log|, id, result, Held);
      }
    }

    /** The run row is set running, with the environment allocated for it. */
    method StartRun(id: nat, a: Allocation, ghost owned: seq<Env>)
      requires Valid() && NoneRunning(db) && IsQueued(db, id) && ListsOwned(db, owned) && Free(cfg, owned, a)
      modifies `db, `log
      ensures Valid() && IsRunning(db, id) && db == Started(old(db), id, a) && Work() < old(Work())
      ensures log == old(log) + [StartEvent(old(V()), guests, id, a)] && WebsIn(log) == old(WebsIn(log))
      ensures StartsIn(log) == old(StartsIn(log)) + [Start(old(db), id)]
    {
      hide Consistent, LogOk, ListsOwned, Free, NoneRunning, Allocatable, StepOk;
      ghost var e := StartEvent(V(), guests, id, a);
      StartingOk(cfg, V(), guests, id, a, owned);
      Sizes(QueuedIds(Started(db, id, a)), QueuedIds(db), id);
      PlainStep(cfg, log, e, robbed);
      assert WebsIn(log) + [] == WebsIn(log);
      db, log := Started(db, id, a), log + [e];
    }

    /** `execute`: wherever it fails or is cancelled, the run ends in a terminal status
        owning nothing, or held with its VM and VLAN only, and nothing is running. What is
        recorded is what the host answered: the result of the probes exactly when all
        operations before them went well, otherwise an error, unless it was cancelled. */
    method Execute(id: nat, a: Allocation, hold: bool, ghost owned: seq<Env>) returns (status: Status, ghost n: nat)
      requires Valid() && NoneRunning(db) && IsQueued(db, id) && ListsOwned(db, owned) && Free(cfg, owned, a)
      modifies this
      ensures Valid() && NoneRunning(db) && id in db.runs && db.runs[id].status == status
      ensures var result := db.runs[id].result;
        && result.Some? && IsOutcome(result.value) && Tells(old(db.runs[id].cancelRequested), old(script), id, n, result.value)
        && (status == if hold && (result.value == Failed || result.value == Error) then Held else result.value)
        && Records(log, |old(log)| + 1, id, result.value, status)
      ensures db.runs[id].test.Some? <==> status == Passed || status == Limited
      ensures status == Held ==> db.runs[id].env == Env(Some(a.restoreVmid), None, Some(a.vlanTag), None)
      ensures status != Held ==> !Owns(db.runs[id])
      ensures status == Cancelled ==> db.runs[id].cancelRequested
      ensures script == Left(old(script), n + 1)
      ensures CleanedUp(Ahead(old(script), n), Env(Some(a.restoreVmid), Some(a.helperVmid), Some(a.vlanTag), Some(a.mgmtIp)), status == Held, guests)
      ensures !robbed && status == Held && db.runs[id].result == Some(Failed) ==> Guest(a.restoreVmid, false) in guests
      ensures Work() < old(Work()) && StartsIn(log) == old(StartsIn(log)) + [Start(old(db), id)]
      ensures Grew(old(log) + [StartEvent(old(V()), old(guests), id, a)], log)
      ensures WebsIn(log) + Webs(script) == old(WebsIn(log) + Webs(script)) && (old(robbed) ==> robbed)
    {
      hide Consistent, LogOk, QueuedIds, ListsOwned, Free, NoneRunning, Goes, Grew, Ahead, Left, Tells, Records, CleanedUp;
      StartRun(id, a, owned);
      ghost var started := Now();
      status, n := TestAndEnd(id, hold);
      GoesGrew(started, Now());
      RowIsOk(cfg, db, id);
    }

    /** The part of `execute` after the start. */
    method TestAndEnd(id: nat, hold: bool) returns (status: Status, ghost n: nat)
      requires Valid() && IsRunning(db, id)
      modifies this
      ensures Valid() && NoneRunning(db) && id in db.runs && db.runs[id].status == status
      ensures Goes(old(Now()), Now()) && Work() <= old(Work()) && (old(robbed) ==> robbed)
      ensures var result := db.runs[id].result;
        && result.Some? && IsOutcome(result.value) && Tells(old(db.runs[id].cancelRequested), old(script), id, n, result.value)
        && (status == if hold && (result.value == Failed || result.value == Error) then Held else result.value)
        && Records(log, |old(log)|, id, result.value, status)
      ensures status == Held ==> db.runs[id].env == HeldEnv(old(db.runs[id].env))
      ensures status == Cancelled ==> db.runs[id].cancelRequested
      ensures CleanedUp(Ahead(old(script), n), old(db.runs[id].env), status == Held, guests)
      ensures script == Left(old(script), n + 1)
      ensures var vm := old(db.runs[id].env.restoreVmid);
        !robbed && status == Held && db.runs[id].result == Some(Failed) && vm.Some? ==> Guest(vm.value, false) in guests
    {
      hide Consistent, LogOk, QueuedIds, NoneRunning, Since, Goes, Grew, Ahead, Left, Tells, Records, CleanedUp;
      ghost var started := Now();
      var result;
      result, n := Pipeline(id);
      ghost var probed := Now();
      SinceParts(started, probed);
      status := Finalize(id, started, result, hold);
      AfterLeft(started.script, n);
    }

    /** The application dies in the pipeline, after the host part of `_finalize`, or
        between the two writes to the table. */
    method StartAndCrash(id: nat, a: Allocation, hold: bool, stage: nat, ghost owned: seq<Env>) returns (ghost n: nat)
      requires Valid() && NoneRunning(db) && IsQueued(db, id) && ListsOwned(db, owned) && Free(cfg, owned, a)
      modifies this
      ensures Valid() && WebsIn(log) + Webs(script) == old(WebsIn(log) + Webs(script))
      ensures if stage > 1 then NoneRunning(db) && id in db.runs else IsRunning(db, id)
      ensures stage > 1 ==>
        var result := db.runs[id].result;
        && result.Some? && IsOutcome(result.value) && Tells(old(db.runs[id].cancelRequested), old(script), id, n, result.value)
        && (db.runs[id].status == if hold && (result.value == Failed || result.value == Error) then Held else result.value)
      ensures Grew(old(log) + [StartEvent(old(V()), old(guests), id, a)], log)
    {
      hide Consistent, LogOk, QueuedIds, ListsOwned, Free, NoneRunning, Since, Goes, Grew, Noted, Ahead, Left, Tells, Records, CleanedUp;
      StartRun(id, a, owned);
      ghost var started := Now();
      var result;
      result, n := Pipeline(id);
      ghost var probed := Now();
      SinceParts(started, probed);
      if stage > 0 {
        FinalizeHost(id, result, hold);
        SinceParts(probed, Now());
        GoesTrans(started, probed, Now());
      }
      if stage > 1 {
        FinishRun(id, started, result, if Holds(result, hold) then Held else result);
      }
      GoesGrew(started, Now());
    }

    /** `resume_run` after a restart: if it leaves the run running, it has destroyed
        nothing; otherwise the run ends as after `execute`, with what the `n`-th answer says. */
    method Resume(id: nat, hold: bool) returns (status: Status, ghost n: nat)
      requires Valid() && IsRunning(db, id)
      modifies this
      ensures Valid() && id in db.runs && db.runs[id].status == status && Goes(old(Now()), Now())
      ensures status == Running || NoneRunning(db)
      ensures status == Running ==> workerKills == old(workerKills) && Undisturbed(old(db), db)
      ensures status == Running ==> !Ahead(old(script), n).ok
      ensures status != Running ==>
        var result := db.runs[id].result;
        && result.Some? && IsOutcome(result.value) && Finds(old(script), n, result.value, script)
        && (status == if hold && (result.value == Failed || result.value == Error) then Held else result.value)
        && Records(log, |old(log)|, id, result.value, status)
      ensures status == Held ==> db.runs[id].env == HeldEnv(old(db.runs[id].env))
      ensures status == Cancelled ==> db.runs[id].cancelRequested
    {
      hide Consistent, LogOk, Since, Undisturbed, QueuedIds, NoneRunning, Goes, Grew, Told, Left, RestOf, Ahead, Stopped, Says, Records, CleanedUp;
      ghost var start := Now();
      var e := db.runs[id].env;
      SinceNow(start);
      ToldNow(start, id);
      var result;
      result, n := Reattach(id, start, e);
      SinceParts(start, Now());
      if result.None? {
        return Running, n;
      }
      AfterLeft(start.script, n + 1);
      status := Finalize(id, start, result.value, hold);
    }

    /** What has become of the restore and of the test; nothing if the restore still holds
        the VM, which is then left alone. */
    method Reattach(id: nat, ghost start: Point, e: Env) returns (result: Option<Status>, ghost n: nat)
      requires Valid() && IsRunning(db, id) && Since(start, Now()) && db.runs[id].env == e
      requires Told(start, id, 0, Now())
      modifies this
      ensures Valid() && IsRunning(db, id) && Since(start, Now()) && db.runs[id].env == e
      ensures workerKills == old(workerKills)
      ensures result.None? ==> !Ahead(start.script, n).ok
      ensures result.Some? ==>
        && IsOutcome(result.value) && Says(Ahead(start.script, n), result.value)
        && (result.value == Cancelled ==> db.runs[id].cancelRequested)
        && (result.value == Passed || result.value == Limited || result.value == Failed ==>
              Ahead(start.script, 1).ok && Ahead(start.script, 2).ok && 3 < n && script == Left(start.script, n + 1))
    {
      hide Consistent, LogOk, Since, QueuedIds, Told, Left, Ahead, Stopped, Says;
      var o := Call(id, start, e, 0); // ensure_sandbox_bridge, find_running_restore_upid: failures are ignored
      var r, failed := Error, true;
      o := Call(id, start, e, 1);     // poll_task
      n := 1;
      SaysError(o, Error);
      if o.ok {
        o := Call(id, start, e, 2);   // wait_unlocked
        if !o.ok { return None, 2; }
        r, failed, n := FinishTail(id, start, e);
        ToldParts(start, id, n + 1, Now());
        SaysError(Ahead(start.script, n), r);
      } else if db.runs[id].cancelRequested {
        return Some(Cancelled), 1;
      }
      if failed {
        o := Call(id, start, e, n + 1);   // is the restore still locked on the host?
        if o.ok && o.partly && Guest(e.restoreVmid.value, false) in guests { return None, n; }
      }
      return Some(r), n;
    }

    /** The tail of a resumed run: what is healthy is kept, only what is gone is rebuilt. */
    method FinishTail(id: nat, ghost start: Point, e: Env) returns (result: Status, failed: bool, ghost n: nat)
      requires Valid() && IsRunning(db, id) && Since(start, Now()) && db.runs[id].env == e
      requires e.helperVmid.Some? && Told(start, id, 3, Now())
      modifies this
      ensures Valid() && IsRunning(db, id) && Since(start, Now()) && db.runs[id].env == e
      ensures old(robbed) ==> robbed
      ensures IsOutcome(result) && workerKills == old(workerKills) && (result == Cancelled ==> db.runs[id].cancelRequested)
      ensures 3 <= n && Told(start, id, n + 1, Now()) && Says(Ahead(start.script, n), result)
      ensures failed <==> result == Error
      ensures result == Passed || result == Limited || result == Failed ==> 3 < n
    {
      hide Consistent, LogOk, Since, QueuedIds, Told, Left, Ahead, Stopped, Says;
      var running, ok;
      running, ok, n := RebuildHelper(id, start, e);
      if ok && !running {
        ok, n := Reboot(id, start, e, n + 1);
      }
      SaysError(Ahead(start.script, n), Error);
      if !ok { return Error, true, n; }
      n := n + 1;
      result := Probe(id, start, e, n);
      SaysError(Ahead(start.script, n), result);
      failed := result == Error;
    }

    /** Is the VM running? A helper that is gone is provisioned again. */
    method RebuildHelper(id: nat, ghost start: Point, e: Env) returns (running: bool, ok: bool, ghost n: nat)
      requires Valid() && IsRunning(db, id) && Since(start, Now()) && db.runs[id].env == e
      requires e.helperVmid.Some? && Told(start, id, 3, Now())
      modifies this
      ensures Valid() && IsRunning(db, id) && Since(start, Now()) && db.runs[id].env == e
      ensures (old(robbed) ==> robbed) && workerKills == old(workerKills)
      ensures 3 <= n && Told(start, id, n + 1, Now()) && (!ok ==> !Ahead(start.script, n).ok)
    {
      hide Consistent, LogOk, Since, QueuedIds, Told, Left, Ahead, Stopped;
      var o := Call(id, start, e, 3); // is_running, exists
      n, running, ok := 3, o.partly, o.ok;
      if ok && Guest(e.helperVmid.value, true) !in guests {
        o := Call(id, start, e, 4);   // provision_helper
        n, ok := 4, o.ok;
        if o.ok || o.partly {
          guests := guests + {Guest(e.helperVmid.value, true)};
        }
      }
    }

    /** A VM that is not running gets its network again and is started. */
    method Reboot(id: nat, ghost start: Point, e: Env, ghost from: nat) returns (ok: bool, ghost n: nat)
      requires Valid() && IsRunning(db, id) && Since(start, Now()) && db.runs[id].env == e
      requires Told(start, id, from, Now())
      modifies this
      ensures Valid() && IsRunning(db, id) && Since(start, Now()) && db.runs[id].env == e
      ensures (old(robbed) ==> robbed) && workerKills == old(workerKills)
      ensures from <= n && Told(start, id, n + 1, Now()) && (!ok ==> !Ahead(start.script, n).ok)
    {
      hide Consistent, LogOk, Since, QueuedIds, Told, Left, Ahead, Stopped;
      var o := Call(id, start, e, from); // rewrite_nics
      n, ok := from, o.ok;
      if ok {
        n := n + 1;
        o := Call(id, start, e, n);      // start: a failure is ignored
      }
    }

    // ---- recovering ------------------------------------------------------------------

    /** `recover_stuck_runs`: a running run without its VM on the host and without a live
        restore task is ended, so the queue can go on. */
    method Recover(id: nat, recent: bool, taskRunning: bool, fate: Fate) returns (recovered: bool)
      requires Valid() && IsRunning(db, id)
      modifies `db, `guests, `log, `workerKills
      ensures Valid() && id in db.runs && workerKills == old(workerKills) && Noted(old(log), log, [])
      ensures recovered ==> NoneRunning(db) && db.runs[id].status == Error && db.runs[id].cancelRequested
      ensures recovered ==> db.runs[id].env == old(db.runs[id].env) && db.runs[id].test.None?
      ensures !recovered ==> db == old(db) && guests == old(guests) && log == old(log)
      ensures recovered <==> LooksStuck(old(db), old(guests), id, recent, taskRunning)
      ensures recovered <==> !recent && !taskRunning && forall g :: g in old(guests) ==> Some(g.vmid) != old(db.runs[id].env.restoreVmid)
      ensures recovered ==> forall o: Outcome :: o.fate == fate ==> CleanedUp(o, db.runs[id].env, false, guests)
    {
      hide Consistent, LogOk, NoneRunning, Undisturbed, QueuedIds, CleanedUp;
      var rv := db.runs[id].env.restoreVmid;
      NotedNow(log);
      if recent || taskRunning || Present(guests, rv) {
        return false;
      }
      ghost var log0 := log;
      RequestCancel(id, Cancelling(id));
      ghost var log1 := log;
      Teardown(id, fate, false);
      SinceNow(Now());
      FinishRun(id, Now(), Error, Error);
      GrewTrans(log0, log1, log);
      return true;
    }

    /** The recovery comes from another thread while the run's worker is still at it. The
        worker then cleans up and records its own result, or holds the run. */
    method RecoverUnderWorker(id: nat, recent: bool, taskRunning: bool, fate: Fate, result: Status, hold: bool, late: Fate)
      returns (recovered: bool, clashed: bool)
      requires Valid() && IsRunning(db, id) && IsOutcome(result)
      modifies this
      ensures Logged() && (Consistent(cfg, db) <==> !clashed) && RowsOk(db) && OneRunning(db)
      ensures Goes(old(Now()), Now())
      ensures recovered <==> LooksStuck(old(db), old(guests), id, recent, taskRunning)
      ensures recovered ==> NoneRunning(db) && id in db.runs && log != [] && IsLate(log[|log| - 1], id, result, hold, late)
      ensures recovered ==> |old(log)| < |log|
      ensures clashed ==> recovered && Clashes(log[|log| - 1])
      ensures !recovered ==> db == old(db) && guests == old(guests) && log == old(log) && script == old(script)
    {
      hide RowsOk, EnvsOk, OneRunning, LogOk, NoneRunning, Undisturbed, QueuedIds, Clashes, OnlyWebs, Goes, Noted, LooksStuck, VmInRange, Settled, LateDb, Flagged, RestOf, NextAnswer;
      var plan := db.runs[id].env;
      RunningVm(cfg, db, id);
      ghost var start := Now();
      SinceNow(start);
      recovered := Recover(id, recent, taskRunning, fate);
      if !recovered {
        clashed := false;
        return;
      }
      ghost var ended := Now();
      GoesNoted(start, ended);
      EndedIsSettled(db, id);
      var o := Await();
      StillInRange(cfg, ended.db, db, id);
      GoesTrans(start, ended, Now());
      ghost var late' := Now();
      clashed := FinishLate(id, plan, result, hold, late);
      GoesNoted(late', Now());
      GoesGrew(start, late');
      GoesTrans(start, late', Now());
    }

    /** `_finalize` by the worker of a run that has ended without it. It does not look at
        the row: with a failure and the hold option the run is held again. */
    method FinishLate(id: nat, plan: Env, result: Status, hold: bool, fate: Fate) returns (clashed: bool)
      requires Valid() && Settled(db, id) && NoneRunning(db) && IsOutcome(result) && VmInRange(cfg, db.runs[id].env)
      modifies `db, `guests, `log, `robbed, `workerKills
      ensures Logged() && (Consistent(cfg, db) <==> !clashed) && RowsOk(db) && OneRunning(db) && NoneRunning(db)
      ensures db == LateDb(old(db), id, result, hold) && id in db.runs
      ensures log == old(log) + [Event(Late(id, result, hold, plan, fate), old(V()), old(guests), V())] && Noted(old(log), log, [])
      ensures (clashed <==> Clashes(log[|log| - 1])) && (old(robbed) ==> robbed)
    {
      hide Consistent, LogOk, Robs, Noted, RowsOk, OneRunning, NoneRunning, TakenOver;
      ghost var e := Event(Late(id, result, hold, plan, fate), V(), guests, V().(db := LateDb(db, id, result, hold)));
      LateStep(cfg, log, e, robbed, id, result, hold, plan, fate);
      clashed := Holds(result, hold) && TakenOver(db, id);
      if Holds(result, hold) {
        DropNoted(id, plan, fate, true);
        db := HelperSet(Recorded(db, id, db.runs[id].vm, result, Held), id, None, None);
      } else {
        TeardownNoted(id, plan, fate);
        db := Recorded(db, id, db.runs[id].vm, result, result);
      }
      log := log + [e];
    }

    /** `_reap_orphans`: only while nothing is running. */
    method ReapOrphans(identityOk: bool, failsAfter: Option<nat>)
      requires Valid()
      modifies `guests, `workerKills
      ensures Valid() && guests <= old(guests) && forall g, id :: g in old(guests) - guests ==> !OwnedBy(db, id, g.vmid)
      ensures identityOk && failsAfter.None? && NoneRunning(db) ==> forall g :: g in guests ==> exists id :: OwnedBy(db, id, g.vmid)
    {
      hide Consistent, LogOk;
      if NoneRunning'(db) && identityOk {
        Reap(failsAfter, false);
      }
    }
  }
}
