/** The tables of automated restore testing (app/db_restore.py): each operation is one
    transaction on the run rows and the documented tests. */
module RestoreRuns {
  import opened Wrappers
  import opened Alloc

  datatype Status = Queued | Running | Held | Passed | Limited | Failed | Error | Cancelled

  datatype Run = Run(vm: int, status: Status, result: Option<Status>, test: Option<nat>,
                     sortOrder: Option<int>, queuedAt: int, cancelRequested: bool, env: Env)

  // A row of restore_tests, with the run that documented it.
  datatype Test = Test(vm: int, result: Status, run: nat)

  datatype Db = Db(runs: map<nat, Run>, tests: seq<Test>)

  const NO_ENV := Env(None, None, None, None)

  predicate Live(s: Status) {
    s == Queued || s == Running || s == Held
  }

  /** Results that reset the due clock. */
  predicate CountsAsTest(result: Status) {
    result == Passed || result == Limited
  }

  /** Runs that own an environment. */
  predicate Owns(r: Run) {
    r.status == Running || r.status == Held
  }

  // ---- the transactions ------------------------------------------------------------

  function NewRun(vm: int, now: int): Run {
    Run(vm, Queued, None, None, None, now, false, NO_ENV)
  }

  function Created(db: Db, id: nat, vm: int, now: int): Db {
    db.(runs := db.runs[id := NewRun(vm, now)])
  }

  predicate NeverPassedAndIdle(db: Db, vm: int) {
    forall id :: id in db.runs && db.runs[id].vm == vm ==> !Live(db.runs[id].status) && db.runs[id].result != Some(Passed)
  }

  function Deleted(db: Db, id: nat): Db {
    if id in db.runs && db.runs[id].status == Queued then db.(runs := db.runs - {id}) else db
  }

  function CancelRequested(db: Db, id: nat): Db {
    if id in db.runs && db.runs[id].status == Running
    then db.(runs := db.runs[id := db.runs[id].(cancelRequested := true)]) else db
  }

  /** `update_run` when a run starts */
  function Started(db: Db, id: nat, a: Allocation): Db {
    if id !in db.runs then db
    else db.(runs := db.runs[id := db.runs[id].(status := Running,
             env := Env(Some(a.restoreVmid), Some(a.helperVmid), Some(a.vlanTag), Some(a.mgmtIp)))])
  }

  /** `update_run(helper_vmid=.., mgmt_ip=..)` */
  function HelperSet(db: Db, id: nat, helper: Option<int>, ip: Option<int>): Db {
    if id !in db.runs then db
    else db.(runs := db.runs[id := db.runs[id].(env := db.runs[id].env.(helperVmid := helper, mgmtIp := ip))])
  }

  /** `record_run_result` */
  function Recorded(db: Db, id: nat, vm: int, result: Status, status: Status): Db {
    var counts := CountsAsTest(result);
    var tests := if counts then db.tests + [Test(vm, result, id)] else db.tests;
    var runs := if id !in db.runs then db.runs
                else db.runs[id := db.runs[id].(status := status, result := Some(result),
                                                test := if counts then Some(|db.tests|) else None)];
    Db(runs, tests)
  }

  // ---- invariants ------------------------------------------------------------------

  /** A row documents a test exactly when it passed or was limited; its result fits. */
  ghost predicate RowOk(tests: seq<Test>, id: nat, r: Run) {
    && (r.test.Some? <==> CountsAsTest(r.status))
    && (r.test.Some? ==> r.test.value < |tests| && tests[r.test.value] == Test(r.vm, r.status, id))
    && (r.status == Held ==> r.result == Some(Failed) || r.result == Some(Error))
    && (!Live(r.status) ==> r.result == Some(r.status))
  }

  ghost predicate RowsOk(db: Db) {
    forall id :: id in db.runs ==> RowOk(db.tests, id, db.runs[id])
  }

  /** Test `i` is the one its run points at. */
  ghost predicate Anchored(db: Db, i: nat)
    requires i < |db.tests|
  {
    db.tests[i].run in db.runs && db.runs[db.tests[i].run].test == Some(i)
  }

  /** No test was left behind by a second record of its run. */
  ghost predicate NoOrphans(db: Db) {
    forall i :: 0 <= i < |db.tests| ==> Anchored(db, i)
  }

  predicate InRange(lo: int, hi: int, o: Option<int>) {
    o.Some? ==> lo <= o.value <= hi
  }

  /** A live environment: a running one has everything, a held one its VM and VLAN. */
  ghost predicate EnvOk(cfg: Config, r: Run) {
    var e := r.env;
    && e.restoreVmid.Some? && e.vlanTag.Some? && e.restoreVmid != e.helperVmid
    && (r.status == Running ==> e.helperVmid.Some? && e.mgmtIp.Some?)
    && InRange(cfg.vmidFrom, cfg.vmidTo, e.restoreVmid) && InRange(cfg.vmidFrom, cfg.vmidTo, e.helperVmid)
    && InRange(cfg.vlanFrom, cfg.vlanTo, e.vlanTag) && InRange(cfg.ipFrom, cfg.ipTo, e.mgmtIp)
  }

  predicate Apart(e: Env, f: Env) {
    && VmidsOf(e) !! VmidsOf(f)
    && (e.vlanTag.Some? ==> e.vlanTag != f.vlanTag)
    && (e.mgmtIp.Some? ==> e.mgmtIp != f.mgmtIp)
  }

  /** No two live environments share a VMID, a VLAN tag or a management address. */
  ghost predicate EnvsOk(cfg: Config, db: Db) {
    && (forall id :: id in db.runs && Owns(db.runs[id]) ==> EnvOk(cfg, db.runs[id]))
    && (forall i, j :: i in db.runs && j in db.runs && i != j && Owns(db.runs[i]) && Owns(db.runs[j])
          ==> Apart(db.runs[i].env, db.runs[j].env))
  }

  ghost predicate OneRunning(db: Db) {
    forall i, j :: i in db.runs && j in db.runs && db.runs[i].status == Running && db.runs[j].status == Running ==> i == j
  }

  /** What every transaction keeps. */
  ghost predicate Consistent(cfg: Config, db: Db) {
    RowsOk(db) && EnvsOk(cfg, db) && OneRunning(db)
  }

  ghost predicate NoneRunning(db: Db) {
    forall id :: id in db.runs ==> db.runs[id].status != Running
  }

  /** At most one live run of a guest. */
  ghost predicate OneLive(db: Db, vm: int) {
    forall i, j :: i in db.runs && j in db.runs && db.runs[i].vm == vm == db.runs[j].vm && Live(db.runs[i].status) && Live(db.runs[j].status)
      ==> i == j
  }

  // ---- one row at a time -------------------------------------------------------------

  /** The same row, but for its place in the queue and the cancel flag. */
  predicate SameRow(r: Run, n: Run) {
    n == r.(sortOrder := n.sortOrder, cancelRequested := n.cancelRequested)
  }

  /** No row but `id` has changed. */
  ghost predicate RowsStay(db: Db, n: Db, id: nat) {
    forall i :: i != id ==> (i in db.runs <==> i in n.runs) && (i in db.runs ==> SameRow(db.runs[i], n.runs[i]))
  }

  /** The row owns no more than it did. */
  ghost predicate OwnsLess(r: Run, n: Run) {
    Owns(n) ==>
      && Owns(r) && n.env.restoreVmid == r.env.restoreVmid && n.env.vlanTag == r.env.vlanTag
      && (n.env.helperVmid == r.env.helperVmid || n.env.helperVmid.None?)
      && (n.env.mgmtIp == r.env.mgmtIp || n.env.mgmtIp.None?)
      && (n.status == Running ==> r.status == Running && n.env == r.env)
  }

  /** No environment grows, so all stay apart. */
  lemma EnvsShrink(cfg: Config, db: Db, n: Db, id: nat)
    requires EnvsOk(cfg, db) && OneRunning(db) && RowsStay(db, n, id)
    requires id in n.runs && Owns(n.runs[id]) ==> id in db.runs && OwnsLess(db.runs[id], n.runs[id])
    ensures EnvsOk(cfg, n) && OneRunning(n)
  {
    forall i | i in n.runs && Owns(n.runs[i]) ensures i in db.runs && Owns(db.runs[i]) && OwnsLess(db.runs[i], n.runs[i]) {
      if i != id {
        assert SameRow(db.runs[i], n.runs[i]);
      }
    }
  }

  lemma RowsStayOk(db: Db, n: Db, id: nat)
    requires RowsOk(db) && RowsStay(db, n, id) && db.tests <= n.tests && (id in n.runs ==> RowOk(n.tests, id, n.runs[id]))
    ensures RowsOk(n)
  {
    forall i | i in n.runs ensures RowOk(n.tests, i, n.runs[i]) {
      if i != id {
        assert SameRow(db.runs[i], n.runs[i]) && RowOk(db.tests, i, db.runs[i]);
      }
    }
  }

  /** Tests and pointers at them unchanged: no test is orphaned or found again. */
  lemma OrphansStay(db: Db, n: Db, id: nat)
    requires RowsStay(db, n, id) && n.tests == db.tests
    requires id in db.runs && db.runs[id].test.Some? ==> id in n.runs && n.runs[id].test == db.runs[id].test
    requires id in n.runs && n.runs[id].test.Some? ==> id in db.runs && n.runs[id].test == db.runs[id].test
    ensures NoOrphans(n) <==> NoOrphans(db)
  {
    forall i | 0 <= i < |db.tests| ensures Anchored(n, i) <==> Anchored(db, i) {
      var run := db.tests[i].run;
      if run != id && run in db.runs {
        assert SameRow(db.runs[run], n.runs[run]);
      }
    }
  }

  // ---- every transaction keeps them --------------------------------------------------

  lemma CreatedKeeps(cfg: Config, db: Db, id: nat, vm: int, now: int)
    requires Consistent(cfg, db) && id !in db.runs
    ensures var n := Created(db, id, vm, now); Consistent(cfg, n) && RowsStay(db, n, id) && (NoOrphans(n) <==> NoOrphans(db))
  {
    hide RowsOk, EnvsOk, OneRunning, NoOrphans;
    var n := Created(db, id, vm, now);
    EnvsShrink(cfg, db, n, id);
    RowsStayOk(db, n, id);
    OrphansStay(db, n, id);
  }

  lemma DeletedKeeps(cfg: Config, db: Db, id: nat)
    requires Consistent(cfg, db)
    ensures var n := Deleted(db, id); Consistent(cfg, n) && RowsStay(db, n, id) && (NoOrphans(n) <==> NoOrphans(db))
  {
    var n := Deleted(db, id);
    assert id in db.runs ==> RowOk(db.tests, id, db.runs[id]);
    hide RowsOk, EnvsOk, OneRunning, NoOrphans;
    EnvsShrink(cfg, db, n, id);
    RowsStayOk(db, n, id);
    OrphansStay(db, n, id);
  }

  lemma CancelKeeps(cfg: Config, db: Db, id: nat)
    requires Consistent(cfg, db)
    ensures var n := CancelRequested(db, id);
      && Consistent(cfg, n) && RowsStay(db, n, id) && (NoOrphans(n) <==> NoOrphans(db))
      && (id in db.runs ==> id in n.runs && SameRow(db.runs[id], n.runs[id]))
  {
    var n := CancelRequested(db, id);
    assert id in db.runs ==> RowOk(db.tests, id, db.runs[id]);
    hide RowsOk, EnvsOk, OneRunning, NoOrphans;
    EnvsShrink(cfg, db, n, id);
    RowsStayOk(db, n, id);
    OrphansStay(db, n, id);
  }

  /** The owned rows, as `active_and_held_runs` hands them to the allocation. */
  ghost predicate ListsOwned(db: Db, owned: seq<Env>) {
    && (forall id :: id in db.runs && Owns(db.runs[id]) ==> db.runs[id].env in owned)
    && (forall e :: e in owned ==> exists id :: id in db.runs && Owns(db.runs[id]) && db.runs[id].env == e)
  }

  lemma FreeIsApart(cfg: Config, db: Db, owned: seq<Env>, a: Allocation, id: nat)
    requires ListsOwned(db, owned) && Free(cfg, owned, a) && id in db.runs && Owns(db.runs[id])
    ensures var e := db.runs[id].env;
      && a.restoreVmid !in VmidsOf(e) && a.helperVmid !in VmidsOf(e)
      && e.vlanTag != Some(a.vlanTag) && e.mgmtIp != Some(a.mgmtIp)
  {
    var k :| 0 <= k < |owned| && owned[k] == db.runs[id].env;
  }

  lemma StartedEnvs(cfg: Config, db: Db, owned: seq<Env>, id: nat, a: Allocation)
    requires EnvsOk(cfg, db) && ListsOwned(db, owned) && Free(cfg, owned, a) && id in db.runs
    ensures EnvsOk(cfg, Started(db, id, a))
  {
    var n := Started(db, id, a);
    forall i | i in n.runs && i != id && Owns(n.runs[i])
      ensures Apart(n.runs[i].env, n.runs[id].env) && Apart(n.runs[id].env, n.runs[i].env)
    {
      FreeIsApart(cfg, db, owned, a, i);
    }
  }

  lemma StartedKeeps(cfg: Config, db: Db, owned: seq<Env>, id: nat, a: Allocation)
    requires Consistent(cfg, db) && NoneRunning(db) && ListsOwned(db, owned) && Free(cfg, owned, a)
    requires id in db.runs && db.runs[id].status == Queued
    ensures var n := Started(db, id, a); Consistent(cfg, n) && RowsStay(db, n, id) && (NoOrphans(n) <==> NoOrphans(db))
  {
    var n := Started(db, id, a);
    assert RowOk(db.tests, id, db.runs[id]);
    StartedEnvs(cfg, db, owned, id, a);
    hide RowsOk, EnvsOk, NoOrphans;
    RowsStayOk(db, n, id);
    OrphansStay(db, n, id);
  }

  /** A held run gets a fresh helper for a re-test; its VM and VLAN stay. */
  lemma HelperSetKeeps(cfg: Config, db: Db, owned: seq<Env>, id: nat, a: Allocation)
    requires Consistent(cfg, db) && ListsOwned(db, owned) && Free(cfg, owned, a)
    requires id in db.runs && db.runs[id].status == Held
    ensures var n := HelperSet(db, id, Some(a.helperVmid), Some(a.mgmtIp));
      Consistent(cfg, n) && RowsStay(db, n, id) && (NoOrphans(n) <==> NoOrphans(db))
  {
    var n := HelperSet(db, id, Some(a.helperVmid), Some(a.mgmtIp));
    assert RowOk(db.tests, id, db.runs[id]);
    HelperSetEnvs(cfg, db, owned, id, a);
    hide RowsOk, EnvsOk, NoOrphans;
    RowsStayOk(db, n, id);
    OrphansStay(db, n, id);
  }

  lemma HelperSetEnvs(cfg: Config, db: Db, owned: seq<Env>, id: nat, a: Allocation)
    requires EnvsOk(cfg, db) && ListsOwned(db, owned) && Free(cfg, owned, a)
    requires id in db.runs && db.runs[id].status == Held
    ensures EnvsOk(cfg, HelperSet(db, id, Some(a.helperVmid), Some(a.mgmtIp)))
  {
    var n := HelperSet(db, id, Some(a.helperVmid), Some(a.mgmtIp));
    FreeIsApart(cfg, db, owned, a, id);
    forall i | i in n.runs && i != id && Owns(n.runs[i])
      ensures Apart(n.runs[i].env, n.runs[id].env) && Apart(n.runs[id].env, n.runs[i].env)
    {
      FreeIsApart(cfg, db, owned, a, i);
    }
  }

  lemma HelperClearedKeeps(cfg: Config, db: Db, id: nat)
    requires Consistent(cfg, db) && id in db.runs && db.runs[id].status != Running
    ensures var n := HelperSet(db, id, None, None);
      Consistent(cfg, n) && RowsStay(db, n, id) && (NoOrphans(n) <==> NoOrphans(db))
  {
    var n := HelperSet(db, id, None, None);
    assert RowOk(db.tests, id, db.runs[id]);
    hide RowsOk, EnvsOk, OneRunning, NoOrphans;
    EnvsShrink(cfg, db, n, id);
    RowsStayOk(db, n, id);
    OrphansStay(db, n, id);
  }

  /** Recording a result leaves no test behind if and only if the run has not been
      documented before, and what was left behind before stays so. */
  lemma RecordedOrphans(db: Db, id: nat, result: Status, status: Status)
    requires RowsOk(db) && id in db.runs
    ensures NoOrphans(Recorded(db, id, db.runs[id].vm, result, status)) <==> NoOrphans(db) && db.runs[id].test.None?
  {
    var n := Recorded(db, id, db.runs[id].vm, result, status);
    assert RowOk(db.tests, id, db.runs[id]);
    if db.runs[id].test.Some? {
      var i := db.runs[id].test.value;
      assert n.tests[i] == db.tests[i] && !Anchored(n, i);
    } else {
      forall i | 0 <= i < |db.tests| ensures Anchored(n, i) <==> Anchored(db, i) {
        assert n.tests[i] == db.tests[i];
      }
      assert CountsAsTest(result) ==> Anchored(n, |db.tests|);
    }
  }

  lemma RecordedKeeps(cfg: Config, db: Db, id: nat, result: Status, status: Status)
    requires Consistent(cfg, db) && id in db.runs && !Live(result)
    requires status == result || (status == Held && (result == Failed || result == Error) && db.runs[id].status == Running)
    ensures var n := Recorded(db, id, db.runs[id].vm, result, status);
      && Consistent(cfg, n) && RowsStay(db, n, id) && (NoOrphans(n) <==> NoOrphans(db) && db.runs[id].test.None?)
  {
    var n := Recorded(db, id, db.runs[id].vm, result, status);
    RecordedOrphans(db, id, result, status);
    hide RowsOk, EnvsOk, OneRunning, NoOrphans;
    EnvsShrink(cfg, db, n, id);
    RowsStayOk(db, n, id);
  }

  /** The documented tests are in order: they and the runs that passed or were limited
      correspond one to one. */
  lemma TestsCorrespond(cfg: Config, db: Db)
    requires Consistent(cfg, db)
    ensures NoOrphans(db) ==> forall i :: 0 <= i < |db.tests| ==>
      && db.tests[i].run in db.runs && db.runs[db.tests[i].run].test == Some(i)
      && db.tests[i] == Test(db.runs[db.tests[i].run].vm, db.runs[db.tests[i].run].status, db.tests[i].run)
    ensures forall id :: id in db.runs && CountsAsTest(db.runs[id].status) ==> exists i :: 0 <= i < |db.tests| && db.tests[i].run == id
  {
    if NoOrphans(db) {
      forall i | 0 <= i < |db.tests|
        ensures db.tests[i].run in db.runs && db.runs[db.tests[i].run].test == Some(i)
          && RowOk(db.tests, db.tests[i].run, db.runs[db.tests[i].run])
      {
        assert Anchored(db, i);
      }
    }
    forall id | id in db.runs && CountsAsTest(db.runs[id].status) ensures exists i :: 0 <= i < |db.tests| && db.tests[i].run == id {
      assert RowOk(db.tests, id, db.runs[id]);
    }
  }

  /** Promoting a held run twice, as two overlapping re-tests can, documents it twice. */
  lemma DoublePromotion(cfg: Config, db: Db, id: nat)
    requires Consistent(cfg, db) && NoOrphans(db) && id in db.runs && db.runs[id].status == Held
    ensures var once := Recorded(db, id, db.runs[id].vm, Passed, Passed);
      NoOrphans(once) && !NoOrphans(Recorded(once, id, db.runs[id].vm, Passed, Passed))
  {
    assert RowOk(db.tests, id, db.runs[id]);
    RecordedKeeps(cfg, db, id, Passed, Passed);
    RecordedOrphans(Recorded(db, id, db.runs[id].vm, Passed, Passed), id, Passed, Passed);
  }

  /** The first live run keeps a guest's live runs at one. */
  lemma CreatedOneLive(db: Db, id: nat, vm: int, now: int, other: int)
    requires id !in db.runs && OneLive(db, other) && (other == vm ==> NeverPassedAndIdle(db, vm))
    ensures OneLive(Created(db, id, vm, now), other)
  {
  }
}
