/** Every life of the system: any sequence of operations of the worker, of crashes, resumes,
    recoveries and reaps, with others acting in between (app/services/restore_worker.py,
    app/services/restore_orchestrator.py, app/web/sync.py, app/web/routes_restore.py). */
module Life {
  import opened Wrappers
  import opened Alloc
  import opened RestoreRuns
  import opened RestoreQueue
  import opened Books
  import opened Steps
  import opened Script
  import opened Lifecycle

  // ---- every life of the system -----------------------------------------------------

  datatype Op =
    | Waits                                       // others act for a while
    | Starts(id: nat, hold: bool)                 // the drainer starts a queued run
    | Crashes(id: nat, hold: bool, stage: nat)    // .. and the application dies on the way
    | Resumes(id: nat, hold: bool)
    | Recovers(id: nat, recent: bool, taskRunning: bool, fate: Fate)
    | Overtakes(id: nat, recent: bool, taskRunning: bool, fate: Fate, result: Status, hold: bool, late: Fate)
    | Reaps(identityOk: bool, failsAfter: Option<nat>)

  // Between two operations: how long the log is, the host, and what is left of the script.
  datatype Mark = Mark(at: nat, guests: set<Guest>, script: seq<Step>)

  ghost predicate Startable(cfg: Config, db: Db, id: nat) {
    NoneRunning(db) && IsQueued(db, id) && CanAllocate(cfg, db)
  }

  ghost predicate StartsWith(part: seq<Event>, id: nat) {
    part != [] && part[0].what.Starting? && part[0].what.id == id
  }

  /** How a run that was started, or taken up again, has ended: its result is what the host
      answered, it is held exactly for a failure with the hold option, it counts as a test
      exactly when it passed or was limited, and the log has it. */
  ghost predicate Ended(hold: bool, id: nat, part: seq<Event>, n: Db) {
    && NoneRunning(n) && id in n.runs && n.runs[id].result.Some? && IsOutcome(n.runs[id].result.value)
    && var r := n.runs[id];
    && (r.status == if hold && (r.result.value == Failed || r.result.value == Error) then Held else r.result.value)
    && (r.test.Some? <==> r.status == Passed || r.status == Limited)
    && Records(part, 0, id, r.result.value, r.status)
  }

  /** The answers that led to a started run's result, and the one to the clean-up. */
  ghost predicate Decides(asked: bool, script: seq<Step>, id: nat, k: nat, e: Env, r: Run, guests: set<Guest>) {
    r.result.Some? && Tells(asked, script, id, k, r.result.value) && CleanedUp(Ahead(script, k), e, r.status == Held, guests)
  }

  function EnvOf(a: Allocation): Env {
    Env(Some(a.restoreVmid), Some(a.helperVmid), Some(a.vlanTag), Some(a.mgmtIp))
  }

  /** What an operation does: `part` is what it adds to the log, from `b` to `n`. */
  ghost predicate OpOk(cfg: Config, op: Op, b: Db, m: Mark, part: seq<Event>, n: Db, m': Mark) {
    match op
    case Waits => m'.script == RestOf(m.script) && forall k :: 0 <= k < |part| ==> part[k].what.ByWeb?
    case Starts(id, hold) =>
      if !Startable(cfg, b, id) then part == [] && m' == m
      else StartsWith(part, id) && Ended(hold, id, part, n)
           && exists k :: Decides(b.runs[id].cancelRequested, m.script, id, k, EnvOf(part[0].what.a), n.runs[id], m'.guests)
    case Crashes(id, hold, stage) =>
      if !Startable(cfg, b, id) then part == [] && m' == m
      else StartsWith(part, id) && if stage <= 1 then IsRunning(n, id)
           else NoneRunning(n) && id in n.runs && n.runs[id].result.Some? && exists k :: Tells(b.runs[id].cancelRequested, m.script, id, k, n.runs[id].result.value)
    case Resumes(id, hold) =>
      if !IsRunning(b, id) then part == [] && m' == m
      else StartsIn(part) == [] && (IsRunning(n, id)
           || (Ended(hold, id, part, n) && exists k :: Finds(m.script, k, n.runs[id].result.value, m'.script)))
    case Recovers(id, recent, taskRunning, fate) =>
      if !LooksStuck(b, m.guests, id, recent, taskRunning) then part == [] && m' == m
      else StartsIn(part) == [] && m'.script == m.script && NoneRunning(n) && id in n.runs && n.runs[id].status == Error
    case Overtakes(id, recent, taskRunning, fate, result, hold, late) =>
      if !(IsOutcome(result) && LooksStuck(b, m.guests, id, recent, taskRunning)) then part == [] && m' == m
      else StartsIn(part) == [] && NoneRunning(n) && part != [] && IsLate(part[|part| - 1], id, result, hold, late)
    case Reaps(identityOk, failsAfter) =>
      && part == [] && m'.script == m.script && m'.guests <= m.guests
      && (identityOk && failsAfter.None? && NoneRunning(b) ==> forall g :: g in m'.guests ==> exists id :: OwnedBy(b, id, g.vmid))
  }

  /** What holds in every state but after a clash: live environments are apart and in
      range, at most one run is running, and each row's result and test fit its status. */
  ghost predicate Safe(cfg: Config, db: Db) {
    && (forall i, j, v :: OwnedBy(db, i, v) && OwnedBy(db, j, v) ==> i == j)
    && (forall i, v :: OwnedBy(db, i, v) ==> cfg.vmidFrom <= v <= cfg.vmidTo)
    && EnvsOk(cfg, db) && OneRunning(db) && RowsOk(db)
  }

  lemma ConsistentIsSafe(cfg: Config, db: Db)
    ensures Consistent(cfg, db) <==> Safe(cfg, db)
  {
    if Consistent(cfg, db) {
      forall i, j, v | OwnedBy(db, i, v) && OwnedBy(db, j, v) ensures i == j {
        OwnedOnce(cfg, db, i, v);
      }
      forall i, v | OwnedBy(db, i, v) ensures cfg.vmidFrom <= v <= cfg.vmidTo {
        assert EnvOk(cfg, db.runs[i]);
      }
    }
  }

  ghost predicate Harmless(ends: seq<End>) {
    NoneRobs(ends) && NoneDoubles(ends)
  }

  /** The last step is a clash. */
  ghost predicate Clashed(log: seq<Event>) {
    log != [] && Clashes(log[|log| - 1])
  }

  /** A clash breaks what keeps environments apart. */
  lemma ClashBreaks(cfg: Config, e: Event)
    requires StepOk(cfg, e) && Clashes(e)
    ensures !EnvsOk(cfg, e.after.db)
  {
    var id, b, n := e.what.id, e.before.db, e.after.db;
    var j :| j in b.runs && j != id && Owns(b.runs[j])
      && !(Apart(HeldEnv(b.runs[id].env), b.runs[j].env) && Apart(b.runs[j].env, HeldEnv(b.runs[id].env)));
    assert n.runs[j] == b.runs[j] && n.runs[id].env == HeldEnv(b.runs[id].env);
  }

  lemma {:induction false} StartsConcat(a: seq<Event>, b: seq<Event>)
    ensures StartsIn(a + b) == StartsIn(a) + StartsIn(b)
  {
    hide StartsOf;
    if b == [] {
      assert a + b == a && StartsIn(a) + [] == StartsIn(a);
    } else {
      var init, last := b[..|b| - 1], b[|b| - 1];
      StartsConcat(a, init);
      assert (a + b)[..|a + b| - 1] == a + init && b == init + [last];
    }
  }

  /** The part added to a log. */
  lemma Added(log0: seq<Event>, log: seq<Event>) returns (part: seq<Event>)
    requires Grew(log0, log)
    ensures log == log0 + part && part == log[|log0|..]
    ensures StartsIn(log) == StartsIn(log0) ==> StartsIn(part) == []
  {
    part := log[|log0|..];
    StartsConcat(log0, part);
  }

  /** The k-th operation did what it does, between its two marks. */
  ghost predicate OpLogged(cfg: Config, ops: seq<Op>, log: seq<Event>, marks: seq<Mark>, k: nat)
    requires k < |ops| && k + 1 < |marks|
  {
    var m, m' := marks[k], marks[k + 1];
    && m.at <= m'.at <= |log|
    && OpOk(cfg, ops[k], After(log[..m.at]).db, m, log[m.at..m'.at], After(log[..m'.at]).db, m')
  }

  /** What others have done by then is the first part of the script. */
  ghost predicate WebsLogged(log: seq<Event>, m: Mark, script: seq<Step>) {
    m.at <= |log| && WebsIn(log[..m.at]) + Webs(m.script) == Webs(script)
  }

  // ---- one operation --------------------------------------------------------------------

  function MarkOf(log: seq<Event>, guests: set<Guest>, script: seq<Step>): Mark {
    Mark(|log|, guests, script)
  }

  method Wait(s: System) returns (ghost part: seq<Event>)
    requires s.Valid()
    modifies s
    ensures s.Valid() && s.log == old(s.log) + part && WebsIn(s.log) + Webs(s.script) == old(WebsIn(s.log) + Webs(s.script))
    ensures OpOk(s.cfg, Waits, old(s.db), old(MarkOf(s.log, s.guests, s.script)), part, s.db, MarkOf(s.log, s.guests, s.script))
  {
    hide Consistent, LogOk, Undisturbed, QueuedIds, GuestsStay, Goes, Grew;
    var o := s.Await();
    GoesGrew(old(s.Now()), s.Now());
    part := Added(old(s.log), s.log);
  }

  method Start(s: System, id: nat, hold: bool, crash: Option<nat>) returns (ghost part: seq<Event>)
    requires s.Valid()
    modifies s
    ensures s.Valid() && s.log == old(s.log) + part && WebsIn(s.log) + Webs(s.script) == old(WebsIn(s.log) + Webs(s.script))
    ensures OpOk(s.cfg, if crash.Some? then Crashes(id, hold, crash.value) else Starts(id, hold), old(s.db),
                 old(MarkOf(s.log, s.guests, s.script)), part, s.db, MarkOf(s.log, s.guests, s.script))
  {
    hide Consistent, LogOk, QueuedIds, NoneRunning, ListsOwned, Free, CanAllocate, Allocatable, Grew, OpOk, Ahead, Left,
         Tells, Records, CleanedUp;
    part := [];
    assert s.log + [] == s.log;
    ghost var b, m := s.db, MarkOf(s.log, s.guests, s.script);
    NotStartable(s.cfg, id, hold, crash, b, m);
    if !NoneRunning'(s.db) || !IsQueued(s.db, id) {
      return;
    }
    var owned := s.ActiveAndHeld();
    var a := Allocate(s.cfg, owned);
    AllocationFound(s.cfg, s.db, owned, a);
    if a.None? {
      return;
    }
    ghost var e := StartEvent(s.V(), s.guests, id, a.value);
    if crash.Some? {
      var n := s.StartAndCrash(id, a.value, hold, crash.value, owned);
      part := AddedFirst(old(s.log), e, s.log);
      CrashesOk(s.cfg, id, hold, crash.value, b, m, part, s.db, MarkOf(s.log, s.guests, s.script), n);
    } else {
      var status, n := s.Execute(id, a.value, hold, owned);
      part := AddedFirst(old(s.log), e, s.log);
      RowIsOk(s.cfg, s.db, id);
      RecordsIn(old(s.log), part, |old(s.log)| + 1, id, s.db.runs[id].result.value, status);
      StartsOk(s.cfg, id, hold, b, m, part, s.db, MarkOf(s.log, s.guests, s.script), n);
    }
  }

  lemma NotStartable(cfg: Config, id: nat, hold: bool, crash: Option<nat>, b: Db, m: Mark)
    ensures !Startable(cfg, b, id) ==>
      OpOk(cfg, if crash.Some? then Crashes(id, hold, crash.value) else Starts(id, hold), b, m, [], b, m)
  {
  }

  lemma StartsOk(cfg: Config, id: nat, hold: bool, b: Db, m: Mark, part: seq<Event>, n: Db, m': Mark, k: nat)
    requires Startable(cfg, b, id) && StartsWith(part, id) && Ended(hold, id, part, n)
    requires Decides(b.runs[id].cancelRequested, m.script, id, k, EnvOf(part[0].what.a), n.runs[id], m'.guests)
    ensures OpOk(cfg, Starts(id, hold), b, m, part, n, m')
  {
    hide Ended, Startable, Decides;
  }

  lemma CrashesOk(cfg: Config, id: nat, hold: bool, stage: nat, b: Db, m: Mark, part: seq<Event>, n: Db, m': Mark, k: nat)
    requires Startable(cfg, b, id) && StartsWith(part, id)
    requires if stage <= 1 then IsRunning(n, id)
             else NoneRunning(n) && id in n.runs && n.runs[id].result.Some? && Tells(b.runs[id].cancelRequested, m.script, id, k, n.runs[id].result.value)
    ensures OpOk(cfg, Crashes(id, hold, stage), b, m, part, n, m')
  {
    hide Startable, Tells, NoneRunning;
  }

  lemma ResumesOk(cfg: Config, id: nat, hold: bool, b: Db, m: Mark, part: seq<Event>, n: Db, m': Mark, k: nat)
    requires IsRunning(b, id) && StartsIn(part) == []
    requires IsRunning(n, id) || (Ended(hold, id, part, n) && Finds(m.script, k, n.runs[id].result.value, m'.script))
    ensures OpOk(cfg, Resumes(id, hold), b, m, part, n, m')
  {
    hide Ended, Finds, StartsIn;
  }

  lemma RecordsIn(log0: seq<Event>, part: seq<Event>, from: nat, id: nat, result: Status, status: Status)
    requires Records(log0 + part, from, id, result, status) && |log0| <= from
    ensures Records(part, 0, id, result, status)
  {
    var log := log0 + part;
    var k :| from <= k < |log| && log[k].what == Recording(id, result, status);
    assert part[k - |log0|] == log[k];
  }

  lemma AddedFirst(log0: seq<Event>, e: Event, log: seq<Event>) returns (part: seq<Event>)
    requires Grew(log0 + [e], log)
    ensures log == log0 + part && part != [] && part[0] == e
  {
    part := log[|log0|..];
  }

  method Continue(s: System, id: nat, hold: bool) returns (ghost part: seq<Event>)
    requires s.Valid()
    modifies s
    ensures s.Valid() && s.log == old(s.log) + part && WebsIn(s.log) + Webs(s.script) == old(WebsIn(s.log) + Webs(s.script))
    ensures OpOk(s.cfg, Resumes(id, hold), old(s.db), old(MarkOf(s.log, s.guests, s.script)), part, s.db, MarkOf(s.log, s.guests, s.script))
  {
    hide Consistent, LogOk, QueuedIds, NoneRunning, Goes, Grew, Undisturbed, OpOk, StartsIn, Finds, Left, Records;
    part := [];
    assert s.log + [] == s.log;
    if id in s.db.runs && s.db.runs[id].status == Running {
      ghost var b, m := s.db, MarkOf(s.log, s.guests, s.script);
      var status, n := s.Resume(id, hold);
      GoesGrew(old(s.Now()), s.Now());
      part := Added(old(s.log), s.log);
      if status != Running {
        RowIsOk(s.cfg, s.db, id);
        RecordsIn(old(s.log), part, |old(s.log)|, id, s.db.runs[id].result.value, status);
      }
      ResumesOk(s.cfg, id, hold, b, m, part, s.db, MarkOf(s.log, s.guests, s.script), n);
    } else {
      NotRunning(s.cfg, id, hold, s.db, MarkOf(s.log, s.guests, s.script));
    }
  }

  lemma NotRunning(cfg: Config, id: nat, hold: bool, b: Db, m: Mark)
    ensures !IsRunning(b, id) ==> OpOk(cfg, Resumes(id, hold), b, m, [], b, m)
  {
  }

  method RecoverRun(s: System, id: nat, recent: bool, taskRunning: bool, fate: Fate) returns (ghost part: seq<Event>)
    requires s.Valid()
    modifies s
    ensures s.Valid() && s.log == old(s.log) + part && WebsIn(s.log) + Webs(s.script) == old(WebsIn(s.log) + Webs(s.script))
    ensures OpOk(s.cfg, Recovers(id, recent, taskRunning, fate), old(s.db), old(MarkOf(s.log, s.guests, s.script)), part, s.db,
                 MarkOf(s.log, s.guests, s.script))
  {
    hide Consistent, LogOk, QueuedIds, NoneRunning, Grew, OpOk, StartsIn;
    part := [];
    assert s.log + [] == s.log;
    NothingDone(s.cfg, id, recent, taskRunning, fate, s.db, MarkOf(s.log, s.guests, s.script));
    if id in s.db.runs && s.db.runs[id].status == Running {
      ghost var b, m := s.db, MarkOf(s.log, s.guests, s.script);
      var recovered := s.Recover(id, recent, taskRunning, fate);
      if recovered {
        part := Added(old(s.log), s.log);
        assert WebsIn(s.log) + [] == WebsIn(s.log);
        RecoversOk(s.cfg, id, recent, taskRunning, fate, b, m, part, s.db, MarkOf(s.log, s.guests, s.script));
      }
    }
  }

  lemma NothingDone(cfg: Config, id: nat, recent: bool, taskRunning: bool, fate: Fate, b: Db, m: Mark)
    ensures !LooksStuck(b, m.guests, id, recent, taskRunning) ==>
      && OpOk(cfg, Recovers(id, recent, taskRunning, fate), b, m, [], b, m)
      && forall result, hold, late :: OpOk(cfg, Overtakes(id, recent, taskRunning, fate, result, hold, late), b, m, [], b, m)
    ensures forall result, hold, late :: !IsOutcome(result) ==> OpOk(cfg, Overtakes(id, recent, taskRunning, fate, result, hold, late), b, m, [], b, m)
  {
  }

  lemma RecoversOk(cfg: Config, id: nat, recent: bool, taskRunning: bool, fate: Fate, b: Db, m: Mark, part: seq<Event>, n: Db, m': Mark)
    requires LooksStuck(b, m.guests, id, recent, taskRunning) && StartsIn(part) == [] && m'.script == m.script
    requires NoneRunning(n) && id in n.runs && n.runs[id].status == Error
    ensures OpOk(cfg, Recovers(id, recent, taskRunning, fate), b, m, part, n, m')
  {
  }

  lemma OvertakesOk(cfg: Config, op: Op, b: Db, m: Mark, part: seq<Event>, n: Db, m': Mark)
    requires op.Overtakes? && IsOutcome(op.result) && LooksStuck(b, m.guests, op.id, op.recent, op.taskRunning)
    requires StartsIn(part) == [] && NoneRunning(n) && part != [] && IsLate(part[|part| - 1], op.id, op.result, op.hold, op.late)
    ensures OpOk(cfg, op, b, m, part, n, m')
  {
  }

  method Overtake(s: System, id: nat, recent: bool, taskRunning: bool, fate: Fate, result: Status, hold: bool, late: Fate)
    returns (clashed: bool, ghost part: seq<Event>)
    requires s.Valid()
    modifies s
    ensures s.Logged() && (Consistent(s.cfg, s.db) <==> !clashed) && (clashed ==> Clashed(s.log))
    ensures s.log == old(s.log) + part && WebsIn(s.log) + Webs(s.script) == old(WebsIn(s.log) + Webs(s.script))
    ensures OpOk(s.cfg, Overtakes(id, recent, taskRunning, fate, result, hold, late), old(s.db), old(MarkOf(s.log, s.guests, s.script)),
                 part, s.db, MarkOf(s.log, s.guests, s.script))
  {
    hide Consistent, LogOk, QueuedIds, NoneRunning, Goes, Grew, Clashes, RowsOk, OneRunning, OpOk, StartsIn;
    part, clashed := [], false;
    assert s.log + [] == s.log;
    ghost var b, m, op := s.db, MarkOf(s.log, s.guests, s.script), Overtakes(id, recent, taskRunning, fate, result, hold, late);
    NothingDone(s.cfg, id, recent, taskRunning, fate, b, m);
    if id in s.db.runs && s.db.runs[id].status == Running && IsOutcome(result) {
      var recovered;
      recovered, clashed := s.RecoverUnderWorker(id, recent, taskRunning, fate, result, hold, late);
      if recovered {
        GoesGrew(old(s.Now()), s.Now());
        part := Added(old(s.log), s.log);
        OvertakesOk(s.cfg, op, b, m, part, s.db, MarkOf(s.log, s.guests, s.script));
      }
    }
  }

  method Perform(s: System, op: Op) returns (clashed: bool, ghost part: seq<Event>)
    requires s.Valid()
    modifies s
    ensures s.Logged() && (Consistent(s.cfg, s.db) <==> !clashed) && (clashed ==> Clashed(s.log))
    ensures s.log == old(s.log) + part && WebsIn(s.log) + Webs(s.script) == old(WebsIn(s.log) + Webs(s.script))
    ensures OpOk(s.cfg, op, old(s.db), old(MarkOf(s.log, s.guests, s.script)), part, s.db, MarkOf(s.log, s.guests, s.script))
  {
    hide Consistent, LogOk, QueuedIds, NoneRunning, Clashed;
    clashed := false;
    match op
    case Waits => hide OpOk; part := Wait(s);
    case Starts(id, hold) => hide OpOk; part := Start(s, id, hold, None);
    case Crashes(id, hold, stage) => hide OpOk; part := Start(s, id, hold, Some(stage));
    case Resumes(id, hold) => hide OpOk; part := Continue(s, id, hold);
    case Recovers(id, recent, taskRunning, fate) => hide OpOk; part := RecoverRun(s, id, recent, taskRunning, fate);
    case Overtakes(id, recent, taskRunning, fate, result, hold, late) =>
      hide OpOk;
      clashed, part := Overtake(s, id, recent, taskRunning, fate, result, hold, late);
    case Reaps(identityOk, failsAfter) =>
      s.ReapOrphans(identityOk, failsAfter);
      part := [];
      assert s.log + [] == s.log;
  }

  // ---- operation after operation ----------------------------------------------------------

  lemma NothingLogged(guests: set<Guest>, script: seq<Step>)
    ensures AllWebsLogged([], [Mark(0, guests, script)], script) && !Clashed([])
  {
  }

  ghost predicate OpsLogged(cfg: Config, ops: seq<Op>, log: seq<Event>, marks: seq<Mark>) {
    0 < |marks| <= |ops| + 1 && forall k :: 0 <= k < |marks| - 1 ==> OpLogged(cfg, ops, log, marks, k)
  }

  ghost predicate AllWebsLogged(log: seq<Event>, marks: seq<Mark>, script: seq<Step>) {
    forall k :: 0 <= k < |marks| ==> WebsLogged(log, marks[k], script)
  }

  /** What was logged stays so in a longer log, with one operation more and its mark. */
  lemma OneMoreOp(cfg: Config, ops: seq<Op>, log0: seq<Event>, part: seq<Event>, marks: seq<Mark>, mark: Mark)
    requires OpsLogged(cfg, ops, log0, marks) && |marks| <= |ops| && marks[|marks| - 1].at == |log0| && mark.at == |log0 + part|
    requires OpOk(cfg, ops[|marks| - 1], After(log0).db, marks[|marks| - 1], part, After(log0 + part).db, mark)
    ensures OpsLogged(cfg, ops, log0 + part, marks + [mark])
  {
    var more := marks + [mark];
    LastOp(cfg, ops, log0, part, marks, mark);
    forall k | 0 <= k < |marks| ensures OpLogged(cfg, ops, log0 + part, more, k) {
      if k < |marks| - 1 {
        LongerOp(cfg, ops, log0, part, marks, more, k);
      }
    }
  }

  lemma LongerOp(cfg: Config, ops: seq<Op>, log0: seq<Event>, part: seq<Event>, marks: seq<Mark>, more: seq<Mark>, k: nat)
    requires k + 1 < |marks| <= |more| && k < |ops| && more[k] == marks[k] && more[k + 1] == marks[k + 1]
    requires OpLogged(cfg, ops, log0, marks, k)
    ensures OpLogged(cfg, ops, log0 + part, more, k)
  {
    hide OpOk, After;
    var m, m', log := marks[k], marks[k + 1], log0 + part;
    assert log[m.at..m'.at] == log0[m.at..m'.at] && log[..m.at] == log0[..m.at] && log[..m'.at] == log0[..m'.at];
  }

  lemma LastOp(cfg: Config, ops: seq<Op>, log0: seq<Event>, part: seq<Event>, marks: seq<Mark>, mark: Mark)
    requires 0 < |marks| <= |ops| && marks[|marks| - 1].at == |log0| && mark.at == |log0 + part|
    requires OpOk(cfg, ops[|marks| - 1], After(log0).db, marks[|marks| - 1], part, After(log0 + part).db, mark)
    ensures OpLogged(cfg, ops, log0 + part, marks + [mark], |marks| - 1)
  {
    hide OpOk, After;
    var log := log0 + part;
    assert log[..|log0|] == log0 && log[..|log|] == log && log[|log0|..|log|] == part;
  }

  lemma OneMoreMark(log0: seq<Event>, part: seq<Event>, marks: seq<Mark>, mark: Mark, script: seq<Step>)
    requires AllWebsLogged(log0, marks, script) && mark.at == |log0 + part| && WebsIn(log0 + part) + Webs(mark.script) == Webs(script)
    ensures AllWebsLogged(log0 + part, marks + [mark], script)
  {
    var log := log0 + part;
    assert log[..|log|] == log;
    forall k | 0 <= k < |marks| ensures WebsLogged(log, marks[k], script) {
      assert WebsLogged(log0, marks[k], script) && log[..marks[k].at] == log0[..marks[k].at];
    }
  }

  lemma LastWebs(log: seq<Event>, marks: seq<Mark>, m: Mark, script: seq<Step>)
    requires AllWebsLogged(log, marks, script) && marks != [] && m == marks[|marks| - 1] && m.at == |log|
    ensures WebsIn(log) + Webs(m.script) == Webs(script)
  {
    assert WebsLogged(log, m, script) && log[..|log|] == log;
  }

  /** Consistent tables mean that the last step was no clash. */
  lemma NoClash(cfg: Config, log: seq<Event>, v: View, robbed: bool)
    requires LogOk(cfg, log, v, robbed) && Clashed(log)
    ensures !Consistent(cfg, v.db)
  {
    ClashBreaks(cfg, log[|log| - 1]);
  }

  /** What the log of a life amounts to. */
  lemma LifeEnds(cfg: Config, log: seq<Event>, v: View, robbed: bool)
    requires LogOk(cfg, log, v, robbed)
    ensures IsLog(cfg, log) && After(log) == v
    ensures (!robbed && NoOrphans(v.db) <==> Harmless(EndsIn(log))) && (robbed <==> !NoneRobs(EndsIn(log)))
    ensures !Overlaps(log) ==> !robbed && NoOrphans(v.db) && !Clashed(log)
  {
    assert Clashed(log) ==> Overlapping(log[|log| - 1]);
  }

  /** Any configuration, any foreign guests on the host, any sequence of operations, any
      acts of others between the worker's steps and any outcomes of host operations. The
      log has every step, each one that can happen; the operations did what they do, in
      order, and others what the script says. Then live environments are apart unless an
      overtaken worker has held its run over another's VM or VLAN, with which the life
      stops; no run was robbed and every test belongs to its run if and only if every
      action was harmless when it ended; and all this holds if none overlapped. */
  method Live(cfg: Config, guests: set<Guest>, script: seq<Step>, ops: seq<Op>)
    returns (db: Db, done: nat, ghost log: seq<Event>, ghost marks: seq<Mark>, ghost robbed: bool)
    ensures IsLog(cfg, log) && After(log).db == db
    ensures done <= |ops| && |marks| == done + 1 && marks[0] == Mark(0, guests, script) && marks[done].at == |log|
    ensures OpsLogged(cfg, ops, log, marks) && AllWebsLogged(log, marks, script)
    ensures done < |ops| ==> Clashed(log)
    ensures Safe(cfg, db) <==> !Clashed(log)
    ensures !robbed && NoOrphans(db) <==> Harmless(EndsIn(log))
    ensures robbed <==> !NoneRobs(EndsIn(log))
    ensures !Overlaps(log) ==> Safe(cfg, db) && !robbed && NoOrphans(db)
  {
    hide Consistent, LogOk, AllWebsLogged, Clashed, OpOk, Safe, NoneRobs, NoOrphans, NoneDoubles, Overlaps, IsLog, Harmless;
    var s := new System(cfg, guests, script);
    done, marks := 0, [Mark(0, guests, script)];
    NothingLogged(guests, script);
    var clashed := false;
    while done < |ops| && !clashed
      invariant fresh(s) && s.cfg == cfg && done <= |ops| && |marks| == done + 1
      invariant s.Logged() && (Consistent(cfg, s.db) <==> !clashed) && (clashed ==> Clashed(s.log))
      invariant marks[0] == Mark(0, guests, script) && marks[done] == MarkOf(s.log, s.guests, s.script)
      invariant OpsLogged(cfg, ops, s.log, marks) && AllWebsLogged(s.log, marks, script)
      decreases |ops| - done
    {
      ghost var log0 := s.log;
      LifeEnds(cfg, s.log, s.V(), s.robbed);
      LastWebs(s.log, marks, marks[done], script);
      ghost var part;
      clashed, part := Perform(s, ops[done]);
      LifeEnds(cfg, s.log, s.V(), s.robbed);
      OneMoreOp(cfg, ops, log0, part, marks, MarkOf(s.log, s.guests, s.script));
      OneMoreMark(log0, part, marks, MarkOf(s.log, s.guests, s.script), script);
      marks := marks + [MarkOf(s.log, s.guests, s.script)];
      done := done + 1;
    }
    db, log, robbed := s.db, s.log, s.robbed;
    ConsistentIsSafe(cfg, db);
    LifeEnds(cfg, log, s.V(), robbed);
    if Clashed(log) {
      NoClash(cfg, log, s.V(), robbed);
    }
  }

  // ---- what overlapping actions do ---------------------------------------------------

  /** Two actions on one held run, not both discards: some outcome documents it twice. */
  lemma OverlapHarms(cfg: Config, db: Db, guests: set<Guest>, later: set<Guest>, a: Action, b: Action, fate: Fate)
    requires Consistent(cfg, db) && a.id == b.id && IsHeld(db, a.id) && (a.kind == Promoting || a.kind == Retesting)
    ensures !Doubles(EndOf(db, guests, a, true, fate)) && Doubles(EndOf(AfterEnd(db, a, true), later, b, true, fate))
  {
    assert RowOk(db.tests, a.id, db.runs[a.id]);
  }

  /** An action whose run has been ended by another one destroys another run's guest if and
      only if one it noted is on the host and belongs to a live run by now. */
  lemma SecondRobs(db: Db, guests: set<Guest>, a: Action, passed: bool, sweep: nat)
    requires Settled(db, a.id) && !Owns(db.runs[a.id]) && (a.kind == Retesting ==> passed)
    ensures Robs(EndOf(db, guests, a, passed, Fate(true, true, sweep))) <==>
      || (a.plan.restoreVmid.Some? && Guest(a.plan.restoreVmid.value, false) in guests && a.plan.restoreVmid.value in OwnedVmids(db))
      || (a.plan.helperVmid.Some? && Guest(a.plan.helperVmid.value, true) in guests && a.plan.helperVmid.value in OwnedVmids(db))
  {
    OwnedVmidsExact(db);
    forall v ensures OwnedByOther(db, a.id, v) <==> v in OwnedVmids(db) {
      if v in OwnedVmids(db) {
        var j :| OwnedBy(db, j, v);
        assert j != a.id;
      }
    }
  }

  /** A recovery that looked at a running run and ends after its worker has recorded a
      result leaves a test behind if and only if that result was passed or limited. */
  lemma RecoveryDropsTest(cfg: Config, db: Db, guests: set<Guest>, a: Action, result: Status, fate: Fate)
    requires Consistent(cfg, db) && NoOrphans(db) && IsRunning(db, a.id) && a.kind == Recovering && IsOutcome(result)
    ensures var done := Recorded(db, a.id, db.runs[a.id].vm, result, result);
      && (Doubles(EndOf(done, guests, a, false, fate)) <==> CountsAsTest(result))
      && (NoOrphans(AfterEnd(done, a, false)) <==> !CountsAsTest(result))
  {
    assert RowOk(db.tests, a.id, db.runs[a.id]);
    RecordedKeeps(cfg, db, a.id, result, result);
    RecordedOrphans(Recorded(db, a.id, db.runs[a.id].vm, result, result), a.id, Error, Error);
  }

  /** A life in which two actions overlap: a held run is being re-tested when it is
      discarded; the next run takes its VMID, and loses its VM when the re-test ends. */
  lemma StaleRetest(cfg: Config, held: Db, guests: set<Guest>)
    requires cfg == Config(1, 3, 1, 9, 1, 9) && guests == {Guest(1, false), Guest(2, true)}
    requires held == Db(map[0 := Run(7, Held, Some(Failed), None, None, 0, false, Env(Some(1), None, Some(1), None))], [])
    ensures var plan := Env(Some(1), Some(3), Some(1), Some(1));
      var retesting := HelperSet(held, 0, Some(3), Some(1));
      var discarded := AfterEnd(retesting, Action(0, Discarding, plan), false);
      var running := Started(Created(discarded, 1, 8, 60), 1, Allocation(1, 2, 1, 1));
      && GivesHelper(cfg, held, retesting, 0) && Allocatable(cfg, discarded, Allocation(1, 2, 1, 1)) && IsRunning(running, 1)
      && Robs(EndOf(running, guests, Action(0, Retesting, plan), true, Fate(true, true, 0)))
  {
    var plan := Env(Some(1), Some(3), Some(1), Some(1));
    var discarded := AfterEnd(HelperSet(held, 0, Some(3), Some(1)), Action(0, Discarding, plan), false);
    var running := Started(Created(discarded, 1, 8, 60), 1, Allocation(1, 2, 1, 1));
    assert ListsOwned(held, [held.runs[0].env]) && Free(cfg, [held.runs[0].env], Allocation(2, 3, 2, 1));
    assert Allocatable(cfg, held, Allocation(2, 3, 2, 1));
    assert !Owns(discarded.runs[0]) && discarded.runs.Keys == {0} && ListsOwned(discarded, []);
    assert Free(cfg, [], Allocation(1, 2, 1, 1));
    assert OwnedBy(running, 1, 1) && 1 in OwnedVmids(running) && Settled(running, 0);
    SecondRobs(running, guests, Action(0, Retesting, plan), true, 0);
  }

  lemma RecoveredOk(cfg: Config, recovered: Db)
    requires cfg == Config(1, 9, 1, 9, 1, 9)
    requires recovered == Db(map[
      0 := Run(7, Error, Some(Error), None, None, 0, true, Env(Some(2), Some(4), Some(1), Some(1))),
      1 := Run(8, Held, Some(Failed), None, None, 0, false, Env(Some(3), None, Some(2), None))], [])
    ensures Consistent(cfg, recovered)
  {
    forall i | i in recovered.runs ensures RowOk(recovered.tests, i, recovered.runs[i]) && (Owns(recovered.runs[i]) <==> i == 1) {}
    hide RowOk, Owns;
    assert EnvOk(cfg, recovered.runs[1]);
  }

  /** An overtaken worker that holds its run although a re-test has its VMID by now: run 0
      was recovered with VMID 2 on record, and the helper of run 1 got that VMID. */
  lemma LateHoldClashes(cfg: Config, recovered: Db)
    requires cfg == Config(1, 9, 1, 9, 1, 9)
    requires recovered == Db(map[
      0 := Run(7, Error, Some(Error), None, None, 0, true, Env(Some(2), Some(4), Some(1), Some(1))),
      1 := Run(8, Held, Some(Failed), None, None, 0, false, Env(Some(3), None, Some(2), None))], [])
    ensures var retesting := HelperSet(recovered, 1, Some(2), Some(1));
      && GivesHelper(cfg, recovered, retesting, 1) && Consistent(cfg, retesting)
      && !Safe(cfg, LateDb(retesting, 0, Error, true))
  {
    var retesting, env := HelperSet(recovered, 1, Some(2), Some(1)), recovered.runs[1].env;
    assert ListsOwned(recovered, [env]) && Free(cfg, [env], Allocation(1, 2, 1, 1));
    assert Allocatable(cfg, recovered, Allocation(1, 2, 1, 1));
    RecoveredOk(cfg, recovered);
    hide Consistent;
    HelperSetKeeps(cfg, recovered, [env], 1, Allocation(1, 2, 1, 1));
    assert retesting.runs[1].env == Env(Some(3), Some(2), Some(2), Some(1));
    assert TakenOver(retesting, 0) by {
      assert 2 in VmidsOf(retesting.runs[1].env) && 2 in VmidsOf(HeldEnv(retesting.runs[0].env));
    }
    LateUnsafe(cfg, retesting);
  }

  lemma LateUnsafe(cfg: Config, db: Db)
    requires Consistent(cfg, db) && Settled(db, 0) && VmInRange(cfg, db.runs[0].env) && TakenOver(db, 0)
    ensures !Safe(cfg, LateDb(db, 0, Error, true))
  {
    hide RowsOk, OneRunning, TakenOver;
    LateEnvs(cfg, db, 0, Error);
  }
}
