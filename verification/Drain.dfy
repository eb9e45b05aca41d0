/** The queue drainer (`drain` in app/services/restore_orchestrator.py). What the
    drainer finds out about a run and about the pause switch is given by two oracles;
    listing the queue and judging its runs is one step, while others may act whenever a
    run executes. */
module Drain {
  import opened Wrappers
  import opened Alloc
  import opened RestoreRuns
  import opened RestoreQueue
  import opened Books
  import opened Steps
  import opened Script
  import opened Lifecycle

  // What `_candidate_for_vm`, `build_plan` and the checks after it say about a run.
  // Refusals before and after the allocation differ when no address is free.
  datatype Judgement =
    | NoCandidate
    | RefusedEarly
    | RefusedLate
    | Planned(fitsDisk: bool, fitsRam: bool, benchmarked: bool, hold: bool)

  datatype Verdict = Dequeued | WaitsForAddress | NoDisk | NoRam | Benchmarked | Runnable

  function Judge(j: Judgement, canAllocate: bool): Verdict {
    match j
    case NoCandidate => Dequeued
    case RefusedEarly => Dequeued
    case RefusedLate => if canAllocate then Dequeued else WaitsForAddress
    case Planned(disk, ram, busy, _) =>
      if !canAllocate then WaitsForAddress else if !disk then NoDisk else if !ram then NoRam
      else if busy then Benchmarked else Runnable
  }

  // How a pass over the queue ends.
  datatype PassEnd = Begun(status: Status) | OutOfAddresses | NothingFits

  /** The verdicts of a pass: each run of the queue in turn, up to the first that can
      start or for which no address is free. */
  ghost predicate IsPass(q: seq<nat>, judge: nat -> Judgement, canAllocate: bool, verdicts: seq<Verdict>, end: PassEnd) {
    && |verdicts| <= |q|
    && (forall k :: 0 <= k < |verdicts| ==> verdicts[k] == Judge(judge(q[k]), canAllocate))
    && (forall k :: 0 <= k < |verdicts| - 1 ==> Skipped(verdicts[k]))
    && match end
       case Begun(_) => verdicts != [] && verdicts[|verdicts| - 1] == Runnable
       case OutOfAddresses => verdicts != [] && verdicts[|verdicts| - 1] == WaitsForAddress && !canAllocate
       case NothingFits => |verdicts| == |q| && forall v :: v in verdicts ==> Skipped(v)
  }

  predicate Skipped(v: Verdict) {
    v != Runnable && v != WaitsForAddress
  }

  /** Everything of the queue that has not been dequeued is still queued. */
  ghost predicate PassState(db0: Db, db: Db, q: seq<nat>, verdicts: seq<Verdict>)
    requires |verdicts| <= |q|
  {
    && db.runs.Keys == db0.runs.Keys
    && (forall id :: id in db.runs && !(exists k :: 0 <= k < |verdicts| && q[k] == id && verdicts[k] == Dequeued)
          ==> db.runs[id] == db0.runs[id])
    && (forall k :: 0 <= k < |verdicts| && verdicts[k] == Dequeued ==> q[k] in db.runs && db.runs[q[k]].status == Error)
  }

  lemma QueueDistinct(db: Db, q: seq<nat>, j: nat, k: nat)
    requires IsQueue(db, q) && j < k < |q|
    ensures q[j] != q[k]
  {
    PrecedesTotal(db, q[j], q[k], q[j]);
  }

  /** `record_run_result(.., "error")` for a run that cannot run. */
  lemma DequeueStep(cfg: Config, db: Db, id: nat)
    requires Consistent(cfg, db) && NoneRunning(db) && IsQueued(db, id)
    ensures var n := Recorded(db, id, db.runs[id].vm, Error, Error);
      && Consistent(cfg, n) && NoneRunning(n) && n.runs.Keys == db.runs.Keys && (NoOrphans(n) <==> NoOrphans(db)) && RowsStay(db, n, id)
      && (forall i :: i in db.runs && i != id ==> n.runs[i] == db.runs[i]) && n.runs[id].status == Error
      && (forall owned :: ListsOwned(n, owned) <==> ListsOwned(db, owned))
      && |QueuedIds(n)| < |QueuedIds(db)|
  {
    assert RowOk(db.tests, id, db.runs[id]);
    RecordedKeeps(cfg, db, id, Error, Error);
    hide Consistent, NoOrphans, RowsStay;
    Sizes(QueuedIds(Recorded(db, id, db.runs[id].vm, Error, Error)), QueuedIds(db), id);
    DequeueOwned(db, id);
  }

  lemma DequeueOwned(db: Db, id: nat)
    requires IsQueued(db, id)
    ensures forall owned :: ListsOwned(Recorded(db, id, db.runs[id].vm, Error, Error), owned) <==> ListsOwned(db, owned)
  {
    var n := Recorded(db, id, db.runs[id].vm, Error, Error);
    forall i ensures i in n.runs && Owns(n.runs[i]) <==> i in db.runs && Owns(db.runs[i]) {}
    forall owned ensures ListsOwned(n, owned) <==> ListsOwned(db, owned) {
      ListsSame(db, n, owned);
      ListsSame(n, db, owned);
    }
  }

  lemma ListsSame(db: Db, n: Db, owned: seq<Env>)
    requires forall i :: i in n.runs && Owns(n.runs[i]) <==> i in db.runs && Owns(db.runs[i])
    requires forall i :: i in db.runs && Owns(db.runs[i]) ==> n.runs[i] == db.runs[i]
    ensures ListsOwned(db, owned) ==> ListsOwned(n, owned)
  {
  }

  /** What a pass needs to know about the rows it has not come to yet. */
  lemma StillQueued(db0: Db, db: Db, q: seq<nat>, verdicts: seq<Verdict>)
    requires IsQueue(db0, q) && |verdicts| < |q| && PassState(db0, db, q, verdicts)
    ensures IsQueued(db, q[|verdicts|])
  {
    var id := q[|verdicts|];
    assert id in q;
    forall k | 0 <= k < |verdicts| ensures q[k] != id {
      QueueDistinct(db0, q, k, |verdicts|);
    }
  }

  lemma SkipState(db0: Db, db: Db, q: seq<nat>, verdicts: seq<Verdict>, v: Verdict)
    requires |verdicts| < |q| && PassState(db0, db, q, verdicts) && v != Dequeued
    ensures PassState(db0, db, q, verdicts + [v])
  {
    var w := verdicts + [v];
    forall id | id in db.runs && !(exists k :: 0 <= k < |w| && q[k] == id && w[k] == Dequeued) ensures db.runs[id] == db0.runs[id] {
      assert forall k :: 0 <= k < |verdicts| ==> w[k] == verdicts[k];
    }
  }

  lemma DequeueState(db0: Db, db: Db, n: Db, q: seq<nat>, verdicts: seq<Verdict>)
    requires |verdicts| < |q| && PassState(db0, db, q, verdicts) && IsQueue(db0, q) && n.runs.Keys == db.runs.Keys
    requires forall i :: i in db.runs && i != q[|verdicts|] ==> n.runs[i] == db.runs[i]
    requires q[|verdicts|] in n.runs && n.runs[q[|verdicts|]].status == Error
    ensures PassState(db0, n, q, verdicts + [Dequeued])
  {
    var w := verdicts + [Dequeued];
    forall id | id in n.runs && !(exists k :: 0 <= k < |w| && q[k] == id && w[k] == Dequeued) ensures n.runs[id] == db0.runs[id] {
      assert w[|verdicts|] == Dequeued;
      assert forall k :: 0 <= k < |verdicts| ==> w[k] == verdicts[k];
    }
    forall k | 0 <= k < |w| && w[k] == Dequeued ensures q[k] in n.runs && n.runs[q[k]].status == Error {
      if k < |verdicts| {
        QueueDistinct(db0, q, k, |verdicts|);
      }
    }
  }

  /** The same environments are owned in both states. */
  ghost predicate SameOwned(db: Db, n: Db) {
    forall owned :: ListsOwned(n, owned) <==> ListsOwned(db, owned)
  }

  /** The run has ended with this status; it is held exactly for a failure with the hold option. */
  ghost predicate Ended(db: Db, id: nat, status: Status, hold: bool) {
    && id in db.runs && db.runs[id].status == status && db.runs[id].result.Some? && IsOutcome(db.runs[id].result.value)
    && var result := db.runs[id].result.value;
    && status == if hold && (result == Failed || result == Error) then Held else result
  }

  ghost predicate AllSkipped(q: seq<nat>, judge: nat -> Judgement, can: bool, verdicts: seq<Verdict>) {
    |verdicts| <= |q| && forall k :: 0 <= k < |verdicts| ==> verdicts[k] == Judge(judge(q[k]), can) && Skipped(verdicts[k])
  }

  /** One more verdict: the pass goes on, or it ends. */
  lemma PassStep(q: seq<nat>, judge: nat -> Judgement, can: bool, verdicts: seq<Verdict>, v: Verdict)
    requires AllSkipped(q, judge, can, verdicts) && |verdicts| < |q| && v == Judge(judge(q[|verdicts|]), can)
    ensures Skipped(v) ==> AllSkipped(q, judge, can, verdicts + [v])
    ensures v == Runnable ==> forall status :: IsPass(q, judge, can, verdicts + [v], Begun(status))
    ensures v == WaitsForAddress ==> IsPass(q, judge, can, verdicts + [v], OutOfAddresses)
  {
  }

  lemma PassOver(q: seq<nat>, judge: nat -> Judgement, can: bool, verdicts: seq<Verdict>)
    requires AllSkipped(q, judge, can, verdicts) && |verdicts| == |q|
    ensures IsPass(q, judge, can, verdicts, NothingFits)
  {
  }

  lemma NothingSkipped(q: seq<nat>, judge: nat -> Judgement, can: bool)
    ensures AllSkipped(q, judge, can, [])
  {
  }

  /** What the loop finds out about one run, and the environment for it if it can start. */
  method JudgeRun(s: System, j: Judgement, ghost db0: Db) returns (v: Verdict, a: Allocation, ghost owned: seq<Env>)
    requires SameOwned(db0, s.db)
    ensures v == Judge(j, CanAllocate(s.cfg, db0)) && (v == Runnable ==> j.Planned? && ListsOwned(s.db, owned) && Free(s.cfg, owned, a))
  {
    hide ListsOwned, Free, CanAllocate, SameOwned;
    owned, a := [], Allocation(0, 0, 0, 0);
    if j.NoCandidate? || j.RefusedEarly? {
      return Dequeued, a, owned;
    }
    var envs := s.ActiveAndHeld();
    var found := Allocate(s.cfg, envs);
    AllocationDecides(s.cfg, db0, s.db, envs, found);
    if found.None? {
      return WaitsForAddress, a, owned;
    }
    a, owned := found.value, envs;
    if j.RefusedLate? {
      v := Dequeued;
    } else if !j.fitsDisk {
      v := NoDisk;
    } else if !j.fitsRam {
      v := NoRam;
    } else if j.benchmarked {
      v := Benchmarked;
    } else {
      v := Runnable;
    }
  }

  /** One pass of the inner loop: it starts the first runnable run of the queue, and no other. */
  method Pass(s: System, q: seq<nat>, judge: nat -> Judgement) returns (end: PassEnd, verdicts: seq<Verdict>, ghost at: Db)
    requires s.Valid() && NoneRunning(s.db) && IsQueue(s.db, q)
    modifies s
    ensures s.Valid() && NoneRunning(s.db)
    ensures IsPass(q, judge, old(CanAllocate(s.cfg, s.db)), verdicts, end)
    ensures PassState(old(s.db), at, q, verdicts)
    ensures !end.Begun? ==> at == s.db && SameOwned(old(s.db), s.db) && s.Work() <= old(s.Work()) && StartsIn(s.log) == old(StartsIn(s.log))
    ensures end.Begun? ==>
      s.Work() < old(s.Work()) && Ended(s.db, q[|verdicts| - 1], end.status, judge(q[|verdicts| - 1]).Planned? && judge(q[|verdicts| - 1]).hold) && StartsIn(s.log) == old(StartsIn(s.log)) + [Start(at, q[|verdicts| - 1])]
  {
    hide Consistent, LogOk, NoneRunning, IsQueue, ListsOwned, Free, PassState, QueuedIds, IsPass, AllSkipped, SameOwned, CanAllocate, StartsIn,
         Tells, Records, CleanedUp, Left, Ahead, Grew, Judge;
    ghost var db0, can := s.db, CanAllocate(s.cfg, s.db);
    NothingJudged(s.db, q);
    NothingSkipped(q, judge, can);
    verdicts := [];
    for k := 0 to |q|
      invariant s.Valid() && NoneRunning(s.db) && SameOwned(db0, s.db)
      invariant |verdicts| == k && PassState(db0, s.db, q, verdicts) && s.Work() <= old(s.Work()) && StartsIn(s.log) == old(StartsIn(s.log))
      invariant AllSkipped(q, judge, can, verdicts)
    {
      var id, j := q[k], judge(q[k]);
      StillQueued(db0, s.db, q, verdicts);
      PassStep(q, judge, can, verdicts, Judge(j, can));
      var v, a;
      ghost var owned;
      v, a, owned := JudgeRun(s, j, db0);
      if v == Dequeued {
        DropRun(s, db0, q, k, verdicts);
        verdicts := verdicts + [v];
        continue;
      }
      SkipState(db0, s.db, q, verdicts, v);
      if v == Runnable {
        at := s.db;
        var status, n := s.Execute(id, a, j.hold, owned);
        return Begun(status), verdicts + [v], at;
      }
      verdicts := verdicts + [v];
      if v == WaitsForAddress {
        return OutOfAddresses, verdicts, s.db;
      }
    }
    PassOver(q, judge, can, verdicts);
    end, at := NothingFits, s.db;
  }

  lemma NothingJudged(db: Db, q: seq<nat>)
    ensures PassState(db, db, q, []) && SameOwned(db, db)
  {
  }

  lemma AllocationDecides(cfg: Config, db0: Db, db: Db, owned: seq<Env>, a: Option<Allocation>)
    requires SameOwned(db0, db) && ListsOwned(db, owned)
    requires (a.None? <==> !exists b :: Free(cfg, owned, b)) && (a.Some? ==> Free(cfg, owned, a.value))
    ensures CanAllocate(cfg, db0) <==> a.Some?
  {
    AllocationFound(cfg, db, owned, a);
    SameAllocations(cfg, db0, db);
  }

  lemma SameAllocations(cfg: Config, db0: Db, db: Db)
    requires SameOwned(db0, db)
    ensures CanAllocate(cfg, db0) <==> CanAllocate(cfg, db)
  {
    forall b ensures Allocatable(cfg, db0, b) <==> Allocatable(cfg, db, b) {}
  }

  /** `record_run_result(.., "error")` for the next run of the queue. */
  method DropRun(s: System, ghost db0: Db, q: seq<nat>, k: nat, ghost verdicts: seq<Verdict>)
    requires s.Valid() && NoneRunning(s.db) && IsQueue(db0, q) && SameOwned(db0, s.db)
    requires k == |verdicts| < |q| && PassState(db0, s.db, q, verdicts) && IsQueued(s.db, q[k])
    modifies s`db, s`log
    ensures s.Valid() && NoneRunning(s.db) && SameOwned(db0, s.db) && StartsIn(s.log) == old(StartsIn(s.log)) && PassState(db0, s.db, q, verdicts + [Dequeued])
    ensures s.Work() < old(s.Work())
  {
    hide Consistent, LogOk, NoOrphans, RowsStay, NoneRunning, IsQueue, ListsOwned, PassState, QueuedIds;
    ghost var before := s.db;
    DequeueStep(s.cfg, s.db, q[k]);
    s.DropQueued(q[k]);
    DequeueState(db0, before, s.db, q, verdicts);
  }

  // ---- the whole drain -----------------------------------------------------------------

  // What happened, in order: a look at the pause switch, or a start: the tables when the
  // queue was listed, the queue, the verdicts of the pass, and the tables at the start.
  datatype Happening =
    | Checked(paused: bool)
    | Begins(listed: Db, queue: seq<nat>, verdicts: seq<Verdict>, at: Db, status: Status)

  datatype Stop = Paused | RunActive | QueueEmpty | AddressWait | NothingRunnable

  /** The n-th event: pass `n / 2` looks at the pause switch, then starts the first
      runnable run of the queue as it is at that moment. */
  ghost predicate HappeningOk(cfg: Config, paused: nat -> bool, judge: nat -> nat -> Judgement, n: nat, e: Happening) {
    match e
    case Checked(p) => n % 2 == 0 && p == paused(n / 2)
    case Begins(listed, q, verdicts, at, status) =>
      && n % 2 == 1 && IsQueue(listed, q) && IsPass(q, judge(n / 2), CanAllocate(cfg, listed), verdicts, Begun(status))
      && PassState(listed, at, q, verdicts)
  }

  /** The starts among the events: the run is the one the pass came to last. */
  ghost function StartsAmong(trace: seq<Happening>): seq<Start> {
    if trace == [] then []
    else
      var e := trace[|trace| - 1];
      StartsAmong(trace[..|trace| - 1]) + if e.Begins? && e.verdicts != [] && |e.verdicts| <= |e.queue|
                                       then [Start(e.at, e.queue[|e.verdicts| - 1])] else []
  }

  lemma StartsSnoc(trace: seq<Happening>, e: Happening)
    ensures StartsAmong(trace + [e]) == StartsAmong(trace) + if e.Begins? && e.verdicts != [] && |e.verdicts| <= |e.queue|
                                                       then [Start(e.at, e.queue[|e.verdicts| - 1])] else []
  {
    assert (trace + [e])[..|trace|] == trace;
  }

  ghost predicate TraceOk(cfg: Config, paused: nat -> bool, judge: nat -> nat -> Judgement, trace: seq<Happening>) {
    && (forall n :: 0 <= n < |trace| ==> HappeningOk(cfg, paused, judge, n, trace[n]))
    && (forall n :: 0 < n < |trace| && trace[n].Begins? ==> trace[n - 1] == Checked(false))
  }

  /** The start in terms of what was found out: an environment was free; the run that started
      was planned, fitted disk and memory, and no benchmark ran on its storages. Each run before
      it in the queue either lacked one of these and stays queued, or could not be planned and
      has been ended. */
  ghost predicate StartedRight(cfg: Config, judge: nat -> Judgement, listed: Db, q: seq<nat>, at: Db, k: int, status: Status) {
    && 0 <= k < |q| && CanAllocate(cfg, listed)
    && judge(q[k]).Planned? && judge(q[k]).fitsDisk && judge(q[k]).fitsRam && !judge(q[k]).benchmarked
    && (IsOutcome(status) || (status == Held && judge(q[k]).hold))
    && forall i :: 0 <= i < k ==>
      && q[i] in at.runs && q[i] in listed.runs
      && if judge(q[i]).Planned?
         then (!judge(q[i]).fitsDisk || !judge(q[i]).fitsRam || judge(q[i]).benchmarked) && at.runs[q[i]] == listed.runs[q[i]]
         else at.runs[q[i]].status == Error
  }

  lemma BegunRight(cfg: Config, judge: nat -> Judgement, listed: Db, q: seq<nat>, at: Db, verdicts: seq<Verdict>, status: Status)
    requires IsQueue(listed, q) && IsPass(q, judge, CanAllocate(cfg, listed), verdicts, Begun(status)) && PassState(listed, at, q, verdicts)
    requires IsOutcome(status) || (status == Held && judge(q[|verdicts| - 1]).Planned? && judge(q[|verdicts| - 1]).hold)
    ensures StartedRight(cfg, judge, listed, q, at, |verdicts| - 1, status)
  {
    hide CanAllocate, IsQueue;
    var last := |verdicts| - 1;
    var can := CanAllocate(cfg, listed);
    assert verdicts[last] == Judge(judge(q[last]), can);
    forall i | 0 <= i < last
      ensures q[i] in at.runs && q[i] in listed.runs
      ensures if judge(q[i]).Planned?
              then (!judge(q[i]).fitsDisk || !judge(q[i]).fitsRam || judge(q[i]).benchmarked) && at.runs[q[i]] == listed.runs[q[i]]
              else at.runs[q[i]].status == Error
    {
      assert verdicts[i] == Judge(judge(q[i]), can) && Skipped(verdicts[i]);
      InQueue(listed, q, i);
      if verdicts[i] != Dequeued {
        KeptRow(listed, at, q, verdicts, i);
      }
    }
  }

  lemma InQueue(db: Db, q: seq<nat>, i: nat)
    requires IsQueue(db, q) && i < |q|
    ensures IsQueued(db, q[i])
  {
    assert q[i] in q;
  }

  /** A run of the queue that was not dequeued is as it was. */
  lemma KeptRow(db0: Db, db: Db, q: seq<nat>, verdicts: seq<Verdict>, i: nat)
    requires IsQueue(db0, q) && i < |verdicts| <= |q| && PassState(db0, db, q, verdicts) && verdicts[i] != Dequeued
    ensures q[i] in db.runs && q[i] in db0.runs && db.runs[q[i]] == db0.runs[q[i]]
  {
    InQueue(db0, q, i);
    forall k | 0 <= k < |verdicts| && q[k] == q[i] ensures k == i {
      if k < i {
        QueueDistinct(db0, q, k, i);
      } else if i < k {
        QueueDistinct(db0, q, i, k);
      }
    }
  }

  /** Every start of a trace was right. */
  ghost predicate AllRight(cfg: Config, judge: nat -> nat -> Judgement, trace: seq<Happening>) {
    forall n :: 0 <= n < |trace| && trace[n].Begins? ==>
      StartedRight(cfg, judge(n / 2), trace[n].listed, trace[n].queue, trace[n].at, |trace[n].verdicts| - 1, trace[n].status)
  }

  lemma OneMoreRight(cfg: Config, judge: nat -> nat -> Judgement, trace: seq<Happening>, pass: nat, e: Happening)
    requires AllRight(cfg, judge, trace)
    requires e.Begins? ==> |trace| == 2 * pass + 1 && StartedRight(cfg, judge(pass), e.listed, e.queue, e.at, |e.verdicts| - 1, e.status)
    ensures AllRight(cfg, judge, trace + [e])
  {
    hide StartedRight;
    assert |trace| == 2 * pass + 1 ==> |trace| / 2 == pass;
  }

  /** Every run still queued was planned in this pass, and found not to fit, or its storage
      to be benchmarked. */
  ghost predicate AllBlocked(db: Db, judge: nat -> Judgement) {
    forall id :: IsQueued(db, id) ==>
      judge(id).Planned? && (!judge(id).fitsDisk || !judge(id).fitsRam || judge(id).benchmarked)
  }

  lemma PassBlocks(db0: Db, db: Db, q: seq<nat>, judge: nat -> Judgement, can: bool, verdicts: seq<Verdict>)
    requires IsQueue(db0, q) && IsPass(q, judge, can, verdicts, NothingFits) && PassState(db0, db, q, verdicts)
    ensures AllBlocked(db, judge)
  {
    forall id | IsQueued(db, id)
      ensures judge(id).Planned? && (!judge(id).fitsDisk || !judge(id).fitsRam || judge(id).benchmarked)
    {
      assert !(exists k :: 0 <= k < |verdicts| && q[k] == id && verdicts[k] == Dequeued);
      assert id in q;
      var k :| 0 <= k < |q| && q[k] == id;
      assert Skipped(verdicts[k]) && verdicts[k] == Judge(judge(id), can);
    }
  }

  /** Some queued run needs an environment: it was planned, or would be refused only then. */
  ghost predicate SomeWaits(db: Db, judge: nat -> Judgement) {
    exists id :: IsQueued(db, id) && (judge(id).Planned? || judge(id).RefusedLate?)
  }

  lemma PassWaits(db0: Db, db: Db, q: seq<nat>, judge: nat -> Judgement, can: bool, verdicts: seq<Verdict>)
    requires IsQueue(db0, q) && IsPass(q, judge, can, verdicts, OutOfAddresses) && PassState(db0, db, q, verdicts)
    ensures SomeWaits(db, judge)
  {
    var last := |verdicts| - 1;
    assert verdicts[last] == Judge(judge(q[last]), can);
    InQueue(db0, q, last);
    KeptRow(db0, db, q, verdicts, last);
    assert IsQueued(db, q[last]);
  }

  /** `drain`, for any pause switch, any answers about the runs, and any acts of others
      while a run executes. It ends, because every pass that does not end it dequeues or
      starts a run, and others can enqueue only finitely often. */
  method Drain(s: System, paused: nat -> bool, judge: nat -> nat -> Judgement) returns (stop: Stop, ghost trace: seq<Happening>)
    requires s.Valid()
    modifies s
    ensures s.Valid()
    ensures TraceOk(s.cfg, paused, judge, trace) && |trace| % 2 == 1
    ensures trace[|trace| - 1] == Checked(stop.Paused?)
    ensures stop.RunActive? <==> |trace| == 1 && !stop.Paused? && !NoneRunning(old(s.db))
    ensures NoneRunning(old(s.db)) ==> NoneRunning(s.db)
    ensures StartsIn(s.log) == old(StartsIn(s.log)) + StartsAmong(trace)
    ensures stop.QueueEmpty? ==> forall id :: !IsQueued(s.db, id)
    ensures AllRight(s.cfg, judge, trace)
    ensures stop.AddressWait? ==> !CanAllocate(s.cfg, s.db) && SomeWaits(s.db, judge(|trace| / 2))
    ensures stop.NothingRunnable? ==> AllBlocked(s.db, judge(|trace| / 2))
  {
    hide Consistent, LogOk, NoneRunning, IsQueue, ListsOwned, Free, PassState, QueuedIds, IsPass, CanAllocate, AllBlocked, IsQueued, SameOwned, StartsAmong, StartsIn, TraceOk, HappeningOk, AllRight, SomeWaits, StartedRight;
    NoStarts(s.cfg, paused, judge);
    trace := [];
    var pass := 0;
    while true
      invariant s.Valid() && (NoneRunning(old(s.db)) || pass > 0 ==> NoneRunning(s.db))
      invariant |trace| == 2 * pass && TraceOk(s.cfg, paused, judge, trace) && AllRight(s.cfg, judge, trace)
      invariant pass == 0 ==> s.db == old(s.db)
      invariant pass > 0 ==> NoneRunning(old(s.db))
      invariant StartsIn(s.log) == old(StartsIn(s.log)) + StartsAmong(trace)
      decreases s.Work()
    {
      StartsSnoc(trace, Checked(paused(pass)));
      LookedOk(s.cfg, paused, judge, trace, pass);
      OneMoreRight(s.cfg, judge, trace, pass, Checked(paused(pass)));
      trace := trace + [Checked(paused(pass))];
      if paused(pass) {
        return Paused, trace;
      }
      if !NoneRunning'(s.db) {
        return RunActive, trace;
      }
      var q := ListQueuedRuns(s.db);
      if q == [] {
        NoneQueued(s.db);
        return QueueEmpty, trace;
      }
      ghost var db0 := s.db;
      var end, verdicts;
      ghost var at;
      end, verdicts, at := Pass(s, q, judge(pass));
      match end {
        case OutOfAddresses =>
          StillExhausted(s.cfg, db0, s.db, q, judge(pass), verdicts);
          PassWaits(db0, s.db, q, judge(pass), CanAllocate(s.cfg, db0), verdicts);
          assert |trace| / 2 == pass;
          return AddressWait, trace;
        case NothingFits =>
          PassBlocks(db0, s.db, q, judge(pass), CanAllocate(s.cfg, db0), verdicts);
          assert |trace| / 2 == pass;
          return NothingRunnable, trace;
        case Begun(status) =>
          PassNonEmpty(q, judge(pass), CanAllocate(s.cfg, db0), verdicts, status);
          StartsSnoc(trace, Begins(db0, q, verdicts, at, status));
          BegunOk(s.cfg, paused, judge, trace, pass, Begins(db0, q, verdicts, at, status));
          BegunRight(s.cfg, judge(pass), db0, q, at, verdicts, status);
          OneMoreRight(s.cfg, judge, trace, pass, Begins(db0, q, verdicts, at, status));
          trace := trace + [Begins(db0, q, verdicts, at, status)];
          pass := pass + 1;
      }
    }
  }

  lemma LookedOk(cfg: Config, paused: nat -> bool, judge: nat -> nat -> Judgement, trace: seq<Happening>, pass: nat)
    requires TraceOk(cfg, paused, judge, trace) && |trace| == 2 * pass
    ensures TraceOk(cfg, paused, judge, trace + [Checked(paused(pass))])
  {
    hide IsQueue, IsPass, PassState, CanAllocate;
    var all := trace + [Checked(paused(pass))];
    assert |trace| / 2 == pass;
    forall n | 0 <= n < |trace| ensures HappeningOk(cfg, paused, judge, n, all[n]) {
      assert all[n] == trace[n];
    }
  }

  lemma BegunOk(cfg: Config, paused: nat -> bool, judge: nat -> nat -> Judgement, trace: seq<Happening>, pass: nat, e: Happening)
    requires TraceOk(cfg, paused, judge, trace) && |trace| == 2 * pass + 1 && trace[2 * pass] == Checked(false) && e.Begins?
    requires IsQueue(e.listed, e.queue) && IsPass(e.queue, judge(pass), CanAllocate(cfg, e.listed), e.verdicts, Begun(e.status))
    requires |e.verdicts| <= |e.queue| && PassState(e.listed, e.at, e.queue, e.verdicts)
    ensures TraceOk(cfg, paused, judge, trace + [e])
  {
    hide IsQueue, PassState, CanAllocate, IsPass;
    var all := trace + [e];
    assert |trace| / 2 == pass && |trace| % 2 == 1;
    forall n | 0 <= n < |trace| ensures HappeningOk(cfg, paused, judge, n, all[n]) {
      assert all[n] == trace[n];
    }
  }

  lemma NoStarts(cfg: Config, paused: nat -> bool, judge: nat -> nat -> Judgement)
    ensures StartsAmong([]) == [] && TraceOk(cfg, paused, judge, []) && AllRight(cfg, judge, [])
  {
  }

  lemma PassNonEmpty(q: seq<nat>, judge: nat -> Judgement, can: bool, verdicts: seq<Verdict>, status: Status)
    requires IsPass(q, judge, can, verdicts, Begun(status))
    ensures verdicts != [] && |verdicts| <= |q|
  {
  }

  lemma NoneQueued(db: Db)
    requires IsQueue(db, [])
    ensures forall id :: !IsQueued(db, id)
  {
    forall id ensures !IsQueued(db, id) {
      assert id !in [];
    }
  }

  lemma StillExhausted(cfg: Config, db0: Db, db: Db, q: seq<nat>, judge: nat -> Judgement, verdicts: seq<Verdict>)
    requires IsPass(q, judge, CanAllocate(cfg, db0), verdicts, OutOfAddresses) && SameOwned(db0, db)
    ensures !CanAllocate(cfg, db)
  {
    SameAllocations(cfg, db0, db);
  }
}
