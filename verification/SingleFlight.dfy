/** The single-flight protocol around the running-backup cache
    (app/services/proxmox_progress.py), as a state machine over every interleaving of
    callers and workers. A task log's content is given by the number of refreshes
    folded into it, so a lost update shows as a count that is too low. */
module SingleFlight {
  import opened Wrappers

  datatype Holder = Caller(tid: nat) | Worker(job: nat)

  datatype CallerPc =
    | Idle
    | Locked(key: int)               // holds _cache_lock, looks at the cache
    | Submitted(key: int, job: nat)  // holds the lock, submit done, not yet registered
    | Waiting(job: nat)              // waits for the future

  datatype WorkerPc =
    | Queued
    | Read(seen: nat)  // holds a copy of the task log
    | Wrote            // the new task log is stored
    | StoreLocked      // holds the lock to fill the cache
    | Stored
    | Failed
    | PopLocked        // holds the lock to leave _inflight
    | Done

  datatype Refresh = Refresh(key: int, pc: WorkerPc)

  datatype State = State(
    lock: Option<Holder>,
    callers: map<nat, CallerPc>,
    workers: map<nat, Refresh>,
    inflight: map<int, nat>,
    taskLogs: map<int, nat>,
    writes: map<int, nat>) // how many refreshes have stored their result

  function Count(m: map<int, nat>, k: int): nat {
    if k in m then m[k] else 0
  }

  function Pc(s: State, tid: nat): CallerPc {
    if tid in s.callers then s.callers[tid] else Idle
  }

  function SetCaller(s: State, tid: nat, pc: CallerPc, lock: Option<Holder>): State {
    s.(callers := s.callers[tid := pc], lock := lock)
  }

  function SetWorker(s: State, job: nat, pc: WorkerPc, lock: Option<Holder>): State
    requires job in s.workers
  {
    s.(workers := s.workers[job := s.workers[job].(pc := pc)], lock := lock)
  }

  datatype Action =
    | Acquire(tid: nat, key: int)
    | Hit(tid: nat)             // a fresh cache entry: return it
    | Join(tid: nat)            // a fetch is running: wait for it
    | Submit(tid: nat, newJob: nat)
    | Register(tid: nat, wait: bool)  // peek registers without waiting
    | Resume(tid: nat)
    | Fetch(job: nat)
    | Store(job: nat)
    | Fail(job: nat)
    | LockCache(job: nat)
    | FillCache(job: nat)
    | LockPop(job: nat)
    | Pop(job: nat)

  /** When an action can happen. Every access to the cache or to `_inflight` needs the lock. */
  predicate Enabled(s: State, a: Action) {
    match a
    case Acquire(t, _) => s.lock == None && Pc(s, t) == Idle
    case Hit(t) => Pc(s, t).Locked?
    case Join(t) => Pc(s, t).Locked? && Pc(s, t).key in s.inflight
    case Submit(t, j) => Pc(s, t).Locked? && Pc(s, t).key !in s.inflight && j !in s.workers
    case Register(t, _) => Pc(s, t).Submitted?
    case Resume(t) => Pc(s, t).Waiting? && Pc(s, t).job in s.workers && s.workers[Pc(s, t).job].pc == Done
    case Fetch(j) => j in s.workers && s.workers[j].pc == Queued
    case Store(j) => j in s.workers && s.workers[j].pc.Read?
    case Fail(j) => j in s.workers && (s.workers[j].pc == Queued || s.workers[j].pc.Read? || s.workers[j].pc == Wrote)
    case LockCache(j) => j in s.workers && s.workers[j].pc == Wrote && s.lock == None
    case FillCache(j) => j in s.workers && s.workers[j].pc == StoreLocked
    case LockPop(j) => j in s.workers && (s.workers[j].pc == Stored || s.workers[j].pc == Failed) && s.lock == None
    case Pop(j) => j in s.workers && s.workers[j].pc == PopLocked
  }

  function Next(s: State, a: Action): State
    requires Enabled(s, a)
  {
    match a
    case Acquire(t, k) => SetCaller(s, t, Locked(k), Some(Caller(t)))
    case Hit(t) => SetCaller(s, t, Idle, None)
    case Join(t) => SetCaller(s, t, Waiting(s.inflight[Pc(s, t).key]), None)
    case Submit(t, j) =>
      SetCaller(s.(workers := s.workers[j := Refresh(Pc(s, t).key, Queued)]), t, Submitted(Pc(s, t).key, j), s.lock)
    case Register(t, wait) =>
      SetCaller(s.(inflight := s.inflight[Pc(s, t).key := Pc(s, t).job]), t, if wait then Waiting(Pc(s, t).job) else Idle, None)
    case Resume(t) => SetCaller(s, t, Idle, s.lock)
    case Fetch(j) => SetWorker(s, j, Read(Count(s.taskLogs, s.workers[j].key)), s.lock)
    case Store(j) =>
      var k := s.workers[j].key;
      SetWorker(s.(taskLogs := s.taskLogs[k := s.workers[j].pc.seen + 1], writes := s.writes[k := Count(s.writes, k) + 1]),
                j, Wrote, s.lock)
    case Fail(j) => SetWorker(s, j, Failed, s.lock)
    case LockCache(j) => SetWorker(s, j, StoreLocked, Some(Worker(j)))
    case FillCache(j) => SetWorker(s, j, Stored, None)
    case LockPop(j) => SetWorker(s, j, PopLocked, Some(Worker(j)))
    case Pop(j) => SetWorker(s.(inflight := s.inflight - {s.workers[j].key}), j, Done, None)
  }

  const INITIAL := State(None, map[], map[], map[], map[], map[])

  ghost predicate Unfinished(s: State, j: nat) {
    j in s.workers && s.workers[j].pc != Done
  }

  /** Between submit and register the job is known to the submitting caller only. */
  ghost predicate Registering(s: State, k: int, j: nat) {
    s.lock.Some? && s.lock.value.Caller? && Pc(s, s.lock.value.tid) == Submitted(k, j)
  }

  ghost predicate LockOk(s: State) {
    && (forall t :: t in s.callers ==> ((s.callers[t].Locked? || s.callers[t].Submitted?) <==> s.lock == Some(Caller(t))))
    && (forall j :: j in s.workers ==>
          ((s.workers[j].pc == StoreLocked || s.workers[j].pc == PopLocked) <==> s.lock == Some(Worker(j))))
    && (s.lock.Some? && s.lock.value.Caller? ==> s.lock.value.tid in s.callers)
    && (s.lock.Some? && s.lock.value.Worker? ==> s.lock.value.job in s.workers)
  }

  ghost predicate FlightOk(s: State) {
    && (forall j :: Unfinished(s, j) ==>
          (s.workers[j].key in s.inflight && s.inflight[s.workers[j].key] == j) || Registering(s, s.workers[j].key, j))
    && (forall k :: k in s.inflight ==> Unfinished(s, s.inflight[k]) && s.workers[s.inflight[k]].key == k)
    && (forall k, j :: Registering(s, k, j) ==> Unfinished(s, j) && s.workers[j].key == k && k !in s.inflight)
  }

  ghost predicate LogsOk(s: State) {
    && (forall k :: Count(s.taskLogs, k) == Count(s.writes, k))
    && (forall j :: j in s.workers && s.workers[j].pc.Read? ==> s.workers[j].pc.seen == Count(s.taskLogs, s.workers[j].key))
  }

  ghost predicate Inv(s: State) {
    LockOk(s) && FlightOk(s) && LogsOk(s)
  }

  lemma LockStep(s: State, a: Action)
    requires LockOk(s) && Enabled(s, a)
    ensures LockOk(Next(s, a))
  {
  }

  lemma FlightStep(s: State, a: Action)
    requires LockOk(s) && FlightOk(s) && Enabled(s, a)
    ensures FlightOk(Next(s, a))
  {
    match a
    case Fetch(i) => QuietWorker(s, i, Read(Count(s.taskLogs, s.workers[i].key)), s.lock);
    case Store(i) => QuietWorker(s, i, Wrote, s.lock);
    case Fail(i) => QuietWorker(s, i, Failed, s.lock);
    case LockCache(i) => QuietWorker(s, i, StoreLocked, Some(Worker(i)));
    case FillCache(i) => QuietWorker(s, i, Stored, None);
    case LockPop(i) => QuietWorker(s, i, PopLocked, Some(Worker(i)));
    case Pop(i) => PopFlight(s, i);
    case _ => CallerFlight(s, a);
  }

  predicate OfCaller(a: Action) {
    a.Acquire? || a.Hit? || a.Join? || a.Submit? || a.Register? || a.Resume?
  }

  lemma CallerFlight(s: State, a: Action)
    requires LockOk(s) && FlightOk(s) && Enabled(s, a) && OfCaller(a)
    ensures FlightOk(Next(s, a))
  {
    var n := Next(s, a);
    if a.Submit? {
      assert s.lock == Some(Caller(a.tid)) && forall k, j :: !Registering(s, k, j);
      assert forall k, j :: Registering(n, k, j) <==> k == Pc(s, a.tid).key && j == a.newJob;
      assert forall j :: Unfinished(n, j) <==> Unfinished(s, j) || j == a.newJob;
    } else {
      assert forall j :: Unfinished(n, j) <==> Unfinished(s, j);
      if a.Register? {
        assert s.lock == Some(Caller(a.tid)) && forall k, j :: Registering(s, k, j) <==> Pc(s, a.tid) == Submitted(k, j);
        assert forall k, j :: !Registering(n, k, j);
      } else if a.Resume? {
        assert forall k, j :: Registering(n, k, j) <==> Registering(s, k, j);
      } else {
        assert forall k, j :: !Registering(s, k, j) && !Registering(n, k, j);
      }
    }
  }

  lemma PopFlight(s: State, i: nat)
    requires LockOk(s) && FlightOk(s) && Enabled(s, Pop(i))
    ensures FlightOk(Next(s, Pop(i)))
  {
    var n := Next(s, Pop(i));
    assert s.lock == Some(Worker(i)) && forall k, j :: !Registering(s, k, j) && !Registering(n, k, j);
    assert Unfinished(s, i) && s.inflight[s.workers[i].key] == i;
    assert forall j :: Unfinished(n, j) <==> Unfinished(s, j) && j != i;
  }

  /** A worker's step short of its last leaves the flights as they are. */
  lemma QuietWorker(s: State, i: nat, pc: WorkerPc, lock: Option<Holder>)
    requires LockOk(s) && FlightOk(s) && Unfinished(s, i) && pc != Done
    requires lock == s.lock || ((s.lock.None? || s.lock.value.Worker?) && (lock.None? || lock.value.Worker?))
    ensures FlightOk(SetWorker(s, i, pc, lock))
    ensures forall taskLogs, writes :: FlightOk(SetWorker(s, i, pc, lock).(taskLogs := taskLogs, writes := writes))
  {
    forall taskLogs, writes ensures FlightOk(SetWorker(s, i, pc, lock).(taskLogs := taskLogs, writes := writes)) {
      var n := SetWorker(s, i, pc, lock).(taskLogs := taskLogs, writes := writes);
      assert forall k, j :: Registering(n, k, j) <==> Registering(s, k, j);
      assert forall j :: Unfinished(n, j) <==> Unfinished(s, j);
      assert forall j :: j in s.workers ==> n.workers[j].key == s.workers[j].key;
    }
    var n := SetWorker(s, i, pc, lock);
    assert n == n.(taskLogs := s.taskLogs, writes := s.writes);
  }

  /** No two unfinished refreshes of one cluster. */
  lemma OneInFlight(s: State, i: nat, j: nat)
    requires Inv(s) && Unfinished(s, i) && Unfinished(s, j) && s.workers[i].key == s.workers[j].key
    ensures i == j
  {
  }

  lemma LogsStep(s: State, a: Action)
    requires Inv(s) && Enabled(s, a)
    ensures LogsOk(Next(s, a))
  {
    if a.Store? {
      forall j | j in s.workers && s.workers[j].key == s.workers[a.job].key && Unfinished(s, j) ensures j == a.job {
        OneInFlight(s, j, a.job);
      }
      var n, key := Next(s, a), s.workers[a.job].key;
      assert Count(s.taskLogs, key) == Count(s.writes, key);
      forall k ensures Count(n.taskLogs, k) == Count(n.writes, k) {
        assert Count(s.taskLogs, k) == Count(s.writes, k);
      }
      forall j | j in n.workers && n.workers[j].pc.Read? ensures n.workers[j].pc.seen == Count(n.taskLogs, n.workers[j].key) {
        assert Unfinished(s, j);
      }
    }
  }

  // ---- every run -----------------------------------------------------------

  ghost predicate IsRun(s: State, run: seq<Action>)
    decreases |run|
  {
    run == [] || (Enabled(s, run[0]) && IsRun(Next(s, run[0]), run[1..]))
  }

  ghost function After(s: State, run: seq<Action>): State
    requires IsRun(s, run)
    decreases |run|
  {
    if run == [] then s else After(Next(s, run[0]), run[1..])
  }

  lemma {:induction false} RunKeepsInv(s: State, run: seq<Action>)
    requires Inv(s) && IsRun(s, run)
    ensures Inv(After(s, run))
    decreases |run|
  {
    if run != [] {
      LockStep(s, run[0]);
      FlightStep(s, run[0]);
      LogsStep(s, run[0]);
      RunKeepsInv(Next(s, run[0]), run[1..]);
    }
  }

  /** After any run: at most one unfinished refresh per cluster; `_inflight` names it,
      unless its submitter has not yet released the lock; and no stored result was
      overwritten by one that had not seen it. */
  lemma {:induction false} SafeInEveryRun(run: seq<Action>)
    requires IsRun(INITIAL, run)
    ensures var s := After(INITIAL, run);
      && (forall i, j :: Unfinished(s, i) && Unfinished(s, j) && s.workers[i].key == s.workers[j].key ==> i == j)
      && (forall k :: k in s.inflight ==> exists j :: Unfinished(s, j) && s.workers[j].key == k && s.inflight[k] == j)
      && (forall j :: Unfinished(s, j) ==> s.workers[j].key in s.inflight || Registering(s, s.workers[j].key, j))
      && (forall k :: Count(s.taskLogs, k) == Count(s.writes, k))
  {
    RunKeepsInv(INITIAL, run);
    var s := After(INITIAL, run);
    forall i, j | Unfinished(s, i) && Unfinished(s, j) && s.workers[i].key == s.workers[j].key ensures i == j {
      OneInFlight(s, i, j);
    }
  }

  // ---- who waits for what ------------------------------------------------------------

  /** The cluster each caller has asked about last. */
  ghost function Asked(before: map<nat, int>, run: seq<Action>): map<nat, int>
    decreases |run|
  {
    if run == [] then before
    else Asked(if run[0].Acquire? then before[run[0].tid := run[0].key] else before, run[1..])
  }

  /** A caller with the lock looks for the cluster it asked about, and one that waits does so
      for a refresh of that cluster. */
  ghost predicate AsksFor(s: State, asked: map<nat, int>, t: nat) {
    match Pc(s, t)
    case Idle => true
    case Locked(k) => t in asked && k == asked[t]
    case Submitted(k, j) => t in asked && k == asked[t] && j in s.workers && s.workers[j].key == k
    case Waiting(j) => t in asked && j in s.workers && s.workers[j].key == asked[t]
  }

  ghost predicate AllAskFor(s: State, asked: map<nat, int>) {
    forall t :: AsksFor(s, asked, t)
  }

  lemma AskStep(s: State, a: Action, asked: map<nat, int>)
    requires Inv(s) && AllAskFor(s, asked) && Enabled(s, a)
    ensures AllAskFor(Next(s, a), if a.Acquire? then asked[a.tid := a.key] else asked)
  {
    var n, asked' := Next(s, a), if a.Acquire? then asked[a.tid := a.key] else asked;
    forall t ensures AsksFor(n, asked', t) {
      assert AsksFor(s, asked, t);
      hide Inv, AllAskFor, AsksFor, Next, Enabled;
      if OfCaller(a) && a.tid == t {
        AskOwn(s, a, asked);
      } else {
        AskOther(s, a, asked, t);
      }
    }
  }

  lemma AskOther(s: State, a: Action, asked: map<nat, int>, t: nat)
    requires AsksFor(s, asked, t) && Enabled(s, a) && !(OfCaller(a) && a.tid == t)
    ensures AsksFor(Next(s, a), if a.Acquire? then asked[a.tid := a.key] else asked, t)
  {
    var n := Next(s, a);
    assert Pc(n, t) == Pc(s, t);
    assert forall j :: j in s.workers ==> j in n.workers && n.workers[j].key == s.workers[j].key;
  }

  lemma AskOwn(s: State, a: Action, asked: map<nat, int>)
    requires Inv(s) && Enabled(s, a) && OfCaller(a) && AsksFor(s, asked, a.tid)
    ensures AsksFor(Next(s, a), if a.Acquire? then asked[a.tid := a.key] else asked, a.tid)
  {
    hide LockOk, LogsOk;
  }

  lemma {:induction false} RunAsks(s: State, run: seq<Action>, asked: map<nat, int>)
    requires Inv(s) && AllAskFor(s, asked) && IsRun(s, run)
    ensures AllAskFor(After(s, run), Asked(asked, run))
    decreases |run|
  {
    if run != [] {
      AskStep(s, run[0], asked);
      OneStep(s, run[0]);
      RunKeepsInv(s, [run[0]]);
      hide Inv, AllAskFor, Enabled, Next;
      RunAsks(Next(s, run[0]), run[1..], if run[0].Acquire? then asked[run[0].tid := run[0].key] else asked);
    }
  }

  /** In every run a waiting caller waits for a refresh of the cluster it asked about, and goes
      on only when that one is done. */
  lemma {:induction false} WaitsForOwn(run: seq<Action>, t: nat)
    requires IsRun(INITIAL, run) && Pc(After(INITIAL, run), t).Waiting?
    ensures var s, asked := After(INITIAL, run), Asked(map[], run);
      var j := Pc(s, t).job;
      && t in asked && j in s.workers && s.workers[j].key == asked[t] && (Enabled(s, Resume(t)) <==> !Unfinished(s, j))
  {
    NobodyAsks();
    RunAsks(INITIAL, run, map[]);
    assert AsksFor(After(INITIAL, run), Asked(map[], run), t);
  }

  lemma NobodyAsks()
    ensures Inv(INITIAL) && AllAskFor(INITIAL, map[])
  {
  }

  // ---- a refresh can always be finished ----------------------------------------------

  function StepsLeft(pc: WorkerPc): nat {
    match pc
    case Queued => 6
    case Read(_) => 5
    case Wrote => 4
    case StoreLocked => 3
    case Stored => 2
    case Failed => 2
    case PopLocked => 1
    case Done => 0
  }

  /** How long the lock's holder, if it is not the refresh itself, may still need it. */
  function HoldLeft(s: State, j: nat): nat {
    match s.lock
    case None => 0
    case Some(Caller(t)) => if Pc(s, t).Locked? then 2 else 1
    case Some(Worker(i)) => if i == j then 0 else 1
  }

  function Rank(s: State, j: nat): nat
    requires j in s.workers
  {
    3 * StepsLeft(s.workers[j].pc) + HoldLeft(s, j)
  }

  /** While a refresh is unfinished, some step that needs no new caller brings it nearer
      to its end. */
  lemma NearerStep(s: State, j: nat) returns (a: Action)
    requires Inv(s) && Unfinished(s, j)
    ensures Enabled(s, a) && !a.Acquire? && j in Next(s, a).workers && Rank(Next(s, a), j) < Rank(s, j)
  {
    match s.lock
    case Some(Caller(t)) =>
      a := if Pc(s, t).Locked? then Hit(t) else Register(t, false);
    case Some(Worker(i)) =>
      a := if s.workers[i].pc == StoreLocked then FillCache(i) else Pop(i);
    case None =>
      var pc := s.workers[j].pc;
      a := if pc == Queued then Fetch(j) else if pc.Read? then Store(j) else if pc == Wrote then LockCache(j) else LockPop(j);
  }

  /** Nobody can block a refresh for good: from every state that can be reached, at most
      `Rank` steps of those already there finish it. */
  lemma {:induction false} CanFinish(s: State, j: nat) returns (run: seq<Action>)
    requires Inv(s) && j in s.workers
    ensures IsRun(s, run) && j in After(s, run).workers && !Unfinished(After(s, run), j)
    ensures |run| <= Rank(s, j) && forall a :: a in run ==> !a.Acquire?
    decreases Rank(s, j)
  {
    run := [];
    if Unfinished(s, j) {
      hide Inv, LockOk, FlightOk, LogsOk, Enabled, Next;
      var a := NearerStep(s, j);
      OneStep(s, a);
      RunKeepsInv(s, [a]);
      var rest := CanFinish(Next(s, a), j);
      run := [a] + rest;
      assert run[1..] == rest;
    }
  }

  lemma OneStep(s: State, a: Action)
    requires Enabled(s, a)
    ensures IsRun(s, [a]) && After(s, [a]) == Next(s, a)
  {
    assert [a][1..] == [];
  }
}
