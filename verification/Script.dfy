/** How the host answers the worker, what others do in between, and what result a test has
    then (`execute` in app/services/restore_worker.py). */
module Script {
  import opened Wrappers
  import opened Alloc
  import opened RestoreRuns
  import opened RestoreQueue
  import opened Books
  import opened Steps

  // The outcome of one host operation of the worker: `partly` says that a failing
  // operation had created its guest, `probe` what a probe loop found.
  datatype Outcome = Outcome(ok: bool, partly: bool, probe: Status, fate: Fate)

  datatype Step = Acts(web: Web) | Returns(outcome: Outcome)

  const FINE := Outcome(true, true, Passed, Fate(true, true, 0))

  /** What others will do. */
  function Webs(script: seq<Step>): seq<Web> {
    if script == [] then [] else (if script[0].Acts? then [script[0].web] else []) + Webs(script[1..])
  }

  /** What is left of the script once a host operation has returned. */
  function RestOf(script: seq<Step>): seq<Step> {
    if script == [] then [] else if script[0].Acts? then RestOf(script[1..]) else script[1..]
  }

  /** What others do before the next answer, and the answer; after the end all is well. */
  function Before(script: seq<Step>): seq<Web> {
    if script == [] || script[0].Returns? then [] else [script[0].web] + Before(script[1..])
  }

  function NextAnswer(script: seq<Step>): Outcome {
    if script == [] then FINE else if script[0].Acts? then NextAnswer(script[1..]) else script[0].outcome
  }

  /** What is left after `n` answers, and the answer then. */
  function Left(script: seq<Step>, n: nat): seq<Step> {
    if n == 0 then script else RestOf(Left(script, n - 1))
  }

  function Ahead(script: seq<Step>, n: nat): Outcome {
    NextAnswer(Left(script, n))
  }

  /** Somebody asks to cancel run `id` before the `n`-th answer. */
  ghost predicate CancelledBy(script: seq<Step>, n: nat, id: nat) {
    n > 0 && (CancelledBy(script, n - 1, id) || Cancel(id) in Before(Left(script, n - 1)))
  }

  /** By the `n`-th answer the run is to be cancelled; `asked` says that it was from the start. */
  ghost predicate Stopped(asked: bool, script: seq<Step>, id: nat, n: nat) {
    asked || CancelledBy(script, n, id)
  }

  /** The first `n` answers are all well. */
  ghost predicate AllWell(script: seq<Step>, n: int) {
    forall k :: 0 <= k < n ==> Ahead(script, k).ok
  }

  /** After `n` answers the test goes on: all were well, and nobody had asked to cancel it when
      the worker looked: after the host checks, the pre-flight, the helper and the restore. */
  ghost predicate Going(asked: bool, script: seq<Step>, id: nat, n: int) {
    AllWell(script, n) && forall k :: 3 <= k <= 6 && k <= n ==> !Stopped(asked, script, id, k)
  }

  /** The test of run `id` ends with its `n`-th answer and this result. Of the eight operations
      the last is the probe loop; restore and probe loop look for a cancel themselves, so that
      one found there counts even if they fail. */
  ghost predicate Tells(asked: bool, script: seq<Step>, id: nat, n: nat, result: Status) {
    && 0 < n <= 8 && Going(asked, script, id, n - 1)
    && var o := Ahead(script, n - 1);
    && if Stopped(asked, script, id, n) && (n == 6 || n == 8 || (3 <= n <= 5 && o.ok)) then result == Cancelled
       else if !o.ok then result == Error
       else n == 8 && result == if o.probe == Passed || o.probe == Failed then o.probe else Limited
  }

  lemma NothingTold(asked: bool, script: seq<Step>, id: nat)
    ensures Going(asked, script, id, 0)
  {
  }

  /** One more answer: the test goes on, or it ends in error or cancelled. */
  lemma Stops(asked: bool, script: seq<Step>, id: nat, n: nat)
    requires Going(asked, script, id, n) && n < 7
    ensures var ok, stopped := Ahead(script, n).ok, Stopped(asked, script, id, n + 1);
      && (!ok && !(stopped && n == 5) ==> Tells(asked, script, id, n + 1, Error))
      && (stopped && ((2 <= n <= 4 && ok) || n == 5) ==> Tells(asked, script, id, n + 1, Cancelled))
      && (ok && !(stopped && 2 <= n <= 5) ==> Going(asked, script, id, n + 1))
  {
    hide Ahead, Stopped;
  }

  lemma StopsLast(asked: bool, script: seq<Step>, id: nat, result: Status)
    requires Going(asked, script, id, 7)
    requires result == Cancelled <==> Stopped(asked, script, id, 8)
    requires result != Cancelled ==> IsOutcome(result) && Says(Ahead(script, 7), result)
    ensures Tells(asked, script, id, 8, result)
  {
    hide Ahead, Stopped;
  }

  /** The answer a result comes from: an error from a failure, anything else from the probes. */
  ghost predicate Says(o: Outcome, result: Status) {
    && (result == Error ==> !o.ok)
    && (result == Passed ==> o.ok && o.probe == Passed)
    && (result == Failed ==> o.ok && o.probe == Failed)
    && (result == Limited ==> o.ok && o.probe != Passed && o.probe != Failed)
  }

  /** The `n`-th answer to a resumed run decides. If the probes found something, the restore
      task was well and the lock was free before, and theirs is the last answer but that to the
      clean-up. */
  ghost predicate Finds(script: seq<Step>, n: nat, result: Status, left: seq<Step>) {
    && Says(Ahead(script, n), result)
    && (result == Passed || result == Limited || result == Failed ==>
          Ahead(script, 1).ok && Ahead(script, 2).ok && 3 < n && left == Left(script, n + 2))
  }

  lemma SaysError(o: Outcome, result: Status)
    ensures Says(o, Cancelled) && (!o.ok ==> Says(o, Error))
    ensures Says(o, result) && result == Error ==> !o.ok
  {
  }

  // ---- what the result means -----------------------------------------------------------

  lemma WellAt(asked: bool, script: seq<Step>, id: nat, n: int, k: nat)
    requires Going(asked, script, id, n) && k < n
    ensures Ahead(script, k).ok && (3 <= k + 1 <= 6 ==> !Stopped(asked, script, id, k + 1))
  {
    hide Ahead, Stopped;
  }

  /** The answers and the cancels leave no choice. */
  lemma OneResult(asked: bool, script: seq<Step>, id: nat, m: nat, n: nat, a: Status, b: Status)
    requires Tells(asked, script, id, m, a) && Tells(asked, script, id, n, b)
    ensures a == b && m == n
  {
    var later := if m < n then n else m;
    forall k: nat | k + 1 < later ensures Ahead(script, k).ok && (3 <= k + 1 <= 6 ==> !Stopped(asked, script, id, k + 1)) {
      WellAt(asked, script, id, later - 1, k);
    }
    hide Ahead, Stopped, Going;
  }

  /** Who passed, and who failed: all eight operations went well, the probes say so, and
      nobody had asked to cancel when the worker looked. */
  lemma ResultMeans(asked: bool, script: seq<Step>, id: nat, n: nat, result: Status)
    requires Tells(asked, script, id, n, result)
    ensures result == Passed <==> Going(asked, script, id, 8) && !Stopped(asked, script, id, 8) && Ahead(script, 7).probe == Passed
    ensures result == Failed <==> Going(asked, script, id, 8) && !Stopped(asked, script, id, 8) && Ahead(script, 7).probe == Failed
    ensures result == Error ==> exists k :: 0 <= k < 8 && !Ahead(script, k).ok
    ensures result == Cancelled ==> Stopped(asked, script, id, n)
    ensures result == Limited ==> Going(asked, script, id, 8)
  {
    if n < 8 && Going(asked, script, id, 8) {
      WellAt(asked, script, id, 8, n - 1);
    }
    hide Ahead, Stopped;
  }

  /** When nobody cancels the run, its test is in error exactly when an operation fails. */
  lemma UncancelledError(script: seq<Step>, id: nat, n: nat, result: Status)
    requires Tells(false, script, id, n, result) && Cancel(id) !in Webs(script)
    ensures result != Cancelled
    ensures result == Error <==> exists k :: 0 <= k < 8 && !Ahead(script, k).ok
  {
    NeverCancelled(script, n, id);
    hide Ahead, CancelledBy;
    if result != Error {
      assert n == 8 && forall k :: 0 <= k < 7 ==> Ahead(script, k).ok;
    }
  }

  lemma {:induction false} BeforeWebs(script: seq<Step>)
    ensures Webs(script) == Before(script) + Webs(RestOf(script))
  {
    if script != [] {
      if script[0].Acts? {
        BeforeWebs(script[1..]);
      }
    }
  }

  lemma {:induction false} LeftWebs(script: seq<Step>, n: nat, w: Web)
    requires w !in Webs(script)
    ensures w !in Webs(Left(script, n))
  {
    if n > 0 {
      LeftWebs(script, n - 1, w);
      BeforeWebs(Left(script, n - 1));
    }
  }

  lemma {:induction false} NeverCancelled(script: seq<Step>, n: nat, id: nat)
    requires Cancel(id) !in Webs(script)
    ensures !CancelledBy(script, n, id)
  {
    if n > 0 {
      NeverCancelled(script, n - 1, id);
      LeftWebs(script, n - 1, Cancel(id));
      BeforeWebs(Left(script, n - 1));
    }
  }

  // ---- the cancel flag of the running run -------------------------------------------------

  /** A running run's flag is set exactly by an act that asks to cancel it. */
  ghost predicate Flagged(before: Db, after: Db, acts: seq<Web>) {
    forall id :: IsRunning(before, id) ==>
      IsRunning(after, id) && (after.runs[id].cancelRequested <==> before.runs[id].cancelRequested || Cancel(id) in acts)
  }

  lemma FlagStep(cfg: Config, web: Web, b: View, guests: set<Guest>, n: View)
    requires WebOk(cfg, web, b, guests, n)
    ensures Flagged(b.db, n.db, [web])
  {
    hide Allocatable;
    forall id | IsRunning(b.db, id)
      ensures IsRunning(n.db, id) && (n.db.runs[id].cancelRequested <==> b.db.runs[id].cancelRequested || Cancel(id) in [web])
    {
      assert Cancel(id) in [web] <==> web == Cancel(id);
      if web.Reorder? {
        ReorderedRows(b.db, web.ids, id);
      }
    }
  }

  lemma FlaggedNow(db: Db)
    ensures Flagged(db, db, [])
  {
  }

  lemma FlaggedTrans(a: Db, b: Db, c: Db, acts: seq<Web>, more: seq<Web>)
    requires Flagged(a, b, acts) && Flagged(b, c, more)
    ensures Flagged(a, c, acts + more)
  {
    hide IsRunning;
  }
}
