/** The effective order of the restore queue and its manual re-ordering
    (`list_queued_runs`, `reorder_queue` in app/db_restore.py). */
module RestoreQueue {
  import opened Wrappers
  import opened Alloc
  import opened RestoreRuns

  /** ORDER BY sort_order ASC NULLS LAST, queued_at, id */
  predicate Before(a: Run, i: nat, b: Run, j: nat) {
    if a.sortOrder.Some? && b.sortOrder.Some? && a.sortOrder.value != b.sortOrder.value
      then a.sortOrder.value < b.sortOrder.value
    else if a.sortOrder.Some? != b.sortOrder.Some? then a.sortOrder.Some?
    else if a.queuedAt != b.queuedAt then a.queuedAt < b.queuedAt
    else i < j
  }

  predicate IsQueued(db: Db, id: nat) {
    id in db.runs && db.runs[id].status == Queued
  }

  predicate Precedes(db: Db, i: nat, j: nat)
    requires i in db.runs && j in db.runs
  {
    Before(db.runs[i], i, db.runs[j], j)
  }

  ghost predicate Ordered(db: Db, q: seq<nat>) {
    && (forall k :: 0 <= k < |q| ==> q[k] in db.runs)
    && (forall k, l :: 0 <= k < l < |q| ==> Precedes(db, q[k], q[l]))
  }

  /** `q` is the effective queue: exactly the queued runs, in order. */
  ghost predicate IsQueue(db: Db, q: seq<nat>) {
    Ordered(db, q) && forall id :: id in q <==> IsQueued(db, id)
  }

  lemma PrecedesTotal(db: Db, i: nat, j: nat, k: nat)
    requires i in db.runs && j in db.runs && k in db.runs
    ensures i != j ==> (Precedes(db, i, j) <==> !Precedes(db, j, i))
    ensures Precedes(db, i, j) && Precedes(db, j, k) ==> Precedes(db, i, k)
    ensures !Precedes(db, i, i)
  {
  }

  /** The order is total, so the queue is determined. */
  lemma {:induction false} QueueUnique(db: Db, p: seq<nat>, q: seq<nat>)
    requires Ordered(db, p) && Ordered(db, q) && forall id :: id in p <==> id in q
    ensures p == q
  {
    assert p != [] ==> p[0] in p && p[0] in q;
    assert q != [] ==> q[0] in q && q[0] in p;
    if p != [] {
      FirstInBoth(db, p, q);
      OrderedTail(db, p);
      OrderedTail(db, q);
      forall id ensures id in p[1..] <==> id in q[1..] {
        assert id in p <==> id == p[0] || id in p[1..];
        assert id in q <==> id == q[0] || id in q[1..];
      }
      QueueUnique(db, p[1..], q[1..]);
    }
  }

  /** What the order means: runs that were re-ordered come first, by their place; runs that never
      were come first in, first out; among equals the older row comes first. */
  lemma QueueIsFifo(db: Db, q: seq<nat>, k: nat, l: nat)
    requires IsQueue(db, q) && k < l < |q|
    ensures q[k] in db.runs && q[l] in db.runs
    ensures var a, b := db.runs[q[k]], db.runs[q[l]];
      && (a.sortOrder.None? ==> b.sortOrder.None? && a.queuedAt <= b.queuedAt)
      && (b.sortOrder.Some? ==> a.sortOrder.Some? && a.sortOrder.value <= b.sortOrder.value)
      && (a.sortOrder == b.sortOrder ==> a.queuedAt <= b.queuedAt)
      && (a.sortOrder == b.sortOrder && a.queuedAt == b.queuedAt ==> q[k] < q[l])
  {
    assert Precedes(db, q[k], q[l]);
  }

  lemma OrderedTail(db: Db, q: seq<nat>)
    requires Ordered(db, q) && q != []
    ensures Ordered(db, q[1..]) && q[0] !in q[1..]
  {
    if q[0] in q[1..] {
      var k :| 0 <= k < |q[1..]| && q[1..][k] == q[0];
      PrecedesTotal(db, q[0], q[k + 1], q[0]);
    }
  }

  lemma FirstInBoth(db: Db, p: seq<nat>, q: seq<nat>)
    requires Ordered(db, p) && Ordered(db, q) && p != [] && q != [] && forall id :: id in p <==> id in q
    ensures p[0] == q[0]
  {
    assert p[0] in q && q[0] in p;
    var k :| 0 <= k < |q| && q[k] == p[0];
    var l :| 0 <= l < |p| && p[l] == q[0];
    if p[0] != q[0] {
      PrecedesTotal(db, p[0], q[0], p[0]);
    }
  }

  function Insert(db: Db, id: nat, q: seq<nat>): seq<nat>
    requires id in db.runs && forall k :: 0 <= k < |q| ==> q[k] in db.runs
  {
    if q == [] || Precedes(db, id, q[0]) then [id] + q else [q[0]] + Insert(db, id, q[1..])
  }

  lemma {:induction false} InsertOrdered(db: Db, id: nat, q: seq<nat>)
    requires Ordered(db, q) && id in db.runs && id !in q
    ensures Ordered(db, Insert(db, id, q))
    ensures forall x :: x in Insert(db, id, q) <==> x == id || x in q
  {
    if q == [] {
    } else if Precedes(db, id, q[0]) {
      forall k | 0 <= k < |q| ensures Precedes(db, id, q[k]) {
        PrecedesTotal(db, id, q[0], q[k]);
      }
    } else {
      OrderedTail(db, q);
      assert forall x :: x in q <==> x == q[0] || x in q[1..];
      InsertOrdered(db, id, q[1..]);
      var r := Insert(db, id, q[1..]);
      forall k | 0 <= k < |r| ensures Precedes(db, q[0], r[k]) {
        assert r[k] in r;
        if r[k] == id {
          PrecedesTotal(db, id, q[0], id);
        } else {
          var l :| 0 <= l < |q[1..]| && q[1..][l] == r[k];
          assert q[l + 1] == r[k];
        }
      }
    }
  }

  /** `list_queued_runs` */
  method ListQueuedRuns(db: Db) returns (q: seq<nat>)
    ensures IsQueue(db, q)
  {
    q := [];
    var left := db.runs.Keys;
    while left != {}
      invariant left <= db.runs.Keys && Ordered(db, q)
      invariant forall id :: id in q <==> IsQueued(db, id) && id !in left
    {
      var id :| id in left;
      left := left - {id};
      if db.runs[id].status == Queued {
        InsertOrdered(db, id, q);
        q := Insert(db, id, q);
      }
    }
  }

  // ---- manual order ------------------------------------------------------------------

  function Positioned(db: Db, id: nat, pos: nat): Db {
    if IsQueued(db, id) then db.(runs := db.runs[id := db.runs[id].(sortOrder := Some(pos))]) else db
  }

  /** `reorder_queue`: each queued run gets its position in the list; others are left alone. */
  function Reordered(db: Db, ids: seq<nat>): Db {
    if ids == [] then db else Positioned(Reordered(db, ids[..|ids| - 1]), ids[|ids| - 1], |ids| - 1)
  }

  method ReorderQueue(db: Db, ids: seq<nat>) returns (r: Db, updated: nat)
    ensures r == Reordered(db, ids)
    ensures updated == |QueuedOnly(db, ids)|
  {
    r, updated := db, 0;
    for pos := 0 to |ids|
      invariant r == Reordered(db, ids[..pos]) && updated == |QueuedOnly(db, ids[..pos])|
    {
      assert ids[..pos + 1][..pos] == ids[..pos];
      ReorderedRows(db, ids[..pos], ids[pos]);
      if IsQueued(r, ids[pos]) {
        r := r.(runs := r.runs[ids[pos] := r.runs[ids[pos]].(sortOrder := Some(pos))]);
        updated := updated + 1;
      }
    }
    assert ids[..|ids|] == ids;
  }

  /** The queued runs of the list, in its order. */
  function QueuedOnly(db: Db, ids: seq<nat>): seq<nat> {
    if ids == [] then []
    else QueuedOnly(db, ids[..|ids| - 1]) + if IsQueued(db, ids[|ids| - 1]) then [ids[|ids| - 1]] else []
  }

  /** Re-ordering changes nothing but the sort order of queued runs: it can neither
      revive nor touch a run that has started. */
  lemma {:induction false} ReorderedRows(db: Db, ids: seq<nat>, id: nat)
    ensures Reordered(db, ids).tests == db.tests && (id in Reordered(db, ids).runs <==> id in db.runs)
    ensures id in db.runs ==> Reordered(db, ids).runs[id] == db.runs[id].(sortOrder := Reordered(db, ids).runs[id].sortOrder)
    ensures id in db.runs && (id !in ids || !IsQueued(db, id)) ==> Reordered(db, ids).runs[id] == db.runs[id]
  {
    if ids != [] {
      ReorderedRows(db, ids[..|ids| - 1], id);
      ReorderedRows(db, ids[..|ids| - 1], ids[|ids| - 1]);
    }
  }

  lemma {:induction false} SortOrderIsPosition(db: Db, ids: seq<nat>, k: nat)
    requires k < |ids| && IsQueued(db, ids[k]) && forall i, j :: 0 <= i < j < |ids| ==> ids[i] != ids[j]
    ensures ids[k] in Reordered(db, ids).runs && Reordered(db, ids).runs[ids[k]].sortOrder == Some(k)
  {
    var init := ids[..|ids| - 1];
    ReorderedRows(db, ids, ids[k]);
    ReorderedRows(db, init, ids[k]);
    ReorderedRows(db, init, ids[|ids| - 1]);
    if k < |ids| - 1 {
      SortOrderIsPosition(db, init, k);
    }
  }

  lemma {:induction false} QueuedOnlyMembers(db: Db, ids: seq<nat>)
    ensures forall id :: id in QueuedOnly(db, ids) <==> id in ids && IsQueued(db, id)
  {
    if ids != [] {
      var init := ids[..|ids| - 1];
      QueuedOnlyMembers(db, init);
      assert ids == init + [ids[|ids| - 1]];
    }
  }

  /** The kept ids stand in the order of the list. */
  lemma {:induction false} QueuedOnlyOrder(db: Db, all: seq<nat>, n: nat)
    requires n <= |all| && forall i, j :: 0 <= i < j < |all| ==> all[i] != all[j]
    ensures Ordered(Reordered(db, all), QueuedOnly(db, all[..n]))
  {
    if n > 0 {
      QueuedOnlyOrder(db, all, n - 1);
      assert all[..n][..n - 1] == all[..n - 1];
      var q, after := QueuedOnly(db, all[..n - 1]), Reordered(db, all);
      if IsQueued(db, all[n - 1]) {
        SortOrderIsPosition(db, all, n - 1);
        forall k | 0 <= k < |q| ensures Precedes(after, q[k], all[n - 1]) {
          QueuedOnlyMembers(db, all[..n - 1]);
          assert q[k] in q;
          var l :| 0 <= l < n - 1 && all[l] == q[k];
          SortOrderIsPosition(db, all, l);
        }
      }
    }
  }

  /** Dragging works: when the list names every queued run once, the queue afterwards is
      the list, without the ids that are no longer queued. */
  lemma {:induction false} ReorderTakesEffect(db: Db, ids: seq<nat>)
    requires forall i, j :: 0 <= i < j < |ids| ==> ids[i] != ids[j]
    requires forall id :: IsQueued(db, id) ==> id in ids
    ensures IsQueue(Reordered(db, ids), QueuedOnly(db, ids))
  {
    assert ids[..|ids|] == ids;
    QueuedOnlyOrder(db, ids, |ids|);
    QueuedOnlyMembers(db, ids);
    forall id ensures IsQueued(Reordered(db, ids), id) <==> IsQueued(db, id) {
      ReorderedRows(db, ids, id);
    }
  }

  lemma {:induction false} ReorderedKeeps(cfg: Config, db: Db, ids: seq<nat>)
    requires Consistent(cfg, db)
    ensures var n := Reordered(db, ids);
      && Consistent(cfg, n) && (NoOrphans(n) <==> NoOrphans(db)) && n.runs.Keys == db.runs.Keys
      && (forall id :: id in db.runs ==> SameRow(db.runs[id], n.runs[id]))
  {
    var n := Reordered(db, ids);
    ReorderedRows(db, ids, 0);
    forall id ensures (id in n.runs <==> id in db.runs) && (id in db.runs ==> SameRow(db.runs[id], n.runs[id])) {
      ReorderedRows(db, ids, id);
    }
    assert 0 in db.runs ==> RowOk(db.tests, 0, db.runs[0]) && SameRow(db.runs[0], n.runs[0]);
    hide RowsOk, EnvsOk, OneRunning, NoOrphans;
    EnvsShrink(cfg, db, n, 0);
    RowsStayOk(db, n, 0);
    OrphansStay(db, n, 0);
  }
}
