/** `build_topology` end to end (app/services/pbs_topology.py): the walk, the layers
    and the columns, for every input. */
module Topology {
  import opened Graph
  import opened NamespaceWalk
  import Layers

  /** How many guests back up to `n` itself. */
  function GuestsOf(guests: map<Node, int>, n: Node): int {
    if n in guests then guests[n] else 0
  }

  /** A node of `left` to which the most guests back up. */
  lemma {:induction false} SomeLargest(guests: map<Node, int>, left: set<Node>)
    requires left != {}
    ensures exists n :: n in left && forall m :: m in left ==> GuestsOf(guests, m) <= GuestsOf(guests, n)
  {
    var n :| n in left;
    var rest := left - {n};
    assert forall m :: m in left ==> m == n || m in rest;
    if rest != {} {
      SomeLargest(guests, rest);
      var m :| m in rest && forall o :: o in rest ==> GuestsOf(guests, o) <= GuestsOf(guests, m);
      var top := if GuestsOf(guests, m) < GuestsOf(guests, n) then n else m;
      assert top in left && forall o :: o in left ==> GuestsOf(guests, o) <= GuestsOf(guests, top);
    } else {
      assert n in left && forall o :: o in left ==> GuestsOf(guests, o) <= GuestsOf(guests, n);
    }
  }

  /** The search starts at the primary targets, the one with the most guests first, then at
      the rest. The order by name does not matter for what follows and is left open. */
  method RootOrder(targets: seq<State>, reached: set<Node>, guests: map<Node, int>) returns (roots: seq<Node>)
    requires forall t :: t in targets ==> t.node in reached
    ensures forall n :: n in roots <==> n in reached
    ensures forall j, k :: 0 <= j < k < |roots| ==> roots[j] != roots[k]
    ensures forall j, k, t :: 0 <= j < k < |roots| && t in targets && t.node == roots[k] ==>
      (exists u :: u in targets && u.node == roots[j]) && GuestsOf(guests, roots[j]) >= GuestsOf(guests, roots[k])
  {
    var primary := set t | t in targets :: t.node;
    roots := [];
    var left := primary;
    while left != {}
      invariant left <= primary
      invariant forall n :: n in roots <==> n in primary && n !in left
      invariant forall j, k :: 0 <= j < k < |roots| ==> roots[j] != roots[k]
      invariant forall j, k :: 0 <= j < k < |roots| ==> GuestsOf(guests, roots[j]) >= GuestsOf(guests, roots[k])
      invariant forall j, m :: 0 <= j < |roots| && m in left ==> GuestsOf(guests, roots[j]) >= GuestsOf(guests, m)
    {
      SomeLargest(guests, left);
      var n :| n in left && forall m :: m in left ==> GuestsOf(guests, m) <= GuestsOf(guests, n);
      roots, left := roots + [n], left - {n};
    }
    ghost var first := |roots|;
    left := reached - primary;
    while left != {}
      invariant left <= reached - primary && first <= |roots|
      invariant forall n :: n in roots <==> n in reached && n !in left
      invariant forall j, k :: 0 <= j < k < |roots| ==> roots[j] != roots[k]
      invariant forall j, k :: 0 <= j < k < first ==> GuestsOf(guests, roots[j]) >= GuestsOf(guests, roots[k])
      invariant forall k :: 0 <= k < |roots| ==> (k < first <==> roots[k] in primary)
    {
      var n :| n in left;
      roots, left := roots + [n], left - {n};
    }
  }

  /** Each other target that leads to `n` has fewer guests. */
  ghost predicate LeadingTarget(edges: seq<Edge>, targets: seq<State>, guests: map<Node, int>, n: Node) {
    && (exists t :: t in targets && t.node == n)
    && (forall t :: t in targets && Reaches(edges, t.node, n) ==> t.node == n || GuestsOf(guests, t.node) < GuestsOf(guests, n))
  }

  /** No root before such a target leads to it: those are other targets. */
  lemma {:induction false} LeadingIsFirst(edges: seq<Edge>, targets: seq<State>, guests: map<Node, int>, roots: seq<Node>, n: Node)
    returns (k: nat)
    requires LeadingTarget(edges, targets, guests, n) && n in roots
    requires forall j, k :: 0 <= j < k < |roots| ==> roots[j] != roots[k]
    requires forall j, k, t :: 0 <= j < k < |roots| && t in targets && t.node == roots[k] ==>
      (exists u :: u in targets && u.node == roots[j]) && GuestsOf(guests, roots[j]) >= GuestsOf(guests, roots[k])
    ensures k < |roots| && roots[k] == n && Layers.FirstThere(edges, roots, k)
  {
    hide Reaches, GuestsOf;
    k :| 0 <= k < |roots| && roots[k] == n;
    forall j | 0 <= j < k ensures !Reaches(edges, roots[j], n) {
      var u :| u in targets && u.node == roots[j];
    }
  }

  /** The picture: its edges are the jobs that feed some copy of the cluster's data,
      every datastore shown stands in exactly one column, the length of the longest chain
      of edges to it that are not back edges; so those lead to a later column. A target to
      which no other target with as many guests leads is never pushed behind its own copies: the
      edges into it from what it leads to are back edges, and without others it stands in the first column. */
  method Build(jobs: seq<Edge>, targets: seq<State>, own: seq<OwnConnection>, usage: seq<Node>, guests: map<Node, int>)
    returns (columns: seq<map<string, set<Node>>>, edges: seq<Edge>, back: set<nat>, ghost column: map<Node, int>,
             ghost firstVisited: set<State>, ghost firstOrder: seq<nat>, ghost visited: set<State>, ghost order: seq<nat>)
    ensures IsFlow(jobs, targets, own, usage, firstVisited, firstOrder, visited, order)
    ensures column.Keys == Datastores(jobs, targets, own, usage, firstOrder, order)
    ensures forall n :: n in column <==> IsShown(jobs, targets, own, usage, firstOrder, order, n)
    ensures |edges| == |order| && forall k :: 0 <= k < |order| ==> order[k] < |jobs| && edges[k] == jobs[order[k]]
    ensures forall t :: t in targets ==> t.node in column
    ensures forall n, k :: Layers.InColumn(columns, k, n) <==> n in column && k == column[n]
    ensures Acyclic(edges, Layers.Kept(edges, back)) && Layers.ClosesCycles(edges, back, Layers.Kept(edges, back))
    ensures forall n :: n in column ==> LongestTo(edges, Layers.Kept(edges, back), n, column[n])
    ensures forall i :: 0 <= i < |edges| ==> edges[i].src in column && edges[i].dst in column
    ensures forall i :: 0 <= i < |edges| && i !in back ==> column[edges[i].src] < column[edges[i].dst]
    ensures forall i :: 0 <= i < |edges| && LeadingTarget(edges, targets, guests, edges[i].dst) ==>
      (i in back <==> Reaches(edges, edges[i].dst, edges[i].src))
    ensures forall n :: n in column && LeadingTarget(edges, targets, guests, n) ==>
      (column[n] == 0 <==> Layers.OnlyCyclesInto(edges, n))
  {
    hide IsFlow, Datastores, IsShown, Acyclic, LongestTo, Layers.ClosesCycles, Layers.Exact, Layers.Gapless, Layers.InColumn,
         Layers.OnlyCyclesInto, Layers.FirstThere, Layers.CutAtRoots, LeadingTarget, Reaches;
    var depth, visited', order';
    depth, visited', order', firstVisited, firstOrder := Discover(jobs, targets, own, usage);
    visited, order := visited', order';
    assert forall k :: 0 <= k < |order'| ==> order'[k] in order';
    edges := seq(|order'|, k requires 0 <= k < |order'| && order'[k] < |jobs| => jobs[order'[k]]);
    var roots := RootOrder(targets, depth.Keys, guests);
    var layer;
    layer, back := Layers.BuildLayers(depth.Keys, roots, edges);
    Layers.ExactIsGapless(edges, Layers.Kept(edges, back), layer);
    columns := Layers.Columns(layer);
    Layers.Placement(edges, back, layer, columns);
    column := map n | n in layer :: layer[n] - 1;
    ColumnIsLongest(edges, Layers.Kept(edges, back), layer);
    forall n | n in column && LeadingTarget(edges, targets, guests, n)
      ensures column[n] == 0 <==> Layers.OnlyCyclesInto(edges, n)
      ensures forall i :: 0 <= i < |edges| && edges[i].dst == n ==> (i in back <==> Reaches(edges, n, edges[i].src))
    {
      var k := LeadingIsFirst(edges, targets, guests, roots, n);
      Layers.CutAt(edges, roots, back, k);
    }
  }

  lemma ColumnIsLongest(edges: seq<Edge>, kept: set<nat>, layer: map<Node, int>)
    requires Layers.Exact(edges, kept, layer)
    ensures forall n :: n in layer ==> LongestTo(edges, kept, n, layer[n] - 1)
  {
  }
}
