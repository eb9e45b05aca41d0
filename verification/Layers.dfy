/** Columns of the topology view (`_layers` and the placement part of `_columns`
    in app/services/pbs_topology.py): a depth-first search removes the edges that
    close a cycle, then repeated relaxation computes the longest path. */
module Layers {
  import opened Wrappers
  import opened Graph

  // A stack entry of the search: a node and the edges its iterator has left.
  datatype Frame = Frame(node: Node, rest: seq<nat>)

  ghost predicate EdgesWithin(edges: seq<Edge>, reached: set<Node>) {
    forall i :: 0 <= i < |edges| ==> edges[i].src in reached && edges[i].dst in reached
  }

  /** Every edge marked back closes a cycle with kept edges. */
  ghost predicate ClosesCycles(edges: seq<Edge>, back: set<nat>, kept: set<nat>) {
    forall i :: i in back ==> i < |edges| && exists p :: Leads(edges, kept, p, edges[i].dst, edges[i].src)
  }

  /** Finish numbers: every kept edge runs from a later to an earlier finished node. */
  ghost predicate Ranked(edges: seq<Edge>, kept: set<nat>, rank: map<Node, nat>, bound: nat) {
    && (forall n :: n in rank ==> rank[n] < bound)
    && (forall i :: i in kept ==>
          && i < |edges| && edges[i].src in rank && edges[i].dst in rank
          && rank[edges[i].dst] < rank[edges[i].src])
  }

  // ---- depth-first search -------------------------------------------------

  /** Nothing of the search is in progress: all edges of finished nodes are decided. */
  ghost predicate Settled(edges: seq<Edge>, reached: set<Node>, done: set<Node>,
                          back: set<nat>, kept: set<nat>, rank: map<Node, nat>)
  {
    && done <= reached && rank.Keys == done && back !! kept
    && ClosesCycles(edges, back, kept)
    && Ranked(edges, kept, rank, |done|)
    && (forall i :: i in back + kept ==> i < |edges| && edges[i].src in done)
    && (forall i :: 0 <= i < |edges| && edges[i].src in done ==> i in back + kept)
  }

  /** A height for every node seen: finished nodes get their finish number, the
      node at depth `j` of the path lies above all of them, at `2 * |reached| - j`. */
  ghost predicate HeightsOk(reached: set<Node>, path: seq<Node>, onPath: set<Node>, done: set<Node>, height: map<Node, nat>) {
    && done <= reached && onPath <= reached && onPath !! done && height.Keys == done + onPath
    && |path| == |onPath| && (forall n :: n in path <==> n in onPath)
    && ValuesOk(reached, path, done, height)
  }

  ghost predicate ValuesOk(reached: set<Node>, path: seq<Node>, done: set<Node>, height: map<Node, nat>) {
    && (forall j :: 0 <= j < |path| ==> path[j] in height && height[path[j]] == 2 * |reached| - j)
    && (forall n :: n in done ==> n in height && height[n] < |done|)
  }

  /** Kept edges lead downwards. */
  ghost predicate Downward(edges: seq<Edge>, kept: set<nat>, height: map<Node, nat>) {
    forall i :: i in kept ==>
      && i < |edges| && edges[i].src in height && edges[i].dst in height
      && height[edges[i].dst] < height[edges[i].src]
  }

  /** An edge of a node on the path is either still with its iterator or handled. */
  ghost predicate FrameOk(edges: seq<Edge>, f: Frame, handled: set<nat>) {
    && (forall i :: i in f.rest ==> i < |edges| && edges[i].src == f.node && i !in handled)
    && (forall i :: 0 <= i < |edges| && edges[i].src == f.node ==> i in f.rest || i in handled)
    && (forall k, l :: 0 <= k < l < |f.rest| ==> f.rest[k] < f.rest[l])
  }

  ghost predicate HandledOk(edges: seq<Edge>, stack: seq<Frame>, onPath: set<Node>, done: set<Node>, handled: set<nat>) {
    && (forall i :: i in handled ==> i < |edges| && edges[i].src in done + onPath)
    && (forall i :: 0 <= i < |edges| && edges[i].src in done ==> i in handled)
    && (forall j :: 0 <= j < |stack| ==> FrameOk(edges, stack[j], handled))
  }

  /** `links[j]` is the kept edge through which the search went from depth j to j+1. */
  ghost predicate LinksOk(edges: seq<Edge>, path: seq<Node>, links: seq<nat>, kept: set<nat>) {
    && (path != [] ==> |links| == |path| - 1)
    && (forall j :: 0 <= j < |path| - 1
          ==> && links[j] in kept && links[j] < |edges|
              && edges[links[j]].src == path[j] && edges[links[j]].dst == path[j + 1])
  }

  lemma {:induction false} MoreBack(edges: seq<Edge>, kept: set<nat>, e: nat, back: set<nat>)
    requires ClosesCycles(edges, back, kept)
    requires e < |edges| && exists p :: Leads(edges, kept, p, edges[e].dst, edges[e].src)
    ensures ClosesCycles(edges, back + {e}, kept)
  {
  }

  lemma {:induction false} MoreKept(edges: seq<Edge>, kept: set<nat>, e: nat, back: set<nat>)
    requires ClosesCycles(edges, back, kept)
    ensures ClosesCycles(edges, back, kept + {e})
  {
    forall i | i in back ensures exists p :: Leads(edges, kept + {e}, p, edges[i].dst, edges[i].src) {
      var p :| Leads(edges, kept, p, edges[i].dst, edges[i].src);
      assert Leads(edges, kept + {e}, p, edges[i].dst, edges[i].src);
    }
  }

  /** A target still on the path closes a cycle: the path itself leads from it to the source. */
  lemma {:induction false} PathClosesCycle(edges: seq<Edge>, path: seq<Node>, links: seq<nat>, kept: set<nat>, n: Node)
    requires n in path && LinksOk(edges, path, links, kept)
    ensures var top := path[|path| - 1]; exists p :: Leads(edges, kept, p, n, top)
  {
    var j :| 0 <= j < |path| && path[j] == n;
    assert Leads(edges, kept, links[j..], n, path[|path| - 1]);
  }

  lemma {:induction false} LinksStep(edges: seq<Edge>, path: seq<Node>, links: seq<nat>, kept: set<nat>, e: nat)
    requires LinksOk(edges, path, links, kept) && path != []
    ensures LinksOk(edges, path[..|path| - 1], if links == [] then [] else links[..|links| - 1], kept)
    ensures LinksOk(edges, path, links, kept + {e})
    ensures e < |edges| && edges[e].src == path[|path| - 1] ==> LinksOk(edges, path + [edges[e].dst], links + [e], kept + {e})
  {
  }

  lemma {:induction false} CrossDownward(edges: seq<Edge>, reached: set<Node>, path: seq<Node>, onPath: set<Node>, done: set<Node>,
                                         kept: set<nat>, height: map<Node, nat>, e: nat)
    requires HeightsOk(reached, path, onPath, done, height) && Downward(edges, kept, height) && path != []
    requires e < |edges| && edges[e].src == path[|path| - 1] && edges[e].dst in done
    ensures Downward(edges, kept + {e}, height)
  {
    Subset(done, reached);
    Subset(onPath, reached);
  }

  /** The iterator of the top frame yields `e`; the other frames do not own it. */
  lemma {:induction false} HandleNext(edges: seq<Edge>, stack: seq<Frame>, onPath: set<Node>, done: set<Node>, handled: set<nat>, e: nat)
    requires HandledOk(edges, stack, onPath, done, handled)
    requires stack != [] && stack[|stack| - 1].rest != [] && e == stack[|stack| - 1].rest[0]
    requires forall j :: 0 <= j < |stack| - 1 ==> stack[j].node != stack[|stack| - 1].node
    requires stack[|stack| - 1].node in onPath
    ensures var t := |stack| - 1;
      HandledOk(edges, stack[t := Frame(stack[t].node, stack[t].rest[1..])], onPath, done, handled + {e})
    ensures e < |edges| && e !in handled && edges[e].src == stack[|stack| - 1].node
  {
    var t := |stack| - 1;
    var f := stack[t];
    var f' := Frame(f.node, f.rest[1..]);
    assert FrameOk(edges, f, handled) && e in f.rest;
    forall i | i in f'.rest ensures i in f.rest && i != e {
      var k :| 0 <= k < |f'.rest| && f'.rest[k] == i;
      assert f.rest[k + 1] == i;
    }
    forall i | i in f.rest ensures i == e || i in f'.rest {
      var k :| 0 <= k < |f.rest| && f.rest[k] == i;
      assert k > 0 ==> f'.rest[k - 1] == i;
    }
    assert FrameOk(edges, f', handled + {e});
    forall j | 0 <= j < t ensures FrameOk(edges, stack[j], handled + {e}) {
      assert FrameOk(edges, stack[j], handled);
    }
  }

  /** Finishing the top node: it sinks below the path and above all finished nodes. */
  lemma {:induction false} FinishHeights(edges: seq<Edge>, reached: set<Node>, path: seq<Node>, onPath: set<Node>, done: set<Node>,
                                         kept: set<nat>, height: map<Node, nat>)
    requires HeightsOk(reached, path, onPath, done, height) && Downward(edges, kept, height) && path != []
    ensures var n := path[|path| - 1];
      && HeightsOk(reached, path[..|path| - 1], onPath - {n}, done + {n}, height[n := |done|])
      && Downward(edges, kept, height[n := |done|])
  {
    Subset(done, reached);
    Subset(onPath, reached);
    FinishDownward(edges, reached, path, onPath, done, kept, height);
    hide Downward;
    FinishPath(reached, path, onPath, done, height);
  }

  lemma {:induction false} FinishPath(reached: set<Node>, path: seq<Node>, onPath: set<Node>, done: set<Node>, height: map<Node, nat>)
    requires HeightsOk(reached, path, onPath, done, height) && path != []
    ensures var n := path[|path| - 1];
      HeightsOk(reached, path[..|path| - 1], onPath - {n}, done + {n}, height[n := |done|])
  {
    var n := path[|path| - 1];
    TopOnce(reached, path, onPath, done, height);
    FinishValues(reached, path, done, height);
    hide ValuesOk;
    WithoutTop(path, onPath);
    assert height[n := |done|].Keys == done + {n} + (onPath - {n});
  }

  lemma {:induction false} FinishValues(reached: set<Node>, path: seq<Node>, done: set<Node>, height: map<Node, nat>)
    requires ValuesOk(reached, path, done, height) && path != []
    requires var n := path[|path| - 1]; |done + {n}| == |done| + 1 && forall j :: 0 <= j < |path| - 1 ==> path[j] != n
    ensures var n := path[|path| - 1]; ValuesOk(reached, path[..|path| - 1], done + {n}, height[n := |done|])
  {
  }

  lemma {:induction false} TopOnce(reached: set<Node>, path: seq<Node>, onPath: set<Node>, done: set<Node>, height: map<Node, nat>)
    requires HeightsOk(reached, path, onPath, done, height) && path != []
    ensures var n := path[|path| - 1];
      && n in onPath && n !in done && |done + {n}| == |done| + 1
      && (forall j :: 0 <= j < |path| - 1 ==> path[j] != n)
  {
    var n := path[|path| - 1];
    assert n in path && height[n] == 2 * |reached| - (|path| - 1);
    forall j | 0 <= j < |path| - 1 ensures path[j] != n {
      assert height[path[j]] == 2 * |reached| - j;
    }
  }

  lemma {:induction false} WithoutTop(path: seq<Node>, onPath: set<Node>)
    requires path != [] && forall n :: n in path <==> n in onPath
    requires forall j :: 0 <= j < |path| - 1 ==> path[j] != path[|path| - 1]
    ensures var t := |path| - 1;
      && |onPath - {path[t]}| == |onPath| - 1
      && (forall m :: m in path[..t] <==> m in onPath - {path[t]})
  {
    var t := |path| - 1;
    assert path[t] in path;
    forall m ensures m in path[..t] <==> m in onPath - {path[t]} {
      if m in onPath - {path[t]} {
        var j :| 0 <= j < |path| && path[j] == m;
        assert path[..t][j] == m;
      }
      if m in path[..t] {
        var j :| 0 <= j < t && path[j] == m;
        assert m in path;
      }
    }
  }

  lemma {:induction false} FinishDownward(edges: seq<Edge>, reached: set<Node>, path: seq<Node>, onPath: set<Node>,
                                          done: set<Node>, kept: set<nat>, height: map<Node, nat>)
    requires HeightsOk(reached, path, onPath, done, height) && Downward(edges, kept, height) && path != []
    requires |done| <= |reached| && |onPath| <= |reached|
    ensures Downward(edges, kept, height[path[|path| - 1] := |done|])
  {
    var n := path[|path| - 1];
    forall m | m in onPath && m != n ensures height[m] > |reached| && height[m] > height[n] {
      var j :| 0 <= j < |path| && path[j] == m;
    }
  }

  lemma {:induction false} FinishHandled(edges: seq<Edge>, stack: seq<Frame>, onPath: set<Node>, done: set<Node>, handled: set<nat>)
    requires HandledOk(edges, stack, onPath, done, handled) && stack != [] && stack[|stack| - 1].rest == []
    ensures var n := stack[|stack| - 1].node; HandledOk(edges, stack[..|stack| - 1], onPath - {n}, done + {n}, handled)
  {
    assert FrameOk(edges, stack[|stack| - 1], handled);
  }

  lemma {:induction false} Subset(a: set<Node>, b: set<Node>)
    requires a <= b
    ensures |a| <= |b|
  {
    assert b == a + (b - a);
  }

  /** Entering a new node: it lies just below the top of the path. */
  lemma {:induction false} EnterHeights(edges: seq<Edge>, reached: set<Node>, path: seq<Node>, onPath: set<Node>, done: set<Node>,
                                        kept: set<nat>, height: map<Node, nat>, e: nat, n: Node)
    requires HeightsOk(reached, path, onPath, done, height) && Downward(edges, kept, height) && path != []
    requires e < |edges| && edges[e].src == path[|path| - 1] && edges[e].dst == n
    requires n in reached - onPath - done
    ensures |path| <= |reached|
    ensures var height' := height[n := 2 * |reached| - |path|];
      && HeightsOk(reached, path + [n], onPath + {n}, done, height')
      && Downward(edges, kept + {e}, height')
  {
    Subset(onPath + {n}, reached);
    var height' := height[n := 2 * |reached| - |path|];
    assert height'.Keys == done + (onPath + {n});
    assert forall j :: 0 <= j < |path| ==> path[j] in path && path[j] in onPath;
    forall m | m in onPath + {n} ensures m in path + [n] {
      if m == n { assert (path + [n])[|path|] == n; } else { assert m in path; }
    }
  }

  lemma {:induction false} EnterHandled(edges: seq<Edge>, stack: seq<Frame>, onPath: set<Node>, done: set<Node>, handled: set<nat>, n: Node)
    requires HandledOk(edges, stack, onPath, done, handled) && n !in onPath + done
    ensures HandledOk(edges, stack + [Frame(n, OutEdges(edges, n))], onPath + {n}, done, handled)
  {
    assert FrameOk(edges, Frame(n, OutEdges(edges, n)), handled);
  }

  // The nodes the search has not come to yet.
  ghost function Unseen(reached: set<Node>, done: set<Node>, onPath: set<Node>): set<Node> {
    reached - done - onPath
  }

  lemma {:induction false} UnseenShrinks(reached: set<Node>, done: set<Node>, onPath: set<Node>, n: Node)
    ensures n in onPath ==> Unseen(reached, done + {n}, onPath - {n}) == Unseen(reached, done, onPath)
    ensures n in reached - done - onPath ==> Unseen(reached, done, onPath + {n}) < Unseen(reached, done, onPath)
  {
    if n in onPath {
      assert reached - (done + {n}) - (onPath - {n}) == reached - done - onPath;
    }
  }

  /** `path` lists the nodes of the stack. */
  ghost predicate Mirrors(stack: seq<Frame>, path: seq<Node>) {
    |path| == |stack| && forall j :: 0 <= j < |stack| ==> stack[j].node == path[j]
  }

  lemma {:induction false} MirrorsStart(f: Frame)
    ensures Mirrors([f], [f.node])
  {
  }

  lemma {:induction false} MirrorsEmpty(stack: seq<Frame>, path: seq<Node>)
    requires Mirrors(stack, path)
    ensures stack == [] ==> path == []
  {
  }

  lemma {:induction false} MirrorsStep(stack: seq<Frame>, path: seq<Node>, rest: seq<nat>, f: Frame)
    requires Mirrors(stack, path) && stack != []
    ensures |path| == |stack| && stack[|stack| - 1].node == path[|path| - 1]
    ensures forall j :: 0 <= j < |stack| ==> stack[j].node == path[j]
    ensures Mirrors(stack[..|stack| - 1], path[..|path| - 1])
    ensures var stack' := stack[|stack| - 1 := Frame(stack[|stack| - 1].node, rest)];
      Mirrors(stack', path) && Mirrors(stack' + [f], path + [f.node])
  {
  }

  lemma {:induction false} DstReached(edges: seq<Edge>, reached: set<Node>, e: nat)
    requires EdgesWithin(edges, reached) && e < |edges|
    ensures edges[e].dst in reached
  {
  }

  lemma {:induction false} Decide(back: set<nat>, kept: set<nat>, e: nat)
    requires back !! kept && e !in back + kept
    ensures (back + {e}) + kept == back + kept + {e} && (back + {e}) !! kept
    ensures back + (kept + {e}) == back + kept + {e} && back !! (kept + {e})
  {
  }

  lemma {:induction false} PathFacts(reached: set<Node>, path: seq<Node>, onPath: set<Node>, done: set<Node>, height: map<Node, nat>)
    requires HeightsOk(reached, path, onPath, done, height)
    ensures done <= reached && onPath <= reached && onPath !! done
    ensures path == [] ==> onPath == {}
    ensures forall j :: 0 <= j < |path| ==> path[j] in onPath
    ensures forall n :: n in onPath ==> n in path
    ensures forall j :: 0 <= j < |path| - 1 ==> path[j] != path[|path| - 1]
  {
    assert forall j :: 0 <= j < |path| ==> path[j] in path;
  }

  lemma {:induction false} Begin(edges: seq<Edge>, reached: set<Node>, root: Node, done: set<Node>,
                                 back: set<nat>, kept: set<nat>, rank: map<Node, nat>)
    requires Settled(edges, reached, done, back, kept, rank) && root in reached - done
    ensures HeightsOk(reached, [root], {root}, done, rank[root := 2 * |reached|])
    ensures Downward(edges, kept, rank[root := 2 * |reached|])
    ensures HandledOk(edges, [Frame(root, OutEdges(edges, root))], {root}, done, back + kept)
    ensures LinksOk(edges, [root], [], kept)
    ensures ClosesCycles(edges, back, kept) && back !! kept
  {
    assert FrameOk(edges, Frame(root, OutEdges(edges, root)), back + kept);
  }

  lemma {:induction false} End(edges: seq<Edge>, reached: set<Node>, done: set<Node>,
                               back: set<nat>, kept: set<nat>, height: map<Node, nat>)
    requires HeightsOk(reached, [], {}, done, height) && Downward(edges, kept, height)
    requires HandledOk(edges, [], {}, done, back + kept)
    requires ClosesCycles(edges, back, kept) && back !! kept
    ensures Settled(edges, reached, done, back, kept, height)
  {
    assert done + {} == done;
  }

  /** Between two steps of the search from one root. */
  ghost predicate SearchOk(edges: seq<Edge>, reached: set<Node>, stack: seq<Frame>, path: seq<Node>, onPath: set<Node>,
                           done: set<Node>, back: set<nat>, kept: set<nat>, links: seq<nat>, height: map<Node, nat>)
  {
    && EdgesWithin(edges, reached) && Mirrors(stack, path)
    && HeightsOk(reached, path, onPath, done, height) && Downward(edges, kept, height)
    && HandledOk(edges, stack, onPath, done, back + kept) && LinksOk(edges, path, links, kept)
    && ClosesCycles(edges, back, kept) && back !! kept
  }

  /** The iterator of the top node is exhausted: the node is finished. */
  lemma FinishStep(edges: seq<Edge>, reached: set<Node>, stack: seq<Frame>, path: seq<Node>, onPath: set<Node>,
                   done: set<Node>, back: set<nat>, kept: set<nat>, links: seq<nat>, height: map<Node, nat>)
    requires SearchOk(edges, reached, stack, path, onPath, done, back, kept, links, height)
    requires stack != [] && stack[|stack| - 1].rest == []
    ensures var t := |stack| - 1;
      var n := stack[t].node;
      && |path| == |stack| && n in onPath && Unseen(reached, done + {n}, onPath - {n}) == Unseen(reached, done, onPath)
      && SearchOk(edges, reached, stack[..t], path[..t], onPath - {n}, done + {n}, back, kept,
                  if links == [] then [] else links[..|links| - 1], height[n := |done|])
  {
    hide *;
    var n := stack[|stack| - 1].node;
    assert EdgesWithin(edges, reached) && Mirrors(stack, path) && HeightsOk(reached, path, onPath, done, height)
           && Downward(edges, kept, height) && HandledOk(edges, stack, onPath, done, back + kept)
           && LinksOk(edges, path, links, kept) && ClosesCycles(edges, back, kept) && back !! kept by {
      SearchParts(edges, reached, stack, path, onPath, done, back, kept, links, height);
    }
    MirrorsStep(stack, path, [], stack[|stack| - 1]);
    PathFacts(reached, path, onPath, done, height);
    FinishHeights(edges, reached, path, onPath, done, kept, height);
    FinishHandled(edges, stack, onPath, done, back + kept);
    LinksStep(edges, path, links, kept, 0);
    UnseenShrinks(reached, done, onPath, n);
    SearchWhole(edges, reached, stack[..|stack| - 1], path[..|stack| - 1], onPath - {n}, done + {n}, back, kept,
                if links == [] then [] else links[..|links| - 1], height[n := |done|]);
  }

  lemma SearchParts(edges: seq<Edge>, reached: set<Node>, stack: seq<Frame>, path: seq<Node>, onPath: set<Node>,
                    done: set<Node>, back: set<nat>, kept: set<nat>, links: seq<nat>, height: map<Node, nat>)
    requires SearchOk(edges, reached, stack, path, onPath, done, back, kept, links, height)
    ensures EdgesWithin(edges, reached) && Mirrors(stack, path)
    ensures HeightsOk(reached, path, onPath, done, height) && Downward(edges, kept, height)
    ensures HandledOk(edges, stack, onPath, done, back + kept) && LinksOk(edges, path, links, kept)
    ensures ClosesCycles(edges, back, kept) && back !! kept
  {
    hide EdgesWithin, Mirrors, HeightsOk, Downward, HandledOk, LinksOk, ClosesCycles;
  }

  lemma SearchWhole(edges: seq<Edge>, reached: set<Node>, stack: seq<Frame>, path: seq<Node>, onPath: set<Node>,
                    done: set<Node>, back: set<nat>, kept: set<nat>, links: seq<nat>, height: map<Node, nat>)
    requires EdgesWithin(edges, reached) && Mirrors(stack, path)
    requires HeightsOk(reached, path, onPath, done, height) && Downward(edges, kept, height)
    requires HandledOk(edges, stack, onPath, done, back + kept) && LinksOk(edges, path, links, kept)
    requires ClosesCycles(edges, back, kept) && back !! kept
    ensures SearchOk(edges, reached, stack, path, onPath, done, back, kept, links, height)
  {
    hide EdgesWithin, Mirrors, HeightsOk, Downward, HandledOk, LinksOk, ClosesCycles;
  }

  /** The next edge of the top node, and the stack once its iterator has moved on. */
  function NextEdge(stack: seq<Frame>): nat
    requires stack != [] && stack[|stack| - 1].rest != []
  {
    stack[|stack| - 1].rest[0]
  }

  function Advanced(stack: seq<Frame>): seq<Frame>
    requires stack != [] && stack[|stack| - 1].rest != []
  {
    stack[|stack| - 1 := Frame(stack[|stack| - 1].node, stack[|stack| - 1].rest[1..])]
  }

  lemma TopEdge(edges: seq<Edge>, reached: set<Node>, stack: seq<Frame>, path: seq<Node>, onPath: set<Node>,
                done: set<Node>, back: set<nat>, kept: set<nat>, links: seq<nat>, height: map<Node, nat>)
    requires SearchOk(edges, reached, stack, path, onPath, done, back, kept, links, height)
    requires stack != [] && stack[|stack| - 1].rest != []
    ensures var e := NextEdge(stack);
      && |path| == |stack| && e < |edges| && edges[e].src == path[|path| - 1] && edges[e].dst in reached
      && Mirrors(Advanced(stack), path) && HandledOk(edges, Advanced(stack), onPath, done, back + kept + {e})
      && e !in back + kept
  {
    hide Mirrors, HeightsOk, Downward, HandledOk, LinksOk, ClosesCycles, EdgesWithin;
    var t := |stack| - 1;
    MirrorsStep(stack, path, stack[t].rest[1..], stack[t]);
    PathFacts(reached, path, onPath, done, height);
    HandleNext(edges, stack, onPath, done, back + kept, NextEdge(stack));
    DstReached(edges, reached, NextEdge(stack));
  }

  /** The target is still on the stack: the edge closes a cycle. */
  lemma BackStep(edges: seq<Edge>, reached: set<Node>, stack: seq<Frame>, path: seq<Node>, onPath: set<Node>,
                 done: set<Node>, back: set<nat>, kept: set<nat>, links: seq<nat>, height: map<Node, nat>)
    requires SearchOk(edges, reached, stack, path, onPath, done, back, kept, links, height)
    requires stack != [] && stack[|stack| - 1].rest != []
    requires NextEdge(stack) < |edges| && edges[NextEdge(stack)].dst in onPath
    ensures SearchOk(edges, reached, Advanced(stack), path, onPath, done, back + {NextEdge(stack)}, kept, links, height)
  {
    hide *;
    TopEdge(edges, reached, stack, path, onPath, done, back, kept, links, height);
    SearchParts(edges, reached, stack, path, onPath, done, back, kept, links, height);
    PathFacts(reached, path, onPath, done, height);
    Decide(back, kept, NextEdge(stack));
    PathClosesCycle(edges, path, links, kept, edges[NextEdge(stack)].dst);
    MoreBack(edges, kept, NextEdge(stack), back);
    SearchWhole(edges, reached, Advanced(stack), path, onPath, done, back + {NextEdge(stack)}, kept, links, height);
  }

  /** The target is finished: the edge is kept. */
  lemma CrossStep(edges: seq<Edge>, reached: set<Node>, stack: seq<Frame>, path: seq<Node>, onPath: set<Node>,
                  done: set<Node>, back: set<nat>, kept: set<nat>, links: seq<nat>, height: map<Node, nat>)
    requires SearchOk(edges, reached, stack, path, onPath, done, back, kept, links, height)
    requires stack != [] && stack[|stack| - 1].rest != []
    requires NextEdge(stack) < |edges| && edges[NextEdge(stack)].dst in done
    ensures SearchOk(edges, reached, Advanced(stack), path, onPath, done, back, kept + {NextEdge(stack)}, links, height)
  {
    hide *;
    TopEdge(edges, reached, stack, path, onPath, done, back, kept, links, height);
    SearchParts(edges, reached, stack, path, onPath, done, back, kept, links, height);
    Decide(back, kept, NextEdge(stack));
    MoreKept(edges, kept, NextEdge(stack), back);
    LinksStep(edges, path, links, kept, NextEdge(stack));
    CrossDownward(edges, reached, path, onPath, done, kept, height, NextEdge(stack));
    SearchWhole(edges, reached, Advanced(stack), path, onPath, done, back, kept + {NextEdge(stack)}, links, height);
  }

  /** The target is new: the edge is kept and the search goes on below it. */
  lemma EnterStep(edges: seq<Edge>, reached: set<Node>, stack: seq<Frame>, path: seq<Node>, onPath: set<Node>,
                  done: set<Node>, back: set<nat>, kept: set<nat>, links: seq<nat>, height: map<Node, nat>)
    requires SearchOk(edges, reached, stack, path, onPath, done, back, kept, links, height)
    requires stack != [] && stack[|stack| - 1].rest != []
    requires NextEdge(stack) < |edges| && edges[NextEdge(stack)].dst !in onPath + done
    ensures var e := NextEdge(stack);
      var n := edges[e].dst;
      && |path| <= 2 * |reached| && Unseen(reached, done, onPath + {n}) < Unseen(reached, done, onPath)
      && SearchOk(edges, reached, Advanced(stack) + [Frame(n, OutEdges(edges, n))], path + [n], onPath + {n}, done, back,
                  kept + {e}, links + [e], height[n := 2 * |reached| - |path|])
  {
    hide *;
    var e := NextEdge(stack);
    var n := edges[e].dst;
    TopEdge(edges, reached, stack, path, onPath, done, back, kept, links, height);
    SearchParts(edges, reached, stack, path, onPath, done, back, kept, links, height);
    Decide(back, kept, e);
    MoreKept(edges, kept, e, back);
    LinksStep(edges, path, links, kept, e);
    EnterHeights(edges, reached, path, onPath, done, kept, height, e, n);
    UnseenShrinks(reached, done, onPath, n);
    EnterHandled(edges, Advanced(stack), onPath, done, back + kept + {e}, n);
    EnterMirrors(stack, path, Frame(n, OutEdges(edges, n)));
    SearchWhole(edges, reached, Advanced(stack) + [Frame(n, OutEdges(edges, n))], path + [n], onPath + {n}, done, back,
                kept + {e}, links + [e], height[n := 2 * |reached| - |path|]);
  }

  /** How many edges the iterator of the top node still has. */
  ghost function TopRest(stack: seq<Frame>): nat {
    if stack == [] then 0 else |stack[|stack| - 1].rest|
  }

  /** The iterator gets shorter. */
  lemma Shorter(stack: seq<Frame>)
    requires stack != [] && stack[|stack| - 1].rest != []
    ensures |Advanced(stack)| == |stack| && TopRest(Advanced(stack)) < TopRest(stack)
  {
  }

  lemma EnterMirrors(stack: seq<Frame>, path: seq<Node>, f: Frame)
    requires Mirrors(stack, path) && stack != [] && stack[|stack| - 1].rest != []
    ensures Mirrors(Advanced(stack) + [f], path + [f.node])
  {
    hide Mirrors;
    MirrorsStep(stack, path, stack[|stack| - 1].rest[1..], f);
  }

  /** What the search has come to since it began at `root`. */
  ghost predicate FromRoot(edges: seq<Edge>, root: Node, before: set<Node>, seen: set<Node>) {
    forall n :: n in seen && n !in before ==> Reaches(edges, root, n)
  }

  /** No edge into `root` has been kept since. */
  ghost predicate NoneInto(edges: seq<Edge>, root: Node, before: set<nat>, kept: set<nat>) {
    before <= kept && forall i :: i in kept && i !in before ==> i < |edges| && edges[i].dst != root
  }

  /** While the search from `root` goes on, `root` is at the bottom of the path. */
  ghost predicate RootBelow(root: Node, path: seq<Node>) {
    path != [] ==> path[0] == root
  }

  lemma RootStarts(edges: seq<Edge>, root: Node, done: set<Node>, kept: set<nat>)
    ensures FromRoot(edges, root, done, done + {root}) && NoneInto(edges, root, kept, kept) && RootBelow(root, [root])
  {
    ReachesSelf(edges, root);
  }

  lemma RootOnPath(reached: set<Node>, path: seq<Node>, onPath: set<Node>, done: set<Node>, height: map<Node, nat>, root: Node)
    requires HeightsOk(reached, path, onPath, done, height) && RootBelow(root, path) && path != []
    ensures root in onPath && root !in done
  {
    hide ValuesOk;
    assert path[0] in path;
  }

  lemma RootStays(edges: seq<Edge>, reached: set<Node>, stack: seq<Frame>, path: seq<Node>, onPath: set<Node>,
                  done: set<Node>, back: set<nat>, kept: set<nat>, links: seq<nat>, height: map<Node, nat>, root: Node)
    requires SearchOk(edges, reached, stack, path, onPath, done, back, kept, links, height) && RootBelow(root, path)
    requires stack != [] && stack[|stack| - 1].rest != []
    ensures var e := NextEdge(stack);
      && root in onPath && root !in done && path != [] && e < |edges| && edges[e].src in onPath && edges[e].src !in done
  {
    hide *;
    TopEdge(edges, reached, stack, path, onPath, done, back, kept, links, height);
    SearchParts(edges, reached, stack, path, onPath, done, back, kept, links, height);
    RootOnPath(reached, path, onPath, done, height, root);
    PathFacts(reached, path, onPath, done, height);
  }

  lemma RootPopped(root: Node, path: seq<Node>)
    requires RootBelow(root, path) && path != []
    ensures RootBelow(root, path[..|path| - 1])
  {
  }

  lemma RootPushed(root: Node, path: seq<Node>, n: Node)
    requires RootBelow(root, path) && path != []
    ensures RootBelow(root, path + [n])
  {
  }

  lemma MoreFromRoot(edges: seq<Edge>, root: Node, before: set<Node>, seen: set<Node>, e: nat)
    requires FromRoot(edges, root, before, seen) && e < |edges| && edges[e].src in seen && edges[e].src !in before
    ensures FromRoot(edges, root, before, seen + {edges[e].dst})
  {
    hide Reaches;
    ReachesOn(edges, root, e);
  }

  lemma MoreNotInto(edges: seq<Edge>, root: Node, before: set<nat>, kept: set<nat>, e: nat)
    requires NoneInto(edges, root, before, kept) && e < |edges| && edges[e].dst != root
    ensures NoneInto(edges, root, before, kept + {e})
  {
  }

  /** One root of the search: the explicit-stack loop of the source. While it runs, the root
      stays on the path, so no edge into the root is kept. */
  method Explore(reached: set<Node>, edges: seq<Edge>, root: Node,
                 done0: set<Node>, back0: set<nat>, ghost kept0: set<nat>, ghost rank0: map<Node, nat>)
    returns (done: set<Node>, back: set<nat>, ghost kept: set<nat>, ghost height: map<Node, nat>)
    requires EdgesWithin(edges, reached) && root in reached && root !in done0
    requires Settled(edges, reached, done0, back0, kept0, rank0)
    ensures Settled(edges, reached, done, back, kept, height)
    ensures done0 <= done && root in done && back0 <= back
    ensures FromRoot(edges, root, done0, done) && NoneInto(edges, root, kept0, kept)
  {
    hide *;
    done, back, kept := done0, back0, kept0;
    height := rank0[root := 2 * |reached|];
    var onPath := {root};
    var stack := [Frame(root, OutEdges(edges, root))];
    ghost var path := [root];
    ghost var links: seq<nat> := [];
    Begin(edges, reached, root, done, back, kept, rank0);
    MirrorsStart(stack[0]);
    SearchWhole(edges, reached, stack, path, onPath, done, back, kept, links, height);
    RootStarts(edges, root, done, kept);
    while stack != []
      invariant SearchOk(edges, reached, stack, path, onPath, done, back, kept, links, height)
      invariant done0 <= done && root in done + onPath && back0 <= back
      invariant FromRoot(edges, root, done0, done + onPath) && NoneInto(edges, root, kept0, kept) && RootBelow(root, path)
      decreases Unseen(reached, done, onPath), |stack|, TopRest(stack)
    {
      var t := |stack| - 1;
      var top := stack[t];
      if top.rest == [] {
        FinishStep(edges, reached, stack, path, onPath, done, back, kept, links, height);
        RootPopped(root, path);
        assert done + onPath == (done + {top.node}) + (onPath - {top.node});
        stack, path, onPath := stack[..t], path[..t], onPath - {top.node};
        height := height[top.node := |done|];
        done := done + {top.node};
        links := if links == [] then [] else links[..|links| - 1];
      } else {
        TopEdge(edges, reached, stack, path, onPath, done, back, kept, links, height);
        var e := NextEdge(stack);
        var dst := edges[e].dst;
        Shorter(stack);
        RootStays(edges, reached, stack, path, onPath, done, back, kept, links, height, root);
        if dst in onPath {
          BackStep(edges, reached, stack, path, onPath, done, back, kept, links, height);
          stack, back := Advanced(stack), back + {e};
        } else if dst in done {
          CrossStep(edges, reached, stack, path, onPath, done, back, kept, links, height);
          MoreNotInto(edges, root, kept0, kept, e);
          stack, kept := Advanced(stack), kept + {e};
        } else {
          EnterStep(edges, reached, stack, path, onPath, done, back, kept, links, height);
          MoreNotInto(edges, root, kept0, kept, e);
          MoreFromRoot(edges, root, done0, done + onPath, e);
          RootPushed(root, path, dst);
          assert done + onPath + {dst} == done + (onPath + {dst});
          height := height[dst := 2 * |reached| - |path|];
          onPath := onPath + {dst};
          stack, path := Advanced(stack) + [Frame(dst, OutEdges(edges, dst))], path + [dst];
          links, kept := links + [e], kept + {e};
        }
      }
    }
    SearchParts(edges, reached, stack, path, onPath, done, back, kept, links, height);
    MirrorsEmpty(stack, path);
    PathFacts(reached, path, onPath, done, height);
    assert done + onPath == done;
    End(edges, reached, done, back, kept, height);
  }

  /** The edges that are not back edges. */
  ghost function Kept(edges: seq<Edge>, back: set<nat>): set<nat> {
    set i | 0 <= i < |edges| && i !in back
  }

  lemma {:induction false} ChainDescends(edges: seq<Edge>, kept: set<nat>, rank: map<Node, nat>, bound: nat, p: seq<nat>)
    requires Ranked(edges, kept, rank, bound) && IsChain(edges, kept, p) && p != []
    ensures rank[edges[p[|p| - 1]].dst] + |p| <= rank[edges[p[0]].src]
  {
    if |p| > 1 {
      var q := p[..|p| - 1];
      ChainDescends(edges, kept, rank, bound, q);
      assert edges[q[|q| - 1]].dst == edges[p[|p| - 1]].src;
    }
  }

  lemma {:induction false} RankedIsAcyclic(edges: seq<Edge>, kept: set<nat>, rank: map<Node, nat>, bound: nat)
    requires Ranked(edges, kept, rank, bound)
    ensures Acyclic(edges, kept)
  {
    forall p: seq<nat>, n: Node | p != [] ensures !Leads(edges, kept, p, n, n) {
      if Leads(edges, kept, p, n, n) {
        ChainDescends(edges, kept, rank, bound, p);
      }
    }
  }

  /** What is finished has no edge to what is not. */
  lemma {:induction false} SettledNoWayOut(edges: seq<Edge>, reached: set<Node>, done: set<Node>,
                                           back: set<nat>, kept: set<nat>, rank: map<Node, nat>)
    requires Settled(edges, reached, done, back, kept, rank)
    ensures NoWayOut(edges, done)
  {
    forall i | 0 <= i < |edges| && edges[i].src in done ensures edges[i].dst in done {
      assert i in back + kept;
      if i in back {
        var p :| Leads(edges, kept, p, edges[i].dst, edges[i].src);
        assert p != [] ==> p[0] in kept;
      }
    }
  }

  /** No root before the `k`-th leads to it. */
  ghost predicate FirstThere(edges: seq<Edge>, roots: seq<Node>, k: nat)
    requires k < |roots|
  {
    forall j :: 0 <= j < k ==> !Reaches(edges, roots[j], roots[k])
  }

  /** The edges into the `k`-th root that come from what it leads to are back edges. */
  ghost predicate ClosedAt(edges: seq<Edge>, roots: seq<Node>, back: set<nat>, k: nat)
    requires k < |roots|
  {
    forall i :: 0 <= i < |edges| && edges[i].dst == roots[k] && Reaches(edges, roots[k], edges[i].src) ==> i in back
  }

  /** Where the search begins, the cycles are cut: of the edges into a root that no earlier
      root leads to, the back edges are exactly those whose source the root leads to. */
  ghost predicate CutAtRoots(edges: seq<Edge>, roots: seq<Node>, back: set<nat>) {
    forall k, i :: 0 <= k < |roots| && FirstThere(edges, roots, k) && 0 <= i < |edges| && edges[i].dst == roots[k] ==>
      (i in back <==> Reaches(edges, roots[k], edges[i].src))
  }

  lemma CutAt(edges: seq<Edge>, roots: seq<Node>, back: set<nat>, k: nat)
    requires CutAtRoots(edges, roots, back) && k < |roots| && FirstThere(edges, roots, k)
    ensures forall i :: 0 <= i < |edges| && edges[i].dst == roots[k] ==> (i in back <==> Reaches(edges, roots[k], edges[i].src))
  {
  }

  /** Only what the roots so far lead to is finished. */
  ghost predicate DoneFrom(edges: seq<Edge>, roots: seq<Node>, r: nat, done: set<Node>)
    requires r <= |roots|
  {
    forall n :: n in done ==> exists j :: 0 <= j < r && Reaches(edges, roots[j], n)
  }

  lemma {:induction false} ExploredFrom(edges: seq<Edge>, roots: seq<Node>, r: nat, before: set<Node>, done: set<Node>)
    requires r < |roots| && DoneFrom(edges, roots, r, before) && FromRoot(edges, roots[r], before, done)
    ensures DoneFrom(edges, roots, r + 1, done)
  {
    hide Reaches;
  }

  lemma {:induction false} SkippedFrom(edges: seq<Edge>, roots: seq<Node>, r: nat, done: set<Node>)
    requires r < |roots| && DoneFrom(edges, roots, r, done)
    ensures DoneFrom(edges, roots, r + 1, done)
    ensures roots[r] in done ==> !FirstThere(edges, roots, r)
  {
    hide Reaches;
  }

  /** The search from a root that was not finished cuts the cycles through it. */
  lemma {:induction false} ExploredCuts(edges: seq<Edge>, reached: set<Node>, roots: seq<Node>, r: nat,
                                        done0: set<Node>, back0: set<nat>, kept0: set<nat>, rank0: map<Node, nat>,
                                        done: set<Node>, back: set<nat>, kept: set<nat>, rank: map<Node, nat>)
    requires r < |roots| && roots[r] !in done0 && roots[r] in done
    requires Settled(edges, reached, done0, back0, kept0, rank0) && Settled(edges, reached, done, back, kept, rank)
    requires NoneInto(edges, roots[r], kept0, kept)
    ensures ClosedAt(edges, roots, back, r)
  {
    SettledNoWayOut(edges, reached, done0, back0, kept0, rank0);
    SettledNoWayOut(edges, reached, done, back, kept, rank);
    hide ClosesCycles, Ranked;
    var root := roots[r];
    forall i | 0 <= i < |edges| && edges[i].dst == root && Reaches(edges, root, edges[i].src) ensures i in back {
      var p :| Leads(edges, All(edges), p, root, edges[i].src);
      StaysWithin(edges, done, p, root, edges[i].src);
      assert edges[i].src !in done0;
      assert i in back + kept;
      assert i !in back0 + kept0;
    }
  }

  lemma {:induction false} BackClosed(edges: seq<Edge>, roots: seq<Node>, back: set<nat>, kept: set<nat>)
    requires ClosesCycles(edges, back, kept)
    requires forall k :: 0 <= k < |roots| && FirstThere(edges, roots, k) ==> ClosedAt(edges, roots, back, k)
    ensures CutAtRoots(edges, roots, back) && forall i :: i in back ==> i < |edges|
  {
    hide FirstThere, Reaches;
    forall k, i | 0 <= k < |roots| && FirstThere(edges, roots, k) && 0 <= i < |edges| && edges[i].dst == roots[k] && i in back
      ensures Reaches(edges, roots[k], edges[i].src)
    {
      var p :| Leads(edges, kept, p, edges[i].dst, edges[i].src);
      ReachesByKept(edges, kept, p, edges[i].dst, edges[i].src);
    }
  }

  /** The search over all roots. What is not marked back is acyclic, every edge marked back
      would close a cycle, so none is dropped needlessly, and a cycle is cut where it leads
      back to the root the search came from. */
  method RemoveBackEdges(reached: set<Node>, roots: seq<Node>, edges: seq<Edge>)
    returns (back: set<nat>, ghost rank: map<Node, nat>)
    requires EdgesWithin(edges, reached)
    requires forall n :: n in roots <==> n in reached
    ensures forall i :: i in back ==> i < |edges|
    ensures Acyclic(edges, Kept(edges, back))
    ensures ClosesCycles(edges, back, Kept(edges, back))
    ensures CutAtRoots(edges, roots, back)
    ensures rank.Keys == reached && Ranked(edges, Kept(edges, back), rank, |reached|)
  {
    hide ClosesCycles, Ranked, FirstThere, ClosedAt, DoneFrom, CutAtRoots, FromRoot, NoneInto;
    var done: set<Node> := {};
    ghost var kept: set<nat> := {};
    back, rank := {}, map[];
    NothingDone(edges, reached, roots);
    for r := 0 to |roots|
      invariant Settled(edges, reached, done, back, kept, rank)
      invariant forall k :: 0 <= k < r ==> roots[k] in done
      invariant DoneFrom(edges, roots, r, done)
      invariant forall k :: 0 <= k < r && FirstThere(edges, roots, k) ==> ClosedAt(edges, roots, back, k)
    {
      assert roots[r] in roots;
      SkippedFrom(edges, roots, r, done);
      if roots[r] !in done {
        ghost var done0, back0, kept0, rank0 := done, back, kept, rank;
        done, back, kept, rank := Explore(reached, edges, roots[r], done, back, kept, rank);
        ExploredFrom(edges, roots, r, done0, done);
        ExploredCuts(edges, reached, roots, r, done0, back0, kept0, rank0, done, back, kept, rank);
        forall k | 0 <= k < r && FirstThere(edges, roots, k) ensures ClosedAt(edges, roots, back, k) {
          StaysClosed(edges, roots, back0, back, k);
        }
      }
    }
    assert done == reached by {
      assert forall n :: n in reached ==> n in roots;
    }
    SettledKept(edges, reached, back, kept, rank);
    RankedIsAcyclic(edges, kept, rank, |reached|);
    BackClosed(edges, roots, back, kept);
  }

  lemma {:induction false} NothingDone(edges: seq<Edge>, reached: set<Node>, roots: seq<Node>)
    ensures Settled(edges, reached, {}, {}, {}, map[]) && DoneFrom(edges, roots, 0, {})
  {
  }

  lemma {:induction false} StaysClosed(edges: seq<Edge>, roots: seq<Node>, before: set<nat>, back: set<nat>, k: nat)
    requires k < |roots| && ClosedAt(edges, roots, before, k) && before <= back
    ensures ClosedAt(edges, roots, back, k)
  {
    hide Reaches;
  }

  lemma {:induction false} SettledKept(edges: seq<Edge>, reached: set<Node>, back: set<nat>, kept: set<nat>, rank: map<Node, nat>)
    requires EdgesWithin(edges, reached) && Settled(edges, reached, reached, back, kept, rank)
    ensures kept == Kept(edges, back)
  {
    hide ClosesCycles, Ranked;
    forall i ensures i in kept <==> i in Kept(edges, back) {
      if 0 <= i < |edges| {
        assert i in back + kept;
      }
      assert i in kept ==> i in back + kept;
    }
  }

  // ---- longest path -------------------------------------------------------

  /** The kept edges in list order. */
  function Forward(edges: seq<Edge>, back: set<nat>): (r: seq<nat>)
    ensures forall i :: i in r <==> 0 <= i < |edges| && i !in back
  {
    if edges == [] then []
    else
      var last := |edges| - 1;
      Forward(edges[..last], back) + if last in back then [] else [last]
  }

  /** Every layer value is reached by a chain of that length. */
  ghost predicate Witnessed(edges: seq<Edge>, kept: set<nat>, layer: map<Node, int>) {
    forall v :: v in layer ==> layer[v] >= 1 && exists p :: EndsIn(edges, kept, p, v) && |p| == layer[v] - 1
  }

  /** No chain of up to `k` edges is longer than the layer of its end. */
  ghost predicate Covers(edges: seq<Edge>, kept: set<nat>, layer: map<Node, int>, k: nat) {
    forall v, p :: v in layer && EndsIn(edges, kept, p, v) && |p| <= k ==> |p| < layer[v]
  }

  /** `layer` is exactly one more than the longest chain of kept edges to each node. */
  ghost predicate Exact(edges: seq<Edge>, kept: set<nat>, layer: map<Node, int>) {
    forall v :: v in layer ==> LongestTo(edges, kept, v, layer[v] - 1)
  }

  lemma {:induction false} OnesCover(edges: seq<Edge>, kept: set<nat>, layer: map<Node, int>)
    requires forall v :: v in layer ==> layer[v] == 1
    ensures Witnessed(edges, kept, layer) && Covers(edges, kept, layer, 0)
  {
    forall v | v in layer ensures EndsIn(edges, kept, [], v) {}
  }

  lemma {:induction false} WitnessStep(edges: seq<Edge>, kept: set<nat>, layer: map<Node, int>, i: nat)
    requires Witnessed(edges, kept, layer) && i in kept && i < |edges| && edges[i].src in layer
    ensures Witnessed(edges, kept, layer[edges[i].dst := layer[edges[i].src] + 1])
  {
    var p :| EndsIn(edges, kept, p, edges[i].src) && |p| == layer[edges[i].src] - 1;
    assert EndsIn(edges, kept, p + [i], edges[i].dst);
  }

  /** One more round covers chains with one more edge. */
  lemma {:induction false} RoundCovers(edges: seq<Edge>, kept: set<nat>, before: map<Node, int>, after: map<Node, int>, k: nat)
    requires Covers(edges, kept, before, k) && Witnessed(edges, kept, before) && before.Keys == after.Keys
    requires forall v :: v in before ==> before[v] <= after[v]
    requires forall i :: i in kept && i < |edges| ==>
      edges[i].src in before && edges[i].dst in before && before[edges[i].src] < after[edges[i].dst]
    ensures Covers(edges, kept, after, k + 1)
  {
    hide EndsIn;
    forall v, p | v in after && EndsIn(edges, kept, p, v) && |p| <= k + 1 ensures |p| < after[v] {
      if p != [] {
        LastEdge(edges, kept, p, v);
      } else {
        assert EndsIn(edges, kept, p, v) && 0 <= k;
      }
    }
  }

  lemma {:induction false} LastEdge(edges: seq<Edge>, kept: set<nat>, p: seq<nat>, v: Node)
    requires EndsIn(edges, kept, p, v) && p != []
    ensures var i := p[|p| - 1];
      i in kept && i < |edges| && edges[i].dst == v && EndsIn(edges, kept, p[..|p| - 1], edges[i].src)
  {
  }

  /** At a fixpoint every chain is covered. */
  lemma {:induction false} FixpointCovers(edges: seq<Edge>, kept: set<nat>, layer: map<Node, int>, k: nat)
    requires Witnessed(edges, kept, layer)
    requires forall i :: i in kept && i < |edges| ==>
      edges[i].src in layer && edges[i].dst in layer && layer[edges[i].src] < layer[edges[i].dst]
    ensures Covers(edges, kept, layer, k)
  {
    if k > 0 {
      FixpointCovers(edges, kept, layer, k - 1);
      RoundCovers(edges, kept, layer, layer, k - 1);
    }
  }

  lemma {:induction false} CoveredIsExact(edges: seq<Edge>, kept: set<nat>, layer: map<Node, int>, rank: map<Node, nat>)
    requires Ranked(edges, kept, rank, |layer|) && Witnessed(edges, kept, layer) && Covers(edges, kept, layer, |layer|)
    ensures Exact(edges, kept, layer)
  {
    forall v, p | v in layer && EndsIn(edges, kept, p, v) ensures |p| < layer[v] {
      if p != [] {
        ChainDescends(edges, kept, rank, |layer|, p);
      }
    }
  }

  /** The relaxation loop: as many rounds as there are nodes are always enough. */
  method Relax(reached: set<Node>, edges: seq<Edge>, back: set<nat>, ghost rank: map<Node, nat>)
    returns (layer: map<Node, int>)
    requires EdgesWithin(edges, reached) && Ranked(edges, Kept(edges, back), rank, |reached|)
    ensures layer.Keys == reached
    ensures Exact(edges, Kept(edges, back), layer)
  {
    hide Ranked, Witnessed, Covers, Exact;
    ghost var kept := Kept(edges, back);
    layer := map n | n in reached :: 1;
    assert layer.Keys == reached;
    OnesCover(edges, kept, layer);
    var forward := Forward(edges, back);
    assert forall l :: 0 <= l < |forward| ==> forward[l] in forward;
    ghost var fixpoint := false;
    for round := 0 to |reached|
      invariant layer.Keys == reached && !fixpoint
      invariant Witnessed(edges, kept, layer) && Covers(edges, kept, layer, round)
    {
      var changed := false;
      ghost var before := layer;
      for j := 0 to |forward|
        invariant layer.Keys == reached && Witnessed(edges, kept, layer)
        invariant forall v :: v in reached ==> before[v] <= layer[v]
        invariant forall l :: 0 <= l < j ==> before[edges[forward[l]].src] < layer[edges[forward[l]].dst]
        invariant !changed ==> layer == before
      {
        var i := forward[j];
        assert i in forward;
        if layer[edges[i].dst] < layer[edges[i].src] + 1 {
          WitnessStep(edges, kept, layer, i);
          layer := layer[edges[i].dst := layer[edges[i].src] + 1];
          changed := true;
        }
      }
      assert forall i :: i in kept ==> i in forward;
      RoundCovers(edges, kept, before, layer, round);
      if !changed {
        FixpointCovers(edges, kept, layer, |reached|);
        fixpoint := true;
        break;
      }
    }
    assert |layer| == |layer.Keys|;
    CoveredIsExact(edges, kept, layer, rank);
  }

  /** `_layers`: the layer of every reached datastore and the back edges. */
  method BuildLayers(reached: set<Node>, roots: seq<Node>, edges: seq<Edge>) returns (layer: map<Node, int>, back: set<nat>)
    requires EdgesWithin(edges, reached)
    requires forall n :: n in roots <==> n in reached
    ensures layer.Keys == reached
    ensures Acyclic(edges, Kept(edges, back)) && ClosesCycles(edges, back, Kept(edges, back))
    ensures Exact(edges, Kept(edges, back), layer)
    ensures CutAtRoots(edges, roots, back)
    ensures forall k :: 0 <= k < |roots| && FirstThere(edges, roots, k) ==>
      (layer[roots[k]] == 1 <==> OnlyCyclesInto(edges, roots[k]))
  {
    hide CutAtRoots, Ranked, Exact, Acyclic, ClosesCycles, FirstThere, OnlyCyclesInto;
    ghost var rank;
    back, rank := RemoveBackEdges(reached, roots, edges);
    layer := Relax(reached, edges, back, rank);
    forall k | 0 <= k < |roots| && FirstThere(edges, roots, k)
      ensures roots[k] in reached && (layer[roots[k]] == 1 <==> OnlyCyclesInto(edges, roots[k]))
    {
      assert roots[k] in roots;
      RootLayer(edges, roots, back, layer, k);
    }
  }

  /** Every edge into `n` comes from a node that `n` leads to. */
  ghost predicate OnlyCyclesInto(edges: seq<Edge>, n: Node) {
    forall i :: 0 <= i < |edges| && edges[i].dst == n ==> Reaches(edges, n, edges[i].src)
  }

  /** A root that no earlier root leads to stands in the first layer, unless an edge comes
      into it from outside what it leads to. */
  lemma {:induction false} RootLayer(edges: seq<Edge>, roots: seq<Node>, back: set<nat>, layer: map<Node, int>, k: nat)
    requires Exact(edges, Kept(edges, back), layer) && CutAtRoots(edges, roots, back)
    requires k < |roots| && roots[k] in layer && FirstThere(edges, roots, k)
    ensures layer[roots[k]] == 1 <==> OnlyCyclesInto(edges, roots[k])
  {
    hide Reaches, FirstThere;
    var n := roots[k];
    var kept := Kept(edges, back);
    assert LongestTo(edges, kept, n, layer[n] - 1);
    forall i | i in kept && edges[i].dst == n ensures layer[n] != 1 {
      assert EndsIn(edges, kept, [i], n);
    }
    if layer[n] != 1 {
      var p := LongestChain(edges, kept, n, layer[n] - 1);
      assert p != [] && p[|p| - 1] in kept;
    }
  }

  // ---- what the layers mean for the picture --------------------------------

  /** Every kept edge spans at least one column. */
  lemma {:induction false} KeptEdgesSpan(edges: seq<Edge>, kept: set<nat>, layer: map<Node, int>, i: nat)
    requires Exact(edges, kept, layer) && i in kept && i < |edges| && edges[i].src in layer && edges[i].dst in layer
    ensures layer[edges[i].dst] - layer[edges[i].src] >= 1
  {
    var p :| EndsIn(edges, kept, p, edges[i].src) && |p| == layer[edges[i].src] - 1;
    assert EndsIn(edges, kept, p + [i], edges[i].dst);
  }

  /** The node a chain to `v` has come to after `j` edges. */
  ghost function NodeAt(edges: seq<Edge>, p: seq<nat>, v: Node, j: nat): Node
    requires j < |p| ==> p[j] < |edges|
  {
    if j < |p| then edges[p[j]].src else v
  }

  lemma {:induction false} Splice(edges: seq<Edge>, kept: set<nat>, p: seq<nat>, v: Node, j: nat, q: seq<nat>)
    requires EndsIn(edges, kept, p, v) && j <= |p| && EndsIn(edges, kept, q, NodeAt(edges, p, v, j))
    ensures EndsIn(edges, kept, q + p[j..], v)
  {
    var r := q + p[j..];
    forall k | 0 < k < |r| ensures edges[r[k - 1]].dst == edges[r[k]].src {
      if k < |q| {
        assert r[k - 1] == q[k - 1] && r[k] == q[k];
      } else if k > |q| {
        assert r[k - 1] == p[j + k - 1 - |q|] && r[k] == p[j + k - |q|];
      }
    }
  }

  /** A longest chain is longest at each of its nodes. */
  lemma {:induction false} LongestPrefix(edges: seq<Edge>, kept: set<nat>, p: seq<nat>, v: Node, j: nat, len: int)
    requires EndsIn(edges, kept, p, v) && LongestTo(edges, kept, v, |p|) && j <= |p|
    requires LongestTo(edges, kept, NodeAt(edges, p, v, j), len)
    ensures len == j
  {
    var u := NodeAt(edges, p, v, j);
    var q :| EndsIn(edges, kept, q, u) && |q| == len;
    Splice(edges, kept, p, v, j, q);
    assert EndsIn(edges, kept, p[..j], u);
  }

  /** The layers below a node's own are all occupied, so no column is empty. */
  lemma {:induction false} NoGaps(edges: seq<Edge>, kept: set<nat>, layer: map<Node, int>, v: Node, k: int)
    requires Exact(edges, kept, layer) && EdgesWithin(edges, layer.Keys) && v in layer && 1 <= k <= layer[v]
    ensures exists u :: u in layer && layer[u] == k
  {
    hide LongestTo;
    var p := LongestChain(edges, kept, v, layer[v] - 1);
    var u := NodeAt(edges, p, v, k - 1);
    LongestPrefix(edges, kept, p, v, k - 1, layer[u] - 1);
  }

  lemma {:induction false} LongestChain(edges: seq<Edge>, kept: set<nat>, v: Node, len: int) returns (p: seq<nat>)
    requires LongestTo(edges, kept, v, len)
    ensures EndsIn(edges, kept, p, v) && |p| == len
  {
    p :| EndsIn(edges, kept, p, v) && |p| == len;
  }

  ghost predicate Gapless(layer: map<Node, int>) {
    && (forall v :: v in layer ==> layer[v] >= 1)
    && (forall v, k :: v in layer && 1 <= k <= layer[v] ==> k in layer.Values)
  }

  lemma {:induction false} ExactIsGapless(edges: seq<Edge>, kept: set<nat>, layer: map<Node, int>)
    requires Exact(edges, kept, layer) && EdgesWithin(edges, layer.Keys)
    ensures Gapless(layer)
  {
    forall v, k | v in layer && 1 <= k <= layer[v] ensures k in layer.Values {
      NoGaps(edges, kept, layer, v, k);
    }
    forall v | v in layer ensures layer[v] >= 1 {
      var p :| EndsIn(edges, kept, p, v) && |p| == layer[v] - 1;
    }
  }

  lemma {:induction false} MaxExists(s: set<int>)
    requires s != {}
    ensures exists m :: m in s && forall x :: x in s ==> x <= m
  {
    NotEmpty(s);
    var y :| y in s;
    var rest := s - {y};
    assert forall x :: x in s ==> x == y || x in rest;
    if rest == {} {
      assert forall x :: x in s ==> x <= y;
    } else {
      MaxExists(rest);
      var m :| m in rest && forall x :: x in rest ==> x <= m;
      var top := if m < y then y else m;
      assert top in s && forall x :: x in s ==> x <= top;
    }
  }

  /** The values of a set in ascending order (Python's `sorted`). */
  function Sorted(s: set<int>): (r: seq<int>)
    ensures forall x :: x in r <==> x in s
    ensures forall j, k :: 0 <= j < k < |r| ==> r[j] < r[k]
  {
    if s == {} then []
    else
      var m := Largest(s);
      var before := Sorted(s - {m});
      assert forall j :: 0 <= j < |before| ==> before[j] in before;
      before + [m]
  }

  function Largest(s: set<int>): (m: int)
    requires s != {}
    ensures m in s && forall x :: x in s ==> x <= m
  {
    MaxExists(s);
    var m :| m in s && forall x :: x in s ==> x <= m;
    m
  }

  /** Without gaps the sorted distinct layers are 1, 2, .., so layer and column number agree. */
  lemma {:induction false} SortedLayers(s: set<int>, top: nat)
    requires forall x :: x in s <==> 1 <= x <= top
    ensures |Sorted(s)| == top && forall k :: 0 <= k < top ==> Sorted(s)[k] == k + 1
  {
    if top > 0 {
      assert top in s;
      SortedLayers(s - {top}, top - 1);
    } else if s != {} {
      NotEmpty(s);
    }
  }

  /** `n` stands in column `k`, in the group of its server. */
  ghost predicate InColumn(columns: seq<map<string, set<Node>>>, k: int, n: Node) {
    0 <= k < |columns| && n.server in columns[k] && n in columns[k][n.server]
  }

  /** A group is not empty and holds datastores of its own server only. */
  ghost predicate GroupOk(column: map<string, set<Node>>, s: string)
    requires s in column
  {
    column[s] != {} && forall n :: n in column[s] ==> n.server == s
  }

  /** Column `k` holds exactly the nodes of layer `k + 1`. */
  ghost predicate ColumnsShow(layer: map<Node, int>, columns: seq<map<string, set<Node>>>) {
    && (forall v :: v in layer ==> 1 <= layer[v] <= |columns|)
    && (forall k, n :: InColumn(columns, k, n) <==> 0 <= k < |columns| && n in layer && layer[n] == k + 1)
  }

  /** `_columns`, placement only: for every distinct layer in ascending order one column,
      its datastores grouped by server. Column `k` holds exactly the nodes of layer `k + 1`. */
  method Columns(layer: map<Node, int>) returns (columns: seq<map<string, set<Node>>>)
    requires Gapless(layer)
    ensures ColumnsShow(layer, columns)
    ensures forall k, s :: 0 <= k < |columns| && s in columns[k] ==> GroupOk(columns[k], s)
  {
    var levels := Sorted(layer.Values);
    LevelsAreNumbered(layer);
    columns := [];
    for j := 0 to |levels|
      invariant |columns| == j
      invariant forall k, n :: InColumn(columns, k, n) <==> 0 <= k < j && n in layer && layer[n] == k + 1
      invariant forall k, s :: 0 <= k < j && s in columns[k] ==> GroupOk(columns[k], s)
    {
      var levelNodes := set n | n in layer && layer[n] == levels[j];
      var servers := set n | n in levelNodes :: n.server;
      var column := map s | s in servers :: set n | n in levelNodes && n.server == s;
      forall k, n | 0 <= k <= j ensures InColumn(columns + [column], k, n) <==> n in layer && layer[n] == k + 1 {
        assert k < j ==> (InColumn(columns + [column], k, n) <==> InColumn(columns, k, n));
      }
      forall s | s in column ensures GroupOk(column, s) {
        var n :| n in levelNodes && n.server == s;
        assert n in column[s];
      }
      columns := columns + [column];
    }
  }

  lemma {:induction false} LevelsAreNumbered(layer: map<Node, int>)
    requires Gapless(layer)
    ensures forall k :: 0 <= k < |Sorted(layer.Values)| ==> Sorted(layer.Values)[k] == k + 1
    ensures forall v :: v in layer ==> 1 <= layer[v] <= |Sorted(layer.Values)|
  {
    var values := layer.Values;
    if values == {} {
      SortedLayers(values, 0);
    } else {
      MaxExists(values);
      var top :| top in values && forall x :: x in values ==> x <= top;
      SortedLayers(values, top);
    }
    assert forall v :: v in layer ==> layer[v] in values;
  }

  /** Every datastore stands in exactly one column, and an edge that is not a back
      edge leads to a later column than its source's. */
  lemma {:induction false} Placement(edges: seq<Edge>, back: set<nat>, layer: map<Node, int>, columns: seq<map<string, set<Node>>>)
    requires Exact(edges, Kept(edges, back), layer) && EdgesWithin(edges, layer.Keys) && ColumnsShow(layer, columns)
    ensures forall n :: n in layer ==> InColumn(columns, layer[n] - 1, n)
    ensures forall k, n :: InColumn(columns, k, n) ==> n in layer && k == layer[n] - 1
    ensures forall i :: 0 <= i < |edges| && i !in back ==> layer[edges[i].src] < layer[edges[i].dst]
  {
    forall i | 0 <= i < |edges| && i !in back ensures layer[edges[i].src] < layer[edges[i].dst] {
      KeptEdgesSpan(edges, Kept(edges, back), layer, i);
    }
  }
}
