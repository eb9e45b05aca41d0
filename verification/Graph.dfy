/** The replication graph of app/services/pbs_topology.py: datastores, namespaces
    and the sync jobs between them. A job's identity is its position in the list,
    as the source tells jobs apart by object identity. */
module Graph {
  datatype Node = Node(server: string, store: string)

  // A PBS namespace, as its path components ([] is the root namespace).
  type Namespace = seq<string>

  datatype Edge = Edge(src: Node, srcNs: Namespace, dst: Node, dstNs: Namespace)

  /** The jobs leaving `n`, in list order. */
  function OutEdges(edges: seq<Edge>, n: Node): (out: seq<nat>)
    ensures forall i :: i in out <==> 0 <= i < |edges| && edges[i].src == n
    ensures forall j, k :: 0 <= j < k < |out| ==> out[j] < out[k]
  {
    if edges == [] then []
    else
      var last := |edges| - 1;
      var before := OutEdges(edges[..last], n);
      assert forall j :: 0 <= j < |before| ==> before[j] in before;
      if edges[last].src == n then before + [last] else before
  }

  /** `p` is a chain of consecutive edges, all of them in `kept`. */
  ghost predicate IsChain(edges: seq<Edge>, kept: set<nat>, p: seq<nat>) {
    && (forall k :: 0 <= k < |p| ==> p[k] in kept && p[k] < |edges|)
    && (forall k :: 0 < k < |p| ==> edges[p[k - 1]].dst == edges[p[k]].src)
  }

  /** `p` leads from `a` to `b`; the empty chain leads from a node to itself. */
  ghost predicate Leads(edges: seq<Edge>, kept: set<nat>, p: seq<nat>, a: Node, b: Node) {
    && IsChain(edges, kept, p)
    && if p == [] then a == b else edges[p[0]].src == a && edges[p[|p| - 1]].dst == b
  }

  /** `p` ends in `v`; the empty chain ends anywhere. */
  ghost predicate EndsIn(edges: seq<Edge>, kept: set<nat>, p: seq<nat>, v: Node) {
    IsChain(edges, kept, p) && (p != [] ==> edges[p[|p| - 1]].dst == v)
  }

  ghost function All(edges: seq<Edge>): set<nat> {
    set i {:trigger edges[i]} | 0 <= i < |edges|
  }

  /** Some chain leads from `a` to `b`, back edges or not. */
  ghost predicate Reaches(edges: seq<Edge>, a: Node, b: Node) {
    exists p :: Leads(edges, All(edges), p, a, b)
  }

  lemma ReachesSelf(edges: seq<Edge>, a: Node)
    ensures Reaches(edges, a, a)
  {
    assert Leads(edges, All(edges), [], a, a);
  }

  lemma ReachesOn(edges: seq<Edge>, a: Node, i: nat)
    requires i < |edges| && Reaches(edges, a, edges[i].src)
    ensures Reaches(edges, a, edges[i].dst)
  {
    var p :| Leads(edges, All(edges), p, a, edges[i].src);
    assert Leads(edges, All(edges), p + [i], a, edges[i].dst);
  }

  lemma ReachesByKept(edges: seq<Edge>, kept: set<nat>, p: seq<nat>, a: Node, b: Node)
    requires Leads(edges, kept, p, a, b)
    ensures Reaches(edges, a, b)
  {
    assert Leads(edges, All(edges), p, a, b);
  }

  /** No edge leads out of `c`. */
  ghost predicate NoWayOut(edges: seq<Edge>, c: set<Node>) {
    forall i :: 0 <= i < |edges| && edges[i].src in c ==> edges[i].dst in c
  }

  lemma {:induction false} StaysWithin(edges: seq<Edge>, c: set<Node>, p: seq<nat>, a: Node, b: Node)
    requires NoWayOut(edges, c) && a in c && Leads(edges, All(edges), p, a, b)
    ensures b in c
  {
    if p != [] {
      var last := p[|p| - 1];
      assert Leads(edges, All(edges), p[..|p| - 1], a, edges[last].src);
      StaysWithin(edges, c, p[..|p| - 1], a, edges[last].src);
    }
  }

  /** No non-empty chain of kept edges comes back to where it started. */
  ghost predicate Acyclic(edges: seq<Edge>, kept: set<nat>) {
    forall p, n :: p != [] ==> !Leads(edges, kept, p, n, n)
  }

  /** The longest chain of kept edges ending in `v` has exactly `len` edges. */
  ghost predicate LongestTo(edges: seq<Edge>, kept: set<nat>, v: Node, len: int) {
    && (exists p :: EndsIn(edges, kept, p, v) && |p| == len)
    && (forall p :: EndsIn(edges, kept, p, v) ==> |p| <= len)
  }
}
