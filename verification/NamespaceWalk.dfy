/** The walk of `build_topology` (app/services/pbs_topology.py) over datastores and
    namespaces: which (datastore, namespace) states a cluster's backups come to, and
    which sync jobs take part. */
module NamespaceWalk {
  import opened Wrappers
  import opened Graph

  // The walk's state: data of this cluster lying in a namespace of a datastore.
  datatype State = State(node: Node, ns: Namespace)

  // A PBS connection of the cluster: its server and whether it is limited to a namespace.
  datatype OwnConnection = OwnConnection(server: string, restricted: bool)

  const MAX_NS_DEPTH := 7

  /** The number of separators of the namespace's path. */
  function Slashes(ns: Namespace): int {
    if ns == [] then 0 else |ns| - 1
  }

  /** At most seven components. */
  predicate Bounded(ns: Namespace): (b: bool)
    ensures b <==> |ns| <= 7
  {
    Slashes(ns) < MAX_NS_DEPTH
  }

  /** `_map_ns`: where the data lands on the job's target, if the job takes it. */
  function MapNs(data: Namespace, source: Namespace, target: Namespace): (r: Option<Namespace>)
    ensures r.Some? <==> source <= data || data <= source
    ensures r.Some? ==> forall c :: c in r.value ==> c in target || c in data
  {
    if source <= data then
      assert forall c :: c in data[|source|..] ==> c in data;
      Some(target + data[|source|..])
    else if data <= source then Some(target)
    else None
  }

  /** The data lands below the target namespace, with as much of the end of its path as lies
      below the source namespace. */
  lemma LandsBelow(data: Namespace, source: Namespace, target: Namespace)
    requires MapNs(data, source, target).Some?
    ensures var ns := MapNs(data, source, target).value;
      && target <= ns
      && |ns| - |target| == (if |data| > |source| then |data| - |source| else 0)
      && ns[|target|..] == data[|data| - (|ns| - |target|)..]
  {
    if source <= data {
      assert (target + data[|source|..])[|target|..] == data[|source|..];
    }
  }

  /** Data that contains the source namespace lands where data lying in that namespace
      itself would: in the target namespace. */
  lemma PartLandsAsWhole(data: Namespace, source: Namespace, target: Namespace)
    requires data <= source
    ensures MapNs(data, source, target) == MapNs(source, source, target) == Some(target)
  {
    assert source <= data ==> data == source;
    assert source[|source|..] == [] && target + [] == target;
  }

  /** Below the source a job keeps the shape of the data: what contains what, and what is
      the same. */
  lemma ShapeIsKept(a: Namespace, b: Namespace, source: Namespace, target: Namespace)
    requires source <= a && source <= b
    ensures var a', b' := MapNs(a, source, target), MapNs(b, source, target);
      a'.Some? && b'.Some? && (a <= b <==> a'.value <= b'.value) && (a == b <==> a' == b')
  {
    assert a == source + a[|source|..] && b == source + b[|source|..];
    var x, y := a[|source|..], b[|source|..];
    assert (target + x)[|target|..] == x && (target + y)[|target|..] == y;
    assert x <= y ==> y == x + y[|x|..] && target + y == target + x + y[|x|..] && source + y == source + x + y[|x|..];
    assert target + x <= target + y ==> (target + y)[..|target + x|][|target|..] == x && y[..|x|] == x;
    assert source + x <= source + y ==> (source + y)[..|source + x|][|source|..] == x && y[..|x|] == x;
  }

  /** Two jobs in a row, the second from where the first one puts its data, do what one job
      between the two ends would do. */
  lemma JobsCompose(data: Namespace, source: Namespace, between: Namespace, target: Namespace)
    requires source <= data
    ensures var there := MapNs(data, source, between);
      there.Some? && MapNs(there.value, between, target) == MapNs(data, source, target)
  {
    assert (between + data[|source|..])[|between|..] == data[|source|..];
  }

  /** A job and its mirror image bring data back to where it was. */
  lemma MutualJobsRoundTrip(data: Namespace, source: Namespace, target: Namespace)
    requires source <= data
    ensures var there := MapNs(data, source, target); there.Some? && MapNs(there.value, target, source) == Some(data)
  {
    JobsCompose(data, source, target, source);
    assert source + data[|source|..] == data;
  }

  // ---- the specification: a least fixpoint --------------------------------

  predicate Feeds(s: State, e: Edge) {
    e.src == s.node && MapNs(s.ns, e.srcNs, e.dstNs).Some?
  }

  function Landing(s: State, e: Edge): State
    requires Feeds(s, e)
  {
    State(e.dst, MapNs(s.ns, e.srcNs, e.dstNs).value)
  }

  /** One step of job `i` from `s` stays in `c`, unless it goes too deep. */
  ghost predicate StepsInto(jobs: seq<Edge>, s: State, i: nat, c: set<State>)
    requires i < |jobs|
  {
    Feeds(s, jobs[i]) && Bounded(Landing(s, jobs[i]).ns) ==> Landing(s, jobs[i]) in c
  }

  ghost predicate Closed(jobs: seq<Edge>, c: set<State>) {
    forall s, i :: s in c && 0 <= i < |jobs| ==> StepsInto(jobs, s, i, c)
  }

  ghost predicate Contains(c: set<State>, seeds: set<State>) {
    forall s :: s in seeds && Bounded(s.ns) ==> s in c
  }

  /** Everything in `c` is in every closed set that contains the seeds. */
  ghost predicate Sound(jobs: seq<Edge>, seeds: set<State>, c: set<State>) {
    forall d :: Closed(jobs, d) && Contains(d, seeds) ==> c <= d
  }

  /** `c` is the least set that contains the seeds and is closed under job steps. */
  ghost predicate IsLeast(jobs: seq<Edge>, seeds: set<State>, c: set<State>) {
    Contains(c, seeds) && Closed(jobs, c) && Sound(jobs, seeds, c)
  }

  lemma LeastIsUnique(jobs: seq<Edge>, seeds: set<State>, c: set<State>, d: set<State>)
    requires IsLeast(jobs, seeds, c) && IsLeast(jobs, seeds, d)
    ensures c == d
  {
    assert c <= d && d <= c;
  }

  /** `order` lists exactly the jobs that some state in `c` feeds, each once. */
  ghost predicate UsedExactly(jobs: seq<Edge>, c: set<State>, order: seq<nat>) {
    && (forall j, k :: 0 <= j < k < |order| ==> order[j] != order[k])
    && (forall i :: i in order ==> i < |jobs| && exists s :: s in c && Feeds(s, jobs[i]))
    && (forall s, i :: s in c && 0 <= i < |jobs| && Feeds(s, jobs[i]) ==> i in order)
  }

  /** The datastores shown: those of the seeds and the targets of used jobs. */
  ghost function Shown(jobs: seq<Edge>, seeds: set<State>, order: seq<nat>): set<Node>
    requires forall i :: i in order ==> i < |jobs|
  {
    (set s | s in seeds :: s.node) + (set i | i in order :: jobs[i].dst)
  }

  // ---- a finite universe --------------------------------------------------

  /** All sequences of up to `n` elements of `alphabet`. */
  ghost function Sequences(alphabet: set<string>, n: nat): set<Namespace> {
    if n == 0 then {[]}
    else {[]} + set a, s | a in alphabet && s in Sequences(alphabet, n - 1) :: [a] + s
  }

  lemma {:induction false} SequencesComplete(alphabet: set<string>, n: nat, s: Namespace)
    requires |s| <= n && forall c :: c in s ==> c in alphabet
    ensures s in Sequences(alphabet, n)
  {
    if s != [] {
      SequencesComplete(alphabet, n - 1, s[1..]);
      assert s == [s[0]] + s[1..];
    }
  }

  ghost function Components(states: set<State>): set<string> {
    set s, c | s in states && c in s.ns :: c
  }

  ghost function TargetComponents(jobs: seq<Edge>): set<string> {
    set e, c | e in jobs && c in e.dstNs :: c
  }

  ghost predicate Within(s: State, nodes: set<Node>, alphabet: set<string>) {
    s.node in nodes && Bounded(s.ns) && forall c :: c in s.ns ==> c in alphabet
  }

  /** Namespaces are only put together from components that already occur, and
      they are at most seven deep: there are finitely many states. */
  lemma FiniteUniverse(jobs: seq<Edge>, seeds: set<State>) returns (universe: set<State>)
    ensures Closed(jobs, universe) && Contains(universe, seeds)
  {
    var nodes := (set s | s in seeds :: s.node) + (set e | e in jobs :: e.dst);
    var alphabet := Components(seeds) + TargetComponents(jobs);
    universe := set n, s | n in nodes && s in Sequences(alphabet, MAX_NS_DEPTH) && Within(State(n, s), nodes, alphabet) :: State(n, s);
    forall s | Within(s, nodes, alphabet) ensures s in universe {
      SequencesComplete(alphabet, MAX_NS_DEPTH, s.ns);
    }
    forall s, i | s in universe && 0 <= i < |jobs| ensures StepsInto(jobs, s, i, universe) {
      if Feeds(s, jobs[i]) && Bounded(Landing(s, jobs[i]).ns) {
        assert jobs[i] in jobs;
        assert Within(Landing(s, jobs[i]), nodes, alphabet);
      }
    }
    forall s | s in seeds && Bounded(s.ns) ensures s in universe {
      assert Within(s, nodes, alphabet);
    }
  }

  // ---- the walk itself ----------------------------------------------------

  /** What holds between any two calls of `reach`. */
  ghost predicate Consistent(jobs: seq<Edge>, seeds: set<State>, depth: map<Node, nat>, visited: set<State>,
                             queue: seq<State>, used: set<nat>, order: seq<nat>)
  {
    && Walked(jobs, seeds, visited, queue) && Listed(jobs, visited, used, order)
    && (forall s :: s in visited ==> s.node in depth)
    && (forall i :: i in order ==> i < |jobs|) && depth.Keys == Shown(jobs, seeds, order)
  }

  ghost predicate Walked(jobs: seq<Edge>, seeds: set<State>, visited: set<State>, queue: seq<State>) {
    Contains(visited, seeds) && Sound(jobs, seeds, visited) && forall s :: s in queue ==> s in visited
  }

  ghost predicate Listed(jobs: seq<Edge>, visited: set<State>, used: set<nat>, order: seq<nat>) {
    && (forall i :: i in used <==> i in order)
    && (forall j, k :: 0 <= j < k < |order| ==> order[j] != order[k])
    && (forall i :: i in order ==> i < |jobs| && exists s :: s in visited && Feeds(s, jobs[i]))
  }

  ghost predicate Followed(jobs: seq<Edge>, visited: set<State>, order: seq<nat>, s: State, i: nat)
    requires i < |jobs|
  {
    StepsInto(jobs, s, i, visited) && (Feeds(s, jobs[i]) ==> i in order)
  }

  ghost predicate Expanded(jobs: seq<Edge>, visited: set<State>, order: seq<nat>, s: State) {
    forall i :: 0 <= i < |jobs| ==> Followed(jobs, visited, order, s, i)
  }

  /** All visited states that no longer wait in the queue have been expanded. */
  ghost predicate Frontier(jobs: seq<Edge>, visited: set<State>, order: seq<nat>, queue: seq<State>) {
    forall s :: s in visited && s !in queue ==> Expanded(jobs, visited, order, s)
  }

  /** A seed is reached. */
  lemma SeedStep(jobs: seq<Edge>, seeds: set<State>, depth: map<Node, nat>, visited: set<State>, queue: seq<State>,
                 used: set<nat>, order: seq<nat>, s: State, level: nat)
    requires Consistent(jobs, seeds, depth, visited, queue, used, order) && Frontier(jobs, visited, order, queue)
    ensures var enters := s !in visited && Bounded(s.ns);
      var visited', queue' := if enters then visited + {s} else visited, if enters then queue + [s] else queue;
      && Consistent(jobs, seeds + {s}, depth[s.node := level], visited', queue', used, order)
      && Frontier(jobs, visited', order, queue')
  {
    assert Shown(jobs, seeds + {s}, order) == Shown(jobs, seeds, order) + {s.node};
    FrontierGrows(jobs, visited, order, queue, s, order);
    forall d | Closed(jobs, d) && Contains(d, seeds + {s}) ensures visited <= d {
      assert Contains(d, seeds);
    }
  }

  /** A job step is taken from a visited state. */
  lemma JobStep(jobs: seq<Edge>, seeds: set<State>, depth: map<Node, nat>, visited: set<State>, queue: seq<State>,
                used: set<nat>, order: seq<nat>, cur: State, i: nat, level: nat)
    requires Consistent(jobs, seeds, depth, visited, queue, used, order)
    requires cur in visited && i < |jobs| && Feeds(cur, jobs[i])
    ensures var s := Landing(cur, jobs[i]);
      var enters := s !in visited && Bounded(s.ns);
      var visited', queue' := if enters then visited + {s} else visited, if enters then queue + [s] else queue;
      Consistent(jobs, seeds, depth[s.node := level], visited', queue', used + {i}, if i in used then order else order + [i])
  {
    var s := Landing(cur, jobs[i]);
    var order' := if i in used then order else order + [i];
    StepWalked(jobs, seeds, visited, queue, cur, i);
    StepListed(jobs, visited, used, order, cur, i, s);
    hide Walked, Listed, Shown, MapNs;
    ShownStep(jobs, seeds, order, order', i);
  }

  lemma ShownStep(jobs: seq<Edge>, seeds: set<State>, order: seq<nat>, order': seq<nat>, i: nat)
    requires (forall k :: k in order ==> k < |jobs|) && i < |jobs|
    requires order' == order + [i] || (i in order && order' == order)
    ensures Shown(jobs, seeds, order') == Shown(jobs, seeds, order) + {jobs[i].dst}
  {
    assert forall k :: k in order' <==> k in order || k == i;
  }

  /** What a job step reaches is in every closed set that has the seeds. */
  lemma StepWalked(jobs: seq<Edge>, seeds: set<State>, visited: set<State>, queue: seq<State>, cur: State, i: nat)
    requires Walked(jobs, seeds, visited, queue) && cur in visited && i < |jobs| && Feeds(cur, jobs[i])
    ensures var s := Landing(cur, jobs[i]); Bounded(s.ns) ==> Walked(jobs, seeds, visited + {s}, queue + [s])
  {
    var s := Landing(cur, jobs[i]);
    forall d | Closed(jobs, d) && Contains(d, seeds) && Bounded(s.ns) ensures visited + {s} <= d {
      assert StepsInto(jobs, cur, i, d);
    }
  }

  /** The job is listed once, and a visited state feeds it. */
  lemma StepListed(jobs: seq<Edge>, visited: set<State>, used: set<nat>, order: seq<nat>, cur: State, i: nat, s: State)
    requires Listed(jobs, visited, used, order) && cur in visited && i < |jobs| && Feeds(cur, jobs[i])
    ensures Listed(jobs, visited, used + {i}, if i in used then order else order + [i])
    ensures Listed(jobs, visited + {s}, used + {i}, if i in used then order else order + [i])
  {
    assert forall k :: 0 <= k < |order| ==> order[k] in order;
  }

  lemma FollowedGrows(jobs: seq<Edge>, visited: set<State>, order: seq<nat>, visited': set<State>, order': seq<nat>, s: State, i: nat)
    requires i < |jobs| && Followed(jobs, visited, order, s, i)
    requires visited <= visited' && forall k :: k in order ==> k in order'
    ensures Followed(jobs, visited', order', s, i)
  {
  }

  lemma NotFed(jobs: seq<Edge>, visited: set<State>, order: seq<nat>, s: State, i: nat)
    requires i < |jobs| && !Feeds(s, jobs[i])
    ensures Followed(jobs, visited, order, s, i)
  {
  }

  lemma KnownNode(jobs: seq<Edge>, seeds: set<State>, depth: map<Node, nat>, visited: set<State>, queue: seq<State>,
                  used: set<nat>, order: seq<nat>, s: State)
    requires Consistent(jobs, seeds, depth, visited, queue, used, order) && s in visited
    ensures s.node in depth && forall i :: i in used <==> i in order
  {
  }

  lemma LandingFollowed(jobs: seq<Edge>, visited: set<State>, order: seq<nat>, s: State, i: nat)
    requires i < |jobs| && Feeds(s, jobs[i]) && i in order
    requires Bounded(Landing(s, jobs[i]).ns) ==> Landing(s, jobs[i]) in visited
    ensures Followed(jobs, visited, order, s, i)
  {
  }

  lemma LastExpanded(jobs: seq<Edge>, visited: set<State>, order: seq<nat>, cur: State, queue: seq<State>)
    requires Frontier(jobs, visited, order, [cur] + queue)
    requires forall i :: 0 <= i < |jobs| ==> Followed(jobs, visited, order, cur, i)
    ensures Frontier(jobs, visited, order, queue)
  {
  }

  lemma FrontierGrows(jobs: seq<Edge>, visited: set<State>, order: seq<nat>, queue: seq<State>, s: State, order': seq<nat>)
    requires Frontier(jobs, visited, order, queue) && forall k :: k in order ==> k in order'
    ensures Frontier(jobs, visited, order', queue)
    ensures Frontier(jobs, visited + {s}, order', queue + [s])
  {
    forall t | t in visited && t !in queue
      ensures Expanded(jobs, visited, order', t) && Expanded(jobs, visited + {s}, order', t)
    {
      forall i | 0 <= i < |jobs| ensures Followed(jobs, visited, order', t, i) && Followed(jobs, visited + {s}, order', t, i) {
        FollowedGrows(jobs, visited, order, visited, order', t, i);
        FollowedGrows(jobs, visited, order, visited + {s}, order', t, i);
      }
    }
    assert forall t :: t !in queue + [s] ==> t !in queue && t != s;
  }

  // ---- the second pass ----------------------------------------------------

  ghost function StoresOf(usage: seq<Node>, server: string): set<State> {
    set n | n in usage && n.server == server :: State(n, [])
  }

  ghost predicate Uninvolved(server: string, flow: set<Node>) {
    forall n :: n in flow ==> n.server != server
  }

  /** Datastores of the cluster's own, unrestricted PBS that take no part in the flow. */
  ghost function Idle(own: seq<OwnConnection>, usage: seq<Node>, flow: set<Node>): set<State> {
    set n | n in usage && OwnConnection(n.server, false) in own && Uninvolved(n.server, flow) :: State(n, [])
  }

  lemma StoresOfNext(usage: seq<Node>, server: string, j: nat)
    requires j < |usage|
    ensures StoresOf(usage[..j + 1], server)
         == StoresOf(usage[..j], server) + if usage[j].server == server then {State(usage[j], [])} else {}
  {
    assert usage[..j + 1] == usage[..j] + [usage[j]];
  }

  lemma IdleNext(own: seq<OwnConnection>, usage: seq<Node>, flow: set<Node>, k: nat)
    requires k < |own|
    ensures Idle(own[..k + 1], usage, flow) == Idle(own[..k], usage, flow)
          + if !own[k].restricted && Uninvolved(own[k].server, flow) then StoresOf(usage, own[k].server) else {}
  {
    assert own[..k + 1] == own[..k] + [own[k]];
  }

  /** An empty queue means that the fixpoint is reached. */
  lemma RunIsLeast(jobs: seq<Edge>, seeds: set<State>, depth: map<Node, nat>, visited: set<State>, used: set<nat>, order: seq<nat>)
    requires Consistent(jobs, seeds, depth, visited, [], used, order) && Frontier(jobs, visited, order, [])
    ensures IsLeast(jobs, seeds, visited) && UsedExactly(jobs, visited, order)
    ensures depth.Keys == Shown(jobs, seeds, order)
    ensures forall i :: i in order ==> jobs[i].src in depth && jobs[i].dst in depth
  {
    AllFollowed(jobs, visited, order);
    ListedKnown(jobs, seeds, depth, visited, used, order);
    hide Sound, Contains, MapNs, StepsInto, Bounded, Frontier, Shown, Feeds;
  }

  lemma AllFollowed(jobs: seq<Edge>, visited: set<State>, order: seq<nat>)
    requires Frontier(jobs, visited, order, [])
    ensures forall s, i :: s in visited && 0 <= i < |jobs| ==> StepsInto(jobs, s, i, visited)
    ensures forall s, i :: s in visited && 0 <= i < |jobs| && Feeds(s, jobs[i]) ==> i in order
  {
    hide StepsInto, Feeds;
    forall s, i | s in visited && 0 <= i < |jobs|
      ensures StepsInto(jobs, s, i, visited) && (Feeds(s, jobs[i]) ==> i in order)
    {
      assert Expanded(jobs, visited, order, s);
      assert Followed(jobs, visited, order, s, i);
    }
  }

  /** Both ends of a listed job are known. */
  lemma ListedKnown(jobs: seq<Edge>, seeds: set<State>, depth: map<Node, nat>, visited: set<State>, used: set<nat>, order: seq<nat>)
    requires Consistent(jobs, seeds, depth, visited, [], used, order)
    ensures forall i :: i in order ==> i < |jobs| && jobs[i].src in depth && jobs[i].dst in depth
  {
    hide Walked, MapNs;
  }

  class Walk {
    const jobs: seq<Edge>
    var depth: map<Node, nat>
    var visited: set<State>
    var queue: seq<State>
    var used: set<nat>
    var order: seq<nat>
    ghost var seeds: set<State>

    ghost predicate Valid() reads this {
      && Consistent(jobs, seeds, depth, visited, queue, used, order)
      && Frontier(jobs, visited, order, queue)
    }

    constructor (jobs: seq<Edge>)
      ensures this.jobs == jobs && Valid() && seeds == {} && depth == map[] && queue == []
    {
      this.jobs := jobs;
      depth, visited, queue, used, order, seeds := map[], {}, [], {}, [], {};
    }

    /** `reach`: notes the datastore and, unless known or too deep, queues the state. */
    method Reach(node: Node, ns: Namespace, level: nat)
      modifies `depth, `visited, `queue
      ensures var s := State(node, ns);
        var enters := s !in old(visited) && Bounded(ns);
        && depth == old(depth)[node := if node in old(depth) && old(depth)[node] < level then old(depth)[node] else level]
        && visited == (if enters then old(visited) + {s} else old(visited))
        && queue == (if enters then old(queue) + [s] else old(queue))
    {
      depth := depth[node := if node in depth && depth[node] < level then depth[node] else level];
      if State(node, ns) !in visited && Slashes(ns) < MAX_NS_DEPTH {
        visited := visited + {State(node, ns)};
        queue := queue + [State(node, ns)];
      }
    }

    method ReachSeed(s: State)
      requires Valid()
      modifies this
      ensures Valid() && seeds == old(seeds) + {s} && order == old(order)
      ensures depth.Keys == old(depth.Keys) + {s.node}
    {
      SeedStep(jobs, seeds, depth, visited, queue, used, order, s, if s.node in depth && depth[s.node] < 1 then depth[s.node] else 1);
      Reach(s.node, s.ns, 1);
      seeds := seeds + {s};
    }

    /** The other datastores of one server: all with usage data not yet shown. */
    method ReachStores(server: string, usage: seq<Node>)
      requires Valid()
      requires forall n :: n in depth && n.server == server ==> State(n, []) in seeds
      modifies this
      ensures Valid() && order == old(order) && seeds == old(seeds) + StoresOf(usage, server)
      ensures forall n :: n in depth ==> n in old(depth) || n.server == server
      ensures forall n :: n in depth && n.server == server ==> State(n, []) in seeds
    {
      hide Consistent, Frontier;
      for j := 0 to |usage|
        invariant Valid() && order == old(order) && seeds == old(seeds) + StoresOf(usage[..j], server)
        invariant forall n :: n in depth ==> n in old(depth) || n.server == server
        invariant forall n :: n in depth && n.server == server ==> State(n, []) in seeds
      {
        StoresOfNext(usage, server, j);
        if usage[j].server == server && usage[j] !in depth {
          ReachSeed(State(usage[j], []));
        }
      }
      assert usage[..|usage|] == usage;
    }

    /** The second pass: PBS of the cluster without a part in the flow. */
    method ReachIdle(own: seq<OwnConnection>, usage: seq<Node>)
      requires Valid()
      modifies this
      ensures Valid() && order == old(order) && seeds == old(seeds) + Idle(own, usage, old(depth.Keys))
    {
      hide Consistent, Frontier;
      var involved := set n | n in depth :: n.server;
      ghost var flow := depth.Keys;
      for k := 0 to |own|
        invariant Valid() && order == old(order) && seeds == old(seeds) + Idle(own[..k], usage, flow)
        invariant forall n :: n in depth && n.server !in involved ==> State(n, []) in seeds
      {
        IdleNext(own, usage, flow, k);
        if !own[k].restricted && own[k].server !in involved {
          ReachStores(own[k].server, usage);
        }
      }
      assert own[..|own|] == own;
    }

    /** `walk`: empties the queue. Replication cycles cannot keep it going, since
        there is a finite universe of states the walk stays in. */
    method Run(ghost universe: set<State>)
      requires Valid() && Closed(jobs, universe) && Contains(universe, seeds)
      modifies `depth, `visited, `queue, `used, `order
      ensures Valid() && queue == []
    {
      while queue != []
        invariant Valid()
        decreases universe - visited, |queue|
      {
        var cur := queue[0];
        queue := queue[1..];
        Follow(cur);
      }
    }

    /** The inner loop of `walk`: one state's jobs. */
    method Follow(cur: State)
      requires Consistent(jobs, seeds, depth, visited, queue, used, order) && cur in visited
      requires Frontier(jobs, visited, order, [cur] + queue)
      modifies `depth, `visited, `queue, `used, `order
      ensures Valid()
      ensures old(visited) <= visited && (visited == old(visited) ==> queue == old(queue))
    {
      hide Consistent, Frontier, Followed, StepsInto;
      var out := OutEdges(jobs, cur.node);
      for k := 0 to |out|
        invariant Consistent(jobs, seeds, depth, visited, queue, used, order) && cur in visited
        invariant Frontier(jobs, visited, order, [cur] + queue)
        invariant forall l :: 0 <= l < k ==> out[l] < |jobs| && Followed(jobs, visited, order, cur, out[l])
        invariant old(visited) <= visited && (visited == old(visited) ==> queue == old(queue))
      {
        var i := out[k];
        assert i in out;
        var landed := MapNs(cur.ns, jobs[i].srcNs, jobs[i].dstNs);
        if landed.None? {
          NotFed(jobs, visited, order, cur, i);
        } else {
          var s := Landing(cur, jobs[i]);
          KnownNode(jobs, seeds, depth, visited, queue, used, order, cur);
          ghost var visited0, order0, queue0 := visited, order, queue;
          var level := depth[cur.node] + 1;
          JobStep(jobs, seeds, depth, visited, queue, used, order, cur, i,
                  if s.node in depth && depth[s.node] < level then depth[s.node] else level);
          Reach(jobs[i].dst, landed.value, level);
          if i !in used {
            used := used + {i};
            order := order + [i];
          }
          assert used == used + {i};
          FrontierGrows(jobs, visited0, order0, [cur] + queue0, s, order);
          assert [cur] + queue0 + [s] == [cur] + (queue0 + [s]);
          LandingFollowed(jobs, visited, order, cur, i);
          forall l | 0 <= l < k ensures Followed(jobs, visited, order, cur, out[l]) {
            FollowedGrows(jobs, visited0, order0, visited, order, cur, out[l]);
          }
        }
      }
      forall i | 0 <= i < |jobs| ensures Followed(jobs, visited, order, cur, i) {
        if jobs[i].src == cur.node {
          assert i in out;
        } else {
          NotFed(jobs, visited, order, cur, i);
        }
      }
      LastExpanded(jobs, visited, order, cur, queue);
    }
  }

  /** The seeds of the second pass. */
  ghost function Seeds(jobs: seq<Edge>, targets: seq<State>, own: seq<OwnConnection>, usage: seq<Node>, firstOrder: seq<nat>): set<State>
    requires forall i :: i in firstOrder ==> i < |jobs|
  {
    var primary := set t | t in targets;
    primary + Idle(own, usage, Shown(jobs, primary, firstOrder))
  }

  /** Both passes: the least fixpoint over the PVE targets decides which PBS are idle;
      `visited` is the least fixpoint over both, and `order` the jobs it feeds. */
  ghost predicate IsFlow(jobs: seq<Edge>, targets: seq<State>, own: seq<OwnConnection>, usage: seq<Node>,
                         firstVisited: set<State>, firstOrder: seq<nat>, visited: set<State>, order: seq<nat>)
  {
    && IsLeast(jobs, (set t | t in targets), firstVisited) && UsedExactly(jobs, firstVisited, firstOrder)
    && IsLeast(jobs, Seeds(jobs, targets, own, usage, firstOrder), visited) && UsedExactly(jobs, visited, order)
  }

  ghost function Datastores(jobs: seq<Edge>, targets: seq<State>, own: seq<OwnConnection>, usage: seq<Node>,
                            firstOrder: seq<nat>, order: seq<nat>): set<Node>
    requires forall i :: i in firstOrder || i in order ==> i < |jobs|
  {
    Shown(jobs, Seeds(jobs, targets, own, usage, firstOrder), order)
  }

  ghost predicate IsTarget(targets: seq<State>, n: Node) {
    exists t :: t in targets && t.node == n
  }

  /** One of the listed jobs brings data to `n`. */
  ghost predicate IsCopy(jobs: seq<Edge>, order: seq<nat>, n: Node) {
    exists i :: i in order && i < |jobs| && jobs[i].dst == n
  }

  /** A datastore with usage data on an own, unrestricted PBS none of whose datastores is a
      target or gets a copy in the first pass. */
  ghost predicate IsIdle(jobs: seq<Edge>, targets: seq<State>, own: seq<OwnConnection>, usage: seq<Node>,
                         firstOrder: seq<nat>, n: Node)
  {
    && n in usage && (exists c :: c in own && c.server == n.server && !c.restricted)
    && (forall t :: t in targets ==> t.node.server != n.server)
    && (forall i :: i in firstOrder && i < |jobs| ==> jobs[i].dst.server != n.server)
  }

  /** A target, a copy, or an idle datastore of the cluster's own. */
  ghost predicate IsShown(jobs: seq<Edge>, targets: seq<State>, own: seq<OwnConnection>, usage: seq<Node>,
                          firstOrder: seq<nat>, order: seq<nat>, n: Node)
  {
    IsTarget(targets, n) || IsCopy(jobs, order, n) || IsIdle(jobs, targets, own, usage, firstOrder, n)
  }

  lemma {:induction false} ShownMeans(jobs: seq<Edge>, targets: seq<State>, own: seq<OwnConnection>, usage: seq<Node>,
                                      firstOrder: seq<nat>, order: seq<nat>, n: Node)
    requires forall i :: i in firstOrder || i in order ==> i < |jobs|
    ensures n in Datastores(jobs, targets, own, usage, firstOrder, order) <==>
      IsShown(jobs, targets, own, usage, firstOrder, order, n)
  {
    var primary := set t | t in targets;
    IdleMeans(jobs, targets, own, usage, firstOrder, n);
    var idle := Idle(own, usage, Shown(jobs, primary, firstOrder));
    assert State(n, []) in idle ==> State(n, []).node == n;
    assert n in Datastores(jobs, targets, own, usage, firstOrder, order) <==>
      (exists s: State :: s in primary + idle && s.node == n) || IsCopy(jobs, order, n);
    assert (exists s: State :: s in primary + idle && s.node == n) <==> IsTarget(targets, n) || State(n, []) in idle;
  }

  lemma {:induction false} IdleMeans(jobs: seq<Edge>, targets: seq<State>, own: seq<OwnConnection>, usage: seq<Node>,
                                     firstOrder: seq<nat>, n: Node)
    requires forall i :: i in firstOrder ==> i < |jobs|
    ensures var flow := Shown(jobs, (set t | t in targets), firstOrder);
      State(n, []) in Idle(own, usage, flow) <==> IsIdle(jobs, targets, own, usage, firstOrder, n)
  {
    var primary := set t | t in targets;
    var flow := Shown(jobs, primary, firstOrder);
    forall t | t in targets ensures t.node in flow {
      assert t in primary;
    }
    assert forall i :: i in firstOrder ==> jobs[i].dst in flow;
    assert (exists c :: c in own && c.server == n.server && !c.restricted) <==> OwnConnection(n.server, false) in own by {
      forall c | c in own && c.server == n.server && !c.restricted ensures c == OwnConnection(n.server, false) {
      }
    }
  }

  /** The walk does not go deeper than seven components. */
  lemma {:induction false} VisitedBounded(jobs: seq<Edge>, seeds: set<State>, visited: set<State>)
    requires IsLeast(jobs, seeds, visited)
    ensures forall s :: s in visited ==> |s.ns| <= 7
  {
    var d := set s | s in visited && Bounded(s.ns);
    assert Closed(jobs, d) by {
      forall s, i | s in d && 0 <= i < |jobs| ensures StepsInto(jobs, s, i, d) {
        assert StepsInto(jobs, s, i, visited);
      }
    }
    assert Contains(d, seeds);
    assert visited <= d;
  }

  /** The reachability part of `build_topology`: first everything the PVE targets feed,
      then the datastores of the cluster's PBS that no edge reaches. */
  method Discover(jobs: seq<Edge>, targets: seq<State>, own: seq<OwnConnection>, usage: seq<Node>)
    returns (depth: map<Node, nat>, visited: set<State>, order: seq<nat>,
             ghost firstVisited: set<State>, ghost firstOrder: seq<nat>)
    ensures IsFlow(jobs, targets, own, usage, firstVisited, firstOrder, visited, order)
    ensures depth.Keys == Datastores(jobs, targets, own, usage, firstOrder, order)
    ensures forall n :: n in depth <==> IsShown(jobs, targets, own, usage, firstOrder, order, n)
    ensures forall s :: s in visited ==> |s.ns| <= 7
    ensures forall i :: i in order ==> i < |jobs| && jobs[i].src in depth && jobs[i].dst in depth
    ensures forall t :: t in targets ==> t.node in depth
  {
    hide IsLeast, Consistent, Frontier, Closed, Contains, Idle, Shown, IsShown;
    ghost var primary := set t | t in targets;
    ghost var universe := FiniteUniverse(jobs, primary + set n | n in usage :: State(n, []));
    var w := new Walk(jobs);
    for k := 0 to |targets|
      invariant fresh(w) && w.jobs == jobs && w.Valid() && w.seeds == set t | t in targets[..k]
    {
      w.ReachSeed(targets[k]);
      assert targets[..k + 1] == targets[..k] + [targets[k]];
    }
    assert w.seeds == primary;
    SmallerSeeds(universe, primary, usage, own, {});
    w.Run(universe);
    RunIsLeast(jobs, primary, w.depth, w.visited, w.used, w.order);
    firstVisited, firstOrder := w.visited, w.order;
    ghost var flow := w.depth.Keys;
    w.ReachIdle(own, usage);
    SmallerSeeds(universe, primary, usage, own, flow);
    w.Run(universe);
    RunIsLeast(jobs, w.seeds, w.depth, w.visited, w.used, w.order);
    depth, visited, order := w.depth, w.visited, w.order;
    TargetsShown(jobs, targets, w.seeds, order);
    VisitedBounded(jobs, w.seeds, visited);
    forall n ensures n in depth <==> IsShown(jobs, targets, own, usage, firstOrder, order, n) {
      ShownMeans(jobs, targets, own, usage, firstOrder, order, n);
    }
  }

  lemma TargetsShown(jobs: seq<Edge>, targets: seq<State>, seeds: set<State>, order: seq<nat>)
    requires (forall t :: t in targets ==> t in seeds) && forall i :: i in order ==> i < |jobs|
    ensures forall t :: t in targets ==> t.node in Shown(jobs, seeds, order)
  {
  }

  lemma SmallerSeeds(universe: set<State>, primary: set<State>, usage: seq<Node>, own: seq<OwnConnection>, flow: set<Node>)
    requires Contains(universe, primary + set n | n in usage :: State(n, []))
    ensures Contains(universe, primary) && Contains(universe, primary + Idle(own, usage, flow))
  {
  }
}
