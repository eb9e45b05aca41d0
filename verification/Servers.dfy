/** `_Servers` in app/services/pbs_topology.py: a union-find that recognises the
    registered connections of one physical PBS. Names, hosts and aliases are given
    as the source compares them, in lower case. */
module Servers {
  datatype Connection = Connection(id: int, name: string, host: string, aliases: seq<string>)

  function HostIdentifiers(hosts: seq<string>): seq<string> {
    if hosts == [] then [] else ["host:" + hosts[0]] + HostIdentifiers(hosts[1..])
  }

  /** The identifiers of a connection, in the order the source tries them. */
  function Identifiers(c: Connection): seq<string> {
    ["name:" + c.name] + HostIdentifiers([c.host] + c.aliases)
  }

  /** The source skips identifiers that end in a colon: those with nothing behind it. */
  predicate Usable(ident: string) {
    ident != "" && ident[|ident| - 1] != ':'
  }

  ghost function AsSet(connections: seq<Connection>): set<Connection> {
    set c | c in connections
  }

  // ---- the specification: linked by shared identifiers ---------------------

  ghost predicate Has(conns: set<Connection>, id: int, ident: string) {
    exists c :: c in conns && c.id == id && ident in Identifiers(c)
  }

  ghost predicate Shares(conns: set<Connection>, i: int, j: int) {
    exists ident :: Usable(ident) && Has(conns, i, ident) && Has(conns, j, ident)
  }

  ghost predicate LinkPath(conns: set<Connection>, p: seq<int>, i: int, j: int) {
    && p != [] && p[0] == i && p[|p| - 1] == j
    && forall k :: 0 < k < |p| ==> Shares(conns, p[k - 1], p[k])
  }

  /** The reflexive and transitive closure of sharing a usable identifier. */
  ghost predicate Linked(conns: set<Connection>, i: int, j: int) {
    exists p :: LinkPath(conns, p, i, j)
  }

  lemma LinkedRefl(conns: set<Connection>, i: int)
    ensures Linked(conns, i, i)
  {
    assert LinkPath(conns, [i], i, i);
  }

  lemma LinkedOnce(conns: set<Connection>, i: int, j: int)
    requires Shares(conns, i, j)
    ensures Linked(conns, i, j)
  {
    assert LinkPath(conns, [i, j], i, j);
  }

  lemma LinkedTrans(conns: set<Connection>, i: int, j: int, k: int)
    requires Linked(conns, i, j) && Linked(conns, j, k)
    ensures Linked(conns, i, k)
  {
    var p :| LinkPath(conns, p, i, j);
    var q :| LinkPath(conns, q, j, k);
    var r := p + q[1..];
    forall l | 0 < l < |r| ensures Shares(conns, r[l - 1], r[l]) {
      if l >= |p| {
        assert r[l] == q[l - |p| + 1] && r[l - 1] == q[l - |p|];
      }
    }
    assert LinkPath(conns, r, i, k);
  }

  lemma {:induction false} LinkedSym(conns: set<Connection>, i: int, j: int)
    requires Linked(conns, i, j)
    ensures Linked(conns, j, i)
  {
    var p :| LinkPath(conns, p, i, j);
    var r := seq(|p|, k requires 0 <= k < |p| => p[|p| - 1 - k]);
    forall k | 0 < k < |r| ensures Shares(conns, r[k - 1], r[k]) {
      assert Shares(conns, p[|p| - 1 - k], p[|p| - k]);
    }
    assert LinkPath(conns, r, j, i);
  }

  // ---- the forest ----------------------------------------------------------

  /** Parents lead strictly upwards to a root: the parent map is a forest. `rep` is
      the root of every connection, `height` the measure that makes `root` end. */
  ghost predicate Forest(parent: map<int, int>, rep: map<int, int>, height: map<int, nat>, bound: nat) {
    && rep.Keys == parent.Keys == height.Keys
    && (forall i {:trigger Grounded(parent, rep, height, bound, i)} :: i in parent ==> Grounded(parent, rep, height, bound, i))
  }

  ghost predicate Grounded(parent: map<int, int>, rep: map<int, int>, height: map<int, nat>, bound: nat, i: int)
    requires rep.Keys == parent.Keys == height.Keys && i in parent
  {
    && parent[i] in parent && rep[i] in parent && height[i] <= bound
    && parent[rep[i]] == rep[i] && rep[rep[i]] == rep[i] && rep[parent[i]] == rep[i]
    && (parent[i] == i ==> rep[i] == i)
    && (parent[i] != i ==> height[i] < height[parent[i]])
  }

  /** Hanging root `a` below root `b`. */
  ghost function Joined(rep: map<int, int>, a: int, b: int): map<int, int> {
    map i | i in rep :: if rep[i] == a then b else rep[i]
  }

  ghost function Raised(height: map<int, nat>, a: int, b: int): map<int, nat>
    requires a in height && b in height
  {
    if a == b then height else height[b := if height[a] < height[b] then height[b] else height[a] + 1]
  }

  lemma JoinKeepsForest(parent: map<int, int>, rep: map<int, int>, height: map<int, nat>, bound: nat, a: int, b: int)
    requires Forest(parent, rep, height, bound) && a in parent && b in parent && parent[a] == a && parent[b] == b
    ensures Forest(parent[a := b], Joined(rep, a, b), Raised(height, a, b), bound + 1)
  {
    var parent', rep', height' := parent[a := b], Joined(rep, a, b), Raised(height, a, b);
    assert Grounded(parent, rep, height, bound, a) && Grounded(parent, rep, height, bound, b);
    forall i | i in parent' ensures Grounded(parent', rep', height', bound + 1, i) {
      assert Grounded(parent, rep, height, bound, i);
    }
  }

  /** Connections with the same root are linked. */
  ghost predicate RootsLinked(conns: set<Connection>, rep: map<int, int>) {
    forall i :: i in rep ==> Linked(conns, i, rep[i])
  }

  lemma JoinKeepsLinks(conns: set<Connection>, rep: map<int, int>, i: int, j: int)
    requires RootsLinked(conns, rep) && i in rep && j in rep && Linked(conns, i, j)
    ensures RootsLinked(conns, Joined(rep, rep[i], rep[j]))
  {
    var rep' := Joined(rep, rep[i], rep[j]);
    forall k | k in rep' ensures Linked(conns, k, rep'[k]) {
      if rep[k] == rep[i] {
        LinkedSym(conns, i, rep[i]);
        LinkedTrans(conns, k, rep[i], i);
        LinkedTrans(conns, k, i, j);
        LinkedTrans(conns, k, j, rep[j]);
      }
    }
  }

  /** Every recorded identifier belongs to the connection recorded as its owner. */
  ghost predicate OwnersOk(conns: set<Connection>, owner: map<string, int>, rep: map<int, int>) {
    forall ident :: ident in owner ==> Usable(ident) && owner[ident] in rep && Has(conns, owner[ident], ident)
  }

  /** A connection's identifier has been handled: it has the same root as the owner. */
  ghost predicate Merged(owner: map<string, int>, rep: map<int, int>, id: int, ident: string) {
    Usable(ident) ==> ident in owner && id in rep && owner[ident] in rep && rep[id] == rep[owner[ident]]
  }

  ghost predicate AllMerged(owner: map<string, int>, rep: map<int, int>, c: Connection) {
    forall ident :: ident in Identifiers(c) ==> Merged(owner, rep, c.id, ident)
  }

  /** What has been merged stays merged. */
  ghost predicate Extends(owner: map<string, int>, rep: map<int, int>, owner': map<string, int>, rep': map<int, int>) {
    forall id, ident :: Merged(owner, rep, id, ident) ==> Merged(owner', rep', id, ident)
  }

  lemma AllMergedStays(owner: map<string, int>, rep: map<int, int>, owner': map<string, int>, rep': map<int, int>, c: Connection)
    requires Extends(owner, rep, owner', rep') && AllMerged(owner, rep, c)
    ensures AllMerged(owner', rep', c)
  {
  }

  ghost predicate Consistent(conns: set<Connection>, parent: map<int, int>, owner: map<string, int>, rep: map<int, int>,
                             height: map<int, nat>, bound: nat)
  {
    Forest(parent, rep, height, bound) && RootsLinked(conns, rep) && OwnersOk(conns, owner, rep)
  }

  /** A known identifier: the two trees are joined. */
  lemma JoinStep(conns: set<Connection>, parent: map<int, int>, owner: map<string, int>, rep: map<int, int>,
                 height: map<int, nat>, bound: nat, id: int, ident: string)
    requires Consistent(conns, parent, owner, rep, height, bound)
    requires id in parent && Has(conns, id, ident) && Usable(ident) && ident in owner
    ensures id in rep && owner[ident] in parent && owner[ident] in rep
    ensures var a, b := rep[id], rep[owner[ident]];
      && a in height && b in height && parent[a := b].Keys == parent.Keys
      && Consistent(conns, parent[a := b], owner, Joined(rep, a, b), Raised(height, a, b), bound + 1)
      && Merged(owner, Joined(rep, a, b), id, ident) && Extends(owner, rep, owner, Joined(rep, a, b))
  {
    assert Grounded(parent, rep, height, bound, id) && Grounded(parent, rep, height, bound, owner[ident]);
    LinkedOnce(conns, id, owner[ident]);
    JoinKeepsForest(parent, rep, height, bound, rep[id], rep[owner[ident]]);
    JoinKeepsLinks(conns, rep, id, owner[ident]);
  }

  /** A new identifier gets an owner. */
  lemma OwnStep(conns: set<Connection>, parent: map<int, int>, owner: map<string, int>, rep: map<int, int>,
                height: map<int, nat>, bound: nat, id: int, ident: string)
    requires Consistent(conns, parent, owner, rep, height, bound)
    requires id in parent && Has(conns, id, ident) && Usable(ident) && ident !in owner
    ensures Consistent(conns, parent, owner[ident := id], rep, height, bound)
    ensures Merged(owner[ident := id], rep, id, ident) && Extends(owner, rep, owner[ident := id], rep)
  {
  }

  lemma NothingToMerge(owner: map<string, int>, rep: map<int, int>, id: int, ident: string)
    ensures Extends(owner, rep, owner, rep) && (!Usable(ident) ==> Merged(owner, rep, id, ident))
  {
  }

  class Servers {
    var parent: map<int, int>
    var owner: map<string, int>
    var keyOfConn: map<int, int>
    ghost var rep: map<int, int>
    ghost var height: map<int, nat>
    ghost var bound: nat

    ghost predicate Valid(conns: set<Connection>) reads this {
      Consistent(conns, parent, owner, rep, height, bound)
    }

    /** `root`: follows the parents; always ends, since the parents form a forest. */
    method Root(ghost conns: set<Connection>, id: int) returns (r: int)
      requires Valid(conns) && id in parent
      ensures id in rep && r == rep[id]
    {
      r := id;
      assert Grounded(parent, rep, height, bound, r);
      while parent[r] != r
        invariant r in parent && rep[r] == rep[id] && Grounded(parent, rep, height, bound, r)
        decreases bound - height[r]
      {
        r := parent[r];
        assert Grounded(parent, rep, height, bound, r);
      }
    }

    /** One identifier of one connection. */
    method Register(ghost conns: set<Connection>, id: int, ident: string)
      requires Valid(conns) && id in parent && Has(conns, id, ident)
      modifies `parent, `owner, `rep, `height, `bound
      ensures Valid(conns) && parent.Keys == old(parent.Keys)
      ensures Merged(owner, rep, id, ident) && Extends(old(owner), old(rep), owner, rep)
    {
      hide Forest, RootsLinked, OwnersOk, Merged, Extends, Has, Joined;
      if !Usable(ident) {
        NothingToMerge(owner, rep, id, ident);
      } else if ident in owner {
        JoinStep(conns, parent, owner, rep, height, bound, id, ident);
        var a := Root(conns, id);
        var b := Root(conns, owner[ident]);
        parent := parent[a := b];
        height, bound := Raised(height, a, b), bound + 1;
        rep := Joined(rep, a, b);
      } else {
        OwnStep(conns, parent, owner, rep, height, bound, id, ident);
        owner := owner[ident := id];
      }
    }

    /** The first loop of the constructor: merges connections identifier by identifier. */
    method MergeAll(connections: seq<Connection>)
      requires Valid(AsSet(connections)) && parent.Keys == Ids(connections)
      modifies `parent, `owner, `rep, `height, `bound
      ensures Valid(AsSet(connections)) && parent.Keys == Ids(connections)
      ensures FirstMerged(owner, rep, connections)
    {
      hide *;
      ghost var conns := AsSet(connections);
      NothingYet(owner, rep, connections);
      for k := 0 to |connections|
        invariant Valid(conns) && parent.Keys == Ids(connections)
        invariant FirstMerged(owner, rep, connections[..k])
      {
        InList(connections, k);
        var c := connections[k];
        var idents := Identifiers(c);
        NoIdents(owner, rep, c.id, idents);
        for n := 0 to |idents|
          invariant Valid(conns) && parent.Keys == Ids(connections)
          invariant FirstMerged(owner, rep, connections[..k]) && IdentsMerged(owner, rep, c.id, idents[..n])
        {
          IsIdentifier(conns, c, n);
          ghost var owner0, rep0 := owner, rep;
          Register(conns, c.id, idents[n]);
          MergedOnes(owner0, rep0, owner, rep, connections[..k], c.id, idents, n);
        }
        NextMerged(owner, rep, connections, k);
      }
      assert connections[..|connections|] == connections;
    }

    /** The second loop: every connection's key is its root. */
    method AssignKeys(connections: seq<Connection>)
      requires Valid(AsSet(connections)) && parent.Keys == Ids(connections) && keyOfConn == map[]
      modifies `keyOfConn
      ensures keyOfConn.Keys == Ids(connections) && forall i :: i in keyOfConn ==> i in rep && keyOfConn[i] == rep[i]
    {
      for k := 0 to |connections|
        invariant keyOfConn.Keys == Ids(connections[..k]) <= parent.Keys
        invariant forall i :: i in keyOfConn ==> i in rep && keyOfConn[i] == rep[i]
      {
        InList(connections, k);
        var key := Root(AsSet(connections), connections[k].id);
        keyOfConn := keyOfConn[connections[k].id := key];
        assert connections[..k + 1] == connections[..k] + [connections[k]];
        assert Ids(connections[..k + 1]) == Ids(connections[..k]) + {connections[k].id};
      }
      assert connections[..|connections|] == connections;
    }

    /** Two connections get the same key exactly when they are linked. */
    constructor (connections: seq<Connection>)
      ensures Partitions(connections, keyOfConn)
      ensures forall i :: i in keyOfConn ==> keyOfConn[i] in keyOfConn && Linked(AsSet(connections), i, keyOfConn[i])
    {
      hide Forest, RootsLinked, OwnersOk, FirstMerged, Partitions, Linked;
      var ids := set c | c in connections :: c.id;
      parent, owner, keyOfConn := Self(ids), map[], map[];
      rep, height, bound := Self(ids), Level(ids), 0;
      new;
      assert ids == Ids(connections) by { IdsOf(connections); }
      StartValid(AsSet(connections), ids);
      MergeAll(connections);
      AssignKeys(connections);
      KeysPartition(connections, owner, parent, rep, height, bound, keyOfConn);
    }
  }

  ghost function Ids(connections: seq<Connection>): set<int> {
    set c | c in connections :: c.id
  }

  lemma IdsOf(connections: seq<Connection>)
    ensures Ids(connections) == set c | c in connections :: c.id
  {
  }

  lemma InList(connections: seq<Connection>, k: nat)
    requires k < |connections|
    ensures connections[k] in AsSet(connections) && connections[k].id in Ids(connections)
  {
    assert connections[k] in connections;
  }

  lemma IsIdentifier(conns: set<Connection>, c: Connection, n: nat)
    requires c in conns && n < |Identifiers(c)|
    ensures Has(conns, c.id, Identifiers(c)[n])
  {
    assert Identifiers(c)[n] in Identifiers(c);
  }

  ghost predicate FirstMerged(owner: map<string, int>, rep: map<int, int>, first: seq<Connection>) {
    forall c :: c in first ==> AllMerged(owner, rep, c)
  }

  ghost predicate IdentsMerged(owner: map<string, int>, rep: map<int, int>, id: int, idents: seq<string>) {
    forall ident :: ident in idents ==> Merged(owner, rep, id, ident)
  }

  lemma NothingYet(owner: map<string, int>, rep: map<int, int>, connections: seq<Connection>)
    ensures FirstMerged(owner, rep, connections[..0])
  {
  }

  lemma NoIdents(owner: map<string, int>, rep: map<int, int>, id: int, idents: seq<string>)
    ensures IdentsMerged(owner, rep, id, idents[..0])
  {
  }

  lemma MergedOnes(owner: map<string, int>, rep: map<int, int>, owner': map<string, int>, rep': map<int, int>,
                   first: seq<Connection>, id: int, idents: seq<string>, n: nat)
    requires n < |idents| && Extends(owner, rep, owner', rep')
    requires FirstMerged(owner, rep, first) && IdentsMerged(owner, rep, id, idents[..n])
    requires Merged(owner', rep', id, idents[n])
    ensures FirstMerged(owner', rep', first) && IdentsMerged(owner', rep', id, idents[..n + 1])
  {
    forall c | c in first ensures AllMerged(owner', rep', c) {
      AllMergedStays(owner, rep, owner', rep', c);
    }
    assert idents[..n + 1] == idents[..n] + [idents[n]];
  }

  lemma NextMerged(owner: map<string, int>, rep: map<int, int>, connections: seq<Connection>, k: nat)
    requires k < |connections| && FirstMerged(owner, rep, connections[..k])
    requires var c := connections[k]; var idents := Identifiers(c); IdentsMerged(owner, rep, c.id, idents[..|idents|])
    ensures FirstMerged(owner, rep, connections[..k + 1])
  {
    var idents := Identifiers(connections[k]);
    assert idents[..|idents|] == idents;
    assert connections[..k + 1] == connections[..k] + [connections[k]];
  }

  function Self(ids: set<int>): map<int, int> {
    map i | i in ids :: i
  }

  ghost function Level(ids: set<int>): map<int, nat> {
    map i | i in ids :: 0
  }

  lemma StartValid(conns: set<Connection>, ids: set<int>)
    ensures Consistent(conns, Self(ids), map[], Self(ids), Level(ids), 0) && Self(ids).Keys == ids
  {
    forall i ensures Linked(conns, i, i) {
      LinkedRefl(conns, i);
    }
  }

  /** The keys are the roots of a merged forest: same root and linked are the same thing. */
  lemma KeysPartition(connections: seq<Connection>, owner: map<string, int>, parent: map<int, int>, rep: map<int, int>,
                      height: map<int, nat>, bound: nat, key: map<int, int>)
    requires Consistent(AsSet(connections), parent, owner, rep, height, bound)
    requires FirstMerged(owner, rep, connections)
    requires parent.Keys == Ids(connections) && key.Keys == Ids(connections)
    requires forall i :: i in key ==> i in rep && key[i] == rep[i]
    ensures Partitions(connections, key)
    ensures forall i :: i in key ==> key[i] in key && Linked(AsSet(connections), i, key[i])
  {
    hide Linked, AllMerged, Forest, Ids, OwnersOk, AsSet;
    IdsOf(connections);
    RootsAreInside(parent, rep, height, bound);
    forall i, j | i in key && j in key ensures key[i] == key[j] <==> Linked(AsSet(connections), i, j) {
      EachMerged(owner, rep, connections);
      SameRootIsLinked(AsSet(connections), owner, rep, i, j);
    }
  }

  lemma RootsAreInside(parent: map<int, int>, rep: map<int, int>, height: map<int, nat>, bound: nat)
    requires Forest(parent, rep, height, bound)
    ensures rep.Keys == parent.Keys && forall i :: i in parent ==> rep[i] in parent
  {
    forall i | i in parent ensures rep[i] in parent {
      assert Grounded(parent, rep, height, bound, i);
    }
  }

  lemma EachMerged(owner: map<string, int>, rep: map<int, int>, connections: seq<Connection>)
    requires FirstMerged(owner, rep, connections)
    ensures forall c :: c in AsSet(connections) ==> AllMerged(owner, rep, c)
  {
    hide AllMerged;
  }

  lemma SameRootIsLinked(conns: set<Connection>, owner: map<string, int>, rep: map<int, int>, i: int, j: int)
    requires RootsLinked(conns, rep) && (forall c :: c in conns ==> AllMerged(owner, rep, c)) && i in rep && j in rep
    ensures rep[i] == rep[j] <==> Linked(conns, i, j)
  {
    hide AllMerged;
    if rep[i] == rep[j] {
      LinkedSym(conns, j, rep[j]);
      LinkedTrans(conns, i, rep[i], j);
    }
    if Linked(conns, i, j) {
      var p :| LinkPath(conns, p, i, j);
      LinkedSameRoot(conns, owner, rep, p);
    }
  }

  /** Once everything is merged, linked connections have the same root. */
  lemma {:induction false} LinkedSameRoot(conns: set<Connection>, owner: map<string, int>, rep: map<int, int>, p: seq<int>)
    requires forall c :: c in conns ==> AllMerged(owner, rep, c)
    requires p != [] && LinkPath(conns, p, p[0], p[|p| - 1]) && p[0] in rep
    ensures p[|p| - 1] in rep && rep[p[0]] == rep[p[|p| - 1]]
  {
    if |p| > 1 {
      var q := p[..|p| - 1];
      LinkedSameRoot(conns, owner, rep, q);
      assert Shares(conns, p[|p| - 2], p[|p| - 1]);
      var ident :| Usable(ident) && Has(conns, p[|p| - 2], ident) && Has(conns, p[|p| - 1], ident);
      var c :| c in conns && c.id == p[|p| - 2] && ident in Identifiers(c);
      var d :| d in conns && d.id == p[|p| - 1] && ident in Identifiers(d);
      assert Merged(owner, rep, c.id, ident) && Merged(owner, rep, d.id, ident);
    }
  }

  /** The keys separate exactly the connections that are not linked. */
  ghost predicate Partitions(connections: seq<Connection>, key: map<int, int>) {
    && key.Keys == (set c | c in connections :: c.id)
    && (forall i, j :: i in key && j in key ==> (key[i] == key[j] <==> Linked(AsSet(connections), i, j)))
  }

  /** The partition does not depend on the order of the connections. */
  lemma OrderIndependent(first: seq<Connection>, second: seq<Connection>, key: map<int, int>, key': map<int, int>)
    requires multiset(first) == multiset(second)
    requires Partitions(first, key) && Partitions(second, key')
    ensures key.Keys == key'.Keys
    ensures forall i, j :: i in key && j in key ==> (key[i] == key[j] <==> key'[i] == key'[j])
  {
    forall c ensures c in first <==> c in second {
      assert c in first <==> c in multiset(first);
      assert c in second <==> c in multiset(second);
    }
    assert AsSet(first) == AsSet(second);
  }

  // ---- identifiers that end in a colon ------------------------------------------------

  /** There is a name, a host or an alias behind the prefix. */
  predicate Meaningful(ident: string) {
    ident != "name:" && ident != "host:"
  }

  ghost predicate SharesSome(conns: set<Connection>, i: int, j: int) {
    exists ident :: Meaningful(ident) && Has(conns, i, ident) && Has(conns, j, ident)
  }

  ghost predicate SamePath(conns: set<Connection>, p: seq<int>, i: int, j: int) {
    && p != [] && p[0] == i && p[|p| - 1] == j
    && forall k :: 0 < k < |p| ==> SharesSome(conns, p[k - 1], p[k])
  }

  /** What is promised: connections sharing any name, host or alias are one server, and
      so on from connection to connection. */
  ghost predicate SameServer(conns: set<Connection>, i: int, j: int) {
    exists p :: SamePath(conns, p, i, j)
  }

  /** The code skips what ends in a colon, so sharing such an identifier may link nothing. */
  ghost predicate ColonsLinked(conns: set<Connection>) {
    forall i, j, ident :: Has(conns, i, ident) && Has(conns, j, ident) && Meaningful(ident) && !Usable(ident) ==> Linked(conns, i, j)
  }

  lemma UsableIsMeaningful(ident: string)
    ensures Usable(ident) ==> Meaningful(ident)
  {
    assert "name:"[4] == ':' && "host:"[4] == ':';
  }

  /** Whatever the code links is the same server. */
  lemma LinkedIsSame(conns: set<Connection>, i: int, j: int)
    requires Linked(conns, i, j)
    ensures SameServer(conns, i, j)
  {
    var p :| LinkPath(conns, p, i, j);
    forall k | 0 < k < |p| ensures SharesSome(conns, p[k - 1], p[k]) {
      assert Shares(conns, p[k - 1], p[k]);
      var ident :| Usable(ident) && Has(conns, p[k - 1], ident) && Has(conns, p[k], ident);
      UsableIsMeaningful(ident);
    }
    assert SamePath(conns, p, i, j);
  }

  lemma {:induction false} PathIsLinked(conns: set<Connection>, p: seq<int>)
    requires ColonsLinked(conns) && p != [] && SamePath(conns, p, p[0], p[|p| - 1])
    ensures Linked(conns, p[0], p[|p| - 1])
  {
    var last := |p| - 1;
    if last == 0 {
      LinkedRefl(conns, p[0]);
    } else {
      var q := p[..last];
      PathIsLinked(conns, q);
      assert SharesSome(conns, p[last - 1], p[last]);
      var ident :| Meaningful(ident) && Has(conns, p[last - 1], ident) && Has(conns, p[last], ident);
      if Usable(ident) {
        LinkedOnce(conns, p[last - 1], p[last]);
      }
      LinkedTrans(conns, p[0], p[last - 1], p[last]);
    }
  }

  /** The keys are those of physical servers if and only if connections that share an
      identifier ending in a colon are linked in some other way. */
  lemma SameServerExact(conns: set<Connection>)
    ensures (forall i, j :: SameServer(conns, i, j) <==> Linked(conns, i, j)) <==> ColonsLinked(conns)
  {
    if ColonsLinked(conns) {
      forall i, j ensures SameServer(conns, i, j) <==> Linked(conns, i, j) {
        if Linked(conns, i, j) {
          LinkedIsSame(conns, i, j);
        }
        if SameServer(conns, i, j) {
          var p :| SamePath(conns, p, i, j);
          PathIsLinked(conns, p);
        }
      }
    }
    if forall i, j :: SameServer(conns, i, j) <==> Linked(conns, i, j) {
      forall i, j, ident | Has(conns, i, ident) && Has(conns, j, ident) && Meaningful(ident) && !Usable(ident)
        ensures Linked(conns, i, j)
      {
        assert SharesSome(conns, i, j);
        assert SamePath(conns, [i, j], i, j);
      }
    }
  }

  /** A connection without a name, host or alias that ends in a colon. */
  predicate NoColonEnds(c: Connection) {
    && (c.name == "" || c.name[|c.name| - 1] != ':') && (c.host == "" || c.host[|c.host| - 1] != ':')
    && forall a :: a in c.aliases ==> a == "" || a[|a| - 1] != ':'
  }

  lemma {:induction false} NoColonHosts(hosts: seq<string>, ident: string)
    requires ident in HostIdentifiers(hosts) && forall h :: h in hosts ==> h == "" || h[|h| - 1] != ':'
    ensures Usable(ident) || ident == "host:"
  {
    if ident == "host:" + hosts[0] {
      assert hosts[0] in hosts;
      assert hosts[0] == "" ==> ident == "host:";
    } else {
      assert forall h :: h in hosts[1..] ==> h in hosts;
      NoColonHosts(hosts[1..], ident);
    }
  }

  /** So without such identifiers the partition is the promised one. */
  lemma NoColonsNoGap(connections: seq<Connection>, key: map<int, int>)
    requires Partitions(connections, key) && forall c :: c in connections ==> NoColonEnds(c)
    ensures forall i, j :: i in key && j in key ==> (key[i] == key[j] <==> SameServer(AsSet(connections), i, j))
  {
    var conns := AsSet(connections);
    forall i, ident | Has(conns, i, ident) && Meaningful(ident) ensures Usable(ident) {
      var c :| c in conns && c.id == i && ident in Identifiers(c);
      if ident == "name:" + c.name {
        assert c.name == "" ==> ident == "name:";
      } else {
        NoColonHosts([c.host] + c.aliases, ident);
      }
    }
    SameServerExact(conns);
  }

  lemma LinkedShares(conns: set<Connection>, i: int, j: int)
    requires Linked(conns, i, j) && i != j
    ensures exists k :: k != i && Shares(conns, i, k)
  {
    var p :| LinkPath(conns, p, i, j);
    assert p[|p| - 1] != i;
    var k := FirstOther(p, i);
    assert Shares(conns, p[k - 1], p[k]);
  }

  lemma {:induction false} FirstOther(p: seq<int>, i: int) returns (k: nat)
    requires p != [] && p[0] == i && exists k :: 0 <= k < |p| && p[k] != i
    ensures 0 < k < |p| && p[k - 1] == i && p[k] != i
  {
    k := 1;
    while p[k] == i
      invariant 0 < k < |p| && forall l :: 0 <= l < k ==> p[l] == i
      decreases |p| - k
    {
      k := k + 1;
    }
  }

  predicate EndsPlain(s: string) {
    s != "" && s[|s| - 1] != ':'
  }

  lemma {:induction false} HostIdentifiersMean(hosts: seq<string>, ident: string)
    ensures ident in HostIdentifiers(hosts) <==> exists h :: h in hosts && ident == "host:" + h
  {
    if hosts != [] {
      HostIdentifiersMean(hosts[1..], ident);
      assert forall h :: h in hosts <==> h == hosts[0] || h in hosts[1..];
    }
  }

  /** What a shared usable identifier is: a name, or a host or alias. */
  lemma SharedIdentifier(a: Connection, b: Connection, ident: string)
    requires Usable(ident) && ident in Identifiers(a) && ident in Identifiers(b)
    ensures SharedName(a, b) || SharedHost(a, b)
  {
    HostIdentifiersMean([a.host] + a.aliases, ident);
    HostIdentifiersMean([b.host] + b.aliases, ident);
    if ident == "name:" + a.name {
      assert ident[0] == 'n' && ident[5..] == a.name;
      assert ident == "name:" + b.name ==> ident[5..] == b.name;
      assert forall h: string :: ("host:" + h)[0] == 'h';
    } else {
      var h :| h in [a.host] + a.aliases && ident == "host:" + h;
      assert ident[0] == 'h' && ident[5..] == h;
      assert ("name:" + b.name)[0] == 'n';
      var g :| g in [b.host] + b.aliases && ident == "host:" + g;
      assert ident[5..] == g;
    }
  }

  ghost predicate SharedName(a: Connection, b: Connection) {
    a.name == b.name && EndsPlain(a.name)
  }

  ghost predicate SharedHost(a: Connection, b: Connection) {
    exists h :: h in [a.host] + a.aliases && h in [b.host] + b.aliases && EndsPlain(h)
  }

  /** Two connections: they are one server for the code exactly when they have the same name, or
      a host or alias in common, that is not empty and does not end in a colon. A common alias
      `nas:` or host `2001:db8::` is not enough. */
  lemma TwoConnections(a: Connection, b: Connection)
    requires a.id != b.id
    ensures Linked({a, b}, a.id, b.id) <==>
      || (a.name == b.name && EndsPlain(a.name))
      || exists h :: h in [a.host] + a.aliases && h in [b.host] + b.aliases && EndsPlain(h)
  {
    var conns := {a, b};
    if Linked(conns, a.id, b.id) {
      LinkedShares(conns, a.id, b.id);
      var k :| k != a.id && Shares(conns, a.id, k);
      var ident :| Usable(ident) && Has(conns, a.id, ident) && Has(conns, k, ident);
      SharedIdentifier(a, b, ident);
    }
    if SharedName(a, b) {
      SharedLinks(a, b, "name:" + a.name);
    }
    if SharedHost(a, b) {
      var h :| h in [a.host] + a.aliases && h in [b.host] + b.aliases && EndsPlain(h);
      HostIdentifiersMean([a.host] + a.aliases, "host:" + h);
      HostIdentifiersMean([b.host] + b.aliases, "host:" + h);
      SharedLinks(a, b, "host:" + h);
    }
  }

  lemma SharedLinks(a: Connection, b: Connection, ident: string)
    requires Usable(ident) && ident in Identifiers(a) && ident in Identifiers(b)
    ensures Linked({a, b}, a.id, b.id)
  {
    assert Has({a, b}, a.id, ident) && Has({a, b}, b.id, ident);
    LinkedOnce({a, b}, a.id, b.id);
  }
}
