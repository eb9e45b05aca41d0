/** Placing a guest's disks on target storages (app/services/restore_pack.py): an
    exhaustive search with backtracking over two dictionaries changed in place. */
module Pack {
  import opened Wrappers

  datatype Disk = Disk(dev: string, size: nat)
  datatype Storage = Storage(name: string, capacity: nat)

  // dev -> storage name
  type Mapping = map<string, string>

  ghost predicate UniqueDevs(disks: seq<Disk>) {
    forall j, k :: 0 <= j < k < |disks| ==> disks[j].dev != disks[k].dev
  }

  ghost predicate UniqueNames(storages: seq<Storage>) {
    forall j, k :: 0 <= j < k < |storages| ==> storages[j].name != storages[k].name
  }

  ghost function Devs(disks: seq<Disk>): set<string> {
    set d | d in disks :: d.dev
  }

  // ---- the specification ---------------------------------------------------

  /** Total size of the disks that `a` puts on the storage `name`. */
  function Load(disks: seq<Disk>, a: Mapping, name: string): nat {
    if disks == [] then 0
    else Load(disks[1..], a, name) + if disks[0].dev in a && a[disks[0].dev] == name then disks[0].size else 0
  }

  /** `a` puts every disk on one of the storages and fills none beyond its capacity. */
  ghost predicate Fits(disks: seq<Disk>, storages: seq<Storage>, a: Mapping) {
    && (forall d :: d in disks ==> d.dev in a && exists s :: s in storages && s.name == a[d.dev])
    && (forall s :: s in storages ==> Load(disks, a, s.name) <= s.capacity)
  }

  ghost predicate Packable(disks: seq<Disk>, storages: seq<Storage>) {
    exists a :: Fits(disks, storages, a)
  }

  // ---- largest disk first --------------------------------------------------

  function Insert(d: Disk, s: seq<Disk>): seq<Disk> {
    if s == [] || d.size >= s[0].size then [d] + s else [s[0]] + Insert(d, s[1..])
  }

  /** Python's stable `sorted(disks, key=size, reverse=True)`. */
  function SortDescending(disks: seq<Disk>): seq<Disk> {
    if disks == [] then [] else Insert(disks[0], SortDescending(disks[1..]))
  }

  ghost function OfSize(disks: seq<Disk>, z: nat): seq<Disk> {
    if disks == [] then [] else (if disks[0].size == z then [disks[0]] else []) + OfSize(disks[1..], z)
  }

  ghost predicate Descending(s: seq<Disk>) {
    forall k :: 0 < k < |s| ==> s[k - 1].size >= s[k].size
  }

  lemma {:induction false} InsertElements(d: Disk, s: seq<Disk>)
    ensures multiset(Insert(d, s)) == multiset{d} + multiset(s)
  {
    if s != [] && d.size < s[0].size {
      InsertElements(d, s[1..]);
      assert s == [s[0]] + s[1..];
    }
  }

  lemma {:induction false} InsertLoad(d: Disk, s: seq<Disk>, a: Mapping, name: string)
    ensures Load(Insert(d, s), a, name) == Load(s, a, name) + Load([d], a, name)
  {
    if s == [] || d.size >= s[0].size {
      assert ([d] + s)[1..] == s;
    } else {
      InsertLoad(d, s[1..], a, name);
      assert ([s[0]] + Insert(d, s[1..]))[1..] == Insert(d, s[1..]);
    }
  }

  lemma {:induction false} InsertOrder(d: Disk, s: seq<Disk>)
    requires Descending(s)
    ensures Descending(Insert(d, s))
    ensures Insert(d, s)[0].size == if s == [] || d.size >= s[0].size then d.size else s[0].size
  {
    if s != [] && d.size < s[0].size {
      InsertOrder(d, s[1..]);
    }
  }

  lemma {:induction false} InsertStable(d: Disk, s: seq<Disk>, z: nat)
    requires Descending(s)
    ensures OfSize(Insert(d, s), z) == OfSize([d], z) + OfSize(s, z)
  {
    if s == [] || d.size >= s[0].size {
      assert ([d] + s)[1..] == s;
    } else {
      InsertStable(d, s[1..], z);
      var t := Insert(d, s[1..]);
      assert ([s[0]] + t)[1..] == t;
    }
  }

  /** Sorting is a stable permutation into descending order. */
  lemma {:induction false} SortOrder(disks: seq<Disk>, z: nat)
    ensures Descending(SortDescending(disks)) && OfSize(SortDescending(disks), z) == OfSize(disks, z)
  {
    if disks != [] {
      SortOrder(disks[1..], z);
      InsertOrder(disks[0], SortDescending(disks[1..]));
      InsertStable(disks[0], SortDescending(disks[1..]), z);
      assert disks == [disks[0]] + disks[1..];
    }
  }

  lemma {:induction false} SortElements(disks: seq<Disk>)
    ensures multiset(SortDescending(disks)) == multiset(disks)
  {
    if disks != [] {
      SortElements(disks[1..]);
      InsertElements(disks[0], SortDescending(disks[1..]));
      assert disks == [disks[0]] + disks[1..];
    }
  }

  /** .. so no load changes. */
  lemma {:induction false} SortLoad(disks: seq<Disk>, a: Mapping, name: string)
    ensures Load(SortDescending(disks), a, name) == Load(disks, a, name)
  {
    if disks != [] {
      SortLoad(disks[1..], a, name);
      InsertLoad(disks[0], SortDescending(disks[1..]), a, name);
    }
  }

  lemma {:induction false} SortUnique(disks: seq<Disk>)
    requires UniqueDevs(disks)
    ensures UniqueDevs(SortDescending(disks))
  {
    var r := SortDescending(disks);
    SortElements(disks);
    DistinctFromMultiset(disks, r);
  }

  /** Distinct names survive a permutation. */
  lemma {:induction false} DistinctFromMultiset(s: seq<Disk>, r: seq<Disk>)
    requires multiset(s) == multiset(r) && UniqueDevs(s)
    ensures UniqueDevs(r)
  {
    forall j, k | 0 <= j < k < |r| ensures r[j].dev != r[k].dev {
      assert r[j] in multiset(r) && r[k] in multiset(r);
      assert r[j] in multiset(s) && r[k] in multiset(s);
      if r[j] == r[k] {
        TwiceThere(r, j, k);
        OnceOnly(s, r[j]);
      }
    }
  }

  lemma TwiceThere(r: seq<Disk>, j: nat, k: nat)
    requires j < k < |r| && r[j] == r[k]
    ensures multiset(r)[r[j]] >= 2
  {
    assert r == r[..j] + [r[j]] + r[j + 1..k] + [r[k]] + r[k + 1..];
  }

  lemma {:induction false} OnceOnly(s: seq<Disk>, x: Disk)
    requires UniqueDevs(s)
    ensures multiset(s)[x] <= 1
  {
    if s != [] {
      var t := s[1..];
      OnceOnly(t, x);
      assert s == [s[0]] + t;
      if s[0] == x {
        assert x !in t;
      }
    }
  }

  // ---- the search ----------------------------------------------------------

  /** `choice` picks, for each disk from `i` on, a storage (by position) that has room
      for it when the disks are placed one after the other. */
  ghost predicate FitsFrom(order: seq<Disk>, names: seq<string>, remaining: map<string, int>, i: nat, choice: seq<nat>)
    requires i <= |order| && forall n :: n in names ==> n in remaining
    decreases |order| - i
  {
    if i == |order| then choice == []
    else
      && choice != [] && choice[0] < |names| && remaining[names[choice[0]]] >= order[i].size
      && FitsFrom(order, names, Take(remaining, names[choice[0]], order[i].size), i + 1, choice[1..])
  }

  ghost predicate NoFit(order: seq<Disk>, names: seq<string>, remaining: map<string, int>, i: nat)
    requires i <= |order| && forall n :: n in names ==> n in remaining
  {
    forall c :: !FitsFrom(order, names, remaining, i, c)
  }

  function Take(remaining: map<string, int>, name: string, size: int): map<string, int>
    requires name in remaining
  {
    remaining[name := remaining[name] - size]
  }

  /** Lexicographic order of choices: the first difference decides. */
  ghost predicate NotAfter(c: seq<nat>, d: seq<nat>) {
    c == [] || d == [] || c[0] < d[0] || (c[0] == d[0] && NotAfter(c[1..], d[1..]))
  }

  /** The first feasible choice in the operator's storage order. */
  ghost predicate FirstFit(order: seq<Disk>, names: seq<string>, remaining: map<string, int>, i: nat, choice: seq<nat>)
    requires i <= |order| && forall n :: n in names ==> n in remaining
  {
    && FitsFrom(order, names, remaining, i, choice)
    && forall c :: FitsFrom(order, names, remaining, i, c) ==> NotAfter(choice, c)
  }

  /** `result` with the disks from `i` on put where `choice` says. */
  ghost function Placed(order: seq<Disk>, names: seq<string>, i: nat, choice: seq<nat>, result: Mapping): Mapping
    requires i + |choice| <= |order| && forall k :: 0 <= k < |choice| ==> choice[k] < |names|
    decreases |choice|
  {
    if choice == [] then result
    else Placed(order, names, i + 1, choice[1..], result[order[i].dev := names[choice[0]]])
  }

  lemma {:induction false} ChoiceShape(order: seq<Disk>, names: seq<string>, remaining: map<string, int>, i: nat, choice: seq<nat>)
    requires i <= |order| && forall n :: n in names ==> n in remaining
    requires FitsFrom(order, names, remaining, i, choice)
    ensures |choice| == |order| - i && forall k :: 0 <= k < |choice| ==> choice[k] < |names|
    decreases |order| - i
  {
    if i < |order| {
      ChoiceShape(order, names, Take(remaining, names[choice[0]], order[i].size), i + 1, choice[1..]);
      assert forall k :: 0 < k < |choice| ==> choice[k] == choice[1..][k - 1];
    }
  }

  /** Every feasible choice gives the next disk storage `k` or a later one. */
  ghost predicate StartsFrom(order: seq<Disk>, names: seq<string>, remaining: map<string, int>, i: nat, k: nat)
    requires i < |order| && forall n :: n in names ==> n in remaining
  {
    forall c :: FitsFrom(order, names, remaining, i, c) ==> c[0] >= k
  }

  class Packer {
    const order: seq<Disk>
    const names: seq<string>
    var remaining: map<string, int>
    var result: Mapping

    constructor (order: seq<Disk>, storages: seq<Storage>)
      ensures this.order == order && names == Names(storages)
      ensures remaining == Capacities(storages) && result == map[]
    {
      this.order, names := order, Names(storages);
      remaining, result := Capacities(storages), map[];
    }

    /** `place`: finds the first feasible choice for the disks from `i` on, or leaves
        both dictionaries as it found them because there is none. */
    method Place(i: nat) returns (ok: bool, ghost choice: seq<nat>)
      requires i <= |order| && UniqueDevs(order)
      requires forall n :: n in names ==> n in remaining
      requires forall k :: i <= k < |order| ==> order[k].dev !in result
      modifies this
      ensures remaining.Keys == old(remaining.Keys)
      ensures ok ==> FirstFit(order, names, old(remaining), i, choice)
      ensures ok ==> |choice| == |order| - i && (forall k :: 0 <= k < |choice| ==> choice[k] < |names|)
                     && result == Placed(order, names, i, choice, old(result))
      ensures !ok ==> NoFit(order, names, old(remaining), i)
      ensures !ok ==> remaining == old(remaining) && result == old(result)
      decreases |order| - i
    {
      hide FirstFit, NoFit, StartsFrom, UniqueDevs;
      Edges(order, names, remaining, i);
      NextIsNew(order, i);
      choice := [];
      if i == |order| {
        return true, [];
      }
      var dev, size := order[i].dev, order[i].size;
      for k := 0 to |names|
        invariant remaining == old(remaining) && result == old(result)
        invariant StartsFrom(order, names, old(remaining), i, k)
      {
        var name := names[k];
        assert name in names;
        if remaining[name] >= size {
          remaining := remaining[name := remaining[name] - size];
          result := result[dev := name];
          ghost var rest;
          ok, rest := Place(i + 1);
          if ok {
            choice := [k] + rest;
            FirstStep(order, names, old(remaining), i, k, rest);
            return;
          }
          remaining := remaining[name := remaining[name] + size];
          result := result - {dev};
        }
        NoneStep(order, names, old(remaining), i, k);
      }
      ok := false;
    }
  }

  lemma {:induction false} Edges(order: seq<Disk>, names: seq<string>, remaining: map<string, int>, i: nat)
    requires i <= |order| && forall n :: n in names ==> n in remaining
    ensures i == |order| ==> FirstFit(order, names, remaining, i, [])
    ensures i < |order| ==> StartsFrom(order, names, remaining, i, 0)
    ensures i < |order| && StartsFrom(order, names, remaining, i, |names|) ==> NoFit(order, names, remaining, i)
  {
  }

  lemma NextIsNew(order: seq<Disk>, i: nat)
    requires UniqueDevs(order)
    ensures forall k :: 0 <= i < k < |order| ==> order[k].dev != order[i].dev
  {
  }

  lemma {:induction false} FirstStep(order: seq<Disk>, names: seq<string>, remaining: map<string, int>, i: nat, k: nat, rest: seq<nat>)
    requires i < |order| && k < |names| && (forall n :: n in names ==> n in remaining) && remaining[names[k]] >= order[i].size
    requires StartsFrom(order, names, remaining, i, k)
    requires FirstFit(order, names, Take(remaining, names[k], order[i].size), i + 1, rest)
    ensures FirstFit(order, names, remaining, i, [k] + rest)
  {
    assert ([k] + rest)[1..] == rest;
    forall c | FitsFrom(order, names, remaining, i, c) ensures NotAfter([k] + rest, c) {
    }
  }

  lemma {:induction false} NoneStep(order: seq<Disk>, names: seq<string>, remaining: map<string, int>, i: nat, k: nat)
    requires i < |order| && k < |names| && (forall n :: n in names ==> n in remaining)
    requires StartsFrom(order, names, remaining, i, k)
    requires remaining[names[k]] >= order[i].size ==> NoFit(order, names, Take(remaining, names[k], order[i].size), i + 1)
    ensures StartsFrom(order, names, remaining, i, k + 1)
  {
  }

  function Names(storages: seq<Storage>): (r: seq<string>)
    ensures |r| == |storages| && forall k :: 0 <= k < |r| ==> r[k] == storages[k].name
  {
    seq(|storages|, k requires 0 <= k < |storages| => storages[k].name)
  }

  function Capacities(storages: seq<Storage>): (r: map<string, int>)
    ensures forall s :: s in storages ==> s.name in r
    ensures UniqueNames(storages) ==> forall s :: s in storages ==> r[s.name] == s.capacity
  {
    if storages == [] then map[]
    else
      var last := |storages| - 1;
      assert forall s :: s in storages ==> s in storages[..last] || s == storages[last];
      Capacities(storages[..last])[storages[last].name := storages[last].capacity]
  }

  // ---- the search against the specification --------------------------------

  lemma {:induction false} PlacedKeeps(order: seq<Disk>, names: seq<string>, i: nat, choice: seq<nat>, result: Mapping, dev: string)
    requires i + |choice| == |order| && forall k :: 0 <= k < |choice| ==> choice[k] < |names|
    requires dev in result && forall k :: i <= k < |order| ==> order[k].dev != dev
    ensures var a := Placed(order, names, i, choice, result); dev in a && a[dev] == result[dev]
    decreases |choice|
  {
    if choice != [] {
      PlacedKeeps(order, names, i + 1, choice[1..], result[order[i].dev := names[choice[0]]], dev);
    }
  }

  /** A feasible choice, read as a mapping, loads no storage beyond what it had left. */
  lemma {:induction false} ChoiceLoads(order: seq<Disk>, names: seq<string>, remaining: map<string, int>, i: nat,
                                       choice: seq<nat>, result: Mapping, name: string)
    requires i <= |order| && UniqueDevs(order) && (forall n :: n in names ==> n in remaining)
    requires FitsFrom(order, names, remaining, i, choice)
    requires name in remaining && remaining[name] >= 0
    requires i + |choice| == |order| && forall k :: 0 <= k < |choice| ==> choice[k] < |names|
    ensures Load(order[i..], Placed(order, names, i, choice, result), name) <= remaining[name]
    decreases |choice|
  {
    if choice != [] {
      var n, size := names[choice[0]], order[i].size;
      var next := result[order[i].dev := n];
      assert forall k :: 0 <= k < |choice[1..]| ==> choice[1..][k] == choice[k + 1];
      ChoiceLoads(order, names, Take(remaining, n, size), i + 1, choice[1..], next, name);
      PlacedKeeps(order, names, i + 1, choice[1..], next, order[i].dev);
      assert order[i..][0] == order[i] && order[i..][1..] == order[i + 1..];
    }
  }

  lemma {:induction false} PlacedCovers(order: seq<Disk>, names: seq<string>, i: nat, choice: seq<nat>, result: Mapping)
    requires UniqueDevs(order)
    requires i + |choice| == |order| && forall k :: 0 <= k < |choice| ==> choice[k] < |names|
    ensures var a := Placed(order, names, i, choice, result);
      forall k :: i <= k < |order| ==> order[k].dev in a && a[order[k].dev] == names[choice[k - i]]
    decreases |choice|
  {
    if choice != [] {
      var next := result[order[i].dev := names[choice[0]]];
      assert forall k :: 0 <= k < |choice[1..]| ==> choice[1..][k] == choice[k + 1];
      PlacedCovers(order, names, i + 1, choice[1..], next);
      PlacedKeeps(order, names, i + 1, choice[1..], next, order[i].dev);
    }
  }

  lemma {:induction false} PlacedKeys(order: seq<Disk>, names: seq<string>, i: nat, choice: seq<nat>, result: Mapping)
    requires i + |choice| == |order| && forall k :: 0 <= k < |choice| ==> choice[k] < |names|
    ensures Placed(order, names, i, choice, result).Keys == result.Keys + Devs(order[i..])
    decreases |choice|
  {
    if choice != [] {
      PlacedKeys(order, names, i + 1, choice[1..], result[order[i].dev := names[choice[0]]]);
      assert order[i..] == [order[i]] + order[i + 1..];
      assert Devs(order[i..]) == {order[i].dev} + Devs(order[i + 1..]);
    }
  }

  /** Any mapping that fits is also found as a choice. */
  lemma {:induction false} MappingChoice(order: seq<Disk>, names: seq<string>, remaining: map<string, int>, i: nat, a: Mapping)
    returns (choice: seq<nat>)
    requires i <= |order| && forall n :: n in names ==> n in remaining && Load(order[i..], a, n) <= remaining[n]
    requires forall k :: i <= k < |order| ==> order[k].dev in a && a[order[k].dev] in names
    ensures FitsFrom(order, names, remaining, i, choice)
    ensures |choice| == |order| - i
    ensures forall k :: 0 <= k < |choice| ==> choice[k] < |names| && names[choice[k]] == a[order[i + k].dev]
    decreases |order| - i
  {
    choice := [];
    if i < |order| {
      var name := a[order[i].dev];
      var j :| 0 <= j < |names| && names[j] == name;
      assert order[i..][0] == order[i] && order[i..][1..] == order[i + 1..];
      var rest := MappingChoice(order, names, Take(remaining, name, order[i].size), i + 1, a);
      choice := [j] + rest;
      assert choice[1..] == rest;
    }
  }

  /** The choice that a mapping amounts to, in the order the search tries. */
  ghost predicate IsChoiceOf(order: seq<Disk>, names: seq<string>, a: Mapping, choice: seq<nat>) {
    && |choice| == |order|
    && forall k :: 0 <= k < |order| ==> choice[k] < |names| && order[k].dev in a && a[order[k].dev] == names[choice[k]]
  }

  /** `a` comes first among all fitting mappings: largest disks decide first, and each
      takes the earliest storage in the operator's order. */
  ghost predicate ComesFirst(disks: seq<Disk>, storages: seq<Storage>, a: Mapping) {
    var order, names := SortDescending(disks), Names(storages);
    forall b, c, d :: Fits(disks, storages, b) && IsChoiceOf(order, names, a, c) && IsChoiceOf(order, names, b, d)
      ==> NotAfter(c, d)
  }

  /** Storage names are unique, so a mapping is one choice only. */
  lemma {:induction false} ChoiceUnique(order: seq<Disk>, storages: seq<Storage>, a: Mapping, c: seq<nat>, d: seq<nat>)
    requires UniqueNames(storages) && IsChoiceOf(order, Names(storages), a, c) && IsChoiceOf(order, Names(storages), a, d)
    ensures c == d
  {
    forall k | 0 <= k < |order| ensures c[k] == d[k] {
      assert storages[c[k]].name == storages[d[k]].name;
    }
  }

  /** Fitting is the same for the disks as given and as sorted. */
  lemma {:induction false} FitsSorted(disks: seq<Disk>, storages: seq<Storage>, a: Mapping)
    ensures Fits(disks, storages, a) <==> Fits(SortDescending(disks), storages, a)
  {
    var order := SortDescending(disks);
    SortElements(disks);
    forall d ensures d in disks <==> d in order {
      assert d in disks <==> d in multiset(disks);
      assert d in order <==> d in multiset(order);
    }
    forall s | s in storages ensures Load(order, a, s.name) == Load(disks, a, s.name) {
      SortLoad(disks, a, s.name);
    }
  }

  /** Every fitting mapping is a feasible choice. */
  lemma {:induction false} FitsIsFeasible(order: seq<Disk>, storages: seq<Storage>, b: Mapping) returns (d: seq<nat>)
    requires UniqueNames(storages) && Fits(order, storages, b)
    ensures FitsFrom(order, Names(storages), Capacities(storages), 0, d) && IsChoiceOf(order, Names(storages), b, d)
  {
    var names := Names(storages);
    forall k | 0 <= k < |order| ensures order[k].dev in b && b[order[k].dev] in names {
      assert order[k] in order;
      var s :| s in storages && s.name == b[order[k].dev];
      var j :| 0 <= j < |storages| && storages[j] == s;
      assert names[j] == s.name;
    }
    forall n | n in names ensures n in Capacities(storages) && Load(order[0..], b, n) <= Capacities(storages)[n] {
      var j :| 0 <= j < |names| && names[j] == n;
      assert storages[j] in storages && order[0..] == order;
    }
    d := MappingChoice(order, names, Capacities(storages), 0, b);
  }

  /** Every feasible choice is a fitting mapping. */
  lemma {:induction false} FeasibleFits(order: seq<Disk>, storages: seq<Storage>, choice: seq<nat>)
    requires UniqueDevs(order) && UniqueNames(storages)
    requires FitsFrom(order, Names(storages), Capacities(storages), 0, choice)
    requires |choice| == |order| && forall k :: 0 <= k < |choice| ==> choice[k] < |storages|
    ensures var a := Placed(order, Names(storages), 0, choice, map[]);
      && Fits(order, storages, a) && IsChoiceOf(order, Names(storages), a, choice)
      && a.Keys == Devs(order)
  {
    FeasibleCovers(order, storages, choice);
    FeasibleLoads(order, storages, choice);
    hide FitsFrom, Placed, UniqueDevs, UniqueNames, Load;
  }

  lemma {:induction false} FeasibleCovers(order: seq<Disk>, storages: seq<Storage>, choice: seq<nat>)
    requires UniqueDevs(order) && |choice| == |order| && forall k :: 0 <= k < |choice| ==> choice[k] < |storages|
    ensures var a := Placed(order, Names(storages), 0, choice, map[]);
      && IsChoiceOf(order, Names(storages), a, choice) && a.Keys == Devs(order)
      && (forall d :: d in order ==> d.dev in a && exists s :: s in storages && s.name == a[d.dev])
  {
    var a := Placed(order, Names(storages), 0, choice, map[]);
    PlacedCovers(order, Names(storages), 0, choice, map[]);
    PlacedKeys(order, Names(storages), 0, choice, map[]);
    assert order[0..] == order;
    hide Placed, UniqueDevs;
    forall d | d in order ensures d.dev in a && exists s :: s in storages && s.name == a[d.dev] {
      var k :| 0 <= k < |order| && order[k] == d;
      assert storages[choice[k]] in storages;
    }
  }

  lemma {:induction false} FeasibleLoads(order: seq<Disk>, storages: seq<Storage>, choice: seq<nat>)
    requires UniqueDevs(order) && UniqueNames(storages) && |choice| == |order|
    requires FitsFrom(order, Names(storages), Capacities(storages), 0, choice)
    requires forall k :: 0 <= k < |choice| ==> choice[k] < |storages|
    ensures forall s :: s in storages ==> Load(order, Placed(order, Names(storages), 0, choice, map[]), s.name) <= s.capacity
  {
    hide UniqueDevs;
    assert order[0..] == order;
    forall s | s in storages ensures Load(order, Placed(order, Names(storages), 0, choice, map[]), s.name) <= s.capacity {
      ChoiceLoads(order, Names(storages), Capacities(storages), 0, choice, map[], s.name);
    }
  }

  lemma {:induction false} NoDisks(storages: seq<Storage>)
    ensures Fits([], storages, map[]) && ComesFirst([], storages, map[])
  {
  }

  lemma {:induction false} FoundIsBest(disks: seq<Disk>, storages: seq<Storage>, choice: seq<nat>)
    requires UniqueDevs(disks) && UniqueNames(storages)
    requires FirstFit(SortDescending(disks), Names(storages), Capacities(storages), 0, choice)
    requires |choice| == |SortDescending(disks)| && forall k :: 0 <= k < |choice| ==> choice[k] < |storages|
    ensures var a := Placed(SortDescending(disks), Names(storages), 0, choice, map[]);
      && Fits(disks, storages, a) && ComesFirst(disks, storages, a) && a.Keys == Devs(disks)
  {
    var order, names := SortDescending(disks), Names(storages);
    var a := Placed(order, names, 0, choice, map[]);
    SortUnique(disks);
    FeasibleFits(order, storages, choice);
    FitsSorted(disks, storages, a);
    forall b, c, d | Fits(disks, storages, b) && IsChoiceOf(order, names, a, c) && IsChoiceOf(order, names, b, d)
      ensures NotAfter(c, d)
    {
      ChoiceUnique(order, storages, a, c, choice);
      FitsSorted(disks, storages, b);
      var e := FitsIsFeasible(order, storages, b);
      ChoiceUnique(order, storages, b, d, e);
    }
    SortElements(disks);
    forall d ensures d in disks <==> d in order {
      assert d in disks <==> d in multiset(disks);
      assert d in order <==> d in multiset(order);
    }
  }

  lemma {:induction false} NotFoundIsImpossible(disks: seq<Disk>, storages: seq<Storage>)
    requires UniqueNames(storages) && NoFit(SortDescending(disks), Names(storages), Capacities(storages), 0)
    ensures !Packable(disks, storages)
  {
    forall a ensures !Fits(disks, storages, a) {
      if Fits(disks, storages, a) {
        FitsSorted(disks, storages, a);
        var d := FitsIsFeasible(SortDescending(disks), storages, a);
      }
    }
  }

  /** `pack_disks`: a mapping is returned exactly when one exists, it fits, and no
      other fitting mapping comes before it. */
  method PackDisks(disks: seq<Disk>, storages: seq<Storage>) returns (r: Option<Mapping>)
    requires UniqueDevs(disks) && UniqueNames(storages)
    ensures r.Some? <==> Packable(disks, storages)
    ensures r.Some? ==> Fits(disks, storages, r.value) && r.value.Keys == Devs(disks)
    ensures r.Some? ==> ComesFirst(disks, storages, r.value)
  {
    hide FirstFit, NoFit, ComesFirst, UniqueDevs, UniqueNames, SortDescending;
    if disks == [] {
      NoDisks(storages);
      return Some(map[]);
    }
    var order := SortDescending(disks);
    SortUnique(disks);
    var packer := new Packer(order, storages);
    var ok, choice := packer.Place(0);
    if ok {
      FoundIsBest(disks, storages, choice);
      r := Some(packer.result);
    } else {
      NotFoundIsImpossible(disks, storages);
      r := None;
    }
  }

  lemma FirstChoice(disks: seq<Disk>, storages: seq<Storage>, a: Mapping) returns (c: seq<nat>)
    requires UniqueNames(storages) && Fits(disks, storages, a)
    ensures IsChoiceOf(SortDescending(disks), Names(storages), a, c)
  {
    FitsSorted(disks, storages, a);
    c := FitsIsFeasible(SortDescending(disks), storages, a);
  }

  lemma {:induction false} SameMapping(disks: seq<Disk>, names: seq<string>, a: Mapping, b: Mapping, c: seq<nat>)
    requires a.Keys == Devs(disks) && b.Keys == Devs(disks)
    requires IsChoiceOf(SortDescending(disks), names, a, c) && IsChoiceOf(SortDescending(disks), names, b, c)
    ensures a == b
  {
    var order := SortDescending(disks);
    SortElements(disks);
    forall dev | dev in Devs(disks) ensures a[dev] == b[dev] {
      var x :| x in disks && x.dev == dev;
      assert x in multiset(disks) && x in multiset(order);
      var k :| 0 <= k < |order| && order[k] == x;
    }
  }

  lemma {:induction false} FirstDifference(c: seq<nat>, d: seq<nat>) returns (k: nat)
    requires NotAfter(c, d) && |c| == |d| && c != d
    ensures k < |c| && c[..k] == d[..k] && c[k] < d[k]
  {
    if c[0] < d[0] {
      k := 0;
    } else {
      k := FirstDifference(c[1..], d[1..]);
      k := k + 1;
      assert c[..k] == [c[0]] + c[1..][..k - 1] && d[..k] == [d[0]] + d[1..][..k - 1];
    }
  }

  lemma {:induction false} EarlierChoice(order: seq<Disk>, names: seq<string>, a: Mapping, b: Mapping, c: seq<nat>, d: seq<nat>)
    returns (k: nat)
    requires IsChoiceOf(order, names, a, c) && IsChoiceOf(order, names, b, d) && NotAfter(c, d) && c != d
    ensures k < |order| && c[k] < d[k] < |names| && a[order[k].dev] == names[c[k]] && b[order[k].dev] == names[d[k]]
    ensures forall m :: 0 <= m < k ==> a[order[m].dev] == b[order[m].dev]
  {
    k := FirstDifference(c, d);
    forall m | 0 <= m < k ensures c[m] == d[m] {
      assert c[..k][m] == d[..k][m];
    }
  }

  /** What comes first means: where another fitting mapping differs for the first time, in the
      order of the sizes, it puts the disk on a storage that stands later. */
  lemma {:induction false} EarlierStorage(disks: seq<Disk>, storages: seq<Storage>, a: Mapping, b: Mapping)
    returns (k: nat, i: nat, j: nat)
    requires UniqueNames(storages) && a.Keys == Devs(disks) && b.Keys == Devs(disks) && a != b
    requires Fits(disks, storages, a) && ComesFirst(disks, storages, a) && Fits(disks, storages, b)
    ensures var order := SortDescending(disks);
      && k < |order| && (forall m :: 0 <= m < k ==> order[m].dev in a && order[m].dev in b && a[order[m].dev] == b[order[m].dev])
      && i < j < |storages| && order[k].dev in a && order[k].dev in b
      && a[order[k].dev] == storages[i].name && b[order[k].dev] == storages[j].name
  {
    var c := FirstChoice(disks, storages, a);
    var d := FirstChoice(disks, storages, b);
    assert NotAfter(c, d);
    hide Fits, ComesFirst, NotAfter, UniqueNames;
    if c == d {
      SameMapping(disks, Names(storages), a, b, c);
    }
    k := EarlierChoice(SortDescending(disks), Names(storages), a, b, c, d);
    i, j := c[k], d[k];
  }

  // ---- plan_distribution ---------------------------------------------------

  datatype Decision = Ok | Retry | Impossible

  ghost function Verdict(disks: seq<Disk>, avail: seq<Storage>, total: seq<Storage>): Decision {
    if Packable(disks, avail) then Ok else if Packable(disks, total) then Retry else Impossible
  }

  /** The verdict is exact, and a mapping comes only with "ok" and fits the free space. */
  method PlanDistribution(disks: seq<Disk>, avail: seq<Storage>, total: seq<Storage>)
    returns (decision: Decision, mapping: Option<Mapping>)
    requires UniqueDevs(disks) && UniqueNames(avail) && UniqueNames(total)
    ensures decision == Ok <==> Packable(disks, avail)
    ensures decision == Retry <==> !Packable(disks, avail) && Packable(disks, total)
    ensures mapping.Some? <==> decision == Ok
    ensures decision == Ok ==> Fits(disks, avail, mapping.value) && ComesFirst(disks, avail, mapping.value)
    ensures decision == Ok ==> mapping.value.Keys == Devs(disks)
  {
    var byAvail := PackDisks(disks, avail);
    if byAvail.Some? {
      return Ok, byAvail;
    }
    var byTotal := PackDisks(disks, total);
    return if byTotal.Some? then Retry else Impossible, None;
  }

  /** At least the same storages, none of them smaller. */
  ghost predicate Dominates(storages: seq<Storage>, better: seq<Storage>) {
    && (forall s :: s in storages ==> exists b :: b in better && b.name == s.name)
    && (forall s, b :: s in storages && b in better && s.name == b.name ==> s.capacity <= b.capacity)
  }

  /** The disks without the one at position `k`. */
  function Without(disks: seq<Disk>, k: nat): seq<Disk>
    requires k < |disks|
  {
    disks[..k] + disks[k + 1..]
  }

  lemma {:induction false} WithoutLoad(disks: seq<Disk>, k: nat, a: Mapping, name: string)
    requires k < |disks|
    ensures Load(Without(disks, k), a, name) <= Load(disks, a, name)
  {
    if k > 0 {
      WithoutLoad(disks[1..], k - 1, a, name);
      assert Without(disks, k)[0] == disks[0];
      assert Without(disks, k)[1..] == Without(disks[1..], k - 1);
    } else {
      assert Without(disks, k) == disks[1..];
    }
  }

  lemma {:induction false} UnusedLoad(disks: seq<Disk>, a: Mapping, name: string)
    requires forall d :: d in disks && d.dev in a ==> a[d.dev] != name
    ensures Load(disks, a, name) == 0
  {
    if disks != [] {
      assert forall d :: d in disks[1..] ==> d in disks;
      UnusedLoad(disks[1..], a, name);
    }
  }

  lemma {:induction false} MoreRoomPackable(disks: seq<Disk>, storages: seq<Storage>, better: seq<Storage>)
    requires Dominates(storages, better) && Packable(disks, storages)
    ensures Packable(disks, better)
  {
    var a :| Fits(disks, storages, a);
    forall d | d in disks ensures d.dev in a && exists b :: b in better && b.name == a[d.dev] {
      var s :| s in storages && s.name == a[d.dev];
    }
    forall b | b in better ensures Load(disks, a, b.name) <= b.capacity {
      if s :| s in storages && s.name == b.name {
        assert Load(disks, a, s.name) <= s.capacity;
      } else {
        UnusedLoad(disks, a, b.name);
      }
    }
    assert Fits(disks, better, a);
  }

  lemma {:induction false} FewerDisksPackable(disks: seq<Disk>, k: nat, storages: seq<Storage>)
    requires k < |disks| && Packable(disks, storages)
    ensures Packable(Without(disks, k), storages)
  {
    var a :| Fits(disks, storages, a);
    assert forall d :: d in Without(disks, k) ==> d in disks;
    forall s | s in storages ensures Load(Without(disks, k), a, s.name) <= s.capacity {
      WithoutLoad(disks, k, a, s.name);
    }
    assert Fits(Without(disks, k), storages, a);
  }

  function Badness(d: Decision): nat {
    match d case Ok => 0 case Retry => 1 case Impossible => 2
  }

  /** More room, more storages or fewer disks never make the verdict worse. */
  lemma {:induction false} VerdictNeverWorse(disks: seq<Disk>, k: nat, avail: seq<Storage>, total: seq<Storage>,
                                             avail': seq<Storage>, total': seq<Storage>)
    requires Dominates(avail, avail') && Dominates(total, total')
    ensures Badness(Verdict(disks, avail', total')) <= Badness(Verdict(disks, avail, total))
    ensures k < |disks| ==> Badness(Verdict(Without(disks, k), avail, total)) <= Badness(Verdict(disks, avail, total))
  {
    if Packable(disks, avail) {
      MoreRoomPackable(disks, avail, avail');
      if k < |disks| { FewerDisksPackable(disks, k, avail); }
    }
    if Packable(disks, total) {
      MoreRoomPackable(disks, total, total');
      if k < |disks| { FewerDisksPackable(disks, k, total); }
    }
  }
}
