/** Where a restore goes: `choose_target_storage`, the placement part of `build_plan`
    and the drainer's disk check (app/services/restore_orchestrator.py,
    app/services/restore_worker.py). */
module Placement {
  import opened Wrappers
  import opened Pack

  // ---- choose_target_storage -------------------------------------------------

  datatype Choice = Chosen(storage: string) | Wait(storage: string) | TooBig

  function Get(m: map<string, Option<nat>>, name: string): (r: Option<nat>)
    ensures name in m ==> r == m[name]
    ensures name !in m ==> r.None?
  {
    if name in m then m[name] else None
  }

  predicate HasRoom(m: map<string, Option<nat>>, name: string, needed: nat) {
    Get(m, name).Some? && Get(m, name).value >= needed
  }

  predicate MayHold(m: map<string, Option<nat>>, name: string, needed: nat) {
    Get(m, name).None? || Get(m, name).value >= needed
  }

  /** Unknown sizes (and zero, which the source treats alike) take the first storage. */
  predicate SizeKnown(needed: Option<nat>) {
    needed.Some? && needed.value > 0
  }

  /** `s` has `needed` bytes free, and no storage before it does. */
  ghost predicate IsFirstWithRoom(ordered: seq<string>, avail: map<string, Option<nat>>, needed: nat, s: string) {
    Get(avail, s).Some? && Get(avail, s).value >= needed
    && exists k :: 0 <= k < |ordered| && ordered[k] == s
         && forall j :: 0 <= j < k ==> Get(avail, ordered[j]).None? || Get(avail, ordered[j]).value < needed
  }

  /** The guest is bigger than every single storage: no free space is known to be enough, and
      every capacity is known not to be. */
  ghost predicate NeverHolds(ordered: seq<string>, avail: map<string, Option<nat>>, total: map<string, Option<nat>>,
                             needed: Option<nat>)
  {
    && needed.Some? && needed.value > 0
    && (forall s :: s in ordered ==> Get(avail, s).None? || Get(avail, s).value < needed.value)
    && (forall s :: s in ordered ==> Get(total, s).Some? && Get(total, s).value < needed.value)
  }

  /** Another state of the storages: nothing known has become less. */
  ghost predicate NoLess(ordered: seq<string>, m: map<string, Option<nat>>, n: map<string, Option<nat>>) {
    forall s :: s in ordered && Get(n, s).Some? ==> Get(m, s).Some? && Get(m, s).value <= Get(n, s).value
  }

  /** With more capacity, storages of unknown capacity, or a smaller guest, a guest that waits
      is never found too big instead. */
  lemma MoreCapacityWaits(ordered: seq<string>, avail: map<string, Option<nat>>, total: map<string, Option<nat>>,
                          total': map<string, Option<nat>>, needed: nat, needed': nat)
    requires NoLess(ordered, total, total') && 0 < needed' <= needed
    requires forall s :: s in ordered ==> Get(avail, s).None? || Get(avail, s).value < needed'
    ensures NeverHolds(ordered, avail, total', Some(needed')) ==> NeverHolds(ordered, avail, total, Some(needed))
  {
    if NeverHolds(ordered, avail, total', Some(needed')) {
      forall s | s in ordered ensures Get(total, s).Some? && Get(total, s).value < needed {
        assert Get(total', s).Some?;
      }
    }
  }

  /** The first storage with room now; else wait if one could ever hold the guest. */
  method ChooseTargetStorage(ordered: seq<string>, avail: map<string, Option<nat>>, total: map<string, Option<nat>>,
                             needed: Option<nat>)
    returns (choice: Choice)
    requires ordered != []
    ensures needed.None? || needed.value == 0 ==> choice == Chosen(ordered[0])
    ensures needed.Some? && needed.value > 0 ==>
      (choice.Chosen? <==> exists s :: s in ordered && Get(avail, s).Some? && Get(avail, s).value >= needed.value)
    ensures needed.Some? && needed.value > 0 && choice.Chosen? ==> IsFirstWithRoom(ordered, avail, needed.value, choice.storage)
    ensures choice.TooBig? <==> NeverHolds(ordered, avail, total, needed)
    ensures choice.Wait? ==> choice.storage == ordered[0]
  {
    if !SizeKnown(needed) {
      return Chosen(ordered[0]);
    }
    for k := 0 to |ordered|
      invariant forall j :: 0 <= j < k ==> !HasRoom(avail, ordered[j], needed.value)
    {
      if HasRoom(avail, ordered[k], needed.value) {
        assert ordered[k] in ordered;
        return Chosen(ordered[k]);
      }
    }
    for k := 0 to |ordered|
      invariant forall j :: 0 <= j < k ==> !MayHold(total, ordered[j], needed.value)
    {
      if MayHold(total, ordered[k], needed.value) {
        assert ordered[k] in ordered;
        return Wait(ordered[0]);
      }
    }
    return TooBig;
  }

  // ---- placement in build_plan -----------------------------------------------

  /** The storages of `ordered` whose size is known, in order. */
  function KnownStorages(ordered: seq<string>, m: map<string, Option<nat>>): (r: seq<Storage>)
    ensures forall s :: s in r ==> s.name in ordered && Get(m, s.name) == Some(s.capacity)
    ensures forall n :: n in ordered && Get(m, n).Some? ==> Storage(n, Get(m, n).value) in r
    ensures (forall j, k :: 0 <= j < k < |ordered| ==> ordered[j] != ordered[k]) ==> UniqueNames(r)
  {
    if ordered == [] then []
    else
      var rest := KnownStorages(ordered[1..], m);
      assert forall n :: n in ordered ==> n == ordered[0] || n in ordered[1..];
      if Get(m, ordered[0]).Some? then [Storage(ordered[0], Get(m, ordered[0]).value)] + rest else rest
  }

  /** They stand in the operator's order. */
  lemma {:induction false} KnownInOrder(ordered: seq<string>, m: map<string, Option<nat>>)
    ensures forall j, k :: 0 <= j < k < |KnownStorages(ordered, m)| ==>
      StandsBefore(ordered, KnownStorages(ordered, m)[j].name, KnownStorages(ordered, m)[k].name)
  {
    if ordered != [] {
      var r, rest := KnownStorages(ordered, m), KnownStorages(ordered[1..], m);
      KnownInOrder(ordered[1..], m);
      forall j, k | 0 <= j < k < |r| ensures StandsBefore(ordered, r[j].name, r[k].name) {
        if Get(m, ordered[0]).None? {
          LaterStands(ordered, r[j].name, r[k].name);
        } else if j > 0 {
          assert r[j] == rest[j - 1] && r[k] == rest[k - 1];
          LaterStands(ordered, r[j].name, r[k].name);
        } else {
          assert r[k] in rest;
          var q :| 0 <= q < |ordered[1..]| && ordered[1..][q] == r[k].name;
          assert ordered[0] == r[0].name && ordered[q + 1] == r[k].name;
        }
      }
    }
  }

  ghost predicate StandsBefore(ordered: seq<string>, a: string, b: string) {
    exists p, q :: 0 <= p < q < |ordered| && ordered[p] == a && ordered[q] == b
  }

  lemma LaterStands(ordered: seq<string>, a: string, b: string)
    requires ordered != [] && StandsBefore(ordered[1..], a, b)
    ensures StandsBefore(ordered, a, b)
  {
    var p, q :| 0 <= p < q < |ordered[1..]| && ordered[1..][p] == a && ordered[1..][q] == b;
    assert ordered[p + 1] == a && ordered[q + 1] == b;
  }

  datatype Plan =
    | Whole(target: string)                        // the guest on one storage
    | Spread(target: string, diskTargets: Mapping) // disk by disk
    | Later(target: string)                        // planned, but no room right now
    | NotRunnable

  ghost predicate NoSpread(ordered: seq<string>, avail: map<string, Option<nat>>, total: map<string, Option<nat>>, disks: seq<Disk>) {
    disks == [] || (!Packable(disks, KnownStorages(ordered, avail)) && !Packable(disks, KnownStorages(ordered, total)))
  }

  /** The first fitting mapping, and the storage of the largest disk. */
  ghost predicate IsSpread(disks: seq<Disk>, storages: seq<Storage>, a: Mapping, target: string) {
    && a.Keys == Devs(disks) && Fits(disks, storages, a) && ComesFirst(disks, storages, a)
    && var order := SortDescending(disks); order != [] && order[0].dev in a && a[order[0].dev] == target
  }

  /** A guest too big for every single storage is spread when its disks can be packed,
      waits when only the capacities allow it, and is refused when nothing does. */
  method PlaceGuest(ordered: seq<string>, avail: map<string, Option<nat>>, total: map<string, Option<nat>>,
                    needed: Option<nat>, disks: seq<Disk>)
    returns (plan: Plan)
    requires ordered != [] && (forall j, k :: 0 <= j < k < |ordered| ==> ordered[j] != ordered[k]) && UniqueDevs(disks)
    ensures needed.None? || needed.value == 0 ==> plan.Whole?
    ensures needed.Some? && needed.value > 0 ==>
      (plan.Whole? <==> exists s :: s in ordered && Get(avail, s).Some? && Get(avail, s).value >= needed.value)
    ensures plan.Whole? ==> if needed.None? || needed.value == 0 then plan.target == ordered[0]
                            else IsFirstWithRoom(ordered, avail, needed.value, plan.target)
    ensures plan.Spread? <==> NeverHolds(ordered, avail, total, needed) && disks != [] && Packable(disks, KnownStorages(ordered, avail))
    ensures plan.Spread? ==> IsSpread(disks, KnownStorages(ordered, avail), plan.diskTargets, plan.target)
    ensures plan.Later? ==> plan.target == ordered[0]
    ensures plan.NotRunnable? <==> NeverHolds(ordered, avail, total, needed) && NoSpread(ordered, avail, total, disks)
  {
    var choice := ChooseTargetStorage(ordered, avail, total, needed);
    match choice
    case Chosen(s) =>
      plan := Whole(s);
    case Wait(s) => plan := Later(s);
    case TooBig =>
      var availOrd, totalOrd := KnownStorages(ordered, avail), KnownStorages(ordered, total);
      assert ordered[0] in ordered;
      if disks == [] || totalOrd == [] {
        return NotRunnable;
      }
      var decision, mapping := PlanDistribution(disks, availOrd, totalOrd);
      match decision {
        case Impossible => plan := NotRunnable;
        case Retry => plan := Later(ordered[0]);
        case Ok =>
          LargestIsADisk(disks);
          var largest := SortDescending(disks)[0].dev;
          assert largest in mapping.value;
          plan := Spread(mapping.value[largest], mapping.value);
      }
  }

  lemma LargestIsADisk(disks: seq<Disk>)
    requires disks != []
    ensures SortDescending(disks) != [] && SortDescending(disks)[0].dev in Devs(disks)
  {
    var order := SortDescending(disks);
    SortElements(disks);
    assert |multiset(order)| == |multiset(disks)|;
    assert order[0] in multiset(order) && order[0] in multiset(disks);
  }

  // ---- the drainer's disk check ----------------------------------------------

  /** `fits_disk` with its safety factor of 1.2; unknown or zero sizes fit. */
  predicate FitsFree(free: Option<nat>, needed: Option<nat>): (ok: bool)
    ensures free.None? || free.value == 0 || needed.None? || needed.value == 0 ==> ok
    ensures free.Some? && free.value > 0 && needed.Some? && needed.value > 0 ==> (ok <==> needed.value <= free.value * 5 / 6)
  {
    free.None? || free.value == 0 || needed.None? || needed.value == 0 || 5 * free.value >= 6 * needed.value
  }

  ghost function Targets(disks: seq<Disk>, a: Mapping): set<string> {
    set d | d in disks && d.dev in a :: a[d.dev]
  }

  /** The demand the check adds up per storage is exactly what the packing assigned. */
  method DiskDemand(disks: seq<Disk>, diskTargets: Mapping) returns (demand: map<string, nat>)
    ensures demand.Keys == Targets(disks, diskTargets)
    ensures forall name :: name in demand ==> demand[name] == Load(disks, diskTargets, name)
  {
    demand := map[];
    for k := 0 to |disks|
      invariant demand.Keys == Targets(disks[..k], diskTargets)
      invariant forall name :: name in demand ==> demand[name] == Load(disks[..k], diskTargets, name)
    {
      ghost var before := demand;
      if disks[k].dev in diskTargets {
        var storage := diskTargets[disks[k].dev];
        demand := demand[storage := (if storage in demand then demand[storage] else 0) + disks[k].size];
      }
      DemandStep(disks, diskTargets, k, before, demand);
    }
    assert disks[..|disks|] == disks;
  }

  lemma {:induction false} LoadSnoc(disks: seq<Disk>, d: Disk, a: Mapping, name: string)
    ensures Load(disks + [d], a, name) == Load(disks, a, name) + if d.dev in a && a[d.dev] == name then d.size else 0
  {
    if disks == [] {
      assert disks + [d] == [d];
    } else {
      LoadSnoc(disks[1..], d, a, name);
      assert (disks + [d])[1..] == disks[1..] + [d];
    }
  }

  lemma {:induction false} DemandStep(disks: seq<Disk>, a: Mapping, k: nat, before: map<string, nat>, after: map<string, nat>)
    requires k < |disks| && before.Keys == Targets(disks[..k], a)
    requires forall name :: name in before ==> before[name] == Load(disks[..k], a, name)
    requires after == if disks[k].dev !in a then before else
      before[a[disks[k].dev] := (if a[disks[k].dev] in before then before[a[disks[k].dev]] else 0) + disks[k].size]
    ensures after.Keys == Targets(disks[..k + 1], a)
    ensures forall name :: name in after ==> after[name] == Load(disks[..k + 1], a, name)
  {
    assert disks[..k + 1] == disks[..k] + [disks[k]];
    forall name | name in after ensures after[name] == Load(disks[..k + 1], a, name) {
      LoadSnoc(disks[..k], disks[k], a, name);
      if name !in before {
        UnusedLoad(disks[..k], a, name);
      }
    }
  }

  /** `_fits_disk` for a spread plan: every storage it uses has 20 % of headroom. */
  ghost predicate Startable(disks: seq<Disk>, diskTargets: Mapping, avail: map<string, Option<nat>>) {
    forall name :: name in Targets(disks, diskTargets) ==> FitsFree(Get(avail, name), Some(Load(disks, diskTargets, name)))
  }

  method FitsSpread(disks: seq<Disk>, diskTargets: Mapping, avail: map<string, Option<nat>>) returns (ok: bool)
    ensures ok <==> Startable(disks, diskTargets, avail)
  {
    var demand := DiskDemand(disks, diskTargets);
    ok := forall name :: name in demand ==> FitsFree(Get(avail, name), Some(demand[name]));
  }

  /** Free space reduced by the safety factor. */
  function Reduced(storages: seq<Storage>): seq<Storage> {
    if storages == [] then [] else [Storage(storages[0].name, storages[0].capacity * 5 / 6)] + Reduced(storages[1..])
  }

  lemma {:induction false} ReducedMember(storages: seq<Storage>, s: Storage)
    ensures s in storages ==> Storage(s.name, s.capacity * 5 / 6) in Reduced(storages)
  {
    if s in storages && storages[0] != s {
      ReducedMember(storages[1..], s);
    }
  }

  lemma {:induction false} ReducedOrigin(storages: seq<Storage>, r: Storage)
    ensures r in Reduced(storages) ==> exists s :: s in storages && r == Storage(s.name, s.capacity * 5 / 6)
  {
    if r in Reduced(storages) {
      if r == Storage(storages[0].name, storages[0].capacity * 5 / 6) {
        assert storages[0] in storages;
      } else {
        ReducedOrigin(storages[1..], r);
        var s :| s in storages[1..] && r == Storage(s.name, s.capacity * 5 / 6);
        assert s in storages;
      }
    }
  }

  lemma {:induction false} ReducedNames(storages: seq<Storage>)
    ensures Names(Reduced(storages)) == Names(storages)
    ensures UniqueNames(storages) ==> UniqueNames(Reduced(storages))
  {
    if storages != [] {
      ReducedNames(storages[1..]);
      assert Names(storages) == [storages[0].name] + Names(storages[1..]);
      assert Names(Reduced(storages)) == [storages[0].name] + Names(Reduced(storages)[1..]);
    }
    assert forall k :: 0 <= k < |storages| ==> Reduced(storages)[k].name == Names(Reduced(storages))[k] == storages[k].name;
  }

  /** A mapping that fits the free space passes the check exactly when it also fits five
      sixths of it. */
  lemma {:induction false} HeadroomStarts(disks: seq<Disk>, ordered: seq<string>, avail: map<string, Option<nat>>, a: Mapping)
    requires Fits(disks, KnownStorages(ordered, avail), a)
    ensures Startable(disks, a, avail) <==> Fits(disks, Reduced(KnownStorages(ordered, avail)), a)
  {
    var storages := KnownStorages(ordered, avail);
    if Fits(disks, Reduced(storages), a) {
      forall name | name in Targets(disks, a) ensures FitsFree(Get(avail, name), Some(Load(disks, a, name))) {
        var d :| d in disks && d.dev in a && a[d.dev] == name;
        var s :| s in storages && s.name == name;
        ReducedMember(storages, s);
      }
    }
    if Startable(disks, a, avail) {
      forall d | d in disks ensures d.dev in a && exists r :: r in Reduced(storages) && r.name == a[d.dev] {
        var s :| s in storages && s.name == a[d.dev];
        ReducedMember(storages, s);
      }
      forall r | r in Reduced(storages) ensures Load(disks, a, r.name) <= r.capacity {
        ReducedOrigin(storages, r);
        var s :| s in storages && r == Storage(s.name, s.capacity * 5 / 6);
        WithinReduced(disks, avail, a, s);
      }
    }
  }

  lemma WithinReduced(disks: seq<Disk>, avail: map<string, Option<nat>>, a: Mapping, s: Storage)
    requires Startable(disks, a, avail) && Get(avail, s.name) == Some(s.capacity) && Load(disks, a, s.name) <= s.capacity
    ensures Load(disks, a, s.name) <= s.capacity * 5 / 6
  {
    if s.name in Targets(disks, a) {
      assert FitsFree(Get(avail, s.name), Some(Load(disks, a, s.name)));
    } else {
      UnusedLoad(disks, a, s.name);
    }
  }

  /** Two first mappings of the same disks are the same. */
  lemma {:induction false} FirstIsUnique(disks: seq<Disk>, storages: seq<Storage>, a: Mapping, b: Mapping)
    requires UniqueNames(storages) && a.Keys == Devs(disks) && b.Keys == Devs(disks)
    requires Fits(disks, storages, a) && ComesFirst(disks, storages, a)
    requires Fits(disks, storages, b) && ComesFirst(disks, storages, b)
    ensures a == b
  {
    var order := SortDescending(disks);
    var c := FirstChoice(disks, storages, a);
    var d := FirstChoice(disks, storages, b);
    assert NotAfter(c, d) && NotAfter(d, c);
    SameChoice(c, d);
    SameMapping(disks, Names(storages), a, b, c);
  }

  lemma SameChoice(c: seq<nat>, d: seq<nat>)
    requires NotAfter(c, d) && NotAfter(d, c) && |c| == |d|
    ensures c == d
  {
  }

  /** A plan for one storage has the same gap: the storage chosen is the first with room,
      and the run starts if and only if that one has the headroom. Some storage would do
      exactly when five sixths of one hold the guest. */
  lemma WholeStarts(ordered: seq<string>, avail: map<string, Option<nat>>, needed: nat, s: string)
    requires needed > 0 && IsFirstWithRoom(ordered, avail, needed, s)
    ensures FitsFree(Get(avail, s), Some(needed)) <==> needed <= Get(avail, s).value * 5 / 6
    ensures (exists t :: t in ordered && HasRoom(avail, t, needed) && FitsFree(Get(avail, t), Some(needed)))
      <==> exists r :: r in Reduced(KnownStorages(ordered, avail)) && needed <= r.capacity
  {
    var storages := KnownStorages(ordered, avail);
    if t :| t in ordered && HasRoom(avail, t, needed) && FitsFree(Get(avail, t), Some(needed)) {
      ReducedMember(storages, Storage(t, Get(avail, t).value));
      assert Storage(t, Get(avail, t).value * 5 / 6) in Reduced(storages);
    }
    if r :| r in Reduced(storages) && needed <= r.capacity {
      ReducedOrigin(storages, r);
      var t :| t in storages && r == Storage(t.name, t.capacity * 5 / 6);
      assert t.name in ordered && HasRoom(avail, t.name, needed) && FitsFree(Get(avail, t.name), Some(needed));
    }
  }

  /** With 110 free on the first storage a guest of 100 waits, whatever a later one has. */
  lemma WholeMayWait(avail: map<string, Option<nat>>)
    requires avail == map["fast" := Some(110), "bulk" := Some(200)]
    ensures IsFirstWithRoom(["fast", "bulk"], avail, 100, "fast") && !FitsFree(Get(avail, "fast"), Some(100))
    ensures HasRoom(avail, "bulk", 100) && FitsFree(Get(avail, "bulk"), Some(100))
  {
    assert "fast"[0] != "bulk"[0];
    assert ["fast", "bulk"][0] == "fast";
  }

  /** What less space allows, more space allows too. */
  lemma ReducedFits(disks: seq<Disk>, storages: seq<Storage>, a: Mapping)
    requires UniqueNames(storages) && Fits(disks, Reduced(storages), a)
    ensures Fits(disks, storages, a)
  {
    forall d | d in disks ensures d.dev in a && exists s :: s in storages && s.name == a[d.dev] {
      var r :| r in Reduced(storages) && r.name == a[d.dev];
      ReducedOrigin(storages, r);
    }
    forall s | s in storages ensures Load(disks, a, s.name) <= s.capacity {
      ReducedMember(storages, s);
    }
  }

  /** The plan judged "ok" is the first mapping `a` by free space. It starts if and only
      if packing by five sixths of the free space gives the same mapping. */
  lemma {:induction false} OkStarts(disks: seq<Disk>, ordered: seq<string>, avail: map<string, Option<nat>>, a: Mapping, r: Option<Mapping>)
    requires UniqueDevs(disks) && UniqueNames(KnownStorages(ordered, avail)) && a.Keys == Devs(disks)
    requires Fits(disks, KnownStorages(ordered, avail), a) && ComesFirst(disks, KnownStorages(ordered, avail), a)
    requires IsPacking(disks, Reduced(KnownStorages(ordered, avail)), r)
    ensures Startable(disks, a, avail) <==> r == Some(a)
  {
    var storages := KnownStorages(ordered, avail);
    var reduced := Reduced(storages);
    HeadroomStarts(disks, ordered, avail, a);
    ReducedNames(storages);
    if Fits(disks, reduced, a) {
      assert Packable(disks, reduced);
      forall b, c, d | Fits(disks, reduced, b) && IsChoiceOf(SortDescending(disks), Names(reduced), a, c)
                       && IsChoiceOf(SortDescending(disks), Names(reduced), b, d)
        ensures NotAfter(c, d)
      {
        ReducedFits(disks, storages, b);
      }
      FirstIsUnique(disks, reduced, a, r.value);
    }
  }

  /** Some mapping passes both checks exactly when five sixths of the space allow a packing. */
  lemma SomeMappingStarts(disks: seq<Disk>, ordered: seq<string>, avail: map<string, Option<nat>>)
    requires UniqueNames(KnownStorages(ordered, avail))
    ensures (exists a :: Fits(disks, KnownStorages(ordered, avail), a) && Startable(disks, a, avail))
      <==> Packable(disks, Reduced(KnownStorages(ordered, avail)))
  {
    var storages := KnownStorages(ordered, avail);
    if Packable(disks, Reduced(storages)) {
      var a :| Fits(disks, Reduced(storages), a);
      ReducedFits(disks, storages, a);
      HeadroomStarts(disks, ordered, avail, a);
    }
    if a :| Fits(disks, storages, a) && Startable(disks, a, avail) {
      HeadroomStarts(disks, ordered, avail, a);
    }
  }

  /** What `pack_disks` returns. */
  ghost predicate IsPacking(disks: seq<Disk>, storages: seq<Storage>, r: Option<Mapping>) {
    && (r.Some? <==> Packable(disks, storages))
    && (r.Some? ==> Fits(disks, storages, r.value) && ComesFirst(disks, storages, r.value) && r.value.Keys == Devs(disks))
  }

  /** A single disk fits the first storage with room, and that mapping comes first. */
  lemma OneDisk(d: Disk, storages: seq<Storage>, a: Mapping, k: nat)
    requires UniqueNames(storages) && k < |storages| && d.size <= storages[k].capacity && a == map[d.dev := storages[k].name]
    ensures Fits([d], storages, a) && (k == 0 ==> ComesFirst([d], storages, a))
    ensures Load([d], a, storages[k].name) == d.size
  {
    assert [d][1..] == [] && SortDescending([d]) == [d];
    forall s | s in storages ensures Load([d], a, s.name) <= s.capacity {
      var i :| 0 <= i < |storages| && storages[i] == s;
    }
    assert storages[k] in storages;
  }

  /** The gap is real: an "ok" plan stays queued although another mapping of the same
      disk would start. */
  lemma OkMayNotStart(d: Disk, avail: map<string, Option<nat>>, a: Mapping, b: Mapping)
    requires d == Disk("scsi0", 100) && avail == map["fast" := Some(110), "bulk" := Some(200)]
    requires a == map["scsi0" := "fast"] && b == map["scsi0" := "bulk"]
    ensures var storages := KnownStorages(["fast", "bulk"], avail);
      Fits([d], storages, a) && ComesFirst([d], storages, a) && !Startable([d], a, avail) && Fits([d], storages, b) && Startable([d], b, avail)
  {
    TwoStorages(avail);
    hide KnownStorages, Fits, ComesFirst, Load;
    var storages := [Storage("fast", 110), Storage("bulk", 200)];
    assert "fast"[0] != "bulk"[0];
    OneDisk(d, storages, a, 0);
    OneDisk(d, storages, b, 1);
    assert d in [d] && "fast" in Targets([d], a);
  }

  lemma TwoStorages(avail: map<string, Option<nat>>)
    requires avail == map["fast" := Some(110), "bulk" := Some(200)]
    ensures KnownStorages(["fast", "bulk"], avail) == [Storage("fast", 110), Storage("bulk", 200)]
  {
    assert ["fast", "bulk"][1..] == ["bulk"] && ["bulk"][1..] == [];
    assert KnownStorages(["bulk"], avail) == [Storage("bulk", 200)];
  }
}
