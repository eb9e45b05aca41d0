/** The reasons the source gives for an impossible distribution
    (app/services/restore_orchestrator.py): a disk larger than every storage, or more
    data than the storages hold together. When are they the whole story? */
module Reasons {
  import opened Pack

  function TotalSize(disks: seq<Disk>): nat {
    if disks == [] then 0 else disks[0].size + TotalSize(disks[1..])
  }

  function TotalCapacity(storages: seq<Storage>): nat {
    if storages == [] then 0 else storages[0].capacity + TotalCapacity(storages[1..])
  }

  ghost function TotalLoad(disks: seq<Disk>, storages: seq<Storage>, a: Mapping): nat {
    if storages == [] then 0 else Load(disks, a, storages[0].name) + TotalLoad(disks, storages[1..], a)
  }

  lemma {:induction false} TotalLoadStep(disks: seq<Disk>, storages: seq<Storage>, a: Mapping)
    requires disks != [] && disks[0].dev in a && UniqueNames(storages)
    ensures (exists s :: s in storages && s.name == a[disks[0].dev])
      ==> TotalLoad(disks, storages, a) == TotalLoad(disks[1..], storages, a) + disks[0].size
    ensures !(exists s :: s in storages && s.name == a[disks[0].dev])
      ==> TotalLoad(disks, storages, a) == TotalLoad(disks[1..], storages, a)
  {
    if storages != [] {
      var rest := storages[1..];
      TotalLoadStep(disks, rest, a);
      assert storages == [storages[0]] + rest;
      assert forall s :: s in rest ==> s.name != storages[0].name;
    }
  }

  lemma {:induction false} NoDisksNoLoad(storages: seq<Storage>, a: Mapping)
    ensures TotalLoad([], storages, a) == 0
  {
    if storages != [] {
      NoDisksNoLoad(storages[1..], a);
    }
  }

  lemma {:induction false} TotalLoadIsSize(disks: seq<Disk>, storages: seq<Storage>, a: Mapping)
    requires UniqueNames(storages)
    requires forall d :: d in disks ==> d.dev in a && exists s :: s in storages && s.name == a[d.dev]
    ensures TotalLoad(disks, storages, a) == TotalSize(disks)
  {
    if disks == [] {
      NoDisksNoLoad(storages, a);
    } else {
      assert disks[0] in disks && forall d :: d in disks[1..] ==> d in disks;
      TotalLoadStep(disks, storages, a);
      TotalLoadIsSize(disks[1..], storages, a);
    }
  }

  lemma {:induction false} LoadsWithinCapacity(disks: seq<Disk>, storages: seq<Storage>, a: Mapping)
    requires forall s :: s in storages ==> Load(disks, a, s.name) <= s.capacity
    ensures TotalLoad(disks, storages, a) <= TotalCapacity(storages)
  {
    if storages != [] {
      assert storages[0] in storages && forall s :: s in storages[1..] ==> s in storages;
      LoadsWithinCapacity(disks, storages[1..], a);
    }
  }

  lemma {:induction false} LoadOfMember(disks: seq<Disk>, a: Mapping, d: Disk)
    requires d in disks && d.dev in a
    ensures Load(disks, a, a[d.dev]) >= d.size
  {
    if disks[0] != d {
      LoadOfMember(disks[1..], a, d);
    }
  }

  /** Both reasons given for "impossible" do rule a packing out .. */
  lemma {:induction false} ReasonsAreSufficient(disks: seq<Disk>, storages: seq<Storage>)
    requires UniqueNames(storages) && Packable(disks, storages)
    ensures forall d :: d in disks ==> exists s :: s in storages && d.size <= s.capacity
    ensures TotalSize(disks) <= TotalCapacity(storages)
  {
    var a :| Fits(disks, storages, a);
    forall d | d in disks ensures exists s :: s in storages && d.size <= s.capacity {
      var s :| s in storages && s.name == a[d.dev];
      LoadOfMember(disks, a, d);
    }
    TotalLoadIsSize(disks, storages, a);
    LoadsWithinCapacity(disks, storages, a);
  }

  /** The reasons: neither says that a packing exists. */
  ghost predicate NoReason(disks: seq<Disk>, storages: seq<Storage>) {
    && (forall d :: d in disks ==> exists s :: s in storages && d.size <= s.capacity)
    && TotalSize(disks) <= TotalCapacity(storages)
  }

  // ---- placing one disk after the other -------------------------------------------

  function Filled(storages: seq<Storage>, k: nat, size: nat): seq<Storage>
    requires k < |storages| && size <= storages[k].capacity
  {
    storages[k := Storage(storages[k].name, storages[k].capacity - size)]
  }

  lemma {:induction false} LoadWithout(disks: seq<Disk>, a: Mapping, dev: string, target: string, name: string)
    requires forall d :: d in disks ==> d.dev != dev
    ensures Load(disks, a[dev := target], name) == Load(disks, a, name)
  {
    if disks != [] {
      assert disks[0] in disks && forall d :: d in disks[1..] ==> d in disks;
      LoadWithout(disks[1..], a, dev, target, name);
    }
  }

  lemma {:induction false} PutFirst(disks: seq<Disk>, storages: seq<Storage>, k: nat, a: Mapping)
    requires disks != [] && UniqueDevs(disks) && UniqueNames(storages)
    requires k < |storages| && disks[0].size <= storages[k].capacity
    requires Fits(disks[1..], Filled(storages, k, disks[0].size), a)
    ensures Fits(disks, storages, a[disks[0].dev := storages[k].name])
  {
    var first, rest, filled := disks[0], disks[1..], Filled(storages, k, disks[0].size);
    var b := a[first.dev := storages[k].name];
    forall d | d in rest ensures d.dev != first.dev {
      var i :| 0 <= i < |rest| && rest[i] == d;
    }
    forall d | d in disks ensures d.dev in b && exists s :: s in storages && s.name == b[d.dev] {
      if d.dev == first.dev {
        assert storages[k] in storages;
      } else {
        assert d in rest;
        var s :| s in filled && s.name == a[d.dev];
        var i :| 0 <= i < |filled| && filled[i] == s;
        assert storages[i] in storages;
      }
    }
    forall s | s in storages ensures Load(disks, b, s.name) <= s.capacity {
      var i :| 0 <= i < |storages| && storages[i] == s;
      LoadWithout(rest, a, first.dev, storages[k].name, s.name);
      assert filled[i] in filled;
    }
  }

  lemma {:induction false} FilledCapacity(storages: seq<Storage>, k: nat, size: nat)
    requires k < |storages| && size <= storages[k].capacity
    ensures TotalCapacity(Filled(storages, k, size)) == TotalCapacity(storages) - size
  {
    if k > 0 {
      FilledCapacity(storages[1..], k - 1, size);
      assert Filled(storages, k, size)[1..] == Filled(storages[1..], k - 1, size);
    } else {
      assert Filled(storages, k, size)[1..] == storages[1..];
    }
  }

  lemma FilledUnique(storages: seq<Storage>, k: nat, size: nat)
    requires UniqueNames(storages) && k < |storages| && size <= storages[k].capacity
    ensures UniqueNames(Filled(storages, k, size)) && |Filled(storages, k, size)| == |storages|
  {
  }

  // ---- enough slack ---------------------------------------------------------------

  ghost predicate NoLarger(disks: seq<Disk>, m: nat) {
    forall d :: d in disks ==> d.size <= m
  }

  /** With this much space, some storage has room for `size`. */
  lemma {:induction false} SomeRoom(storages: seq<Storage>, size: nat) returns (k: nat)
    requires storages != [] && TotalCapacity(storages) >= |storages| * size
    ensures k < |storages| && storages[k].capacity >= size
  {
    if storages[0].capacity >= size || |storages| == 1 {
      assert |storages| == 1 ==> TotalCapacity(storages[1..]) == 0;
      k := 0;
    } else {
      assert |storages| * size == size + (|storages| - 1) * size;
      k := SomeRoom(storages[1..], size);
      k := k + 1;
    }
  }

  /** If the storages hold everything and once more the largest disk for each storage
      but one, every list of disks can be packed. */
  lemma {:induction false} SlackPacks(disks: seq<Disk>, storages: seq<Storage>, m: nat)
    requires UniqueDevs(disks) && UniqueNames(storages) && storages != [] && NoLarger(disks, m)
    requires TotalCapacity(storages) >= TotalSize(disks) + (|storages| - 1) * m
    ensures Packable(disks, storages)
    decreases |disks|
  {
    if disks == [] {
      assert Fits(disks, storages, map[]);
    } else {
      var size := disks[0].size;
      assert disks[0] in disks && forall d :: d in disks[1..] ==> d in disks;
      Times(|storages| - 1, size, m);
      assert |storages| * size == size + (|storages| - 1) * size;
      var k := SomeRoom(storages, size);
      FilledCapacity(storages, k, size);
      FilledUnique(storages, k, size);
      SlackPacks(disks[1..], Filled(storages, k, size), m);
      var a :| Fits(disks[1..], Filled(storages, k, size), a);
      PutFirst(disks, storages, k, a);
    }
  }

  lemma Times(n: nat, x: nat, y: nat)
    requires x <= y
    ensures n * x <= n * y
  {
    assert n * (y - x) >= 0;
  }

  lemma {:induction false} SizesWithinTotal(disks: seq<Disk>)
    ensures NoLarger(disks, TotalSize(disks))
  {
    if disks != [] {
      SizesWithinTotal(disks[1..]);
      assert forall d :: d in disks ==> d == disks[0] || d in disks[1..];
    }
  }

  /** On one storage the reasons are exact. */
  lemma {:induction false} OneStorage(disks: seq<Disk>, storage: Storage)
    requires UniqueDevs(disks)
    ensures Packable(disks, [storage]) <==> NoReason(disks, [storage])
    ensures Packable(disks, [storage]) <==> TotalSize(disks) <= storage.capacity
  {
    assert [storage][1..] == [] && TotalCapacity([storage]) == storage.capacity;
    if Packable(disks, [storage]) {
      ReasonsAreSufficient(disks, [storage]);
    }
    if TotalSize(disks) <= storage.capacity {
      SizesWithinTotal(disks);
      SlackPacks(disks, [storage], TotalSize(disks));
    }
  }

  // ---- disks of one size ----------------------------------------------------------

  ghost predicate AllOfSize(disks: seq<Disk>, z: nat) {
    forall d :: d in disks ==> d.size == z
  }

  /** How many disks of size `z` the storages hold. */
  function Slots(storages: seq<Storage>, z: nat): nat
    requires z > 0
  {
    if storages == [] then 0 else storages[0].capacity / z + Slots(storages[1..], z)
  }

  lemma {:induction false} SomeSlot(storages: seq<Storage>, z: nat) returns (k: nat)
    requires z > 0 && Slots(storages, z) > 0
    ensures k < |storages| && storages[k].capacity >= z
  {
    if storages[0].capacity >= z {
      k := 0;
    } else {
      assert storages[0].capacity / z == 0;
      k := SomeSlot(storages[1..], z);
      k := k + 1;
    }
  }

  lemma Division(x: nat, z: nat)
    requires z > 0
    ensures z * (x / z) <= x < z * (x / z) + z
  {
  }

  lemma OneMore(z: nat, c: nat)
    ensures z * (c + 1) == z * c + z
  {
  }

  /** `c` times `z` fits into `x` exactly when `c` is at most the quotient. */
  lemma Multiple(x: nat, z: nat, c: nat)
    requires z > 0
    ensures z * c <= x <==> c <= x / z
  {
    Division(x, z);
    if c > x / z {
      Times(z, x / z + 1, c);
      OneMore(z, x / z);
    } else {
      Times(z, c, x / z);
    }
  }

  lemma OneSlotLess(x: nat, z: nat)
    requires x >= z > 0
    ensures (x - z) / z == x / z - 1
  {
    var q := (x - z) / z;
    Division(x - z, z);
    OneMore(z, q);
    OneMore(z, q + 1);
    Multiple(x, z, q + 1);
    Multiple(x, z, q + 2);
  }

  lemma {:induction false} FilledSlots(storages: seq<Storage>, k: nat, z: nat)
    requires z > 0 && k < |storages| && z <= storages[k].capacity
    ensures Slots(Filled(storages, k, z), z) == Slots(storages, z) - 1
  {
    if k > 0 {
      FilledSlots(storages[1..], k - 1, z);
      assert Filled(storages, k, z)[1..] == Filled(storages[1..], k - 1, z);
    } else {
      assert Filled(storages, k, z)[1..] == storages[1..];
      OneSlotLess(storages[0].capacity, z);
    }
  }

  lemma {:induction false} SlotsPack(disks: seq<Disk>, storages: seq<Storage>, z: nat)
    requires UniqueDevs(disks) && UniqueNames(storages) && z > 0 && AllOfSize(disks, z) && |disks| <= Slots(storages, z)
    ensures Packable(disks, storages)
    decreases |disks|
  {
    if disks == [] {
      assert Fits(disks, storages, map[]);
    } else {
      assert disks[0] in disks && forall d :: d in disks[1..] ==> d in disks;
      var k := SomeSlot(storages, z);
      FilledSlots(storages, k, z);
      FilledUnique(storages, k, z);
      SlotsPack(disks[1..], Filled(storages, k, z), z);
      var a :| Fits(disks[1..], Filled(storages, k, z), a);
      PutFirst(disks, storages, k, a);
    }
  }

  /** A storage's load is a number of disks, at most its slots. */
  lemma {:induction false} LoadCounts(disks: seq<Disk>, a: Mapping, name: string, z: nat) returns (c: nat)
    requires AllOfSize(disks, z)
    ensures Load(disks, a, name) == z * c
  {
    if disks == [] {
      c := 0;
    } else {
      assert disks[0] in disks && forall d :: d in disks[1..] ==> d in disks;
      c := LoadCounts(disks[1..], a, name, z);
      if disks[0].dev in a && a[disks[0].dev] == name {
        OneMore(z, c);
        c := c + 1;
      }
    }
  }

  lemma SlotsStep(storages: seq<Storage>, z: nat, c: nat)
    requires z > 0 && storages != [] && z * c <= storages[0].capacity
    ensures z * c + z * Slots(storages[1..], z) <= z * Slots(storages, z)
  {
    var first, rest := storages[0].capacity / z, Slots(storages[1..], z);
    Multiple(storages[0].capacity, z, c);
    Times(z, c, first);
    Distribute(z, first, rest);
  }

  lemma Distribute(z: nat, x: nat, y: nat)
    ensures z * (x + y) == z * x + z * y
  {
  }

  lemma {:induction false} LoadsWithinSlots(disks: seq<Disk>, storages: seq<Storage>, a: Mapping, z: nat)
    requires z > 0 && AllOfSize(disks, z) && forall s :: s in storages ==> Load(disks, a, s.name) <= s.capacity
    ensures TotalLoad(disks, storages, a) <= z * Slots(storages, z)
  {
    if storages != [] {
      assert storages[0] in storages && forall s :: s in storages[1..] ==> s in storages;
      LoadsWithinSlots(disks, storages[1..], a, z);
      var c := LoadCounts(disks, a, storages[0].name, z);
      SlotsStep(storages, z, c);
    }
  }

  lemma {:induction false} TotalOfSize(disks: seq<Disk>, z: nat)
    requires AllOfSize(disks, z)
    ensures TotalSize(disks) == z * |disks|
  {
    if disks != [] {
      assert disks[0] in disks && forall d :: d in disks[1..] ==> d in disks;
      TotalOfSize(disks[1..], z);
      OneMore(z, |disks[1..]|);
    }
  }

  lemma Cancel(z: nat, x: nat, y: nat)
    requires z > 0 && z * x <= z * y
    ensures x <= y
  {
    if x > y {
      Times(z, y + 1, x);
      OneMore(z, y);
    }
  }

  /** Disks of one size can be packed exactly when the storages have slots for them all. */
  lemma {:induction false} EqualSizes(disks: seq<Disk>, storages: seq<Storage>, z: nat)
    requires UniqueDevs(disks) && UniqueNames(storages) && z > 0 && AllOfSize(disks, z)
    ensures Packable(disks, storages) <==> |disks| <= Slots(storages, z)
  {
    if Packable(disks, storages) {
      var a :| Fits(disks, storages, a);
      TotalLoadIsSize(disks, storages, a);
      LoadsWithinSlots(disks, storages, a, z);
      TotalOfSize(disks, z);
      Cancel(z, |disks|, Slots(storages, z));
    }
    if |disks| <= Slots(storages, z) {
      SlotsPack(disks, storages, z);
    }
  }

  // ---- what "impossible" means ------------------------------------------------------

  /** When the verdict is "impossible", a reason holds if there is one storage; with
      several, at least the slack is missing. */
  lemma ImpossibleMeans(disks: seq<Disk>, avail: seq<Storage>, total: seq<Storage>, m: nat)
    requires UniqueDevs(disks) && UniqueNames(total) && total != [] && NoLarger(disks, m)
    requires Verdict(disks, avail, total) == Impossible
    ensures TotalCapacity(total) < TotalSize(disks) + (|total| - 1) * m
    ensures |total| == 1 ==> !NoReason(disks, total)
  {
    if TotalCapacity(total) >= TotalSize(disks) + (|total| - 1) * m {
      SlackPacks(disks, total, m);
    }
    if |total| == 1 {
      assert total == [total[0]];
      OneStorage(disks, total[0]);
    }
  }

  /** The reasons are not the only ones: three disks of 60 do not fit two storages of 100,
      though every disk fits one and together they need 180 of 200. */
  lemma ReasonsAreNotNecessary()
    ensures var disks := [Disk("scsi0", 60), Disk("scsi1", 60), Disk("scsi2", 60)];
      var storages := [Storage("fast", 100), Storage("bulk", 100)];
      NoReason(disks, storages) && !Packable(disks, storages)
  {
    var disks := [Disk("scsi0", 60), Disk("scsi1", 60), Disk("scsi2", 60)];
    var storages := [Storage("fast", 100), Storage("bulk", 100)];
    TotalOfSize(disks, 60);
    TwoSlots(storages[0], storages[1]);
    assert storages[0] in storages;
    assert "scsi0"[4] != "scsi1"[4] && "scsi0"[4] != "scsi2"[4] && "scsi1"[4] != "scsi2"[4] && "fast"[0] != "bulk"[0];
    EqualSizes(disks, storages, 60);
  }

  lemma TwoSlots(a: Storage, b: Storage)
    requires a.capacity == 100 && b.capacity == 100
    ensures TotalCapacity([a, b]) == 200 && Slots([a, b], 60) == 2
  {
    assert [b][1..] == [] && [a, b][1..] == [b];
    assert TotalCapacity([b]) == 100 && Slots([b], 60) == 100 / 60 == 1;
  }
}
