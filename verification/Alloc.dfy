/** Allocating a restore environment's resources (app/services/restore_alloc.py).
    Management addresses are given as numbers, as the source enumerates them. */
module Alloc {
  import opened Wrappers

  datatype Config = Config(vmidFrom: int, vmidTo: int, vlanFrom: int, vlanTo: int, ipFrom: int, ipTo: int)

  datatype Allocation = Allocation(restoreVmid: int, helperVmid: int, vlanTag: int, mgmtIp: int)

  // What a run row records of its environment.
  datatype Env = Env(restoreVmid: Option<int>, helperVmid: Option<int>, vlanTag: Option<int>, mgmtIp: Option<int>)

  function Elem<T>(o: Option<T>): set<T> {
    if o.Some? then {o.value} else {}
  }

  function VmidsOf(e: Env): set<int> {
    Elem(e.restoreVmid) + Elem(e.helperVmid)
  }

  predicate InUse(owned: seq<Env>, v: int) {
    exists k :: 0 <= k < |owned| && v in VmidsOf(owned[k])
  }

  predicate TagInUse(owned: seq<Env>, t: int) {
    exists k :: 0 <= k < |owned| && owned[k].vlanTag == Some(t)
  }

  predicate IpInUse(owned: seq<Env>, ip: int) {
    exists k :: 0 <= k < |owned| && owned[k].mgmtIp == Some(ip)
  }

  // ---- scans for the lowest free values ------------------------------------------

  /** `_lowest_free` */
  method LowestFree(first: int, last: int, inUse: set<int>) returns (r: Option<int>)
    ensures r.None? <==> forall v :: first <= v <= last ==> v in inUse
    ensures r.Some? ==> first <= r.value <= last && r.value !in inUse && forall v :: first <= v < r.value ==> v in inUse
  {
    var c := first;
    while c <= last
      invariant first <= c && forall v :: first <= v < c ==> v in inUse
      decreases last - c
    {
      if c !in inUse {
        return Some(c);
      }
      c := c + 1;
    }
    return None;
  }

  /** `_two_lowest_free` */
  method TwoLowestFree(first: int, last: int, inUse: set<int>) returns (r: Option<(int, int)>)
    ensures r.None? <==> !exists a, b :: TwoFree(first, last, inUse, a, b)
    ensures r.Some? ==> TwoFree(first, last, inUse, r.value.0, r.value.1)
    ensures r.Some? ==> forall v :: first <= v < r.value.1 && v != r.value.0 ==> v in inUse
  {
    var picked: seq<int> := [];
    var c := first;
    while c <= last
      invariant first <= c && |picked| <= 1
      invariant forall v :: first <= v < c && v !in inUse ==> v in picked
      invariant |picked| == 1 ==> first <= picked[0] < c && picked[0] !in inUse && picked[0] <= last
      decreases last - c
    {
      if c !in inUse {
        picked := picked + [c];
        if |picked| == 2 {
          assert TwoFree(first, last, inUse, picked[0], picked[1]);
          return Some((picked[0], picked[1]));
        }
      }
      c := c + 1;
    }
    assert forall a, b :: TwoFree(first, last, inUse, a, b) ==> a in picked && b in picked && a < b;
    return None;
  }

  predicate TwoFree(first: int, last: int, inUse: set<int>, a: int, b: int) {
    first <= a < b <= last && a !in inUse && b !in inUse
  }

  // ---- allocate ------------------------------------------------------------------

  /** Two VMIDs, a tag and an address in range that no live run has. */
  ghost predicate Free(cfg: Config, owned: seq<Env>, a: Allocation) {
    && cfg.vmidFrom <= a.restoreVmid < a.helperVmid <= cfg.vmidTo
    && !InUse(owned, a.restoreVmid) && !InUse(owned, a.helperVmid)
    && cfg.vlanFrom <= a.vlanTag <= cfg.vlanTo && !TagInUse(owned, a.vlanTag)
    && cfg.ipFrom <= a.mgmtIp <= cfg.ipTo && !IpInUse(owned, a.mgmtIp)
  }

  predicate NoneLower(a: Allocation, b: Allocation) {
    a.restoreVmid <= b.restoreVmid && a.helperVmid <= b.helperVmid && a.vlanTag <= b.vlanTag && a.mgmtIp <= b.mgmtIp
  }

  /** An allocation is refused exactly when there is none, and it is the lowest one. */
  method Allocate(cfg: Config, owned: seq<Env>) returns (r: Option<Allocation>)
    ensures r.None? <==> !exists a :: Free(cfg, owned, a)
    ensures r.Some? ==> Free(cfg, owned, r.value)
    ensures r.Some? ==> forall a :: Free(cfg, owned, a) ==> NoneLower(r.value, a)
  {
    var inUseVmids := set k, v | 0 <= k < |owned| && v in VmidsOf(owned[k]) :: v;
    var inUseTags := set k | 0 <= k < |owned| && owned[k].vlanTag.Some? :: owned[k].vlanTag.value;
    var inUseIps := set k | 0 <= k < |owned| && owned[k].mgmtIp.Some? :: owned[k].mgmtIp.value;
    assert forall v :: v in inUseVmids <==> InUse(owned, v);
    assert forall v :: v in inUseTags <==> TagInUse(owned, v);
    assert forall v :: v in inUseIps <==> IpInUse(owned, v);
    var vmids := TwoLowestFree(cfg.vmidFrom, cfg.vmidTo, inUseVmids);
    if vmids.None? {
      assert forall a :: Free(cfg, owned, a) ==> TwoFree(cfg.vmidFrom, cfg.vmidTo, inUseVmids, a.restoreVmid, a.helperVmid);
      return None;
    }
    var vlan := LowestFree(cfg.vlanFrom, cfg.vlanTo, inUseTags);
    if vlan.None? {
      return None;
    }
    var mgmt := LowestFree(cfg.ipFrom, cfg.ipTo, inUseIps);
    if mgmt.None? {
      return None;
    }
    r := Some(Allocation(vmids.value.0, vmids.value.1, vlan.value, mgmt.value));
    assert Free(cfg, owned, r.value);
  }
}
