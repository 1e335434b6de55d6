/** The router as it is written: budgets updated device by device (src/gpu/gpu_router.cpp). */
module GpuRouter {
  import opened Words
  import opened Sums
  import opened KvCache
  import opened Routing

  lemma ShiftNone(budgets: seq<Budget>, reserved: int, used: int)
    ensures Shift(budgets, [], reserved, used) == budgets
  {
  }

  lemma ShiftOne(budgets: seq<Budget>, i: nat, reserved: int, used: int)
    requires DistinctDevices(budgets) && i < |budgets|
    ensures Shift(budgets, [budgets[i].device], reserved, used)
      == budgets[i := budgets[i].(reserved := Wrap(budgets[i].reserved + reserved),
                                  used := Wrap(budgets[i].used + used))]
  {
  }

  /** Shifting a list of distinct devices is shifting them one after the other. */
  lemma ShiftMore(budgets: seq<Budget>, devices: seq<DeviceId>, d: DeviceId, reserved: int, used: int)
    requires d !in devices
    ensures Shift(Shift(budgets, devices, reserved, used), [d], reserved, used)
      == Shift(budgets, devices + [d], reserved, used)
  {
  }

  lemma ShiftKeepsDevices(budgets: seq<Budget>, devices: seq<DeviceId>, reserved: int, used: int)
    requires DistinctDevices(budgets)
    ensures DistinctDevices(Shift(budgets, devices, reserved, used))
  {
    var after := Shift(budgets, devices, reserved, used);
    assert forall i :: 0 <= i < |budgets| ==> after[i].device == budgets[i].device;
  }

  class Router {
    const topology: Topology
    var budgets: seq<Budget>
    var roundRobin: nat

    /** `initialize_budgets`: one empty budget for each device. */
    constructor (topology: Topology, memoryPerDevice: nat)
      ensures this.topology == topology && roundRobin == 0
      ensures |budgets| == |topology.devices|
      ensures forall i :: 0 <= i < |budgets| ==> budgets[i] == Budget(topology.devices[i], memoryPerDevice, 0, 0)
    {
      this.topology := topology;
      roundRobin := 0;
      budgets := [];
      new;
      for i := 0 to |topology.devices|
        invariant |budgets| == i && roundRobin == 0
        invariant forall j :: 0 <= j < i ==> budgets[j] == Budget(topology.devices[j], memoryPerDevice, 0, 0)
      {
        budgets := budgets + [Budget(topology.devices[i], memoryPerDevice, 0, 0)];
      }
    }

    method Route(contextLength: nat) returns (d: Decision)
      modifies this`roundRobin
      ensures d == Routing.Route(topology, budgets, old(roundRobin), contextLength)
      ensures roundRobin == old(roundRobin) + if d.strategy.PerRequest? then 1 else 0
    {
      match Recommend(topology, contextLength)
      case PerRequest =>
        var best := SelectDevice(topology, roundRobin);
        roundRobin := roundRobin + 1;
        ghost var fallback := best;
        var available := 0;
        for i := 0 to |budgets|
          invariant (best, available) == Best(budgets[..i], fallback)
        {
          assert budgets[..i + 1][..i] == budgets[..i];
          if budgets[i].Available() > available {
            available := budgets[i].Available();
            best := budgets[i].device;
          }
        }
        assert budgets[..|budgets|] == budgets;
        return Decision(PerRequest, [best]);
      case strategy =>
        return Decision(strategy, topology.devices);
    }

    method CanPlace(contextLength: nat, totalBytes: nat, perDeviceBytes: nat) returns (fits: bool)
      requires Recommend(topology, contextLength).TensorParallel? && perDeviceBytes == 0 ==> budgets != []
      ensures fits == Routing.CanPlace(topology, budgets, contextLength, totalBytes, perDeviceBytes)
      ensures fits <==>
        if contextLength > topology.threshold && |topology.devices| >= 2 then
          forall i :: 0 <= i < |budgets| ==>
            budgets[i].CanFit(if perDeviceBytes > 0 then perDeviceBytes else totalBytes / |budgets|)
        else exists i :: 0 <= i < |budgets| && budgets[i].CanFit(totalBytes)
    {
      if Recommend(topology, contextLength).TensorParallel? {
        var share := if perDeviceBytes > 0 then perDeviceBytes else totalBytes / |budgets|;
        for i := 0 to |budgets|
          invariant forall j :: 0 <= j < i ==> budgets[j].CanFit(share)
        {
          if !budgets[i].CanFit(share) {
            return false;
          }
        }
        return true;
      } else {
        for i := 0 to |budgets|
          invariant forall j :: 0 <= j < i ==> !budgets[j].CanFit(totalBytes)
        {
          if budgets[i].CanFit(totalBytes) {
            return true;
          }
        }
        return false;
      }
    }

    /** The inner loop: the first budget of the device, if any. */
    method Bump(device: DeviceId, reserved: int, used: int)
      requires DistinctDevices(budgets)
      modifies this`budgets
      ensures budgets == Shift(old(budgets), [device], reserved, used)
    {
      for i := 0 to |budgets|
        invariant budgets == old(budgets)
        invariant forall j :: 0 <= j < i ==> budgets[j].device != device
      {
        var b := budgets[i];
        if b.device == device {
          ShiftOne(budgets, i, reserved, used);
          budgets := budgets[i := b.(reserved := Wrap(b.reserved + reserved), used := Wrap(b.used + used))];
          return;
        }
      }
      assert Shift(budgets, [device], reserved, used) == budgets;
    }

    /** The outer loop of `reserve`, `commit`, `unreserve` and `free`. */
    method BumpAll(devices: seq<DeviceId>, reserved: int, used: int)
      requires DistinctDevices(budgets) && Distinct(devices)
      modifies this`budgets
      ensures budgets == Shift(old(budgets), devices, reserved, used) && DistinctDevices(budgets)
    {
      DistinctMeaning(devices);
      ShiftNone(budgets, reserved, used);
      for i := 0 to |devices|
        invariant budgets == Shift(old(budgets), devices[..i], reserved, used) && DistinctDevices(budgets)
      {
        assert devices[i] !in devices[..i];
        ShiftMore(old(budgets), devices[..i], devices[i], reserved, used);
        ShiftKeepsDevices(budgets, [devices[i]], reserved, used);
        Bump(devices[i], reserved, used);
        assert devices[..i + 1] == devices[..i] + [devices[i]];
      }
      assert devices[..|devices|] == devices;
    }

    method Reserve(d: Decision, bytes: nat)
      requires DistinctDevices(budgets) && Distinct(d.devices) && (d.strategy.TensorParallel? ==> d.devices != [])
      modifies this`budgets
      ensures budgets == Routing.Reserve(old(budgets), d, bytes) && DistinctDevices(budgets)
      ensures var (was, share) := (old(budgets), if d.strategy.TensorParallel? then bytes / |d.devices| else bytes);
        |budgets| == |was| && forall i :: 0 <= i < |budgets| ==>
          budgets[i] == if was[i].device !in d.devices then was[i]
            else was[i].(reserved := Wrap(was[i].reserved + share),
                          used := Wrap(was[i].used))
    {
      var share := if d.strategy.TensorParallel? then bytes / |d.devices| else bytes;
      BumpAll(d.devices, share, 0);
    }

    method Commit(d: Decision, bytes: nat)
      requires DistinctDevices(budgets) && Distinct(d.devices) && (d.strategy.TensorParallel? ==> d.devices != [])
      modifies this`budgets
      ensures budgets == Routing.Commit(old(budgets), d, bytes) && DistinctDevices(budgets)
      ensures var (was, share) := (old(budgets), if d.strategy.TensorParallel? then bytes / |d.devices| else bytes);
        |budgets| == |was| && forall i :: 0 <= i < |budgets| ==>
          budgets[i] == if was[i].device !in d.devices then was[i]
            else was[i].(reserved := Wrap(was[i].reserved - share),
                          used := Wrap(was[i].used + share))
    {
      var share := if d.strategy.TensorParallel? then bytes / |d.devices| else bytes;
      BumpAll(d.devices, 0 - share, share);
    }

    method Unreserve(d: Decision, bytes: nat)
      requires DistinctDevices(budgets) && Distinct(d.devices) && (d.strategy.TensorParallel? ==> d.devices != [])
      modifies this`budgets
      ensures budgets == Routing.Unreserve(old(budgets), d, bytes) && DistinctDevices(budgets)
      ensures var (was, share) := (old(budgets), if d.strategy.TensorParallel? then bytes / |d.devices| else bytes);
        |budgets| == |was| && forall i :: 0 <= i < |budgets| ==>
          budgets[i] == if was[i].device !in d.devices then was[i]
            else was[i].(reserved := Wrap(was[i].reserved - share),
                          used := Wrap(was[i].used))
    {
      var share := if d.strategy.TensorParallel? then bytes / |d.devices| else bytes;
      BumpAll(d.devices, 0 - share, 0);
    }

    method Free(devices: seq<DeviceId>, bytes: nat)
      requires DistinctDevices(budgets) && Distinct(devices)
      modifies this`budgets
      ensures budgets == Release(old(budgets), devices, bytes) && DistinctDevices(budgets)
      ensures var (was, share) := (old(budgets), if |devices| > 1 then bytes / |devices| else bytes);
        |budgets| == |was| && forall i :: 0 <= i < |budgets| ==>
          budgets[i] == if was[i].device !in devices then was[i] else was[i].(reserved := Wrap(was[i].reserved),
                          used := Wrap(was[i].used - share))
    {
      var share := if |devices| > 1 then bytes / |devices| else bytes;
      BumpAll(devices, 0, 0 - share);
    }
  }
}
