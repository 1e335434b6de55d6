/** GPU budgets and placement (src/gpu/gpu_router.cpp, src/gpu/device_manager.cpp:98-119). */
module Routing {
  import opened Words
  import opened Sums
  import opened KvCache

  datatype Strategy = TensorParallel | PerRequest | Pipeline

  datatype Decision = Decision(strategy: Strategy, devices: seq<DeviceId>)

  datatype Budget = Budget(device: DeviceId, total: nat, used: nat, reserved: nat) {
    function Available(): nat {
      if Wrap(used + reserved) >= total then 0 else Wrap(total - used - reserved)
    }

    predicate CanFit(bytes: nat) { Available() >= bytes }
  }

  /** The device manager: its devices, and the context length above which requests are split. */
  datatype Topology = Topology(devices: seq<DeviceId>, threshold: nat)

  function Recommend(t: Topology, contextLength: nat): Strategy {
    if contextLength > t.threshold && |t.devices| >= 2 then TensorParallel else PerRequest
  }

  function SelectDevice(t: Topology, roundRobin: nat): DeviceId {
    if t.devices == [] then 0 else t.devices[roundRobin % |t.devices|]
  }

  /** The device with most available memory, the first such; `fallback` when none has any. */
  function Best(budgets: seq<Budget>, fallback: DeviceId): (r: (DeviceId, nat)) {
    if budgets == [] then (fallback, 0)
    else
      var (d, best) := Best(budgets[..|budgets| - 1], fallback);
      var last := budgets[|budgets| - 1];
      if last.Available() > best then (last.device, last.Available()) else (d, best)
  }

  function Route(t: Topology, budgets: seq<Budget>, roundRobin: nat, contextLength: nat): Decision {
    match Recommend(t, contextLength)
    case PerRequest => Decision(PerRequest, [Best(budgets, SelectDevice(t, roundRobin)).0])
    case strategy => Decision(strategy, t.devices)
  }

  predicate CanPlace(t: Topology, budgets: seq<Budget>, contextLength: nat, totalBytes: nat, perDeviceBytes: nat)
    requires Recommend(t, contextLength).TensorParallel? && perDeviceBytes == 0 ==> budgets != []
  {
    if Recommend(t, contextLength).TensorParallel? then
      var share := if perDeviceBytes > 0 then perDeviceBytes else totalBytes / |budgets|;
      forall i :: 0 <= i < |budgets| ==> budgets[i].CanFit(share)
    else
      exists i :: 0 <= i < |budgets| && budgets[i].CanFit(totalBytes)
  }

  /** What `reserve`, `commit` and `unreserve` move on each device of a decision. */
  function Share(d: Decision, bytes: nat): nat
    requires d.strategy.TensorParallel? ==> d.devices != []
  {
    if d.strategy.TensorParallel? then bytes / |d.devices| else bytes
  }

  /** What `free` gives back on each device, from the device list alone. */
  function FreeShare(devices: seq<DeviceId>, bytes: nat): nat {
    if |devices| > 1 then bytes / |devices| else bytes
  }

  /** Moves the counters of every listed device; each counter wraps. */
  function Shift(budgets: seq<Budget>, devices: seq<DeviceId>, reserved: int, used: int): (r: seq<Budget>)
    ensures |r| == |budgets|
  {
    seq(|budgets|, i requires 0 <= i < |budgets| =>
      var b := budgets[i];
      if b.device in devices then b.(reserved := Wrap(b.reserved + reserved), used := Wrap(b.used + used)) else b)
  }

  function Reserve(budgets: seq<Budget>, d: Decision, bytes: nat): seq<Budget>
    requires d.strategy.TensorParallel? ==> d.devices != []
  {
    Shift(budgets, d.devices, Share(d, bytes), 0)
  }

  function Commit(budgets: seq<Budget>, d: Decision, bytes: nat): seq<Budget>
    requires d.strategy.TensorParallel? ==> d.devices != []
  {
    Shift(budgets, d.devices, 0 - Share(d, bytes), Share(d, bytes))
  }

  function Unreserve(budgets: seq<Budget>, d: Decision, bytes: nat): seq<Budget>
    requires d.strategy.TensorParallel? ==> d.devices != []
  {
    Shift(budgets, d.devices, 0 - Share(d, bytes), 0)
  }

  function Release(budgets: seq<Budget>, devices: seq<DeviceId>, bytes: nat): seq<Budget> {
    Shift(budgets, devices, 0, 0 - FreeShare(devices, bytes))
  }

  ghost predicate DistinctDevices(budgets: seq<Budget>) {
    forall i, j :: 0 <= i < j < |budgets| ==> budgets[i].device != budgets[j].device
  }

  /** The counters of a budget are within its total. */
  ghost predicate Within(b: Budget) {
    b.used + b.reserved <= b.total < WORD
  }

  // ---------------------------------------------------------------- properties

  /** `route` only splits a request across two or more devices and otherwise names one device; the
      pipeline strategy is never chosen, and releasing by device list returns the reserved share. */
  lemma RouteShares(t: Topology, budgets: seq<Budget>, roundRobin: nat, contextLength: nat, bytes: nat)
    ensures var d := Route(t, budgets, roundRobin, contextLength);
      && !d.strategy.Pipeline?
      && (d.strategy.TensorParallel? <==> contextLength > t.threshold && |t.devices| >= 2)
      && (d.strategy.TensorParallel? ==> d.devices == t.devices)
      && (d.strategy.PerRequest? ==> |d.devices| == 1)
      && Share(d, bytes) == FreeShare(d.devices, bytes)
      && Share(d, bytes) == if d.strategy.TensorParallel? then bytes / |t.devices| else bytes
  {
  }

  ghost predicate Words64(budgets: seq<Budget>) {
    forall i :: 0 <= i < |budgets| ==> budgets[i].used < WORD && budgets[i].reserved < WORD
  }

  lemma ShiftBack(budgets: seq<Budget>, devices: seq<DeviceId>, reserved: int, used: int)
    requires Words64(budgets)
    ensures Shift(Shift(budgets, devices, reserved, used), devices, 0 - reserved, 0 - used) == budgets
  {
    forall i | 0 <= i < |budgets|
      ensures Shift(Shift(budgets, devices, reserved, used), devices, 0 - reserved, 0 - used)[i] == budgets[i]
    {
      WrapAdd(budgets[i].reserved + reserved, 0 - reserved);
      WrapAdd(budgets[i].used + used, 0 - used);
    }
  }

  lemma ShiftTwice(budgets: seq<Budget>, devices: seq<DeviceId>, r1: int, u1: int, r2: int, u2: int)
    ensures Shift(Shift(budgets, devices, r1, u1), devices, r2, u2) == Shift(budgets, devices, r1 + r2, u1 + u2)
  {
    forall i | 0 <= i < |budgets|
      ensures Shift(Shift(budgets, devices, r1, u1), devices, r2, u2)[i] == Shift(budgets, devices, r1 + r2, u1 + u2)[i]
    {
      WrapAdd(budgets[i].reserved + r1, r2);
      WrapAdd(budgets[i].used + u1, u2);
    }
  }

  /** For every decision that `route` returns, `unreserve` undoes `reserve`, and `free`, which only
      sees the device list, undoes `reserve` and `commit`; in every budget state, wrapped or not. */
  lemma ReservationsUndone(t: Topology, budgets: seq<Budget>, roundRobin: nat, contextLength: nat, bytes: nat)
    requires Words64(budgets)
    ensures var d := Route(t, budgets, roundRobin, contextLength);
      && Unreserve(Reserve(budgets, d, bytes), d, bytes) == budgets
      && Release(Commit(Reserve(budgets, d, bytes), d, bytes), d.devices, bytes) == budgets
  {
    RouteShares(t, budgets, roundRobin, contextLength, bytes);
    var d := Route(t, budgets, roundRobin, contextLength);
    var share: int := Share(d, bytes);
    ShiftBack(budgets, d.devices, share, 0);
    ShiftTwice(budgets, d.devices, share, 0, 0 - share, share);
    ShiftBack(budgets, d.devices, 0, share);
  }

  /** The first of the budgets with most available memory; the fallback when none has any. */
  lemma {:induction false} BestIsLargest(budgets: seq<Budget>, fallback: DeviceId)
    ensures var (d, best) := Best(budgets, fallback);
      && (forall i :: 0 <= i < |budgets| ==> budgets[i].Available() <= best)
      && (best > 0 ==>
            exists i :: 0 <= i < |budgets| && budgets[i].device == d && budgets[i].Available() == best
              && forall j :: 0 <= j < i ==> budgets[j].Available() < best)
      && (best == 0 ==> d == fallback)
  {
    if budgets != [] {
      var n := |budgets| - 1;
      BestIsLargest(budgets[..n], fallback);
      var (d, best) := Best(budgets[..n], fallback);
      if budgets[n].Available() > best {
        assert forall j :: 0 <= j < n ==> budgets[j] == budgets[..n][j];
      } else if best > 0 {
        var i :| 0 <= i < n && budgets[..n][i].device == d && budgets[..n][i].Available() == best
          && forall j :: 0 <= j < i ==> budgets[..n][j].Available() < best;
        assert budgets[i].device == d;
        assert forall j :: 0 <= j < i ==> budgets[j] == budgets[..n][j];
      }
      assert forall i :: 0 <= i < n ==> budgets[i] == budgets[..n][i];
    }
  }

  /** `route` names the first device with most available memory, or the next one in turn if none has any. */
  lemma RoutePicks(t: Topology, budgets: seq<Budget>, roundRobin: nat, contextLength: nat)
    requires contextLength <= t.threshold || |t.devices| < 2
    ensures var d := Route(t, budgets, roundRobin, contextLength);
      && |d.devices| == 1
      && ((forall i :: 0 <= i < |budgets| ==> budgets[i].Available() == 0) ==>
            d.devices[0] == if t.devices == [] then 0 else t.devices[roundRobin % |t.devices|])
      && ((exists i :: 0 <= i < |budgets| && budgets[i].Available() > 0) ==>
            exists i :: 0 <= i < |budgets| && budgets[i].device == d.devices[0]
              && (forall j :: 0 <= j < |budgets| ==> budgets[j].Available() <= budgets[i].Available())
              && (forall j :: 0 <= j < i ==> budgets[j].Available() < budgets[i].Available()))
  {
    BestIsLargest(budgets, SelectDevice(t, roundRobin));
  }

  /** `can_place` accepts an unsplit request exactly if some device has room for it, and a split one exactly
      if every device has room for the share that the allocator asks for, or for an equal share if it asks
      for nothing. */
  lemma CanPlaceMeaning(t: Topology, budgets: seq<Budget>, contextLength: nat, bytes: nat, perDevice: nat)
    requires (perDevice > 0 || budgets != []) && forall i :: 0 <= i < |budgets| ==> Within(budgets[i])
    ensures CanPlace(t, budgets, contextLength, bytes, perDevice) <==>
      if contextLength > t.threshold && |t.devices| >= 2 then
        var share := if perDevice > 0 then perDevice else bytes / |budgets|;
        forall i :: 0 <= i < |budgets| ==> budgets[i].used + budgets[i].reserved + share <= budgets[i].total
      else
        exists i :: 0 <= i < |budgets| && budgets[i].used + budgets[i].reserved + bytes <= budgets[i].total
  {
  }

  /** If nothing is reserved in between, admission is sound for a request placed on one device: if
      `can_place` accepts it, the device that `route` then picks has room, so the reservation stays within
      every budget. */
  lemma PlacedOnOneFits(t: Topology, budgets: seq<Budget>, roundRobin: nat, contextLength: nat, bytes: nat,
    perDevice: nat)
    requires DistinctDevices(budgets) && forall i :: 0 <= i < |budgets| ==> Within(budgets[i])
    requires bytes > 0 && Recommend(t, contextLength).PerRequest?
    requires CanPlace(t, budgets, contextLength, bytes, perDevice)
    ensures var d := Route(t, budgets, roundRobin, contextLength);
      forall i :: 0 <= i < |budgets| ==> Within(Reserve(budgets, d, bytes)[i])
  {
    var fallback := SelectDevice(t, roundRobin);
    BestIsLargest(budgets, fallback);
    var (d, best) := Best(budgets, fallback);
    var fits :| 0 <= fits < |budgets| && budgets[fits].CanFit(bytes);
    assert best >= bytes;
  }

  /** One budget for each device of the topology, every one within its total. */
  ghost predicate Matching(t: Topology, budgets: seq<Budget>) {
    && |budgets| == |t.devices|
    && DistinctDevices(budgets)
    && (forall i :: 0 <= i < |budgets| ==> budgets[i].device == t.devices[i] && Within(budgets[i]))
  }

  /** No reservation of this size wraps a counter. */
  ghost predicate Narrow(budgets: seq<Budget>, bytes: nat) {
    forall i :: 0 <= i < |budgets| ==> budgets[i].reserved + bytes < WORD
  }

  /** A budget that is within its total stays so exactly if there is room for what is reserved. */
  lemma WithinMore(b: Budget, bytes: nat)
    requires Within(b) && b.reserved + bytes < WORD
    ensures Within(b.(reserved := Wrap(b.reserved + bytes))) <==> b.used + b.reserved + bytes <= b.total
  {
  }

  lemma OneReserved(budgets: seq<Budget>, i: nat, d: Decision, bytes: nat)
    requires DistinctDevices(budgets) && i < |budgets| && d == Decision(PerRequest, [budgets[i].device])
    requires forall k :: 0 <= k < |budgets| ==> Within(budgets[k])
    ensures (forall k :: 0 <= k < |budgets| ==> Within(Reserve(budgets, d, bytes)[k]))
      <==> Within(budgets[i].(reserved := Wrap(budgets[i].reserved + bytes)))
  {
    forall k | 0 <= k < |budgets| && k != i ensures Within(Reserve(budgets, d, bytes)[k]) {
    }
    var b := Reserve(budgets, d, bytes)[i];
    assert b.used == budgets[i].used;
  }

  /** If nothing is reserved in between, admission is exact for a request placed on one device: `can_place`
      accepts it if and only if the device that `route` then picks has room, and so if and only if the
      reservation there keeps every budget within its total. */
  lemma PlacedOnOneIff(t: Topology, budgets: seq<Budget>, roundRobin: nat, contextLength: nat, bytes: nat,
    perDevice: nat)
    requires Matching(t, budgets) && t.devices != [] && bytes > 0
    requires contextLength <= t.threshold || |t.devices| < 2
    ensures var d := Route(t, budgets, roundRobin, contextLength);
      && (CanPlace(t, budgets, contextLength, bytes, perDevice) <==>
            exists i :: 0 <= i < |budgets| && d.devices == [budgets[i].device]
              && budgets[i].used + budgets[i].reserved + bytes <= budgets[i].total)
      && (Narrow(budgets, bytes) ==>
            (CanPlace(t, budgets, contextLength, bytes, perDevice) <==>
               forall i :: 0 <= i < |budgets| ==> Within(Reserve(budgets, d, bytes)[i])))
  {
    var d := Route(t, budgets, roundRobin, contextLength);
    RoutePicks(t, budgets, roundRobin, contextLength);
    CanPlaceMeaning(t, budgets, contextLength, bytes, perDevice);
    var i := Picked(t, budgets, roundRobin, contextLength);
    if Narrow(budgets, bytes) {
      WithinMore(budgets[i], bytes);
      OneReserved(budgets, i, d, bytes);
    }
    if k :| 0 <= k < |budgets| && budgets[k].used + budgets[k].reserved + bytes <= budgets[k].total {
      assert budgets[k].Available() <= budgets[i].Available();
    }
  }

  /** The budget of the device that `route` picks. */
  lemma Picked(t: Topology, budgets: seq<Budget>, roundRobin: nat, contextLength: nat) returns (i: nat)
    requires Matching(t, budgets) && t.devices != []
    requires contextLength <= t.threshold || |t.devices| < 2
    ensures i < |budgets| && Route(t, budgets, roundRobin, contextLength).devices == [budgets[i].device]
    ensures forall k :: 0 <= k < |budgets| ==> budgets[k].Available() <= budgets[i].Available()
  {
    RoutePicks(t, budgets, roundRobin, contextLength);
    var d := Route(t, budgets, roundRobin, contextLength).devices[0];
    if k :| 0 <= k < |budgets| && budgets[k].Available() > 0 {
      i :| 0 <= i < |budgets| && budgets[i].device == d
        && forall j :: 0 <= j < |budgets| ==> budgets[j].Available() <= budgets[i].Available();
    } else {
      i := roundRobin % |t.devices|;
    }
  }

  /** And for a split request: `can_place` accepts it if and only if reserving the share that the allocator
      asks for on every device, or an equal share if it asks for nothing, keeps every budget within its
      total. What `reserve` really reserves is the subject of `SplitAdmissionSoundIff`. */
  lemma PlacedOnAllIff(t: Topology, budgets: seq<Budget>, contextLength: nat, bytes: nat, perDevice: nat)
    requires Matching(t, budgets) && contextLength > t.threshold && |t.devices| >= 2
    requires Narrow(budgets, if perDevice > 0 then perDevice else bytes / |t.devices|)
    ensures var share := if perDevice > 0 then perDevice else bytes / |t.devices|;
      CanPlace(t, budgets, contextLength, bytes, perDevice) <==>
      forall i :: 0 <= i < |budgets| ==> Within(budgets[i].(reserved := Wrap(budgets[i].reserved + share)))
  {
    CanPlaceMeaning(t, budgets, contextLength, bytes, perDevice);
    var share := if perDevice > 0 then perDevice else bytes / |t.devices|;
    forall i | 0 <= i < |budgets|
      ensures Within(budgets[i].(reserved := Wrap(budgets[i].reserved + share)))
        <==> budgets[i].used + budgets[i].reserved + share <= budgets[i].total
    {
      WithinMore(budgets[i], share);
    }
  }

  // ---------------------------------------------------------------- the split share against the allocator's

  /** scheduler.hpp: bytes of KV cache per token of the served model. */
  const KV_BYTES_PER_TOKEN: nat := 2 * 64 * 8 * 128 * 2

  function EstimateKv(seqLen: nat): nat { seqLen * KV_BYTES_PER_TOKEN }

  /** The allocator configured for the same model, split over `n` devices. */
  ghost predicate DefaultModel(cfg: Config, n: nat) {
    cfg.layers == 64 && cfg.kvHeads == 8 && cfg.headDim == 128 && cfg.dtypeBytes == 2
    && n == if cfg.devices == [] then 1 else |cfg.devices|
  }

  /** The router's share of a split request is at least the allocator's bytes per device, and equal
      exactly when the number of devices divides the number of KV heads. */
  lemma SplitShare(cfg: Config, n: nat, seqLen: nat)
    requires 2 <= n <= 8 && DefaultModel(cfg, n)
    ensures cfg.BytesPerDevice(seqLen) <= EstimateKv(seqLen) / n
    ensures seqLen > 0 ==> (cfg.BytesPerDevice(seqLen) == EstimateKv(seqLen) / n <==> 8 % n == 0)
  {
    var heads := 8 / n;
    assert cfg.BytesPerTokenPerDevice() == 32768 * heads;
    if n == 2 { assert heads == 4; }
    else if n == 3 { assert heads == 2; }
    else if n == 4 { assert heads == 2; }
    else if n <= 7 { assert heads == 1; }
  }

  /** On a single device the router's estimate is the allocator's size, 256 KiB a token. */
  lemma ModelBytes(cfg: Config, n: nat, seqLen: nat)
    requires DefaultModel(cfg, n)
    ensures EstimateKv(seqLen) == cfg.BytesFor(seqLen) == seqLen * 0x4_0000
  {
    assert cfg.BytesPerToken() == 0x4_0000;
  }

  /** A full reservation fits on every device. */
  ghost predicate ReserveFits(budgets: seq<Budget>, d: Decision, bytes: nat)
    requires d.strategy.TensorParallel? ==> d.devices != []
  {
    forall i :: 0 <= i < |budgets| ==> Within(Reserve(budgets, d, bytes)[i])
  }

  lemma PlacedOnAllFits(t: Topology, budgets: seq<Budget>, cfg: Config, roundRobin: nat, seqLen: nat)
    requires Matching(t, budgets) && 2 <= |t.devices| <= 8 && DefaultModel(cfg, |t.devices|)
    requires seqLen > t.threshold && 8 % |t.devices| == 0
    requires CanPlace(t, budgets, seqLen, EstimateKv(seqLen), cfg.BytesPerDevice(seqLen))
    ensures ReserveFits(budgets, Route(t, budgets, roundRobin, seqLen), EstimateKv(seqLen))
  {
    SplitShare(cfg, |t.devices|, seqLen);
  }

  /** A budget of exactly `size` bytes for each device. */
  function Tight(devices: seq<DeviceId>, size: nat): (r: seq<Budget>)
    ensures |r| == |devices|
  {
    seq(|devices|, i requires 0 <= i < |devices| => Budget(devices[i], size, 0, 0))
  }

  lemma TightMatches(t: Topology, size: nat)
    requires Distinct(t.devices) && size < WORD
    ensures Matching(t, Tight(t.devices, size))
  {
    DistinctMeaning(t.devices);
  }

  /** Reserving more than a tight budget holds overruns it. */
  lemma TightOverruns(t: Topology, size: nat, d: Decision, bytes: nat)
    requires d == Decision(TensorParallel, t.devices) && t.devices != [] && bytes < WORD
    requires ReserveFits(Tight(t.devices, size), d, bytes)
    ensures bytes / |t.devices| <= size
  {
    var after := Reserve(Tight(t.devices, size), d, bytes);
    assert Within(after[0]) && after[0].reserved == bytes / |t.devices|;
  }

  /** With budgets of exactly the allocator's size admission accepts, and the reservation overruns
      unless the device count divides the KV heads. */
  lemma TightBudgets(t: Topology, cfg: Config, roundRobin: nat, seqLen: nat) returns (budgets: seq<Budget>)
    requires 2 <= |t.devices| <= 8 && Distinct(t.devices) && DefaultModel(cfg, |t.devices|)
    requires seqLen > t.threshold && EstimateKv(seqLen) < WORD
    ensures Matching(t, budgets)
    ensures CanPlace(t, budgets, seqLen, EstimateKv(seqLen), cfg.BytesPerDevice(seqLen))
    ensures ReserveFits(budgets, Route(t, budgets, roundRobin, seqLen), EstimateKv(seqLen)) ==> 8 % |t.devices| == 0
  {
    SplitShare(cfg, |t.devices|, seqLen);
    budgets := Tight(t.devices, cfg.BytesPerDevice(seqLen));
    TightMatches(t, cfg.BytesPerDevice(seqLen));
    if ReserveFits(budgets, Route(t, budgets, roundRobin, seqLen), EstimateKv(seqLen)) {
      TightOverruns(t, cfg.BytesPerDevice(seqLen), Route(t, budgets, roundRobin, seqLen), EstimateKv(seqLen));
    }
  }

  /** If nothing is reserved in between, admission is sound for split requests, in every budget state, if
      and only if the number of devices divides the number of KV heads. */
  lemma SplitAdmissionSoundIff(t: Topology, cfg: Config, roundRobin: nat, seqLen: nat)
    requires 2 <= |t.devices| <= 8 && Distinct(t.devices) && DefaultModel(cfg, |t.devices|)
    requires seqLen > t.threshold && EstimateKv(seqLen) < WORD
    ensures (forall budgets ::
        Matching(t, budgets) && CanPlace(t, budgets, seqLen, EstimateKv(seqLen), cfg.BytesPerDevice(seqLen)) ==>
        ReserveFits(budgets, Route(t, budgets, roundRobin, seqLen), EstimateKv(seqLen)))
      <==> 8 % |t.devices| == 0
  {
    if 8 % |t.devices| == 0 {
      forall budgets | Matching(t, budgets)
        && CanPlace(t, budgets, seqLen, EstimateKv(seqLen), cfg.BytesPerDevice(seqLen))
        ensures ReserveFits(budgets, Route(t, budgets, roundRobin, seqLen), EstimateKv(seqLen))
      {
        PlacedOnAllFits(t, budgets, cfg, roundRobin, seqLen);
      }
    } else {
      var budgets := TightBudgets(t, cfg, roundRobin, seqLen);
    }
  }
}
