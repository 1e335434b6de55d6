/** Handles, configuration and byte arithmetic (include/kvcache/kv_allocator.hpp). */
module KvCache {
  import opened Sums

  type DeviceId = int

  /** A device address; 0 is the null pointer. */
  type Ptr = nat
  type Address = p: nat | p != 0 witness 1

  /** What one successful pair of device allocations (K, then V) returns. A list of grants says how
      many devices granted their pair before the first refusal. */
  datatype Grant = Grant(k: Address, v: Address)

  datatype Config = Config(
    layers: nat, kvHeads: nat, headDim: nat, dtypeBytes: nat,
    device: DeviceId, devices: seq<DeviceId>)
  {
    /** `tensor_parallel_size`, as `initialize` sets it. */
    function TpSize(): (n: nat)
      ensures n >= 1
    {
      if devices == [] then 1 else |devices|
    }

    function BytesPerToken(): nat { 2 * layers * kvHeads * headDim * dtypeBytes }

    function BytesPerTokenPerDevice(): nat { 2 * layers * (kvHeads / TpSize()) * headDim * dtypeBytes }

    function BytesFor(seqLen: nat): nat { seqLen * BytesPerToken() }

    function BytesPerDevice(seqLen: nat): nat { seqLen * BytesPerTokenPerDevice() }
  }

  datatype DeviceCache = DeviceCache(k: Ptr, v: Ptr, device: DeviceId, bytes: nat)

  datatype Handle = Handle(
    k: Ptr, v: Ptr, maxSeqLen: nat, currentLen: nat, device: DeviceId, id: nat,
    caches: seq<DeviceCache>, tensorParallel: bool)
  {
    predicate IsValid() {
      if tensorParallel then caches != [] && caches[0].k != 0 else k != 0 && v != 0
    }
  }

  const NO_HANDLE: Handle := Handle(0, 0, 0, 0, 0, 0, [], false)

  /** The handle that both allocators build for a single device. */
  function SingleHandle(g: Grant, seqLen: nat, device: DeviceId, id: nat): (h: Handle)
    ensures h.IsValid()
  {
    Handle(g.k, g.v, seqLen, 0, device, id, [], false)
  }

  /** The handle that both allocators build across several devices. */
  function SplitHandle(grants: seq<Grant>, seqLen: nat, devices: seq<DeviceId>, bytes: nat, id: nat): (h: Handle)
    requires 0 < |devices| <= |grants|
    ensures h.IsValid()
  {
    var caches := seq(|devices|, i requires 0 <= i < |devices| =>
      DeviceCache(grants[i].k, grants[i].v, devices[i], bytes));
    Handle(grants[0].k, grants[0].v, seqLen, 0, devices[0], id, caches, true)
  }

  /** The bytes of device `d` that a list of caches names. */
  function CachedOn(caches: seq<DeviceCache>, d: DeviceId): nat {
    if caches == [] then 0
    else
      var last := caches[|caches| - 1];
      CachedOn(caches[..|caches| - 1], d) + if last.device == d then last.bytes else 0
  }

  lemma {:induction false} SplitCaches(caches: seq<DeviceCache>, ds: seq<DeviceId>, bytes: nat, d: DeviceId)
    requires |caches| == |ds| && Distinct(ds)
    requires forall i :: 0 <= i < |ds| ==> caches[i].device == ds[i] && caches[i].bytes == bytes
    ensures CachedOn(caches, d) == if d in ds then bytes else 0
  {
    if ds != [] {
      var init, last := ds[..|ds| - 1], ds[|ds| - 1];
      DistinctInit(ds);
      SplitCaches(caches[..|ds| - 1], init, bytes, d);
    }
  }

  lemma {:induction false} CachedHead(caches: seq<DeviceCache>, d: DeviceId)
    requires caches != []
    ensures CachedOn(caches, d) == CachedOn(caches[1..], d) + if caches[0].device == d then caches[0].bytes else 0
  {
    var n := |caches| - 1;
    if n > 0 {
      CachedHead(caches[..n], d);
      assert caches[..n][1..] == caches[1..][..n - 1];
    }
  }

  /** A tally of bytes per device; devices not listed have none. */
  function On(tally: map<DeviceId, int>, d: DeviceId): int {
    if d in tally then tally[d] else 0
  }

  function Grown(tally: map<DeviceId, int>, ds: seq<DeviceId>, bytes: int): (r: map<DeviceId, int>)
    ensures forall d :: On(r, d) == On(tally, d) + if d in ds then bytes else 0
  {
    map d | d in tally.Keys + (set x | x in ds) :: On(tally, d) + if d in ds then bytes else 0
  }
}
