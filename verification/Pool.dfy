/** The pooled allocator (src/kvcache/kv_allocator.cpp:383-788) as a function of its state. */
module Pool {
  import opened Wrappers
  import opened Words
  import opened Sums
  import opened KvCache

  datatype Slot = Slot(k: Ptr, v: Ptr, inUse: bool)

  /** `freeSlots` is the stack of free slot numbers; its last element is the top. */
  datatype DevicePool = DevicePool(
    slots: seq<Slot>, freeSlots: seq<nat>, baseK: Ptr, baseV: Ptr, total: nat, used: nat, free: nat)

  /** `allocation_slots_`: the device, the slot number and whether the pool was bypassed. */
  datatype Origin = Origin(device: DeviceId, slot: nat, overflow: bool)

  /** `granted` is a history variable: the bytes that each device has handed out outside its pool and
      not been given back (`cudaMalloc` and `cudaFree`). */
  datatype Pool = Pool(
    cfg: Config, slotTokens: nat, slotBytes: nat, allowOverflow: bool,
    pools: map<DeviceId, DevicePool>, origins: map<nat, Origin>, nextId: nat, granted: map<DeviceId, int>)

  const EMPTY: DevicePool := DevicePool([], [], 0, 0, 0, 0, 0)

  function Upto(n: nat): (r: seq<nat>)
    ensures |r| == n && forall i :: 0 <= i < n ==> r[i] == i
    ensures (forall i :: i in r <==> 0 <= i < n) && Distinct(r)
  {
    if n == 0 then [] else DistinctAppend<nat>(Upto(n - 1), n - 1); Upto(n - 1) + [n - 1]
  }

  /** Division of the two halves of a pool into slots. */
  function Carve(g: Grant, n: nat, slotBytes: nat): DevicePool {
    var slots := seq(n, (i: nat) => Slot(g.k + i * (slotBytes / 2), g.v + i * (slotBytes / 2), false));
    DevicePool(slots, Upto(n), g.k, g.v, slotBytes * n, 0, slotBytes * n)
  }

  /** `device_pools_[d]`: an absent entry reads as an empty pool, which the access creates. */
  function PoolAt(p: Pool, d: DeviceId): DevicePool {
    if d in p.pools then p.pools[d] else EMPTY
  }

  function TakeSlot(dp: DevicePool, slotBytes: nat): DevicePool
    requires dp.freeSlots != []
    requires dp.freeSlots[|dp.freeSlots| - 1] < |dp.slots|
  {
    var i := dp.freeSlots[|dp.freeSlots| - 1];
    dp.(slots := dp.slots[i := dp.slots[i].(inUse := true)],
        freeSlots := dp.freeSlots[..|dp.freeSlots| - 1],
        used := Wrap(dp.used + slotBytes), free := Wrap(dp.free - slotBytes))
  }

  function ReturnSlot(dp: DevicePool, i: nat, slotBytes: nat): DevicePool
    requires i < |dp.slots|
  {
    dp.(slots := dp.slots[i := dp.slots[i].(inUse := false)],
        freeSlots := dp.freeSlots + [i],
        used := Wrap(dp.used - slotBytes), free := Wrap(dp.free + slotBytes))
  }

  function Overflow(p: Pool, seqLen: nat, grants: seq<Grant>): (Pool, Result<Handle>) {
    if !p.allowOverflow then (p, Err(ResourceExhausted))
    else if grants == [] then (p, Err(Internal))
    else
      (p.(origins := p.origins[p.nextId := Origin(p.cfg.device, 0, true)], nextId := p.nextId + 1,
          granted := Grown(p.granted, [p.cfg.device], p.cfg.BytesFor(seqLen))),
       Ok(SingleHandle(grants[0], seqLen, p.cfg.device, p.nextId)))
  }

  function AllocateSingle(p: Pool, seqLen: nat, grants: seq<Grant>): (Pool, Result<Handle>)
    requires Sound(p)
  {
    if seqLen <= p.slotTokens then
      var d := p.cfg.device;
      var dp := PoolAt(p, d);
      if dp.freeSlots != [] then
        var i := dp.freeSlots[|dp.freeSlots| - 1];
        assert d in p.pools && i in dp.freeSlots;
        var slot := dp.slots[i];
        (p.(pools := p.pools[d := TakeSlot(dp, p.slotBytes)],
            origins := p.origins[p.nextId := Origin(d, i, false)],
            nextId := p.nextId + 1),
         Ok(Handle(slot.k, slot.v, seqLen, 0, d, p.nextId, [], false)))
      else
        Overflow(p.(pools := p.pools[d := dp]), seqLen, grants)
    else
      Overflow(p, seqLen, grants)
  }

  /** Several devices always bypass the pool. */
  function AllocateSplit(p: Pool, seqLen: nat, ds: seq<DeviceId>, grants: seq<Grant>): (Pool, Result<Handle>)
    requires Sound(p)
  {
    if ds == [] then AllocateSingle(p, seqLen, grants)
    else if |grants| < |ds| then (p.(nextId := p.nextId + 1), Err(Internal))
    else
      (p.(origins := p.origins[p.nextId := Origin(ds[0], 0, true)], nextId := p.nextId + 1,
          granted := Grown(p.granted, ds, p.cfg.BytesPerDevice(seqLen))),
       Ok(SplitHandle(grants, seqLen, ds, p.cfg.BytesPerDevice(seqLen), p.nextId)))
  }

  /** What freeing the two pointers of a handle gives back to its device: a split handle has those of
      its first device only. */
  function FirstBytes(cfg: Config, h: Handle): nat
    requires h.IsValid()
  {
    if h.tensorParallel then h.caches[0].bytes else cfg.BytesFor(h.maxSeqLen)
  }

  function Free(p: Pool, h: Handle): (Pool, Handle)
    requires Sound(p)
  {
    var cleared := h.(k := 0, v := 0, id := 0);
    if !h.IsValid() then (p, h)
    else if h.id !in p.origins then (p, cleared)
    else
      var o := p.origins[h.id];
      var rest := p.(origins := p.origins - {h.id});
      if o.overflow then (rest.(granted := Grown(p.granted, [o.device], 0 - FirstBytes(p.cfg, h))), cleared)
      else (rest.(pools := p.pools[o.device := ReturnSlot(p.pools[o.device], o.slot, p.slotBytes)]), cleared)
  }

  predicate CanAllocate(p: Pool, seqLen: nat) {
    (seqLen <= p.slotTokens && p.cfg.device in p.pools && p.pools[p.cfg.device].freeSlots != []) || p.allowOverflow
  }

  function FreshPool(dp: DevicePool): DevicePool {
    dp.(slots := seq(|dp.slots|, i requires 0 <= i < |dp.slots| => dp.slots[i].(inUse := false)),
        freeSlots := Upto(|dp.slots|), used := 0, free := dp.total)
  }

  function Reset(p: Pool): Pool {
    p.(pools := map d | d in p.pools :: FreshPool(p.pools[d]), origins := map[])
  }

  lemma ResetMeans(p: Pool, pools: map<DeviceId, DevicePool>)
    requires pools.Keys == p.pools.Keys
    requires forall d :: d in pools ==> pools[d] == FreshPool(p.pools[d])
    ensures Reset(p).pools == pools
  {
    var r := Reset(p).pools;
    forall d | d in r ensures d in pools && r[d] == pools[d] {
    }
    assert r.Keys == pools.Keys;
  }

  // ---------------------------------------------------------------- invariant

  function InUse(slots: seq<Slot>): nat {
    if slots == [] then 0 else InUse(slots[..|slots| - 1]) + if slots[|slots| - 1].inUse then 1 else 0
  }

  /** The free stack lists every slot not in use, once. */
  ghost predicate StackSound(dp: DevicePool) {
    && Distinct(dp.freeSlots)
    && (forall i :: i in dp.freeSlots ==> i < |dp.slots|)
    && (forall i :: 0 <= i < |dp.slots| ==> (i in dp.freeSlots <==> !dp.slots[i].inUse))
  }

  /** The counters count the slots in use. */
  ghost predicate Counted(dp: DevicePool, slotBytes: nat) {
    && dp.total == Times(|dp.slots|, slotBytes) < WORD
    && dp.used == Times(InUse(dp.slots), slotBytes)
    && dp.used + dp.free == dp.total
  }

  /** Slot `i` is the `i`-th piece of each half. */
  ghost predicate Carved(dp: DevicePool, half: nat) {
    && (dp.slots != [] ==> dp.baseK != 0 && dp.baseV != 0)
    && (forall i :: 0 <= i < |dp.slots| ==>
          dp.slots[i].k == dp.baseK + Times(i, half) && dp.slots[i].v == dp.baseV + Times(i, half))
  }

  ghost predicate SoundPool(dp: DevicePool, slotBytes: nat) {
    StackSound(dp) && Counted(dp, slotBytes) && Carved(dp, slotBytes / 2)
  }

  /** A live allocation that came from the pool names a slot in use. */
  ghost predicate SoundOrigin(p: Pool, o: Origin) {
    !o.overflow ==>
      o.device in p.pools && o.slot < |p.pools[o.device].slots| && p.pools[o.device].slots[o.slot].inUse
  }

  /** The allocation that occupies a slot. */
  ghost predicate Occupies(p: Pool, id: nat, d: DeviceId, i: nat) {
    id in p.origins && p.origins[id] == Origin(d, i, false)
  }

  ghost predicate PoolsSound(p: Pool) {
    forall d :: d in p.pools ==> SoundPool(p.pools[d], p.slotBytes)
  }

  ghost predicate OriginsSound(p: Pool) {
    && (forall id :: id in p.origins ==> id < p.nextId && SoundOrigin(p, p.origins[id]))
    && (forall a, b :: a in p.origins && b in p.origins && a != b && !p.origins[a].overflow ==>
          p.origins[a] != p.origins[b])
  }

  ghost predicate SlotsOwned(p: Pool) {
    forall d, i :: d in p.pools && 0 <= i < |p.pools[d].slots| && p.pools[d].slots[i].inUse ==>
      exists id :: Occupies(p, id, d, i)
  }

  /** Live pool allocations and slots in use correspond one to one. */
  ghost predicate Sound(p: Pool) {
    PoolsSound(p) && OriginsSound(p) && SlotsOwned(p)
  }

  lemma {:induction false} InUseUpdate(slots: seq<Slot>, i: nat, b: bool)
    requires i < |slots|
    ensures InUse(slots[i := slots[i].(inUse := b)])
         == InUse(slots) + (if b then 1 else 0) - (if slots[i].inUse then 1 else 0)
  {
    var n := |slots| - 1;
    var after := slots[i := slots[i].(inUse := b)];
    if i == n {
      assert after[..n] == slots[..n];
    } else {
      assert after[..n] == slots[..n][i := slots[..n][i].(inUse := b)];
      InUseUpdate(slots[..n], i, b);
    }
  }

  lemma {:induction false} InUseNone(slots: seq<Slot>)
    requires forall i :: 0 <= i < |slots| ==> !slots[i].inUse
    ensures InUse(slots) == 0
  {
    if slots != [] {
      InUseNone(slots[..|slots| - 1]);
    }
  }

  lemma {:induction false} InUseBound(slots: seq<Slot>)
    ensures InUse(slots) <= |slots|
    ensures (exists i :: 0 <= i < |slots| && !slots[i].inUse) ==> InUse(slots) < |slots|
    ensures (exists i :: 0 <= i < |slots| && slots[i].inUse) ==> InUse(slots) > 0
  {
    if slots != [] {
      InUseBound(slots[..|slots| - 1]);
    }
  }

  ghost predicate Untouched(dp: DevicePool) {
    |dp.freeSlots| == |dp.slots| && forall i :: 0 <= i < |dp.slots| ==> !dp.slots[i].inUse
  }

  /** All slots are free, and the stack lists them in order, the last slot on top. */
  ghost predicate AllFree(dp: DevicePool) {
    && Untouched(dp) && dp.used == 0 && dp.free == dp.total
    && forall i :: 0 <= i < |dp.freeSlots| ==> dp.freeSlots[i] == i
  }

  lemma CarveSound(g: Grant, n: nat, slotBytes: nat)
    requires slotBytes * n < WORD
    ensures var dp := Carve(g, n, slotBytes);
      && SoundPool(dp, slotBytes) && AllFree(dp) && |dp.slots| == n && dp.total == n * slotBytes
      && forall i :: 0 <= i < n ==>
           dp.slots[i].k == g.k + i * (slotBytes / 2) && dp.slots[i].v == g.v + i * (slotBytes / 2)
  {
    InUseNone(Carve(g, n, slotBytes).slots);
    TimesIsProduct(n, slotBytes);
    forall i: nat | i < n ensures Times(i, slotBytes / 2) == i * (slotBytes / 2) {
      TimesIsProduct(i, slotBytes / 2);
    }
  }

  lemma FreshSound(dp: DevicePool, slotBytes: nat)
    requires SoundPool(dp, slotBytes)
    ensures SoundPool(FreshPool(dp), slotBytes)
  {
    InUseNone(FreshPool(dp).slots);
  }

  lemma TakeSlotStack(dp: DevicePool, slotBytes: nat)
    requires StackSound(dp) && dp.freeSlots != []
    ensures dp.freeSlots[|dp.freeSlots| - 1] < |dp.slots|
    ensures StackSound(TakeSlot(dp, slotBytes))
  {
    var top := |dp.freeSlots| - 1;
    assert dp.freeSlots[top] in dp.freeSlots;
    DistinctInit<nat>(dp.freeSlots);
    assert forall i :: i in dp.freeSlots[..top] ==> i in dp.freeSlots;
  }

  lemma TakeSlotSound(dp: DevicePool, slotBytes: nat)
    requires SoundPool(dp, slotBytes) && dp.freeSlots != []
    ensures dp.freeSlots[|dp.freeSlots| - 1] < |dp.slots|
    ensures SoundPool(TakeSlot(dp, slotBytes), slotBytes)
  {
    TakeSlotStack(dp, slotBytes);
    var i := dp.freeSlots[|dp.freeSlots| - 1];
    assert i in dp.freeSlots;
    CountChange(dp, i, true, slotBytes);
  }

  lemma ReturnSlotSound(dp: DevicePool, i: nat, slotBytes: nat)
    requires SoundPool(dp, slotBytes) && i < |dp.slots| && dp.slots[i].inUse
    ensures SoundPool(ReturnSlot(dp, i, slotBytes), slotBytes)
  {
    hide PoolsSound;
    CountChange(dp, i, false, slotBytes);
    DistinctAppend(dp.freeSlots, i);
  }

  /** Flipping one slot moves `slotBytes` between the two counters, without wrapping. */
  lemma CountChange(dp: DevicePool, i: nat, b: bool, slotBytes: nat)
    requires Counted(dp, slotBytes) && i < |dp.slots| && dp.slots[i].inUse != b
    ensures var slots := dp.slots[i := dp.slots[i].(inUse := b)];
      && Times(InUse(slots), slotBytes) == (if b then dp.used + slotBytes else dp.used - slotBytes)
      && (b ==> slotBytes <= dp.free) && (!b ==> slotBytes <= dp.used)
  {
    InUseUpdate(dp.slots, i, b);
    InUseBound(dp.slots);
    var n := InUse(dp.slots);
    if b {
      TimesMonotone(n + 1, |dp.slots|, slotBytes);
    } else {
      TimesMonotone(1, n, slotBytes);
    }
  }

  // ---------------------------------------------------------------- operations keep the invariant

  /** The slot addresses that a handle was issued with are still those of its slot. */
  ghost predicate Backed(p: Pool, h: Handle) {
    h.id in p.origins && !p.origins[h.id].overflow ==>
      var o := p.origins[h.id];
      && o.device in p.pools && o.slot < |p.pools[o.device].slots|
      && h.k == p.pools[o.device].slots[o.slot].k && h.v == p.pools[o.device].slots[o.slot].v
      && h.maxSeqLen <= p.slotTokens
  }

  /** No operation moves a slot or re-homes a live allocation. */
  ghost predicate Stable(p: Pool, q: Pool) {
    && q.cfg == p.cfg && q.slotTokens == p.slotTokens && q.slotBytes == p.slotBytes
    && (forall id :: id in p.origins && id in q.origins ==> q.origins[id] == p.origins[id])
    && (forall d :: d in p.pools ==> d in q.pools && |q.pools[d].slots| == |p.pools[d].slots|)
    && (forall d, i :: d in p.pools && 0 <= i < |p.pools[d].slots| ==>
          q.pools[d].slots[i].k == p.pools[d].slots[i].k && q.pools[d].slots[i].v == p.pools[d].slots[i].v)
  }

  lemma TakeSlotsOwned(p: Pool, seqLen: nat, grants: seq<Grant>)
    requires Sound(p) && seqLen <= p.slotTokens && PoolAt(p, p.cfg.device).freeSlots != []
    ensures SlotsOwned(AllocateSingle(p, seqLen, grants).0)
  {
    hide Counted, Carved;
    var p' := AllocateSingle(p, seqLen, grants).0;
    var d := p.cfg.device;
    var i := p.pools[d].freeSlots[|p.pools[d].freeSlots| - 1];
    assert SoundPool(p.pools[d], p.slotBytes) && i in p.pools[d].freeSlots;
    forall e, j | e in p'.pools && 0 <= j < |p'.pools[e].slots| && p'.pools[e].slots[j].inUse
      ensures exists id :: Occupies(p', id, e, j)
    {
      if e == d && j == i {
        assert Occupies(p', p.nextId, e, j);
      } else {
        var id :| Occupies(p, id, e, j);
        assert Occupies(p', id, e, j);
      }
    }
  }

  /** A pool allocation takes the top of the free stack. */
  lemma TakeSound(p: Pool, seqLen: nat, grants: seq<Grant>)
    requires Sound(p) && seqLen <= p.slotTokens && PoolAt(p, p.cfg.device).freeSlots != []
    ensures var (p', r) := AllocateSingle(p, seqLen, grants);
      && r.Ok? && Sound(p') && Stable(p, p') && Backed(p', r.value) && r.value.IsValid()
  {
    hide Counted, SlotsOwned;
    var (p', r) := AllocateSingle(p, seqLen, grants);
    var d := p.cfg.device;
    var dp := p.pools[d];
    TakeSlotSound(dp, p.slotBytes);
    TakeSlotsOwned(p, seqLen, grants);
    var i := dp.freeSlots[|dp.freeSlots| - 1];
    assert i in dp.freeSlots && !dp.slots[i].inUse;
    assert p'.pools[d].slots[i].inUse;
  }

  /** An allocation that bypasses the pool leaves every slot as it was. */
  lemma BypassSound(p: Pool, q: Pool, d: DeviceId)
    requires Sound(p)
    requires q.cfg == p.cfg && q.slotBytes == p.slotBytes && q.slotTokens == p.slotTokens && p.nextId <= q.nextId
    requires q.pools == p.pools || (p.cfg.device !in p.pools && q.pools == p.pools[p.cfg.device := EMPTY])
    requires q.origins == p.origins ||
      (p.nextId < q.nextId && q.origins == p.origins[p.nextId := Origin(d, 0, true)])
    ensures Sound(q) && Stable(p, q)
  {
    assert SoundPool(EMPTY, p.slotBytes) by {
      InUseNone(EMPTY.slots);
    }
    forall e, j | e in q.pools && 0 <= j < |q.pools[e].slots| && q.pools[e].slots[j].inUse
      ensures exists id :: Occupies(q, id, e, j)
    {
      var id :| Occupies(p, id, e, j);
      assert Occupies(q, id, e, j);
    }
  }

  /** What an allocation comes to: a fresh id with a handle, or no new allocation. */
  ghost predicate Allocates(p: Pool, q: Pool, seqLen: nat, split: bool, r: Result<Handle>) {
    && p.nextId <= q.nextId
    && (r.Ok? ==>
          && r.value.IsValid() && r.value.id == p.nextId < q.nextId && r.value.maxSeqLen == seqLen
          && r.value.currentLen == 0 && r.value.tensorParallel == split
          && q.origins.Keys == p.origins.Keys + {p.nextId} && Backed(q, r.value))
    && (r.Err? ==> q.origins == p.origins)
  }

  lemma BypassAllocates(p: Pool, seqLen: nat, ds: seq<DeviceId>, grants: seq<Grant>)
    requires Sound(p) && !(ds == [] && seqLen <= p.slotTokens && PoolAt(p, p.cfg.device).freeSlots != [])
    ensures var (q, r) := AllocateSplit(p, seqLen, ds, grants);
      Sound(q) && Stable(p, q) && Allocates(p, q, seqLen, ds != [], r)
  {
    BypassShape(p, seqLen, ds, grants);
    BypassSound(p, AllocateSplit(p, seqLen, ds, grants).0, if ds == [] then p.cfg.device else ds[0]);
  }

  lemma BypassShape(p: Pool, seqLen: nat, ds: seq<DeviceId>, grants: seq<Grant>)
    requires Sound(p) && !(ds == [] && seqLen <= p.slotTokens && PoolAt(p, p.cfg.device).freeSlots != [])
    ensures var (q, r) := AllocateSplit(p, seqLen, ds, grants);
      && q.cfg == p.cfg && q.slotBytes == p.slotBytes && q.slotTokens == p.slotTokens
      && (q.pools == p.pools || (p.cfg.device !in p.pools && q.pools == p.pools[p.cfg.device := EMPTY]))
      && (if r.Ok? then q.origins == p.origins[p.nextId := Origin(if ds == [] then p.cfg.device else ds[0], 0, true)]
          else q.origins == p.origins)
      && Allocates(p, q, seqLen, ds != [], r)
  {
    hide PoolsSound;
    if ds == [] && seqLen <= p.slotTokens && p.cfg.device in p.pools {
      assert p.pools[p.cfg.device := PoolAt(p, p.cfg.device)] == p.pools;
    }
  }

  lemma AllocateSound(p: Pool, seqLen: nat, ds: seq<DeviceId>, grants: seq<Grant>)
    requires Sound(p)
    ensures var (q, r) := AllocateSplit(p, seqLen, ds, grants);
      Sound(q) && Stable(p, q) && Allocates(p, q, seqLen, ds != [], r)
  {
    hide Counted, PoolsSound, OriginsSound, Stable;
    if ds == [] && seqLen <= p.slotTokens && PoolAt(p, p.cfg.device).freeSlots != [] {
      TakeSound(p, seqLen, grants);
    } else {
      BypassAllocates(p, seqLen, ds, grants);
    }
  }

  /** After a reset every slot is free, in the order in which they were carved, and nothing is counted. */
  lemma ResetFrees(p: Pool, d: DeviceId)
    requires d in p.pools
    ensures var (dp, dq) := (p.pools[d], Reset(p).pools[d]);
      AllFree(dq) && |dq.slots| == |dp.slots| && dq.total == dp.total
  {
  }

  // ---------------------------------------------------------------- which memory an allocation gets

  ghost predicate FromPool(p: Pool, id: nat) {
    id in p.origins && !p.origins[id].overflow
  }

  /** The configured device's pool has a free slot of the length asked for. */
  ghost predicate HasSlot(p: Pool, seqLen: nat) {
    seqLen <= p.slotTokens && p.cfg.device in p.pools && p.pools[p.cfg.device].freeSlots != []
  }

  /** Whatever the device grants, an allocation that fits a free slot takes the one on top of the stack:
      the id is the pool's, its device counts one slot more, the slots below stay free, and nothing is taken
      from device memory. */
  lemma AllocateFromPool(p: Pool, seqLen: nat, grants: seq<Grant>)
    requires Sound(p) && HasSlot(p, seqLen)
    ensures var ((q, r), d) := (AllocateSplit(p, seqLen, [], grants), p.cfg.device);
      var (dp, n) := (p.pools[d], |p.pools[d].freeSlots| - 1);
      && r.Ok? && FromPool(q, r.value.id) && r.value.id == p.nextId && q.nextId == p.nextId + 1
      && q.origins == p.origins[p.nextId := Origin(d, dp.freeSlots[n], false)]
      && dp.freeSlots[n] < |dp.slots| && r.value.k == dp.slots[dp.freeSlots[n]].k
      && r.value.v == dp.slots[dp.freeSlots[n]].v && r.value.device == d && r.value.maxSeqLen == seqLen
      && d in q.pools && q.pools[d].freeSlots == dp.freeSlots[..n]
      && q.pools[d].used == dp.used + p.slotBytes && q.pools[d].free == dp.free - p.slotBytes
      && (forall e :: e in p.pools && e != d ==> e in q.pools && q.pools[e] == p.pools[e])
      && q.granted == p.granted
  {
    hide OriginsSound, SlotsOwned;
    var dp := p.pools[p.cfg.device];
    var i := dp.freeSlots[|dp.freeSlots| - 1];
    assert i in dp.freeSlots && SoundPool(dp, p.slotBytes);
    CountChange(dp, i, true, p.slotBytes);
  }

  /** No slot is taken, and every pool stays as it was. */
  ghost predicate NoSlotTaken(p: Pool, q: Pool) {
    && (forall e :: e in p.pools ==> e in q.pools && q.pools[e] == p.pools[e])
    && (forall e :: e in q.pools && e !in p.pools ==> q.pools[e] == EMPTY)
    && (forall id :: FromPool(q, id) <==> FromPool(p, id))
  }

  /** Otherwise it takes no slot. It gets device memory if that is allowed and the device grants it: its
      bytes from the configured device and from no other. It fails for want of resources exactly if that is
      not allowed, and internally exactly if the device refuses. */
  lemma AllocateBesidePool(p: Pool, seqLen: nat, grants: seq<Grant>)
    requires Sound(p) && !HasSlot(p, seqLen)
    ensures var (q, r) := AllocateSplit(p, seqLen, [], grants);
      && NoSlotTaken(p, q)
      && (r == Err(ResourceExhausted) <==> !p.allowOverflow)
      && (r == Err(Internal) <==> p.allowOverflow && grants == [])
      && (r.Err? ==> q.origins == p.origins && q.granted == p.granted && q.nextId == p.nextId)
      && (r.Ok? ==>
            && r.value == Handle(grants[0].k, grants[0].v, seqLen, 0, p.cfg.device, p.nextId, [], false)
            && q.origins == p.origins[p.nextId := Origin(p.cfg.device, 0, true)] && q.nextId == p.nextId + 1
            && (forall d :: On(q.granted, d)
                  == On(p.granted, d) + if d == p.cfg.device then seqLen * p.cfg.BytesPerToken() else 0))
  {
    hide PoolsSound, SlotsOwned;
  }

  /** Over several devices it never takes a slot; it succeeds exactly if every device grants memory, and the
      handle then names what each of them granted. */
  lemma AllocateAcross(p: Pool, seqLen: nat, ds: seq<DeviceId>, grants: seq<Grant>)
    requires Sound(p) && ds != []
    ensures var (q, r) := AllocateSplit(p, seqLen, ds, grants);
      && NoSlotTaken(p, q) && q.nextId == p.nextId + 1
      && (if |grants| < |ds| then r == Err(Internal) && q.origins == p.origins && q.granted == p.granted
          else
            && r.Ok? && |r.value.caches| == |ds|
            && r.value == Handle(grants[0].k, grants[0].v, seqLen, 0, ds[0], p.nextId, r.value.caches, true)
            && (forall i :: 0 <= i < |ds| ==>
                  r.value.caches[i]
                  == DeviceCache(grants[i].k, grants[i].v, ds[i], seqLen * p.cfg.BytesPerTokenPerDevice()))
            && q.origins == p.origins[p.nextId := Origin(ds[0], 0, true)])
  {
    hide PoolsSound, SlotsOwned;
  }

  lemma FreeSlotsOwned(p: Pool, h: Handle)
    requires Sound(p) && h.IsValid() && h.id in p.origins
    ensures SlotsOwned(Free(p, h).0)
  {
    hide PoolsSound;
    var p' := Free(p, h).0;
    forall d, i | d in p'.pools && 0 <= i < |p'.pools[d].slots| && p'.pools[d].slots[i].inUse
      ensures exists id :: Occupies(p', id, d, i)
    {
      var id :| Occupies(p, id, d, i);
      assert Occupies(p', id, d, i);
    }
  }

  /** Returning the slot of a live allocation. */
  lemma ReturnSound(p: Pool, h: Handle)
    requires Sound(p) && h.IsValid() && h.id in p.origins && !p.origins[h.id].overflow
    ensures Sound(Free(p, h).0) && Stable(p, Free(p, h).0)
  {
    hide SoundPool;
    FreeSlotsOwned(p, h);
    var o := p.origins[h.id];
    var dp := p.pools[o.device];
    ReturnSlotSound(dp, o.slot, p.slotBytes);
    var p' := Free(p, h).0;
    forall id | id in p'.origins ensures SoundOrigin(p', p'.origins[id]) {
      assert p.origins[id] != o;
    }
  }

  lemma FreeSound(p: Pool, h: Handle)
    requires Sound(p)
    ensures var (p', h') := Free(p, h);
      && Sound(p') && p'.nextId == p.nextId && Stable(p, p')
      && p'.origins == (if h.IsValid() then p.origins - {h.id} else p.origins)
      && (h.id !in p.origins ==> p' == p)
      && (h'.IsValid() <==> h.IsValid() && h.tensorParallel)
  {
    if h.IsValid() && h.id in p.origins {
      if p.origins[h.id].overflow {
        FreeSlotsOwned(p, h);
      } else {
        ReturnSound(p, h);
      }
    } else {
      assert h.id !in p.origins ==> p.origins - {h.id} == p.origins;
    }
  }

  lemma ResetSound(p: Pool)
    requires Sound(p)
    ensures Sound(Reset(p)) && Stable(p, Reset(p)) && Reset(p).nextId == p.nextId && Reset(p).origins == map[]
  {
    hide SoundPool;
    forall d | d in p.pools ensures SoundPool(FreshPool(p.pools[d]), p.slotBytes) {
      FreshSound(p.pools[d], p.slotBytes);
    }
  }

  /** Freeing an allocation from the pool puts its slot back on top of the stack, and moves no other. */
  lemma FreeReturnsSlot(p: Pool, h: Handle)
    requires Sound(p) && h.IsValid() && FromPool(p, h.id)
    ensures var (q, o) := (Free(p, h).0, p.origins[h.id]);
      && o.device in p.pools && o.device in q.pools
      && q.pools[o.device].freeSlots == p.pools[o.device].freeSlots + [o.slot]
      && (forall e :: e in p.pools && e != o.device ==> e in q.pools && q.pools[e] == p.pools[e])
      && q.granted == p.granted
  {
    assert SoundOrigin(p, p.origins[h.id]);
  }

  lemma TakenSlotReturns(dp: DevicePool, slotBytes: nat)
    requires SoundPool(dp, slotBytes) && dp.freeSlots != []
    ensures dp.freeSlots[|dp.freeSlots| - 1] < |dp.slots|
    ensures ReturnSlot(TakeSlot(dp, slotBytes), dp.freeSlots[|dp.freeSlots| - 1], slotBytes) == dp
  {
    var top := |dp.freeSlots| - 1;
    var i := dp.freeSlots[top];
    assert i in dp.freeSlots;
    CountChange(dp, i, true, slotBytes);
    var back := ReturnSlot(TakeSlot(dp, slotBytes), i, slotBytes);
    assert back.slots == dp.slots;
    assert back.freeSlots == dp.freeSlots[..top] + [i] == dp.freeSlots;
  }

  ghost predicate Restored(p: Pool, b: Pool) {
    b.origins == p.origins && forall e :: e in p.pools ==> e in b.pools && b.pools[e] == p.pools[e]
  }

  lemma TakeUndone(p: Pool, seqLen: nat, grants: seq<Grant>)
    requires Sound(p) && HasSlot(p, seqLen)
    ensures var (q, r) := AllocateSplit(p, seqLen, [], grants);
      && r.Ok? && Sound(q) && Restored(p, Free(q, r.value).0) && Free(q, r.value).0.granted == p.granted
  {
    hide SoundPool, SlotsOwned;
    AllocateSound(p, seqLen, [], grants);
    TakenSlotReturns(p.pools[p.cfg.device], p.slotBytes);
    var (q, r) := AllocateSplit(p, seqLen, [], grants);
    assert q.origins - {p.nextId} == p.origins;
  }

  lemma BesideUndone(p: Pool, seqLen: nat, ds: seq<DeviceId>, grants: seq<Grant>)
    requires Sound(p) && (ds != [] || !HasSlot(p, seqLen)) && AllocateSplit(p, seqLen, ds, grants).1.Ok?
    ensures var (q, r) := AllocateSplit(p, seqLen, ds, grants);
      && Sound(q) && Restored(p, Free(q, r.value).0)
      && (ds == [] ==> forall d :: On(Free(q, r.value).0.granted, d) == On(p.granted, d))
  {
    hide PoolsSound, SlotsOwned, SoundPool, Stable, Backed;
    AllocateSound(p, seqLen, ds, grants);
    var q := AllocateSplit(p, seqLen, ds, grants).0;
    assert q.origins - {p.nextId} == p.origins;
  }

  /** An allocation that is freed at once leaves no trace: the stacks, the slots, the counters and the live
      allocations are as before, and for a single device so is what the devices have handed out. */
  lemma AllocateUndone(p: Pool, seqLen: nat, ds: seq<DeviceId>, grants: seq<Grant>)
    requires Sound(p) && AllocateSplit(p, seqLen, ds, grants).1.Ok?
    ensures var (q, r) := AllocateSplit(p, seqLen, ds, grants);
      && Sound(q) && Restored(p, Free(q, r.value).0)
      && (ds == [] ==> forall d :: On(Free(q, r.value).0.granted, d) == On(p.granted, d))
  {
    hide Sound, Free, Restored;
    if ds == [] && HasSlot(p, seqLen) {
      TakeUndone(p, seqLen, grants);
    } else {
      BesideUndone(p, seqLen, ds, grants);
    }
  }

  // ---------------------------------------------------------------- bytes

  /** What device `d` counts as used. */
  function UsedOn(p: Pool, d: DeviceId): nat {
    if d in p.pools then p.pools[d].used else 0
  }

  /** The bytes of device `d`'s pool that a handle owns: its slot, if it has one there. */
  function SlotOn(p: Pool, h: Handle, d: DeviceId): nat {
    if h.IsValid() && h.id in p.origins && !p.origins[h.id].overflow && p.origins[h.id].device == d
    then p.slotBytes else 0
  }

  lemma TakeCounts(p: Pool, seqLen: nat, grants: seq<Grant>, d: DeviceId)
    requires Sound(p) && seqLen <= p.slotTokens && PoolAt(p, p.cfg.device).freeSlots != []
    ensures var (p', r) := AllocateSingle(p, seqLen, grants);
      r.Ok? && r.value.IsValid() && UsedOn(p', d) == UsedOn(p, d) + SlotOn(p', r.value, d)
  {
    hide OriginsSound;
    var dp := p.pools[p.cfg.device];
    var i := dp.freeSlots[|dp.freeSlots| - 1];
    assert i in dp.freeSlots && SoundPool(dp, p.slotBytes);
    CountChange(dp, i, true, p.slotBytes);
    assert dp.slots[i].k != 0 && dp.slots[i].v != 0;
  }

  /** An allocation is counted on the device whose slot it takes, and nowhere else. */
  lemma AllocateCounts(p: Pool, seqLen: nat, ds: seq<DeviceId>, grants: seq<Grant>, d: DeviceId)
    requires Sound(p)
    ensures var (p', r) := AllocateSplit(p, seqLen, ds, grants);
      UsedOn(p', d) == UsedOn(p, d) + if r.Ok? then SlotOn(p', r.value, d) else 0
  {
    hide OriginsSound;
    if ds == [] && seqLen <= p.slotTokens && PoolAt(p, p.cfg.device).freeSlots != [] {
      TakeCounts(p, seqLen, grants, d);
    }
  }

  /** Freeing gives back the bytes of the slot, and no others. */
  lemma FreeCounts(p: Pool, h: Handle, d: DeviceId)
    requires Sound(p)
    ensures UsedOn(Free(p, h).0, d) == UsedOn(p, d) - SlotOn(p, h, d)
  {
    hide SlotsOwned, StackSound;
    if h.IsValid() && h.id in p.origins && !p.origins[h.id].overflow {
      var o := p.origins[h.id];
      assert SoundOrigin(p, o) && SoundPool(p.pools[o.device], p.slotBytes);
      CountChange(p.pools[o.device], o.slot, false, p.slotBytes);
    }
  }

  // ---------------------------------------------------------------- device memory outside the pools

  /** The memory of device `d` outside its pool that a handle names. Once a split handle has been freed
      this is what was not given back: the caches on all devices but the first. */
  function MemoryOn(p: Pool, h: Handle, d: DeviceId): nat {
    if !h.IsValid() then 0
    else if h.tensorParallel then CachedOn(if h.id in p.origins then h.caches else h.caches[1..], d)
    else if h.id in p.origins && p.origins[h.id].overflow && p.origins[h.id].device == d then
      p.cfg.BytesFor(h.maxSeqLen)
    else 0
  }

  /** A live split handle is outside the pool, on the device of its first cache. */
  ghost predicate Rooted(p: Pool, h: Handle) {
    h.tensorParallel && h.id in p.origins ==>
      h.caches != [] && p.origins[h.id].overflow && p.origins[h.id].device == h.caches[0].device
  }

  /** An allocation takes from each device exactly what its handle names there. */
  lemma AllocateMemory(p: Pool, seqLen: nat, ds: seq<DeviceId>, grants: seq<Grant>, d: DeviceId)
    requires Sound(p) && Distinct(ds)
    ensures var (p', r) := AllocateSplit(p, seqLen, ds, grants);
      && On(p'.granted, d) == On(p.granted, d) + (if r.Ok? then MemoryOn(p', r.value, d) else 0)
      && (r.Ok? ==> Rooted(p', r.value))
  {
    hide Counted, OriginsSound;
    var r := AllocateSplit(p, seqLen, ds, grants).1;
    if ds != [] && r.Ok? {
      SplitCaches(r.value.caches, ds, p.cfg.BytesPerDevice(seqLen), d);
    }
  }

  /** Freeing gives back what the handle named and its remainder no longer does. */
  lemma FreeMemory(p: Pool, h: Handle, d: DeviceId)
    requires Sound(p) && 0 !in p.origins && h.IsValid() && Rooted(p, h)
    ensures var (p', h') := Free(p, h);
      && On(p'.granted, d) == On(p.granted, d) - MemoryOn(p, h, d) + MemoryOn(p', h', d)
      && Rooted(p', h')
  {
    if h.tensorParallel {
      CachedHead(h.caches, d);
    }
  }

  /** What another handle names does not change. */
  lemma AllocateKeepsMemory(p: Pool, seqLen: nat, ds: seq<DeviceId>, grants: seq<Grant>, h: Handle, d: DeviceId)
    requires Sound(p) && (h.id in p.origins || h.id < p.nextId)
    ensures var p' := AllocateSplit(p, seqLen, ds, grants).0;
      MemoryOn(p', h, d) == MemoryOn(p, h, d) && (Rooted(p, h) ==> Rooted(p', h))
  {
  }

  lemma FreeKeepsMemory(p: Pool, h: Handle, g: Handle, d: DeviceId)
    requires Sound(p) && g.id != h.id
    ensures var p' := Free(p, h).0; MemoryOn(p', g, d) == MemoryOn(p, g, d) && (Rooted(p, g) ==> Rooted(p', g))
  {
  }

  // ---------------------------------------------------------------- whole runs

  datatype Op =
    | OpAllocate(seqLen: nat, devices: seq<DeviceId>, grants: seq<Grant>)
    | OpFree(handle: Handle)
    | OpReset

  /** A run, together with every handle it ever issued. */
  datatype Ledger = Ledger(pool: Pool, issued: map<nat, Handle>)

  function Step(l: Ledger, op: Op): Ledger
    requires Sound(l.pool)
  {
    match op
    case OpAllocate(n, ds, grants) =>
      var (p, r) := AllocateSplit(l.pool, n, ds, grants);
      Ledger(p, if r.Ok? then l.issued[r.value.id := r.value] else l.issued)
    case OpFree(h) => l.(pool := Free(l.pool, h).0)
    case OpReset => l.(pool := Reset(l.pool))
  }

  ghost predicate LedgerSound(l: Ledger) {
    && Sound(l.pool)
    && l.pool.slotBytes == l.pool.cfg.BytesFor(l.pool.slotTokens)
    && (forall id :: id in l.issued ==> l.issued[id].id == id < l.pool.nextId && Backed(l.pool, l.issued[id]))
    && (forall id :: id in l.pool.origins ==> id in l.issued)
  }

  lemma StepSound(l: Ledger, op: Op)
    requires LedgerSound(l)
    ensures LedgerSound(Step(l, op))
    ensures l.pool.nextId <= Step(l, op).pool.nextId
    ensures forall id :: id < l.pool.nextId && id in Step(l, op).pool.origins ==> id in l.pool.origins
  {
    hide PoolsSound, SlotsOwned, AllocateSplit, Free;
    match op
    case OpAllocate(n, ds, grants) =>
      AllocateSound(l.pool, n, ds, grants);
      var q := AllocateSplit(l.pool, n, ds, grants).0;
      assert forall id :: id in q.origins ==> id in q.origins.Keys;
    case OpFree(h) => FreeSound(l.pool, h);
    case OpReset => ResetSound(l.pool);
  }

  ghost function Run(l: Ledger, ops: seq<Op>): (r: Ledger)
    requires LedgerSound(l)
    ensures LedgerSound(r) && l.pool.nextId <= r.pool.nextId
    ensures forall id :: id < l.pool.nextId && id in r.pool.origins ==> id in l.pool.origins
    decreases |ops|
  {
    if ops == [] then l else StepSound(l, ops[0]); Run(Step(l, ops[0]), ops[1..])
  }

  /** `[base, base + half)` lies in the half-pool that starts at `start`. */
  ghost predicate Inside(base: Ptr, half: nat, start: Ptr, n: nat) {
    start <= base && base + half <= start + n * half
  }

  ghost predicate Apart(a: Ptr, b: Ptr, half: nat) {
    a + half <= b || b + half <= a
  }

  lemma SlotRanges(dp: DevicePool, half: nat, i: nat, j: nat)
    requires Carved(dp, half) && i < |dp.slots| && j < |dp.slots|
    ensures Inside(dp.slots[i].k, half, dp.baseK, |dp.slots|) && Inside(dp.slots[i].v, half, dp.baseV, |dp.slots|)
    ensures i != j ==> Apart(dp.slots[i].k, dp.slots[j].k, half) && Apart(dp.slots[i].v, dp.slots[j].v, half)
  {
    TimesIsProduct(|dp.slots|, half);
    TimesMonotone(i + 1, |dp.slots|, half);
    if i < j {
      TimesMonotone(i + 1, j, half);
    } else if j < i {
      TimesMonotone(j + 1, i, half);
    }
  }

  lemma SlotLongEnough(p: Pool, n: nat)
    requires p.slotBytes == p.cfg.BytesFor(p.slotTokens) && n <= p.slotTokens
    ensures p.cfg.BytesFor(n) / 2 <= p.slotBytes / 2
  {
    var x := p.cfg.BytesPerToken();
    TimesIsProduct(n, x);
    TimesIsProduct(p.slotTokens, x);
    TimesMonotone(n, p.slotTokens, x);
  }

  /** The slots of a pool lie in the two halves that the devices granted. */
  lemma {:induction false} SlotsInHalf(n: nat, slotBytes: nat)
    ensures n * (slotBytes / 2) <= Times(n, slotBytes) / 2
  {
    if n > 0 {
      SlotsInHalf(n - 1, slotBytes);
      assert n * (slotBytes / 2) == (n - 1) * (slotBytes / 2) + slotBytes / 2;
    }
  }

  /** In every state of every run, two live allocations from the pool of one device own disjoint K
      ranges and disjoint V ranges, each inside its half of the pool and long enough for the length
      the handle was asked for. */
  lemma LiveRangesDisjoint(l: Ledger, ops: seq<Op>, a: nat, b: nat)
    requires LedgerSound(l)
    requires FromPool(Run(l, ops).pool, a) && FromPool(Run(l, ops).pool, b)
    requires a != b && Run(l, ops).pool.origins[a].device == Run(l, ops).pool.origins[b].device
    ensures var r := Run(l, ops);
      var (ha, hb, half) := (r.issued[a], r.issued[b], r.pool.slotBytes / 2);
      var dp := r.pool.pools[r.pool.origins[a].device];
      && Apart(ha.k, hb.k, half) && Apart(ha.v, hb.v, half)
      && Inside(ha.k, half, dp.baseK, |dp.slots|) && Inside(ha.v, half, dp.baseV, |dp.slots|)
      && |dp.slots| * half <= dp.total / 2
      && r.pool.cfg.BytesFor(ha.maxSeqLen) / 2 <= half
  {
    var r := Run(l, ops);
    var (oa, ob) := (r.pool.origins[a], r.pool.origins[b]);
    assert oa.slot != ob.slot;
    SlotRanges(r.pool.pools[oa.device], r.pool.slotBytes / 2, oa.slot, ob.slot);
    SlotLongEnough(r.pool, r.issued[a].maxSeqLen);
    SlotsInHalf(|r.pool.pools[oa.device].slots|, r.pool.slotBytes);
  }

  /** An id that is not live, because it was freed or because the pool was reset, is never live again:
      freeing any copy of its handle, at any later time, changes nothing. */
  lemma StaleFreeIsHarmless(l: Ledger, ops: seq<Op>, h: Handle)
    requires LedgerSound(l)
    requires h.id < l.pool.nextId && h.id !in l.pool.origins
    ensures Free(Run(l, ops).pool, h).0 == Run(l, ops).pool
  {
    FreeSound(Run(l, ops).pool, h);
  }
}
