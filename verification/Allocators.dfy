/** The contiguous allocator as it is written: byte counters updated device by device
    (src/kvcache/kv_allocator.cpp:11-375). */
module ContiguousAllocator {
  import opened Wrappers
  import opened Words
  import opened KvCache
  import C = Contiguous

  class Allocator {
    const config: Config
    var stats: map<DeviceId, C.Stats>
    var allocations: map<nat, nat>
    var nextId: nat
    ghost var leaked: map<DeviceId, nat>

    ghost function Contents(): C.Contiguous
      reads this
    {
      C.Contiguous(config, stats, allocations, nextId, leaked)
    }

    /** `initialize`: `memory` bytes on each managed device. */
    constructor (config: Config, memory: nat)
      requires memory < WORD
      ensures this.config == config && nextId == 1 && allocations == map[] && leaked == map[]
      ensures forall d :: d in stats <==> d in (if config.devices == [] then [config.device] else config.devices)
      ensures forall d :: d in stats ==> stats[d] == C.Stats(memory, 0, memory)
      ensures C.Balanced(Contents()) && C.IdsBelow(Contents())
    {
      this.config := config;
      stats, allocations, nextId, leaked := map[], map[], 1, map[];
      new;
      var devices := if config.devices == [] then [config.device] else config.devices;
      for i := 0 to |devices|
        invariant nextId == 1 && allocations == map[] && leaked == map[]
        invariant forall d :: d in stats <==> d in devices[..i]
        invariant forall d :: d in stats ==> stats[d] == C.Stats(memory, 0, memory)
      {
        stats := stats[devices[i] := C.Stats(memory, 0, memory)];
        assert devices[..i + 1] == devices[..i] + [devices[i]];
      }
      assert devices[..|devices|] == devices;
    }

    /** `grant` is the outcome of the two device allocations. */
    method Allocate(seqLen: nat, grant: Option<Grant>) returns (r: Result<Handle>)
      modifies this
      ensures (Contents(), r) == C.AllocateSingle(old(Contents()), seqLen, if grant.Some? then [grant.value] else [])
    {
      var need := config.BytesFor(seqLen);
      var d := config.device;
      if d !in stats {
        return Err(Internal);
      }
      if need > stats[d].free {
        return Err(ResourceExhausted);
      }
      if grant.None? {
        return Err(Internal);
      }
      stats := stats[d := stats[d].(used := Wrap(stats[d].used + need), free := Wrap(stats[d].free - need))];
      var h := Handle(grant.value.k, grant.value.v, seqLen, 0, d, nextId, [], false);
      nextId := nextId + 1;
      allocations := allocations[h.id := need];
      return Ok(h);
    }

    /** The check of every device before anything is allocated. */
    method Blocked(devices: seq<DeviceId>, bytes: nat) returns (e: Option<Error>)
      ensures e == C.Precheck(stats, devices, bytes)
    {
      var i := 0;
      while i < |devices|
        invariant 0 <= i <= |devices|
        invariant C.Precheck(stats, devices, bytes) == C.Precheck(stats, devices[i..], bytes)
      {
        assert devices[i..][1..] == devices[i + 1..];
        if devices[i] !in stats {
          return Some(Internal);
        }
        if bytes > stats[devices[i]].free {
          return Some(ResourceExhausted);
        }
        i := i + 1;
      }
      return None;
    }

    /** The devices grant their memory one after the other, until one refuses or all have. */
    method GrantAll(devices: seq<DeviceId>, bytes: nat, grants: seq<Grant>) returns (caches: seq<DeviceCache>)
      requires forall d :: d in devices ==> d in stats
      modifies this`stats
      ensures |caches| == if |grants| < |devices| then |grants| else |devices|
      ensures stats == C.TakeAll(old(stats), devices[..|caches|], bytes)
      ensures forall j :: 0 <= j < |caches| ==> caches[j] == DeviceCache(grants[j].k, grants[j].v, devices[j], bytes)
    {
      caches := [];
      for i := 0 to |devices|
        invariant i <= |grants| && |caches| == i && stats.Keys == old(stats).Keys
        invariant stats == C.TakeAll(old(stats), devices[..i], bytes)
        invariant forall j :: 0 <= j < i ==> caches[j] == DeviceCache(grants[j].k, grants[j].v, devices[j], bytes)
      {
        if i >= |grants| {
          return;
        }
        var d := devices[i];
        assert d in devices;
        caches := caches + [DeviceCache(grants[i].k, grants[i].v, d, bytes)];
        stats := stats[d := stats[d].(used := Wrap(stats[d].used + bytes), free := Wrap(stats[d].free - bytes))];
        assert devices[..i + 1][..i] == devices[..i];
      }
    }

    method AllocateTensorParallel(seqLen: nat, devices: seq<DeviceId>, grants: seq<Grant>) returns (r: Result<Handle>)
      modifies this
      ensures (Contents(), r) == C.AllocateSplit(old(Contents()), seqLen, devices, grants)
    {
      if devices == [] {
        r := Allocate(seqLen, if grants == [] then None else Some(grants[0]));
        return;
      }
      var bytes := config.BytesPerDevice(seqLen);
      var blocked := Blocked(devices, bytes);
      if blocked.Some? {
        return Err(blocked.value);
      }
      var id := nextId;
      nextId := nextId + 1;
      assert forall d :: d in devices ==> C.Serves(stats, d, bytes);
      var caches := GrantAll(devices, bytes, grants);
      if |caches| < |devices| {
        leaked := C.AddLeak(leaked, devices[..|caches|], bytes);
        return Err(Internal);
      }
      assert devices[..|devices|] == devices;
      allocations := allocations[id := bytes * |devices|];
      assert caches == SplitHandle(grants, seqLen, devices, bytes, id).caches;
      return Ok(Handle(caches[0].k, caches[0].v, seqLen, 0, devices[0], id, caches, true));
    }

    /** `free`; the caller's handle is replaced by the returned one. */
    method Free(h: Handle) returns (h': Handle)
      modifies this
      ensures (Contents(), h') == C.Free(old(Contents()), h)
    {
      if !h.IsValid() {
        return h;
      }
      if h.tensorParallel {
        for i := 0 to |h.caches|
          invariant allocations == old(allocations) && leaked == old(leaked) && nextId == old(nextId)
          invariant stats == C.GiveAll(old(stats), h.caches[..i])
        {
          var c := h.caches[i];
          assert h.caches[..i + 1][..i] == h.caches[..i];
          if c.device in stats {
            var s := stats[c.device];
            stats := stats[c.device := s.(used := Wrap(s.used - c.bytes), free := Wrap(s.free + c.bytes))];
          }
        }
        assert h.caches[..|h.caches|] == h.caches;
      } else if h.device in stats {
        if h.id in allocations {
          var (s, bytes) := (stats[h.device], allocations[h.id]);
          stats := stats[h.device := s.(used := Wrap(s.used - bytes), free := Wrap(s.free + bytes))];
        }
      }
      allocations := allocations - {h.id};
      return h.(k := 0, v := 0, caches := [], id := 0);
    }

    /** Whether `Allocate` succeeds if the device grants the memory. */
    method CanAllocate(seqLen: nat) returns (b: bool)
      ensures forall g :: C.AllocateSingle(Contents(), seqLen, [g]).1.Ok? == b
    {
      return config.device in stats && config.BytesFor(seqLen) <= stats[config.device].free;
    }

    /** `order` is the order in which the map happens to list its devices. */
    method Reset(order: seq<DeviceId>)
      requires forall d :: d in order <==> d in stats
      modifies this
      ensures Contents() == C.Reset(old(Contents()))
      ensures allocations == map[] && nextId == old(nextId) && stats.Keys == old(stats).Keys
      ensures forall d :: d in stats ==> stats[d] == C.Stats(old(stats)[d].total, 0, old(stats)[d].total)
    {
      for i := 0 to |order|
        invariant stats.Keys == old(stats.Keys) && allocations == old(allocations) && nextId == old(nextId)
        invariant forall d :: d in stats ==>
          stats[d] == if d in order[..i] then C.Stats(old(stats[d].total), 0, old(stats[d].total)) else old(stats[d])
      {
        var d := order[i];
        stats := stats[d := stats[d].(used := 0, free := stats[d].total)];
        assert order[..i + 1] == order[..i] + [d];
      }
      assert order[..|order|] == order;
      allocations := map[];
      leaked := map[];
      C.ResetMeans(old(Contents()), stats);
    }
  }
}

/** The pooled allocator as it is written (src/kvcache/kv_allocator.cpp:383-788). */
module PooledAllocator {
  import opened Wrappers
  import opened Words
  import opened Sums
  import opened KvCache
  import P = Pool

  class Allocator {
    const config: Config
    const slotTokens: nat
    const slotBytes: nat
    const numSlots: nat
    const allowOverflow: bool
    var pools: map<DeviceId, P.DevicePool>
    var origins: map<nat, P.Origin>
    var nextId: nat
    var granted: map<DeviceId, int>

    ghost function Contents(): P.Pool
      reads this
    {
      P.Pool(config, slotTokens, slotBytes, allowOverflow, pools, origins, nextId, granted)
    }

    constructor (config: Config, slotTokens: nat, numSlots: nat, allowOverflow: bool)
      ensures this.config == config && this.slotTokens == slotTokens && this.numSlots == numSlots
      ensures this.allowOverflow == allowOverflow && slotBytes == config.BytesFor(slotTokens)
      ensures pools == map[] && origins == map[] && nextId == 1 && granted == map[] && P.Sound(Contents())
    {
      this.config, this.slotTokens, this.numSlots, this.allowOverflow := config, slotTokens, numSlots, allowOverflow;
      slotBytes := config.BytesFor(slotTokens);
      pools, origins, nextId, granted := map[], map[], 1, map[];
    }

    /** `allocate_pool_for_device`, once the device has granted both halves: the loop that carves slots. */
    method Carve(g: Grant) returns (pool: P.DevicePool)
      ensures pool == P.Carve(g, numSlots, slotBytes)
    {
      var (slots: seq<P.Slot>, free: seq<nat>) := ([], []);
      var half := slotBytes / 2;
      for i := 0 to numSlots
        invariant |slots| == i && free == P.Upto(i)
        invariant forall j :: 0 <= j < i ==> slots[j] == P.Slot(g.k + j * half, g.v + j * half, false)
      {
        slots := slots + [P.Slot(g.k + i * half, g.v + i * half, false)];
        free := free + [i];
      }
      return P.DevicePool(slots, free, g.k, g.v, slotBytes * numSlots, 0, slotBytes * numSlots);
    }

    /** `pool` is carved from what device `d` granted; if it is listed twice, the second time. */
    ghost predicate CarvedFor(devices: seq<DeviceId>, n: nat, grants: seq<Grant>, d: DeviceId, pool: P.DevicePool)
      requires n <= |devices|
    {
      exists i :: 0 <= i < n && i < |grants| && devices[i] == d && pool == P.Carve(grants[i], numSlots, slotBytes)
        && forall j :: i < j < n ==> devices[j] != d
    }

    lemma CarvedNext(devices: seq<DeviceId>, i: nat, grants: seq<Grant>, d: DeviceId, was: P.DevicePool,
                     pool: P.DevicePool)
      requires i < |devices| && i < |grants| && pool == P.Carve(grants[i], numSlots, slotBytes)
      requires d == devices[i] || CarvedFor(devices, i, grants, d, was)
      ensures CarvedFor(devices, i + 1, grants, d, if d == devices[i] then pool else was)
    {
      hide P.Carve;
      if d != devices[i] {
        var k :| 0 <= k < i && k < |grants| && devices[k] == d && was == P.Carve(grants[k], numSlots, slotBytes)
          && forall j :: k < j < i ==> devices[j] != d;
      }
    }

    lemma CarvedSound(devices: seq<DeviceId>, grants: seq<Grant>)
      requires slotBytes * numSlots < WORD && origins == map[]
      requires forall d :: d in pools ==> CarvedFor(devices, |devices|, grants, d, pools[d])
      ensures P.Sound(Contents())
      ensures forall d :: d in pools ==> |pools[d].slots| == numSlots && P.AllFree(pools[d])
    {
      forall d | d in pools
        ensures P.SoundPool(pools[d], slotBytes) && P.AllFree(pools[d]) && |pools[d].slots| == numSlots
      {
        assert CarvedFor(devices, |devices|, grants, d, pools[d]);
        var i :| 0 <= i < |grants| && pools[d] == P.Carve(grants[i], numSlots, slotBytes);
        P.CarveSound(grants[i], numSlots, slotBytes);
      }
    }

    /** `initialize`: a pool on each managed device, or none when a device refuses. */
    method Initialize(grants: seq<Grant>) returns (r: Result<()>)
      requires pools == map[] && origins == map[] && slotBytes * numSlots < WORD
      modifies this`pools
      ensures P.Sound(Contents())
      ensures var devices := if config.devices == [] then [config.device] else config.devices;
        && (r.Ok? <==> |devices| <= |grants|)
        && (forall d :: d in pools <==> r.Ok? && d in devices)
        && (forall d :: d in pools ==> |pools[d].slots| == numSlots && P.AllFree(pools[d]))
        && (r.Ok? ==> forall d :: d in pools ==> CarvedFor(devices, |devices|, grants, d, pools[d]))
    {
      hide P.Carve, P.SoundPool, P.AllFree, P.Sound, CarvedFor;
      var devices := if config.devices == [] then [config.device] else config.devices;
      for i := 0 to |devices|
        invariant i <= |grants|
        invariant forall d :: d in pools <==> d in devices[..i]
        invariant forall d :: d in pools ==> CarvedFor(devices, i, grants, d, pools[d])
      {
        if i >= |grants| {
          pools := map[];
          CarvedSound(devices, grants);
          return Err(Internal);
        }
        var pool := Carve(grants[i]);
        ghost var before := pools;
        pools := pools[devices[i] := pool];
        forall d | d in pools ensures CarvedFor(devices, i + 1, grants, d, pools[d]) {
          CarvedNext(devices, i, grants, d, if d in before then before[d] else pool, pool);
        }
        assert devices[..i + 1] == devices[..i] + [devices[i]];
      }
      assert devices[..|devices|] == devices;
      CarvedSound(devices, grants);
      return Ok(());
    }

    /** Pops the top of the free stack. */
    method TakeTop(pool: P.DevicePool) returns (i: nat, after: P.DevicePool)
      requires pool.freeSlots != [] && pool.freeSlots[|pool.freeSlots| - 1] < |pool.slots|
      ensures i == pool.freeSlots[|pool.freeSlots| - 1]
      ensures after == P.TakeSlot(pool, slotBytes)
    {
      var top := |pool.freeSlots| - 1;
      i := pool.freeSlots[top];
      after := pool.(freeSlots := pool.freeSlots[..top]);
      after := after.(slots := after.slots[i := after.slots[i].(inUse := true)]);
      after := after.(used := Wrap(after.used + slotBytes), free := Wrap(after.free - slotBytes));
    }

    /** `allocate_fallback`: memory outside the pool. */
    method AllocateFallback(seqLen: nat, grant: Option<Grant>) returns (r: Result<Handle>)
      requires allowOverflow
      modifies this
      ensures (Contents(), r) == P.Overflow(old(Contents()), seqLen, if grant.Some? then [grant.value] else [])
    {
      if grant.None? {
        return Err(Internal);
      }
      var h := Handle(grant.value.k, grant.value.v, seqLen, 0, config.device, nextId, [], false);
      nextId := nextId + 1;
      origins := origins[h.id := P.Origin(config.device, 0, true)];
      granted := Grown(granted, [config.device], config.BytesFor(seqLen));
      return Ok(h);
    }

    method Allocate(seqLen: nat, grant: Option<Grant>) returns (r: Result<Handle>)
      requires P.Sound(Contents())
      modifies this
      ensures (Contents(), r) == P.AllocateSingle(old(Contents()), seqLen, if grant.Some? then [grant.value] else [])
      ensures if seqLen <= slotTokens && config.device in old(pools) && old(pools)[config.device].freeSlots != []
              then r.Ok? && P.FromPool(Contents(), r.value.id) && granted == old(granted)
              else forall d :: d in old(pools) ==> d in pools && pools[d] == old(pools)[d]
    {
      hide P.Counted, P.Carved, P.OriginsSound, P.SlotsOwned;
      var d := config.device;
      if seqLen <= slotTokens {
        var pool := if d in pools then pools[d] else P.EMPTY;
        if pool.freeSlots != [] {
          assert pool.freeSlots[|pool.freeSlots| - 1] in pool.freeSlots;
          var i, after := TakeTop(pool);
          var h := Handle(pool.slots[i].k, pool.slots[i].v, seqLen, 0, d, nextId, [], false);
          nextId := nextId + 1;
          origins := origins[h.id := P.Origin(d, i, false)];
          pools := pools[d := after];
          return Ok(h);
        }
        pools := pools[d := pool];
      }
      if !allowOverflow {
        return Err(ResourceExhausted);
      }
      r := AllocateFallback(seqLen, grant);
    }

    method AllocateTensorParallel(seqLen: nat, devices: seq<DeviceId>, grants: seq<Grant>) returns (r: Result<Handle>)
      requires P.Sound(Contents())
      modifies this
      ensures (Contents(), r) == P.AllocateSplit(old(Contents()), seqLen, devices, grants)
    {
      if devices == [] {
        r := Allocate(seqLen, if grants == [] then None else Some(grants[0]));
        return;
      }
      var bytes := config.BytesPerDevice(seqLen);
      var id := nextId;
      nextId := nextId + 1;
      var caches: seq<DeviceCache> := [];
      for i := 0 to |devices|
        invariant i <= |grants| && |caches| == i && nextId == old(nextId) + 1
        invariant pools == old(pools) && origins == old(origins) && granted == old(granted)
        invariant forall j :: 0 <= j < i ==> caches[j] == DeviceCache(grants[j].k, grants[j].v, devices[j], bytes)
      {
        if i >= |grants| {
          return Err(Internal);
        }
        caches := caches + [DeviceCache(grants[i].k, grants[i].v, devices[i], bytes)];
      }
      granted := Grown(granted, devices, bytes);
      origins := origins[id := P.Origin(devices[0], 0, true)];
      assert caches == SplitHandle(grants, seqLen, devices, bytes, id).caches;
      return Ok(Handle(caches[0].k, caches[0].v, seqLen, 0, devices[0], id, caches, true));
    }

    /** Returns a slot to its pool. */
    method PutBack(pool: P.DevicePool, i: nat) returns (after: P.DevicePool)
      requires i < |pool.slots|
      ensures after == P.ReturnSlot(pool, i, slotBytes)
    {
      after := pool.(slots := pool.slots[i := pool.slots[i].(inUse := false)]);
      after := after.(freeSlots := after.freeSlots + [i]);
      after := after.(used := Wrap(after.used - slotBytes), free := Wrap(after.free + slotBytes));
    }

    /** `free`; the caller's handle is replaced by the returned one. */
    method Free(h: Handle) returns (h': Handle)
      requires P.Sound(Contents())
      modifies this
      ensures (Contents(), h') == P.Free(old(Contents()), h)
    {
      if !h.IsValid() {
        return h;
      }
      if h.id in origins {
        var o := origins[h.id];
        assert P.SoundOrigin(Contents(), o);
        if o.overflow {
          granted := Grown(granted, [o.device], 0 - P.FirstBytes(config, h));
        } else {
          var after := PutBack(pools[o.device], o.slot);
          pools := pools[o.device := after];
        }
        origins := origins - {h.id};
      }
      return h.(k := 0, v := 0, id := 0);
    }

    /** Whether `Allocate` succeeds if the device grants the memory. */
    method CanAllocate(seqLen: nat) returns (b: bool)
      requires P.Sound(Contents())
      ensures forall g :: P.AllocateSingle(Contents(), seqLen, [g]).1.Ok? == b
    {
      if seqLen <= slotTokens && config.device in pools && pools[config.device].freeSlots != [] {
        return true;
      }
      return allowOverflow;
    }

    /** The inner loop of `reset`: every slot is free again. */
    method Refill(pool: P.DevicePool) returns (filled: P.DevicePool)
      ensures filled == P.FreshPool(pool)
    {
      var (slots, free: seq<nat>) := (pool.slots, []);
      for i := 0 to |slots|
        invariant |slots| == |pool.slots| && free == P.Upto(i)
        invariant forall j :: 0 <= j < |slots| ==>
          slots[j] == if j < i then pool.slots[j].(inUse := false) else pool.slots[j]
      {
        slots := slots[i := slots[i].(inUse := false)];
        free := free + [i];
      }
      return pool.(slots := slots, freeSlots := free, used := 0, free := pool.total);
    }

    /** `order` is the order in which the map happens to list its devices. */
    method Reset(order: seq<DeviceId>)
      requires Distinct(order) && forall d :: d in order <==> d in pools
      modifies this
      ensures Contents() == P.Reset(old(Contents()))
      ensures origins == map[] && nextId == old(nextId) && pools.Keys == old(pools).Keys
      ensures forall d :: d in pools ==> P.AllFree(pools[d]) && |pools[d].slots| == |old(pools)[d].slots|
    {
      hide P.FreshPool, Distinct;
      DistinctMeaning(order);
      for i := 0 to |order|
        invariant pools.Keys == old(pools.Keys) && origins == old(origins) && nextId == old(nextId)
        invariant granted == old(granted)
        invariant forall d :: d in pools ==>
          pools[d] == if d in order[..i] then P.FreshPool(old(pools[d])) else old(pools[d])
      {
        var d := order[i];
        assert d !in order[..i];
        var filled := Refill(pools[d]);
        pools := pools[d := filled];
        assert order[..i + 1] == order[..i] + [d];
      }
      assert order[..|order|] == order;
      origins := map[];
      P.ResetMeans(old(Contents()), pools);
      forall d | d in pools ensures P.AllFree(pools[d]) && |pools[d].slots| == |old(pools)[d].slots| {
        P.ResetFrees(old(Contents()), d);
      }
    }
  }
}
