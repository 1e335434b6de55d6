/** The contiguous allocator (src/kvcache/kv_allocator.cpp:11-375) as a function of its state. */
module Contiguous {
  import opened Wrappers
  import opened Words
  import opened Sums
  import opened KvCache

  datatype Stats = Stats(total: nat, used: nat, free: nat)

  /** `leaked` is a history variable: the bytes that a multi-device allocation counted on the devices
      before the one that refused, and that no later call takes back. */
  datatype Contiguous = Contiguous(
    cfg: Config, stats: map<DeviceId, Stats>, allocations: map<nat, nat>, nextId: nat,
    leaked: map<DeviceId, nat>)

  function Take(stats: map<DeviceId, Stats>, d: DeviceId, bytes: nat): map<DeviceId, Stats> {
    if d in stats then
      stats[d := stats[d].(used := Wrap(stats[d].used + bytes), free := Wrap(stats[d].free - bytes))]
    else stats
  }

  function Give(stats: map<DeviceId, Stats>, d: DeviceId, bytes: nat): map<DeviceId, Stats> {
    if d in stats then
      stats[d := stats[d].(used := Wrap(stats[d].used - bytes), free := Wrap(stats[d].free + bytes))]
    else stats
  }

  function TakeAll(stats: map<DeviceId, Stats>, ds: seq<DeviceId>, bytes: nat): map<DeviceId, Stats> {
    if ds == [] then stats else Take(TakeAll(stats, ds[..|ds| - 1], bytes), ds[|ds| - 1], bytes)
  }

  function GiveAll(stats: map<DeviceId, Stats>, caches: seq<DeviceCache>): map<DeviceId, Stats> {
    if caches == [] then stats
    else
      var last := caches[|caches| - 1];
      Give(GiveAll(stats, caches[..|caches| - 1]), last.device, last.bytes)
  }

  function LeakedOn(leaked: map<DeviceId, nat>, d: DeviceId): nat {
    if d in leaked then leaked[d] else 0
  }

  function AddLeak(leaked: map<DeviceId, nat>, ds: seq<DeviceId>, bytes: nat): map<DeviceId, nat> {
    if ds == [] then leaked
    else
      var before := AddLeak(leaked, ds[..|ds| - 1], bytes);
      var d := ds[|ds| - 1];
      before[d := LeakedOn(before, d) + bytes]
  }

  function AllocateSingle(c: Contiguous, seqLen: nat, grants: seq<Grant>)
    : (Contiguous, Result<Handle>)
  {
    var need := c.cfg.BytesFor(seqLen);
    var d := c.cfg.device;
    if d !in c.stats then (c, Err(Internal))
    else if need > c.stats[d].free then (c, Err(ResourceExhausted))
    else if grants == [] then (c, Err(Internal))
    else
      (c.(stats := Take(c.stats, d, need),
          allocations := c.allocations[c.nextId := need],
          nextId := c.nextId + 1),
       Ok(SingleHandle(grants[0], seqLen, d, c.nextId)))
  }

  predicate Serves(stats: map<DeviceId, Stats>, d: DeviceId, bytes: nat) {
    d in stats && bytes <= stats[d].free
  }

  /** The first loop of `allocate_tensor_parallel`: the error of the first device that cannot serve. */
  function Precheck(stats: map<DeviceId, Stats>, ds: seq<DeviceId>, bytes: nat): (e: Option<Error>)
    ensures e.None? <==> forall d :: d in ds ==> Serves(stats, d, bytes)
  {
    if ds == [] then None
    else
      assert ds[0] in ds;
      if !Serves(stats, ds[0], bytes) then
        Some(if ds[0] !in stats then Internal else ResourceExhausted)
      else
        assert forall d :: d in ds <==> d == ds[0] || d in ds[1..];
        Precheck(stats, ds[1..], bytes)
  }

  function AllocateSplit(c: Contiguous, seqLen: nat, ds: seq<DeviceId>, grants: seq<Grant>)
    : (Contiguous, Result<Handle>)
  {
    if ds == [] then AllocateSingle(c, seqLen, grants)
    else
      var bytes := c.cfg.BytesPerDevice(seqLen);
      var blocked := Precheck(c.stats, ds, bytes);
      if blocked.Some? then (c, Err(blocked.value))
      else if |grants| < |ds| then
        (c.(stats := TakeAll(c.stats, ds[..|grants|], bytes), nextId := c.nextId + 1,
            leaked := AddLeak(c.leaked, ds[..|grants|], bytes)),
         Err(Internal))
      else
        (c.(stats := TakeAll(c.stats, ds, bytes),
            allocations := c.allocations[c.nextId := bytes * |ds|],
            nextId := c.nextId + 1),
         Ok(SplitHandle(grants, seqLen, ds, bytes, c.nextId)))
  }

  function FreeStats(c: Contiguous, h: Handle): map<DeviceId, Stats> {
    if h.tensorParallel then GiveAll(c.stats, h.caches)
    else if h.id in c.allocations then Give(c.stats, h.device, c.allocations[h.id])
    else c.stats
  }

  function Free(c: Contiguous, h: Handle): (Contiguous, Handle) {
    if !h.IsValid() then (c, h)
    else
      (c.(stats := FreeStats(c, h), allocations := c.allocations - {h.id}),
       h.(k := 0, v := 0, caches := [], id := 0))
  }

  predicate CanAllocate(c: Contiguous, seqLen: nat) {
    c.cfg.device in c.stats && c.cfg.BytesFor(seqLen) <= c.stats[c.cfg.device].free
  }

  function Reset(c: Contiguous): Contiguous {
    c.(stats := map d | d in c.stats :: Stats(c.stats[d].total, 0, c.stats[d].total), allocations := map[],
       leaked := map[])
  }

  lemma ResetMeans(c: Contiguous, stats: map<DeviceId, Stats>)
    requires stats.Keys == c.stats.Keys
    requires forall d :: d in stats ==> stats[d] == Stats(c.stats[d].total, 0, c.stats[d].total)
    ensures Reset(c).stats == stats
  {
    var r := Reset(c).stats;
    forall d | d in r ensures d in stats && r[d] == stats[d] {
    }
    assert r.Keys == stats.Keys;
  }

  // ---------------------------------------------------------------- accounting

  /** Every device splits its total into used and free bytes. */
  ghost predicate Balanced(c: Contiguous) {
    forall d :: d in c.stats ==>
      c.stats[d].used + c.stats[d].free == c.stats[d].total && c.stats[d].total < WORD
  }

  /** The bytes that a handle owns on device `d`. */
  function HeldOn(cfg: Config, h: Handle, d: DeviceId): nat {
    if !h.IsValid() then 0
    else if h.tensorParallel then CachedOn(h.caches, d)
    else if h.device == d then cfg.BytesFor(h.maxSeqLen)
    else 0
  }

  /** The allocator knows this handle and its size. */
  ghost predicate Issued(c: Contiguous, h: Handle) {
    h.id in c.allocations && (!h.tensorParallel ==> c.allocations[h.id] == c.cfg.BytesFor(h.maxSeqLen))
  }

  ghost predicate IdsBelow(c: Contiguous) {
    forall i :: i in c.allocations ==> i < c.nextId
  }

  lemma {:induction false} TakeAllEffect(stats: map<DeviceId, Stats>, ds: seq<DeviceId>, bytes: nat)
    requires Distinct(ds)
    requires forall d :: d in ds ==> Serves(stats, d, bytes)
    requires forall d :: d in stats ==> stats[d].used + stats[d].free == stats[d].total < WORD
    ensures TakeAll(stats, ds, bytes).Keys == stats.Keys
    ensures forall d :: d in stats ==>
      var t := TakeAll(stats, ds, bytes)[d];
      && t.total == stats[d].total
      && t.used == stats[d].used + (if d in ds then bytes else 0)
      && t.used + t.free == t.total
  {
    if ds != [] {
      var init, last := ds[..|ds| - 1], ds[|ds| - 1];
      DistinctInit(ds);
      TakeAllEffect(stats, init, bytes);
    }
  }

  lemma {:induction false} AddLeakEffect(leaked: map<DeviceId, nat>, ds: seq<DeviceId>, bytes: nat, d: DeviceId)
    requires Distinct(ds)
    ensures LeakedOn(AddLeak(leaked, ds, bytes), d) == LeakedOn(leaked, d) + (if d in ds then bytes else 0)
  {
    if ds != [] {
      var init, last := ds[..|ds| - 1], ds[|ds| - 1];
      DistinctInit(ds);
      AddLeakEffect(leaked, init, bytes, d);
    }
  }

  lemma {:induction false} GiveAllEffect(stats: map<DeviceId, Stats>, caches: seq<DeviceCache>)
    requires forall d :: d in stats ==> stats[d].used + stats[d].free == stats[d].total < WORD
    requires forall d :: d in stats ==> CachedOn(caches, d) <= stats[d].used
    ensures GiveAll(stats, caches).Keys == stats.Keys
    ensures forall d :: d in stats ==>
      var t := GiveAll(stats, caches)[d];
      && t.total == stats[d].total
      && t.used == stats[d].used - CachedOn(caches, d)
      && t.used + t.free == t.total
  {
    if caches != [] {
      var init, last := caches[..|caches| - 1], caches[|caches| - 1];
      assert forall d :: d in stats ==> CachedOn(init, d) <= CachedOn(caches, d);
      GiveAllEffect(stats, init);
      var s := GiveAll(stats, init);
      if last.device in stats {
        assert CachedOn(caches, last.device) == CachedOn(init, last.device) + last.bytes;
        assert last.bytes <= s[last.device].used;
      }
    }
  }

  /** An allocation, on one device or on several, counts exactly the bytes its handle owns; one that
      fails counts exactly what it leaks. */
  lemma AllocationAccount(c: Contiguous, seqLen: nat, ds: seq<DeviceId>, grants: seq<Grant>)
    requires Balanced(c) && IdsBelow(c) && Distinct(ds)
    ensures var (c', r) := AllocateSplit(c, seqLen, ds, grants);
      && c'.cfg == c.cfg && c'.stats.Keys == c.stats.Keys && Balanced(c') && IdsBelow(c') && c.nextId <= c'.nextId
      && (forall d :: d in c.stats ==> c'.stats[d].total == c.stats[d].total)
      && (r.Ok? ==>
            && r.value.IsValid() && Issued(c', r.value) && r.value.id == c.nextId < c'.nextId
            && r.value.maxSeqLen == seqLen && r.value.currentLen == 0
            && c'.leaked == c.leaked
            && c'.allocations.Keys == c.allocations.Keys + {c.nextId}
            && (forall i :: i in c.allocations ==> c'.allocations[i] == c.allocations[i])
            && forall d :: d in c.stats ==> c'.stats[d].used == c.stats[d].used + HeldOn(c.cfg, r.value, d))
      && (r.Err? ==>
            && c'.allocations == c.allocations
            && forall d :: d in c.stats ==>
                 c'.stats[d].used - LeakedOn(c'.leaked, d) == c.stats[d].used - LeakedOn(c.leaked, d))
  {
    var bytes := c.cfg.BytesPerDevice(seqLen);
    if ds != [] && Precheck(c.stats, ds, bytes).None? {
      var part := if |grants| < |ds| then ds[..|grants|] else ds;
      if |grants| < |ds| {
        DistinctPrefix(ds, |grants|);
      }
      TakeAllEffect(c.stats, part, bytes);
      if |grants| < |ds| {
        forall d
          ensures LeakedOn(AddLeak(c.leaked, part, bytes), d)
               == LeakedOn(c.leaked, d) + (if d in part then bytes else 0)
        {
          AddLeakEffect(c.leaked, part, bytes, d);
        }
      } else {
        var h := SplitHandle(grants, seqLen, ds, bytes, c.nextId);
        forall d ensures CachedOn(h.caches, d) == if d in ds then bytes else 0 {
          SplitCaches(h.caches, ds, bytes, d);
        }
      }
    }
  }

  /** The error of the first device in the list that cannot serve. */
  lemma {:induction false} PrecheckFirst(stats: map<DeviceId, Stats>, ds: seq<DeviceId>, bytes: nat, i: nat)
    requires i < |ds| && !Serves(stats, ds[i], bytes) && forall j :: 0 <= j < i ==> Serves(stats, ds[j], bytes)
    ensures Precheck(stats, ds, bytes) == Some(if ds[i] in stats then ResourceExhausted else Internal)
  {
    if i > 0 {
      PrecheckFirst(stats, ds[1..], bytes, i - 1);
    }
  }

  /** What an allocation on the configured device comes to, from the device's free bytes alone. */
  lemma SingleOutcome(c: Contiguous, seqLen: nat, grants: seq<Grant>)
    ensures var ((c', r), d, need) := (AllocateSplit(c, seqLen, [], grants), c.cfg.device,
                                       seqLen * c.cfg.BytesPerToken());
      && (r.Ok? <==> d in c.stats && need <= c.stats[d].free && grants != [])
      && (r == Err(ResourceExhausted) <==> d in c.stats && need > c.stats[d].free)
      && (r.Err? ==> c' == c && r.error in {ResourceExhausted, Internal})
      && (r.Ok? ==> r.value == Handle(grants[0].k, grants[0].v, seqLen, 0, d, c.nextId, [], false))
  {
  }

  /** And across devices: refused for the first one that is not managed or has not the bytes free, or else
      for the first that grants no memory; otherwise the handle names what each device granted. */
  lemma SplitOutcome(c: Contiguous, seqLen: nat, ds: seq<DeviceId>, grants: seq<Grant>)
    requires ds != []
    ensures var (r, bytes) := (AllocateSplit(c, seqLen, ds, grants).1, seqLen * c.cfg.BytesPerTokenPerDevice());
      && (forall i :: 0 <= i < |ds| && (forall j :: 0 <= j < i ==> Serves(c.stats, ds[j], bytes)) ==>
            && (ds[i] !in c.stats ==> r == Err(Internal))
            && (ds[i] in c.stats && bytes > c.stats[ds[i]].free ==> r == Err(ResourceExhausted)))
      && ((forall d :: d in ds ==> d in c.stats && bytes <= c.stats[d].free) ==>
            if |grants| < |ds| then r == Err(Internal)
            else
              && r.Ok? && |r.value.caches| == |ds|
              && r.value == Handle(grants[0].k, grants[0].v, seqLen, 0, ds[0], c.nextId, r.value.caches, true)
              && forall i :: 0 <= i < |ds| ==>
                   r.value.caches[i] == DeviceCache(grants[i].k, grants[i].v, ds[i], bytes))
  {
    var bytes := c.cfg.BytesPerDevice(seqLen);
    forall i | 0 <= i < |ds| && (forall j :: 0 <= j < i ==> Serves(c.stats, ds[j], bytes))
      && !Serves(c.stats, ds[i], bytes)
      ensures Precheck(c.stats, ds, bytes) == Some(if ds[i] in c.stats then ResourceExhausted else Internal)
    {
      PrecheckFirst(c.stats, ds, bytes, i);
    }
  }

  /** No allocation and no free moves a total. */
  ghost predicate SameTotals(stats: map<DeviceId, Stats>, after: map<DeviceId, Stats>) {
    after.Keys == stats.Keys && forall d :: d in stats ==> after[d].total == stats[d].total
  }

  lemma {:induction false} TakeAllTotals(stats: map<DeviceId, Stats>, ds: seq<DeviceId>, bytes: nat)
    ensures SameTotals(stats, TakeAll(stats, ds, bytes))
  {
    if ds != [] {
      TakeAllTotals(stats, ds[..|ds| - 1], bytes);
    }
  }

  lemma {:induction false} GiveAllTotals(stats: map<DeviceId, Stats>, caches: seq<DeviceCache>)
    ensures SameTotals(stats, GiveAll(stats, caches))
  {
    if caches != [] {
      GiveAllTotals(stats, caches[..|caches| - 1]);
    }
  }

  lemma OperationsKeepTotals(c: Contiguous, seqLen: nat, ds: seq<DeviceId>, grants: seq<Grant>, h: Handle)
    ensures SameTotals(c.stats, AllocateSplit(c, seqLen, ds, grants).0.stats)
    ensures SameTotals(c.stats, Free(c, h).0.stats)
  {
    TakeAllTotals(c.stats, ds, c.cfg.BytesPerDevice(seqLen));
    if |grants| < |ds| {
      TakeAllTotals(c.stats, ds[..|grants|], c.cfg.BytesPerDevice(seqLen));
    }
    GiveAllTotals(c.stats, h.caches);
  }

  /** A multi-device allocation that fails leaves bytes counted exactly when its check passed, some
      device but not every one granted memory, and there was anything to count. */
  lemma FailureLeaksIff(c: Contiguous, seqLen: nat, ds: seq<DeviceId>, grants: seq<Grant>)
    requires Balanced(c) && Distinct(ds) && AllocateSplit(c, seqLen, ds, grants).1.Err?
    ensures AllocateSplit(c, seqLen, ds, grants).0.stats != c.stats <==>
      && ds != [] && (forall d :: d in ds ==> Serves(c.stats, d, c.cfg.BytesPerDevice(seqLen)))
      && 0 < |grants| < |ds| && c.cfg.BytesPerDevice(seqLen) > 0
  {
    var bytes := c.cfg.BytesPerDevice(seqLen);
    if ds != [] && Precheck(c.stats, ds, bytes).None? {
      DistinctPrefix(ds, |grants|);
      var part := ds[..|grants|];
      TakeAllEffect(c.stats, part, bytes);
      var after := TakeAll(c.stats, part, bytes);
      if grants != [] && bytes > 0 {
        assert ds[0] in part && after[ds[0]].used != c.stats[ds[0]].used;
      } else {
        forall d | d in after ensures after[d] == c.stats[d] {
        }
        assert after.Keys == c.stats.Keys;
        assert after == c.stats;
      }
    }
  }

  /** Freeing an issued handle gives back exactly the bytes it owns, and clears the handle. */
  lemma FreeAccount(c: Contiguous, h: Handle)
    requires Balanced(c) && IdsBelow(c) && h.IsValid() && Issued(c, h)
    requires forall d :: d in c.stats ==> HeldOn(c.cfg, h, d) <= c.stats[d].used
    ensures var (c', h') := Free(c, h);
      && c'.cfg == c.cfg && c'.stats.Keys == c.stats.Keys && Balanced(c') && IdsBelow(c') && c'.nextId == c.nextId
      && c'.leaked == c.leaked && !h'.IsValid()
      && c'.allocations == c.allocations - {h.id}
      && (forall d :: d in c.stats ==> c'.stats[d].total == c.stats[d].total)
      && forall d :: d in c.stats ==> c'.stats[d].used == c.stats[d].used - HeldOn(c.cfg, h, d)
  {
    if h.tensorParallel {
      GiveAllEffect(c.stats, h.caches);
    }
  }
}
