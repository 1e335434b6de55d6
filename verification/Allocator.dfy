/** `IKVCacheAllocator`: either allocator behind one interface, seen as a set of live allocation ids. */
module Allocator {
  import opened Wrappers
  import opened Sums
  import opened KvCache
  import C = Contiguous
  import P = Pool

  datatype Allocator = OfContiguous(c: C.Contiguous) | OfPool(p: P.Pool)

  /** Both allocators start with id 1, so that no allocation has the id 0 of a cleared handle. */
  ghost predicate Coherent(a: Allocator) {
    && NextId(a) >= 1 && 0 !in Live(a)
    && match a
       case OfContiguous(c) => C.Balanced(c) && C.IdsBelow(c)
       case OfPool(p) => P.Sound(p) && p.slotBytes == p.cfg.BytesFor(p.slotTokens)
  }

  function Live(a: Allocator): set<nat> {
    match a
    case OfContiguous(c) => c.allocations.Keys
    case OfPool(p) => p.origins.Keys
  }

  function NextId(a: Allocator): nat {
    match a
    case OfContiguous(c) => c.nextId
    case OfPool(p) => p.nextId
  }

  /** `allocate` when no devices are listed, `allocate_tensor_parallel` otherwise. */
  function Allocate(a: Allocator, seqLen: nat, ds: seq<DeviceId>, grants: seq<Grant>): (Allocator, Result<Handle>)
    requires Coherent(a)
  {
    match a
    case OfContiguous(c) => var (c', r) := C.AllocateSplit(c, seqLen, ds, grants); (OfContiguous(c'), r)
    case OfPool(p) => var (p', r) := P.AllocateSplit(p, seqLen, ds, grants); (OfPool(p'), r)
  }

  function GiveBack(a: Allocator, h: Handle): (Allocator, Handle)
    requires Coherent(a)
  {
    match a
    case OfContiguous(c) => var (c', h') := C.Free(c, h); (OfContiguous(c'), h')
    case OfPool(p) => var (p', h') := P.Free(p, h); (OfPool(p'), h')
  }

  predicate CanAllocate(a: Allocator, seqLen: nat) {
    match a
    case OfContiguous(c) => C.CanAllocate(c, seqLen)
    case OfPool(p) => P.CanAllocate(p, seqLen)
  }

  function ConfigOf(a: Allocator): Config {
    match a
    case OfContiguous(c) => c.cfg
    case OfPool(p) => p.cfg
  }

  /** Bytes that the handle owns on `d`, as the allocator counts them. */
  function HeldOn(a: Allocator, h: Handle, d: DeviceId): nat {
    match a
    case OfContiguous(c) => C.HeldOn(c.cfg, h, d)
    case OfPool(p) => P.SlotOn(p, h, d)
  }

  /** Bytes that device `d` counts as used, apart from those lost to failed allocations. */
  function NetUsed(a: Allocator, d: DeviceId): int {
    match a
    case OfContiguous(c) => if d in c.stats then c.stats[d].used - C.LeakedOn(c.leaked, d) else 0
    case OfPool(p) => P.UsedOn(p, d)
  }

  /** The allocator knows this handle, its size and its slot. */
  ghost predicate Issued(a: Allocator, h: Handle) {
    && h.id in Live(a)
    && match a
       case OfContiguous(c) => C.Issued(c, h)
       case OfPool(p) => P.Backed(p, h)
  }

  /** The allocator counts bytes for `d`. */
  ghost predicate Counts(a: Allocator, d: DeviceId) {
    a.OfContiguous? ==> d in a.c.stats
  }

  ghost predicate SameShape(a: Allocator, b: Allocator) {
    && (a.OfContiguous? <==> b.OfContiguous?)
    && ConfigOf(b) == ConfigOf(a)
    && (a.OfContiguous? ==> b.c.stats.Keys == a.c.stats.Keys)
  }

  /** A handle that owns nothing: never issued, or cleared by `free`. */
  ghost predicate Cleared(h: Handle) { !h.IsValid() || h.id == 0 }

  ghost predicate StillIssued(a: Allocator, b: Allocator, h: Handle) { Issued(a, h) ==> Issued(b, h) }

  lemma AllocateEffect(a: Allocator, seqLen: nat, ds: seq<DeviceId>, grants: seq<Grant>)
    requires Coherent(a) && Distinct(ds)
    ensures var (b, r) := Allocate(a, seqLen, ds, grants);
      && Coherent(b) && SameShape(a, b) && NextId(a) <= NextId(b)
      && (forall h :: StillIssued(a, b, h))
      && (r.Ok? ==>
            && r.value.IsValid() && r.value.id == NextId(a) < NextId(b) && Issued(b, r.value)
            && r.value.maxSeqLen == seqLen && r.value.currentLen == 0 && r.value.tensorParallel == (ds != [])
            && Live(b) == Live(a) + {NextId(a)})
      && (r.Err? ==> Live(b) == Live(a))
  {
    match a
    case OfContiguous(c) => C.AllocationAccount(c, seqLen, ds, grants);
    case OfPool(p) =>
      P.AllocateSound(p, seqLen, ds, grants);
  }

  /** Both allocators count exactly the bytes of the new handle. */
  lemma AllocateBytes(a: Allocator, seqLen: nat, ds: seq<DeviceId>, grants: seq<Grant>, d: DeviceId)
    requires Coherent(a) && Distinct(ds) && Counts(a, d)
    ensures var (b, r) := Allocate(a, seqLen, ds, grants);
      NetUsed(b, d) == NetUsed(a, d) + if r.Ok? then HeldOn(b, r.value, d) else 0
  {
    match a
    case OfContiguous(c) => C.AllocationAccount(c, seqLen, ds, grants);
    case OfPool(p) => P.AllocateCounts(p, seqLen, ds, grants, d);
  }

  /** What another handle owns does not change. */
  lemma AllocateKeepsBytes(a: Allocator, seqLen: nat, ds: seq<DeviceId>, grants: seq<Grant>, h: Handle, d: DeviceId)
    requires Coherent(a) && Distinct(ds) && (Issued(a, h) || Cleared(h))
    ensures HeldOn(Allocate(a, seqLen, ds, grants).0, h, d) == HeldOn(a, h, d)
  {
    match a
    case OfContiguous(c) => C.AllocationAccount(c, seqLen, ds, grants);
    case OfPool(p) => P.AllocateSound(p, seqLen, ds, grants);
  }

  /** The contiguous allocator counts at least the bytes of the handle. */
  ghost predicate Covered(a: Allocator, h: Handle) {
    a.OfContiguous? ==> forall d :: d in a.c.stats ==> C.HeldOn(a.c.cfg, h, d) <= a.c.stats[d].used
  }

  /** Freeing clears the handle, except that the pooled allocator leaves a split handle valid. */
  lemma FreeEffect(a: Allocator, h: Handle)
    requires Coherent(a) && h.IsValid() && Issued(a, h) && Covered(a, h)
    ensures var (b, h') := GiveBack(a, h);
      && Coherent(b) && SameShape(a, b) && NextId(b) == NextId(a)
      && Live(b) == Live(a) - {h.id} && (forall g: Handle :: g.id != h.id ==> StillIssued(a, b, g))
      && (h'.IsValid() <==> a.OfPool? && h.tensorParallel) && h'.id == 0 && h'.tensorParallel == h.tensorParallel
      && h'.currentLen == h.currentLen && h'.maxSeqLen == h.maxSeqLen
  {
    match a
    case OfContiguous(c) => C.FreeAccount(c, h);
    case OfPool(p) => P.FreeSound(p, h);
  }

  /** Both allocators count exactly the bytes of the freed handle no more. */
  lemma FreeBytes(a: Allocator, h: Handle, d: DeviceId)
    requires Coherent(a) && h.IsValid() && Issued(a, h) && Covered(a, h) && Counts(a, d)
    ensures NetUsed(GiveBack(a, h).0, d) == NetUsed(a, d) - HeldOn(a, h, d)
  {
    match a
    case OfContiguous(c) => C.FreeAccount(c, h);
    case OfPool(p) => P.FreeCounts(p, h, d);
  }

  lemma FreeKeepsBytes(a: Allocator, h: Handle, g: Handle, d: DeviceId)
    requires Coherent(a) && h.IsValid() && Issued(a, h) && Covered(a, h)
    requires (Issued(a, g) && g.id != h.id) || Cleared(g)
    ensures HeldOn(GiveBack(a, h).0, g, d) == HeldOn(a, g, d)
  {
    match a
    case OfContiguous(c) => C.FreeAccount(c, h);
    case OfPool(p) => P.FreeSound(p, h);
  }

  /** Freeing a cleared handle again changes nothing, and it stays as valid as it was. */
  lemma FreeAgain(a: Allocator, h: Handle)
    requires Coherent(a) && a.OfPool? && h.IsValid() && h.tensorParallel && h.id == 0
    ensures var (b, h') := GiveBack(a, h);
      && b == a && h'.IsValid() && h'.tensorParallel && h'.id == 0
      && h'.currentLen == h.currentLen && h'.maxSeqLen == h.maxSeqLen
  {
  }

  /** `can_allocate` answers whether a single-device allocation whose memory the device grants succeeds. */
  lemma CanAllocateMeans(a: Allocator, seqLen: nat, g: Grant)
    requires Coherent(a)
    ensures CanAllocate(a, seqLen) <==> Allocate(a, seqLen, [], [g]).1.Ok?
  {
  }

  /** For several devices it promises nothing: the pool then grants whatever the devices grant, and the
      contiguous allocator looks at each listed device, for another number of bytes. */
  lemma SplitMeans(a: Allocator, seqLen: nat, ds: seq<DeviceId>, grants: seq<Grant>)
    requires Coherent(a) && ds != []
    ensures Allocate(a, seqLen, ds, grants).1.Ok? <==>
      && |ds| <= |grants|
      && (a.OfContiguous? ==> forall d :: d in ds ==> C.Serves(a.c.stats, d, a.c.cfg.BytesPerDevice(seqLen)))
  {
  }

  lemma IdsBelowNext(a: Allocator, i: nat)
    requires Coherent(a) && i in Live(a)
    ensures i < NextId(a)
  {
  }
}
