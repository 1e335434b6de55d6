/** The memory that the devices hand out for KV caches, and what of it is never given back
    (src/kvcache/kv_allocator.cpp:485-529, 680-775). The pooled allocator frees the two pointers of a split
    handle, which are those of its first device. */
module DeviceMemory {
  import opened Sums
  import opened KvCache
  import opened Routing
  import opened Allocator
  import opened System
  import opened Safety
  import opened Guarantees
  import opened SoloRuns
  import opened SplitPool
  import opened Vetting
  import P = Pool
  import L = Lifecycle
  import R = Resources

  /** The memory outside the pools that each request's handle names. */
  function MemoryAt(p: P.Pool, hold: map<Id, R.Hold>, d: DeviceId): Id -> int {
    (id: Id) => if id in hold then P.MemoryOn(p, hold[id].handle, d) else 0
  }

  /** A split handle has one cache for each device, of the size that the request needs. */
  ghost predicate Shaped(u: Setup, p: P.Pool, h: R.Hold) {
    && P.Rooted(p, h.handle)
    && (h.handle.tensorParallel ==>
          && |h.handle.caches| == |u.topology.devices| && h.handle.caches != [] && h.handle.caches[0].k != 0
          && forall i :: 0 <= i < |h.handle.caches| ==>
               && h.handle.caches[i].device == u.topology.devices[i]
               && h.handle.caches[i].bytes == p.cfg.BytesPerDevice(h.seqLen))
  }

  /** What a device has handed out is what the handles name. */
  ghost predicate Balanced(u: Setup, p: P.Pool, order: seq<Id>, hold: map<Id, R.Hold>) {
    && (forall d :: On(p.granted, d) == Sum(order, MemoryAt(p, hold, d)))
    && (forall id :: id in hold ==> Shaped(u, p, hold[id]))
  }

  ghost predicate Accounted(u: Setup, s: State) {
    s.res.alloc.OfPool? ==> Balanced(u, s.res.alloc.p, s.life.order, s.res.hold)
  }

  // ---------------------------------------------------------------- every step keeps the account

  lemma EnterBalanced(u: Setup, p: P.Pool, order: seq<Id>, r: R.Res, id: Id, n: nat)
    requires Balanced(u, p, order, r.hold) && R.Lists(order, r.hold) && id !in r.hold
    ensures Balanced(u, p, order + [id], R.Enter(r, id, n).hold)
  {
    var after := R.Enter(r, id, n).hold;
    forall d ensures On(p.granted, d) == Sum(order + [id], MemoryAt(p, after, d)) {
      SumAppend(order, id, MemoryAt(p, after, d));
      SumSame(order, MemoryAt(p, r.hold, d), MemoryAt(p, after, d));
    }
  }

  lemma SameHandlesBalanced(u: Setup, p: P.Pool, order: seq<Id>, hold: map<Id, R.Hold>, after: map<Id, R.Hold>)
    requires Balanced(u, p, order, hold) && SameHandles(hold, after)
    ensures Balanced(u, p, order, after)
  {
    forall d ensures On(p.granted, d) == Sum(order, MemoryAt(p, after, d)) {
      SumSame(order, MemoryAt(p, hold, d), MemoryAt(p, after, d));
    }
    forall id | id in after ensures Shaped(u, p, after[id]) {
      assert Shaped(u, p, hold[id]);
    }
  }

  /** What the account needs to know of a request that is not worked on. */
  lemma OtherAllocates(u: Setup, r: R.Res, x: Id, n: nat, ds: seq<DeviceId>, grants: seq<Grant>, d: DeviceId)
    requires r.alloc.OfPool? && Coherent(r.alloc) && R.Owned(r.hold, r.owner, r.alloc)
    requires x in r.hold && Shaped(u, r.alloc.p, r.hold[x])
    ensures var p := P.AllocateSplit(r.alloc.p, n, ds, grants).0;
      && P.MemoryOn(p, r.hold[x].handle, d) == P.MemoryOn(r.alloc.p, r.hold[x].handle, d)
      && Shaped(u, p, r.hold[x])
  {
    R.HandleKind(r, x);
    var (p, h) := (r.alloc.p, r.hold[x].handle);
    P.AllocateSound(p, n, ds, grants);
    if h.id in p.origins || h.id < p.nextId {
      P.AllocateKeepsMemory(p, n, ds, grants, h, d);
    }
  }

  lemma OtherFrees(u: Setup, r: R.Res, id: Id, x: Id, d: DeviceId)
    requires r.alloc.OfPool? && Coherent(r.alloc) && R.Owned(r.hold, r.owner, r.alloc)
    requires id in r.hold && x in r.hold && x != id && Shaped(u, r.alloc.p, r.hold[x])
    requires R.Keeps(r.hold[id].phase) || r.hold[id].handle.id == 0
    ensures var p := P.Free(r.alloc.p, r.hold[id].handle).0;
      && P.MemoryOn(p, r.hold[x].handle, d) == P.MemoryOn(r.alloc.p, r.hold[x].handle, d)
      && Shaped(u, p, r.hold[x])
  {
    var (p, h, g) := (r.alloc.p, r.hold[id].handle, r.hold[x].handle);
    if h.id != 0 {
      R.OtherHandle(r, id, x);
      if g.id != h.id {
        P.FreeKeepsMemory(p, h, g, d);
      }
      P.FreeSound(p, h);
    }
  }

  /** What these lemmas need of `R.Inv`. */
  ghost predicate Founded(r: R.Res, order: seq<Id>) {
    r.alloc.OfPool? && Coherent(r.alloc) && R.Lists(order, r.hold) && R.Owned(r.hold, r.owner, r.alloc)
  }

  lemma AllocateAdds(u: Setup, r: R.Res, order: seq<Id>, id: Id, ds: seq<DeviceId>, grants: seq<Grant>, d: DeviceId)
    requires Founded(r, order) && Balanced(u, r.alloc.p, order, r.hold)
    requires id in r.hold && !r.hold[id].handle.IsValid() && Distinct(ds)
    ensures var (q, hold) := (P.AllocateSplit(r.alloc.p, r.hold[id].seqLen, ds, grants).0,
                              R.AllocateKv(r, id, ds, grants).0.hold);
      On(q.granted, d) == Sum(order, MemoryAt(q, hold, d))
  {
    var (p, n) := (r.alloc.p, r.hold[id].seqLen);
    var q := P.AllocateSplit(p, n, ds, grants).0;
    var hold := R.AllocateKv(r, id, ds, grants).0.hold;
    P.AllocateMemory(p, n, ds, grants, d);
    forall x | x in order && x != id ensures MemoryAt(q, hold, d)(x) == MemoryAt(p, r.hold, d)(x) {
      OtherAllocates(u, r, x, n, ds, grants, d);
    }
    SumChange(order, MemoryAt(p, r.hold, d), MemoryAt(q, hold, d), id);
  }

  lemma AllocateShapes(u: Setup, r: R.Res, id: Id, ds: seq<DeviceId>, grants: seq<Grant>, x: Id)
    requires r.alloc.OfPool? && Coherent(r.alloc) && R.Owned(r.hold, r.owner, r.alloc)
    requires id in r.hold && Distinct(ds) && (ds != [] ==> ds == u.topology.devices)
    requires x in r.hold && Shaped(u, r.alloc.p, r.hold[x])
    ensures var (q, hold) := (P.AllocateSplit(r.alloc.p, r.hold[id].seqLen, ds, grants).0,
                              R.AllocateKv(r, id, ds, grants).0.hold);
      x in hold && Shaped(u, q, hold[x])
  {
    OtherAllocates(u, r, x, r.hold[id].seqLen, ds, grants, 0);
    P.AllocateMemory(r.alloc.p, r.hold[id].seqLen, ds, grants, 0);
  }

  lemma AllocateBalanced(u: Setup, r: R.Res, order: seq<Id>, id: Id, ds: seq<DeviceId>, grants: seq<Grant>)
    requires Founded(r, order) && Balanced(u, r.alloc.p, order, r.hold)
    requires id in r.hold && !r.hold[id].handle.IsValid() && Distinct(ds) && (ds != [] ==> ds == u.topology.devices)
    ensures var (q, hold) := (P.AllocateSplit(r.alloc.p, r.hold[id].seqLen, ds, grants).0,
                              R.AllocateKv(r, id, ds, grants).0.hold);
      Balanced(u, q, order, hold)
  {
    var q := P.AllocateSplit(r.alloc.p, r.hold[id].seqLen, ds, grants).0;
    var hold := R.AllocateKv(r, id, ds, grants).0.hold;
    forall d ensures On(q.granted, d) == Sum(order, MemoryAt(q, hold, d)) {
      AllocateAdds(u, r, order, id, ds, grants, d);
    }
    forall x | x in hold ensures Shaped(u, q, hold[x]) {
      AllocateShapes(u, r, id, ds, grants, x);
    }
  }

  lemma FreeLeavesOthers(u: Setup, r: R.Res, order: seq<Id>, id: Id, d: DeviceId)
    requires Founded(r, order) && Balanced(u, r.alloc.p, order, r.hold) && id in r.hold && r.hold[id].handle.IsValid()
    ensures var (q, hold) := (P.Free(r.alloc.p, r.hold[id].handle).0, R.FreeKv(r, id).hold);
      forall x :: x in order && x != id ==> MemoryAt(q, hold, d)(x) == MemoryAt(r.alloc.p, r.hold, d)(x)
  {
    assert R.OwnsAt(r.hold, r.owner, r.alloc, id);
    var (q, hold) := (P.Free(r.alloc.p, r.hold[id].handle).0, R.FreeKv(r, id).hold);
    forall x | x in order && x != id ensures MemoryAt(q, hold, d)(x) == MemoryAt(r.alloc.p, r.hold, d)(x) {
      OtherFrees(u, r, id, x, d);
    }
  }

  lemma FreeMoves(u: Setup, r: R.Res, id: Id, d: DeviceId)
    requires r.alloc.OfPool? && Coherent(r.alloc) && id in r.hold && r.hold[id].handle.IsValid()
    requires Shaped(u, r.alloc.p, r.hold[id])
    ensures var (p, q, hold) := (r.alloc.p, P.Free(r.alloc.p, r.hold[id].handle).0, R.FreeKv(r, id).hold);
      On(q.granted, d) == On(p.granted, d) - MemoryAt(p, r.hold, d)(id) + MemoryAt(q, hold, d)(id)
  {
    P.FreeMemory(r.alloc.p, r.hold[id].handle, d);
  }

  lemma FreeTakes(u: Setup, r: R.Res, order: seq<Id>, id: Id, d: DeviceId)
    requires Founded(r, order) && Balanced(u, r.alloc.p, order, r.hold) && id in r.hold && r.hold[id].handle.IsValid()
    ensures var q := P.Free(r.alloc.p, r.hold[id].handle).0;
      On(q.granted, d) == Sum(order, MemoryAt(q, R.FreeKv(r, id).hold, d))
  {
    hide P.Sound, R.FreeKv, P.MemoryOn, Shaped, On;
    FreeMoves(u, r, id, d);
    FreeLeavesOthers(u, r, order, id, d);
    var (q, hold) := (P.Free(r.alloc.p, r.hold[id].handle).0, R.FreeKv(r, id).hold);
    SumChange(order, MemoryAt(r.alloc.p, r.hold, d), MemoryAt(q, hold, d), id);
  }

  lemma FreeShapes(u: Setup, r: R.Res, id: Id, x: Id)
    requires r.alloc.OfPool? && Coherent(r.alloc) && R.Owned(r.hold, r.owner, r.alloc)
    requires id in r.hold && r.hold[id].handle.IsValid() && Shaped(u, r.alloc.p, r.hold[id])
    requires x in r.hold && Shaped(u, r.alloc.p, r.hold[x])
    ensures Shaped(u, P.Free(r.alloc.p, r.hold[id].handle).0, R.FreeKv(r, id).hold[x])
  {
    assert R.OwnsAt(r.hold, r.owner, r.alloc, id);
    var (p, h) := (r.alloc.p, r.hold[id].handle);
    if x == id {
      P.FreeMemory(p, h, 0);
      P.FreeSound(p, h);
    } else {
      OtherFrees(u, r, id, x, 0);
    }
  }

  lemma FreeBalanced(u: Setup, r: R.Res, order: seq<Id>, id: Id)
    requires Founded(r, order) && Balanced(u, r.alloc.p, order, r.hold) && id in r.hold && r.hold[id].handle.IsValid()
    ensures Balanced(u, P.Free(r.alloc.p, r.hold[id].handle).0, order, R.FreeKv(r, id).hold)
  {
    var (q, hold) := (P.Free(r.alloc.p, r.hold[id].handle).0, R.FreeKv(r, id).hold);
    forall d ensures On(q.granted, d) == Sum(order, MemoryAt(q, hold, d)) {
      FreeTakes(u, r, order, id, d);
    }
    forall x | x in hold ensures Shaped(u, q, hold[x]) {
      FreeShapes(u, r, id, x);
    }
  }

  // ---------------------------------------------------------------- steps and runs

  /** Which steps deal with allocations. */
  predicate Deals(step: Step) { step.Offer? || step.AllocateKv? || step.FreeKv? }

  lemma QuietAccounted(u: Setup, s: State, step: Step)
    requires Enabled(u, s, step) && !Deals(step) && Accounted(u, s)
    ensures Accounted(u, Apply(u, s, step))
  {
    hide Apply, Enabled;
    StepHolds(u, s, step);
    if s.res.alloc.OfPool? {
      SameHandlesBalanced(u, s.res.alloc.p, s.life.order, s.res.hold, Apply(u, s, step).res.hold);
    }
  }

  function Offered(u: Setup, step: Step): Spec
    requires step.Offer? && Clamp(step.prompt, step.asked, u.maxContext).Ok?
  {
    Spec(step.prompt, Clamp(step.prompt, step.asked, u.maxContext).value, step.sequences)
  }

  lemma OfferAccounted(u: Setup, s: State, step: Step)
    requires Enabled(u, s, step) && step.Offer? && Accounted(u, s) && R.Lists(s.life.order, s.res.hold)
    requires step.id !in s.res.hold
    ensures Accounted(u, Apply(u, s, step))
  {
    if s.res.alloc.OfPool? {
      EnterBalanced(u, s.res.alloc.p, s.life.order, s.res, step.id, Offered(u, step).SeqLen());
    }
  }

  /** The request whose cache is being allocated holds none yet. */
  lemma AllocateReady(u: Setup, s: State, grants: seq<Grant>)
    requires Inv(u, s) && Enabled(u, s, AllocateKv(grants))
    ensures s.res.alloc.OfPool? ==> Founded(s.res, s.life.order)
    ensures var (id, ds) := (s.life.pc.id, SplitDevices(u, s.life.pc.decision));
      !s.res.hold[id].handle.IsValid() && Distinct(ds) && (ds != [] ==> ds == u.topology.devices)
  {
    hide L.Inv, Coherent;
    L.HoldingPlace(s.life, u.limits);
    PhaseFact(u, s, s.life.pc.id);
    SplitFacts(u, s);
    R.ValidHandle(s.res, s.life.order, s.life.pc.id);
  }

  lemma AllocateAccounted(u: Setup, s: State, grants: seq<Grant>)
    requires Enabled(u, s, AllocateKv(grants)) && Accounted(u, s)
    requires s.res.alloc.OfPool? ==> Founded(s.res, s.life.order)
    requires var (id, ds) := (s.life.pc.id, SplitDevices(u, s.life.pc.decision));
      !s.res.hold[id].handle.IsValid() && Distinct(ds) && (ds != [] ==> ds == u.topology.devices)
    ensures Accounted(u, Apply(u, s, AllocateKv(grants)))
  {
    if s.res.alloc.OfPool? {
      AllocateBalanced(u, s.res, s.life.order, s.life.pc.id, SplitDevices(u, s.life.pc.decision), grants);
    }
  }

  lemma FreeAccounted(u: Setup, s: State)
    requires Inv(u, s) && Enabled(u, s, FreeKv) && Accounted(u, s)
    ensures Accounted(u, Apply(u, s, FreeKv))
  {
    hide Fit, L.Inv;
    if s.res.alloc.OfPool? {
      EndPlace(u, s);
      FreeKvRes(u, s);
      FreeBalanced(u, s.res, s.life.order, s.life.pc.id);
    }
  }

  lemma OfferReady(u: Setup, s: State, step: Step)
    requires Inv(u, s) && Enabled(u, s, step) && step.Offer?
    ensures step.id !in s.res.hold && R.Lists(s.life.order, s.res.hold)
  {
    hide L.Inv, Coherent, AllCoupled;
  }

  lemma StepAccounted(u: Setup, s: State, step: Step)
    requires Inv(u, s) && Enabled(u, s, step) && Accounted(u, s)
    ensures Accounted(u, Apply(u, s, step))
  {
    hide Inv, Apply, Enabled, Accounted;
    if step.Offer? {
      OfferReady(u, s, step);
      OfferAccounted(u, s, step);
    } else if step.AllocateKv? {
      AllocateReady(u, s, step.grants);
      AllocateAccounted(u, s, step.grants);
    } else if step.FreeKv? {
      FreeAccounted(u, s);
    } else {
      QuietAccounted(u, s, step);
    }
  }

  lemma {:induction false} RunAccounted(u: Setup, s: State, steps: seq<Step>, t: State)
    requires Inv(u, s) && Accounted(u, s) && Runs(u, s, steps, t)
    ensures Accounted(u, t)
    decreases |steps|
  {
    hide Inv, Apply, Enabled;
    if steps != [] {
      StepAccounted(u, s, steps[0]);
      StepKeeps(u, s, steps[0]);
      RunAccounted(u, Apply(u, s, steps[0]), steps[1..], t);
    }
  }

  lemma ReachedAccounted(u: Setup, t: State)
    requires Reached(u, t)
    ensures Inv(u, t) && Accounted(u, t)
  {
    hide Apply, Fit, L.Inv, R.Inv;
    var s, steps :| Init(u, s) && Sane(u) && Runs(u, s, steps, t);
    InitInv(u, s);
    RunAccounted(u, s, steps, t);
    ReachedInv(u, t);
  }

  // ---------------------------------------------------------------- what is stranded

  /** What the handle of a request that holds its cache names on device `d`, outside the pool. */
  function LiveOn(t: State, d: DeviceId): Id -> int {
    (id: Id) =>
      if t.res.alloc.OfPool? && id in t.res.hold && t.res.hold[id].handle.id in t.res.alloc.p.origins
      then P.MemoryOn(t.res.alloc.p, t.res.hold[id].handle, d) else 0
  }

  /** Every device but the first. */
  predicate Later(u: Setup, d: DeviceId) { u.topology.devices != [] && d in u.topology.devices[1..] }

  /** What a split request has left behind on device `d`: its share, on every device but the first. */
  function StrandedOn(u: Setup, t: State, d: DeviceId): Id -> int {
    (id: Id) =>
      if id in t.res.hold && R.Lingers(t.res.hold[id].phase) && Later(u, d)
      then ConfigOf(t.res.alloc).BytesPerDevice(t.res.hold[id].seqLen) else 0
  }

  function Stranded(u: Setup, t: State, d: DeviceId): int { Sum(t.life.order, StrandedOn(u, t, d)) }

  lemma TailCaches(u: Setup, p: P.Pool, h: R.Hold, d: DeviceId)
    requires Shaped(u, p, h) && h.handle.tensorParallel && Distinct(u.topology.devices)
    ensures CachedOn(h.handle.caches[1..], d) == if Later(u, d) then p.cfg.BytesPerDevice(h.seqLen) else 0
  {
    SplitCaches(h.handle.caches[1..], u.topology.devices[1..], p.cfg.BytesPerDevice(h.seqLen), d);
  }

  /** Each request's memory is what it still holds, or what it stranded. */
  lemma MemoryParts(u: Setup, t: State, d: DeviceId, id: Id)
    requires t.res.alloc.OfPool? && Coherent(t.res.alloc) && Distinct(u.topology.devices)
    requires R.OwnsAt(t.res.hold, t.res.owner, t.res.alloc, id) && Shaped(u, t.res.alloc.p, t.res.hold[id])
    ensures MemoryAt(t.res.alloc.p, t.res.hold, d)(id) == LiveOn(t, d)(id) + StrandedOn(u, t, d)(id)
  {
    if R.Lingers(t.res.hold[id].phase) {
      TailCaches(u, t.res.alloc.p, t.res.hold[id], d);
    }
  }

  lemma SumParts<T>(xs: seq<T>, f: T -> int, g: T -> int, h: T -> int)
    requires forall x :: x in xs ==> f(x) == g(x) + h(x)
    ensures Sum(xs, f) == Sum(xs, g) + Sum(xs, h)
  {
    SumMinus(xs, g, f, h);
  }

  lemma MemorySum(u: Setup, t: State, d: DeviceId)
    requires t.res.alloc.OfPool? && Coherent(t.res.alloc) && R.Lists(t.life.order, t.res.hold)
    requires R.Owned(t.res.hold, t.res.owner, t.res.alloc) && Distinct(u.topology.devices)
    requires Balanced(u, t.res.alloc.p, t.life.order, t.res.hold)
    ensures On(t.res.alloc.p.granted, d) == Sum(t.life.order, LiveOn(t, d)) + Stranded(u, t, d)
  {
    forall id | id in t.life.order
      ensures MemoryAt(t.res.alloc.p, t.res.hold, d)(id) == LiveOn(t, d)(id) + StrandedOn(u, t, d)(id)
    {
      assert R.OwnsAt(t.res.hold, t.res.owner, t.res.alloc, id);
      MemoryParts(u, t, d, id);
    }
    SumParts(t.life.order, MemoryAt(t.res.alloc.p, t.res.hold, d), LiveOn(t, d), StrandedOn(u, t, d));
  }

  /** In every reachable state, what a device has handed out outside its pool and not been given back is
      what the live handles name there, plus what freed split handles stranded. */
  lemma MemoryExact(u: Setup, t: State, d: DeviceId)
    requires Reached(u, t) && t.res.alloc.OfPool?
    ensures On(t.res.alloc.p.granted, d) == Sum(t.life.order, LiveOn(t, d)) + Stranded(u, t, d)
  {
    hide Reached, L.Inv;
    ReachedAccounted(u, t);
    MemorySum(u, t, d);
  }

  lemma DoneLingers(u: Setup, t: State, id: Id)
    requires Inv(u, t) && Accounted(u, t) && t.res.alloc.OfPool? && L.At(t.life.place, id, L.Done)
    ensures id in t.res.hold && (t.res.hold[id].handle.tensorParallel ==> R.Lingers(t.res.hold[id].phase))
  {
    hide Fit, L.Inv, R.Inv;
    PhaseFact(u, t, id);
    R.ValidHandle(t.res, t.life.order, id);
    if !ModeOf(t.life.pc, id).Idle? {
      L.TouchedPlace(t.life, u.limits, id);
    }
    assert Shaped(u, t.res.alloc.p, t.res.hold[id]);
  }

  /** Every split request of the pool that has finished, however it ended, has stranded its share on every
      device but the first. */
  lemma FinishedSplitStrands(u: Setup, t: State, id: Id, d: DeviceId)
    requires Reached(u, t) && t.res.alloc.OfPool? && L.At(t.life.place, id, L.Done)
    ensures id in t.res.hold
    ensures t.res.hold[id].handle.tensorParallel && Later(u, d) ==>
      StrandedOn(u, t, d)(id) == ConfigOf(t.res.alloc).BytesPerDevice(t.res.hold[id].seqLen)
  {
    hide Reached, Inv;
    ReachedAccounted(u, t);
    DoneLingers(u, t, id);
  }

  // ---------------------------------------------------------------- when the memory returns

  /** What device `d` has handed out for single caches and not been given back. The contiguous allocator
      counts it itself. */
  function GrantedOn(a: Allocator, d: DeviceId): int {
    match a
    case OfContiguous(_) => NetUsed(a, d)
    case OfPool(p) => On(p.granted, d)
  }

  /** Whenever the decode thread is between requests and none is active, the devices have everything back. */
  ghost predicate MemoryReturns(u: Setup) {
    forall t, d :: Reached(u, t) && AtRest(t) && t.life.active == [] ==> GrantedOn(t.res.alloc, d) == 0
  }

  /** No request that is split over a pool is ever admitted and has bytes on each device. */
  ghost predicate NoneStrands(u: Setup) {
    || !SplitOverPool(u) || !Serves(u)
    || forall prompt: nat :: SplitsAt(u, prompt) ==> ConfigOf(u.alloc).BytesPerDevice(prompt + 1) == 0
  }

  lemma NothingStranded(u: Setup, t: State, d: DeviceId)
    requires Inv(u, t) && AllVetted(u, t) && NoneStrands(u)
    ensures Stranded(u, t, d) == 0
  {
    hide R.Inv, CoupledAt;
    forall id | id in t.life.order ensures StrandedOn(u, t, d)(id) == 0 {
      if id in t.res.hold && R.Lingers(t.res.hold[id].phase) {
        LingeringSplits(u, t, id);
        assert ConfigOf(u.alloc).BytesPerDevice(t.res.hold[id].seqLen - 1 + 1) == 0;
      }
    }
    SumZero(t.life.order, StrandedOn(u, t, d));
  }

  lemma NothingLive(u: Setup, t: State, d: DeviceId)
    requires Reached(u, t) && AtRest(t) && t.life.active == []
    ensures Sum(t.life.order, LiveOn(t, d)) == 0
  {
    hide Reached;
    HandlesFreedOnce(u, t);
    SumZero(t.life.order, LiveOn(t, d));
  }

  lemma ContiguousReturns(u: Setup, t: State, d: DeviceId)
    requires Inv(u, t) && AtRest(t) && t.life.active == [] && t.res.alloc.OfContiguous?
    ensures NetUsed(t.res.alloc, d) == 0
  {
    hide Fit, L.Inv;
    OnlyActiveHold(u, t, d);
    assert Counts(t.res.alloc, d) ==>
      NetUsed(t.res.alloc, d) == Sum(t.life.order, R.HeldAt(t.res.alloc, t.res.hold, d));
  }

  lemma PoolComesBack(u: Setup, t: State, d: DeviceId)
    requires Reached(u, t) && AtRest(t) && t.life.active == [] && NoneStrands(u) && t.res.alloc.OfPool?
    ensures On(t.res.alloc.p.granted, d) == 0
  {
    hide Reached, Inv, Unused;
    MemoryExact(u, t, d);
    NothingLive(u, t, d);
    ReachedVetted(u, t);
    NothingStranded(u, t, d);
  }

  lemma MemoryComesBack(u: Setup, t: State, d: DeviceId)
    requires Reached(u, t) && AtRest(t) && t.life.active == [] && NoneStrands(u)
    ensures GrantedOn(t.res.alloc, d) == 0
  {
    hide Reached, Inv;
    if t.res.alloc.OfPool? {
      PoolComesBack(u, t, d);
    } else {
      ReachedInv(u, t);
      ContiguousReturns(u, t, d);
    }
  }

  /** One failed prefill of a split request strands its share on every device but the first, and nothing
      will take it back. */
  lemma FailedPrefillStrands(u: Setup, prompt: nat) returns (t: State)
    requires Unused(u) && Sane(u) && Serves(u) && SplitOverPool(u) && SplitsAt(u, prompt)
    ensures Reached(u, t) && Quiet(t, [], []) && t.res.alloc.OfPool?
    ensures forall d :: Later(u, d) ==> GrantedOn(t.res.alloc, d) >= ConfigOf(u.alloc).BytesPerDevice(prompt + 1)
  {
    hide Reached, Inv;
    t := FailedPrefillOverdraws(u, prompt);
    ReachedVetted(u, t);
    ValidLingers(u, t, ME);
    forall d | Later(u, d) ensures GrantedOn(t.res.alloc, d) >= ConfigOf(u.alloc).BytesPerDevice(prompt + 1) {
      MemoryExact(u, t, d);
      NothingLive(u, t, d);
      StrandsAtLeast(u, t, ME, d);
    }
  }

  lemma StrandsAtLeast(u: Setup, t: State, id: Id, d: DeviceId)
    requires id in t.life.order && id in t.res.hold && R.Lingers(t.res.hold[id].phase) && Later(u, d)
    ensures Stranded(u, t, d) >= ConfigOf(t.res.alloc).BytesPerDevice(t.res.hold[id].seqLen)
  {
    SumNonNegative(t.life.order, StrandedOn(u, t, d));
    assert StrandedOn(u, t, d)(id) <= Stranded(u, t, d);
  }

  lemma ValidLingers(u: Setup, t: State, id: Id)
    requires Inv(u, t) && AtRest(t) && t.life.active == [] && id in t.res.hold && t.res.hold[id].handle.IsValid()
    ensures id in t.life.order && R.Lingers(t.res.hold[id].phase)
  {
    hide Fit;
    RestPhases(u, t, id);
    R.ValidHandle(t.res, t.life.order, id);
  }

  /** The devices get all memory back in every run if and only if the router does not split over a pool, or
      the limits let no request through, or no request that is split is admitted when everything is free
      and needs memory on each device. */
  lemma MemoryReturnsIff(u: Setup)
    requires Unused(u) && Sane(u)
    ensures MemoryReturns(u) <==>
      || !SplitOverPool(u) || !Serves(u)
      || forall prompt: nat :: SplitsAt(u, prompt) ==> ConfigOf(u.alloc).BytesPerDevice(prompt + 1) == 0
  {
    hide Reached;
    if NoneStrands(u) {
      forall t, d | Reached(u, t) && AtRest(t) && t.life.active == [] ensures GrantedOn(t.res.alloc, d) == 0 {
        MemoryComesBack(u, t, d);
      }
    } else {
      var prompt: nat :| SplitsAt(u, prompt) && ConfigOf(u.alloc).BytesPerDevice(prompt + 1) != 0;
      var t := FailedPrefillStrands(u, prompt);
      assert Later(u, u.topology.devices[1..][0]);
    }
  }
}
