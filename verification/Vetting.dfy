/** Admission seen from the start: budgets and pools are never roomier than when nothing has been
    submitted, so a request that is admitted at any time would have been admitted first. */
module Vetting {
  import opened Wrappers
  import opened Words
  import opened Sums
  import opened KvCache
  import opened Routing
  import opened Allocator
  import opened System
  import opened Safety
  import opened Guarantees
  import opened Locality
  import opened Drain
  import opened SoloRuns
  import opened SplitPool
  import C = Contiguous
  import P = Pool
  import L = Lifecycle
  import R = Resources

  // ---------------------------------------------------------------- what no step changes

  ghost predicate BudgetFrame(before: seq<Budget>, after: seq<Budget>) {
    && |after| == |before|
    && forall i :: 0 <= i < |before| ==> after[i].device == before[i].device && after[i].total == before[i].total
  }

  /** Pools are not carved anew. */
  ghost predicate PoolFrame(p: P.Pool, q: P.Pool) {
    && q.cfg == p.cfg && q.slotTokens == p.slotTokens && q.allowOverflow == p.allowOverflow
    && forall d :: d in q.pools && q.pools[d].slots != [] ==> d in p.pools && p.pools[d].slots != []
  }

  ghost predicate AllocFrame(a: Allocator, b: Allocator) {
    match a
    case OfContiguous(c) => b.OfContiguous? && b.c.cfg == c.cfg && C.SameTotals(c.stats, b.c.stats)
    case OfPool(p) => b.OfPool? && PoolFrame(p, b.p)
  }

  ghost predicate Frame(r: R.Res, r': R.Res) {
    BudgetFrame(r.budgets, r'.budgets) && AllocFrame(r.alloc, r'.alloc)
  }

  lemma FrameChain(a: R.Res, b: R.Res, c: R.Res)
    requires Frame(a, b) && Frame(b, c)
    ensures Frame(a, c)
  {
  }

  lemma PoolAllocateFrame(p: P.Pool, seqLen: nat, ds: seq<DeviceId>, grants: seq<Grant>)
    requires P.Sound(p)
    ensures PoolFrame(p, P.AllocateSplit(p, seqLen, ds, grants).0)
  {
    var q := P.AllocateSplit(p, seqLen, ds, grants).0;
    var (d, dp) := (p.cfg.device, P.PoolAt(p, p.cfg.device));
    if ds == [] && seqLen <= p.slotTokens {
      if dp.freeSlots != [] {
        assert dp.freeSlots[|dp.freeSlots| - 1] in dp.freeSlots;
        assert q.pools == p.pools[d := P.TakeSlot(dp, p.slotBytes)] && |q.pools[d].slots| == |dp.slots|;
      } else {
        assert q.pools == p.pools[d := dp];
      }
    } else {
      assert q.pools == p.pools;
    }
  }

  lemma AllocateFrame(a: Allocator, seqLen: nat, ds: seq<DeviceId>, grants: seq<Grant>)
    requires Coherent(a)
    ensures AllocFrame(a, Allocate(a, seqLen, ds, grants).0)
  {
    match a
    case OfContiguous(c) => C.OperationsKeepTotals(c, seqLen, ds, grants, NO_HANDLE);
    case OfPool(p) => PoolAllocateFrame(p, seqLen, ds, grants);
  }

  lemma GiveBackFrame(a: Allocator, h: Handle)
    requires Coherent(a)
    ensures AllocFrame(a, GiveBack(a, h).0)
  {
    if a.OfContiguous? {
      C.OperationsKeepTotals(a.c, 0, [], [], h);
    } else if h.IsValid() && h.id in a.p.origins {
      assert P.SoundOrigin(a.p, a.p.origins[h.id]);
    }
  }

  predicate Moves(step: Step) {
    step.PlaceOnGpu? || step.AllocateKv? || step.UnreserveGpu? || step.CommitGpu? || step.FreeBudget? || step.FreeKv?
  }

  lemma StillFrame(u: Setup, s: State, step: Step)
    requires Enabled(u, s, step) && !Moves(step)
    ensures Apply(u, s, step).res.budgets == s.res.budgets && Apply(u, s, step).res.alloc == s.res.alloc
  {
    hide Enabled;
  }

  lemma FreeFrame(u: Setup, s: State, step: Step)
    requires Enabled(u, s, step) && Coherent(s.res.alloc) && (step.FreeBudget? || step.FreeKv?)
    ensures Frame(s.res, Apply(u, s, step).res)
  {
    hide Coherent;
    var h := s.res.hold[s.life.pc.id];
    if step.FreeBudget? {
    } else {
      GiveBackFrame(s.res.alloc, h.handle);
    }
  }

  lemma AllocateKvFrame(u: Setup, s: State, grants: seq<Grant>)
    requires Enabled(u, s, AllocateKv(grants))
    ensures Frame(s.res, DoAllocateKv(u, s, grants).res)
  {
    hide Reached;
    AllocateFrame(s.res.alloc, s.res.hold[s.life.pc.id].seqLen, SplitDevices(u, s.life.pc.decision), grants);
  }

  lemma StepFrame(u: Setup, s: State, step: Step)
    requires Enabled(u, s, step) && Coherent(s.res.alloc)
    ensures Frame(s.res, Apply(u, s, step).res)
  {
    hide Enabled, Coherent;
    if step.PlaceOnGpu? {
    } else if step.UnreserveGpu? || step.CommitGpu? {
    } else if step.AllocateKv? {
      AllocateKvFrame(u, s, step.grants);
    } else if Moves(step) {
      FreeFrame(u, s, step);
    } else {
      StillFrame(u, s, step);
    }
  }

  /** The devices and lengths of the requests are the same. */
  ghost predicate SameGpus(hold: map<Id, R.Hold>, after: map<Id, R.Hold>) {
    after.Keys == hold.Keys
    && forall id :: id in hold ==> after[id].gpus == hold[id].gpus && after[id].seqLen == hold[id].seqLen
  }

  /** So are their handles, but for the current lengths. */
  ghost predicate SameHandles(hold: map<Id, R.Hold>, after: map<Id, R.Hold>) {
    after.Keys == hold.Keys && forall id :: id in hold ==>
      after[id].seqLen == hold[id].seqLen && after[id].handle.(currentLen := 0) == hold[id].handle.(currentLen := 0)
  }

  /** A step, unless a request enters, changes what a request holds in two ways: its devices when it is
      placed, and its handle when that is allocated or freed. */
  ghost predicate HoldsKept(s: State, t: State, step: Step) {
    && t.life.order == s.life.order
    && (!step.PlaceOnGpu? ==> SameGpus(s.res.hold, t.res.hold))
    && (!step.AllocateKv? && !step.FreeKv? ==> SameHandles(s.res.hold, t.res.hold) && t.res.alloc == s.res.alloc)
  }

  lemma SubmitHolds(u: Setup, s: State, step: Step)
    requires Enabled(u, s, step) && (OfSubmit(step) || OfWatch(step) || OfSweep(step)) && !step.Offer?
    ensures HoldsKept(s, Apply(u, s, step), step)
  {
    hide Coherent, GpuAccepts, CanAllocate, Allocate;
  }

  lemma TakeHolds(u: Setup, s: State, step: Step)
    requires Enabled(u, s, step) && (step.TakeNext? || step.TestTimeouts?)
    ensures HoldsKept(s, Apply(u, s, step), step)
  {
    hide Coherent, GpuAccepts, CanAllocate;
  }

  lemma PlaceHolds(u: Setup, s: State, step: Step)
    requires Enabled(u, s, step) && (step.PlaceOnGpu? || step.AllocateKv?)
    ensures HoldsKept(s, Apply(u, s, step), step)
  {
    hide Coherent, GpuAccepts, CanAllocate;
  }

  lemma SettleHolds(u: Setup, s: State, step: Step)
    requires Enabled(u, s, step) && (step.UnreserveGpu? || step.CommitGpu?)
    ensures HoldsKept(s, Apply(u, s, step), step)
  {
    hide Coherent, GpuAccepts, CanAllocate, Allocate;
  }

  lemma ReadHolds(u: Setup, s: State, step: Step)
    requires Enabled(u, s, step) && (step.RunPrefill? || step.Activate?)
    ensures HoldsKept(s, Apply(u, s, step), step)
  {
    hide Coherent, GpuAccepts, CanAllocate, Allocate;
  }

  lemma EntryHolds(u: Setup, s: State, step: Step)
    requires Enabled(u, s, step) && OfEntry(step)
    ensures HoldsKept(s, Apply(u, s, step), step)
  {
    hide Coherent, GpuAccepts, CanAllocate, Allocate;
  }

  lemma EndHolds(u: Setup, s: State, step: Step)
    requires Enabled(u, s, step) && OfEnd(step) && !step.FreeBudget?
    ensures HoldsKept(s, Apply(u, s, step), step)
  {
    hide Coherent, GpuAccepts, CanAllocate, Allocate;
  }

  lemma FreeHolds(u: Setup, s: State, step: Step)
    requires Enabled(u, s, step) && (step.FreeBudget? || step.FreeKv?)
    ensures HoldsKept(s, Apply(u, s, step), step)
  {
    hide Coherent, GpuAccepts, CanAllocate, Allocate, GiveBack;
  }

  lemma LeaveHolds(u: Setup, s: State, step: Step)
    requires Enabled(u, s, step) && OfLeave(step) && !step.FreeKv?
    ensures HoldsKept(s, Apply(u, s, step), step)
  {
    hide Coherent, GpuAccepts, CanAllocate, Allocate;
  }

  lemma StepHolds(u: Setup, s: State, step: Step)
    requires Enabled(u, s, step) && !step.Offer?
    ensures HoldsKept(s, Apply(u, s, step), step)
  {
    hide Apply, Enabled, HoldsKept;
    if OfSubmit(step) || OfWatch(step) || OfSweep(step) {
      SubmitHolds(u, s, step);
    } else if step.TakeNext? || step.TestTimeouts? {
      TakeHolds(u, s, step);
    } else if OfFill(step) {
      PlaceHolds(u, s, step);
    } else if step.UnreserveGpu? || step.CommitGpu? {
      SettleHolds(u, s, step);
    } else if OfPrefill(step) {
      ReadHolds(u, s, step);
    } else if OfEntry(step) {
      EntryHolds(u, s, step);
    } else if step.FreeBudget? || step.FreeKv? {
      FreeHolds(u, s, step);
    } else if OfEnd(step) {
      EndHolds(u, s, step);
    } else {
      LeaveHolds(u, s, step);
    }
  }

  // ---------------------------------------------------------------- the start is roomiest

  lemma RoomiestBudget(b0: Budget, b: Budget, bytes: nat)
    requires b0.used == 0 && b0.reserved == 0 && b0.total < WORD && b.total == b0.total && b.CanFit(bytes)
    ensures b0.CanFit(bytes)
  {
    if Wrap(b.used + b.reserved) < b.total {
      var x := b.used + b.reserved;
      WrapAdd(x, 0 - x);
      assert x == (x / WORD) * WORD + Wrap(x);
      WrapUnique(b.total - x, 0 - x / WORD, b.total - Wrap(x));
    }
  }

  lemma RoomiestGpu(u: Setup, r: R.Res, n: nat)
    requires Unused(u) && Frame(Start(u), r) && GpuAccepts(u, r, n)
    ensures GpuAccepts(u, Start(u), n)
  {
    if u.hasRouter {
      forall i, bytes: nat | 0 <= i < |r.budgets| && r.budgets[i].CanFit(bytes) ensures u.budgets[i].CanFit(bytes) {
        RoomiestBudget(u.budgets[i], r.budgets[i], bytes);
      }
    }
  }

  lemma RoomiestAllocator(u: Setup, a: Allocator, n: nat)
    requires Unused(u) && Coherent(a) && AllocFrame(u.alloc, a) && CanAllocate(a, n)
    ensures CanAllocate(u.alloc, n)
  {
    if a.OfPool? {
      RoomiestPool(u.alloc.p, a.p, n);
    } else {
      assert Counts(u.alloc, a.c.cfg.device);
    }
  }

  lemma RoomiestPool(p0: P.Pool, p: P.Pool, n: nat)
    requires P.Sound(p0) && P.Sound(p) && p0.origins == map[] && PoolFrame(p0, p) && P.CanAllocate(p, n)
    ensures P.CanAllocate(p0, n)
  {
    var d := p.cfg.device;
    if d in p.pools && p.pools[d].freeSlots != [] {
      assert p.pools[d].freeSlots[0] in p.pools[d].freeSlots && P.SoundPool(p.pools[d], p.slotBytes);
    }
  }

  // ---------------------------------------------------------------- what every request has passed

  ghost predicate StageVetted(u: Setup, stage: L.SubmitStage, n: nat) {
    match stage
    case QueueChecked => true
    case GpuChecked => GpuAccepts(u, Start(u), n)
    case Admitted => Admissible(u, n)
    case Registered => Admissible(u, n)
  }

  /** A request that is past a check would have passed it at the start. */
  ghost predicate Vetted(u: Setup, l: L.Life, p: L.Place, n: nat) {
    match p
    case TurnedAway => true
    case Submitting(t) => Opens(u) && (t in l.submissions ==> StageVetted(u, l.submissions[t].stage, n))
    case Waiting => Opens(u) && Admissible(u, n)
    case InHand => Serves(u) && Admissible(u, n)
    case Running => Serves(u) && Admissible(u, n)
    case Done => Serves(u) && Admissible(u, n)
  }

  ghost predicate VettedAt(u: Setup, s: State, id: Id) {
    Recorded(s, id) ==> Vetted(u, s.life, s.life.place[id], s.specs[id].SeqLen())
  }

  ghost predicate AllVetted(u: Setup, s: State) {
    forall id {:trigger VettedAt(u, s, id)} :: id in s.specs ==> VettedAt(u, s, id)
  }

  lemma OfferVetted(u: Setup, s: State, step: Step, x: Id)
    requires Enabled(u, s, step) && step.Offer? && step.id == x
    ensures VettedAt(u, Apply(u, s, step), x)
  {
    hide Coherent, Allocate, GiveBack, GpuAccepts, CanAllocate;
  }

  lemma SubmitVetted(u: Setup, s: State, step: Step, x: Id)
    requires Enabled(u, s, step) && OfSubmit(step) && !step.Offer? && WorksOn(u, s, step) == Some(x)
    requires Recorded(s, x) && VettedAt(u, s, x) && s.life.place[x] == L.Submitting(step.thread)
    requires GpuAccepts(u, s.res, s.specs[x].SeqLen()) ==> GpuAccepts(u, Start(u), s.specs[x].SeqLen())
    requires CanAllocate(s.res.alloc, s.specs[x].SeqLen()) ==> CanAllocate(u.alloc, s.specs[x].SeqLen())
    ensures VettedAt(u, Apply(u, s, step), x)
  {
    hide Coherent, Allocate, GiveBack, GpuAccepts;
  }

  /** Where the decode thread leaves the request it works on. */
  lemma DecodePlaces(u: Setup, s: State, step: Step, x: Id)
    requires Enabled(u, s, step) && !OfSubmit(step) && WorksOn(u, s, step) == Some(x) && Recorded(s, x)
    ensures Recorded(Apply(u, s, step), x) && Apply(u, s, step).specs == s.specs
    ensures var p := Apply(u, s, step).life.place[x]; p == s.life.place[x] || p.InHand? || p.Running? || p.Done?
  {
    hide Apply;
    if OfFill(step) {
      FillPlaces(u, s, step, x);
    } else if OfPrefill(step) {
      PrefillPlaces(u, s, step, x);
    } else if OfEntry(step) {
      EntryPlaces(u, s, step, x);
    } else if OfEnd(step) {
      EndPlaces(u, s, step, x);
    } else {
      LeavePlaces(u, s, step, x);
    }
  }

  lemma FillPlaces(u: Setup, s: State, step: Step, x: Id)
    requires Enabled(u, s, step) && OfFill(step) && WorksOn(u, s, step) == Some(x) && Recorded(s, x)
    ensures Recorded(Apply(u, s, step), x) && Apply(u, s, step).specs == s.specs
    ensures var p := Apply(u, s, step).life.place[x]; p == s.life.place[x] || p.InHand? || p.Running? || p.Done?
  {
    hide Coherent, Allocate, GiveBack, CanAllocate;
  }

  lemma PrefillPlaces(u: Setup, s: State, step: Step, x: Id)
    requires Enabled(u, s, step) && OfPrefill(step) && WorksOn(u, s, step) == Some(x) && Recorded(s, x)
    ensures Recorded(Apply(u, s, step), x) && Apply(u, s, step).specs == s.specs
    ensures var p := Apply(u, s, step).life.place[x]; p == s.life.place[x] || p.InHand? || p.Running? || p.Done?
  {
    hide Coherent, Allocate, GiveBack, CanAllocate;
  }

  lemma EntryPlaces(u: Setup, s: State, step: Step, x: Id)
    requires Enabled(u, s, step) && OfEntry(step) && WorksOn(u, s, step) == Some(x) && Recorded(s, x)
    ensures Recorded(Apply(u, s, step), x) && Apply(u, s, step).specs == s.specs
    ensures Apply(u, s, step).life.place[x] == s.life.place[x]
  {
    hide Coherent, Allocate, GiveBack, CanAllocate;
  }

  lemma EndPlaces(u: Setup, s: State, step: Step, x: Id)
    requires Enabled(u, s, step) && OfEnd(step) && WorksOn(u, s, step) == Some(x) && Recorded(s, x)
    ensures Recorded(Apply(u, s, step), x) && Apply(u, s, step).specs == s.specs
    ensures Apply(u, s, step).life.place[x] == s.life.place[x]
  {
    hide Coherent, Allocate, GiveBack, CanAllocate;
  }

  lemma LeavePlaces(u: Setup, s: State, step: Step, x: Id)
    requires Enabled(u, s, step) && OfLeave(step) && WorksOn(u, s, step) == Some(x) && Recorded(s, x)
    ensures Recorded(Apply(u, s, step), x) && Apply(u, s, step).specs == s.specs
    ensures var p := Apply(u, s, step).life.place[x]; p == s.life.place[x] || p.InHand? || p.Running? || p.Done?
  {
  }

  lemma DecodeVetted(u: Setup, s: State, step: Step, x: Id)
    requires Enabled(u, s, step) && !OfSubmit(step) && WorksOn(u, s, step) == Some(x)
    requires WorkFacts(s, step, x) && PlaceFacts(s, step, x) && VettedAt(u, s, x)
    ensures VettedAt(u, Apply(u, s, step), x)
  {
    hide Apply, Coherent;
    DecodePlaces(u, s, step, x);
  }

  lemma WorkVetted(u: Setup, s: State, step: Step, x: Id)
    requires Inv(u, s) && Enabled(u, s, step) && WorksOn(u, s, step) == Some(x) && !step.Offer?
    requires Unused(u) && Frame(Start(u), s.res) && VettedAt(u, s, x)
    ensures VettedAt(u, Apply(u, s, step), x)
  {
    hide Apply, Enabled, Fit;
    WorkHasFacts(u, s, step, x);
    WorkHasPlaceFacts(u, s, step, x);
    if OfSubmit(step) {
      var n := s.specs[x].SeqLen();
      if GpuAccepts(u, s.res, n) {
        RoomiestGpu(u, s.res, n);
      }
      if CanAllocate(s.res.alloc, n) {
        RoomiestAllocator(u, s.res.alloc, n);
      }
      SubmitVetted(u, s, step, x);
    } else {
      DecodeVetted(u, s, step, x);
    }
  }

  lemma OthersStayVetted(u: Setup, s: State, step: Step, id: Id)
    requires Inv(u, s) && Enabled(u, s, step) && id in s.life.place && WorksOn(u, s, step) != Some(id)
    requires VettedAt(u, s, id)
    ensures VettedAt(u, Apply(u, s, step), id)
  {
    InvRecords(u, s, id);
    StepLocal(u, s, step, id);
    if s.life.place[id].Submitting? {
      ThreadOf(s.life, u.limits, id);
    }
  }

  lemma NewSpecs(u: Setup, s: State, step: Step, id: Id)
    requires Enabled(u, s, step) && id in Apply(u, s, step).specs && id !in s.specs
    ensures step.Offer? && step.id == id
  {
    hide Enabled, Allocate;
  }

  lemma StepVettedAt(u: Setup, s: State, step: Step, id: Id)
    requires Inv(u, s) && Enabled(u, s, step) && id in Apply(u, s, step).specs
    requires Unused(u) && Frame(Start(u), s.res) && AllVetted(u, s)
    ensures VettedAt(u, Apply(u, s, step), id)
  {
    hide Apply, R.Inv, CoupledAt;
    if id in s.specs {
      assert VettedAt(u, s, id);
      if WorksOn(u, s, step) == Some(id) {
        WorkVetted(u, s, step, id);
      } else {
        OthersStayVetted(u, s, step, id);
      }
    } else {
      NewSpecs(u, s, step, id);
      OfferVetted(u, s, step, id);
    }
  }

  lemma {:induction false} RunVetted(u: Setup, s: State, steps: seq<Step>, t: State)
    requires Inv(u, s) && Unused(u) && Frame(Start(u), s.res) && AllVetted(u, s) && Runs(u, s, steps, t)
    ensures Frame(Start(u), t.res) && AllVetted(u, t)
    decreases |steps|
  {
    hide Apply, Enabled, Fit, L.Inv;
    if steps != [] {
      var next := Apply(u, s, steps[0]);
      forall id | id in next.specs ensures VettedAt(u, next, id) {
        StepVettedAt(u, s, steps[0], id);
      }
      StepFrame(u, s, steps[0]);
      FrameChain(Start(u), s.res, next.res);
      StepKeeps(u, s, steps[0]);
      RunVetted(u, next, steps[1..], t);
    }
  }

  /** In every reachable state budgets and allocator have their first totals, and every request has passed
      what it is past. */
  lemma ReachedVetted(u: Setup, t: State)
    requires Reached(u, t)
    ensures Inv(u, t) && Unused(u) && Frame(Start(u), t.res) && AllVetted(u, t)
  {
    hide Inv, Runs, Unused;
    var s, steps :| Init(u, s) && Sane(u) && Runs(u, s, steps, t);
    RunFromStart(u, s, steps, t);
  }

  lemma RunFromStart(u: Setup, s: State, steps: seq<Step>, t: State)
    requires Init(u, s) && Sane(u) && Runs(u, s, steps, t)
    ensures Inv(u, t) && Unused(u) && Frame(Start(u), t.res) && AllVetted(u, t)
  {
    hide Inv, Apply, Enabled;
    InitInv(u, s);
    RunVetted(u, s, steps, t);
    RunKeeps(u, s, steps, t);
  }

  // ---------------------------------------------------------------- when the budgets return

  /** A request that has held a split handle of the pool was admitted, and the router splits it. */
  lemma LingeringSplits(u: Setup, t: State, id: Id)
    requires Inv(u, t) && AllVetted(u, t) && id in t.life.order && id in t.res.hold && R.Lingers(t.res.hold[id].phase)
    ensures SplitOverPool(u) && Serves(u) && t.res.hold[id].gpus == u.topology.devices
    ensures t.res.hold[id].seqLen >= 1 && SplitsAt(u, t.res.hold[id].seqLen - 1)
  {
    L.OrderPlace(t.life, u.limits, id);
    LingeringPlace(u, t, id);
    R.ValidHandle(t.res, t.life.order, id);
    InvRecords(u, t, id);
    assert CoupledAt(u, t, id) && VettedAt(u, t, id);
  }

  lemma LingeringPlace(u: Setup, t: State, id: Id)
    requires Inv(u, t) && id in t.life.place && id in t.res.hold && R.Lingers(t.res.hold[id].phase)
    ensures t.life.place[id].InHand? || t.life.place[id].Running? || t.life.place[id].Done?
  {
    hide R.Inv;
    PhaseFact(u, t, id);
    LingersOnlyAtEnd(u, t, id);
  }

  lemma LingersOnlyAtEnd(u: Setup, t: State, id: Id)
    requires L.Inv(t.life, u.limits) && id in t.life.place && id in t.res.hold && R.Lingers(t.res.hold[id].phase)
    requires PhaseFits(t.life.place[id], t.res.hold[id].phase, ModeOf(t.life.pc, id))
    ensures t.life.place[id].InHand? || t.life.place[id].Running? || t.life.place[id].Done?
  {
    if !ModeOf(t.life.pc, id).Idle? {
      L.TouchedPlace(t.life, u.limits, id);
    }
  }

  /** No request that is split over a pool is ever admitted and shows in a counter. */
  ghost predicate NoneShows(u: Setup) {
    || !SplitOverPool(u) || !Serves(u)
    || forall prompt: nat :: SplitsAt(u, prompt) ==> Wrap(SplitCharge(u, prompt)) == 0
  }

  /** Then what was released twice shows in no counter. */
  lemma OverdrawnUnseen(u: Setup, t: State, id: Id, d: DeviceId)
    requires Inv(u, t) && id in t.life.order && AllVetted(u, t) && NoneShows(u)
    ensures Wrap(OverdrawnOn(t, d)(id)) == 0
  {
    hide Inv;
    if id in t.res.hold && (t.res.hold[id].phase.Drawn? || t.res.hold[id].phase.Overdrawn?) {
      LingeringSplits(u, t, id);
      SplitUnseen(u, t.res.hold[id], d);
    }
  }

  lemma SplitUnseen(u: Setup, h: R.Hold, d: DeviceId)
    requires SplitOverPool(u) && Serves(u) && h.seqLen >= 1 && SplitsAt(u, h.seqLen - 1) && NoneShows(u)
    requires h.gpus == u.topology.devices
    ensures Wrap(R.ShareOn(h, d)) == 0
  {
    assert Wrap(SplitCharge(u, h.seqLen - 1)) == 0;
  }

  lemma UnseenSum(t: State, d: DeviceId)
    requires forall id :: id in t.life.order ==> Wrap(OverdrawnOn(t, d)(id)) == 0
    ensures Wrap(0 - Overdraft(t, d)) == 0
  {
    SumWraps(t.life.order, OverdrawnOn(t, d));
    WrapNegative(Overdraft(t, d));
  }

  lemma OverdraftUnseen(u: Setup, t: State, d: DeviceId)
    requires Inv(u, t) && AllVetted(u, t) && NoneShows(u)
    ensures Wrap(0 - Overdraft(t, d)) == 0
  {
    hide Inv;
    forall id | id in t.life.order ensures Wrap(OverdrawnOn(t, d)(id)) == 0 {
      OverdrawnUnseen(u, t, id, d);
    }
    UnseenSum(t, d);
  }

  /** Whenever the decode thread is between requests and none is active, no budget is charged. */
  ghost predicate BudgetsReturn(u: Setup) {
    forall t :: Reached(u, t) && AtRest(t) && t.life.active == [] ==> Uncharged(t.res.budgets)
  }

  lemma UnseenReturns(u: Setup, t: State)
    requires Reached(u, t) && AtRest(t) && t.life.active == [] && NoneShows(u)
    ensures Uncharged(t.res.budgets)
  {
    hide Inv, Runs, Unused;
    ReachedVetted(u, t);
    forall i | 0 <= i < |t.res.budgets| ensures t.res.budgets[i].used == 0 && t.res.budgets[i].reserved == 0 {
      UnseenCounter(u, t, i);
    }
  }

  lemma UnseenCharge(t: State, d: DeviceId)
    requires t.life.active == [] && Wrap(0 - Overdraft(t, d)) == 0
    ensures Wrap(Charge(t, d)) == 0
  {
    NoneActive(t, d);
  }

  lemma ChargeUnseen(u: Setup, t: State, d: DeviceId)
    requires Inv(u, t) && AllVetted(u, t) && NoneShows(u) && t.life.active == []
    ensures Wrap(Charge(t, d)) == 0
  {
    hide Inv;
    OverdraftUnseen(u, t, d);
    UnseenCharge(t, d);
  }

  lemma UnseenCounter(u: Setup, t: State, i: nat)
    requires Inv(u, t) && AllVetted(u, t) && AtRest(t) && t.life.active == [] && NoneShows(u) && i < |t.res.budgets|
    ensures t.res.budgets[i].used == 0 && t.res.budgets[i].reserved == 0
  {
    hide Inv;
    RestCharge(u, t, i);
    ChargeUnseen(u, t, t.res.budgets[i].device);
  }

  /** The budgets return to zero in every run if and only if the router does not split over a pool, or the
      limits let no request through, or no request that is split is admitted when everything is free and
      shows in a counter. */
  lemma BudgetsReturnIff(u: Setup)
    requires Unused(u) && Sane(u)
    ensures BudgetsReturn(u) <==>
      || !SplitOverPool(u) || !Serves(u)
      || forall prompt: nat :: SplitsAt(u, prompt) ==> Wrap(SplitCharge(u, prompt)) == 0
  {
    hide Reached;
    if NoneShows(u) {
      forall t | Reached(u, t) && AtRest(t) && t.life.active == [] ensures Uncharged(t.res.budgets) {
        UnseenReturns(u, t);
      }
    } else {
      var prompt: nat :| SplitsAt(u, prompt) && Wrap(SplitCharge(u, prompt)) != 0;
      var t := FailedPrefillOverdraws(u, prompt);
      OverdrawnIsCharged(u, t.res.budgets, prompt);
    }
  }
}
