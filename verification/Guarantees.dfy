/** The scheduler's guarantees, for every interleaving that starts with nothing submitted. */
module Guarantees {
  import opened Words
  import opened Sums
  import opened KvCache
  import opened Routing
  import opened Allocator
  import opened Stream
  import opened System
  import opened Safety
  import C = Contiguous
  import P = Pool
  import L = Lifecycle
  import R = Resources

  /** `t` is reached by some interleaving. */
  ghost predicate Reached(u: Setup, t: State) {
    exists s, steps :: Init(u, s) && Sane(u) && Runs(u, s, steps, t)
  }

  lemma {:induction false} RunsSnoc(u: Setup, s: State, steps: seq<Step>, t: State, step: Step)
    requires Runs(u, s, steps, t) && Enabled(u, t, step)
    ensures Runs(u, s, steps + [step], Apply(u, t, step))
    decreases |steps|
  {
    hide Apply, Enabled;
    if steps == [] {
      assert [step][1..] == [];
      assert steps + [step] == [step];
    } else {
      assert (steps + [step])[1..] == steps[1..] + [step];
      RunsSnoc(u, Apply(u, s, steps[0]), steps[1..], t, step);
    }
  }

  /** One more step. */
  lemma ReachedOn(u: Setup, t: State, step: Step)
    requires Reached(u, t) && Enabled(u, t, step)
    ensures Reached(u, Apply(u, t, step))
  {
    hide Apply, Enabled, Runs;
    var s, steps :| Init(u, s) && Sane(u) && Runs(u, s, steps, t);
    RunsSnoc(u, s, steps, t, step);
  }

  lemma Origin(u: Setup, t: State) returns (s: State, steps: seq<Step>)
    requires Reached(u, t)
    ensures L.Nobody(s.life) && s.talks == map[] && Inv(u, s) && Runs(u, s, steps, t)
  {
    hide Inv, Apply, Enabled;
    s, steps :| Init(u, s) && Sane(u) && Runs(u, s, steps, t);
    InitInv(u, s);
  }

  function Begin(u: Setup): State { State(L.NOBODY, Start(u), map[], map[]) }

  lemma Begins(u: Setup)
    requires Unused(u) && Sane(u)
    ensures Init(u, Begin(u)) && Reached(u, Begin(u))
  {
    hide Apply, Enabled;
    assert Runs(u, Begin(u), [], Begin(u));
  }

  lemma ReachedInv(u: Setup, t: State)
    requires Reached(u, t)
    ensures Inv(u, t)
  {
    hide Reached, Inv, Apply, Enabled;
    var s, steps := Origin(u, t);
    RunKeeps(u, s, steps, t);
  }

  /** The decode thread is between requests: inside the loops of `process_queue` or `decode_loop`, at most
      with a request in hand that has no memory yet. */
  ghost predicate AtRest(t: State) {
    t.life.pc.Filling? || t.life.pc.Holding? || t.life.pc.Sweeping? || t.life.pc.Stepping?
  }

  lemma RestPhases(u: Setup, t: State, id: Id)
    requires Inv(u, t) && AtRest(t) && id in t.life.place
    ensures id in t.res.hold
    ensures id in t.life.active <==> t.res.hold[id].phase.Charged?
    ensures id !in t.life.active ==> Gone(t.res.hold[id].phase)
  {
    hide L.Inv, R.Inv;
    PhaseFact(u, t, id);
    L.ActivePlace(t.life, u.limits, id);
  }

  // ---------------------------------------------------------------- memory

  /** The share of device `d` that each request is charged. */
  function SharesOn(t: State, d: DeviceId): Id -> int {
    (id: Id) => if id in t.res.hold then R.ShareOn(t.res.hold[id], d) else 0
  }

  function OverdrawnOn(t: State, d: DeviceId): Id -> int {
    (id: Id) => if id in t.res.hold then R.OverdrawnBy(t.res.hold[id], d) else 0
  }

  /** What failed prefills of split requests have released twice on device `d`. */
  function Overdraft(t: State, d: DeviceId): int { Sum(t.life.order, OverdrawnOn(t, d)) }

  /** The charge of the active requests alone. */
  function ChargedOn(t: State, d: DeviceId): Id -> int {
    (id: Id) => if id in t.life.active then SharesOn(t, d)(id) else 0
  }

  lemma ChargedMeters(t: State, d: DeviceId, id: Id)
    requires id in t.res.hold && (id in t.life.active <==> t.res.hold[id].phase.Charged?)
    requires id !in t.life.active ==> Gone(t.res.hold[id].phase)
    ensures R.ReservedAt(t.res.hold, d)(id) == 0
    ensures R.UsedAt(t.res.hold, d)(id) == ChargedOn(t, d)(id) - OverdrawnOn(t, d)(id)
  {
    assert SharesOn(t, d)(id) == R.ShareOn(t.res.hold[id], d);
    assert OverdrawnOn(t, d)(id) == R.OverdrawnBy(t.res.hold[id], d);
    assert ChargedOn(t, d)(id) == if id in t.life.active then SharesOn(t, d)(id) else 0;
  }

  /** What the counters of a device see of one request. */
  lemma CountedAtRest(u: Setup, t: State, d: DeviceId, id: Id)
    requires Inv(u, t) && AtRest(t) && id in t.life.order
    ensures R.ReservedAt(t.res.hold, d)(id) == 0
    ensures R.UsedAt(t.res.hold, d)(id) == ChargedOn(t, d)(id) - OverdrawnOn(t, d)(id)
  {
    hide Fit, R.Inv;
    L.OrderPlace(t.life, u.limits, id);
    RestPhases(u, t, id);
    ChargedMeters(t, d, id);
  }

  /** The sums over all requests, from what each of them counts. */
  lemma SumsAtRest(t: State, d: DeviceId)
    requires Distinct(t.life.order) && Distinct(t.life.active)
    requires forall id :: id in t.life.active ==> id in t.life.order
    requires forall id :: id in t.life.order ==> R.ReservedAt(t.res.hold, d)(id) == 0
    requires forall id :: id in t.life.order ==>
      R.UsedAt(t.res.hold, d)(id) == ChargedOn(t, d)(id) - OverdrawnOn(t, d)(id)
    ensures Sum(t.life.order, R.ReservedAt(t.res.hold, d)) == 0
    ensures Sum(t.life.order, R.UsedAt(t.res.hold, d)) == Charge(t, d)
  {
    SumZero(t.life.order, R.ReservedAt(t.res.hold, d));
    SumMinus(t.life.order, R.UsedAt(t.res.hold, d), ChargedOn(t, d), OverdrawnOn(t, d));
    SumSupport(t.life.order, t.life.active, ChargedOn(t, d));
    SumSame(t.life.active, ChargedOn(t, d), SharesOn(t, d));
  }

  lemma OnlyActiveCount(u: Setup, t: State, d: DeviceId)
    requires Inv(u, t) && AtRest(t)
    ensures Sum(t.life.order, R.ReservedAt(t.res.hold, d)) == 0
    ensures Sum(t.life.order, R.UsedAt(t.res.hold, d)) == Charge(t, d)
  {
    hide Fit, R.Inv;
    forall id | id in t.life.order
      ensures R.ReservedAt(t.res.hold, d)(id) == 0
      ensures R.UsedAt(t.res.hold, d)(id) == ChargedOn(t, d)(id) - OverdrawnOn(t, d)(id)
    {
      CountedAtRest(u, t, d, id);
    }
    L.ActiveLists(t.life, u.limits);
    SumsAtRest(t, d);
  }

  lemma CounterIsSum(u: Setup, t: State, i: nat)
    requires Inv(u, t) && i < |t.res.budgets|
    ensures R.BudgetOk(t.res.budgets[i], t.life.order, t.res.hold)
  {
    hide Fit, L.Inv;
  }

  /** What the counter of used memory of device `d` stands for: the shares of the active requests, less
      what failed prefills of split requests released twice. */
  function Charge(t: State, d: DeviceId): int { Sum(t.life.active, SharesOn(t, d)) - Overdraft(t, d) }

  lemma NoneActive(t: State, d: DeviceId)
    requires t.life.active == []
    ensures Charge(t, d) == 0 - Overdraft(t, d)
  {
  }

  lemma RestCharge(u: Setup, t: State, i: nat)
    requires Inv(u, t) && AtRest(t) && i < |t.res.budgets|
    ensures t.res.budgets[i].reserved == 0 && t.res.budgets[i].used == Wrap(Charge(t, t.res.budgets[i].device))
  {
    hide Inv;
    OnlyActiveCount(u, t, t.res.budgets[i].device);
    CounterIsSum(u, t, i);
  }

  /** GPU budgets are exact whenever the decode thread is between requests, whatever failed before:
      nothing is reserved, and a device has used the sum of the shares of the active requests, less
      what failed prefills of split requests released twice. */
  lemma BudgetsExact(u: Setup, t: State, i: nat)
    requires Reached(u, t) && AtRest(t) && i < |t.res.budgets|
    ensures t.res.budgets[i].reserved == 0
    ensures t.res.budgets[i].used == Wrap(Charge(t, t.res.budgets[i].device))
  {
    hide Reached, Inv;
    ReachedInv(u, t);
    RestCharge(u, t, i);
  }

  /** From its placement until its cache is charged or given up, the request in hand has memory reserved. */
  ghost predicate Reserves(pc: L.Pc) {
    pc.Prefill? && (pc.stage.AtReserved? || pc.stage.AtRefused? || pc.stage.AtAllocated?)
  }

  lemma ReservingPhase(u: Setup, t: State, id: Id)
    requires Inv(u, t) && id in t.life.order
    ensures id in t.res.hold && id in t.specs && t.res.hold[id].seqLen == t.specs[id].SeqLen()
    ensures t.res.hold[id].phase.Reserved? || t.res.hold[id].phase.Allocated? <==>
      Reserves(t.life.pc) && t.life.pc.id == id
    ensures Reserves(t.life.pc) && t.life.pc.id == id ==> t.res.hold[id].gpus == t.life.pc.decision.devices
  {
    hide L.Inv, R.Inv, AllCoupled;
    L.OrderPlace(t.life, u.limits, id);
    PhaseFact(u, t, id);
    if Reserves(t.life.pc) && t.life.pc.id == id {
      L.HoldingPlace(t.life, u.limits);
    }
  }

  lemma ReservedPhase(u: Setup, t: State, d: DeviceId, id: Id)
    requires Inv(u, t) && id in t.life.order
    ensures id in t.res.hold && id in t.specs
    ensures !(Reserves(t.life.pc) && t.life.pc.id == id) ==> R.ReservedAt(t.res.hold, d)(id) == 0
    ensures Reserves(t.life.pc) && t.life.pc.id == id ==>
      var (devices, bytes) := (t.life.pc.decision.devices, EstimateKv(t.specs[id].SeqLen()));
      R.ReservedAt(t.res.hold, d)(id)
        == if d !in devices then 0 else if |devices| > 1 then bytes / |devices| else bytes
  {
    hide Inv;
    ReservingPhase(u, t, id);
  }

  lemma InHandListed(u: Setup, t: State)
    requires Inv(u, t) && t.life.pc.Prefill?
    ensures t.life.pc.id in t.life.order
  {
    hide Fit, R.Inv;
    L.HoldingPlace(t.life, u.limits);
  }

  /** At every moment, also in the middle of `run_prefill`, what is reserved on a device is the share of the
      request in hand, from its placement until it is charged or given up, and nothing else. */
  lemma ReservedExact(u: Setup, t: State, i: nat)
    requires Reached(u, t) && i < |t.res.budgets|
    ensures Reserves(t.life.pc) ==> t.life.pc.id in t.specs
    ensures var (b, pc) := (t.res.budgets[i], t.life.pc);
      b.reserved == if !Reserves(pc) || b.device !in pc.decision.devices then 0
        else
          var (n, bytes) := (|pc.decision.devices|, EstimateKv(t.specs[pc.id].SeqLen()));
          Wrap(if n > 1 then bytes / n else bytes)
  {
    hide Reached, Inv;
    ReachedInv(u, t);
    var d := t.res.budgets[i].device;
    forall id | id in t.life.order && !(Reserves(t.life.pc) && t.life.pc.id == id)
      ensures R.ReservedAt(t.res.hold, d)(id) == 0
    {
      ReservedPhase(u, t, d, id);
    }
    CounterIsSum(u, t, i);
    ListedOnce(u, t);
    if Reserves(t.life.pc) {
      InHandListed(u, t);
      ReservedPhase(u, t, d, t.life.pc.id);
      SumSupport(t.life.order, [t.life.pc.id], R.ReservedAt(t.res.hold, d));
    } else {
      SumZero(t.life.order, R.ReservedAt(t.res.hold, d));
    }
  }

  lemma ListedOnce(u: Setup, t: State)
    requires Inv(u, t)
    ensures Distinct(t.life.order)
  {
    hide Fit, R.Inv;
  }

  /** The pooled allocator under a router that splits requests over devices. */
  predicate SplitOverPool(u: Setup) {
    u.hasRouter && |u.topology.devices| >= 2 && u.alloc.OfPool?
  }

  /** A budget was released twice only for a split request whose handle the pool left valid. */
  lemma OverdrawnIsSplit(u: Setup, t: State, id: Id)
    requires Inv(u, t) && id in t.life.order && id in t.res.hold
    requires t.res.hold[id].phase.Drawn? || t.res.hold[id].phase.Overdrawn?
    ensures SplitOverPool(u) && SplitsLength(u, t.res.hold[id].seqLen)
    ensures t.res.hold[id].gpus == u.topology.devices
  {
    L.OrderPlace(t.life, u.limits, id);
    R.ValidHandle(t.res, t.life.order, id);
    assert CoupledAt(u, t, id);
  }

  /** With the contiguous allocator, without a router, or with fewer than two devices, nothing is ever
      released twice. */
  lemma NoOverdraft(u: Setup, t: State, d: DeviceId)
    requires Inv(u, t) && !SplitOverPool(u)
    ensures Overdraft(t, d) == 0
  {
    hide Inv, R.Inv;
    forall id | id in t.life.order ensures OverdrawnOn(t, d)(id) == 0 {
      if id in t.res.hold && (t.res.hold[id].phase.Drawn? || t.res.hold[id].phase.Overdrawn?) {
        OverdrawnIsSplit(u, t, id);
      }
    }
    SumZero(t.life.order, OverdrawnOn(t, d));
  }

  lemma RestUnsplit(u: Setup, t: State, i: nat)
    requires Inv(u, t) && AtRest(t) && i < |t.res.budgets| && !SplitOverPool(u) && t.life.active == []
    ensures t.res.budgets[i].used == 0 && t.res.budgets[i].reserved == 0
  {
    hide Inv;
    RestCharge(u, t, i);
    NoOverdraft(u, t, t.res.budgets[i].device);
    NoneActive(t, t.res.budgets[i].device);
  }

  /** So a budget is then zero when no request is active. */
  lemma BudgetsReturnUnsplit(u: Setup, t: State, i: nat)
    requires Reached(u, t) && AtRest(t) && i < |t.res.budgets| && !SplitOverPool(u) && t.life.active == []
    ensures t.res.budgets[i].used == 0 && t.res.budgets[i].reserved == 0
  {
    hide Reached, Inv;
    ReachedInv(u, t);
    RestUnsplit(u, t, i);
  }

  /** The bytes of device `d` that each request's handle owns. */
  function BytesOn(t: State, d: DeviceId): Id -> int {
    (id: Id) => if id in t.res.hold then HeldOn(t.res.alloc, t.res.hold[id].handle, d) else 0
  }

  /** A request that has done with its memory owns none. */
  lemma GoneOwnsNothing(u: Setup, t: State, d: DeviceId, id: Id)
    requires Inv(u, t) && id in t.res.hold && Gone(t.res.hold[id].phase)
    ensures HeldOn(t.res.alloc, t.res.hold[id].handle, d) == 0
  {
    hide Fit, L.Inv;
    R.OwnerOf(t.res, t.life.order, id);
    if t.res.hold[id].handle.IsValid() {
      R.FreedOwnsNothing(t.res.alloc, t.res.hold[id].handle, d);
    }
  }

  lemma OnlyActiveHold(u: Setup, t: State, d: DeviceId)
    requires Inv(u, t) && AtRest(t)
    ensures Sum(t.life.order, R.HeldAt(t.res.alloc, t.res.hold, d)) == Sum(t.life.active, BytesOn(t, d))
  {
    hide Fit, R.Inv;
    var f := R.HeldAt(t.res.alloc, t.res.hold, d);
    forall id | id in t.life.order && id !in t.life.active ensures f(id) == 0 {
      L.OrderPlace(t.life, u.limits, id);
      RestPhases(u, t, id);
      GoneOwnsNothing(u, t, d, id);
    }
    L.ActiveLists(t.life, u.limits);
    SumSupport(t.life.order, t.life.active, f);
    SumSame(t.life.active, f, BytesOn(t, d));
  }

  /** With the contiguous allocator every device splits its total into used and free bytes, and the
      used bytes are those of the active requests' handles plus what failed multi-device allocations
      left behind. */
  lemma BytesExact(u: Setup, t: State, d: DeviceId)
    requires Reached(u, t) && AtRest(t) && t.res.alloc.OfContiguous? && d in t.res.alloc.c.stats
    ensures var c := t.res.alloc.c;
      && c.stats[d].used + c.stats[d].free == c.stats[d].total
      && c.stats[d].used == Sum(t.life.active, BytesOn(t, d)) + C.LeakedOn(c.leaked, d)
  {
    hide Reached, Fit;
    ReachedInv(u, t);
    OnlyActiveHold(u, t, d);
    assert Counts(t.res.alloc, d);
  }

  /** With the pooled allocator every device splits its pool likewise, and the used bytes are the slots
      of the active requests. */
  lemma PoolBytesExact(u: Setup, t: State, d: DeviceId)
    requires Reached(u, t) && AtRest(t) && t.res.alloc.OfPool? && d in t.res.alloc.p.pools
    ensures var pool := t.res.alloc.p.pools[d];
      pool.used + pool.free == pool.total && pool.used == Sum(t.life.active, BytesOn(t, d))
  {
    hide Reached, Fit, L.Inv;
    ReachedInv(u, t);
    OnlyActiveHold(u, t, d);
    assert Counts(t.res.alloc, d) && P.SoundPool(t.res.alloc.p.pools[d], t.res.alloc.p.slotBytes);
  }

  /** Every allocation id handed out is freed at most once, and exactly once by the time the decode thread
      is between requests and none is active. (What memory a free gives back is another matter: see
      `DeviceMemory`.) */
  lemma HandlesFreedOnce(u: Setup, t: State)
    requires Reached(u, t)
    ensures Distinct(t.res.obtained) && Distinct(t.res.released)
    ensures forall i :: i in t.res.released ==> i in t.res.obtained
    ensures AtRest(t) && t.life.active == [] ==>
      Live(t.res.alloc) == {} && forall i :: i in t.res.obtained <==> i in t.res.released
  {
    hide Reached, Fit, L.Inv;
    ReachedInv(u, t);
    if AtRest(t) && t.life.active == [] {
      forall i | i in t.res.owner ensures false {
        var id := t.res.owner[i];
        L.OrderPlace(t.life, u.limits, id);
        RestPhases(u, t, id);
      }
    }
  }

  // ---------------------------------------------------------------- lengths

  lemma ActiveHandle(u: Setup, t: State, id: Id)
    requires Inv(u, t) && id in t.life.active
    ensures Known(t, id) && L.At(t.life.place, id, L.Running)
    ensures R.Keeps(t.res.hold[id].phase) ==>
      t.res.hold[id].handle.IsValid() && t.res.hold[id].handle.maxSeqLen == t.res.hold[id].seqLen
    ensures AtRest(t) ==> R.Keeps(t.res.hold[id].phase)
  {
    hide L.Inv, R.Inv;
    L.ActivePlace(t.life, u.limits, id);
    PhaseFact(u, t, id);
    R.ValidHandle(t.res, t.life.order, id);
    if R.Keeps(t.res.hold[id].phase) {
      R.HandleLength(t.res, t.life.order, id);
    }
  }

  lemma ActiveLength(u: Setup, t: State, id: Id)
    requires Inv(u, t) && Known(t, id) && L.At(t.life.place, id, L.Running)
    ensures var (h, spec, n) := (t.res.hold[id], t.specs[id], |t.talks[id].out.tokens|);
      && (h.handle.IsValid() ==> h.handle.currentLen == spec.input + n)
      && n <= spec.maxTokens && (AtRest(t) ==> n < spec.maxTokens)
      && h.seqLen == spec.input + spec.maxTokens <= u.maxContext
  {
    hide L.Inv, R.Inv;
    assert CoupledAt(u, t, id);
  }

  /** The KV cache of an active request always has room, also while its end is being announced: as long as
      the request holds it, its length is the prompt plus the tokens so far, at most the length it was
      allocated for, which is within the context limit; and between steps at least one more token may come. */
  lemma CacheNeverOverruns(u: Setup, t: State, id: Id)
    requires Reached(u, t) && id in t.life.active
    ensures Known(t, id)
    ensures var (h, spec, n) := (t.res.hold[id].handle, t.specs[id], |t.talks[id].out.tokens|);
      && (R.Keeps(t.res.hold[id].phase) ==>
            h.currentLen == spec.input + n <= h.maxSeqLen == spec.input + spec.maxTokens <= u.maxContext)
      && (AtRest(t) ==> R.Keeps(t.res.hold[id].phase) && n < spec.maxTokens)
  {
    hide Reached, Inv;
    ReachedInv(u, t);
    ActiveHandle(u, t, id);
    ActiveLength(u, t, id);
  }

  // ---------------------------------------------------------------- slots

  /** The request's cache is slot `slot` of device `d`'s pool. */
  ghost predicate InSlot(t: State, id: Id, d: DeviceId, slot: nat) {
    && id in t.res.hold && t.res.alloc.OfPool? && t.res.hold[id].handle.id in t.res.alloc.p.origins
    && t.res.alloc.p.origins[t.res.hold[id].handle.id] == P.Origin(d, slot, false)
  }

  lemma ActiveIssued(u: Setup, t: State, id: Id)
    requires Inv(u, t) && AtRest(t) && id in t.life.active
    ensures id in t.res.hold && t.res.hold[id].handle.id in t.res.owner && t.res.owner[t.res.hold[id].handle.id] == id
    ensures Issued(t.res.alloc, t.res.hold[id].handle) && t.res.hold[id].handle.maxSeqLen == t.res.hold[id].seqLen
  {
    hide Fit;
    L.ActivePlace(t.life, u.limits, id);
    RestPhases(u, t, id);
    R.OwnerOf(t.res, t.life.order, id);
  }

  /** Two active requests in the pool of one device have different slots: their K ranges and their V
      ranges are disjoint, and each is long enough for its request. */
  lemma ActiveSlotsApart(u: Setup, t: State, a: Id, b: Id, d: DeviceId, i: nat, j: nat)
    requires Reached(u, t) && AtRest(t) && a in t.life.active && b in t.life.active && a != b
    requires InSlot(t, a, d, i) && InSlot(t, b, d, j)
    ensures var (p, x, y) := (t.res.alloc.p, t.res.hold[a].handle, t.res.hold[b].handle);
      && i != j && P.Apart(x.k, y.k, p.slotBytes / 2) && P.Apart(x.v, y.v, p.slotBytes / 2)
      && p.cfg.BytesFor(t.res.hold[a].seqLen) / 2 <= p.slotBytes / 2
  {
    hide Reached, Fit, L.Inv;
    ReachedInv(u, t);
    ActiveIssued(u, t, a);
    ActiveIssued(u, t, b);
    SlotsOfTwo(t.res.alloc.p, t.res.hold[a].handle, t.res.hold[b].handle);
  }

  lemma SlotsOfTwo(p: P.Pool, x: Handle, y: Handle)
    requires P.Sound(p) && p.slotBytes == p.cfg.BytesFor(p.slotTokens) && x.id != y.id
    requires P.FromPool(p, x.id) && P.FromPool(p, y.id) && p.origins[x.id].device == p.origins[y.id].device
    requires P.Backed(p, x) && P.Backed(p, y)
    ensures p.origins[x.id].slot != p.origins[y.id].slot
    ensures P.Apart(x.k, y.k, p.slotBytes / 2) && P.Apart(x.v, y.v, p.slotBytes / 2)
    ensures p.cfg.BytesFor(x.maxSeqLen) / 2 <= p.slotBytes / 2
  {
    var (o, q) := (p.origins[x.id], p.origins[y.id]);
    assert P.SoundPool(p.pools[o.device], p.slotBytes);
    P.SlotRanges(p.pools[o.device], p.slotBytes / 2, o.slot, q.slot);
    P.SlotLongEnough(p, x.maxSeqLen);
  }
}
