/** What every interleaving keeps. */
module Safety {
  import opened Wrappers
  import opened Sums
  import opened KvCache
  import opened Routing
  import opened Allocator
  import opened Stream
  import opened Generation
  import opened Talks
  import opened System
  import L = Lifecycle
  import R = Resources

  // ---------------------------------------------------------------- invariant

  /** What the decode thread is doing with one given request. */
  datatype Mode =
    | Idle
    | OnPrefill(stage: L.PrefillStage)
    | OnEnd(end: L.EndStage, outcome: L.Outcome)

  function ModeOf(pc: L.Pc, id: Id): Mode {
    if pc.Prefill? && pc.id == id then OnPrefill(pc.stage)
    else if pc.Ending? && pc.id == id then OnEnd(pc.end, pc.outcome)
    else Idle
  }

  ghost predicate Empty(p: R.Phase) { p.Bare? || p.Released? }

  /** The phases of a request that has done with its memory. */
  ghost predicate Gone(p: R.Phase) { Empty(p) || p.Stale? || p.Overdrawn? }

  /** The memory a request holds, from where it is and what is being done with it. */
  ghost predicate PhaseFits(p: L.Place, phase: R.Phase, m: Mode) {
    match m
    case OnPrefill(stage) =>
      (match stage
       case AtReserved => phase.Reserved?
       case AtRefused(_) => phase.Reserved?
       case AtAllocated => phase.Allocated?
       case AtFaultKv(_) => phase.KvOnly?
       case _ => phase.Charged?)
    case OnEnd(end, _) =>
      (match end
       case ToFreeKv => phase.KvOnly? || phase.Drawn?
       case ToErase => Gone(phase)
       case ToDeregister => Gone(phase)
       case ToTally => Gone(phase)
       case _ => if p.Running? then phase.Charged? else Empty(phase) || phase.Stale?)
    case Idle =>
      if p.Running? then phase.Charged? else if p.Done? then Gone(phase) else phase.Bare?
  }

  ghost predicate Announced(p: L.Place, m: Mode) {
    p.Done? || (m.OnEnd? && !m.end.ToMark? && !m.end.ToAnnounce?)
  }

  ghost predicate Closed(p: L.Place, m: Mode) {
    Announced(p, m) && !(m.OnEnd? && m.end.ToClose?)
  }

  /** How much of its output a request has, and where its KV cache stands. */
  ghost predicate Progress(spec: Spec, h: R.Hold, o: Output, p: L.Place, m: Mode) {
    && (!p.Running? && !p.Done? && !m.OnEnd? ==> o.tokens == [])
    && (!p.Done? && !m.OnEnd? ==> !o.halted)
    && (m.OnPrefill? && m.stage.AtReady? ==> h.handle.currentLen == spec.input)
    && (p.Running? && h.handle.IsValid() ==> h.handle.currentLen == spec.input + |o.tokens|)
    && (m.OnEnd? && m.end.ToMark? && m.outcome.Finish? ==>
          m.outcome.reason == o.finish || (!o.halted && !m.outcome.reason.Length?))
  }

  /** The router splits requests of this length. */
  predicate SplitsLength(u: Setup, seqLen: nat) {
    u.hasRouter && |u.topology.devices| >= 2 && seqLen > u.topology.threshold
  }

  /** A cache over several devices belongs to a request that the router splits over all of them. */
  ghost predicate SplitOk(u: Setup, h: R.Hold) {
    h.handle.tensorParallel ==>
      SplitsLength(u, h.seqLen) && h.gpus == u.topology.devices && !h.phase.Bare? && !h.phase.Reserved?
  }

  ghost predicate Coupled(u: Setup, spec: Spec, h: R.Hold, t: Talk, p: L.Place, m: Mode) {
    && spec.maxTokens >= 1 && spec.SeqLen() <= u.maxContext && h.seqLen == spec.SeqLen()
    && PhaseFits(p, h.phase, m) && SplitOk(u, h)
    && TalkOk(t, StopsFor(u, spec), Announced(p, m), Closed(p, m))
    && Progress(spec, h, t.out, p, m)
  }

  ghost predicate Keyed(s: State) {
    s.talks.Keys == s.life.place.Keys && s.specs.Keys == s.life.place.Keys && s.res.hold.Keys == s.life.place.Keys
  }

  ghost predicate CoupledAt(u: Setup, s: State, id: Id) {
    && id in s.specs && id in s.res.hold && id in s.talks && id in s.life.place
    && Coupled(u, s.specs[id], s.res.hold[id], s.talks[id], s.life.place[id], ModeOf(s.life.pc, id))
  }

  ghost predicate AllCoupled(u: Setup, s: State) {
    forall id {:trigger CoupledAt(u, s, id)} :: id in s.life.place ==> CoupledAt(u, s, id)
  }

  /** The charge follows the decision in hand. */
  ghost predicate Follows(u: Setup, h: R.Hold, d: Decision) {
    && R.Matches(h, d)
    && (d.strategy.TensorParallel? ==> d.devices == u.topology.devices && SplitsLength(u, h.seqLen))
  }

  /** The routing decision in the decode thread's hands is the one the request was charged by. */
  ghost predicate DecisionOk(u: Setup, s: State) {
    s.life.pc.Prefill? ==> s.life.pc.id in s.res.hold && Follows(u, s.res.hold[s.life.pc.id], s.life.pc.decision)
  }

  ghost predicate Fixed(u: Setup, r: R.Res) {
    Distinct(u.topology.devices) && (!u.hasRouter ==> r.budgets == []) && SameShape(u.alloc, r.alloc)
  }

  /** Every request fits: its place, its memory, its output and its stream. */
  ghost predicate Fit(u: Setup, s: State) {
    Keyed(s) && AllCoupled(u, s) && DecisionOk(u, s) && Fixed(u, s.res)
  }

  ghost predicate Inv(u: Setup, s: State) {
    L.Inv(s.life, u.limits) && R.Inv(s.res, s.life.order) && Fit(u, s)
  }

  // ---------------------------------------------------------------- one request changes, the others stay

  /** The decode thread does nothing new with any request but `x`. */
  ghost predicate OnlyWith(before: L.Pc, after: L.Pc, x: Id) {
    forall id :: id != x ==> ModeOf(after, id) == ModeOf(before, id)
  }

  /** Maps with the same keys that change at one key. */
  ghost predicate Update<V>(before: map<Id, V>, after: map<Id, V>, x: Id, v: V) {
    after == before[x := v]
  }

  lemma SelfUpdate<V>(m: map<Id, V>, x: Id)
    requires x in m
    ensures Update(m, m, x, m[x])
  {
  }

  lemma ChangeOne(u: Setup, s: State, t: State, x: Id, h: R.Hold, talk: Talk, p: L.Place)
    requires Keyed(s) && AllCoupled(u, s) && x in s.life.place && t.specs == s.specs
    requires Update(s.life.place, t.life.place, x, p) && Update(s.res.hold, t.res.hold, x, h)
    requires Update(s.talks, t.talks, x, talk)
    requires OnlyWith(s.life.pc, t.life.pc, x)
    requires Coupled(u, s.specs[x], h, talk, p, ModeOf(t.life.pc, x))
    ensures Keyed(t) && AllCoupled(u, t)
  {
    SelfUpdate(s.specs, x);
    UpdateOne(u, s, t, x, s.specs[x], h, talk, p);
  }

  /** Adds request `x` or replaces it; every other request stays as it is. */
  lemma UpdateOne(u: Setup, s: State, t: State, x: Id, spec: Spec, h: R.Hold, talk: Talk, p: L.Place)
    requires Keyed(s) && AllCoupled(u, s) && Update(s.specs, t.specs, x, spec)
    requires Update(s.life.place, t.life.place, x, p) && Update(s.res.hold, t.res.hold, x, h)
    requires Update(s.talks, t.talks, x, talk)
    requires OnlyWith(s.life.pc, t.life.pc, x)
    requires Coupled(u, spec, h, talk, p, ModeOf(t.life.pc, x))
    ensures Keyed(t) && AllCoupled(u, t)
  {
    hide Coupled;
    forall id | id in t.life.place ensures CoupledAt(u, t, id) {
      if id != x {
        assert CoupledAt(u, s, id) && ModeOf(t.life.pc, id) == ModeOf(s.life.pc, id);
      }
    }
  }

  /** One thread works on request `x`: the invariant needs checking at `x` only. */
  lemma FitAt(u: Setup, s: State, t: State, x: Id)
    requires Fit(u, s) && x in s.life.place && t.specs == s.specs
    requires x in t.life.place && x in t.res.hold && x in t.talks
    requires Update(s.life.place, t.life.place, x, t.life.place[x])
    requires Update(s.res.hold, t.res.hold, x, t.res.hold[x])
    requires Update(s.talks, t.talks, x, t.talks[x])
    requires OnlyWith(s.life.pc, t.life.pc, x)
    requires Coupled(u, s.specs[x], t.res.hold[x], t.talks[x], t.life.place[x], ModeOf(t.life.pc, x))
    requires DecisionOk(u, t) && Fixed(u, t.res)
    ensures Fit(u, t)
  {
    ChangeOne(u, s, t, x, t.res.hold[x], t.talks[x], t.life.place[x]);
  }

  /** The bookkeeping changes around `x`, and neither memory nor output does. */
  lemma LifeFits(u: Setup, s: State, life: L.Life, x: Id)
    requires Fit(u, s) && x in s.life.place && x in life.place && Update(s.life.place, life.place, x, life.place[x])
    requires OnlyWith(s.life.pc, life.pc, x)
    requires life.pc.Prefill? ==> s.life.pc.Prefill? && life.pc == s.life.pc.(stage := life.pc.stage)
    requires Coupled(u, s.specs[x], s.res.hold[x], s.talks[x], life.place[x], ModeOf(life.pc, x))
    ensures Fit(u, s.(life := life))
  {
    SelfUpdate(s.res.hold, x);
    SelfUpdate(s.talks, x);
    FitAt(u, s, s.(life := life), x);
  }

  /** Memory changes at `x` and the decode thread moves. */
  lemma ResFits(u: Setup, s: State, pc: L.Pc, res: R.Res, x: Id)
    requires Fit(u, s) && x in s.life.place && x in res.hold && Update(s.res.hold, res.hold, x, res.hold[x])
    requires OnlyWith(s.life.pc, pc, x)
    requires Coupled(u, s.specs[x], res.hold[x], s.talks[x], s.life.place[x], ModeOf(pc, x))
    requires DecisionOk(u, Goto(s, pc).(res := res)) && Fixed(u, res)
    ensures Fit(u, Goto(s, pc).(res := res))
  {
    SelfUpdate(s.life.place, x);
    SelfUpdate(s.talks, x);
    FitAt(u, s, Goto(s, pc).(res := res), x);
  }

  /** The talk of `x` changes, and the decode thread moves. */
  lemma SayFits(u: Setup, s: State, life: L.Life, t: Talk, x: Id)
    requires Fit(u, s) && x in s.life.place && life.place == s.life.place
    requires OnlyWith(s.life.pc, life.pc, x) && (life.pc.Prefill? ==> life.pc == s.life.pc)
    requires Coupled(u, s.specs[x], s.res.hold[x], t, s.life.place[x], ModeOf(life.pc, x))
    ensures Fit(u, Say(s.(life := life), x, t))
  {
    SelfUpdate(s.res.hold, x);
    SelfUpdate(s.life.place, x);
    FitAt(u, s, Say(s.(life := life), x, t), x);
  }

  // ---------------------------------------------------------------- HTTP threads

  /** Where a new request starts. */
  ghost predicate Starts(u: Setup, s: State, life: L.Life, id: Id, spec: Spec) {
    && id !in s.life.place && !L.Touches(s.life.pc, id) && life.pc == s.life.pc
    && spec.maxTokens >= 1 && spec.SeqLen() <= u.maxContext
    && id in life.place && Update(s.life.place, life.place, id, life.place[id])
    && (life.place[id].Submitting? || life.place[id].TurnedAway?)
  }

  lemma NewFits(u: Setup, s: State, life: L.Life, id: Id, spec: Spec)
    requires Fit(u, s) && Starts(u, s, life, id, spec)
    ensures Fit(u, WithNew(u, s, life, id, spec))
  {
    UpdateOne(u, s, WithNew(u, s, life, id, spec), id, spec, R.Hold(spec.SeqLen(), NO_HANDLE, [], R.Bare),
      NewTalk(u.capacity), life.place[id]);
  }

  lemma NewKeeps(u: Setup, s: State, life: L.Life, id: Id, spec: Spec)
    requires R.Inv(s.res, s.life.order) && Fit(u, s) && Starts(u, s, life, id, spec)
    requires L.Inv(life, u.limits) && life.order == s.life.order + [id]
    ensures Inv(u, WithNew(u, s, life, id, spec))
  {
    hide L.Inv;
    NewFits(u, s, life, id, spec);
    R.EnterKeeps(s.res, s.life.order, id, spec.SeqLen());
  }

  lemma OfferKeeps(u: Setup, s: State, t: Thread, id: Id, prompt: nat, asked: nat, sequences: seq<string>)
    requires Inv(u, s) && Enabled(u, s, Offer(t, id, prompt, asked, sequences))
    ensures Inv(u, DoOffer(u, s, t, id, prompt, asked, sequences))
  {
    hide L.Inv, R.Inv;
    var spec := Spec(prompt, Clamp(prompt, asked, u.maxContext).value, sequences);
    if L.Touches(s.life.pc, id) {
      L.TouchedPlace(s.life, u.limits, id);
    }
    if |s.life.pending| >= u.limits.maxQueue {
      L.RefuseKeeps(s.life, u.limits, id);
      NewKeeps(u, s, L.Refuse(s.life, id), id, spec);
    } else {
      L.JoinKeeps(s.life, u.limits, t, id);
      NewKeeps(u, s, L.Join(s.life, t, id), id, spec);
    }
  }

  /** A request in `submit` moves on, and no other does. */
  lemma MoveFits(u: Setup, s: State, life: L.Life, id: Id)
    requires Fit(u, s) && id in s.life.place && !s.life.place[id].Running? && !s.life.place[id].Done?
    requires id in life.place && !life.place[id].Running? && !life.place[id].Done?
    requires ModeOf(s.life.pc, id).Idle? && ModeOf(life.pc, id).Idle? && OnlyWith(s.life.pc, life.pc, id)
    requires Update(s.life.place, life.place, id, life.place[id]) && (life.pc.Prefill? ==> life.pc == s.life.pc)
    ensures Fit(u, s.(life := life))
  {
    assert CoupledAt(u, s, id);
    LifeFits(u, s, life, id);
  }

  lemma ForwardFits(u: Setup, s: State, t: Thread, stage: L.SubmitStage)
    requires Fit(u, s) && t in s.life.submissions
    requires L.At(s.life.place, s.life.submissions[t].id, L.Submitting(t))
    requires !L.Touches(s.life.pc, s.life.submissions[t].id)
    ensures Fit(u, s.(life := L.Forward(s.life, t, stage)))
  {
    hide Fit;
    SelfUpdate(s.life.place, s.life.submissions[t].id);
    MoveFits(u, s, L.Forward(s.life, t, stage), s.life.submissions[t].id);
  }

  lemma TurnAwayFits(u: Setup, s: State, t: Thread)
    requires Fit(u, s) && t in s.life.submissions
    requires L.At(s.life.place, s.life.submissions[t].id, L.Submitting(t))
    requires !L.Touches(s.life.pc, s.life.submissions[t].id)
    ensures Fit(u, s.(life := L.TurnAway(s.life, t)))
  {
    hide Fit;
    MoveFits(u, s, L.TurnAway(s.life, t), s.life.submissions[t].id);
  }

  lemma CheckGpuKeeps(u: Setup, s: State, t: Thread)
    requires Inv(u, s) && Enabled(u, s, CheckGpu(t))
    ensures Inv(u, DoCheckGpu(u, s, t))
  {
    hide Fit, R.Inv;
    L.SubmitterPlace(s.life, u.limits, t);
    if GpuAccepts(u, s.res, s.specs[s.life.submissions[t].id].SeqLen()) {
      ForwardFits(u, s, t, L.GpuChecked);
      L.ForwardKeeps(s.life, u.limits, t, L.GpuChecked);
    } else {
      TurnAwayFits(u, s, t);
      L.TurnAwayKeeps(s.life, u.limits, t);
    }
  }

  lemma CheckKvKeeps(u: Setup, s: State, t: Thread)
    requires Inv(u, s) && Enabled(u, s, CheckKv(t))
    ensures Inv(u, DoCheckKv(u, s, t))
  {
    hide Fit, L.Inv, R.Inv;
    L.SubmitterPlace(s.life, u.limits, t);
    if CanAllocate(s.res.alloc, s.specs[s.life.submissions[t].id].SeqLen()) {
      ForwardFits(u, s, t, L.Admitted);
      L.ForwardKeeps(s.life, u.limits, t, L.Admitted);
    } else {
      TurnAwayFits(u, s, t);
      L.TurnAwayKeeps(s.life, u.limits, t);
    }
  }

  lemma RegisterFits(u: Setup, s: State, t: Thread)
    requires Fit(u, s) && t in s.life.submissions
    requires L.At(s.life.place, s.life.submissions[t].id, L.Submitting(t))
    requires !L.Touches(s.life.pc, s.life.submissions[t].id)
    ensures Fit(u, s.(life := L.Register(s.life, t)))
  {
    hide TalkOk;
    SelfUpdate(s.life.place, s.life.submissions[t].id);
    MoveFits(u, s, L.Register(s.life, t), s.life.submissions[t].id);
  }

  lemma RegisterKeeps(u: Setup, s: State, t: Thread)
    requires Inv(u, s) && Enabled(u, s, Register(t))
    ensures Inv(u, s.(life := L.Register(s.life, t)))
  {
    hide Fit, L.Inv, R.Inv;
    L.SubmitterPlace(s.life, u.limits, t);
    RegisterFits(u, s, t);
    L.RegisterKeeps(s.life, u.limits, t);
  }

  lemma EnqueueFits(u: Setup, s: State, t: Thread)
    requires Fit(u, s) && t in s.life.submissions
    requires L.At(s.life.place, s.life.submissions[t].id, L.Submitting(t))
    requires !L.Touches(s.life.pc, s.life.submissions[t].id)
    ensures Fit(u, s.(life := L.Enqueue(s.life, t)))
  {
    hide Fit;
    MoveFits(u, s, L.Enqueue(s.life, t), s.life.submissions[t].id);
  }

  lemma EnqueueKeeps(u: Setup, s: State, t: Thread)
    requires Inv(u, s) && Enabled(u, s, Enqueue(t))
    ensures Inv(u, s.(life := L.Enqueue(s.life, t)))
  {
    hide Fit, L.Inv, R.Inv;
    L.SubmitterPlace(s.life, u.limits, t);
    EnqueueFits(u, s, t);
    L.EnqueueKeeps(s.life, u.limits, t);
  }

  lemma CancelKeeps(u: Setup, s: State, id: Id)
    requires Inv(u, s) && id in s.talks
    ensures Inv(u, Say(s, id, s.talks[id].(cancelled := true)))
  {
    assert CoupledAt(u, s, id);
    SayFits(u, s, s.life, s.talks[id].(cancelled := true), id);
  }

  lemma ListenCoupled(u: Setup, spec: Spec, h: R.Hold, t: Talk, p: L.Place, m: Mode)
    requires Coupled(u, spec, h, t, p, m)
    ensures Coupled(u, spec, h, Listen(t), p, m)
  {
    ListenOk(t, StopsFor(u, spec), Announced(p, m), Closed(p, m));
  }

  lemma ConsumeKeeps(u: Setup, s: State, id: Id)
    requires Inv(u, s) && id in s.talks
    ensures Inv(u, Say(s, id, Listen(s.talks[id])))
  {
    hide R.Inv;
    assert CoupledAt(u, s, id);
    ListenCoupled(u, s.specs[id], s.res.hold[id], s.talks[id], s.life.place[id], ModeOf(s.life.pc, id));
    SayFits(u, s, s.life, Listen(s.talks[id]), id);
  }

  // ---------------------------------------------------------------- process_queue and run_prefill

  /** What the invariant says of one request's memory. */
  lemma PhaseFact(u: Setup, s: State, id: Id)
    requires Fit(u, s) && id in s.life.place
    ensures id in s.res.hold && id in s.specs && s.res.hold[id].seqLen == s.specs[id].SeqLen()
    ensures PhaseFits(s.life.place[id], s.res.hold[id].phase, ModeOf(s.life.pc, id))
  {
    assert CoupledAt(u, s, id);
  }

  lemma TakeNextFits(u: Setup, s: State)
    requires Fit(u, s) && s.life.pc.Filling? && s.life.pending != [] && L.At(s.life.place, s.life.pending[0], L.Waiting)
    ensures Fit(u, s.(life := L.TakeNext(s.life)))
  {
    hide Fit;
    MoveFits(u, s, L.TakeNext(s.life), s.life.pending[0]);
  }

  lemma TakeNextKeeps(u: Setup, s: State)
    requires Inv(u, s) && Enabled(u, s, TakeNext)
    ensures Inv(u, s.(life := L.TakeNext(s.life)))
  {
    hide L.Inv, R.Inv, Coherent;
    L.TakeNextKeeps(s.life, u.limits);
    L.PendingPlace(s.life, u.limits);
    TakeNextFits(u, s);
  }

  lemma ExpireFits(u: Setup, s: State)
    requires Fit(u, s) && s.life.pc.Holding? && L.HandAt(s.life, L.InHand)
    ensures Fit(u, Goto(s, L.Ending(s.life.pc.id, L.Fail(Timeout), L.ToMark, None)))
  {
    var id := s.life.pc.id;
    SelfUpdate(s.life.place, id);
    PhaseFact(u, s, id);
    assert CoupledAt(u, s, id);
    LifeFits(u, s, L.Goto(s.life, L.Ending(id, L.Fail(Timeout), L.ToMark, None)), id);
  }

  lemma StartPrefillFits(u: Setup, s: State)
    requires Fit(u, s) && s.life.pc.Holding? && L.HandAt(s.life, L.InHand)
    ensures Fit(u, s.(life := L.StartPrefill(s.life, s.life.pc.id)))
  {
    hide Coupled;
    SelfUpdate(s.life.place, s.life.pc.id);
    assert CoupledAt(u, s, s.life.pc.id);
    LifeFits(u, s, L.StartPrefill(s.life, s.life.pc.id), s.life.pc.id);
  }

  lemma TestTimeoutsKeeps(u: Setup, s: State, expired: bool)
    requires Inv(u, s) && Enabled(u, s, TestTimeouts(expired))
    ensures Inv(u, DoTestTimeouts(u, s, expired))
  {
    hide L.Inv, R.Inv, Coherent;
    L.HoldingPlace(s.life, u.limits);
    if expired {
      L.HandToEnd(s.life, u.limits, L.Fail(Timeout));
      ExpireFits(u, s);
    } else {
      L.StartPrefillKeeps(s.life, u.limits);
      StartPrefillFits(u, s);
    }
  }

  lemma PlaceFits(u: Setup, s: State, res: R.Res, d: Decision)
    requires Fit(u, s) && s.life.pc.Holding? && L.HandAt(s.life, L.InHand) && s.life.pc.id in s.res.hold
    requires res.hold == s.res.hold[s.life.pc.id := s.res.hold[s.life.pc.id].(gpus := d.devices, phase := R.Reserved)]
    requires Fixed(u, res) && Follows(u, res.hold[s.life.pc.id], d)
    ensures Fit(u, Goto(s, L.Prefill(s.life.pc.id, d, L.AtReserved)).(res := res))
  {
    var id := s.life.pc.id;
    assert CoupledAt(u, s, id);
    ResFits(u, s, L.Prefill(id, d, L.AtReserved), res, id);
  }

  lemma PlaceRes(u: Setup, r: R.Res, order: seq<Id>, id: Id, n: nat)
    requires R.Inv(r, order) && Fixed(u, r) && id in r.hold && r.hold[id].phase.Bare?
    ensures var d := DecisionFor(u, r, r.hold[id].seqLen);
      && R.Usable(d)
      && var r' := R.ReserveGpu(r, id, d).(roundRobin := n);
      R.Inv(r', order) && Fixed(u, r') && Follows(u, r'.hold[id], d)
  {
    var d := DecisionFor(u, r, r.hold[id].seqLen);
    R.ReserveKeeps(r, order, id, d);
  }

  lemma PlaceSystem(u: Setup, s: State)
    requires R.Inv(s.res, s.life.order) && Fit(u, s) && Enabled(u, s, PlaceOnGpu)
    requires L.HandAt(s.life, L.InHand)
    ensures R.Inv(DoPlaceOnGpu(u, s).res, s.life.order) && Fit(u, DoPlaceOnGpu(u, s))
  {
    hide R.Inv;
    PhaseFact(u, s, s.life.pc.id);
    PlaceRes(u, s.res, s.life.order, s.life.pc.id, DoPlaceOnGpu(u, s).res.roundRobin);
    PlaceFits(u, s, DoPlaceOnGpu(u, s).res, DecisionFor(u, s.res, s.specs[s.life.pc.id].SeqLen()));
  }

  lemma PlaceOnGpuKeeps(u: Setup, s: State)
    requires Inv(u, s) && Enabled(u, s, PlaceOnGpu)
    ensures Inv(u, DoPlaceOnGpu(u, s))
  {
    hide Fit, L.Inv, R.Inv;
    L.HoldingPlace(s.life, u.limits);
    L.HandToPrefill(s.life, u.limits, DoPlaceOnGpu(u, s).life.pc.decision, L.AtReserved);
    PlaceSystem(u, s);
  }

  lemma AllocateShape(u: Setup, s: State, grants: seq<Grant>)
    requires Enabled(u, s, AllocateKv(grants))
    ensures var (t, id) := (DoAllocateKv(u, s, grants), s.life.pc.id);
      && t == Goto(s, t.life.pc).(res := t.res)
      && t.life.pc.Prefill? && t.life.pc == s.life.pc.(stage := t.life.pc.stage)
      && id in t.res.hold && Update(s.res.hold, t.res.hold, id, t.res.hold[id]) && t.res.budgets == s.res.budgets
      && (t.life.pc.stage.AtAllocated? || t.life.pc.stage.AtRefused?)
      && t.res.hold[id] == (if t.life.pc.stage.AtAllocated?
                            then s.res.hold[id].(handle := t.res.hold[id].handle, phase := R.Allocated)
                            else s.res.hold[id])
  {
    hide Coherent;
    SelfUpdate(s.res.hold, s.life.pc.id);
  }

  lemma AllocateFits(u: Setup, s: State, grants: seq<Grant>)
    requires Fit(u, s) && Enabled(u, s, AllocateKv(grants)) && L.HandAt(s.life, L.InHand)
    requires SplitOk(u, DoAllocateKv(u, s, grants).res.hold[s.life.pc.id])
    requires SameShape(u.alloc, DoAllocateKv(u, s, grants).res.alloc)
    ensures Fit(u, DoAllocateKv(u, s, grants))
  {
    hide Coherent, Allocate;
    var (id, t) := (s.life.pc.id, DoAllocateKv(u, s, grants));
    assert CoupledAt(u, s, id);
    AllocateShape(u, s, grants);
    ResFits(u, s, t.life.pc, t.res, id);
  }

  /** Where the split devices come from. */
  lemma SplitFacts(u: Setup, s: State)
    requires Fit(u, s) && s.life.pc.Prefill?
    ensures var ds := SplitDevices(u, s.life.pc.decision);
      && Distinct(ds)
      && (ds != [] ==> s.life.pc.id in s.res.hold && SplitsLength(u, s.res.hold[s.life.pc.id].seqLen)
                       && s.res.hold[s.life.pc.id].gpus == u.topology.devices)
  {
  }

  /** The handle that the allocator returns is split exactly if the decision was. */
  lemma AllocateSplits(u: Setup, s: State, grants: seq<Grant>)
    requires Fit(u, s) && Enabled(u, s, AllocateKv(grants)) && s.life.pc.id in s.life.place
    ensures s.life.pc.id in DoAllocateKv(u, s, grants).res.hold
    ensures SplitOk(u, DoAllocateKv(u, s, grants).res.hold[s.life.pc.id])
    ensures SameShape(u.alloc, DoAllocateKv(u, s, grants).res.alloc)
  {
    hide Coherent, TalkOk, Allocate;
    assert CoupledAt(u, s, s.life.pc.id);
    SplitFacts(u, s);
    AllocateEffect(s.res.alloc, s.res.hold[s.life.pc.id].seqLen, SplitDevices(u, s.life.pc.decision), grants);
  }

  lemma AllocateKvKeeps(u: Setup, s: State, grants: seq<Grant>)
    requires Inv(u, s) && Enabled(u, s, AllocateKv(grants))
    ensures Inv(u, DoAllocateKv(u, s, grants))
  {
    var (id, ds) := (s.life.pc.id, SplitDevices(u, s.life.pc.decision));
    L.HoldingPlace(s.life, u.limits);
    L.PrefillStatus(s.life, u.limits);
    PhaseFact(u, s, id);
    SplitFacts(u, s);
    R.AllocateKeeps(s.res, s.life.order, id, ds, grants);
    AllocateSplits(u, s, grants);
    L.HandToPrefill(s.life, u.limits, s.life.pc.decision, DoAllocateKv(u, s, grants).life.pc.stage);
    AllocateFits(u, s, grants);
  }

  lemma UnreserveFits(u: Setup, s: State)
    requires Fit(u, s) && Enabled(u, s, UnreserveGpu) && L.HandAt(s.life, L.InHand)
    ensures Fit(u, DoUnreserveGpu(u, s))
  {
    var id := s.life.pc.id;
    assert CoupledAt(u, s, id);
    var s' := DoUnreserveGpu(u, s);
    ResFits(u, s, s'.life.pc, s'.res, id);
  }

  lemma UnreserveGpuKeeps(u: Setup, s: State)
    requires Inv(u, s) && Enabled(u, s, UnreserveGpu)
    ensures Inv(u, DoUnreserveGpu(u, s))
  {
    hide L.Inv, R.Inv;
    L.HoldingPlace(s.life, u.limits);
    PhaseFact(u, s, s.life.pc.id);
    R.UnreserveKeeps(s.res, s.life.order, s.life.pc.id, s.life.pc.decision);
    L.HandToEnd(s.life, u.limits, L.Fail(s.life.pc.stage.error));
    UnreserveFits(u, s);
  }

  lemma CommitFits(u: Setup, s: State)
    requires Fit(u, s) && Enabled(u, s, CommitGpu) && L.HandAt(s.life, L.InHand)
    ensures Fit(u, DoCommitGpu(u, s))
  {
    var id := s.life.pc.id;
    assert CoupledAt(u, s, id);
    var s' := DoCommitGpu(u, s);
    ResFits(u, s, s'.life.pc, s'.res, id);
  }

  lemma CommitGpuKeeps(u: Setup, s: State)
    requires Inv(u, s) && Enabled(u, s, CommitGpu)
    ensures Inv(u, DoCommitGpu(u, s))
  {
    L.HoldingPlace(s.life, u.limits);
    L.PrefillStatus(s.life, u.limits);
    PhaseFact(u, s, s.life.pc.id);
    R.CommitKeeps(s.res, s.life.order, s.life.pc.id, s.life.pc.decision);
    L.HandToPrefill(s.life, u.limits, s.life.pc.decision, L.AtCommitted);
    CommitFits(u, s);
  }

  lemma PrefillCoupled(u: Setup, spec: Spec, h: R.Hold, t: Talk, p: L.Place)
    requires Coupled(u, spec, h, t, p, OnPrefill(L.AtCommitted)) && p.InHand?
    ensures Coupled(u, spec, h.(handle := h.handle.(currentLen := spec.input)), t, p, OnPrefill(L.AtReady))
    ensures forall e :: Coupled(u, spec, h, t, p, OnPrefill(L.AtFault(e)))
  {
  }

  lemma RunPrefillFits(u: Setup, s: State, fault: Option<Error>)
    requires Fit(u, s) && Enabled(u, s, RunPrefill(fault)) && L.HandAt(s.life, L.InHand)
    ensures Fit(u, DoRunPrefill(u, s, fault))
  {
    hide Coherent, Coupled;
    var id := s.life.pc.id;
    assert CoupledAt(u, s, id);
    var s' := DoRunPrefill(u, s, fault);
    PrefillCoupled(u, s.specs[id], s.res.hold[id], s.talks[id], s.life.place[id]);
    SelfUpdate(s.res.hold, id);
    ResFits(u, s, s'.life.pc, s'.res, id);
  }

  lemma RunPrefillKeeps(u: Setup, s: State, fault: Option<Error>)
    requires Inv(u, s) && Enabled(u, s, RunPrefill(fault))
    ensures Inv(u, DoRunPrefill(u, s, fault))
  {
    hide L.Inv, R.Inv;
    L.HoldingPlace(s.life, u.limits);
    L.PrefillStatus(s.life, u.limits);
    if fault.None? {
      R.SetLengthKeeps(s.res, s.life.order, s.life.pc.id, s.specs[s.life.pc.id].input);
    }
    L.HandToPrefill(s.life, u.limits, s.life.pc.decision, DoRunPrefill(u, s, fault).life.pc.stage);
    RunPrefillFits(u, s, fault);
  }

  lemma ActivateFits(u: Setup, s: State)
    requires Fit(u, s) && Enabled(u, s, Activate) && L.HandAt(s.life, L.InHand)
    ensures Fit(u, s.(life := L.Activate(s.life, s.life.pc.id)))
  {
    hide TalkOk;
    var id := s.life.pc.id;
    assert CoupledAt(u, s, id);
    LifeFits(u, s, L.Activate(s.life, id), id);
  }

  lemma ActivateKeeps(u: Setup, s: State)
    requires Inv(u, s) && Enabled(u, s, Activate)
    ensures Inv(u, s.(life := L.Activate(s.life, s.life.pc.id)))
  {
    hide L.Inv, R.Inv, Coherent;
    L.HoldingPlace(s.life, u.limits);
    L.ActivateKeeps(s.life, u.limits);
    ActivateFits(u, s);
  }

  // ---------------------------------------------------------------- decode_loop

  /** The decode thread moves on without taking up or leaving a request. */
  lemma IdleFits(u: Setup, s: State, pc: L.Pc)
    requires Fit(u, s) && !s.life.pc.Prefill? && !s.life.pc.Ending? && !pc.Prefill? && !pc.Ending?
    ensures Fit(u, Goto(s, pc))
  {
    hide Coupled;
    forall id | id in s.life.place ensures CoupledAt(u, Goto(s, pc), id) {
      assert CoupledAt(u, s, id);
    }
  }

  lemma SnapshotKeeps(u: Setup, s: State)
    requires Inv(u, s) && Enabled(u, s, Snapshot)
    ensures Inv(u, Goto(s, L.Sweeping(s.life.active)))
  {
    hide L.Inv, R.Inv, Coherent;
    L.FillToSweep(s.life, u.limits);
    IdleFits(u, s, L.Sweeping(s.life.active));
  }

  lemma EndSweepKeeps(u: Setup, s: State)
    requires Inv(u, s) && Enabled(u, s, EndSweep)
    ensures Inv(u, Goto(s, L.Filling))
  {
    hide L.Inv, R.Inv, Coherent;
    L.SweepToFill(s.life, u.limits);
    IdleFits(u, s, L.Filling);
  }

  ghost predicate Suits(outcome: L.Outcome, o: Output) {
    outcome.Finish? ==> outcome.reason == o.finish || (!o.halted && !outcome.reason.Length?)
  }

  lemma EndFits(u: Setup, s: State, id: Id, outcome: L.Outcome, rest: seq<Id>)
    requires Fit(u, s) && (s.life.pc.Sweeping? || s.life.pc.Stepping?) && L.At(s.life.place, id, L.Running)
    requires id in s.talks && Suits(outcome, s.talks[id].out)
    ensures Fit(u, Goto(s, L.Ending(id, outcome, L.ToMark, Some(rest))))
  {
    assert CoupledAt(u, s, id);
    SelfUpdate(s.life.place, id);
    LifeFits(u, s, L.Goto(s.life, L.Ending(id, outcome, L.ToMark, Some(rest))), id);
  }

  lemma NotHalted(u: Setup, s: State, id: Id)
    requires Fit(u, s) && L.At(s.life.place, id, L.Running) && ModeOf(s.life.pc, id).Idle?
    ensures id in s.talks && !s.talks[id].out.halted
  {
    assert CoupledAt(u, s, id);
  }

  lemma EntryEndsFits(u: Setup, s: State, outcome: L.Outcome)
    requires Fit(u, s) && s.life.pc.Sweeping? && s.life.pc.rest != []
    requires L.At(s.life.place, s.life.pc.rest[0], L.Running)
    requires outcome.Finish? ==> !outcome.reason.Length?
    ensures Fit(u, Goto(s, L.Ending(s.life.pc.rest[0], outcome, L.ToMark, Some(s.life.pc.rest[1..]))))
  {
    hide Fit;
    NotHalted(u, s, s.life.pc.rest[0]);
    EndFits(u, s, s.life.pc.rest[0], outcome, s.life.pc.rest[1..]);
  }

  lemma EntryEndsKeeps(u: Setup, s: State, outcome: L.Outcome)
    requires Inv(u, s) && s.life.pc.Sweeping? && s.life.pc.rest != []
    requires outcome.Finish? ==> !outcome.reason.Length?
    ensures Inv(u, Goto(s, L.Ending(s.life.pc.rest[0], outcome, L.ToMark, Some(s.life.pc.rest[1..]))))
  {
    hide Fit, R.Inv;
    L.SweepPlace(s.life, u.limits);
    L.SweepToEnd(s.life, u.limits, outcome);
    EntryEndsFits(u, s, outcome);
  }

  lemma EntryStepsKeeps(u: Setup, s: State)
    requires Inv(u, s) && s.life.pc.Sweeping? && s.life.pc.rest != []
    ensures Inv(u, Goto(s, L.Stepping(s.life.pc.rest[0], s.life.pc.rest[1..])))
  {
    hide Fit, R.Inv;
    L.SweepToStep(s.life, u.limits);
    IdleFits(u, s, L.Stepping(s.life.pc.rest[0], s.life.pc.rest[1..]));
  }

  lemma CheckEntryKeeps(u: Setup, s: State, expired: bool)
    requires Inv(u, s) && Enabled(u, s, CheckEntry(expired))
    ensures Inv(u, DoCheckEntry(u, s, expired))
  {
    hide Inv;
    if s.talks[s.life.pc.rest[0]].cancelled {
      EntryEndsKeeps(u, s, L.Finish(Stop));
    } else if expired {
      EntryEndsKeeps(u, s, L.Fail(Timeout));
    } else {
      EntryStepsKeeps(u, s);
    }
  }

  lemma StepEndsKeeps(u: Setup, s: State, outcome: L.Outcome)
    requires Inv(u, s) && Steps(s) && Suits(outcome, s.talks[s.life.pc.id].out)
    ensures Inv(u, Goto(s, L.Ending(s.life.pc.id, outcome, L.ToMark, Some(s.life.pc.rest))))
  {
    hide Fit, L.Inv, R.Inv;
    L.SteppingPlace(s.life, u.limits);
    L.StepToEnd(s.life, u.limits, outcome);
    EndFits(u, s, s.life.pc.id, outcome, s.life.pc.rest);
  }

  lemma FaultEntryKeeps(u: Setup, s: State, e: Error)
    requires Inv(u, s) && Enabled(u, s, FaultEntry(e))
    ensures Inv(u, DoFaultEntry(u, s, e))
  {
    hide Inv;
    StepEndsKeeps(u, s, if s.talks[s.life.pc.id].cancelled then L.Finish(s.talks[s.life.pc.id].out.finish)
      else L.Fail(e));
  }

  lemma UtterCoupled(u: Setup, spec: Spec, h: R.Hold, t: Talk, token: int, piece: string)
    requires Coupled(u, spec, h, t, L.Running, Idle) && h.handle.IsValid()
    ensures var t' := Utter(t, token, piece, StopsFor(u, spec));
      var h' := h.(handle := h.handle.(currentLen := h.handle.currentLen + 1));
      && (!t'.out.halted ==> Coupled(u, spec, h', t', L.Running, Idle))
      && (t'.out.halted ==> Coupled(u, spec, h', t', L.Running, OnEnd(L.ToMark, L.Finish(t'.out.finish))))
  {
    UtterOk(t, token, piece, StopsFor(u, spec));
  }

  /** A token changes one request's cache and output, and nothing else. */
  lemma TokenShape(u: Setup, s: State, token: int, piece: string)
    requires Enabled(u, s, TokenEntry(token, piece))
    ensures var (t, id, h) := (DoToken(u, s, token, piece), s.life.pc.id, s.res.hold[s.life.pc.id]);
      var talk := Utter(s.talks[id], token, piece, StopsFor(u, s.specs[id]));
      && t.specs == s.specs && t.life.place == s.life.place && OnlyWith(s.life.pc, t.life.pc, id) && !t.life.pc.Prefill?
      && Update(s.res.hold, t.res.hold, id, h.(handle := h.handle.(currentLen := h.handle.currentLen + 1)))
      && Update(s.talks, t.talks, id, talk)
      && t.res.alloc == s.res.alloc && t.res.budgets == s.res.budgets
      && ModeOf(t.life.pc, id) == (if talk.out.halted then OnEnd(L.ToMark, L.Finish(talk.out.finish)) else Idle)
  {
    hide Enabled;
  }

  lemma TokenFits(u: Setup, s: State, token: int, piece: string)
    requires Fit(u, s) && Enabled(u, s, TokenEntry(token, piece)) && L.HandAt(s.life, L.Running)
    requires s.res.hold[s.life.pc.id].handle.IsValid()
    ensures Fit(u, DoToken(u, s, token, piece))
  {
    hide TalkOk;
    var (id, t) := (s.life.pc.id, DoToken(u, s, token, piece));
    assert CoupledAt(u, s, id);
    UtterCoupled(u, s.specs[id], s.res.hold[id], s.talks[id], token, piece);
    TokenShape(u, s, token, piece);
    SelfUpdate(s.life.place, id);
    FitAt(u, s, t, id);
  }

  lemma RunningHandle(u: Setup, s: State, id: Id)
    requires R.Inv(s.res, s.life.order) && Fit(u, s) && L.At(s.life.place, id, L.Running) && ModeOf(s.life.pc, id).Idle?
    ensures id in s.res.hold && s.res.hold[id].handle.IsValid()
  {
    PhaseFact(u, s, id);
    R.ValidHandle(s.res, s.life.order, id);
  }

  lemma TokenLife(u: Setup, s: State, token: int, piece: string)
    requires L.Inv(s.life, u.limits) && Enabled(u, s, TokenEntry(token, piece))
    ensures L.Inv(DoToken(u, s, token, piece).life, u.limits)
  {
    hide L.Inv, Coherent;
    var t := Utter(s.talks[s.life.pc.id], token, piece, StopsFor(u, s.specs[s.life.pc.id]));
    if t.out.halted {
      L.StepToEnd(s.life, u.limits, L.Finish(t.out.finish));
    } else {
      L.StepToSweep(s.life, u.limits);
    }
  }

  lemma TokenRes(u: Setup, s: State, token: int, piece: string)
    requires R.Inv(s.res, s.life.order) && Enabled(u, s, TokenEntry(token, piece))
    ensures R.Inv(DoToken(u, s, token, piece).res, s.life.order)
  {
    hide Inv;
    var n := s.res.hold[s.life.pc.id].handle.currentLen + 1;
    assert DoToken(u, s, token, piece).res == R.SetLength(s.res, s.life.pc.id, n);
    R.SetLengthKeeps(s.res, s.life.order, s.life.pc.id, n);
  }

  lemma TokenKeeps(u: Setup, s: State, token: int, piece: string)
    requires Inv(u, s) && Enabled(u, s, TokenEntry(token, piece))
    ensures Inv(u, DoToken(u, s, token, piece))
  {
    hide Fit, L.Inv, R.Inv, Coherent;
    L.SteppingPlace(s.life, u.limits);
    RunningHandle(u, s, s.life.pc.id);
    TokenRes(u, s, token, piece);
    TokenFits(u, s, token, piece);
    TokenLife(u, s, token, piece);
  }

  lemma LateCancelKeeps(u: Setup, s: State, token: int, piece: string)
    requires Inv(u, s) && Enabled(u, s, TokenEntry(token, piece))
    ensures s.talks[s.life.pc.id].cancelled ==> Inv(u, DoTokenEntry(u, s, token, piece))
  {
    hide Inv, Coherent;
    if s.talks[s.life.pc.id].cancelled {
      StepEndsKeeps(u, s, L.Finish(s.talks[s.life.pc.id].out.finish));
    }
  }

  lemma TimelyTokenKeeps(u: Setup, s: State, token: int, piece: string)
    requires Inv(u, s) && Enabled(u, s, TokenEntry(token, piece))
    ensures !s.talks[s.life.pc.id].cancelled ==> Inv(u, DoTokenEntry(u, s, token, piece))
  {
    hide Inv, Enabled;
    TokenKeeps(u, s, token, piece);
  }

  lemma TokenEntryKeeps(u: Setup, s: State, token: int, piece: string)
    requires Inv(u, s) && Enabled(u, s, TokenEntry(token, piece))
    ensures Inv(u, DoTokenEntry(u, s, token, piece))
  {
    hide Inv, Enabled;
    LateCancelKeeps(u, s, token, piece);
    TimelyTokenKeeps(u, s, token, piece);
  }

  // ---------------------------------------------------------------- complete_request and fail_request

  lemma MarkCoupled(u: Setup, spec: Spec, h: R.Hold, t: Talk, p: L.Place, outcome: L.Outcome)
    requires Coupled(u, spec, h, t, p, OnEnd(L.ToMark, outcome)) && !p.Done?
    ensures Coupled(u, spec, h, if outcome.Finish? then Conclude(t, outcome.reason) else Blame(t, outcome.error), p,
                    OnEnd(L.ToAnnounce, outcome))
  {
    if outcome.Finish? {
      ConcludeOk(t, outcome.reason, StopsFor(u, spec), false, false);
    }
  }

  lemma MarkFits(u: Setup, s: State)
    requires Fit(u, s) && Enabled(u, s, Mark) && L.HandUndone(s.life)
    ensures Fit(u, DoMark(u, s))
  {
    hide Coherent, Coupled;
    var id := s.life.pc.id;
    assert CoupledAt(u, s, id);
    MarkCoupled(u, s.specs[id], s.res.hold[id], s.talks[id], s.life.place[id], s.life.pc.outcome);
    SayFits(u, s, L.Mark(s.life), DoMark(u, s).talks[id], id);
  }

  lemma MarkKeeps(u: Setup, s: State)
    requires Inv(u, s) && Enabled(u, s, Mark)
    ensures Inv(u, DoMark(u, s))
  {
    hide L.Inv, R.Inv, Fit, Coherent;
    L.TouchedPlace(s.life, u.limits, s.life.pc.id);
    L.MarkKeeps(s.life, u.limits);
    MarkFits(u, s);
  }

  lemma AnnounceCoupled(u: Setup, spec: Spec, h: R.Hold, t: Talk, p: L.Place, outcome: L.Outcome)
    requires Coupled(u, spec, h, t, p, OnEnd(L.ToAnnounce, outcome)) && !p.Done?
    ensures Coupled(u, spec, h, Announce(t, LastEvent(outcome)), p, OnEnd(L.ToClose, outcome))
  {
    AnnounceOk(t, LastEvent(outcome), StopsFor(u, spec));
  }

  lemma AnnounceFits(u: Setup, s: State)
    requires Fit(u, s) && Enabled(u, s, AnnounceEnd) && L.HandUndone(s.life)
    ensures Fit(u, DoAnnounce(s))
  {
    hide Inv, Coherent, TalkOk;
    var id := s.life.pc.id;
    assert CoupledAt(u, s, id);
    AnnounceCoupled(u, s.specs[id], s.res.hold[id], s.talks[id], s.life.place[id], s.life.pc.outcome);
    SayFits(u, s, L.Goto(s.life, s.life.pc.(end := L.ToClose)), DoAnnounce(s).talks[id], id);
  }

  lemma AnnounceKeeps(u: Setup, s: State)
    requires Inv(u, s) && Enabled(u, s, AnnounceEnd)
    ensures Inv(u, DoAnnounce(s))
  {
    hide L.Inv, R.Inv, Fit;
    L.TouchedPlace(s.life, u.limits, s.life.pc.id);
    L.EndToEnd(s.life, u.limits, L.ToClose);
    AnnounceFits(u, s);
  }

  lemma CloseFits(u: Setup, s: State)
    requires Fit(u, s) && Enabled(u, s, CloseQueue) && L.HandUndone(s.life)
    ensures Fit(u, DoCloseQueue(s))
  {
    hide Coherent;
    var id := s.life.pc.id;
    assert CoupledAt(u, s, id);
    SayFits(u, s, L.Goto(s.life, s.life.pc.(end := L.ToFreeBudget)), DoCloseQueue(s).talks[id], id);
  }

  lemma CloseQueueKeeps(u: Setup, s: State)
    requires Inv(u, s) && Enabled(u, s, CloseQueue)
    ensures Inv(u, DoCloseQueue(s))
  {
    hide L.Inv, R.Inv, Fit, Coherent;
    L.TouchedPlace(s.life, u.limits, s.life.pc.id);
    L.EndToEnd(s.life, u.limits, L.ToFreeBudget);
    CloseFits(u, s);
  }

  /** The phase after the budget of a request has been released. */
  function AfterRelease(phase: R.Phase): R.Phase { if phase.Stale? then R.Drawn else R.KvOnly }

  lemma FreedCoupled(u: Setup, spec: Spec, h: R.Hold, t: Talk, p: L.Place, outcome: L.Outcome)
    requires Coupled(u, spec, h, t, p, OnEnd(L.ToFreeBudget, outcome)) && !p.Done?
    ensures Empty(h.phase) || h.phase.Charged? || h.phase.Stale?
    ensures Empty(h.phase) ==> Coupled(u, spec, h, t, p, OnEnd(L.ToErase, outcome))
    ensures !Empty(h.phase) ==> Coupled(u, spec, h.(phase := AfterRelease(h.phase)), t, p, OnEnd(L.ToFreeKv, outcome))
  {
    hide TalkOk;
  }

  lemma FaultCoupled(u: Setup, spec: Spec, h: R.Hold, t: Talk, p: L.Place, e: Error)
    requires Coupled(u, spec, h, t, p, OnPrefill(L.AtFault(e))) && p.InHand?
    ensures h.phase.Charged?
    ensures Coupled(u, spec, h.(phase := AfterRelease(h.phase)), t, p, OnPrefill(L.AtFaultKv(e)))
  {
  }

  /** The handle is valid exactly in the phases that have one. */
  ghost predicate ValidAt(h: R.Hold) { h.handle.IsValid() <==> R.Keeps(h.phase) || R.Lingers(h.phase) }

  lemma FreeNothingFits(u: Setup, s: State)
    requires Fit(u, s) && Enabled(u, s, FreeBudget) && L.HandUndone(s.life)
    requires s.life.pc.Prefill? ==> s.life.place[s.life.pc.id].InHand?
    requires Empty(s.res.hold[s.life.pc.id].phase)
    ensures Fit(u, Goto(s, AfterFree(s.life.pc)))
  {
    hide TalkOk;
    var id := s.life.pc.id;
    assert CoupledAt(u, s, id);
    if s.life.pc.Prefill? {
      assert false;
    } else {
      FreedCoupled(u, s.specs[id], s.res.hold[id], s.talks[id], s.life.place[id], s.life.pc.outcome);
      SelfUpdate(s.life.place, id);
      LifeFits(u, s, L.Goto(s.life, AfterFree(s.life.pc)), id);
    }
  }

  lemma FreeSomeFits(u: Setup, s: State, pc: L.Pc)
    requires Fit(u, s) && Enabled(u, s, FreeBudget) && L.HandUndone(s.life)
    requires s.life.pc.Prefill? ==> s.life.place[s.life.pc.id].InHand?
    requires s.life.pc.Prefill? ==> pc == s.life.pc.(stage := L.AtFaultKv(s.life.pc.stage.error))
    requires s.life.pc.Ending? ==> pc == s.life.pc.(end := L.ToFreeKv)
    requires !Empty(s.res.hold[s.life.pc.id].phase)
    ensures Fit(u, Goto(s, pc).(res := R.FreeBudget(s.res, s.life.pc.id, u.hasRouter)))
  {
    hide Coupled;
    var id := s.life.pc.id;
    assert CoupledAt(u, s, id);
    if s.life.pc.Prefill? {
      FaultCoupled(u, s.specs[id], s.res.hold[id], s.talks[id], s.life.place[id], s.life.pc.stage.error);
    } else {
      FreedCoupled(u, s.specs[id], s.res.hold[id], s.talks[id], s.life.place[id], s.life.pc.outcome);
    }
    ResFits(u, s, pc, R.FreeBudget(s.res, id, u.hasRouter), id);
  }

  /** Before `free_resources` a request holds memory, holds a stale handle, or holds nothing. */
  lemma FreePhases(u: Setup, s: State)
    requires Fit(u, s) && Enabled(u, s, FreeBudget) && L.HandUndone(s.life)
    ensures var phase := s.res.hold[s.life.pc.id].phase; Empty(phase) || phase.Charged? || phase.Stale?
  {
    hide Fit, Coherent, TalkOk;
    PhaseFact(u, s, s.life.pc.id);
  }

  lemma FreeBudgetFits(u: Setup, s: State)
    requires Fit(u, s) && Enabled(u, s, FreeBudget) && L.HandUndone(s.life)
    requires s.life.pc.Prefill? ==> s.life.place[s.life.pc.id].InHand?
    requires ValidAt(s.res.hold[s.life.pc.id])
    ensures Fit(u, DoFreeBudget(u, s))
  {
    FreePhases(u, s);
    if s.res.hold[s.life.pc.id].handle.IsValid() {
      FreeSomeFits(u, s, DoFreeBudget(u, s).life.pc);
    } else {
      FreeNothingFits(u, s);
    }
  }

  lemma FreeBudgetLife(u: Setup, s: State)
    requires L.Inv(s.life, u.limits) && Enabled(u, s, FreeBudget)
    ensures L.Inv(DoFreeBudget(u, s).life, u.limits)
  {
    hide L.Inv;
    var done := !s.res.hold[s.life.pc.id].handle.IsValid();
    if s.life.pc.Prefill? {
      if done {
        L.HandToEnd(s.life, u.limits, L.Fail(s.life.pc.stage.error));
      } else {
        L.PrefillStatus(s.life, u.limits);
        L.HandToPrefill(s.life, u.limits, s.life.pc.decision, L.AtFaultKv(s.life.pc.stage.error));
      }
    } else {
      L.EndToEnd(s.life, u.limits, if done then L.ToErase else L.ToFreeKv);
    }
  }

  lemma FreeBudgetRes(u: Setup, s: State)
    requires R.Inv(s.res, s.life.order) && Fit(u, s) && Enabled(u, s, FreeBudget)
    requires L.HandUndone(s.life)
    ensures ValidAt(s.res.hold[s.life.pc.id])
    ensures R.Inv(DoFreeBudget(u, s).res, s.life.order)
  {
    hide Enabled, R.Inv;
    FreePhases(u, s);
    R.ValidHandle(s.res, s.life.order, s.life.pc.id);
    if s.res.hold[s.life.pc.id].handle.IsValid() {
      R.FreeBudgetKeeps(s.res, s.life.order, s.life.pc.id, u.hasRouter);
    }
  }

  lemma FreeBudgetKeeps(u: Setup, s: State)
    requires Inv(u, s) && Enabled(u, s, FreeBudget)
    ensures Inv(u, DoFreeBudget(u, s))
  {
    hide L.Inv, R.Inv;
    EndPlace(u, s);
    FreeBudgetRes(u, s);
    FreeBudgetLife(u, s);
    FreeBudgetFits(u, s);
  }

  /** The cache is freed: the handle keeps its length and shape. */
  ghost predicate FreedAs(h: Handle, h': Handle) {
    h'.currentLen == h.currentLen && h'.tensorParallel == h.tensorParallel
  }

  lemma GoneCoupled(u: Setup, spec: Spec, h: R.Hold, t: Talk, p: L.Place, m: Mode, handle: Handle)
    requires Coupled(u, spec, h, t, p, m) && !p.Done? && h.handle.IsValid() && FreedAs(h.handle, handle)
    ensures m.OnEnd? && m.end.ToFreeKv? ==>
      Coupled(u, spec, h.(handle := handle, phase := R.AfterFreeKv(h.phase, handle)), t, p, OnEnd(L.ToErase, m.outcome))
    ensures m.OnPrefill? && m.stage.AtFaultKv? && p.InHand? ==>
      Coupled(u, spec, h.(handle := handle, phase := R.AfterFreeKv(h.phase, handle)), t, p,
        OnEnd(L.ToMark, L.Fail(m.stage.error)))
  {
    hide TalkOk;
  }

  lemma FreeKvFits(u: Setup, s: State)
    requires Fit(u, s) && Enabled(u, s, FreeKv) && L.HandUndone(s.life)
    requires s.life.pc.Prefill? ==> s.life.place[s.life.pc.id].InHand?
    requires FreedAs(s.res.hold[s.life.pc.id].handle, DoFreeKv(u, s).res.hold[s.life.pc.id].handle)
    requires s.res.hold[s.life.pc.id].handle.IsValid() && SameShape(s.res.alloc, DoFreeKv(u, s).res.alloc)
    ensures Fit(u, DoFreeKv(u, s))
  {
    hide Coupled, GiveBack;
    var id := s.life.pc.id;
    assert CoupledAt(u, s, id);
    var s' := DoFreeKv(u, s);
    GoneCoupled(u, s.specs[id], s.res.hold[id], s.talks[id], s.life.place[id], ModeOf(s.life.pc, id),
      s'.res.hold[id].handle);
    ResFits(u, s, s'.life.pc, s'.res, id);
  }

  lemma FreeKvLife(u: Setup, s: State)
    requires L.Inv(s.life, u.limits) && Enabled(u, s, FreeKv)
    ensures L.Inv(DoFreeKv(u, s).life, u.limits)
  {
    hide L.Inv, Coherent;
    if s.life.pc.Prefill? {
      L.HandToEnd(s.life, u.limits, L.Fail(s.life.pc.stage.error));
    } else {
      L.EndToEnd(s.life, u.limits, L.ToErase);
    }
  }

  lemma EndPlace(u: Setup, s: State)
    requires L.Inv(s.life, u.limits) && (s.life.pc.Prefill? || s.life.pc.Ending?)
    ensures L.HandUndone(s.life)
    ensures s.life.pc.Prefill? ==> s.life.place[s.life.pc.id].InHand?
  {
    L.TouchedPlace(s.life, u.limits, s.life.pc.id);
    if s.life.pc.Prefill? {
      L.HoldingPlace(s.life, u.limits);
    }
  }

  lemma FreeKvRes(u: Setup, s: State)
    requires R.Inv(s.res, s.life.order) && Fit(u, s) && Enabled(u, s, FreeKv)
    requires L.HandUndone(s.life)
    ensures R.Inv(DoFreeKv(u, s).res, s.life.order)
    ensures FreedAs(s.res.hold[s.life.pc.id].handle, DoFreeKv(u, s).res.hold[s.life.pc.id].handle)
    ensures s.res.hold[s.life.pc.id].handle.IsValid() && SameShape(s.res.alloc, DoFreeKv(u, s).res.alloc)
  {
    PhaseFact(u, s, s.life.pc.id);
    R.ValidHandle(s.res, s.life.order, s.life.pc.id);
    R.FreeKvKeeps(s.res, s.life.order, s.life.pc.id);
    R.FreeKvLeaves(s.res, s.life.order, s.life.pc.id);
  }

  lemma FreeKvKeeps(u: Setup, s: State)
    requires Inv(u, s) && Enabled(u, s, FreeKv)
    ensures Inv(u, DoFreeKv(u, s))
  {
    hide Fit, L.Inv, R.Inv, Coherent;
    EndPlace(u, s);
    FreeKvRes(u, s);
    FreeKvLife(u, s);
    FreeKvFits(u, s);
  }

  lemma EraseFits(u: Setup, s: State)
    requires Fit(u, s) && Enabled(u, s, EraseActive) && L.HandUndone(s.life)
    ensures Fit(u, s.(life := L.EraseActive(s.life)))
  {
    var id := s.life.pc.id;
    assert CoupledAt(u, s, id);
    LifeFits(u, s, L.EraseActive(s.life), id);
  }

  lemma LifeKeeps(u: Setup, s: State, life: L.Life)
    requires R.Inv(s.res, s.life.order) && life.order == s.life.order
    requires L.Inv(life, u.limits) && Fit(u, s.(life := life))
    ensures Inv(u, s.(life := life))
  {
    hide Fit, R.Inv;
  }

  lemma EraseActiveKeeps(u: Setup, s: State)
    requires Enabled(u, s, EraseActive) && Inv(u, s)
    ensures Inv(u, s.(life := L.EraseActive(s.life)))
  {
    L.TouchedPlace(s.life, u.limits, s.life.pc.id);
    L.EraseActiveKeeps(s.life, u.limits);
    EraseFits(u, s);
    LifeKeeps(u, s, L.EraseActive(s.life));
  }

  lemma DeregisterFits(u: Setup, s: State)
    requires Fit(u, s) && Enabled(u, s, Deregister) && L.HandAt(s.life, L.InHand)
    ensures Fit(u, s.(life := L.Deregister(s.life)))
  {
    var id := s.life.pc.id;
    assert CoupledAt(u, s, id);
    SelfUpdate(s.life.place, id);
    LifeFits(u, s, L.Deregister(s.life), id);
  }

  lemma DeregisterKeeps(u: Setup, s: State)
    requires Enabled(u, s, Deregister) && Inv(u, s)
    ensures Inv(u, s.(life := L.Deregister(s.life)))
  {
    hide L.Inv, R.Inv, Coherent;
    L.LeavingPlace(s.life, u.limits);
    L.DeregisterKeeps(s.life, u.limits);
    DeregisterFits(u, s);
    LifeKeeps(u, s, L.Deregister(s.life));
  }

  lemma TallyFits(u: Setup, s: State)
    requires Fit(u, s) && Enabled(u, s, Tally) && L.HandAt(s.life, L.InHand)
    ensures Fit(u, s.(life := L.Tally(s.life)))
  {
    hide TalkOk, Coherent, Allocate, GiveBack;
    var id := s.life.pc.id;
    assert CoupledAt(u, s, id);
    LifeFits(u, s, L.Tally(s.life), id);
  }

  lemma TallyKeeps(u: Setup, s: State)
    requires Enabled(u, s, Tally) && Inv(u, s)
    ensures Inv(u, s.(life := L.Tally(s.life)))
  {
    hide L.Inv, R.Inv;
    L.LeavingPlace(s.life, u.limits);
    L.TallyKeeps(s.life, u.limits);
    TallyFits(u, s);
    LifeKeeps(u, s, L.Tally(s.life));
  }

  // ---------------------------------------------------------------- every step, every run

  predicate OfSubmit(step: Step) {
    step.Offer? || step.CheckGpu? || step.CheckKv? || step.Register? || step.Enqueue?
  }

  lemma SubmitStepKeeps(u: Setup, s: State, step: Step)
    requires Inv(u, s) && Enabled(u, s, step) && OfSubmit(step) && !step.Offer?
    ensures Inv(u, Apply(u, s, step))
  {
    hide Inv, Enabled, Allocate;
    match step
    case CheckGpu(t) => CheckGpuKeeps(u, s, t);
    case CheckKv(t) => CheckKvKeeps(u, s, t);
    case Register(t) => RegisterKeeps(u, s, t);
    case Enqueue(t) => EnqueueKeeps(u, s, t);
  }

  predicate OfWatch(step: Step) {
    step.Cancel? || step.Consume?
  }

  lemma WatchStepKeeps(u: Setup, s: State, step: Step)
    requires Inv(u, s) && Enabled(u, s, step) && OfWatch(step)
    ensures Inv(u, Apply(u, s, step))
  {
    hide Inv, R.Inv, Coherent, Coupled, Allocate;
    match step
    case Cancel(id) => CancelKeeps(u, s, id);
    case Consume(id) => ConsumeKeeps(u, s, id);
  }

  predicate OfFill(step: Step) {
    step.TakeNext? || step.TestTimeouts? || step.PlaceOnGpu? || step.AllocateKv?
  }

  lemma FillStepKeeps(u: Setup, s: State, step: Step)
    requires Inv(u, s) && Enabled(u, s, step) && OfFill(step)
    ensures Inv(u, Apply(u, s, step))
  {
    hide Inv, Enabled, Fit, R.Inv, CoupledAt;
    match step
    case TakeNext => TakeNextKeeps(u, s);
    case TestTimeouts(expired) => TestTimeoutsKeeps(u, s, expired);
    case PlaceOnGpu => PlaceOnGpuKeeps(u, s);
    case AllocateKv(grants) => AllocateKvKeeps(u, s, grants);
  }

  predicate OfPrefill(step: Step) {
    step.UnreserveGpu? || step.CommitGpu? || step.RunPrefill? || step.Activate?
  }

  lemma PrefillStepKeeps(u: Setup, s: State, step: Step)
    requires Inv(u, s) && Enabled(u, s, step) && OfPrefill(step)
    ensures Inv(u, Apply(u, s, step))
  {
    hide Inv, Enabled, Fit, R.Inv, Coherent, CoupledAt;
    match step
    case UnreserveGpu => UnreserveGpuKeeps(u, s);
    case CommitGpu => CommitGpuKeeps(u, s);
    case RunPrefill(fault) => RunPrefillKeeps(u, s, fault);
    case Activate => ActivateKeeps(u, s);
  }

  predicate OfSweep(step: Step) {
    step.Snapshot? || step.EndSweep?
  }

  lemma SweepStepKeeps(u: Setup, s: State, step: Step)
    requires Inv(u, s) && Enabled(u, s, step) && OfSweep(step)
    ensures Inv(u, Apply(u, s, step))
  {
    hide Inv, Enabled, Allocate;
    match step
    case Snapshot => SnapshotKeeps(u, s);
    case EndSweep => EndSweepKeeps(u, s);
  }

  predicate OfEntry(step: Step) {
    step.CheckEntry? || step.FaultEntry? || step.TokenEntry?
  }

  lemma EntryStepKeeps(u: Setup, s: State, step: Step)
    requires Inv(u, s) && Enabled(u, s, step) && OfEntry(step)
    ensures Inv(u, Apply(u, s, step))
  {
    hide Inv, Enabled, Allocate;
    match step
    case CheckEntry(expired) => CheckEntryKeeps(u, s, expired);
    case FaultEntry(e) => FaultEntryKeeps(u, s, e);
    case TokenEntry(token, piece) => TokenEntryKeeps(u, s, token, piece);
  }

  predicate OfEnd(step: Step) {
    step.Mark? || step.AnnounceEnd? || step.CloseQueue? || step.FreeBudget?
  }

  lemma EndStepKeeps(u: Setup, s: State, step: Step)
    requires Inv(u, s) && Enabled(u, s, step) && OfEnd(step)
    ensures Inv(u, Apply(u, s, step))
  {
    hide Inv, Enabled, L.Inv, R.Inv, CoupledAt;
    match step
    case Mark => MarkKeeps(u, s);
    case AnnounceEnd => AnnounceKeeps(u, s);
    case CloseQueue => CloseQueueKeeps(u, s);
    case FreeBudget => FreeBudgetKeeps(u, s);
  }

  predicate OfLeave(step: Step) {
    step.FreeKv? || step.EraseActive? || step.Deregister? || step.Tally?
  }

  lemma LeaveStepKeeps(u: Setup, s: State, step: Step)
    requires Inv(u, s) && Enabled(u, s, step) && OfLeave(step)
    ensures Inv(u, Apply(u, s, step))
  {
    hide Inv, Enabled, L.Inv, R.Inv, CoupledAt;
    match step
    case FreeKv => FreeKvKeeps(u, s);
    case EraseActive => EraseActiveKeeps(u, s);
    case Deregister => DeregisterKeeps(u, s);
    case Tally => TallyKeeps(u, s);
  }

  /** Every step of every thread keeps the invariant. */
  lemma StepKeeps(u: Setup, s: State, step: Step)
    requires Inv(u, s) && Enabled(u, s, step)
    ensures Inv(u, Apply(u, s, step))
  {
    hide Inv, Enabled, Allocate;
    if step.Offer? {
      OfferKeeps(u, s, step.thread, step.id, step.prompt, step.asked, step.sequences);
    } else if OfSubmit(step) {
      SubmitStepKeeps(u, s, step);
    } else if OfWatch(step) {
      WatchStepKeeps(u, s, step);
    } else if OfFill(step) {
      FillStepKeeps(u, s, step);
    } else if OfPrefill(step) {
      PrefillStepKeeps(u, s, step);
    } else if OfSweep(step) {
      SweepStepKeeps(u, s, step);
    } else if OfEntry(step) {
      EntryStepKeeps(u, s, step);
    } else if OfEnd(step) {
      EndStepKeeps(u, s, step);
    } else {
      LeaveStepKeeps(u, s, step);
    }
  }

  /** No device is listed twice. */
  ghost predicate Sane(u: Setup) { Distinct(u.topology.devices) }

  lemma InitLife(u: Setup, s: State)
    requires L.Nobody(s.life)
    ensures L.Inv(s.life, u.limits) && s.life.order == []
  {
    L.NobodyInv(s.life, u.limits);
  }

  lemma InitInv(u: Setup, s: State)
    requires Init(u, s) && Sane(u)
    ensures Inv(u, s)
  {
    hide L.Inv, Coherent;
    InitLife(u, s);
  }

  lemma {:induction false} RunKeeps(u: Setup, s: State, steps: seq<Step>, t: State)
    requires Inv(u, s) && Runs(u, s, steps, t)
    ensures Inv(u, t)
    decreases |steps|
  {
    hide Inv, Apply, Enabled;
    if steps != [] {
      StepKeeps(u, s, steps[0]);
      RunKeeps(u, Apply(u, s, steps[0]), steps[1..], t);
    }
  }
}
