/** The decode thread's and the HTTP threads' steps as changes of the state, for the scheduler class. */
module SchedulerSteps {
  import opened Wrappers
  import opened Sums
  import opened KvCache
  import opened Routing
  import opened Allocator
  import opened Stream
  import opened StopChecker
  import opened Generation
  import opened Talks
  import opened System
  import opened Safety
  import opened Guarantees
  import opened Drain
  import L = Lifecycle
  import R = Resources

  lemma NextEnabled(u: Setup, s: State)
    requires Reached(u, s)
    ensures Enabled(u, s, NextOfDecodeThread(u, s))
  {
    hide Reached, Inv, Enabled;
    ReachedInv(u, s);
    DecodeThreadNeverStuck(u, s);
  }

  /** The same kind of step, whatever it is answered. */
  predicate Alike(a: Step, b: Step) {
    match a
    case TestTimeouts(_) => b.TestTimeouts?
    case AllocateKv(_) => b.AllocateKv?
    case RunPrefill(_) => b.RunPrefill?
    case CheckEntry(_) => b.CheckEntry?
    case TokenEntry(_, _) => b.FaultEntry?
    case FaultEntry(_) => b.FaultEntry?
    case _ => a == b
  }

  /** Less is left to do in `t` than in `s`. */
  ghost predicate Lower(u: Setup, s: State, t: State) {
    u.limits.maxActive >= 1 ==> Measure(t) < Measure(s)
  }

  lemma AlikeLowers(u: Setup, s: State, step: Step)
    requires Reached(u, s) && Enabled(u, s, step) && Alike(step, NextOfDecodeThread(u, s)) && !NothingToDo(s)
    ensures Lower(u, s, Apply(u, s, step))
  {
    hide Reached, Inv, Apply, Enabled;
    if u.limits.maxActive >= 1 {
      ReachedInv(u, s);
      AlikeWorks(u, s, step);
      StepSpends(u, s, step);
    }
  }

  lemma AlikeWorks(u: Setup, s: State, step: Step)
    requires Alike(step, NextOfDecodeThread(u, s)) && !NothingToDo(s)
    ensures Works(s, step) && !step.Offer?
  {
  }

  /** The next step of the decode thread is possible and leads to a reachable state. */
  lemma StepOn(u: Setup, s: State, step: Step)
    requires Reached(u, s) && Alike(step, NextOfDecodeThread(u, s))
    ensures Enabled(u, s, step) && Reached(u, Apply(u, s, step))
    ensures !NothingToDo(s) ==> Lower(u, s, Apply(u, s, step))
  {
    hide Reached, Lower, Apply;
    NextEnabled(u, s);
    ReachedOn(u, s, step);
    if !NothingToDo(s) {
      AlikeLowers(u, s, step);
    }
  }

  lemma NoDevices(budgets: seq<Budget>, d: Decision, bytes: nat)
    requires d == Decision(PerRequest, [])
    ensures Reserve(budgets, d, bytes) == budgets && Commit(budgets, d, bytes) == budgets
      && Unreserve(budgets, d, bytes) == budgets
  {
  }

  lemma QueuedFirst(u: Setup, s: State)
    requires Reached(u, s) && s.life.pending != []
    ensures s.life.pending[0] in s.life.status && s.life.status[s.life.pending[0]].Queued?
  {
    ReachedInv(u, s);
    WaitingStatus(s.life, u.limits);
  }

  lemma HeldLength(u: Setup, s: State, id: Id)
    requires Reached(u, s) && id in s.res.hold
    ensures id in s.specs && s.res.hold[id].seqLen == s.specs[id].SeqLen()
  {
    hide Reached, L.Inv, R.Inv;
    ReachedInv(u, s);
    assert CoupledAt(u, s, id);
  }

  // ---------------------------------------------------------------- the steps, as changes of the state

  lemma TakeStep(u: Setup, s: State) returns (t: State)
    requires Reached(u, s) && s.life.pc.Filling? && s.life.pending != [] && |s.life.active| < u.limits.maxActive
    ensures Reached(u, t) && Lower(u, s, t) && t == s.(life := L.TakeNext(s.life))
    ensures s.life.pending[0] in s.life.status && s.life.status[s.life.pending[0]].Queued?
  {
    hide Reached, Lower;
    StepOn(u, s, TakeNext);
    QueuedFirst(u, s);
    t := Apply(u, s, TakeNext);
  }

  ghost predicate HeldAs(s: State, id: Id, st: L.Status) {
    s.life.pc == L.Holding(id) && id in s.life.status && s.life.status[id] == st
  }

  lemma DeadlineStep(u: Setup, s: State, id: Id, expired: bool) returns (t: State)
    requires Reached(u, s) && HeldAs(s, id, L.Queued)
    ensures Reached(u, t) && Lower(u, s, t)
    ensures t == if expired then Goto(s, L.Ending(id, L.Fail(Timeout), L.ToMark, None))
      else s.(life := L.StartPrefill(s.life, id))
  {
    hide Reached, Enabled, Allocate;
    StepOn(u, s, TestTimeouts(expired));
    t := Apply(u, s, TestTimeouts(expired));
  }

  lemma PlaceStep(u: Setup, s: State, id: Id) returns (t: State)
    requires Reached(u, s) && HeldAs(s, id, L.Prefilling)
    ensures Reached(u, t) && Lower(u, s, t) && id in s.specs && id in s.res.hold
    ensures s.res.hold[id].seqLen == s.specs[id].SeqLen()
    ensures var d := DecisionFor(u, s.res, s.specs[id].SeqLen());
      && t.life == L.Goto(s.life, L.Prefill(id, d, L.AtReserved)) && t.talks == s.talks && t.specs == s.specs
      && t.res.hold == s.res.hold[id := s.res.hold[id].(gpus := d.devices, phase := R.Reserved)]
      && t.res.alloc == s.res.alloc
      && t.res.roundRobin == (if u.hasRouter && d.strategy.PerRequest? then s.res.roundRobin + 1 else s.res.roundRobin)
      && t.res.budgets == if u.hasRouter then Reserve(s.res.budgets, d, EstimateKv(s.specs[id].SeqLen()))
        else s.res.budgets
  {
    hide Reached, Lower, Coherent;
    StepOn(u, s, PlaceOnGpu);
    HeldLength(u, s, id);
    var n := s.specs[id].SeqLen();
    NoDevices(s.res.budgets, Decision(PerRequest, []), EstimateKv(n));
    t := Apply(u, s, PlaceOnGpu);
  }

  lemma AllocateStep(u: Setup, s: State, id: Id, d: Decision, grants: seq<Grant>) returns (t: State)
    requires Reached(u, s) && s.life.pc == L.Prefill(id, d, L.AtReserved)
    ensures Reached(u, t) && Lower(u, s, t) && id in s.res.hold && Coherent(s.res.alloc)
    ensures var (r, refused) := R.AllocateKv(s.res, id, SplitDevices(u, d), grants);
      t == Goto(s, L.Prefill(id, d, match refused case None => L.AtAllocated case Some(e) => L.AtRefused(e))).(res := r)
  {
    hide Reached, Lower, Coherent, Allocate;
    StepOn(u, s, AllocateKv(grants));
    t := Apply(u, s, AllocateKv(grants));
  }

  lemma UnreserveStep(u: Setup, s: State, id: Id, d: Decision, e: Error) returns (t: State)
    requires Reached(u, s) && s.life.pc == L.Prefill(id, d, L.AtRefused(e))
    ensures Reached(u, t) && Lower(u, s, t) && id in s.res.hold && R.Usable(d)
    ensures t == Goto(s, L.Ending(id, L.Fail(e), L.ToMark, None)).(res := R.UnreserveGpu(s.res, id, d))
  {
    hide Reached;
    StepOn(u, s, UnreserveGpu);
    t := Apply(u, s, UnreserveGpu);
  }

  lemma CommitStep(u: Setup, s: State, id: Id, d: Decision) returns (t: State)
    requires Reached(u, s) && s.life.pc == L.Prefill(id, d, L.AtAllocated)
    ensures Reached(u, t) && Lower(u, s, t) && id in s.res.hold && R.Usable(d)
    ensures t == Goto(s, L.Prefill(id, d, L.AtCommitted)).(res := R.CommitGpu(s.res, id, d))
  {
    hide Reached, Lower, Coherent, Unused;
    StepOn(u, s, CommitGpu);
    t := Apply(u, s, CommitGpu);
  }

  lemma PromptStep(u: Setup, s: State, id: Id, d: Decision, fault: Option<Error>) returns (t: State)
    requires Reached(u, s) && s.life.pc == L.Prefill(id, d, L.AtCommitted)
    ensures Reached(u, t) && Lower(u, s, t) && id in s.res.hold && id in s.specs
    ensures t == match fault
      case None => Goto(s, L.Prefill(id, d, L.AtReady)).(res := R.SetLength(s.res, id, s.specs[id].input))
      case Some(e) => Goto(s, L.Prefill(id, d, L.AtFault(e)))
  {
    hide Reached, Lower, Coherent, Allocate;
    StepOn(u, s, RunPrefill(fault));
    t := Apply(u, s, RunPrefill(fault));
  }

  ghost predicate AtFree(pc: L.Pc, id: Id) {
    (pc.Prefill? && pc.id == id && pc.stage.AtFault?) || (pc.Ending? && pc.id == id && pc.end.ToFreeBudget?)
  }

  ghost predicate InFree(pc: L.Pc, id: Id) {
    (pc.Prefill? && pc.id == id && pc.stage.AtFaultKv?) || (pc.Ending? && pc.id == id && pc.end.ToFreeKv?)
  }

  function IntoFree(pc: L.Pc): L.Pc
    requires (pc.Prefill? && pc.stage.AtFault?) || pc.Ending?
  {
    if pc.Prefill? then pc.(stage := L.AtFaultKv(pc.stage.error)) else pc.(end := L.ToFreeKv)
  }

  lemma FreeBudgetEffect(u: Setup, s: State, id: Id)
    requires Enabled(u, s, FreeBudget) && AtFree(s.life.pc, id)
    ensures Apply(u, s, FreeBudget) == if s.res.hold[id].handle.IsValid()
      then Goto(s, IntoFree(s.life.pc)).(res := R.FreeBudget(s.res, id, u.hasRouter)) else Goto(s, AfterFree(s.life.pc))
  {
    hide Enabled, Allocate;
  }

  lemma FreeBudgetStep(u: Setup, s: State, id: Id) returns (t: State)
    requires Reached(u, s) && AtFree(s.life.pc, id)
    ensures Reached(u, t) && Lower(u, s, t) && id in s.res.hold
    ensures t == if s.res.hold[id].handle.IsValid()
      then Goto(s, IntoFree(s.life.pc)).(res := R.FreeBudget(s.res, id, u.hasRouter)) else Goto(s, AfterFree(s.life.pc))
  {
    hide Reached, Lower, Apply;
    StepOn(u, s, FreeBudget);
    FreeBudgetEffect(u, s, id);
    t := Apply(u, s, FreeBudget);
  }

  lemma FreeKvEffect(u: Setup, s: State, id: Id)
    requires Enabled(u, s, FreeKv) && InFree(s.life.pc, id)
    ensures Apply(u, s, FreeKv) == Goto(s, AfterFree(s.life.pc)).(res := R.FreeKv(s.res, id))
  {
    hide Enabled, Allocate;
  }

  lemma FreeKvStep(u: Setup, s: State, id: Id) returns (t: State)
    requires Reached(u, s) && InFree(s.life.pc, id)
    ensures Reached(u, t) && Lower(u, s, t) && id in s.res.hold && Coherent(s.res.alloc)
    ensures t == Goto(s, AfterFree(s.life.pc)).(res := R.FreeKv(s.res, id))
  {
    hide Reached, Lower, Apply, Coherent;
    StepOn(u, s, FreeKv);
    FreeKvEffect(u, s, id);
    t := Apply(u, s, FreeKv);
  }

  lemma ActivateStep(u: Setup, s: State, id: Id) returns (t: State)
    requires Reached(u, s) && s.life.pc.Prefill? && s.life.pc.id == id && s.life.pc.stage.AtReady?
    ensures Reached(u, t) && Lower(u, s, t) && t == s.(life := L.Activate(s.life, id))
  {
    hide Reached, Lower, Enabled, Allocate;
    StepOn(u, s, Activate);
    t := Apply(u, s, Activate);
  }

  ghost predicate EndsAt(pc: L.Pc, id: Id, outcome: L.Outcome, end: L.EndStage) {
    pc.Ending? && pc.id == id && pc.outcome == outcome && pc.end == end
  }

  lemma MarkStep(u: Setup, s: State, id: Id, outcome: L.Outcome) returns (t: State)
    requires Reached(u, s) && EndsAt(s.life.pc, id, outcome, L.ToMark)
    ensures Reached(u, t) && Lower(u, s, t) && id in s.talks
    ensures t == Say(s.(life := L.Mark(s.life)), id,
      match outcome case Finish(reason) => Conclude(s.talks[id], reason) case Fail(e) => Blame(s.talks[id], e))
  {
    hide Reached, Lower, Coherent, Allocate;
    StepOn(u, s, Mark);
    t := Apply(u, s, Mark);
  }

  lemma AnnounceStep(u: Setup, s: State, id: Id, outcome: L.Outcome) returns (t: State)
    requires Reached(u, s) && EndsAt(s.life.pc, id, outcome, L.ToAnnounce)
    ensures Reached(u, t) && Lower(u, s, t) && id in s.talks
    ensures t == Say(Goto(s, s.life.pc.(end := L.ToClose)), id, Announce(s.talks[id], LastEvent(outcome)))
  {
    hide Reached, Lower, Coherent, Allocate;
    StepOn(u, s, AnnounceEnd);
    t := Apply(u, s, AnnounceEnd);
  }

  lemma CloseStep(u: Setup, s: State, id: Id, outcome: L.Outcome) returns (t: State)
    requires Reached(u, s) && EndsAt(s.life.pc, id, outcome, L.ToClose)
    ensures Reached(u, t) && Lower(u, s, t) && id in s.talks
    ensures t == Say(Goto(s, s.life.pc.(end := L.ToFreeBudget)), id, Hush(s.talks[id]))
  {
    hide Reached, Lower, Coherent, Allocate;
    StepOn(u, s, CloseQueue);
    t := Apply(u, s, CloseQueue);
  }

  lemma EraseStep(u: Setup, s: State, id: Id, outcome: L.Outcome) returns (t: State)
    requires Reached(u, s) && EndsAt(s.life.pc, id, outcome, L.ToErase)
    ensures Reached(u, t) && Lower(u, s, t) && t == s.(life := L.EraseActive(s.life))
  {
    hide Reached, Lower, Enabled, Allocate, GiveBack, CanAllocate;
    StepOn(u, s, EraseActive);
    t := Apply(u, s, EraseActive);
  }

  lemma DeregisterStep(u: Setup, s: State, id: Id, outcome: L.Outcome) returns (t: State)
    requires Reached(u, s) && EndsAt(s.life.pc, id, outcome, L.ToDeregister)
    ensures Reached(u, t) && Lower(u, s, t) && t == s.(life := L.Deregister(s.life))
  {
    hide Reached, Lower, Enabled, Allocate, GiveBack;
    StepOn(u, s, Deregister);
    t := Apply(u, s, Deregister);
  }

  lemma TallyStep(u: Setup, s: State, id: Id, outcome: L.Outcome) returns (t: State)
    requires Reached(u, s) && EndsAt(s.life.pc, id, outcome, L.ToTally)
    ensures Reached(u, t) && Lower(u, s, t) && t == s.(life := L.Tally(s.life))
  {
    hide Reached, Lower, Enabled, GiveBack;
    StepOn(u, s, Tally);
    t := Apply(u, s, Tally);
  }

  lemma SnapshotStep(u: Setup, s: State) returns (t: State)
    requires Reached(u, s) && s.life.pc.Filling? && (s.life.pending == [] || |s.life.active| >= u.limits.maxActive)
    ensures Reached(u, t) && (!NothingToDo(s) ==> Lower(u, s, t)) && t == Goto(s, L.Sweeping(s.life.active))
  {
    hide Reached, Lower, Enabled, Allocate;
    StepOn(u, s, Snapshot);
    t := Apply(u, s, Snapshot);
  }

  lemma EndSweepStep(u: Setup, s: State) returns (t: State)
    requires Reached(u, s) && s.life.pc == L.Sweeping([])
    ensures Reached(u, t) && (!NothingToDo(s) ==> Lower(u, s, t)) && t == Goto(s, L.Filling)
  {
    hide Reached, Lower, Enabled, Allocate;
    StepOn(u, s, EndSweep);
    t := Apply(u, s, EndSweep);
  }

  /** What the checks before a decode step come to. */
  function EntryOutcome(cancelled: bool, expired: bool): Option<L.Outcome> {
    if cancelled then Some(L.Finish(Stop)) else if expired then Some(L.Fail(Timeout)) else None
  }

  lemma EntryStep(u: Setup, s: State, id: Id, rest: seq<Id>, expired: bool) returns (t: State)
    requires Reached(u, s) && s.life.pc == L.Sweeping([id] + rest)
    ensures Reached(u, t) && Lower(u, s, t) && Known(s, id)
    ensures t == Goto(s, match EntryOutcome(s.talks[id].cancelled, expired)
      case Some(outcome) => L.Ending(id, outcome, L.ToMark, Some(rest))
      case None => L.Stepping(id, rest))
  {
    hide Reached, Lower, Coherent, Allocate, GiveBack;
    assert ([id] + rest)[1..] == rest;
    StepOn(u, s, CheckEntry(expired));
    t := Apply(u, s, CheckEntry(expired));
  }

  lemma FaultStep(u: Setup, s: State, id: Id, rest: seq<Id>, e: Error) returns (t: State)
    requires Reached(u, s) && s.life.pc == L.Stepping(id, rest) && id in s.talks && !s.talks[id].cancelled
    ensures Reached(u, t) && Lower(u, s, t) && t == Goto(s, L.Ending(id, L.Fail(e), L.ToMark, Some(rest)))
  {
    hide Reached, Lower, Enabled, Allocate;
    StepOn(u, s, FaultEntry(e));
    t := Apply(u, s, FaultEntry(e));
  }

  /** The KV cache after one more token. */
  function Longer(h: R.Hold): R.Hold { h.(handle := h.handle.(currentLen := h.handle.currentLen + 1)) }

  function PcAfterToken(o: Output, id: Id, rest: seq<Id>): L.Pc {
    if o.halted then L.Ending(id, L.Finish(o.finish), L.ToMark, Some(rest)) else L.Sweeping(rest)
  }

  lemma TokenEffect(u: Setup, s: State, id: Id, rest: seq<Id>, token: int, piece: string)
    requires Enabled(u, s, TokenEntry(token, piece)) && s.life.pc == L.Stepping(id, rest) && !s.talks[id].cancelled
    ensures var (t, talk) := (Apply(u, s, TokenEntry(token, piece)),
      Utter(s.talks[id], token, piece, StopsFor(u, s.specs[id])));
      && LifeIs(t.life, s.life.pending, s.life.active, s.life.registry, s.life.completed, s.life.errored, s.life.status)
      && ResIs(t.res, s.res.hold[id := Longer(s.res.hold[id])], s.res.budgets, s.res.roundRobin, s.res.alloc)
      && t.res == R.SetLength(s.res, id, s.res.hold[id].handle.currentLen + 1)
      && t.life.pc == PcAfterToken(talk.out, id, rest) && t.talks == s.talks[id := talk] && t.specs == s.specs
  {
    hide Enabled;
  }

  lemma TokenStep(u: Setup, s: State, id: Id, rest: seq<Id>, token: int, piece: string) returns (t: State)
    requires Reached(u, s) && s.life.pc == L.Stepping(id, rest) && Known(s, id) && !s.talks[id].cancelled
    ensures Reached(u, t) && Lower(u, s, t) && t.specs == s.specs
    ensures LifeIs(t.life, s.life.pending, s.life.active, s.life.registry, s.life.completed, s.life.errored,
      s.life.status)
    ensures ResIs(t.res, s.res.hold[id := Longer(s.res.hold[id])], s.res.budgets, s.res.roundRobin, s.res.alloc)
    ensures t.res == R.SetLength(s.res, id, s.res.hold[id].handle.currentLen + 1)
    ensures var talk := Utter(s.talks[id], token, piece, StopsFor(u, s.specs[id]));
      t.life.pc == PcAfterToken(talk.out, id, rest) && t.talks == s.talks[id := talk]
  {
    hide Reached, Apply, Enabled;
    StepOn(u, s, TokenEntry(token, piece));
    TokenEffect(u, s, id, rest, token, piece);
    t := Apply(u, s, TokenEntry(token, piece));
  }

  /** Ending a sweep leaves no more to do than before. */
  lemma EndSweepLevel(s: State)
    requires s.life.pc == L.Sweeping([])
    ensures Measure(Goto(s, L.Filling)) <= Measure(s)
  {
    var t := Goto(s, L.Filling);
    forall id | id in s.life.order ensures WeightAt(s)(id) == WeightAt(t)(id) {
    }
    SumSame(s.life.order, WeightAt(s), WeightAt(t));
  }

  lemma MeasureBounded(u: Setup, s: State)
    requires Reached(u, s)
    ensures Measure(s) >= 0
  {
    hide Reached, R.Inv, Measure;
    ReachedInv(u, s);
    MeasureNonNegative(u, s);
  }

  // ---------------------------------------------------------------- the steps of submit

  /** Thread `t` is inside `submit` with request `id`. */
  ghost predicate Inside(s: State, t: Thread, id: Id, stage: L.SubmitStage) {
    t in s.life.submissions && s.life.submissions[t] == L.Submission(id, stage) && Known(s, id) && id in s.life.status
  }

  /** A request within the context limit. */
  ghost predicate Clamped(u: Setup, spec: Spec) {
    exists asked: nat :: asked >= 1 && Clamp(spec.input, asked, u.maxContext) == Ok(spec.maxTokens)
  }

  lemma OfferStep(u: Setup, s: State, t: Thread, id: Id, spec: Spec) returns (n: State)
    requires Reached(u, s) && t < u.limits.threads && t !in s.life.submissions && id !in s.life.place
    requires Clamped(u, spec)
    ensures Reached(u, n)
    ensures var full := |s.life.pending| >= u.limits.maxQueue;
      && LifeIs(n.life, s.life.pending, s.life.active, s.life.registry, s.life.completed, s.life.errored,
                s.life.status[id := if full then L.Rejected else L.Received])
      && ResIs(n.res, s.res.hold[id := R.Hold(spec.SeqLen(), NO_HANDLE, [], R.Bare)], s.res.budgets, s.res.roundRobin,
        s.res.alloc)
      && n.talks == s.talks[id := NewTalk(u.capacity)] && n.specs == s.specs[id := spec]
      && n.life.pc == s.life.pc
      && n.life.submissions
        == (if full then s.life.submissions else s.life.submissions[t := L.Submission(id, L.QueueChecked)])
      && (!full ==> Inside(n, t, id, L.QueueChecked))
  {
    hide Reached, Coherent, GiveBack;
    var asked: nat :| asked >= 1 && Clamp(spec.input, asked, u.maxContext) == Ok(spec.maxTokens);
    ReachedOn(u, s, Offer(t, id, spec.input, asked, spec.sequences));
    n := Apply(u, s, Offer(t, id, spec.input, asked, spec.sequences));
  }

  lemma RegisteredKnown(u: Setup, s: State, id: Id)
    requires Reached(u, s) && id in s.life.registry
    ensures id in s.talks
  {
    hide Reached, R.Inv;
    ReachedInv(u, s);
  }

  lemma CancelStep(u: Setup, s: State, id: Id) returns (n: State)
    requires Reached(u, s) && id in s.talks
    ensures Reached(u, n) && n == Say(s, id, s.talks[id].(cancelled := true))
  {
    hide Reached;
    ReachedOn(u, s, Cancel(id));
    n := Apply(u, s, Cancel(id));
  }

  ghost predicate LifeIs(l: L.Life, pending: seq<Id>, active: seq<Id>, registry: set<Id>, completed: nat, errored: nat,
                         status: map<Id, L.Status>) {
    && pending == l.pending && active == l.active && registry == l.registry
    && completed == l.completed && errored == l.errored && status == l.status
  }

  ghost predicate ResIs(r: R.Res, hold: map<Id, R.Hold>, budgets: seq<Budget>, roundRobin: nat, alloc: Allocator) {
    hold == r.hold && budgets == r.budgets && roundRobin == r.roundRobin && alloc == r.alloc
  }

  // ---------------------------------------------------------------- the functions, as runs

  lemma LowerChain(u: Setup, s: State, m: State, t: State)
    requires Lower(u, s, m) && Lower(u, m, t)
    ensures Lower(u, s, t)
  {
  }

  /** `free_resources`: nothing if the handle is not valid. */
  function FreedRes(u: Setup, r: R.Res, id: Id): R.Res
    requires id in r.hold && Coherent(r.alloc)
  {
    if r.hold[id].handle.IsValid() then R.FreeKv(R.FreeBudget(r, id, u.hasRouter), id) else r
  }

  lemma AllocSound(u: Setup, s: State)
    requires Reached(u, s)
    ensures Coherent(s.res.alloc)
  {
    hide Apply, Enabled, Fit, L.Inv;
    ReachedInv(u, s);
  }

  lemma FreeRun(u: Setup, s: State, id: Id) returns (t: State)
    requires Reached(u, s) && AtFree(s.life.pc, id)
    ensures Reached(u, t) && Lower(u, s, t) && id in s.res.hold && Coherent(s.res.alloc)
    ensures t == Goto(s, AfterFree(s.life.pc)).(res := FreedRes(u, s.res, id))
  {
    hide Reached, Coherent, Measure;
    AllocSound(u, s);
    t := FreeBudgetStep(u, s, id);
    if s.res.hold[id].handle.IsValid() {
      t := FreeKvStep(u, t, id);
    }
  }

  /** The request's output and stream once it has ended. */
  function LastTalk(t: Talk, outcome: L.Outcome): Talk {
    var marked := match outcome case Finish(reason) => Conclude(t, reason) case Fail(e) => Blame(t, e);
    Hush(Announce(marked, LastEvent(outcome)))
  }

  lemma AnnounceRun(u: Setup, s: State, id: Id, outcome: L.Outcome) returns (t: State)
    requires Reached(u, s) && EndsAt(s.life.pc, id, outcome, L.ToMark)
    ensures Reached(u, t) && Lower(u, s, t) && id in s.talks
    ensures t == Say(s.(life := L.Goto(L.Mark(s.life), s.life.pc.(end := L.ToFreeBudget))), id,
      LastTalk(s.talks[id], outcome))
  {
    hide Reached;
    var a := MarkStep(u, s, id, outcome);
    var b := AnnounceStep(u, a, id, outcome);
    t := CloseStep(u, b, id, outcome);
    LowerChain(u, s, a, b);
    LowerChain(u, s, b, t);
  }

  lemma LeaveRun(u: Setup, s: State, id: Id, outcome: L.Outcome) returns (t: State)
    requires Reached(u, s) && EndsAt(s.life.pc, id, outcome, L.ToErase)
    ensures Reached(u, t) && Lower(u, s, t) && t == s.(life := L.Tally(L.Deregister(L.EraseActive(s.life))))
  {
    hide Reached;
    var a := EraseStep(u, s, id, outcome);
    var b := DeregisterStep(u, a, id, outcome);
    t := TallyStep(u, b, id, outcome);
    LowerChain(u, s, a, b);
    LowerChain(u, s, b, t);
  }

  /** The bookkeeping of a request that has ended. */
  ghost predicate EndedLife(l: L.Life, l': L.Life, id: Id, o: L.Outcome) {
    && LifeIs(l', l.pending, Erase(l.active, id), l.registry - {id},
              l.completed + (if o.Finish? then 1 else 0), l.errored + (if o.Finish? then 0 else 1),
              l.status[id := L.Verdict(o)])
    && l.pc.Ending? && l'.pc == L.Back(l.pc.sweep) && l'.submissions == l.submissions
  }

  /** `complete_request` and `fail_request`. */
  lemma FinishRun(u: Setup, s: State, id: Id, o: L.Outcome) returns (t: State)
    requires Reached(u, s) && EndsAt(s.life.pc, id, o, L.ToMark)
    ensures Reached(u, t) && Lower(u, s, t) && id in s.talks && id in s.res.hold && Coherent(s.res.alloc)
    ensures EndedLife(s.life, t.life, id, o) && t.specs == s.specs
    ensures t.talks == s.talks[id := LastTalk(s.talks[id], o)] && t.res == FreedRes(u, s.res, id)
  {
    hide Reached, Coherent;
    var a := AnnounceRun(u, s, id, o);
    var b := FreeRun(u, a, id);
    t := LeaveRun(u, b, id, o);
    LowerChain(u, s, a, b);
    LowerChain(u, s, b, t);
  }

  /** The memory after the model has read the prompt, or failed to. */
  ghost function ReadRes(u: Setup, r: R.Res, id: Id, input: nat, fault: Option<Error>): R.Res
    requires id in r.hold
  {
    if fault.None? then R.SetLength(r, id, input) else if Coherent(r.alloc) then FreedRes(u, r, id) else r
  }

  /** `run_prefill`: the memory and the error, if any. */
  ghost function PrefilledRes(u: Setup, r: R.Res, id: Id, input: nat, d: Decision, grants: seq<Grant>,
                              fault: Option<Error>): (R.Res, Option<Error>)
    requires id in r.hold && Coherent(r.alloc) && R.Usable(d)
  {
    var (r2, refused) := R.AllocateKv(r, id, SplitDevices(u, d), grants);
    if refused.Some? then (R.UnreserveGpu(r2, id, d), refused)
    else (ReadRes(u, R.CommitGpu(r2, id, d), id, input, fault), fault)
  }

  /** Where the decode thread is after `run_prefill`. */
  function PrefilledPc(id: Id, d: Decision, fault: Option<Error>): L.Pc {
    match fault
    case None => L.Prefill(id, d, L.AtReady)
    case Some(e) => L.Ending(id, L.Fail(e), L.ToMark, None)
  }

  lemma SplitDistinct(u: Setup, s: State)
    requires Reached(u, s) && s.life.pc.Prefill?
    ensures Distinct(SplitDevices(u, s.life.pc.decision))
  {
    ReachedInv(u, s);
    SplitFacts(u, s);
  }

  lemma HeldUsable(u: Setup, s: State, id: Id)
    requires Reached(u, s) && s.life.pc.Prefill? && s.life.pc.id == id
    ensures id in s.res.hold && id in s.specs && R.Usable(s.life.pc.decision)
  {
    hide Reached, R.Inv;
    ReachedInv(u, s);
    L.HoldingPlace(s.life, u.limits);
    PhaseFact(u, s, id);
  }

  lemma ReadyRun(u: Setup, s: State, id: Id, d: Decision, fault: Option<Error>) returns (t: State)
    requires Reached(u, s) && s.life.pc == L.Prefill(id, d, L.AtCommitted)
    ensures Reached(u, t) && Lower(u, s, t) && id in s.res.hold && id in s.specs && Coherent(s.res.alloc)
    ensures t == match fault
      case None => Goto(s, L.Prefill(id, d, L.AtReady)).(res := R.SetLength(s.res, id, s.specs[id].input))
      case Some(e) => Goto(s, L.Ending(id, L.Fail(e), L.ToMark, None)).(res := FreedRes(u, s.res, id))
  {
    hide Reached, Coherent, Measure;
    AllocSound(u, s);
    t := PromptStep(u, s, id, d, fault);
    if fault.Some? {
      var m := t;
      t := FreeRun(u, m, id);
      LowerChain(u, s, m, t);
    }
  }

  lemma AllocatedRun(u: Setup, s: State, id: Id, d: Decision, fault: Option<Error>) returns (t: State)
    requires Reached(u, s) && s.life.pc == L.Prefill(id, d, L.AtAllocated)
    ensures Reached(u, t) && Lower(u, s, t) && id in s.res.hold && id in s.specs && R.Usable(d)
    ensures t == Goto(s, PrefilledPc(id, d, fault)).(
                   res := ReadRes(u, R.CommitGpu(s.res, id, d), id, s.specs[id].input, fault))
  {
    hide Reached, Coherent, Measure;
    var m := CommitStep(u, s, id, d);
    t := ReadyRun(u, m, id, d, fault);
    LowerChain(u, s, m, t);
  }

  lemma ReservedRun(u: Setup, s: State, id: Id, d: Decision, grants: seq<Grant>, fault: Option<Error>)
    returns (t: State)
    requires Reached(u, s) && s.life.pc == L.Prefill(id, d, L.AtReserved)
    ensures id in s.res.hold && id in s.specs && Coherent(s.res.alloc) && R.Usable(d)
    ensures Reached(u, t) && Lower(u, s, t)
    ensures var (r, e) := PrefilledRes(u, s.res, id, s.specs[id].input, d, grants, fault);
      t == Goto(s, PrefilledPc(id, d, e)).(res := r)
  {
    hide Reached, Coherent, Measure, Allocate;
    HeldUsable(u, s, id);
    var m := AllocateStep(u, s, id, d, grants);
    if m.life.pc.stage.AtRefused? {
      t := UnreserveStep(u, m, id, d, m.life.pc.stage.error);
    } else {
      t := AllocatedRun(u, m, id, d, fault);
    }
    LowerChain(u, s, m, t);
  }

  /** What the devices, the clock, the runtime and the sampler answer. */
  datatype Answer = Answer(expired: bool, grants: seq<Grant>, fault: Option<Error>, token: int, piece: string)

  /** The error of `run_prefill`, if any: the allocator's, or else that of the model reading the prompt. */
  function ReadFault(a: Allocator, seqLen: nat, split: seq<DeviceId>, answer: Answer): Option<Error>
    requires Coherent(a)
  {
    match Allocate(a, seqLen, split, answer.grants).1
    case Err(e) => Some(e)
    case Ok(_) => answer.fault
  }

  function DecisionOf(u: Setup, budgets: seq<Budget>, roundRobin: nat, seqLen: nat): Decision {
    if u.hasRouter then Route(u.topology, budgets, roundRobin, seqLen) else Decision(PerRequest, [])
  }

  function PrefillFault(u: Setup, budgets: seq<Budget>, roundRobin: nat, a: Allocator, seqLen: nat, answer: Answer)
    : Option<Error>
    requires Coherent(a)
  {
    ReadFault(a, seqLen, SplitDevices(u, DecisionOf(u, budgets, roundRobin, seqLen)), answer)
  }

  /** The error that ends a request before it is active: it is too late, or its prefill fails. */
  ghost function EarlyFault(u: Setup, s: State, id: Id, answer: Answer): Option<Error> {
    if answer.expired then Some(Timeout)
    else if id in s.specs && Coherent(s.res.alloc) then
      PrefillFault(u, s.res.budgets, s.res.roundRobin, s.res.alloc, s.specs[id].SeqLen(), answer)
    else None
  }

  lemma SameFailure(u: Setup, s: State, t: State, id: Id, answer: Answer)
    requires t.res == s.res && t.specs == s.specs
    ensures EarlyFault(u, t, id, answer) == EarlyFault(u, s, id, answer)
  {
    hide Allocate;
  }

  /** Whether the request gets a token. */
  predicate Speaks(t: Talk, answer: Answer) { !t.cancelled && !answer.expired && answer.fault.None? }

  /** The request's output and stream after the step: one more token if nothing prevents it. */
  function TalkAfter(t: Talk, answer: Answer, cfg: StopConfig): Talk {
    if Speaks(t, answer) then Utter(t, answer.token, answer.piece, cfg) else t
  }

  /** How the checks before a decode step, or the step itself, end a request. */
  function OutcomeOf(t: Talk, answer: Answer, cfg: StopConfig): Option<L.Outcome> {
    if t.cancelled then Some(L.Finish(Stop))
    else if answer.expired then Some(L.Fail(Timeout))
    else if answer.fault.Some? then Some(L.Fail(answer.fault.value))
    else if TalkAfter(t, answer, cfg).out.halted then Some(L.Finish(TalkAfter(t, answer, cfg).out.finish))
    else None
  }

  /** The final status that one turn of the decode loop gives a request, if any. */
  ghost function TurnEnds(t: Talk, answer: Answer, cfg: StopConfig): Option<L.Status> {
    if t.cancelled then Some(L.Completed)
    else if answer.expired || answer.fault.Some? then Some(L.Errored)
    else if MustStop(t.out.tokens + [answer.token], t.out.text + answer.piece, cfg) then Some(L.Completed)
    else None
  }

  /** What such a turn does to its output and stream: cancelled, timed out, failed, or the token that was
      sampled, recorded with its text and offered to the client; and the end, if it is one. */
  ghost predicate Turned(t: Talk, answer: Answer, cfg: StopConfig, now: Talk) {
    var e := if answer.expired then Timeout else if answer.fault.Some? then answer.fault.value else Internal;
    var (tokens, heard) := (t.out.tokens + [answer.token], Push(t.stream, Token(answer.token, answer.piece)).0);
    if t.cancelled then
      now == t.(out := t.out.(finish := Stop), stream := Close(Push(t.stream, Event.Complete(Stop)).0))
    else if answer.expired || answer.fault.Some? then
      now == t.(error := Some(e), stream := Close(Push(t.stream, Event.Failed(e)).0))
    else
      && now.out.tokens == tokens && now.out.pieces == t.out.pieces + [answer.piece]
      && now.error == t.error && !now.cancelled
      && if TurnEnds(t, answer, cfg).Some? then
           && now.out.finish == (if LengthReached(tokens, cfg) then Length else Stop)
           && now.stream == Close(Push(heard, Event.Complete(now.out.finish)).0)
         else now.out.finish == t.out.finish && now.out.text == t.out.text + answer.piece && now.stream == heard
  }

  /** Output, stream and status of a request after one turn of the decode loop. */
  ghost predicate TookTurn(cfg: StopConfig, answer: Answer, id: Id, talks: map<Id, Talk>, status: map<Id, L.Status>,
                           talks': map<Id, Talk>, status': map<Id, L.Status>)
  {
    && id in talks && id in talks' && id in status && id in status'
    && Turned(talks[id], answer, cfg, talks'[id])
    && status'[id] == match TurnEnds(talks[id], answer, cfg) case None => status[id] case Some(st) => st
  }

  /** Nothing was done to the request. */
  ghost predicate Untouched(id: Id, talks: map<Id, Talk>, status: map<Id, L.Status>,
                            talks': map<Id, Talk>, status': map<Id, L.Status>)
  {
    && (id in talks' <==> id in talks) && (id in talks ==> talks'[id] == talks[id])
    && (id in status' <==> id in status) && (id in status ==> status'[id] == status[id])
  }

  /** The first `n` requests of the batch have had one turn each, and no other request has had any. */
  ghost predicate Swept(u: Setup, specs: map<Id, Spec>, batch: seq<Id>, n: nat, entries: nat -> Answer,
                        talks: map<Id, Talk>, status: map<Id, L.Status>,
                        talks': map<Id, Talk>, status': map<Id, L.Status>)
    requires n <= |batch|
  {
    && (forall i :: 0 <= i < n ==>
          && batch[i] in specs
          && TookTurn(StopsFor(u, specs[batch[i]]), entries(i), batch[i], talks, status, talks', status'))
    && (forall id :: id !in batch[..n] ==> Untouched(id, talks, status, talks', status'))
  }

  lemma NoneSwept(u: Setup, specs: map<Id, Spec>, batch: seq<Id>, entries: nat -> Answer, talks: map<Id, Talk>,
                  status: map<Id, L.Status>)
    ensures Swept(u, specs, batch, 0, entries, talks, status, talks, status)
  {
  }

  lemma OneTurn(cfg: StopConfig, answer: Answer, id: Id, talks: map<Id, Talk>, status: map<Id, L.Status>,
                mid: map<Id, Talk>, marks: map<Id, L.Status>, talks': map<Id, Talk>, status': map<Id, L.Status>)
    requires
      || (TookTurn(cfg, answer, id, talks, status, mid, marks) && Untouched(id, mid, marks, talks', status'))
      || (Untouched(id, talks, status, mid, marks) && TookTurn(cfg, answer, id, mid, marks, talks', status'))
    ensures TookTurn(cfg, answer, id, talks, status, talks', status')
  {
    hide Turned, TurnEnds;
  }

  lemma NoTurn(id: Id, talks: map<Id, Talk>, status: map<Id, L.Status>,
               mid: map<Id, Talk>, marks: map<Id, L.Status>, talks': map<Id, Talk>, status': map<Id, L.Status>)
    requires Untouched(id, talks, status, mid, marks) && Untouched(id, mid, marks, talks', status')
    ensures Untouched(id, talks, status, talks', status')
  {
  }

  lemma SweptMore(u: Setup, specs: map<Id, Spec>, batch: seq<Id>, n: nat, entries: nat -> Answer,
                  talks: map<Id, Talk>, status: map<Id, L.Status>, mid: map<Id, Talk>, marks: map<Id, L.Status>,
                  talks': map<Id, Talk>, status': map<Id, L.Status>)
    requires n < |batch| && Distinct(batch) && Swept(u, specs, batch, n, entries, talks, status, mid, marks)
    requires batch[n] in specs
    requires TookTurn(StopsFor(u, specs[batch[n]]), entries(n), batch[n], mid, marks, talks', status')
    requires forall id :: id != batch[n] ==> Untouched(id, mid, marks, talks', status')
    ensures Swept(u, specs, batch, n + 1, entries, talks, status, talks', status')
  {
    hide TookTurn, Untouched;
    DistinctMeaning(batch);
    assert batch[..n + 1] == batch[..n] + [batch[n]];
    forall i | 0 <= i <= n
      ensures TookTurn(StopsFor(u, specs[batch[i]]), entries(i), batch[i], talks, status, talks', status')
    {
      OneTurn(StopsFor(u, specs[batch[i]]), entries(i), batch[i], talks, status, mid, marks, talks', status');
    }
    forall id | id !in batch[..n + 1] ensures Untouched(id, talks, status, talks', status') {
      NoTurn(id, talks, status, mid, marks, talks', status');
    }
  }

  lemma SweepListed(u: Setup, s: State)
    requires Reached(u, s) && s.life.pc.Sweeping?
    ensures Distinct(s.life.pc.rest) && forall id :: id in s.life.pc.rest ==> id in s.life.status
  {
    hide Reached, Fit, R.Inv;
    ReachedInv(u, s);
  }

  function LongerRes(r: R.Res, id: Id, token: bool): R.Res
    requires id in r.hold
  {
    if token then R.SetLength(r, id, r.hold[id].handle.currentLen + 1) else r
  }

  /** One entry of the snapshot has been dealt with. */
  ghost predicate Advanced(u: Setup, s: State, t: State, id: Id, answer: Answer)
    requires Known(s, id) && Coherent(s.res.alloc)
  {
    var (k, cfg, l) := (s.talks[id], StopsFor(u, s.specs[id]), s.life);
    && t.specs == s.specs
    && match OutcomeOf(k, answer, cfg)
       case None =>
         && LifeIs(t.life, l.pending, l.active, l.registry, l.completed, l.errored, l.status)
         && t.talks == s.talks[id := TalkAfter(k, answer, cfg)]
         && ResIs(t.res, s.res.hold[id := Longer(s.res.hold[id])], s.res.budgets, s.res.roundRobin, s.res.alloc)
       case Some(o) =>
         && LifeIs(t.life, l.pending, Erase(l.active, id), l.registry - {id},
                   l.completed + (if o.Finish? then 1 else 0), l.errored + (if o.Finish? then 0 else 1),
                   l.status[id := L.Verdict(o)])
         && t.talks == s.talks[id := LastTalk(TalkAfter(k, answer, cfg), o)]
         && t.res == FreedRes(u, LongerRes(s.res, id, Speaks(k, answer)), id)
  }

  lemma AdvancedTurn(u: Setup, s: State, t: State, id: Id, answer: Answer)
    requires Known(s, id) && Coherent(s.res.alloc) && Advanced(u, s, t, id, answer)
    ensures var (k, cfg, l) := (s.talks[id], StopsFor(u, s.specs[id]), s.life);
      && id in t.talks && t.talks == s.talks[id := t.talks[id]] && Turned(k, answer, cfg, t.talks[id])
      && match TurnEnds(k, answer, cfg)
         case None => LifeIs(t.life, l.pending, l.active, l.registry, l.completed, l.errored, l.status)
         case Some(st) => LifeIs(t.life, l.pending, Erase(l.active, id), l.registry - {id},
           l.completed + (if st.Completed? then 1 else 0), l.errored + (if st.Completed? then 0 else 1),
           l.status[id := st])
  {
    hide Coherent, GiveBack;
    var (k, cfg) := (s.talks[id], StopsFor(u, s.specs[id]));
    CheckMeaning(k.out.tokens + [answer.token], k.out.text + answer.piece, cfg);
  }

  /** A request that the checks or the runtime end. */
  lemma EndEntryRun(u: Setup, s: State, m: State, id: Id, rest: seq<Id>, o: L.Outcome) returns (t: State)
    requires Reached(u, m) && Lower(u, s, m) && m == Goto(s, L.Ending(id, o, L.ToMark, Some(rest)))
    ensures Reached(u, t) && Lower(u, s, t) && t.life.pc == L.Sweeping(rest) && id in s.talks && id in s.res.hold
    ensures t.specs == s.specs && t.talks == s.talks[id := LastTalk(s.talks[id], o)] && Coherent(s.res.alloc)
    ensures t.res == FreedRes(u, s.res, id)
    ensures LifeIs(t.life, s.life.pending, Erase(s.life.active, id), s.life.registry - {id},
                   s.life.completed + (if o.Finish? then 1 else 0), s.life.errored + (if o.Finish? then 0 else 1),
                   s.life.status[id := L.Verdict(o)])
  {
    hide Reached, Measure;
    t := FinishRun(u, m, id, o);
    LowerChain(u, s, m, t);
  }

  /** A request that the checks or the runtime end. */
  lemma EndRun(u: Setup, s: State, m: State, id: Id, rest: seq<Id>, answer: Answer, o: L.Outcome) returns (t: State)
    requires Reached(u, m) && Lower(u, s, m) && m == Goto(s, L.Ending(id, o, L.ToMark, Some(rest)))
    requires Known(s, id) && !Speaks(s.talks[id], answer)
    requires OutcomeOf(s.talks[id], answer, StopsFor(u, s.specs[id])) == Some(o)
    ensures Reached(u, t) && Lower(u, s, t) && t.life.pc == L.Sweeping(rest)
    ensures Coherent(s.res.alloc) && Advanced(u, s, t, id, answer)
  {
    hide Reached, Coherent;
    t := EndEntryRun(u, s, m, id, rest, o);
  }

  lemma AdvancedByLast(u: Setup, s: State, m: State, t: State, id: Id, answer: Answer)
    requires Known(s, id) && Known(m, id) && Coherent(s.res.alloc) && Coherent(m.res.alloc)
    requires Speaks(s.talks[id], answer)
    requires LifeIs(m.life, s.life.pending, s.life.active, s.life.registry, s.life.completed, s.life.errored,
      s.life.status)
    requires m.res == R.SetLength(s.res, id, s.res.hold[id].handle.currentLen + 1) && t.specs == m.specs == s.specs
    requires var k := Utter(s.talks[id], answer.token, answer.piece, StopsFor(u, s.specs[id]));
      && k.out.halted && m.talks == s.talks[id := k] && EndedLife(m.life, t.life, id, L.Finish(k.out.finish))
      && t.talks == m.talks[id := LastTalk(k, L.Finish(k.out.finish))]
    requires t.res == FreedRes(u, m.res, id)
    ensures Advanced(u, s, t, id, answer)
  {
    hide Coherent, GiveBack, Utter;
  }

  /** A request that gets a token, and goes on or has reached its end; `s` is the state before the checks. */
  lemma TokenRun(u: Setup, s: State, c: State, id: Id, rest: seq<Id>, answer: Answer) returns (t: State)
    requires Reached(u, c) && Lower(u, s, c) && c == Goto(s, L.Stepping(id, rest)) && Known(s, id)
    requires Coherent(s.res.alloc)
    requires Speaks(s.talks[id], answer)
    ensures Reached(u, t) && Lower(u, s, t) && t.life.pc == L.Sweeping(rest) && Advanced(u, s, t, id, answer)
  {
    hide Reached, Coherent, Measure;
    t := TokenStep(u, c, id, rest, answer.token, answer.piece);
    LowerChain(u, s, c, t);
    var k := Utter(s.talks[id], answer.token, answer.piece, StopsFor(u, s.specs[id]));
    if k.out.halted {
      t := LastTokenRun(u, s, t, id, rest, answer);
    }
  }

  lemma LastTokenRun(u: Setup, s: State, m: State, id: Id, rest: seq<Id>, answer: Answer) returns (t: State)
    requires Reached(u, m) && Lower(u, s, m) && Known(s, id) && Coherent(s.res.alloc) && Speaks(s.talks[id], answer)
    requires LifeIs(m.life, s.life.pending, s.life.active, s.life.registry, s.life.completed, s.life.errored,
      s.life.status)
    requires m.res == R.SetLength(s.res, id, s.res.hold[id].handle.currentLen + 1) && m.specs == s.specs
    requires var k := Utter(s.talks[id], answer.token, answer.piece, StopsFor(u, s.specs[id]));
      && k.out.halted && m.talks == s.talks[id := k]
      && m.life.pc == L.Ending(id, L.Finish(k.out.finish), L.ToMark, Some(rest))
    ensures Reached(u, t) && Lower(u, s, t) && t.life.pc == L.Sweeping(rest) && Advanced(u, s, t, id, answer)
  {
    hide Reached, Coherent;
    t := FinishRun(u, m, id, m.life.pc.outcome);
    LowerChain(u, s, m, t);
    AdvancedByLast(u, s, m, t, id, answer);
  }

  lemma AdvanceRun(u: Setup, s: State, id: Id, rest: seq<Id>, answer: Answer) returns (t: State)
    requires Reached(u, s) && s.life.pc == L.Sweeping([id] + rest)
    ensures Reached(u, t) && Lower(u, s, t) && t.life.pc == L.Sweeping(rest)
    ensures Known(s, id) && Coherent(s.res.alloc) && Advanced(u, s, t, id, answer)
  {
    hide Reached, Coherent;
    AllocSound(u, s);
    var m := EntryStep(u, s, id, rest, answer.expired);
    if s.talks[id].cancelled {
      t := EndRun(u, s, m, id, rest, answer, L.Finish(Stop));
    } else if answer.expired {
      t := EndRun(u, s, m, id, rest, answer, L.Fail(Timeout));
    } else if answer.fault.Some? {
      var f := FaultStep(u, m, id, rest, answer.fault.value);
      LowerChain(u, s, m, f);
      t := EndRun(u, s, f, id, rest, answer, L.Fail(answer.fault.value));
    } else {
      t := TokenRun(u, s, m, id, rest, answer);
    }
  }

  /** Whether `submit` accepts a request. */
  ghost predicate Accepts(u: Setup, s: State, spec: Spec) {
    && |s.life.pending| < u.limits.maxQueue
    && GpuAccepts(u, s.res, spec.SeqLen()) && CanAllocate(s.res.alloc, spec.SeqLen())
  }

  ghost predicate Submitted(s: State, n: State, id: Id, accepted: bool) {
    && LifeIs(n.life, if accepted then s.life.pending + [id] else s.life.pending, s.life.active,
              if accepted then s.life.registry + {id} else s.life.registry, s.life.completed, s.life.errored,
              s.life.status[id := if accepted then L.Queued else L.Rejected])
    && n.life.pc == s.life.pc && n.life.submissions == s.life.submissions
  }

  lemma SameChecks(u: Setup, r: R.Res, r': R.Res, n: nat)
    requires r'.budgets == r.budgets && r'.alloc == r.alloc
    ensures GpuAccepts(u, r', n) == GpuAccepts(u, r, n)
  {
  }

  /** The thread leaves `submit`: its request is queued, or rejected. */
  ghost predicate Judged(l: L.Life, n: L.Life, t: Thread, id: Id, ok: bool) {
    && LifeIs(n, if ok then l.pending + [id] else l.pending, l.active,
              if ok then l.registry + {id} else l.registry, l.completed, l.errored,
              l.status[id := if ok then L.Queued else L.Rejected])
    && n.pc == l.pc && n.submissions == l.submissions - {t}
  }

  lemma AdmittedRun(u: Setup, s: State, t: Thread, id: Id) returns (n: State)
    requires Reached(u, s) && Inside(s, t, id, L.Admitted)
    ensures Reached(u, n) && n.res == s.res && n.talks == s.talks && n.specs == s.specs
    ensures Judged(s.life, n.life, t, id, true)
  {
    hide Reached;
    ReachedOn(u, s, Register(t));
    var m := Apply(u, s, Register(t));
    ReachedOn(u, m, Enqueue(t));
    n := Apply(u, m, Enqueue(t));
    assert m.life.submissions - {t} == s.life.submissions - {t};
  }

  /** The GPU check has passed: the last check, and then registration and push. */
  lemma PlaceableRun(u: Setup, s: State, t: Thread, id: Id) returns (n: State)
    requires Reached(u, s) && Inside(s, t, id, L.GpuChecked)
    ensures Reached(u, n) && n.res == s.res && n.talks == s.talks && n.specs == s.specs
    ensures Judged(s.life, n.life, t, id, CanAllocate(s.res.alloc, s.specs[id].SeqLen()))
  {
    hide Reached;
    ReachedOn(u, s, CheckKv(t));
    n := Apply(u, s, CheckKv(t));
    if CanAllocate(s.res.alloc, s.specs[id].SeqLen()) {
      n := AdmittedRun(u, n, t, id);
      JudgedAfter(s.life, n.life, t, id, L.Admitted, true);
    }
  }

  lemma JudgedAfter(l: L.Life, n: L.Life, t: Thread, id: Id, stage: L.SubmitStage, ok: bool)
    requires t in l.submissions && Judged(L.Forward(l, t, stage), n, t, id, ok)
    ensures Judged(l, n, t, id, ok)
  {
    assert L.Forward(l, t, stage).submissions - {t} == l.submissions - {t};
  }

  /** The queue check has passed: the other checks, and then registration and push. */
  lemma CheckedRun(u: Setup, s: State, t: Thread, id: Id) returns (n: State)
    requires Reached(u, s) && Inside(s, t, id, L.QueueChecked)
    ensures Reached(u, n) && n.res == s.res && n.talks == s.talks && n.specs == s.specs
    ensures var n0 := s.specs[id].SeqLen();
      Judged(s.life, n.life, t, id, GpuAccepts(u, s.res, n0) && CanAllocate(s.res.alloc, n0))
  {
    hide Reached, Coherent;
    ReachedOn(u, s, CheckGpu(t));
    n := Apply(u, s, CheckGpu(t));
    if GpuAccepts(u, s.res, s.specs[id].SeqLen()) {
      n := PlaceableRun(u, n, t, id);
      JudgedAfter(s.life, n.life, t, id, L.GpuChecked, CanAllocate(s.res.alloc, s.specs[id].SeqLen()));
    }
  }

  /** `submit`, for a request within the context limit. */
  lemma SubmitRun(u: Setup, s: State, t: Thread, id: Id, spec: Spec) returns (n: State)
    requires Reached(u, s) && t < u.limits.threads && t !in s.life.submissions && id !in s.life.place
    requires Clamped(u, spec)
    ensures Reached(u, n) && Submitted(s, n, id, Accepts(u, s, spec))
    ensures ResIs(n.res, s.res.hold[id := R.Hold(spec.SeqLen(), NO_HANDLE, [], R.Bare)],
                  s.res.budgets, s.res.roundRobin, s.res.alloc)
    ensures n.talks == s.talks[id := NewTalk(u.capacity)] && n.specs == s.specs[id := spec]
  {
    hide Reached;
    n := OfferStep(u, s, t, id, spec);
    if |s.life.pending| < u.limits.maxQueue {
      var m := n;
      SameChecks(u, s.res, m.res, spec.SeqLen());
      n := CheckedRun(u, m, t, id);
      SubmittedBy(u, s, m, n, t, id, spec);
    }
  }

  lemma SubmittedBy(u: Setup, s: State, m: State, n: State, t: Thread, id: Id, spec: Spec)
    requires t !in s.life.submissions && |s.life.pending| < u.limits.maxQueue && id in m.specs && m.specs[id] == spec
    requires LifeIs(m.life, s.life.pending, s.life.active, s.life.registry, s.life.completed, s.life.errored,
                    s.life.status[id := L.Received])
    requires m.life.pc == s.life.pc && m.life.submissions == s.life.submissions[t := L.Submission(id, L.QueueChecked)]
    requires GpuAccepts(u, m.res, spec.SeqLen()) == GpuAccepts(u, s.res, spec.SeqLen()) && m.res.alloc == s.res.alloc
    requires Judged(m.life, n.life, t, id, GpuAccepts(u, m.res, spec.SeqLen())
      && CanAllocate(m.res.alloc, spec.SeqLen()))
    ensures Submitted(s, n, id, Accepts(u, s, spec))
  {
    hide GpuAccepts;
    assert m.life.submissions - {t} == s.life.submissions;
  }
}
