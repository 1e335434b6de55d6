/** Without new requests the scheduler runs out of work: every step that does something lowers a
    measure, and until there is nothing left to do the decode thread can always take a step. */
module Drain {
  import opened Wrappers
  import opened Words
  import opened Sums
  import opened Allocator
  import opened Stream
  import opened System
  import opened Safety
  import opened Guarantees
  import opened Locality
  import L = Lifecycle
  import R = Resources

  // ---------------------------------------------------------------- the measure

  function StageRank(stage: L.SubmitStage): nat {
    match stage
    case QueueChecked => 3
    case GpuChecked => 2
    case Admitted => 1
    case Registered => 0
  }

  /** The tokens a request may still cost, and the queue it still has to pass, in units of twelve
      steps of the decode thread. */
  function Weight(l: L.Life, p: L.Place, m: Mode, maxTokens: nat, tokens: nat): int {
    match p
    case Submitting(t) => 12 * (maxTokens + 2) + if t in l.submissions then StageRank(l.submissions[t].stage) else 0
    case Waiting => 12 * (maxTokens + 1)
    case InHand => if m.OnEnd? then 0 else 12 * maxTokens
    case Running => if m.OnEnd? then 0 else 12 * (maxTokens - tokens)
    case Done => 0
    case TurnedAway => 0
  }

  function WeightOf(s: State, id: Id): int {
    if id in s.life.place && id in s.specs && id in s.talks then
      Weight(s.life, s.life.place[id], ModeOf(s.life.pc, id), s.specs[id].maxTokens, |s.talks[id].out.tokens|)
    else 0
  }

  function WeightAt(s: State): Id -> int { (id: Id) => WeightOf(s, id) }

  function PrefillRank(stage: L.PrefillStage): nat {
    match stage
    case AtReserved => 7
    case AtRefused(_) => 6
    case AtAllocated => 6
    case AtCommitted => 5
    case AtFault(_) => 4
    case AtFaultKv(_) => 3
    case AtReady => 3
  }

  function EndRank(end: L.EndStage): nat {
    match end
    case ToMark => 11
    case ToAnnounce => 10
    case ToClose => 9
    case ToFreeBudget => 8
    case ToFreeKv => 7
    case ToErase => 6
    case ToDeregister => 5
    case ToTally => 4
  }

  /** How far the decode thread is from paying a unit. */
  function Rank(l: L.Life): nat {
    match l.pc
    case Filling => 2
    case Holding(id) => if id in l.status && l.status[id].Queued? then 9 else 8
    case Prefill(_, _, stage) => PrefillRank(stage)
    case Sweeping(rest) => if rest != [] then 1 else if l.active == [] && l.pending == [] then 2 else 3
    case Stepping(_, _) => 0
    case Ending(_, _, end, _) => EndRank(end)
  }

  function Measure(s: State): int { Sum(s.life.order, WeightAt(s)) + Rank(s.life) }

  /** Nothing is queued, in hand or active. */
  ghost predicate NothingToDo(s: State) {
    (s.life.pc == L.Filling || s.life.pc == L.Sweeping([])) && s.life.active == [] && s.life.pending == []
  }

  /** A step of `submit`, or of the decode thread while there is something to do. */
  ghost predicate Works(s: State, step: Step) {
    !OfWatch(step) && (OfSubmit(step) || !NothingToDo(s))
  }

  // ---------------------------------------------------------------- what a step costs the request it works on

  /** What the invariant says of the request that a step works on. */
  ghost predicate WorkFacts(s: State, step: Step, x: Id) {
    && Recorded(s, x) && s.specs[x].maxTokens >= 1
    && (OfSubmit(step) && !step.Offer? ==> s.life.place[x] == L.Submitting(step.thread) && !L.Touches(s.life.pc, x))
    && (step.TakeNext? ==> s.life.place[x].Waiting? && s.life.status[x].Queued?)
    && (s.life.pc.Holding? || s.life.pc.Prefill? ==>
          !OfSubmit(step) ==> s.life.place[x].InHand? && s.talks[x].out.tokens == [])
    && (OfEntry(step) ==>
          s.life.place[x].Running? && ModeOf(s.life.pc, x).Idle? && |s.talks[x].out.tokens| < s.specs[x].maxTokens)
    && (s.life.pc.Ending? && !OfSubmit(step) ==> s.life.place[x].InHand? || s.life.place[x].Running?)
  }

  /** The step pays: the request's weight and the rank together go down. */
  ghost predicate Pays(u: Setup, s: State, step: Step, x: Id)
    requires Enabled(u, s, step)
  {
    var t := Apply(u, s, step);
    t.life.order == s.life.order && WeightOf(t, x) + Rank(t.life) < WeightOf(s, x) + Rank(s.life)
  }

  lemma SubmitPays(u: Setup, s: State, step: Step, x: Id)
    requires Enabled(u, s, step) && WorksOn(u, s, step) == Some(x) && WorkFacts(s, step, x)
    requires OfSubmit(step) && !step.Offer?
    ensures Pays(u, s, step, x)
  {
    hide Coherent, Allocate, GiveBack;
  }

  lemma FillPays(u: Setup, s: State, step: Step, x: Id)
    requires Enabled(u, s, step) && WorksOn(u, s, step) == Some(x) && WorkFacts(s, step, x) && OfFill(step)
    ensures Pays(u, s, step, x)
  {
    hide Coherent, Allocate, GiveBack;
  }

  lemma PrefillPays(u: Setup, s: State, step: Step, x: Id)
    requires Enabled(u, s, step) && WorksOn(u, s, step) == Some(x) && WorkFacts(s, step, x) && OfPrefill(step)
    ensures Pays(u, s, step, x)
  {
    hide Coherent, Allocate, GiveBack;
  }

  lemma EntryPays(u: Setup, s: State, step: Step, x: Id)
    requires Enabled(u, s, step) && WorksOn(u, s, step) == Some(x) && WorkFacts(s, step, x) && OfEntry(step)
    ensures Pays(u, s, step, x)
  {
    hide Coherent, Allocate, GiveBack;
  }

  predicate OfFree(step: Step) { step.FreeBudget? || step.FreeKv? }

  lemma FreeBudgetPays(u: Setup, s: State, x: Id)
    requires Enabled(u, s, FreeBudget) && WorksOn(u, s, FreeBudget) == Some(x) && WorkFacts(s, FreeBudget, x)
    ensures Pays(u, s, FreeBudget, x)
  {
    hide Coherent, Allocate, GiveBack, R.FreeBudget;
  }

  lemma EndPays(u: Setup, s: State, step: Step, x: Id)
    requires Enabled(u, s, step) && WorksOn(u, s, step) == Some(x) && WorkFacts(s, step, x) && OfEnd(step)
    requires !OfFree(step)
    ensures Pays(u, s, step, x)
  {
    hide Coherent, Allocate, GiveBack;
  }

  lemma LeavePays(u: Setup, s: State, step: Step, x: Id)
    requires Enabled(u, s, step) && WorksOn(u, s, step) == Some(x) && WorkFacts(s, step, x) && OfLeave(step)
    requires !OfFree(step)
    ensures Pays(u, s, step, x)
  {
    hide Coherent, Allocate, GiveBack;
  }

  lemma WorkPays(u: Setup, s: State, step: Step, x: Id)
    requires Enabled(u, s, step) && WorksOn(u, s, step) == Some(x) && WorkFacts(s, step, x) && !step.Offer?
    ensures Pays(u, s, step, x)
  {
    hide Coherent, Allocate;
    if OfSubmit(step) {
      SubmitPays(u, s, step, x);
    } else if OfFill(step) {
      FillPays(u, s, step, x);
    } else if OfPrefill(step) {
      PrefillPays(u, s, step, x);
    } else if OfEntry(step) {
      EntryPays(u, s, step, x);
    } else if step.FreeBudget? {
      FreeBudgetPays(u, s, x);
    } else if step.FreeKv? {
    } else if OfEnd(step) {
      EndPays(u, s, step, x);
    } else {
      LeavePays(u, s, step, x);
    }
  }

  // ---------------------------------------------------------------- the invariant gives the facts

  lemma TokenFacts(u: Setup, s: State, x: Id)
    requires Inv(u, s) && x in s.life.place
    ensures Recorded(s, x) && TokensFit(s, x)
  {
    assert CoupledAt(u, s, x);
  }

  lemma WaitingStatus(l: L.Life, u: L.Limits)
    requires L.Inv(l, u) && l.pending != []
    ensures L.At(l.place, l.pending[0], L.Waiting) && l.pending[0] in l.status && l.status[l.pending[0]].Queued?
  {
    L.PendingPlace(l, u);
    assert L.FitsAt(l, l.pending[0]);
  }

  lemma SubmitPlaceFacts(u: Setup, s: State, step: Step, x: Id)
    requires Inv(u, s) && Enabled(u, s, step) && WorksOn(u, s, step) == Some(x) && OfSubmit(step) && !step.Offer?
    ensures L.At(s.life.place, x, L.Submitting(step.thread)) && !L.Touches(s.life.pc, x)
  {
    hide Fit, R.Inv;
    L.SubmitterPlace(s.life, u.limits, step.thread);
  }

  lemma EntryPlaceFacts(u: Setup, s: State, step: Step, x: Id)
    requires Inv(u, s) && Enabled(u, s, step) && WorksOn(u, s, step) == Some(x) && OfEntry(step)
    ensures L.At(s.life.place, x, L.Running) && ModeOf(s.life.pc, x).Idle?
  {
    hide Fit, L.Inv, R.Inv, Coherent;
    if s.life.pc.Stepping? {
      L.SteppingPlace(s.life, u.limits);
    } else {
      L.SweepPlace(s.life, u.limits);
    }
  }

  lemma HandPlaceFacts(u: Setup, s: State, step: Step, x: Id)
    requires Inv(u, s) && Enabled(u, s, step) && WorksOn(u, s, step) == Some(x)
    requires !OfSubmit(step) && !OfEntry(step) && !step.TakeNext?
    ensures s.life.pc.Holding? || s.life.pc.Prefill? || s.life.pc.Ending?
    ensures !s.life.pc.Ending? ==> L.At(s.life.place, x, L.InHand) && !ModeOf(s.life.pc, x).OnEnd?
    ensures s.life.pc.Ending? ==> x in s.life.place && (s.life.place[x].InHand? || s.life.place[x].Running?)
  {
    hide L.Inv, R.Inv, Coherent;
    if s.life.pc.Ending? {
      L.TouchedPlace(s.life, u.limits, x);
    } else {
      L.HoldingPlace(s.life, u.limits);
    }
  }

  ghost predicate PlaceFacts(s: State, step: Step, x: Id) {
    if OfSubmit(step) then !step.Offer? && L.At(s.life.place, x, L.Submitting(step.thread)) && !L.Touches(s.life.pc, x)
    else if step.TakeNext? then
      s.life.pc.Filling? && L.At(s.life.place, x, L.Waiting) && x in s.life.status && s.life.status[x].Queued?
    else if OfEntry(step) then
      (s.life.pc.Sweeping? || s.life.pc.Stepping?) && L.At(s.life.place, x, L.Running) && ModeOf(s.life.pc, x).Idle?
    else if s.life.pc.Ending? then x in s.life.place && (s.life.place[x].InHand? || s.life.place[x].Running?)
    else L.At(s.life.place, x, L.InHand) && !ModeOf(s.life.pc, x).OnEnd?
  }

  ghost predicate TokensFit(s: State, x: Id)
    requires Recorded(s, x)
  {
    var n := |s.talks[x].out.tokens|;
    && s.specs[x].maxTokens >= 1 && n <= s.specs[x].maxTokens
    && (!s.life.place[x].Done? && !ModeOf(s.life.pc, x).OnEnd? ==> n < s.specs[x].maxTokens)
    && (!s.life.place[x].Done? && !s.life.place[x].Running? && !ModeOf(s.life.pc, x).OnEnd? ==> n == 0)
  }

  lemma FactsTogether(s: State, step: Step, x: Id)
    requires PlaceFacts(s, step, x) && Recorded(s, x) && TokensFit(s, x)
    ensures WorkFacts(s, step, x)
  {
  }

  lemma WorkHasPlaceFacts(u: Setup, s: State, step: Step, x: Id)
    requires Inv(u, s) && Enabled(u, s, step) && WorksOn(u, s, step) == Some(x) && !step.Offer?
    ensures PlaceFacts(s, step, x)
  {
    if OfSubmit(step) {
      SubmitPlaceFacts(u, s, step, x);
    } else if step.TakeNext? {
      WaitingStatus(s.life, u.limits);
    } else if OfEntry(step) {
      EntryPlaceFacts(u, s, step, x);
    } else {
      HandPlaceFacts(u, s, step, x);
    }
  }

  lemma WorkHasFacts(u: Setup, s: State, step: Step, x: Id)
    requires Inv(u, s) && Enabled(u, s, step) && WorksOn(u, s, step) == Some(x) && !step.Offer?
    ensures x in s.life.order && WorkFacts(s, step, x)
  {
    hide Enabled, R.Inv;
    WorkHasPlaceFacts(u, s, step, x);
    TokenFacts(u, s, x);
    L.OrderPlace(s.life, u.limits, x);
    FactsTogether(s, step, x);
  }

  // ---------------------------------------------------------------- the others weigh what they weighed

  lemma ThreadOf(l: L.Life, u: L.Limits, id: Id)
    requires L.Inv(l, u) && id in l.place && l.place[id].Submitting?
    ensures l.place[id].thread in l.submissions && l.submissions[l.place[id].thread].id == id
  {
  }

  lemma SameAtWeighsSame(s: State, t: State, x: Option<Id>, id: Id)
    requires SameAt(s, t, id) && SameThreads(s, t, x) && x != Some(id)
    requires s.life.place[id].Submitting? ==>
      s.life.place[id].thread in s.life.submissions && s.life.submissions[s.life.place[id].thread].id == id
    ensures WeightOf(t, id) == WeightOf(s, id)
  {
  }

  lemma SameWeight(u: Setup, s: State, step: Step, id: Id)
    requires Inv(u, s) && Enabled(u, s, step) && id in s.life.order && WorksOn(u, s, step) != Some(id)
    ensures WeightOf(Apply(u, s, step), id) == WeightOf(s, id)
  {
    hide Apply, Enabled, Fit, R.Inv;
    L.OrderPlace(s.life, u.limits, id);
    InvRecords(u, s, id);
    StepLocal(u, s, step, id);
    if s.life.place[id].Submitting? {
      ThreadOf(s.life, u.limits, id);
    }
    SameAtWeighsSame(s, Apply(u, s, step), WorksOn(u, s, step), id);
  }

  /** A step that works on a request lowers the measure. */
  lemma WorkLowers(u: Setup, s: State, step: Step, x: Id)
    requires Inv(u, s) && Enabled(u, s, step) && WorksOn(u, s, step) == Some(x) && !step.Offer?
    ensures Measure(Apply(u, s, step)) < Measure(s)
  {
    hide Apply, Enabled, Fit, R.Inv;
    var t := Apply(u, s, step);
    WorkHasFacts(u, s, step, x);
    WorkPays(u, s, step, x);
    L.ActiveLists(s.life, u.limits);
    forall id | id in s.life.order && id != x ensures WeightAt(s)(id) == WeightAt(t)(id) {
      SameWeight(u, s, step, id);
    }
    SumChange(s.life.order, WeightAt(s), WeightAt(t), x);
  }

  /** Taking a snapshot and ending a sweep. */
  lemma SweepRank(u: Setup, s: State, step: Step)
    requires Enabled(u, s, step) && WorksOn(u, s, step) == None && u.limits.maxActive >= 1
    ensures Apply(u, s, step).life.order == s.life.order && Rank(Apply(u, s, step).life) <= Rank(s.life)
    ensures Works(s, step) ==> Rank(Apply(u, s, step).life) < Rank(s.life)
  {
    hide Coherent, Allocate;
  }

  lemma RestLowers(u: Setup, s: State, step: Step)
    requires Inv(u, s) && Enabled(u, s, step) && WorksOn(u, s, step) == None && u.limits.maxActive >= 1
    ensures Measure(Apply(u, s, step)) <= Measure(s)
    ensures Works(s, step) ==> Measure(Apply(u, s, step)) < Measure(s)
  {
    hide Inv, Apply, Enabled;
    var t := Apply(u, s, step);
    SweepRank(u, s, step);
    forall id | id in s.life.order ensures WeightAt(s)(id) == WeightAt(t)(id) {
      SameWeight(u, s, step, id);
    }
    SumSame(s.life.order, WeightAt(s), WeightAt(t));
  }

  /** Every step but a new request keeps the measure or lowers it, and lowers it if it does work. */
  lemma StepLowers(u: Setup, s: State, step: Step)
    requires Inv(u, s) && Enabled(u, s, step) && !step.Offer? && u.limits.maxActive >= 1
    ensures Measure(Apply(u, s, step)) <= Measure(s)
    ensures Works(s, step) ==> Measure(Apply(u, s, step)) < Measure(s)
  {
    hide Inv, Apply, Enabled;
    match WorksOn(u, s, step)
    case Some(x) => WorkLowers(u, s, step, x);
    case None => RestLowers(u, s, step);
  }

  lemma WeightNonNegative(u: Setup, s: State, id: Id)
    requires Inv(u, s)
    ensures WeightOf(s, id) >= 0
  {
    hide Inv, R.Inv;
    if id in s.life.place {
      TokenFacts(u, s, id);
    }
  }

  lemma MeasureNonNegative(u: Setup, s: State)
    requires Inv(u, s)
    ensures Measure(s) >= 0
  {
    hide Inv;
    forall id | id in s.life.order ensures WeightAt(s)(id) >= 0 {
      WeightNonNegative(u, s, id);
    }
    SumNonNegative(s.life.order, WeightAt(s));
  }

  // ---------------------------------------------------------------- every run drains

  /** How many steps of a run do work. */
  ghost function Effort(u: Setup, s: State, steps: seq<Step>, t: State): nat
    requires Runs(u, s, steps, t)
    decreases |steps|
  {
    if steps == [] then 0
    else (if Works(s, steps[0]) then 1 else 0) + Effort(u, Apply(u, s, steps[0]), steps[1..], t)
  }

  predicate NoOffers(steps: seq<Step>) {
    steps == [] || (!steps[0].Offer? && NoOffers(steps[1..]))
  }

  /** What one step spends of the measure. */
  lemma StepSpends(u: Setup, s: State, step: Step)
    requires Inv(u, s) && Enabled(u, s, step) && !step.Offer? && u.limits.maxActive >= 1
    ensures Inv(u, Apply(u, s, step))
    ensures (if Works(s, step) then 1 else 0) <= Measure(s) - Measure(Apply(u, s, step))
  {
    hide *;
    StepLowers(u, s, step);
    StepKeeps(u, s, step);
  }

  lemma {:induction false} EffortLowers(u: Setup, s: State, steps: seq<Step>, t: State)
    requires Inv(u, s) && Runs(u, s, steps, t) && NoOffers(steps) && u.limits.maxActive >= 1
    ensures Effort(u, s, steps, t) <= Measure(s) - Measure(t)
    decreases |steps|
  {
    hide Inv, Apply, Enabled;
    if steps == [] {
      assert t == s && Effort(u, s, steps, t) == 0;
    } else {
      StepSpends(u, s, steps[0]);
      EffortLowers(u, Apply(u, s, steps[0]), steps[1..], t);
    }
  }

  /** However the threads interleave and whatever fails, a run without new requests contains at most
      `Measure` steps that do work. */
  lemma DrainsInBoundedWork(u: Setup, s: State, steps: seq<Step>, t: State)
    requires Inv(u, s) && Runs(u, s, steps, t) && NoOffers(steps) && u.limits.maxActive >= 1
    ensures Effort(u, s, steps, t) <= Measure(s)
  {
    hide *;
    EffortLowers(u, s, steps, t);
    RunKeeps(u, s, steps, t);
    MeasureNonNegative(u, t);
  }

  // ---------------------------------------------------------------- and never gets stuck

  lemma HoldingStatus(l: L.Life, u: L.Limits)
    requires L.Inv(l, u) && l.pc.Holding?
    ensures l.pc.id in l.status && (l.status[l.pc.id].Queued? || l.status[l.pc.id].Prefilling?)
  {
    L.HoldingPlace(l, u);
    assert L.FitsAt(l, l.pc.id);
  }

  predicate HasRequest(pc: L.Pc) {
    pc.Holding? || pc.Prefill? || pc.Stepping? || pc.Ending? || (pc.Sweeping? && pc.rest != [])
  }

  function RequestOf(pc: L.Pc): Id
    requires HasRequest(pc)
  {
    if pc.Sweeping? then pc.rest[0] else pc.id
  }

  function NextInPrefill(stage: L.PrefillStage): Step {
    match stage
    case AtReserved => AllocateKv([])
    case AtRefused(_) => UnreserveGpu
    case AtAllocated => CommitGpu
    case AtCommitted => RunPrefill(None)
    case AtReady => Activate
    case AtFault(_) => FreeBudget
    case AtFaultKv(_) => FreeKv
  }

  function NextInEnd(end: L.EndStage): Step {
    match end
    case ToMark => Mark
    case ToAnnounce => AnnounceEnd
    case ToClose => CloseQueue
    case ToFreeBudget => FreeBudget
    case ToFreeKv => FreeKv
    case ToErase => EraseActive
    case ToDeregister => Deregister
    case ToTally => Tally
  }

  function NextOfDecodeThread(u: Setup, s: State): Step {
    match s.life.pc
    case Filling => if CanFill(u, s) then TakeNext else Snapshot
    case Holding(id) => if id in s.life.status && s.life.status[id].Queued? then TestTimeouts(false) else PlaceOnGpu
    case Prefill(_, _, stage) => NextInPrefill(stage)
    case Sweeping(rest) => if rest == [] then EndSweep else CheckEntry(false)
    case Stepping(_, _) => FaultEntry(Internal)
    case Ending(_, _, end, _) => NextInEnd(end)
  }

  /** The facts that keep the decode thread going. */
  ghost predicate Unstuck(s: State) {
    && Coherent(s.res.alloc)
    && (s.life.pc.Prefill? ==> R.Usable(s.life.pc.decision))
    && (HasRequest(s.life.pc) ==> Known(s, RequestOf(s.life.pc)))
    && (s.life.pc.Holding? ==>
          && s.life.pc.id in s.life.status
          && (s.life.status[s.life.pc.id].Queued? || s.life.status[s.life.pc.id].Prefilling?))
  }

  lemma UnstuckEnabled(u: Setup, s: State)
    requires Unstuck(s)
    ensures Enabled(u, s, NextOfDecodeThread(u, s))
  {
    hide Coherent;
  }

  lemma TouchedKnown(u: Setup, s: State)
    requires Inv(u, s) && HasRequest(s.life.pc)
    ensures Known(s, RequestOf(s.life.pc))
  {
    hide R.Inv;
    if s.life.pc.Sweeping? {
      L.SweepPlace(s.life, u.limits);
    } else {
      L.TouchedPlace(s.life, u.limits, s.life.pc.id);
    }
  }

  lemma NeverStuck(u: Setup, s: State)
    requires Inv(u, s)
    ensures Unstuck(s)
  {
    if s.life.pc.Holding? {
      HoldingStatus(s.life, u.limits);
    }
    if HasRequest(s.life.pc) {
      TouchedKnown(u, s);
    }
  }

  lemma OfDecodeThread(u: Setup, s: State)
    ensures !OfSubmit(NextOfDecodeThread(u, s)) && !OfWatch(NextOfDecodeThread(u, s))
  {
  }

  /** In every reachable state the decode thread can take a step. */
  lemma DecodeThreadNeverStuck(u: Setup, s: State)
    requires Inv(u, s)
    ensures Enabled(u, s, NextOfDecodeThread(u, s))
    ensures !OfSubmit(NextOfDecodeThread(u, s)) && !OfWatch(NextOfDecodeThread(u, s))
  {
    hide *;
    NeverStuck(u, s);
    UnstuckEnabled(u, s);
    OfDecodeThread(u, s);
  }

  lemma RunsThen(u: Setup, s: State, step: Step, steps: seq<Step>, t: State)
    requires Enabled(u, s, step) && Runs(u, Apply(u, s, step), steps, t)
    ensures Runs(u, s, [step] + steps, t)
  {
    hide Apply, Enabled;
    assert ([step] + steps)[1..] == steps;
  }

  lemma NoOffersThen(step: Step, steps: seq<Step>)
    requires !step.Offer? && NoOffers(steps)
    ensures NoOffers([step] + steps)
  {
    assert ([step] + steps)[1..] == steps;
  }

  /** One step of the decode thread while there is something to do. */
  lemma DecodeThreadSpends(u: Setup, s: State)
    requires Inv(u, s) && !NothingToDo(s) && u.limits.maxActive >= 1
    ensures Enabled(u, s, NextOfDecodeThread(u, s)) && !NextOfDecodeThread(u, s).Offer?
    ensures var next := Apply(u, s, NextOfDecodeThread(u, s)); Inv(u, next) && 0 <= Measure(next) < Measure(s)
  {
    hide Inv, Apply, Enabled;
    DecodeThreadNeverStuck(u, s);
    StepSpends(u, s, NextOfDecodeThread(u, s));
    MeasureNonNegative(u, Apply(u, s, NextOfDecodeThread(u, s)));
  }

  /** From every reachable state the decode thread alone, in at most `Measure` steps, gets to a state
      with nothing left to do. */
  lemma {:induction false} DrainsToIdle(u: Setup, s: State) returns (steps: seq<Step>, t: State)
    requires Inv(u, s) && u.limits.maxActive >= 1
    ensures Runs(u, s, steps, t) && NoOffers(steps) && NothingToDo(t) && |steps| <= Measure(s)
    decreases Measure(s)
  {
    hide Inv, Apply, Enabled;
    MeasureNonNegative(u, s);
    if NothingToDo(s) {
      return [], s;
    }
    DecodeThreadSpends(u, s);
    var step := NextOfDecodeThread(u, s);
    var rest, end := DrainsToIdle(u, Apply(u, s, step));
    RunsThen(u, s, step, rest, end);
    NoOffersThen(step, rest);
    return [step] + rest, end;
  }

  // ---------------------------------------------------------------- what is left

  lemma IdlePlace(l: L.Life, u: L.Limits, id: Id)
    requires L.Inv(l, u) && id in l.place && l.submissions == map[] && l.active == [] && l.pending == []
    requires l.pc.Filling? || l.pc.Sweeping?
    ensures l.place[id].Done? || l.place[id].TurnedAway?
    ensures id in l.status && L.Terminal(l.status[id]) && id !in l.registry
  {
    assert L.FitsAt(l, id);
  }

  /** Once there is nothing left to do and no thread is in `submit`, every request ever made has its
      final status, the registry is empty and no KV allocation is live. */
  lemma DrainedIsClean(u: Setup, t: State)
    requires Reached(u, t) && NothingToDo(t) && t.life.submissions == map[]
    ensures forall id :: id in t.specs ==> id in t.life.status && L.Terminal(t.life.status[id])
    ensures t.life.registry == {}
    ensures Live(t.res.alloc) == {}
  {
    hide Reached, Inv, R.Inv;
    HandlesFreedOnce(u, t);
    ReachedInv(u, t);
    EveryoneTerminal(u, t);
  }

  /** And every budget is back at zero, but for what failed prefills of split requests released twice
      under the pooled allocator. */
  lemma DrainedBudgets(u: Setup, t: State, i: nat)
    requires Reached(u, t) && NothingToDo(t) && i < |t.res.budgets|
    ensures t.res.budgets[i].reserved == 0 && t.res.budgets[i].used == Wrap(0 - Overdraft(t, t.res.budgets[i].device))
    ensures !SplitOverPool(u) ==> t.res.budgets[i].used == 0
  {
    hide Runs;
    BudgetsExact(u, t, i);
    NoneActive(t, t.res.budgets[i].device);
    if !SplitOverPool(u) {
      BudgetsReturnUnsplit(u, t, i);
    }
  }

  lemma EveryoneTerminal(u: Setup, t: State)
    requires Inv(u, t) && NothingToDo(t) && t.life.submissions == map[]
    ensures forall id :: id in t.specs ==> id in t.life.status && L.Terminal(t.life.status[id])
    ensures t.life.registry == {}
  {
    hide R.Inv;
    forall id | id in t.life.place
      ensures id in t.life.status && L.Terminal(t.life.status[id]) && id !in t.life.registry
    {
      IdlePlace(t.life, u.limits, id);
    }
    assert forall id :: id in t.life.registry ==> id in t.life.place;
  }
}
