/** Each step works on one request and leaves every other one as it is. */
module Locality {
  import opened Wrappers
  import opened Stream
  import opened System
  import opened Safety
  import A = Allocator
  import L = Lifecycle

  /** The request whose bookkeeping a step may change. */
  ghost function WorksOn(u: Setup, s: State, step: Step): Option<Id> {
    if !Enabled(u, s, step) then None
    else
      match step
      case Offer(_, id, _, _, _) => Some(id)
      case CheckGpu(t) => Some(s.life.submissions[t].id)
      case CheckKv(t) => Some(s.life.submissions[t].id)
      case Register(t) => Some(s.life.submissions[t].id)
      case Enqueue(t) => Some(s.life.submissions[t].id)
      case Cancel(_) => None
      case Consume(_) => None
      case TakeNext => Some(s.life.pending[0])
      case Snapshot => None
      case EndSweep => None
      case CheckEntry(_) => Some(s.life.pc.rest[0])
      case _ => Some(s.life.pc.id)
  }

  /** The place, status, memory and output of `id` are the same; a cancellation is never undone. */
  ghost predicate SameAt(s: State, t: State, id: Id) {
    && id in s.life.place && id in t.life.place && t.life.place[id] == s.life.place[id]
    && id in s.life.status && id in t.life.status && t.life.status[id] == s.life.status[id]
    && Known(s, id) && Known(t, id) && t.specs[id] == s.specs[id] && t.res.hold[id] == s.res.hold[id]
    && t.talks[id].out == s.talks[id].out && t.talks[id].error == s.talks[id].error
    && (s.talks[id].cancelled ==> t.talks[id].cancelled)
    && t.talks[id].stream.closed == s.talks[id].stream.closed
    && t.talks[id].stream.accepted == s.talks[id].stream.accepted
    && ModeOf(t.life.pc, id) == ModeOf(s.life.pc, id)
  }

  /** The client's queue is the same. */
  ghost predicate SameStream(s: State, t: State, id: Id) {
    id in s.talks && id in t.talks && t.talks[id].stream == s.talks[id].stream
  }

  /** A thread in `submit` with a request other than `x` stays where it is. */
  ghost predicate SameThreads(s: State, t: State, x: Option<Id>) {
    forall h :: h in s.life.submissions && x != Some(s.life.submissions[h].id) ==>
      h in t.life.submissions && t.life.submissions[h] == s.life.submissions[h]
  }

  ghost predicate Recorded(s: State, id: Id) {
    id in s.life.place && id in s.life.status && Known(s, id)
  }

  lemma OfferLocal(u: Setup, s: State, step: Step, id: Id)
    requires Enabled(u, s, step) && Recorded(s, id) && WorksOn(u, s, step) != Some(id) && step.Offer?
    ensures SameAt(s, Apply(u, s, step), id) && SameThreads(s, Apply(u, s, step), WorksOn(u, s, step))
    ensures SameStream(s, Apply(u, s, step), id)
  {
    hide A.Coherent, A.Allocate, A.GiveBack, A.CanAllocate;
  }

  lemma SubmitStepsLocal(u: Setup, s: State, step: Step, id: Id)
    requires Enabled(u, s, step) && Recorded(s, id) && WorksOn(u, s, step) != Some(id) && OfSubmit(step) && !step.Offer?
    ensures SameAt(s, Apply(u, s, step), id) && SameThreads(s, Apply(u, s, step), WorksOn(u, s, step))
    ensures SameStream(s, Apply(u, s, step), id)
  {
    hide A.Coherent, A.Allocate, A.GiveBack, A.CanAllocate;
  }

  lemma WatchStepsLocal(u: Setup, s: State, step: Step, id: Id)
    requires Enabled(u, s, step) && Recorded(s, id) && OfWatch(step)
    ensures SameAt(s, Apply(u, s, step), id) && Apply(u, s, step).life.submissions == s.life.submissions
    ensures step != Consume(id) ==> SameStream(s, Apply(u, s, step), id)
  {
    hide A.Coherent, A.Allocate, A.GiveBack, A.CanAllocate;
  }

  lemma SweepStepsLocal(u: Setup, s: State, step: Step, id: Id)
    requires Enabled(u, s, step) && Recorded(s, id) && OfSweep(step)
    ensures SameAt(s, Apply(u, s, step), id) && Apply(u, s, step).life.submissions == s.life.submissions
    ensures step != Consume(id) ==> SameStream(s, Apply(u, s, step), id)
  {
    hide A.Coherent, A.Allocate, A.GiveBack, A.CanAllocate;
  }

  lemma TakeStepsLocal(u: Setup, s: State, step: Step, id: Id)
    requires Enabled(u, s, step) && Recorded(s, id) && WorksOn(u, s, step) != Some(id)
    requires (step.TakeNext? || step.TestTimeouts?)
    ensures SameAt(s, Apply(u, s, step), id) && Apply(u, s, step).life.submissions == s.life.submissions
    ensures SameStream(s, Apply(u, s, step), id)
  {
    hide A.Coherent, A.Allocate, A.GiveBack, A.CanAllocate;
  }

  lemma PlaceStepsLocal(u: Setup, s: State, step: Step, id: Id)
    requires Enabled(u, s, step) && Recorded(s, id) && WorksOn(u, s, step) != Some(id)
    requires (step.PlaceOnGpu? || step.AllocateKv?)
    ensures SameAt(s, Apply(u, s, step), id) && Apply(u, s, step).life.submissions == s.life.submissions
    ensures SameStream(s, Apply(u, s, step), id)
  {
    hide A.Coherent, A.Allocate, A.GiveBack, A.CanAllocate;
  }

  lemma SettleStepsLocal(u: Setup, s: State, step: Step, id: Id)
    requires Enabled(u, s, step) && Recorded(s, id) && WorksOn(u, s, step) != Some(id)
    requires (step.UnreserveGpu? || step.CommitGpu?)
    ensures SameAt(s, Apply(u, s, step), id) && Apply(u, s, step).life.submissions == s.life.submissions
    ensures SameStream(s, Apply(u, s, step), id)
  {
    hide A.Coherent, A.Allocate, A.GiveBack, A.CanAllocate;
  }

  lemma ReadStepsLocal(u: Setup, s: State, step: Step, id: Id)
    requires Enabled(u, s, step) && Recorded(s, id) && WorksOn(u, s, step) != Some(id)
    requires (step.RunPrefill? || step.Activate?)
    ensures SameAt(s, Apply(u, s, step), id) && Apply(u, s, step).life.submissions == s.life.submissions
    ensures SameStream(s, Apply(u, s, step), id)
  {
    hide A.Coherent, A.Allocate, A.GiveBack, A.CanAllocate;
  }

  lemma CheckEntryLocal(u: Setup, s: State, step: Step, id: Id)
    requires Enabled(u, s, step) && Recorded(s, id) && WorksOn(u, s, step) != Some(id) && step.CheckEntry?
    ensures SameAt(s, Apply(u, s, step), id) && Apply(u, s, step).life.submissions == s.life.submissions
    ensures SameStream(s, Apply(u, s, step), id)
  {
    hide A.Coherent, A.Allocate, A.GiveBack, A.CanAllocate;
  }

  lemma FaultEntryLocal(u: Setup, s: State, step: Step, id: Id)
    requires Enabled(u, s, step) && Recorded(s, id) && WorksOn(u, s, step) != Some(id) && step.FaultEntry?
    ensures SameAt(s, Apply(u, s, step), id) && Apply(u, s, step).life.submissions == s.life.submissions
    ensures SameStream(s, Apply(u, s, step), id)
  {
    hide A.Coherent, A.Allocate, A.GiveBack, A.CanAllocate;
  }

  lemma TokenLocal(u: Setup, s: State, step: Step, id: Id)
    requires Enabled(u, s, step) && Recorded(s, id) && WorksOn(u, s, step) != Some(id) && step.TokenEntry?
    ensures SameAt(s, Apply(u, s, step), id) && Apply(u, s, step).life.submissions == s.life.submissions
    ensures SameStream(s, Apply(u, s, step), id)
  {
    hide A.Coherent, A.Allocate, A.GiveBack, A.CanAllocate;
  }

  lemma FreeBudgetLocal(u: Setup, s: State, id: Id)
    requires Enabled(u, s, FreeBudget) && Recorded(s, id) && WorksOn(u, s, FreeBudget) != Some(id)
    ensures SameAt(s, Apply(u, s, FreeBudget), id) && Apply(u, s, FreeBudget).life.submissions == s.life.submissions
    ensures SameStream(s, Apply(u, s, FreeBudget), id)
  {
    hide A.Coherent, A.Allocate, A.GiveBack;
  }

  lemma MarkLocal(u: Setup, s: State, id: Id)
    requires Enabled(u, s, Mark) && Recorded(s, id) && WorksOn(u, s, Mark) != Some(id)
    ensures SameAt(s, Apply(u, s, Mark), id) && Apply(u, s, Mark).life.submissions == s.life.submissions
    ensures SameStream(s, Apply(u, s, Mark), id)
  {
    hide A.Coherent, A.Allocate, A.GiveBack, A.CanAllocate;
  }

  lemma EndStepsLocal(u: Setup, s: State, step: Step, id: Id)
    requires Enabled(u, s, step) && Recorded(s, id) && WorksOn(u, s, step) != Some(id)
    requires step.AnnounceEnd? || step.CloseQueue?
    ensures SameAt(s, Apply(u, s, step), id) && Apply(u, s, step).life.submissions == s.life.submissions
    ensures SameStream(s, Apply(u, s, step), id)
  {
    hide A.Coherent, A.Allocate, A.GiveBack, A.CanAllocate;
  }

  lemma LeaveStepsLocal(u: Setup, s: State, step: Step, id: Id)
    requires Enabled(u, s, step) && Recorded(s, id) && WorksOn(u, s, step) != Some(id)
    requires step.EraseActive? || step.Deregister?
    ensures SameAt(s, Apply(u, s, step), id) && Apply(u, s, step).life.submissions == s.life.submissions
    ensures SameStream(s, Apply(u, s, step), id)
  {
    hide A.Coherent, A.Allocate, A.GiveBack, A.CanAllocate;
  }

  lemma TallyLocal(u: Setup, s: State, step: Step, id: Id)
    requires Enabled(u, s, step) && Recorded(s, id) && WorksOn(u, s, step) != Some(id) && step.Tally?
    ensures SameAt(s, Apply(u, s, step), id) && Apply(u, s, step).life.submissions == s.life.submissions
    ensures SameStream(s, Apply(u, s, step), id)
  {
    hide A.Coherent, A.Allocate, A.GiveBack, A.CanAllocate;
  }

  lemma FreeKvLocal(u: Setup, s: State, id: Id)
    requires Enabled(u, s, FreeKv) && Recorded(s, id) && WorksOn(u, s, FreeKv) != Some(id)
    ensures SameAt(s, Apply(u, s, FreeKv), id) && Apply(u, s, FreeKv).life.submissions == s.life.submissions
    ensures SameStream(s, Apply(u, s, FreeKv), id)
  {
    hide A.Coherent, A.Allocate, A.GiveBack;
  }

  /** No step changes a request that it does not work on. */
  lemma StepLocal(u: Setup, s: State, step: Step, id: Id)
    requires Enabled(u, s, step) && Recorded(s, id) && WorksOn(u, s, step) != Some(id)
    ensures SameAt(s, Apply(u, s, step), id) && SameThreads(s, Apply(u, s, step), WorksOn(u, s, step))
    ensures step != Consume(id) ==> SameStream(s, Apply(u, s, step), id)
  {
    hide Apply, Enabled, SameAt, SameStream;
    if step.Offer? {
      OfferLocal(u, s, step, id);
    } else if OfSubmit(step) {
      SubmitStepsLocal(u, s, step, id);
    } else if OfWatch(step) {
      WatchStepsLocal(u, s, step, id);
    } else if OfSweep(step) {
      SweepStepsLocal(u, s, step, id);
    } else if step.TakeNext? || step.TestTimeouts? {
      TakeStepsLocal(u, s, step, id);
    } else if OfFill(step) {
      PlaceStepsLocal(u, s, step, id);
    } else if step.UnreserveGpu? || step.CommitGpu? {
      SettleStepsLocal(u, s, step, id);
    } else if OfPrefill(step) {
      ReadStepsLocal(u, s, step, id);
    } else if step.TokenEntry? {
      TokenLocal(u, s, step, id);
    } else if step.CheckEntry? {
      CheckEntryLocal(u, s, step, id);
    } else if step.FaultEntry? {
      FaultEntryLocal(u, s, step, id);
    } else if step.FreeBudget? {
      FreeBudgetLocal(u, s, id);
    } else if step.FreeKv? {
      FreeKvLocal(u, s, id);
    } else if step.Mark? {
      MarkLocal(u, s, id);
    } else if OfEnd(step) {
      EndStepsLocal(u, s, step, id);
    } else if step.Tally? {
      TallyLocal(u, s, step, id);
    } else {
      LeaveStepsLocal(u, s, step, id);
    }
  }

  lemma InvRecords(u: Setup, s: State, id: Id)
    requires Inv(u, s) && id in s.life.place
    ensures Recorded(s, id)
  {
    hide R.Inv;
  }

  /** No step works on a finished request. */
  lemma WorkIsUnfinished(u: Setup, s: State, step: Step, id: Id)
    requires Inv(u, s) && Enabled(u, s, step) && L.At(s.life.place, id, L.Done)
    ensures WorksOn(u, s, step) != Some(id)
  {
    hide L.Inv, R.Inv;
    if OfSubmit(step) {
      if !step.Offer? {
        L.SubmitterPlace(s.life, u.limits, step.thread);
      }
    } else if step.TakeNext? {
      L.PendingPlace(s.life, u.limits);
    } else if step.CheckEntry? {
      L.SweepPlace(s.life, u.limits);
    } else if L.Touches(s.life.pc, id) {
      L.TouchedPlace(s.life, u.limits, id);
    }
  }

  // ---------------------------------------------------------------- finished is final

  /** The outcome of a finished request is the same in both states. */
  ghost predicate StillFinal(s: State, t: State, id: Id) {
    && L.At(t.life.place, id, L.Done) && Recorded(s, id) && Recorded(t, id)
    && t.life.status[id] == s.life.status[id] && t.talks[id].out == s.talks[id].out
    && t.talks[id].error == s.talks[id].error
    && t.res.hold[id] == s.res.hold[id] && t.talks[id].stream.accepted == s.talks[id].stream.accepted
  }

  lemma FinalStep(u: Setup, s: State, step: Step, id: Id)
    requires Inv(u, s) && Enabled(u, s, step) && L.At(s.life.place, id, L.Done)
    ensures StillFinal(s, Apply(u, s, step), id)
  {
    hide Inv, Apply, Enabled;
    InvRecords(u, s, id);
    WorkIsUnfinished(u, s, step, id);
    StepLocal(u, s, step, id);
  }

  /** A finished request is never finished again: its status, its output, its memory and the events
      sent to its client stay what they are, over every continuation of the run. */
  lemma {:induction false} FinishedForever(u: Setup, s: State, steps: seq<Step>, t: State, id: Id)
    requires Inv(u, s) && Runs(u, s, steps, t) && L.At(s.life.place, id, L.Done)
    ensures StillFinal(s, t, id)
    decreases |steps|
  {
    hide Inv, Apply, Enabled;
    InvRecords(u, s, id);
    if steps != [] {
      FinalStep(u, s, steps[0], id);
      StepKeeps(u, s, steps[0]);
      FinishedForever(u, Apply(u, s, steps[0]), steps[1..], t, id);
    }
  }
}
