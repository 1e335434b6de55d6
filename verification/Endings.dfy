/** What the client of a request is told at its end, for every interleaving that starts with nothing
    submitted (src/scheduler/scheduler.cpp:506-589). */
module Endings {
  import opened Wrappers
  import opened Stream
  import opened Talks
  import opened System
  import opened Safety
  import opened Guarantees
  import opened Locality
  import opened Delivery
  import opened Sessions
  import A = Allocator
  import L = Lifecycle

  /** A request that has been marked: its status, reason and error are those of its outcome. */
  ghost predicate Marks(t: Talk, st: L.Status, outcome: L.Outcome) {
    match outcome
    case Finish(reason) => st.Completed? && t.out.finish == reason
    case Fail(e) => st.Errored? && t.error == Some(e)
  }

  /** An error is recorded exactly for a request that has failed. */
  ghost predicate Blamed(t: Talk, st: L.Status) { t.error.Some? <==> st.Errored? }

  /** The terminal event tells how the request ended. */
  ghost predicate Tells(e: Event, t: Talk, st: L.Status) {
    || (st.Completed? && e == Event.Complete(t.out.finish))
    || (st.Errored? && t.error.Some? && e == Event.Failed(t.error.value))
  }

  ghost predicate SaidOf(t: Talk, st: L.Status, m: Mode) {
    && Blamed(t, st) && (!L.Terminal(st) && !t.out.halted ==> t.out.finish.NoReason?)
    && (m.OnEnd? && !m.end.ToMark? ==> Marks(t, st, m.outcome))
    && forall e :: e in t.stream.accepted && !e.Token? ==> Tells(e, t, st)
  }

  ghost predicate SaidAt(s: State, id: Id) {
    Recorded(s, id) ==> SaidOf(s.talks[id], s.life.status[id], ModeOf(s.life.pc, id))
  }

  ghost predicate Said(s: State) {
    forall id {:trigger SaidAt(s, id)} :: id in s.talks ==> SaidAt(s, id)
  }

  /** A request without a final status has been sent tokens only, and none is marked before its time. */
  ghost predicate Quiet(s: State, id: Id)
    requires Recorded(s, id)
  {
    && (!L.Terminal(s.life.status[id]) ==> TokensOnly(s.talks[id].stream.accepted))
    && (s.life.pc.Ending? && s.life.pc.id == id && s.life.pc.end.ToMark? ==> !L.Terminal(s.life.status[id]))
  }

  /** The request that a step works on. */
  ghost predicate Involved(u: Setup, s: State, step: Step, x: Id) {
    WorksOn(u, s, step) == Some(x) && Recorded(s, x) && SaidAt(s, x) && Quiet(s, x)
  }

  lemma SubmitSaid(u: Setup, s: State, step: Step, x: Id)
    requires Enabled(u, s, step) && Involved(u, s, step, x) && OfSubmit(step) && !step.Offer?
    requires !L.Terminal(s.life.status[x]) && ModeOf(s.life.pc, x).Idle?
    ensures SaidAt(Apply(u, s, step), x)
  {
    hide A.Coherent, A.Allocate, A.GiveBack, A.CanAllocate;
  }

  lemma FillSaid(u: Setup, s: State, step: Step, x: Id)
    requires Enabled(u, s, step) && Involved(u, s, step, x) && OfFill(step)
    requires !L.Terminal(s.life.status[x])
    ensures SaidAt(Apply(u, s, step), x)
  {
    hide A.Coherent, A.Allocate, A.GiveBack, A.CanAllocate;
  }

  lemma PrefillSaid(u: Setup, s: State, step: Step, x: Id)
    requires Enabled(u, s, step) && Involved(u, s, step, x) && OfPrefill(step)
    requires !L.Terminal(s.life.status[x])
    ensures SaidAt(Apply(u, s, step), x)
  {
    hide A.Coherent, A.Allocate, A.GiveBack, A.CanAllocate;
  }

  lemma EntrySaid(u: Setup, s: State, step: Step, x: Id)
    requires Enabled(u, s, step) && Involved(u, s, step, x) && OfEntry(step)
    requires !L.Terminal(s.life.status[x]) && (s.life.pc.Stepping? ==> !s.talks[x].out.halted)
    ensures SaidAt(Apply(u, s, step), x)
  {
    hide A.Coherent, A.Allocate, A.GiveBack, A.CanAllocate;
  }

  lemma MarkSaid(u: Setup, s: State, x: Id)
    requires Enabled(u, s, Mark) && Involved(u, s, Mark, x)
    ensures SaidAt(Apply(u, s, Mark), x)
  {
    hide A.Coherent, A.Allocate, A.GiveBack, A.CanAllocate;
  }

  lemma AnnounceSaid(u: Setup, s: State, x: Id)
    requires Enabled(u, s, AnnounceEnd) && Involved(u, s, AnnounceEnd, x)
    ensures SaidAt(Apply(u, s, AnnounceEnd), x)
  {
    hide A.Coherent, A.Allocate, A.GiveBack, A.CanAllocate;
  }

  lemma FreeSaid(u: Setup, s: State, step: Step, x: Id)
    requires Enabled(u, s, step) && Involved(u, s, step, x) && (step.FreeBudget? || step.FreeKv?)
    ensures SaidAt(Apply(u, s, step), x)
  {
    hide A.Coherent, A.Allocate, A.GiveBack, A.CanAllocate;
  }

  lemma LeaveSaid(u: Setup, s: State, step: Step, x: Id)
    requires Enabled(u, s, step) && Involved(u, s, step, x)
    requires step.CloseQueue? || step.EraseActive? || step.Deregister? || step.Tally?
    ensures SaidAt(Apply(u, s, step), x)
  {
    hide A.Coherent, A.Allocate, A.GiveBack, A.CanAllocate;
  }

  /** What the invariant says of the request that a step works on. */
  lemma WorkQuiet(u: Setup, s: State, step: Step, id: Id)
    requires Inv(u, s) && Enabled(u, s, step) && WorksOn(u, s, step) == Some(id) && !step.Offer?
    ensures Recorded(s, id) && Quiet(s, id)
    ensures OfSubmit(step) || OfFill(step) || OfPrefill(step) || OfEntry(step) ==> !L.Terminal(s.life.status[id])
    ensures OfSubmit(step) ==> ModeOf(s.life.pc, id).Idle?
  {
    hide Inv, Enabled, WorksOn;
    WorkPlace(u, s, step, id);
    InvRecords(u, s, id);
    Facts(u, s, id);
    if s.life.pc.Ending? && s.life.pc.id == id {
      StandsFact(u, s);
    } else {
      OpenFact(u, s, id);
    }
  }

  /** No token is asked for once generation has halted. */
  lemma EntryOpen(u: Setup, s: State, step: Step, id: Id)
    requires Inv(u, s) && Enabled(u, s, step) && OfEntry(step) && WorksOn(u, s, step) == Some(id)
    ensures s.life.pc.Stepping? ==> s.life.pc.id == id && id in s.talks && !s.talks[id].out.halted
  {
    hide R.Inv, TalkOk;
    if s.life.pc.Stepping? {
      assert CoupledAt(u, s, s.life.pc.id);
    }
  }

  lemma WorkSaid(u: Setup, s: State, step: Step, id: Id)
    requires Inv(u, s) && Enabled(u, s, step) && WorksOn(u, s, step) == Some(id) && !step.Offer? && SaidAt(s, id)
    ensures SaidAt(Apply(u, s, step), id)
  {
    hide Inv, Apply, Enabled, SaidAt, Quiet;
    WorkQuiet(u, s, step, id);
    if OfSubmit(step) {
      SubmitSaid(u, s, step, id);
    } else if OfFill(step) {
      FillSaid(u, s, step, id);
    } else if OfPrefill(step) {
      PrefillSaid(u, s, step, id);
    } else if OfEntry(step) {
      EntryOpen(u, s, step, id);
      EntrySaid(u, s, step, id);
    } else if step.Mark? {
      MarkSaid(u, s, id);
    } else if step.AnnounceEnd? {
      AnnounceSaid(u, s, id);
    } else if step.FreeBudget? || step.FreeKv? {
      FreeSaid(u, s, step, id);
    } else {
      LeaveSaid(u, s, step, id);
    }
  }

  lemma NewSaid(u: Setup, s: State, step: Step, id: Id)
    requires Enabled(u, s, step) && id !in s.life.place && !L.Touches(s.life.pc, id)
    requires id in Apply(u, s, step).talks && id !in s.talks
    ensures SaidAt(Apply(u, s, step), id)
  {
    hide A.Coherent, A.Allocate, A.GiveBack, A.CanAllocate;
    assert step.Offer? && step.id == id;
  }

  lemma StepSaid(u: Setup, s: State, step: Step, id: Id)
    requires Inv(u, s) && Enabled(u, s, step) && Said(s) && id in Apply(u, s, step).talks
    ensures SaidAt(Apply(u, s, step), id)
  {
    hide Inv, Apply, Enabled;
    if id !in s.life.place {
      Untouched(u, s, id);
      NewSaid(u, s, step, id);
    } else {
      InvRecords(u, s, id);
      assert SaidAt(s, id);
      if WorksOn(u, s, step) == Some(id) && !step.Offer? {
        WorkSaid(u, s, step, id);
      } else {
        if step.Offer? {
          OfferIsNew(u, s, step, id);
        }
        StepLocal(u, s, step, id);
      }
    }
  }

  lemma OfferIsNew(u: Setup, s: State, step: Step, id: Id)
    requires Enabled(u, s, step) && id in s.life.place && step.Offer?
    ensures WorksOn(u, s, step) != Some(id)
  {
  }

  lemma {:induction false} RunSaid(u: Setup, s: State, steps: seq<Step>, t: State)
    requires Inv(u, s) && Said(s) && Runs(u, s, steps, t)
    ensures Said(t)
    decreases |steps|
  {
    hide Inv, Apply, Enabled, SaidAt;
    if steps != [] {
      var next := Apply(u, s, steps[0]);
      forall id | id in next.talks ensures SaidAt(next, id) {
        StepSaid(u, s, steps[0], id);
      }
      StepKeeps(u, s, steps[0]);
      RunSaid(u, next, steps[1..], t);
    }
  }

  /** In every reachable state. A client is told what happened: an accepted event that is not a token is
      the completion with the request's finish reason if the request has completed, and otherwise the
      failure with the error that the request ended with. If nothing was dropped, then once the stream is
      closed that event has been accepted, right after all the tokens. */
  lemma LastWord(u: Setup, t: State, id: Id)
    requires Reached(u, t) && id in t.talks
    ensures id in t.life.status
    ensures var (k, st) := (t.talks[id], t.life.status[id]);
      && (forall e :: e in k.stream.accepted && !e.Token? ==>
            if st.Completed? then e == Event.Complete(k.out.finish)
            else st.Errored? && k.error.Some? && e == Event.Failed(k.error.value))
      && (k.error.Some? <==> st.Errored?)
      && (k.stream.closed && k.stream.dropped == 0 ==>
            |k.stream.accepted| == |k.out.tokens| + 1 && !k.stream.accepted[|k.out.tokens|].Token?)
  {
    hide Reached, Inv, Runs;
    var s, steps := Origin(u, t);
    RunSaid(u, s, steps, t);
    ReachedInv(u, t);
    Facts(u, t, id);
    assert SaidAt(t, id);
  }

  /** A cancellation that comes after the check of `decode_loop` and before the decode step ends the request
      without a token, as completed for no reason: what the client is told is `Complete(NoReason)`. */
  lemma LateCancel(u: Setup, s: State, step: Step)
    requires Reached(u, s) && Enabled(u, s, step) && (step.TokenEntry? || step.FaultEntry?)
    requires s.talks[s.life.pc.id].cancelled
    ensures var (t, id) := (Apply(u, s, step), s.life.pc.id);
      t == Goto(s, L.Ending(id, L.Finish(NoReason), L.ToMark, Some(s.life.pc.rest)))
  {
    hide Reached, Inv, Runs;
    var id := s.life.pc.id;
    var s0, steps := Origin(u, s);
    RunSaid(u, s0, steps, s);
    ReachedInv(u, s);
    WorkQuiet(u, s, step, id);
    EntryOpen(u, s, step, id);
    assert SaidAt(s, id);
  }
}
