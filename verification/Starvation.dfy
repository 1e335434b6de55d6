/** What a budget that was released twice does to the requests that come later
    (src/gpu/gpu_router.cpp:81-111, src/scheduler/scheduler.cpp:145-173). */
module Starvation {
  import opened Words
  import opened KvCache
  import opened Routing
  import opened Allocator
  import opened System
  import opened Safety
  import opened Guarantees
  import opened SoloRuns
  import opened SplitPool
  import L = Lifecycle
  import R = Resources

  /** No device has anything left. */
  ghost predicate Exhausted(u: Setup, budgets: seq<Budget>) {
    && u.hasRouter && 0 < |budgets| == |u.topology.devices| <= KV_BYTES_PER_TOKEN
    && forall i :: 0 <= i < |budgets| ==> budgets[i].Available() == 0
  }

  lemma ExhaustedRefuses(u: Setup, r: R.Res, n: nat)
    requires Exhausted(u, r.budgets) && n >= 1
    ensures !GpuAccepts(u, r, n)
  {
    var perDevice := ConfigOf(r.alloc).BytesPerDevice(n);
    var share := if perDevice > 0 then perDevice else EstimateKv(n) / |r.budgets|;
    assert !r.budgets[0].CanFit(share);
    assert forall i :: 0 <= i < |r.budgets| ==> !r.budgets[i].CanFit(EstimateKv(n));
  }

  /** Nothing is queued or active, no thread in `submit` is past the queue check, and no device has
      anything left. */
  ghost predicate Starved(u: Setup, s: State) {
    && (s.life.pc == L.Filling || s.life.pc == L.Sweeping([])) && s.life.pending == [] && s.life.active == []
    && (forall t :: t in s.life.submissions ==> s.life.submissions[t].stage == L.QueueChecked)
    && Exhausted(u, s.res.budgets)
  }

  ghost predicate Idles(s: State, t: State) {
    t.res.budgets == s.res.budgets && t.life.pushed == s.life.pushed && t.life.finished == s.life.finished
  }

  lemma LengthPositive(u: Setup, s: State, t: Thread)
    requires Inv(u, s) && t in s.life.submissions
    ensures s.life.submissions[t].id in s.specs && s.specs[s.life.submissions[t].id].SeqLen() >= 1
  {
    hide R.Inv;
    L.SubmitterPlace(s.life, u.limits, t);
    assert CoupledAt(u, s, s.life.submissions[t].id);
  }

  lemma CheckStarves(u: Setup, s: State, t: Thread)
    requires Enabled(u, s, CheckGpu(t)) && Starved(u, s) && s.specs[s.life.submissions[t].id].SeqLen() >= 1
    ensures Starved(u, DoCheckGpu(u, s, t)) && Idles(s, DoCheckGpu(u, s, t))
  {
    ExhaustedRefuses(u, s.res, s.specs[s.life.submissions[t].id].SeqLen());
  }

  lemma SubmitStarves(u: Setup, s: State, step: Step)
    requires Enabled(u, s, step) && Starved(u, s) && (OfSubmit(step) || OfWatch(step)) && !step.CheckGpu?
    ensures Starved(u, Apply(u, s, step)) && Idles(s, Apply(u, s, step))
  {
    hide Coherent, GpuAccepts, CanAllocate;
  }

  lemma DecodeStarves(u: Setup, s: State, step: Step)
    requires Enabled(u, s, step) && Starved(u, s) && !OfSubmit(step) && !OfWatch(step)
    ensures Starved(u, Apply(u, s, step)) && Idles(s, Apply(u, s, step))
  {
    hide Coherent, Allocate, GiveBack;
  }

  lemma OtherStepsStarve(u: Setup, s: State, step: Step)
    requires Enabled(u, s, step) && Starved(u, s) && !step.CheckGpu?
    ensures Starved(u, Apply(u, s, step)) && Idles(s, Apply(u, s, step))
  {
    hide Apply, Enabled, Starved, Idles;
    if OfSubmit(step) || OfWatch(step) {
      SubmitStarves(u, s, step);
    } else {
      DecodeStarves(u, s, step);
    }
  }

  lemma {:induction false} RunStarves(u: Setup, s: State, steps: seq<Step>, t: State)
    requires Inv(u, s) && Starved(u, s) && Runs(u, s, steps, t)
    ensures Starved(u, t) && Idles(s, t)
    decreases |steps|
  {
    hide Reached, Inv, Fit, L.Inv, R.Inv, Coherent, Allocate;
    if steps != [] {
      if steps[0].CheckGpu? {
        LengthPositive(u, s, steps[0].thread);
        CheckStarves(u, s, steps[0].thread);
      } else {
        OtherStepsStarve(u, s, steps[0]);
      }
      StepKeeps(u, s, steps[0]);
      RunStarves(u, Apply(u, s, steps[0]), steps[1..], t);
    }
  }

  /** Minus a share, wrapped around, is more than the total. */
  lemma OverdrawnIsExhausted(u: Setup, budgets: seq<Budget>, prompt: nat)
    requires Unused(u) && SplitOverPool(u) && Overdrawn(u, budgets, prompt) && 0 < SplitCharge(u, prompt) < WORD
    requires |u.topology.devices| <= KV_BYTES_PER_TOKEN
    requires forall i :: 0 <= i < |u.budgets| ==> u.budgets[i].total + SplitCharge(u, prompt) <= WORD
    ensures Exhausted(u, budgets)
  {
    var share: int := SplitCharge(u, prompt);
    WrapUnique(0 - share, -1, WORD - share);
  }

  /** After one failed prefill of a split request, with nothing in flight, the server refuses every
      request for ever: whatever is submitted, none is queued, active or finished again. */
  lemma OverdraftStarves(u: Setup, prompt: nat) returns (t: State)
    requires Unused(u) && Sane(u) && Serves(u) && SplitOverPool(u) && SplitsAt(u, prompt)
    requires 0 < SplitCharge(u, prompt) < WORD && |u.topology.devices| <= KV_BYTES_PER_TOKEN
    requires forall i :: 0 <= i < |u.budgets| ==> u.budgets[i].total + SplitCharge(u, prompt) <= WORD
    ensures Reached(u, t) && Quiet(t, [], [])
    ensures forall steps, s :: Runs(u, t, steps, s) ==>
      s.life.pending == [] && s.life.active == [] && s.life.pushed == t.life.pushed
        && s.life.finished == t.life.finished
  {
    hide Reached, Inv, Apply, Enabled;
    t := FailedPrefillOverdraws(u, prompt);
    OverdrawnIsExhausted(u, t.res.budgets, prompt);
    ReachedInv(u, t);
    forall steps, s | Runs(u, t, steps, s)
      ensures s.life.pending == [] && s.life.active == []
      ensures s.life.pushed == t.life.pushed && s.life.finished == t.life.finished
    {
      RunStarves(u, t, steps, s);
    }
  }
}
