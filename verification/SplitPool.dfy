/** The pooled allocator under a router that splits requests. `free` leaves a split handle valid
    (src/kvcache/kv_allocator.cpp:497-529), so when a prefill fails both `run_prefill` and
    `fail_request` release the budget (src/scheduler/scheduler.cpp:219-231, 551-602). */
module SplitPool {
  import opened Wrappers
  import opened Words
  import opened KvCache
  import opened Routing
  import opened Allocator
  import opened System
  import opened Safety
  import opened Guarantees
  import opened SchedulerSteps
  import opened SoloRuns
  import P = Pool
  import L = Lifecycle
  import R = Resources

  const ME: Id := 0

  /** A request that is admitted when everything is free, and that the router then splits. */
  ghost predicate SplitsAt(u: Setup, prompt: nat) {
    prompt < u.maxContext && SplitsLength(u, prompt + 1) && Admissible(u, prompt + 1)
  }

  function Everywhere(u: Setup): Decision { Decision(TensorParallel, u.topology.devices) }

  /** What such a request is charged on each device. */
  function SplitCharge(u: Setup, prompt: nat): nat
    requires u.topology.devices != []
  {
    EstimateKv(prompt + 1) / |u.topology.devices|
  }

  /** The request is split over all devices, and its handle is valid. */
  ghost predicate Spread(u: Setup, r: R.Res, id: Id, n: nat) {
    && id in r.hold && r.hold[id].seqLen == n && r.hold[id].gpus == u.topology.devices
    && r.hold[id].handle.tensorParallel && r.hold[id].handle.IsValid()
  }

  /** `free_resources` releases the budget, and the handle is still valid. */
  lemma FreedStaysValid(u: Setup, r: R.Res, id: Id, n: nat)
    requires Spread(u, r, id, n) && Coherent(r.alloc) && r.alloc.OfPool? && u.hasRouter && |u.topology.devices| >= 2
    ensures var r' := FreedRes(u, r, id);
      Spread(u, r', id, n) && r'.alloc.OfPool? && r'.budgets == Release(r.budgets, u.topology.devices, EstimateKv(n))
  {
    P.FreeSound(r.alloc.p, r.hold[id].handle);
  }

  function AllGrants(u: Setup): seq<Grant> { seq(|u.topology.devices|, (_: nat) => Grant(1, 1)) }

  /** The prefill of a split request fails after its memory was granted. */
  lemma PrefillFails(u: Setup, r: R.Res, id: Id, n: nat, input: nat)
    requires id in r.hold && r.hold[id] == R.Hold(n, NO_HANDLE, u.topology.devices, R.Reserved)
    requires Coherent(r.alloc) && r.alloc.OfPool? && SplitOverPool(u)
    ensures var (r', e) := PrefilledRes(u, r, id, input, Everywhere(u), AllGrants(u), Some(Internal));
      && e == Some(Internal) && Spread(u, r', id, n) && r'.alloc.OfPool?
      && r'.budgets == Release(Commit(r.budgets, Everywhere(u), EstimateKv(n)), u.topology.devices, EstimateKv(n))
  {
    P.AllocateSound(r.alloc.p, n, u.topology.devices, AllGrants(u));
    var (r2, refused) := R.AllocateKv(r, id, u.topology.devices, AllGrants(u));
    var r3 := R.CommitGpu(r2, id, Everywhere(u));
    if Coherent(r3.alloc) {
      FreedStaysValid(u, r3, id, n);
    }
  }

  /** The budgets after a reservation, a commitment and one release. */
  function Settled(u: Setup, bytes: nat): seq<Budget>
    requires u.topology.devices != []
  {
    Release(Commit(Reserve(u.budgets, Everywhere(u), bytes), Everywhere(u), bytes), u.topology.devices, bytes)
  }

  /** A split request, alone on the server, up to the failure of its prefill. */
  lemma FailsFirst(u: Setup, prompt: nat) returns (t: State)
    requires Unused(u) && Sane(u) && Serves(u) && SplitOverPool(u) && SplitsAt(u, prompt)
    ensures Reached(u, t) && t.life.pc == L.Ending(ME, L.Fail(Internal), L.ToMark, None)
    ensures t.life.pending == [] && t.life.active == [] && t.life.submissions == map[]
    ensures Spread(u, t.res, ME, prompt + 1) && t.res.alloc.OfPool?
    ensures t.res.budgets == Settled(u, EstimateKv(prompt + 1))
  {
    hide Reached, Lower, Coherent;
    var a := FirstPlaced(u, ME, prompt);
    assert DecisionFor(u, Start(u), prompt + 1) == Everywhere(u);
    PrefillFails(u, a.res, ME, prompt + 1, prompt);
    t := ReservedRun(u, a, ME, Everywhere(u), AllGrants(u), Some(Internal));
  }

  /** Then `fail_request`. */
  lemma FailsAlone(u: Setup, prompt: nat) returns (t: State)
    requires Unused(u) && Sane(u) && Serves(u) && SplitOverPool(u) && SplitsAt(u, prompt)
    ensures Reached(u, t) && Quiet(t, [], []) && Spread(u, t.res, ME, prompt + 1)
    ensures t.res.budgets == Release(Settled(u, EstimateKv(prompt + 1)), u.topology.devices, EstimateKv(prompt + 1))
  {
    hide Reached, Lower;
    var s := FailsFirst(u, prompt);
    AllocSound(u, s);
    FreedStaysValid(u, s.res, ME, prompt + 1);
    t := FinishRun(u, s, ME, L.Fail(Internal));
  }

  // ---------------------------------------------------------------- the budgets afterwards

  lemma ReleasedTwice(u: Setup, bytes: nat, i: nat)
    requires |u.topology.devices| >= 2 && i < |u.budgets| && u.budgets[i].device in u.topology.devices
    requires u.budgets[i].used == 0 && u.budgets[i].reserved == 0
    ensures Release(Settled(u, bytes), u.topology.devices, bytes)[i]
         == u.budgets[i].(used := Wrap(0 - bytes / |u.topology.devices|))
  {
    var (d, budgets) := (Everywhere(u), u.budgets);
    var share: int := bytes / |d.devices|;
    assert Reserve(budgets, d, bytes)[i].used == 0;
    assert Commit(Reserve(budgets, d, bytes), d, bytes)[i].used == Wrap(share);
    WrapAdd(share, 0 - share);
    assert Release(Commit(Reserve(budgets, d, bytes), d, bytes), d.devices, bytes)[i].used == 0;
    assert Commit(Reserve(budgets, d, bytes), d, bytes)[i].reserved == 0 by {
      WrapAdd(share, 0 - share);
    }
  }

  /** Every device charges nothing. */
  ghost predicate Uncharged(budgets: seq<Budget>) {
    forall i :: 0 <= i < |budgets| ==> budgets[i].used == 0 && budgets[i].reserved == 0
  }

  /** Every budget of `u`, with minus one share charged. */
  ghost predicate Overdrawn(u: Setup, budgets: seq<Budget>, prompt: nat) {
    && u.topology.devices != [] && |budgets| == |u.budgets|
    && forall i :: 0 <= i < |budgets| ==> budgets[i] == u.budgets[i].(used := Wrap(0 - SplitCharge(u, prompt)))
  }

  /** One failed prefill of a split request leaves every device charged with minus its share: its budget
      was released twice and wrapped around. */
  lemma FailedPrefillOverdraws(u: Setup, prompt: nat) returns (t: State)
    requires Unused(u) && Sane(u) && Serves(u) && SplitOverPool(u) && SplitsAt(u, prompt)
    ensures Reached(u, t) && Quiet(t, [], []) && Spread(u, t.res, ME, prompt + 1) && Overdrawn(u, t.res.budgets, prompt)
  {
    hide Reached;
    t := FailsAlone(u, prompt);
    forall i | 0 <= i < |u.budgets|
      ensures t.res.budgets[i] == u.budgets[i].(used := Wrap(0 - SplitCharge(u, prompt)))
    {
      ReleasedTwice(u, EstimateKv(prompt + 1), i);
    }
  }

  lemma OverdrawnIsCharged(u: Setup, budgets: seq<Budget>, prompt: nat)
    requires Overdrawn(u, budgets, prompt) && budgets != [] && Wrap(SplitCharge(u, prompt)) != 0
    ensures !Uncharged(budgets)
  {
    WrapNegative(SplitCharge(u, prompt));
    assert budgets[0].used != 0;
  }
}
