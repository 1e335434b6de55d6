/** Admission and reservation are apart: `submit` asks the router (src/scheduler/scheduler.cpp:145-173) and
    `run_prefill` reserves later (src/scheduler/scheduler.cpp:182-193), without asking again. */
module Overrun {
  import opened Wrappers
  import opened Words
  import opened Sums
  import opened KvCache
  import opened Routing
  import opened Allocator
  import opened System
  import opened Safety
  import opened Guarantees
  import opened SchedulerSteps
  import opened SoloRuns
  import opened SplitPool
  import opened Vetting
  import L = Lifecycle
  import R = Resources

  // ---------------------------------------------------------------- one request at a time

  /** The share of every list of devices that a request was ever assigned is within the totals. */
  ghost predicate GpusFit(u: Setup, h: R.Hold) {
    forall i :: 0 <= i < |u.budgets| ==> Wrap(R.ShareOn(h, u.budgets[i].device)) <= u.budgets[i].total
  }

  ghost predicate AllFit(u: Setup, s: State) {
    forall id :: id in s.res.hold ==> GpusFit(u, s.res.hold[id])
  }

  /** The shares of split requests, as the counters see them, are within the totals. */
  ghost predicate SharesFit(u: Setup) {
    forall prompt: nat, i :: SplitsAt(u, prompt) && 0 <= i < |u.budgets| ==>
      Wrap(SplitCharge(u, prompt)) <= u.budgets[i].total
  }

  lemma OtherStepsFit(u: Setup, s: State, step: Step)
    requires Enabled(u, s, step) && !step.Offer? && !step.PlaceOnGpu? && AllFit(u, s)
    ensures AllFit(u, Apply(u, s, step))
  {
    hide Apply, Enabled;
    StepHolds(u, s, step);
    SameGpusFit(u, s.res.hold, Apply(u, s, step));
  }

  lemma SameGpusFit(u: Setup, hold: map<Id, R.Hold>, t: State)
    requires SameGpus(hold, t.res.hold) && forall id :: id in hold ==> GpusFit(u, hold[id])
    ensures AllFit(u, t)
  {
    forall id | id in t.res.hold ensures GpusFit(u, t.res.hold[id]) {
      assert GpusFit(u, hold[id]);
    }
  }

  lemma OfferFits(u: Setup, s: State, step: Step)
    requires Enabled(u, s, step) && step.Offer? && AllFit(u, s)
    ensures AllFit(u, Apply(u, s, step))
  {
    hide Enabled;
    forall id | id in Apply(u, s, step).res.hold ensures GpusFit(u, Apply(u, s, step).res.hold[id]) {
      assert id in s.res.hold && id != step.id ==> GpusFit(u, s.res.hold[id]);
    }
  }

  /** On idle budgets the router assigns devices that have room. */
  lemma RoutedFits(u: Setup, r: R.Res, h: R.Hold, prompt: nat)
    requires Unused(u) && Distinct(u.topology.devices) && SharesFit(u) && r.budgets == u.budgets
    requires prompt < u.maxContext && Admissible(u, prompt + 1)
    requires h.seqLen == prompt + 1 && h.gpus == DecisionFor(u, r, prompt + 1).devices
    ensures GpusFit(u, h)
  {
    hide Coherent;
    if u.hasRouter {
      var (n, bytes) := (prompt + 1, EstimateKv(prompt + 1));
      if SplitsLength(u, n) {
        assert SplitsAt(u, prompt);
        forall i | 0 <= i < |u.budgets| ensures Wrap(R.ShareOn(h, u.budgets[i].device)) <= u.budgets[i].total {
          assert Wrap(SplitCharge(u, prompt)) <= u.budgets[i].total;
        }
      } else {
        DistinctMeaning(u.topology.devices);
        PlacedOnOneFits(u.topology, u.budgets, r.roundRobin, n, bytes, ConfigOf(u.alloc).BytesPerDevice(n));
        var d := DecisionFor(u, r, n);
        forall i | 0 <= i < |u.budgets| ensures Wrap(R.ShareOn(h, u.budgets[i].device)) <= u.budgets[i].total {
          assert Within(Reserve(u.budgets, d, bytes)[i]);
        }
      }
    }
  }

  /** When a request is placed and no other may be active, the budgets are as at the start. */
  lemma PlacedOnIdle(u: Setup, s: State)
    requires Reached(u, s) && Enabled(u, s, PlaceOnGpu) && u.limits.maxActive <= 1 && BudgetsReturn(u)
    ensures s.res.budgets == u.budgets && Unused(u)
  {
    ReachedVetted(u, s);
    assert Uncharged(s.res.budgets);
  }

  lemma PlacedIsAdmissible(u: Setup, s: State)
    requires Inv(u, s) && AllVetted(u, s) && Enabled(u, s, PlaceOnGpu)
    ensures var (id, n) := (s.life.pc.id, s.specs[s.life.pc.id].SeqLen());
      1 <= n <= u.maxContext && Admissible(u, n) && s.res.hold[id].seqLen == n && Distinct(u.topology.devices)
  {
    hide L.Inv, R.Inv;
    var id := s.life.pc.id;
    L.HoldingPlace(s.life, u.limits);
    assert CoupledAt(u, s, id) && VettedAt(u, s, id);
  }

  lemma PlaceFits(u: Setup, s: State)
    requires Enabled(u, s, PlaceOnGpu) && AllFit(u, s) && SharesFit(u) && Unused(u) && s.res.budgets == u.budgets
    requires var (id, n) := (s.life.pc.id, s.specs[s.life.pc.id].SeqLen());
      1 <= n <= u.maxContext && Admissible(u, n) && s.res.hold[id].seqLen == n && Distinct(u.topology.devices)
    ensures AllFit(u, DoPlaceOnGpu(u, s))
  {
    var (id, t) := (s.life.pc.id, DoPlaceOnGpu(u, s));
    forall x | x in t.res.hold ensures GpusFit(u, t.res.hold[x]) {
      if x == id {
        RoutedFits(u, s.res, t.res.hold[id], s.specs[id].SeqLen() - 1);
      } else {
        assert GpusFit(u, s.res.hold[x]);
      }
    }
  }

  lemma StepFits(u: Setup, s: State, step: Step)
    requires Reached(u, s) && Enabled(u, s, step) && u.limits.maxActive <= 1 && BudgetsReturn(u) && SharesFit(u)
    requires AllFit(u, s)
    ensures AllFit(u, Apply(u, s, step))
  {
    hide Reached, Inv, Enabled, Allocate;
    if step.Offer? {
      OfferFits(u, s, step);
    } else if step.PlaceOnGpu? {
      PlacedOnIdle(u, s);
      ReachedVetted(u, s);
      PlacedIsAdmissible(u, s);
      PlaceFits(u, s);
    } else {
      OtherStepsFit(u, s, step);
    }
  }

  lemma {:induction false} RunFits(u: Setup, s: State, steps: seq<Step>, t: State)
    requires Reached(u, s) && Runs(u, s, steps, t) && u.limits.maxActive <= 1 && BudgetsReturn(u) && SharesFit(u)
    requires AllFit(u, s)
    ensures AllFit(u, t)
    decreases |steps|
  {
    hide Apply, Enabled;
    if steps != [] {
      StepFits(u, s, steps[0]);
      ReachedOn(u, s, steps[0]);
      RunFits(u, Apply(u, s, steps[0]), steps[1..], t);
    }
  }

  lemma ReachedFits(u: Setup, t: State)
    requires Reached(u, t) && u.limits.maxActive <= 1 && BudgetsReturn(u) && SharesFit(u)
    ensures AllFit(u, t)
  {
    hide Apply, Enabled;
    var s, steps :| Init(u, s) && Sane(u) && Runs(u, s, steps, t);
    assert Runs(u, s, [], s);
    RunFits(u, s, steps, t);
  }

  // ---------------------------------------------------------------- one charge at a time

  ghost predicate Charging(p: R.Phase) { p.Reserved? || p.Allocated? || p.Charged? }

  /** The only request that may be charged. */
  function Charger(l: L.Life): Id {
    if l.pc.Prefill? then l.pc.id else if l.active != [] then l.active[0] else 0
  }

  lemma OneCharger(u: Setup, t: State, id: Id)
    requires Inv(u, t) && u.limits.maxActive <= 1 && id in t.life.order && id != Charger(t.life)
    ensures id in t.res.hold && !Charging(t.res.hold[id].phase)
  {
    hide Fit, R.Inv;
    L.OrderPlace(t.life, u.limits, id);
    L.ActivePlace(t.life, u.limits, id);
    PhaseFact(u, t, id);
    NotCharging(u, t, id);
  }

  lemma NotCharging(u: Setup, t: State, id: Id)
    requires L.Inv(t.life, u.limits) && u.limits.maxActive <= 1 && id != Charger(t.life) && id in t.life.place
    requires id in t.res.hold && PhaseFits(t.life.place[id], t.res.hold[id].phase, ModeOf(t.life.pc, id))
    requires id in t.life.active <==> t.life.place[id].Running?
    ensures !Charging(t.res.hold[id].phase)
  {
  }

  /** A counter pair that only one request moves is within its total. */
  lemma WithinByOne(b: Budget, order: seq<Id>, hold: map<Id, R.Hold>, x: Id)
    requires R.BudgetOk(b, order, hold) && Distinct(order) && b.total < WORD
    requires forall id :: id in order ==> id in hold && Wrap(R.OverdrawnBy(hold[id], b.device)) == 0
    requires forall id :: id in order && id != x ==> !Charging(hold[id].phase)
    requires x in order ==> Wrap(R.ShareOn(hold[x], b.device)) <= b.total
    ensures Within(b)
  {
    hide Reached;
    forall id | id in order && id != x
      ensures Wrap(R.ReservedAt(hold, b.device)(id)) == 0 && Wrap(R.UsedAt(hold, b.device)(id)) == 0
    {
      WrapNegative(R.OverdrawnBy(hold[id], b.device));
    }
    SumWrapsOne(order, R.ReservedAt(hold, b.device), x);
    SumWrapsOne(order, R.UsedAt(hold, b.device), x);
    if x in order {
      WrapNegative(R.OverdrawnBy(hold[x], b.device));
    }
  }

  lemma WithinAt(u: Setup, t: State, i: nat)
    requires Inv(u, t) && AllVetted(u, t) && Frame(Start(u), t.res) && Unused(u) && AllFit(u, t)
    requires u.limits.maxActive <= 1 && NoneShows(u) && i < |t.res.budgets|
    ensures Within(t.res.budgets[i])
  {
    hide Fit, Coherent;
    var (b, x) := (t.res.budgets[i], Charger(t.life));
    forall id | id in t.life.order ensures id in t.res.hold && Wrap(R.OverdrawnBy(t.res.hold[id], b.device)) == 0 {
      L.OrderPlace(t.life, u.limits, id);
      PhaseFact(u, t, id);
      OverdrawnUnseen(u, t, id, b.device);
    }
    forall id | id in t.life.order && id != x ensures !Charging(t.res.hold[id].phase) {
      OneCharger(u, t, id);
    }
    if x in t.life.order {
      assert GpusFit(u, t.res.hold[x]);
    }
    CounterIsSum(u, t, i);
    WithinByOne(b, t.life.order, t.res.hold, x);
  }

  lemma DividingSharesFit(u: Setup)
    requires Unused(u) && (SplitsLength(u, u.topology.threshold + 1) ==>
      && |u.topology.devices| <= 8 && 8 % |u.topology.devices| == 0
      && DefaultModel(ConfigOf(u.alloc), |u.topology.devices|))
    ensures SharesFit(u)
  {
    forall prompt: nat, i | SplitsAt(u, prompt) && 0 <= i < |u.budgets|
      ensures Wrap(SplitCharge(u, prompt)) <= u.budgets[i].total
    {
      SplitShare(ConfigOf(u.alloc), |u.topology.devices|, prompt + 1);
    }
  }

  ghost predicate BudgetsWithin(u: Setup) {
    forall t, i :: Reached(u, t) && 0 <= i < |t.res.budgets| ==> Within(t.res.budgets[i])
  }

  lemma StaysWithin(u: Setup, t: State, i: nat)
    requires Reached(u, t) && u.limits.maxActive <= 1 && BudgetsReturn(u) && SharesFit(u) && i < |t.res.budgets|
    requires Unused(u) && Sane(u)
    ensures Within(t.res.budgets[i])
  {
    hide Reached, Inv, Unused;
    BudgetsReturnIff(u);
    ReachedFits(u, t);
    ReachedVetted(u, t);
    WithinAt(u, t, i);
  }

  lemma FirstOverruns(u: Setup, prompt: nat, i: nat) returns (t: State)
    requires Unused(u) && Sane(u) && Serves(u) && SplitsAt(u, prompt) && i < |u.budgets|
    requires Wrap(SplitCharge(u, prompt)) > u.budgets[i].total
    ensures Reached(u, t) && i < |t.res.budgets| && !Within(t.res.budgets[i])
  {
    hide Reached, Coherent;
    t := FirstPlaced(u, ME, prompt);
    assert DecisionFor(u, Start(u), prompt + 1) == Everywhere(u);
    assert t.res.budgets[i].reserved == Wrap(SplitCharge(u, prompt));
  }

  /** With one active request at a time, and budgets that return, every budget stays within its total in
      every run if and only if the shares of the split requests that are admitted are within the totals;
      so always if the device count divides the KV heads. */
  lemma BudgetsWithinIff(u: Setup)
    requires Unused(u) && Sane(u) && Opens(u) && u.limits.maxActive == 1 && BudgetsReturn(u)
    ensures BudgetsWithin(u) <==>
      forall prompt: nat, i :: SplitsAt(u, prompt) && 0 <= i < |u.budgets| ==>
        Wrap(SplitCharge(u, prompt)) <= u.budgets[i].total
  {
    hide Reached, Unused;
    if SharesFit(u) {
      forall t, i | Reached(u, t) && 0 <= i < |t.res.budgets| ensures Within(t.res.budgets[i]) {
        StaysWithin(u, t, i);
      }
    } else {
      var prompt: nat, i :| SplitsAt(u, prompt) && 0 <= i < |u.budgets|
                            && Wrap(SplitCharge(u, prompt)) > u.budgets[i].total;
      var t := FirstOverruns(u, prompt, i);
    }
  }

  // ---------------------------------------------------------------- two requests, both accepted first

  const OTHER: Id := 1

  function FirstDecision(u: Setup, prompt: nat): Decision { DecisionFor(u, Start(u), prompt + 1) }

  /** The resources when one request of this length is charged. */
  function Charged(u: Setup, prompt: nat): R.Res
    requires R.Usable(FirstDecision(u, prompt))
  {
    var (d, bytes) := (FirstDecision(u, prompt), EstimateKv(prompt + 1));
    Start(u).(budgets := Commit(Reserve(u.budgets, d, bytes), d, bytes),
              roundRobin := if d.strategy.PerRequest? then 1 else 0)
  }

  /** The limits let two requests wait and two be active. */
  ghost predicate ServesTwo(u: Setup) {
    u.hasRouter && u.limits.maxQueue >= 2 && u.limits.threads >= 1 && u.limits.maxActive >= 2
  }

  /** Two requests of the same length are submitted. */
  lemma BothSubmitted(u: Setup, prompt: nat) returns (t: State)
    requires Unused(u) && Sane(u) && ServesTwo(u) && prompt < u.maxContext && Admissible(u, prompt + 1)
    ensures Reached(u, t) && Quiet(t, [ME, OTHER], []) && Waits(t, ME, prompt) && Waits(t, OTHER, prompt)
    ensures t.res.budgets == u.budgets && t.res.roundRobin == 0 && t.res.alloc == u.alloc
  {
    Begins(u);
    assert Accepts(u, Begin(u), One(prompt));
    var a := Submits(u, Begin(u), ME, prompt, [], []);
    assert Accepts(u, a, One(prompt));
    t := Submits(u, a, OTHER, prompt, [ME], []);
  }

  /** The first of them is reserved for. */
  lemma FirstReserved(u: Setup, prompt: nat) returns (t: State)
    requires Unused(u) && Sane(u) && ServesTwo(u) && prompt < u.maxContext && Admissible(u, prompt + 1)
    ensures var d := FirstDecision(u, prompt);
      && Reached(u, t) && t.life.pc == L.Prefill(ME, d, L.AtReserved)
      && t.life.pending == [OTHER] && t.life.active == [] && t.life.submissions == map[] && Waits(t, OTHER, prompt)
      && ME in t.specs && t.specs[ME] == One(prompt) && ME in t.res.hold && t.res.hold[ME].seqLen == prompt + 1
      && t.res.alloc == u.alloc && R.Usable(d) && t.res.budgets == Reserve(u.budgets, d, EstimateKv(prompt + 1))
      && t.res.roundRobin == if d.strategy.PerRequest? then 1 else 0
  {
    hide Reached, Apply, Enabled, Coherent, GpuAccepts;
    var a := BothSubmitted(u, prompt);
    DecisionUsable(u, Start(u), prompt + 1);
    assert DecisionFor(u, a.res, prompt + 1) == FirstDecision(u, prompt);
    t := Places(u, a, ME, prompt, [OTHER], []);
  }

  lemma FirstReads(u: Setup, prompt: nat, grants: seq<Grant>) returns (t: State)
    requires Unused(u) && Sane(u) && ServesTwo(u) && prompt < u.maxContext && Admissible(u, prompt + 1)
    requires Allocate(u.alloc, prompt + 1, SplitDevices(u, FirstDecision(u, prompt)), grants).1.Ok?
    ensures Reached(u, t) && t.life.pc == L.Prefill(ME, FirstDecision(u, prompt), L.AtReady)
    ensures t.life.pending == [OTHER] && t.life.active == [] && t.life.submissions == map[] && Waits(t, OTHER, prompt)
    ensures R.Usable(FirstDecision(u, prompt)) && t.res.budgets == Charged(u, prompt).budgets
    ensures t.res.roundRobin == Charged(u, prompt).roundRobin
  {
    hide Runs, Coherent, Allocate;
    var s := FirstReserved(u, prompt);
    t := Reads(u, s, ME, prompt + 1, FirstDecision(u, prompt), grants);
    assert Waits(t, OTHER, prompt);
  }

  /** Then it is active. */
  lemma FirstActive(u: Setup, prompt: nat, grants: seq<Grant>) returns (t: State)
    requires Unused(u) && Sane(u) && ServesTwo(u) && prompt < u.maxContext && Admissible(u, prompt + 1)
    requires Allocate(u.alloc, prompt + 1, SplitDevices(u, FirstDecision(u, prompt)), grants).1.Ok?
    ensures R.Usable(FirstDecision(u, prompt))
    ensures Reached(u, t) && Quiet(t, [OTHER], [ME]) && Waits(t, OTHER, prompt)
    ensures t.res.budgets == Charged(u, prompt).budgets && t.res.roundRobin == Charged(u, prompt).roundRobin
  {
    hide Reached, Lower, Unused, Allocate;
    var a := FirstReads(u, prompt, grants);
    t := ActivateStep(u, a, ME);
  }

  lemma SecondPlaced(u: Setup, prompt: nat, grants: seq<Grant>) returns (t: State)
    requires Unused(u) && Sane(u) && ServesTwo(u) && prompt < u.maxContext && Admissible(u, prompt + 1)
    requires Allocate(u.alloc, prompt + 1, SplitDevices(u, FirstDecision(u, prompt)), grants).1.Ok?
    ensures R.Usable(FirstDecision(u, prompt)) && R.Usable(DecisionFor(u, Charged(u, prompt), prompt + 1))
    ensures Reached(u, t)
    ensures t.res.budgets
         == Reserve(Charged(u, prompt).budgets, DecisionFor(u, Charged(u, prompt), prompt + 1), EstimateKv(prompt + 1))
  {
    hide Reached, Unused;
    var a := FirstActive(u, prompt, grants);
    t := Places(u, a, OTHER, prompt, [], [ME]);
  }

  // ---------------------------------------------------------------- when the second overruns

  /** With one request of this length charged, another one does not fit. */
  ghost predicate TooTight(u: Setup, prompt: nat)
    requires u.hasRouter && R.Usable(FirstDecision(u, prompt))
  {
    var n := prompt + 1;
    if SplitsLength(u, n) then exists i :: 0 <= i < |u.budgets| && 2 * SplitCharge(u, prompt) > u.budgets[i].total
    else forall i :: 0 <= i < |u.budgets| ==> !Charged(u, prompt).budgets[i].CanFit(EstimateKv(n))
  }

  lemma SplitTwice(u: Setup, prompt: nat, i: nat)
    requires Unused(u) && SplitsLength(u, prompt + 1) && i < |u.budgets| && SplitCharge(u, prompt) < WORD
    ensures R.Usable(FirstDecision(u, prompt)) && R.Usable(DecisionFor(u, Charged(u, prompt), prompt + 1))
    ensures Within(Reserve(Charged(u, prompt).budgets, DecisionFor(u, Charged(u, prompt), prompt + 1),
                           EstimateKv(prompt + 1))[i])
      <==> 2 * SplitCharge(u, prompt) <= u.budgets[i].total
  {
    hide Coherent;
    var (d, bytes, share) := (Everywhere(u), EstimateKv(prompt + 1), SplitCharge(u, prompt) as int);
    assert FirstDecision(u, prompt) == d && DecisionFor(u, Charged(u, prompt), prompt + 1) == d;
    assert u.budgets[i].device in d.devices;
    WrapAdd(share, 0 - share);
    var b := Commit(Reserve(u.budgets, d, bytes), d, bytes)[i];
    assert b == u.budgets[i].(used := share, reserved := 0);
    assert Reserve(Charged(u, prompt).budgets, d, bytes)[i] == b.(reserved := share);
  }

  /** A request on one device, charged: its device has that much less. */
  lemma ChargedOne(u: Setup, prompt: nat, i: nat)
    requires Unused(u) && Distinct(u.topology.devices) && u.hasRouter && !SplitsLength(u, prompt + 1)
    requires Admissible(u, prompt + 1) && i < |u.budgets|
    ensures R.Usable(FirstDecision(u, prompt))
    ensures var b := Charged(u, prompt).budgets[i];
      && b.device == u.budgets[i].device && b.total == u.budgets[i].total && b.reserved == 0 && Within(b)
  {
    hide Apply;
    var (n, d) := (prompt + 1, FirstDecision(u, prompt));
    DistinctMeaning(u.topology.devices);
    PlacedOnOneFits(u.topology, u.budgets, 0, n, EstimateKv(n), ConfigOf(u.alloc).BytesPerDevice(n));
    assert Within(Reserve(u.budgets, d, EstimateKv(n))[i]);
    WrapAdd(EstimateKv(n), 0 - EstimateKv(n));
  }

  lemma ChargedAll(u: Setup, prompt: nat)
    requires Unused(u) && Distinct(u.topology.devices) && u.hasRouter && !SplitsLength(u, prompt + 1)
    requires Admissible(u, prompt + 1)
    ensures R.Usable(FirstDecision(u, prompt)) && EstimateKv(prompt + 1) < WORD
    ensures var before := Charged(u, prompt).budgets;
      && |before| == |u.budgets| == |u.topology.devices| > 0 && DistinctDevices(before)
      && forall i :: 0 <= i < |before| ==>
           Within(before[i]) && before[i].device == u.topology.devices[i] && before[i].reserved == 0
  {
    DecisionUsable(u, Start(u), prompt + 1);
    DistinctMeaning(u.topology.devices);
    forall i | 0 <= i < |u.budgets|
      ensures var b := Charged(u, prompt).budgets[i];
        Within(b) && b.device == u.topology.devices[i] && b.reserved == 0
    {
      ChargedOne(u, prompt, i);
    }
  }

  lemma OneTwice(u: Setup, prompt: nat)
    requires Unused(u) && Distinct(u.topology.devices) && u.hasRouter && !SplitsLength(u, prompt + 1)
    requires Admissible(u, prompt + 1)
    ensures R.Usable(FirstDecision(u, prompt)) && R.Usable(DecisionFor(u, Charged(u, prompt), prompt + 1))
    ensures var after := Reserve(Charged(u, prompt).budgets, DecisionFor(u, Charged(u, prompt), prompt + 1),
                                 EstimateKv(prompt + 1));
      (exists i :: 0 <= i < |after| && !Within(after[i])) <==> TooTight(u, prompt)
  {
    hide Apply, Coherent;
    ChargedAll(u, prompt);
    var (n, bytes, before) := (prompt + 1, EstimateKv(prompt + 1), Charged(u, prompt).budgets);
    var rr := Charged(u, prompt).roundRobin;
    if TooTight(u, prompt) {
      var i := OverrunBy(u.topology, before, rr, bytes);
    } else {
      PlacedOnOneFits(u.topology, before, rr, n, bytes, ConfigOf(u.alloc).BytesPerDevice(n));
    }
  }

  /** Reserving where nothing fits overruns the device that is picked. */
  lemma OverrunBy(t: Topology, budgets: seq<Budget>, roundRobin: nat, bytes: nat) returns (i: nat)
    requires |budgets| == |t.devices| > 0 && forall j :: 0 <= j < |budgets| ==>
      budgets[j].device == t.devices[j] && Within(budgets[j]) && !budgets[j].CanFit(bytes)
    requires forall j :: 0 <= j < |budgets| ==> budgets[j].reserved + bytes < WORD
    ensures i < |budgets|
    ensures !Within(Reserve(budgets, Decision(PerRequest, [Best(budgets, SelectDevice(t, roundRobin)).0]), bytes)[i])
  {
    var fallback := SelectDevice(t, roundRobin);
    BestIsLargest(budgets, fallback);
    var (d, best) := Best(budgets, fallback);
    if best > 0 {
      i :| 0 <= i < |budgets| && budgets[i].device == d && budgets[i].Available() == best;
    } else {
      i := roundRobin % |t.devices|;
    }
    assert budgets[i].device == d;
  }

  /** Two requests of one length, accepted before either is prefilled: the second reservation overruns a
      budget if and only if, with one of them charged, there is no room for the other. For a split length
      that is when twice its share exceeds some total. */
  lemma AcceptedTogether(u: Setup, prompt: nat, grants: seq<Grant>) returns (t: State)
    requires Unused(u) && Sane(u) && ServesTwo(u) && prompt < u.maxContext && Admissible(u, prompt + 1)
    requires Allocate(u.alloc, prompt + 1, SplitDevices(u, FirstDecision(u, prompt)), grants).1.Ok?
    requires SplitsLength(u, prompt + 1) ==> SplitCharge(u, prompt) < WORD
    ensures Reached(u, t) && R.Usable(FirstDecision(u, prompt))
    ensures (exists i :: 0 <= i < |t.res.budgets| && !Within(t.res.budgets[i])) <==> TooTight(u, prompt)
  {
    hide Reached, Unused, Allocate;
    t := SecondPlaced(u, prompt, grants);
    TogetherIff(u, prompt);
  }

  lemma TogetherIff(u: Setup, prompt: nat)
    requires Unused(u) && Sane(u) && u.hasRouter && Admissible(u, prompt + 1)
    requires SplitsLength(u, prompt + 1) ==> SplitCharge(u, prompt) < WORD
    ensures R.Usable(FirstDecision(u, prompt)) && R.Usable(DecisionFor(u, Charged(u, prompt), prompt + 1))
    ensures var after := Reserve(Charged(u, prompt).budgets, DecisionFor(u, Charged(u, prompt), prompt + 1),
                                 EstimateKv(prompt + 1));
      (exists i :: 0 <= i < |after| && !Within(after[i])) <==> TooTight(u, prompt)
  {
    hide Unused;
    if SplitsLength(u, prompt + 1) {
      forall i | 0 <= i < |u.budgets|
        ensures Within(Reserve(Charged(u, prompt).budgets, DecisionFor(u, Charged(u, prompt), prompt + 1),
                               EstimateKv(prompt + 1))[i])
          <==> 2 * SplitCharge(u, prompt) <= u.budgets[i].total
      {
        SplitTwice(u, prompt, i);
      }
    } else {
      OneTwice(u, prompt);
    }
  }
}
