/** The way of one request from `submit` to its prefill, as runs (src/scheduler/scheduler.cpp:60-112, 175-252,
    453-504). */
module SoloRuns {
  import opened Wrappers
  import opened KvCache
  import opened Routing
  import opened Allocator
  import opened Talks
  import opened System
  import opened Safety
  import opened Guarantees
  import opened SchedulerSteps
  import L = Lifecycle
  import R = Resources

  /** An idle router and allocator accept a request of length `n`. */
  ghost predicate Admissible(u: Setup, n: nat) { GpuAccepts(u, Start(u), n) && CanAllocate(u.alloc, n) }

  /** The limits let requests into the queue, and through. */
  ghost predicate Opens(u: Setup) { u.limits.maxQueue >= 1 && u.limits.threads >= 1 }

  ghost predicate Serves(u: Setup) { Opens(u) && u.limits.maxActive >= 1 }

  /** The decode thread is at the start of `process_queue` and no thread is in `submit`. */
  ghost predicate Quiet(s: State, pending: seq<Id>, active: seq<Id>) {
    s.life.pc == L.Filling && s.life.pending == pending && s.life.active == active && s.life.submissions == map[]
  }

  /** A request for one token. */
  function One(prompt: nat): Spec { Spec(prompt, 1, []) }

  /** Request `id` waits. */
  ghost predicate Waits(s: State, id: Id, prompt: nat) {
    && id in s.specs && s.specs[id] == One(prompt) && id in s.talks
    && id in s.res.hold && s.res.hold[id] == R.Hold(prompt + 1, NO_HANDLE, [], R.Bare)
  }

  lemma NewId(u: Setup, s: State, id: Id)
    requires Reached(u, s) && id !in s.specs
    ensures id !in s.life.place
  {
    hide Reached, L.Inv, R.Inv;
    ReachedInv(u, s);
  }

  lemma OneFits(u: Setup, prompt: nat)
    requires prompt < u.maxContext
    ensures Clamped(u, One(prompt))
  {
    assert Clamp(prompt, 1, u.maxContext) == Ok(1);
  }

  /** A request is submitted and queued. */
  lemma Submits(u: Setup, s: State, id: Id, prompt: nat, pending: seq<Id>, active: seq<Id>) returns (t: State)
    requires Reached(u, s) && Quiet(s, pending, active) && |pending| < u.limits.maxQueue && u.limits.threads >= 1
    requires id !in s.specs && prompt < u.maxContext && Accepts(u, s, One(prompt))
    ensures Reached(u, t) && Quiet(t, pending + [id], active)
    ensures t.specs == s.specs[id := One(prompt)] && t.talks == s.talks[id := NewTalk(u.capacity)]
    ensures ResIs(t.res, s.res.hold[id := R.Hold(One(prompt).SeqLen(), NO_HANDLE, [], R.Bare)],
                  s.res.budgets, s.res.roundRobin, s.res.alloc)
  {
    hide Reached;
    NewId(u, s, id);
    OneFits(u, prompt);
    t := SubmitRun(u, s, 0, id, One(prompt));
  }

  /** The request at the front of the queue is taken, routed and reserved for. */
  lemma Places(u: Setup, s: State, id: Id, prompt: nat, rest: seq<Id>, active: seq<Id>) returns (t: State)
    requires Reached(u, s) && Quiet(s, [id] + rest, active) && |active| < u.limits.maxActive && Waits(s, id, prompt)
    ensures Reached(u, t) && t.life.pending == rest && t.life.active == active && t.life.submissions == map[]
    ensures var (n, d) := (prompt + 1, DecisionFor(u, s.res, prompt + 1));
      && t.life.pc == L.Prefill(id, d, L.AtReserved) && t.talks == s.talks && t.specs == s.specs
      && t.res.hold == s.res.hold[id := R.Hold(n, NO_HANDLE, d.devices, R.Reserved)] && t.res.alloc == s.res.alloc
      && t.res.roundRobin == (if u.hasRouter && d.strategy.PerRequest? then s.res.roundRobin + 1 else s.res.roundRobin)
      && t.res.budgets == if u.hasRouter then Reserve(s.res.budgets, d, EstimateKv(n)) else s.res.budgets
  {
    hide Reached;
    var a := TakeStep(u, s);
    var b := DeadlineStep(u, a, id, false);
    t := PlaceStep(u, b, id);
  }

  /** From nothing submitted to the reservation of the first request. */
  lemma FirstPlaced(u: Setup, id: Id, prompt: nat) returns (t: State)
    requires Unused(u) && Sane(u) && Serves(u) && prompt < u.maxContext && Admissible(u, prompt + 1)
    ensures Reached(u, t) && t.life.pending == [] && t.life.active == [] && t.life.submissions == map[]
    ensures var (n, d) := (prompt + 1, DecisionFor(u, Start(u), prompt + 1));
      && t.life.pc == L.Prefill(id, d, L.AtReserved) && id in t.specs && t.specs[id] == One(prompt)
      && id in t.talks && t.talks[id] == NewTalk(u.capacity)
      && id in t.res.hold && t.res.hold[id] == R.Hold(n, NO_HANDLE, d.devices, R.Reserved) && t.res.alloc == u.alloc
      && t.res.budgets == if u.hasRouter then Reserve(u.budgets, d, EstimateKv(n)) else u.budgets
  {
    hide Reached, Coherent;
    Begins(u);
    assert Accepts(u, Begin(u), One(prompt));
    var a := Submits(u, Begin(u), id, prompt, [], []);
    t := Places(u, a, id, prompt, [], []);
  }

  /** Every other request holds what it held. */
  ghost predicate OthersHold(hold: map<Id, R.Hold>, after: map<Id, R.Hold>, id: Id) {
    forall x :: x in hold && x != id ==> x in after && after[x] == hold[x]
  }

  /** It, as a run. */
  lemma Reads(u: Setup, s: State, id: Id, n: nat, d: Decision, grants: seq<Grant>) returns (t: State)
    requires Reached(u, s) && s.life.pc == L.Prefill(id, d, L.AtReserved) && R.Usable(d) && Coherent(s.res.alloc)
    requires id in s.res.hold && s.res.hold[id].seqLen == n
    requires Allocate(s.res.alloc, n, SplitDevices(u, d), grants).1.Ok?
    ensures Reached(u, t) && t.life == L.Goto(s.life, L.Prefill(id, d, L.AtReady))
    ensures t.talks == s.talks && t.specs == s.specs && id in t.res.hold && OthersHold(s.res.hold, t.res.hold, id)
    ensures t.res.budgets == Commit(s.res.budgets, d, EstimateKv(n)) && t.res.roundRobin == s.res.roundRobin
  {
    hide Reached, Lower, Coherent, Allocate;
    HeldUsable(u, s, id);
    t := ReservedRun(u, s, id, d, grants, None);
  }

  lemma DecisionUsable(u: Setup, r: R.Res, n: nat)
    ensures R.Usable(DecisionFor(u, r, n))
  {
  }
}
