/** The bound on the queue is exact: threads that pass the check of `admit` together overrun the limit
    by all but one of them (src/scheduler/scheduler.cpp:65-100, 145-152). */
module QueueBound {
  import opened Allocator
  import opened System
  import opened Safety
  import opened Guarantees
  import opened Locality
  import B = Bookkeeping
  import opened SchedulerSteps
  import opened SoloRuns
  import opened Vetting
  import L = Lifecycle

  /** Thread `t` has passed the queue check with a request for one token. */
  ghost predicate JustIn(s: State, t: Thread, p: nat) {
    && t in s.life.submissions && Inside(s, t, s.life.submissions[t].id, L.QueueChecked)
    && s.specs[s.life.submissions[t].id] == One(p)
  }

  /** Threads `from` to `to - 1` have passed the queue check and no other is in `submit`; `n` requests are
      queued, no request has number `m` or above, and the resources are untouched. */
  ghost predicate Crowd(u: Setup, s: State, n: nat, from: nat, to: nat, m: nat, p: nat) {
    && |s.life.pending| == n && s.res.budgets == u.budgets && s.res.alloc == u.alloc
    && (forall t :: t in s.life.submissions <==> from <= t < to)
    && (forall t :: t in s.life.submissions ==> JustIn(s, t, p))
    && (forall id :: id in s.specs ==> id < m)
  }

  /** Requests of length `p + 1` are admitted once they pass the queue check. */
  ghost predicate Roomy(u: Setup, p: nat) { p < u.maxContext && Admissible(u, p + 1) }

  lemma Joins(u: Setup, s: State, n: nat, to: nat, m: nat, p: nat) returns (r: State)
    requires Reached(u, s) && Crowd(u, s, n, 0, to, m, p) && Roomy(u, p)
    requires n < u.limits.maxQueue && to < u.limits.threads
    ensures Reached(u, r) && Crowd(u, r, n, 0, to + 1, m + 1, p)
  {
    hide Reached;
    NewId(u, s, m);
    OneFits(u, p);
    r := OfferStep(u, s, to, m, One(p));
    forall t | t in r.life.submissions ensures JustIn(r, t, p) {
      assert t != to ==> JustIn(s, t, p);
    }
  }

  lemma Finishes(u: Setup, s: State, n: nat, from: nat, to: nat, m: nat, p: nat) returns (r: State)
    requires Reached(u, s) && Crowd(u, s, n, from, to, m, p) && Roomy(u, p) && from < to
    ensures Reached(u, r) && Crowd(u, r, n + 1, from + 1, to, m, p)
  {
    hide Reached;
    assert JustIn(s, from, p);
    var id := s.life.submissions[from].id;
    assert GpuAccepts(u, s.res, s.specs[id].SeqLen());
    r := CheckedRun(u, s, from, id);
    forall t | t in r.life.submissions ensures JustIn(r, t, p) {
      assert JustIn(s, t, p);
    }
  }

  /** One thread after the other fills the queue. */
  lemma {:induction false} Fills(u: Setup, s: State, n: nat, m: nat, p: nat, target: nat) returns (r: State, k: nat)
    requires Reached(u, s) && Crowd(u, s, n, 0, 0, m, p) && Roomy(u, p) && u.limits.threads >= 1
    requires n <= target <= u.limits.maxQueue
    ensures Reached(u, r) && Crowd(u, r, target, 0, 0, k, p)
    decreases target - n
  {
    hide Reached;
    if n == target {
      return s, m;
    }
    var s1 := Joins(u, s, n, 0, m, p);
    var s2 := Finishes(u, s1, n, 0, 1, m + 1, p);
    assert Crowd(u, s2, n + 1, 0, 0, m + 1, p);
    r, k := Fills(u, s2, n + 1, m + 1, p, target);
  }

  /** All threads pass the check before any of them pushes. */
  lemma {:induction false} AllJoin(u: Setup, s: State, n: nat, to: nat, m: nat, p: nat) returns (r: State, k: nat)
    requires Reached(u, s) && Crowd(u, s, n, 0, to, m, p) && Roomy(u, p) && n < u.limits.maxQueue
    requires to <= u.limits.threads
    ensures Reached(u, r) && Crowd(u, r, n, 0, u.limits.threads, k, p)
    decreases u.limits.threads - to
  {
    hide Reached;
    if to == u.limits.threads {
      return s, m;
    }
    var s1 := Joins(u, s, n, to, m, p);
    r, k := AllJoin(u, s1, n, to + 1, m + 1, p);
  }

  lemma {:induction false} AllFinish(u: Setup, s: State, n: nat, from: nat, k: nat, m: nat, p: nat)
    returns (r: State)
    requires Reached(u, s) && Crowd(u, s, n, from, from + k, m, p) && Roomy(u, p)
    ensures Reached(u, r) && |r.life.pending| == n + k
    decreases k
  {
    hide Reached;
    if k == 0 {
      return s;
    }
    var s1 := Finishes(u, s, n, from, from + k, m, p);
    r := AllFinish(u, s1, n + 1, from + 1, k - 1, m, p);
  }

  /** For every queue limit, every number of threads and every length that is admitted at all, some
      interleaving queues exactly the number of requests that `QueueAndLimits` allows. */
  lemma QueueBoundAttained(u: Setup, p: nat) returns (t: State)
    requires Unused(u) && Sane(u) && Opens(u) && Roomy(u, p)
    ensures Reached(u, t) && |t.life.pending| == u.limits.maxQueue + u.limits.threads - 1
  {
    hide Reached, Coherent;
    Begins(u);
    assert Crowd(u, Begin(u), 0, 0, 0, 0, p);
    var m;
    t, m := Fills(u, Begin(u), 0, 0, p, u.limits.maxQueue - 1);
    t, m := AllJoin(u, t, u.limits.maxQueue - 1, 0, m, p);
    t := AllFinish(u, t, u.limits.maxQueue - 1, 0, u.limits.threads, m, p);
  }

  ghost predicate QueueStays(u: Setup) {
    forall t :: Reached(u, t) ==> |t.life.pending| <= u.limits.maxQueue
  }

  lemma WaitingVetted(u: Setup, t: State) returns (p: nat)
    requires Inv(u, t) && AllVetted(u, t) && t.life.pending != []
    ensures Opens(u) && Roomy(u, p)
  {
    var id := t.life.pending[0];
    L.PendingPlace(t.life, u.limits);
    InvRecords(u, t, id);
    assert CoupledAt(u, t, id) && VettedAt(u, t, id);
    p := t.specs[id].SeqLen() - 1;
    RoomyAt(u, p, t.specs[id].SeqLen());
  }

  lemma RoomyAt(u: Setup, p: nat, n: nat)
    requires p + 1 == n <= u.maxContext && Admissible(u, n)
    ensures Roomy(u, p)
  {
  }

  /** A request that waits was admitted. */
  lemma WaitingIsRoomy(u: Setup, t: State) returns (p: nat)
    requires Reached(u, t) && t.life.pending != []
    ensures Opens(u) && Roomy(u, p)
  {
    hide *;
    ReachedVetted(u, t);
    p := WaitingVetted(u, t);
  }

  lemma StaysBelow(u: Setup, t: State)
    requires Reached(u, t)
    requires u.limits.threads <= 1 || u.limits.maxQueue == 0 || forall p: nat :: !Roomy(u, p)
    ensures |t.life.pending| <= u.limits.maxQueue
  {
    hide Reached;
    if t.life.pending != [] {
      var p := WaitingIsRoomy(u, t);
      B.QueueAndLimits(u, t);
    }
  }

  /** The queue stays within its limit in every run if and only if at most one thread submits, or the limit
      is zero, or no length is ever admitted. */
  lemma QueueStaysIff(u: Setup)
    requires Unused(u) && Sane(u)
    ensures QueueStays(u) <==>
      u.limits.threads <= 1 || u.limits.maxQueue == 0 || forall p: nat :: !Roomy(u, p)
  {
    hide Reached, Unused;
    if u.limits.threads <= 1 || u.limits.maxQueue == 0 || forall p: nat :: !Roomy(u, p) {
      forall t | Reached(u, t) ensures |t.life.pending| <= u.limits.maxQueue {
        StaysBelow(u, t);
      }
    } else {
      var p: nat :| Roomy(u, p);
      var t := QueueBoundAttained(u, p);
    }
  }
}
