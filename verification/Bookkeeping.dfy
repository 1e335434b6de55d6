/** The scheduler's bookkeeping, for every interleaving that starts with nothing submitted. */
module Bookkeeping {
  import opened Sums
  import opened Talks
  import opened System
  import opened Safety
  import opened Guarantees
  import L = Lifecycle

  // ---------------------------------------------------------------- where requests are

  predicate Submits(l: L.Life, id: Id) {
    exists t :: t in l.submissions && l.submissions[t].id == id
  }

  /** Taken from the queue or from the active list, and neither active nor finished. */
  ghost predicate InHand(l: L.Life, id: Id) {
    L.Grips(l.pc, id) && id !in l.active
  }

  function One(b: bool): nat { if b then 1 else 0 }

  /** In how many of the places of the scheduler a request is. */
  ghost function Presence(l: L.Life, id: Id): nat {
    One(Submits(l, id)) + One(id in l.pending) + One(InHand(l, id)) + One(id in l.active) + One(id in l.finished)
  }

  lemma PresencePlace(l: L.Life, u: L.Limits, id: Id)
    requires L.Inv(l, u) && id in l.place
    ensures Presence(l, id) == One(!l.place[id].TurnedAway?)
    ensures id in l.status && (l.place[id].TurnedAway? <==> l.status[id].Rejected?)
  {
    assert L.FitsAt(l, id);
    if L.Grips(l.pc, id) {
      L.TouchedPlace(l, u, id);
    }
  }

  /** A request that was not rejected is in exactly one of: on its way to the queue, in the queue, in
      the decode thread's hands, active, finished. A rejected one is in none. */
  lemma EveryRequestInOnePlace(u: Setup, t: State, id: Id)
    requires Reached(u, t) && id in t.specs
    ensures id in t.life.status
    ensures Presence(t.life, id) == One(!t.life.status[id].Rejected?)
  {
    hide Reached, L.Inv, R.Inv;
    ReachedInv(u, t);
    PresencePlace(t.life, u.limits, id);
  }

  /** Registered, and not yet at the last step of being finished. */
  ghost predicate Ongoing(l: L.Life, id: Id) {
    || (exists t :: L.InSubmit(l, t, L.Registered) && l.submissions[t].id == id)
    || id in l.pending || id in l.active
    || (L.Grips(l.pc, id) && !(l.pc.Ending? && l.pc.end.ToTally?))
  }

  lemma RegistryPlace(l: L.Life, u: L.Limits, id: Id)
    requires L.Inv(l, u)
    ensures id in l.registry <==> Ongoing(l, id)
  {
    if id in l.place {
      assert L.FitsAt(l, id);
      if L.Grips(l.pc, id) {
        L.TouchedPlace(l, u, id);
      }
      if l.place[id].Submitting? {
        assert L.InSubmit(l, l.place[id].thread, L.Registered) <==> L.Unfinished(l.place[id], l.submissions, l.pc);
      }
    } else if L.Grips(l.pc, id) {
      L.TouchedPlace(l, u, id);
    }
  }

  /** The registry is exactly the set of accepted, unfinished requests. */
  lemma RegistryExact(u: Setup, t: State, id: Id)
    requires Reached(u, t)
    ensures id in t.life.registry <==> Ongoing(t.life, id)
  {
    hide Reached, Fit, R.Inv;
    ReachedInv(u, t);
    RegistryPlace(t.life, u.limits, id);
  }

  /** Requests leave the queue in the order in which they were pushed; the active list never exceeds
      its limit; and with `threads` threads in `submit` the queue never exceeds its limit by more than
      `threads - 1`, although the lock is released between the check and the push. */
  lemma QueueAndLimits(u: Setup, t: State)
    requires Reached(u, t) && u.limits.threads >= 1
    ensures t.life.pushed == t.life.taken + t.life.pending
    ensures |t.life.active| <= u.limits.maxActive
    ensures |t.life.pending| + |t.life.submissions| <= u.limits.maxQueue + u.limits.threads - 1
    ensures u.limits.threads == 1 ==> |t.life.pending| <= u.limits.maxQueue
  {
    hide Reached, Fit, R.Inv;
    ReachedInv(u, t);
  }

  // ---------------------------------------------------------------- counters

  /** Each counter counts the requests that ended its way, each once, and together they count the
      finished ones. */
  lemma CountersExact(u: Setup, t: State)
    requires Reached(u, t)
    ensures Distinct(t.life.finished)
    ensures t.life.completed == |L.Ended(t.life.finished, t.life.status, L.Completed)|
    ensures t.life.errored == |L.Ended(t.life.finished, t.life.status, L.Errored)|
    ensures t.life.completed + t.life.errored == |t.life.finished|
  {
    hide Reached, Fit, R.Inv;
    ReachedInv(u, t);
  }
}
