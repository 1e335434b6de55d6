/** The cancellation token under interleaving (include/utils/cancellation.hpp:13-43). `cancel` sets the
    flag before it takes the lock; `on_cancel` reads the flag while it holds the lock. */
module Cancellation {
  import opened Wrappers
  import opened Sums

  /** One registration of a callback. */
  type Callback = nat

  datatype Lock =
    | Free
    | ByRegistration(callback: Callback, seen: Option<bool>)
    | ByCancel(next: nat)

  /** How far the call of `cancel` that found the flag unset has come. */
  datatype First = NotYet | Flagged | Draining | Finished

  /** `ran` and `registered` are history: the callbacks run, and those whose registration is complete. */
  datatype Token = Token(
    flag: bool, callbacks: seq<Callback>, lock: Lock, first: First,
    ran: seq<Callback>, registered: seq<Callback>)

  const FRESH: Token := Token(false, [], Free, NotYet, [], [])

  datatype Step =
    | Exchange
    | LockToRegister(callback: Callback) | ReadFlag | FinishRegistration
    | LockToCancel | RunNext | FinishCancel

  ghost predicate Enabled(t: Token, step: Step) {
    match step
    case Exchange => true
    case LockToRegister(c) => t.lock.Free? && c !in t.registered
    case ReadFlag => t.lock.ByRegistration? && t.lock.seen.None?
    case FinishRegistration => t.lock.ByRegistration? && t.lock.seen.Some?
    case LockToCancel => t.lock.Free? && t.first.Flagged?
    case RunNext => t.lock.ByCancel? && t.lock.next < |t.callbacks|
    case FinishCancel => t.lock.ByCancel? && t.lock.next == |t.callbacks|
  }

  function Do(t: Token, step: Step): Token
    requires Enabled(t, step)
  {
    match step
    case Exchange => if t.flag then t else t.(flag := true, first := Flagged)
    case LockToRegister(c) => t.(lock := ByRegistration(c, None))
    case ReadFlag => t.(lock := t.lock.(seen := Some(t.flag)))
    case FinishRegistration =>
      var c := t.lock.callback;
      var t' := t.(lock := Free, registered := t.registered + [c]);
      if t.lock.seen.value then t'.(ran := t.ran + [c]) else t'.(callbacks := t.callbacks + [c])
    case LockToCancel => t.(lock := ByCancel(0), first := Draining)
    case RunNext => t.(ran := t.ran + [t.callbacks[t.lock.next]], lock := ByCancel(t.lock.next + 1))
    case FinishCancel => t.(lock := Free, callbacks := [], first := Finished)
  }

  ghost predicate Runs(t: Token, steps: seq<Step>, end: Token)
    decreases |steps|
  {
    if steps == [] then end == t else Enabled(t, steps[0]) && Runs(Do(t, steps[0]), steps[1..], end)
  }

  // ---------------------------------------------------------------- invariant

  /** The callbacks that are stored and not run yet. */
  function Waiting(t: Token): seq<Callback> {
    if t.lock.ByCancel? && t.lock.next <= |t.callbacks| then t.callbacks[t.lock.next..] else t.callbacks
  }

  /** Every registered callback has run or waits, once. */
  ghost predicate Conserved(t: Token) {
    multiset(t.ran) + multiset(Waiting(t)) == multiset(t.registered) && Distinct(t.registered)
  }

  ghost predicate Ordered(t: Token) {
    && (t.flag <==> !t.first.NotYet?)
    && (t.first.Draining? <==> t.lock.ByCancel?)
    && (t.lock.ByCancel? ==> t.lock.next <= |t.callbacks|)
    && (t.first.Finished? ==> t.callbacks == [])
    && (t.lock.ByRegistration? ==>
          && t.lock.callback !in t.registered
          && (t.lock.seen == Some(true) ==> t.flag)
          && (t.lock.seen == Some(false) ==> !t.first.Finished?))
    && (!t.flag ==> t.ran == [])
  }

  ghost predicate Inv(t: Token) { Conserved(t) && Ordered(t) }

  lemma StepOrdered(t: Token, step: Step)
    requires Ordered(t) && Enabled(t, step)
    ensures Ordered(Do(t, step))
  {
  }

  lemma Grows(ran: seq<Callback>, waiting: seq<Callback>, registered: seq<Callback>, c: Callback)
    requires multiset(ran) + multiset(waiting) == multiset(registered)
    ensures multiset(ran + [c]) + multiset(waiting) == multiset(registered + [c])
    ensures multiset(ran) + multiset(waiting + [c]) == multiset(registered + [c])
  {
  }

  lemma Moves(ran: seq<Callback>, waiting: seq<Callback>, registered: seq<Callback>)
    requires multiset(ran) + multiset(waiting) == multiset(registered) && waiting != []
    ensures multiset(ran + [waiting[0]]) + multiset(waiting[1..]) == multiset(registered)
  {
    assert waiting == [waiting[0]] + waiting[1..];
  }

  lemma RegistrationConserves(t: Token)
    requires Inv(t) && Enabled(t, FinishRegistration)
    ensures Conserved(Do(t, FinishRegistration))
  {
    DistinctAppend(t.registered, t.lock.callback);
    Grows(t.ran, Waiting(t), t.registered, t.lock.callback);
  }

  lemma StepConserves(t: Token, step: Step)
    requires Inv(t) && Enabled(t, step)
    ensures Conserved(Do(t, step))
  {
    match step
    case FinishRegistration => RegistrationConserves(t);
    case RunNext => Moves(t.ran, Waiting(t), t.registered);
    case FinishCancel => assert Waiting(t) == [];
    case LockToCancel => assert t.callbacks[0..] == t.callbacks;
    case _ =>
  }

  lemma StepKeeps(t: Token, step: Step)
    requires Inv(t) && Enabled(t, step)
    ensures Inv(Do(t, step))
  {
    StepOrdered(t, step);
    StepConserves(t, step);
  }

  lemma {:induction false} RunKeeps(t: Token, steps: seq<Step>, end: Token)
    requires Inv(t) && Runs(t, steps, end)
    ensures Inv(end)
    decreases |steps|
  {
    if steps != [] {
      StepKeeps(t, steps[0]);
      RunKeeps(Do(t, steps[0]), steps[1..], end);
    }
  }

  lemma {:induction false} DistinctOnce(xs: seq<Callback>, c: Callback)
    requires Distinct(xs)
    ensures multiset(xs)[c] == if c in xs then 1 else 0
  {
    if xs != [] {
      assert xs == [xs[0]] + xs[1..];
      DistinctOnce(xs[1..], c);
    }
  }

  /** In every interleaving a callback runs at most once, only after its registration, and only after
      a cancellation; and exactly once when the first `cancel` has finished, including callbacks
      registered between its setting the flag and its taking the lock. */
  lemma CallbacksRunOnce(steps: seq<Step>, t: Token, c: Callback)
    requires Runs(FRESH, steps, t)
    ensures multiset(t.ran)[c] <= 1
    ensures c in t.ran ==> c in t.registered && t.flag
    ensures t.first.Finished? ==> multiset(t.ran)[c] == if c in t.registered then 1 else 0
  {
    RunKeeps(FRESH, steps, t);
    DistinctOnce(t.registered, c);
    assert multiset(t.registered)[c] == multiset(t.ran)[c] + multiset(Waiting(t))[c];
    assert c in t.ran ==> multiset(t.ran)[c] > 0;
    assert c in multiset(t.registered) <==> c in t.registered;
  }

  // ---------------------------------------------------------------- the token as it is written

  /** The token as one thread sees it when no other holds its lock. */
  class CancellationToken {
    var cancelled: bool
    var callbacks: seq<Callback>
    ghost var ran: seq<Callback>
    ghost var registered: seq<Callback>

    ghost function Contents(): Token
      reads this
    {
      Token(cancelled, callbacks, Free, if cancelled then Finished else NotYet, ran, registered)
    }

    constructor ()
      ensures Contents() == FRESH
    {
      cancelled, callbacks, ran, registered := false, [], [], [];
    }

    method Cancel()
      requires Inv(Contents())
      modifies this
      ensures Inv(Contents()) && cancelled && callbacks == [] && registered == old(registered)
      ensures ran == old(ran) + old(callbacks)
      ensures multiset(ran) == multiset(registered)
    {
      if cancelled {
        return;
      }
      cancelled := true;
      for i := 0 to |callbacks|
        invariant cancelled && callbacks == old(callbacks) && registered == old(registered)
        invariant ran == old(ran) + callbacks[..i]
      {
        ran := ran + [callbacks[i]];
      }
      assert callbacks[..|callbacks|] == callbacks;
      callbacks := [];
    }

    method OnCancel(c: Callback)
      requires Inv(Contents()) && c !in registered
      modifies this
      ensures Inv(Contents()) && cancelled == old(cancelled) && registered == old(registered) + [c]
      ensures if cancelled then ran == old(ran) + [c] else ran == old(ran) && callbacks == old(callbacks) + [c]
    {
      DistinctAppend(registered, c);
      Grows(ran, callbacks, registered, c);
      registered := registered + [c];
      if cancelled {
        ran := ran + [c];
      } else {
        callbacks := callbacks + [c];
      }
    }
  }
}
