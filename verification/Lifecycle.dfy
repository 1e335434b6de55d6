/** Where every request is: the submit threads, the queue, the decode thread, the active list, the
    registry and the counters (src/scheduler/scheduler.cpp:60-112, 402-589; request_registry.cpp:9-29).

    Each function is what one thread does to this bookkeeping under one lock. */
module Lifecycle {
  import opened Wrappers
  import opened Sums
  import opened Routing
  import opened Stream

  type Id = nat
  type Thread = nat

  datatype Status = Received | Queued | Prefilling | Decoding | Completed | Errored | Rejected

  predicate Terminal(s: Status) { s.Completed? || s.Errored? || s.Rejected? }

  /** Where a request is: history, never read by the code. */
  datatype Place = Submitting(thread: Thread) | Waiting | InHand | Running | Done | TurnedAway

  datatype SubmitStage = QueueChecked | GpuChecked | Admitted | Registered

  /** An HTTP thread inside `submit`. */
  datatype Submission = Submission(id: Id, stage: SubmitStage)

  datatype PrefillStage =
    AtReserved | AtRefused(error: Error) | AtAllocated | AtCommitted | AtReady | AtFault(error: Error)
    | AtFaultKv(error: Error)

  datatype Outcome = Finish(reason: FinishReason) | Fail(error: Error)

  datatype EndStage = ToMark | ToAnnounce | ToClose | ToFreeBudget | ToFreeKv | ToErase | ToDeregister | ToTally

  /** Where the decode thread is. `Ending` keeps the rest of the sweep it interrupts, if any. */
  datatype Pc =
    | Filling
    | Holding(id: Id)
    | Prefill(id: Id, decision: Decision, stage: PrefillStage)
    | Sweeping(rest: seq<Id>)
    | Stepping(id: Id, rest: seq<Id>)
    | Ending(id: Id, outcome: Outcome, end: EndStage, sweep: Option<seq<Id>>)

  /** `place`, `order`, `pushed`, `taken` and `finished` are history variables. */
  datatype Life = Life(
    place: map<Id, Place>, status: map<Id, Status>, submissions: map<Thread, Submission>,
    pending: seq<Id>, active: seq<Id>, registry: set<Id>, pc: Pc, completed: nat, errored: nat,
    order: seq<Id>, pushed: seq<Id>, taken: seq<Id>, finished: seq<Id>)

  const NOBODY: Life := Life(map[], map[], map[], [], [], {}, Filling, 0, 0, [], [], [], [])

  /** Nothing has been submitted. */
  ghost predicate Nobody(l: Life) {
    && l.place == map[] && l.status == map[] && l.submissions == map[] && l.pending == [] && l.active == []
    && l.registry == {} && l.pc == Filling && l.completed == 0 && l.errored == 0
    && l.order == [] && l.pushed == [] && l.taken == [] && l.finished == []
  }

  // ---------------------------------------------------------------- HTTP threads

  /** A request meets a full queue. */
  function Refuse(l: Life, id: Id): Life {
    l.(order := l.order + [id], place := l.place[id := TurnedAway], status := l.status[id := Rejected])
  }

  /** A request passes the queue check of `admit`; the lock is released. */
  function Join(l: Life, t: Thread, id: Id): Life {
    l.(order := l.order + [id], place := l.place[id := Submitting(t)], status := l.status[id := Received],
       submissions := l.submissions[t := Submission(id, QueueChecked)])
  }

  predicate InSubmit(l: Life, t: Thread, stage: SubmitStage) {
    t in l.submissions && l.submissions[t].stage == stage
  }

  function Forward(l: Life, t: Thread, stage: SubmitStage): Life {
    if t !in l.submissions then l
    else
      l.(submissions := l.submissions[t := l.submissions[t].(stage := stage)])
  }

  /** A later check of `admit` fails. */
  function TurnAway(l: Life, t: Thread): Life {
    if t !in l.submissions then l
    else
      var id := l.submissions[t].id;
      l.(place := l.place[id := TurnedAway], status := l.status[id := Rejected], submissions := l.submissions - {t})
  }

  function Register(l: Life, t: Thread): Life {
    if t !in l.submissions then l
    else
      var id := l.submissions[t].id;
      Forward(l, t, Registered).(status := l.status[id := Queued], registry := l.registry + {id})
  }

  function Enqueue(l: Life, t: Thread): Life {
    if t !in l.submissions then l
    else
      var id := l.submissions[t].id;
      l.(place := l.place[id := Waiting], submissions := l.submissions - {t},
         pending := l.pending + [id], pushed := l.pushed + [id])
  }

  // ---------------------------------------------------------------- decode thread

  function TakeNext(l: Life): Life {
    if l.pending == [] then l
    else
      var id := l.pending[0];
      l.(place := l.place[id := InHand], pending := l.pending[1..], taken := l.taken + [id], pc := Holding(id))
  }

  function StartPrefill(l: Life, id: Id): Life {
    l.(status := l.status[id := Prefilling])
  }

  /** A step of the decode thread that touches none of this bookkeeping. */
  function Goto(l: Life, pc: Pc): Life { l.(pc := pc) }

  function Activate(l: Life, id: Id): Life {
    l.(status := l.status[id := Decoding], place := l.place[id := Running], active := l.active + [id], pc := Filling)
  }

  function Verdict(o: Outcome): Status { if o.Finish? then Completed else Errored }

  function Mark(l: Life): Life {
    if !l.pc.Ending? then l
    else
      l.(status := l.status[l.pc.id := Verdict(l.pc.outcome)], pc := l.pc.(end := ToAnnounce))
  }

  function EraseActive(l: Life): Life {
    if !l.pc.Ending? then l
    else
      l.(place := l.place[l.pc.id := InHand], active := Erase(l.active, l.pc.id), pc := l.pc.(end := ToDeregister))
  }

  function Deregister(l: Life): Life {
    if !l.pc.Ending? then l
    else
      l.(registry := l.registry - {l.pc.id}, pc := l.pc.(end := ToTally))
  }

  function Back(sweep: Option<seq<Id>>): Pc {
    match sweep
    case None => Filling
    case Some(rest) => Sweeping(rest)
  }

  function Tally(l: Life): Life {
    if !l.pc.Ending? then l
    else
      var id := l.pc.id;
      var l' := l.(place := l.place[id := Done], finished := l.finished + [id], pc := Back(l.pc.sweep));
      if l.pc.outcome.Finish? then l'.(completed := l.completed + 1) else l'.(errored := l.errored + 1)
  }

  // ---------------------------------------------------------------- invariant

  /** `xs` lists exactly the requests at place `p`. */
  ghost predicate Lists(xs: seq<Id>, place: map<Id, Place>, p: Place) {
    && (forall id :: id in xs ==> id in place && place[id] == p)
    && (forall id :: id in place && place[id] == p ==> id in xs)
    && Distinct(xs)
  }

  /** The containers of the scheduler are exactly the requests in the corresponding place, so a
      request is in one of them at most. */
  ghost predicate Places(l: Life) {
    && (forall id :: id in l.order ==> id in l.place)
    && (forall id :: id in l.place ==> id in l.order)
    && Distinct(l.order)
    && Lists(l.pending, l.place, Waiting)
    && Lists(l.active, l.place, Running)
    && Lists(l.finished, l.place, Done)
  }

  /** A request inside `submit` belongs to one thread, and a thread inside `submit` to one request. */
  ghost predicate Submitters(submissions: map<Thread, Submission>, place: map<Id, Place>, threads: nat) {
    && (forall t :: t in submissions ==>
          t < threads && submissions[t].id in place && place[submissions[t].id] == Submitting(t))
    && (forall id :: id in place && place[id].Submitting? ==>
          place[id].thread in submissions && submissions[place[id].thread].id == id)
  }

  predicate At(place: map<Id, Place>, id: Id, p: Place) {
    id in place && place[id] == p
  }

  predicate Handles(pc: Pc) { pc.Holding? || pc.Prefill? || pc.Stepping? || pc.Ending? }

  /** Where the request is that the decode thread works on. */
  predicate HandAt(l: Life, p: Place) { Handles(l.pc) && At(l.place, l.pc.id, p) }

  predicate HandUndone(l: Life) { Handles(l.pc) && l.pc.id in l.place && !l.place[l.pc.id].Done? }

  ghost predicate InSweep(place: map<Id, Place>, rest: seq<Id>) {
    Distinct(rest) && forall id :: id in rest ==> id in place && place[id].Running?
  }

  /** The request in the decode thread's hands. */
  ghost predicate HandOk(place: map<Id, Place>, pc: Pc) {
    match pc
    case Filling => true
    case Holding(id) => At(place, id, InHand)
    case Prefill(id, _, _) => At(place, id, InHand)
    case Sweeping(rest) => InSweep(place, rest)
    case Stepping(id, rest) => At(place, id, Running) && InSweep(place, rest) && id !in rest
    case Ending(id, _, end, sweep) =>
      && (At(place, id, InHand) || (At(place, id, Running) && sweep.Some? && !end.ToDeregister? && !end.ToTally?))
      && (sweep.Some? ==> InSweep(place, sweep.value) && id !in sweep.value)
  }

  ghost predicate Grips(pc: Pc, id: Id) {
    (pc.Holding? || pc.Prefill? || pc.Ending?) && pc.id == id
  }

  /** Registered and not yet deregistered. */
  ghost predicate Unfinished(p: Place, submissions: map<Thread, Submission>, pc: Pc) {
    match p
    case Submitting(t) => t in submissions && submissions[t].stage.Registered?
    case Waiting => true
    case Running => true
    case InHand => !(pc.Ending? && pc.end.ToTally?)
    case Done => false
    case TurnedAway => false
  }

  /** Whether the decode thread has already marked the request terminal. */
  ghost predicate Marked(pc: Pc, id: Id) {
    pc.Ending? && pc.id == id && !pc.end.ToMark?
  }

  ghost predicate StatusFits(st: Status, p: Place, submissions: map<Thread, Submission>, pc: Pc, id: Id) {
    match p
    case Submitting(t) => t in submissions && st == (if submissions[t].stage.Registered? then Queued else Received)
    case Waiting => st.Queued?
    case InHand =>
      if Marked(pc, id) then st == Verdict(pc.outcome)
      else if pc.Prefill? then st.Prefilling?
      else st.Queued? || st.Prefilling?
    case Running => if Marked(pc, id) then st == Verdict(pc.outcome) else st.Decoding?
    case Done => st.Completed? || st.Errored?
    case TurnedAway => st.Rejected?
  }

  /** The registry, the status and the decode thread agree with the place of a request. */
  ghost predicate FitsAt(l: Life, id: Id) {
    && id in l.place && id in l.status
    && (id in l.registry <==> Unfinished(l.place[id], l.submissions, l.pc))
    && StatusFits(l.status[id], l.place[id], l.submissions, l.pc, id)
    && (l.place[id].InHand? ==> Grips(l.pc, id))
  }

  ghost predicate Fits(l: Life) {
    && l.status.Keys == l.place.Keys
    && (forall id :: id in l.registry ==> id in l.place)
    && (forall id {:trigger FitsAt(l, id)} :: id in l.place ==> FitsAt(l, id))
  }

  /** The finished requests with a given status. */
  function Ended(finished: seq<Id>, status: map<Id, Status>, st: Status): set<Id> {
    set id | id in finished && id in status && status[id] == st
  }

  /** Each counter counts the finished requests with its status. */
  ghost predicate Tallied(finished: seq<Id>, status: map<Id, Status>, completed: nat, errored: nat) {
    && completed == |Ended(finished, status, Completed)| && errored == |Ended(finished, status, Errored)|
    && completed + errored == |finished|
  }

  ghost predicate Counted(l: Life) {
    Tallied(l.finished, l.status, l.completed, l.errored) && l.pushed == l.taken + l.pending
  }

  ghost predicate Bounded(l: Life, maxActive: nat) {
    && |l.active| <= maxActive
    && ((l.pc.Holding? || l.pc.Prefill?) ==> |l.active| < maxActive)
  }

  /** The queue and the threads inside `submit` together. */
  ghost predicate QueueBounded(l: Life, maxQueue: nat, threads: nat) {
    threads >= 1 ==> |l.pending| + |l.submissions| <= maxQueue + threads - 1
  }

  datatype Limits = Limits(maxQueue: nat, maxActive: nat, threads: nat)

  ghost predicate Inv(l: Life, u: Limits) {
    && Places(l) && Submitters(l.submissions, l.place, u.threads) && HandOk(l.place, l.pc) && Fits(l)
    && Counted(l) && Bounded(l, u.maxActive) && QueueBounded(l, u.maxQueue, u.threads)
  }

  // ---------------------------------------------------------------- helpers

  lemma {:induction false} ThreadBound(ts: set<Thread>, n: nat)
    requires forall t :: t in ts ==> t < n
    ensures |ts| <= n
  {
    if n > 0 {
      var rest := ts - {n - 1};
      ThreadBound(rest, n - 1);
      assert n - 1 in ts ==> ts == rest + {n - 1};
      assert n - 1 !in ts ==> ts == rest;
    } else {
      assert ts == {};
    }
  }

  /** The status of an unfinished request is not counted. */
  lemma TalliedSkip(l: Life, id: Id, st: Status)
    requires Tallied(l.finished, l.status, l.completed, l.errored) && id !in l.finished
    ensures Tallied(l.finished, l.status[id := st], l.completed, l.errored)
  {
    assert Ended(l.finished, l.status[id := st], Completed) == Ended(l.finished, l.status, Completed);
    assert Ended(l.finished, l.status[id := st], Errored) == Ended(l.finished, l.status, Errored);
  }

  lemma TalliedMore(l: Life, id: Id)
    requires Tallied(l.finished, l.status, l.completed, l.errored) && id !in l.finished
    requires id in l.status && (l.status[id].Completed? || l.status[id].Errored?)
    ensures if l.status[id].Completed? then Tallied(l.finished + [id], l.status, l.completed + 1, l.errored)
            else Tallied(l.finished + [id], l.status, l.completed, l.errored + 1)
  {
    var (st, other) := (l.status[id], if l.status[id].Completed? then Errored else Completed);
    assert Ended(l.finished + [id], l.status, st) == Ended(l.finished, l.status, st) + {id};
    assert Ended(l.finished + [id], l.status, other) == Ended(l.finished, l.status, other);
  }

  lemma ListsSkip(xs: seq<Id>, place: map<Id, Place>, p: Place, id: Id, q: Place)
    requires Lists(xs, place, p) && q != p && !At(place, id, p)
    ensures Lists(xs, place[id := q], p)
  {
  }

  lemma ListsAdd(xs: seq<Id>, place: map<Id, Place>, p: Place, id: Id)
    requires Lists(xs, place, p) && !At(place, id, p)
    ensures Lists(xs + [id], place[id := p], p)
  {
    DistinctAppend(xs, id);
  }

  lemma ListsTail(xs: seq<Id>, place: map<Id, Place>, p: Place, q: Place)
    requires Lists(xs, place, p) && xs != [] && q != p
    ensures Lists(xs[1..], place[xs[0] := q], p)
  {
    assert xs == [xs[0]] + xs[1..];
  }

  lemma ListsErase(xs: seq<Id>, place: map<Id, Place>, p: Place, id: Id, q: Place)
    requires Lists(xs, place, p) && q != p
    ensures Lists(Erase(xs, id), place[id := q], p)
  {
    EraseDistinct(xs, id);
  }

  /** `id` goes to a place that none of the lists holds, from another such place. */
  lemma PlacesSkip(l: Life, id: Id, q: Place)
    requires Places(l) && id in l.place && !l.place[id].Waiting? && !l.place[id].Running? && !l.place[id].Done?
    requires !q.Waiting? && !q.Running? && !q.Done?
    ensures Places(l.(place := l.place[id := q]))
  {
    ListsSkip(l.pending, l.place, Waiting, id, q);
    ListsSkip(l.active, l.place, Running, id, q);
    ListsSkip(l.finished, l.place, Done, id, q);
  }

  lemma PlacesNew(l: Life, id: Id, q: Place)
    requires Places(l) && id !in l.place && !q.Waiting? && !q.Running? && !q.Done?
    ensures Places(l.(order := l.order + [id], place := l.place[id := q]))
  {
    ListsSkip(l.pending, l.place, Waiting, id, q);
    ListsSkip(l.active, l.place, Running, id, q);
    ListsSkip(l.finished, l.place, Done, id, q);
    DistinctAppend(l.order, id);
  }

  lemma SweepSkip(place: map<Id, Place>, pc: Pc, id: Id, q: Place)
    requires HandOk(place, pc) && (id in place ==> !place[id].Running? && !place[id].InHand?)
    ensures HandOk(place[id := q], pc)
  {
  }

  lemma SubmittersSkip(submissions: map<Thread, Submission>, place: map<Id, Place>, threads: nat, id: Id, q: Place)
    requires Submitters(submissions, place, threads) && !q.Submitting? && (id in place ==> !place[id].Submitting?)
    ensures Submitters(submissions, place[id := q], threads)
  {
  }

  lemma SubmittersLeave(submissions: map<Thread, Submission>, place: map<Id, Place>, threads: nat, t: Thread, q: Place)
    requires Submitters(submissions, place, threads) && t in submissions && !q.Submitting?
    ensures Submitters(submissions - {t}, place[submissions[t].id := q], threads)
  {
  }

  lemma SubmittersJoin(submissions: map<Thread, Submission>, place: map<Id, Place>, threads: nat, t: Thread, id: Id)
    requires Submitters(submissions, place, threads) && t !in submissions && t < threads && id !in place
    ensures Submitters(submissions[t := Submission(id, QueueChecked)], place[id := Submitting(t)], threads)
  {
  }

  lemma SubmittersForward(submissions: map<Thread, Submission>, place: map<Id, Place>, threads: nat, t: Thread,
    stage: SubmitStage)
    requires Submitters(submissions, place, threads) && t in submissions
    ensures Submitters(submissions[t := submissions[t].(stage := stage)], place, threads)
  {
  }

  // ---------------------------------------------------------------- every step keeps the invariant

  lemma RefuseFits(l: Life, u: Limits, id: Id)
    requires Submitters(l.submissions, l.place, u.threads) && HandOk(l.place, l.pc) && Fits(l)
    requires id !in l.place
    ensures Fits(Refuse(l, id))
  {
    var l' := Refuse(l, id);
    forall x | x in l'.place ensures FitsAt(l', x) {
      assert x in l.place ==> FitsAt(l, x);
    }
  }

  lemma RefuseKeeps(l: Life, u: Limits, id: Id)
    requires Inv(l, u)
    requires id !in l.place
    ensures Inv(Refuse(l, id), u)
  {
    TalliedSkip(l, id, Rejected);
    RefuseFits(l, u, id);
    PlacesNew(l, id, TurnedAway);
    SubmittersSkip(l.submissions, l.place, u.threads, id, TurnedAway);
    SweepSkip(l.place, l.pc, id, TurnedAway);
  }

  lemma JoinFits(l: Life, u: Limits, t: Thread, id: Id)
    requires Submitters(l.submissions, l.place, u.threads) && HandOk(l.place, l.pc) && Fits(l)
    requires id !in l.place && t !in l.submissions && t < u.threads && |l.pending| < u.maxQueue
    ensures Fits(Join(l, t, id))
  {
    hide Submitters;
    var l' := Join(l, t, id);
    forall x | x in l'.place ensures FitsAt(l', x) {
      assert x in l.place ==> FitsAt(l, x);
    }
  }

  lemma JoinKeeps(l: Life, u: Limits, t: Thread, id: Id)
    requires Inv(l, u)
    requires id !in l.place && t !in l.submissions && t < u.threads && |l.pending| < u.maxQueue
    ensures Inv(Join(l, t, id), u)
  {
    TalliedSkip(l, id, Received);
    JoinFits(l, u, t, id);
    PlacesNew(l, id, Submitting(t));
    SubmittersJoin(l.submissions, l.place, u.threads, t, id);
    SweepSkip(l.place, l.pc, id, Submitting(t));
    ThreadBound(Join(l, t, id).submissions.Keys, u.threads);
  }

  lemma ForwardFits(l: Life, u: Limits, t: Thread, stage: SubmitStage)
    requires Submitters(l.submissions, l.place, u.threads) && HandOk(l.place, l.pc) && Fits(l)
    requires t in l.submissions && !l.submissions[t].stage.Registered? && !stage.Registered?
    ensures Fits(Forward(l, t, stage))
  {
    hide Submitters;
    var l' := Forward(l, t, stage);
    forall x | x in l'.place ensures FitsAt(l', x) {
      assert x in l.place ==> FitsAt(l, x);
    }
  }

  lemma ForwardKeeps(l: Life, u: Limits, t: Thread, stage: SubmitStage)
    requires Inv(l, u)
    requires t in l.submissions && !l.submissions[t].stage.Registered? && !stage.Registered?
    ensures Inv(Forward(l, t, stage), u)
  {
    ForwardFits(l, u, t, stage);
    SubmittersForward(l.submissions, l.place, u.threads, t, stage);
  }

  lemma TurnAwayFits(l: Life, u: Limits, t: Thread)
    requires Submitters(l.submissions, l.place, u.threads) && HandOk(l.place, l.pc) && Fits(l)
    requires t in l.submissions && !l.submissions[t].stage.Registered?
    ensures Fits(TurnAway(l, t))
  {
    var l' := TurnAway(l, t);
    forall x | x in l'.place ensures FitsAt(l', x) {
      assert x in l.place ==> FitsAt(l, x);
    }
  }

  lemma TurnAwayKeeps(l: Life, u: Limits, t: Thread)
    requires Inv(l, u)
    requires t in l.submissions && !l.submissions[t].stage.Registered?
    ensures Inv(TurnAway(l, t), u)
  {
    TalliedSkip(l, l.submissions[t].id, Rejected);
    TurnAwayFits(l, u, t);
    PlacesSkip(l, l.submissions[t].id, TurnedAway);
    SubmittersLeave(l.submissions, l.place, u.threads, t, TurnedAway);
    SweepSkip(l.place, l.pc, l.submissions[t].id, TurnedAway);
  }

  lemma RegisterFits(l: Life, u: Limits, t: Thread)
    requires Submitters(l.submissions, l.place, u.threads) && HandOk(l.place, l.pc) && Fits(l)
    requires InSubmit(l, t, Admitted)
    ensures Fits(Register(l, t))
  {
    var l' := Register(l, t);
    forall x | x in l'.place ensures FitsAt(l', x) {
      assert x in l.place ==> FitsAt(l, x);
    }
  }

  lemma RegisterKeeps(l: Life, u: Limits, t: Thread)
    requires Inv(l, u)
    requires InSubmit(l, t, Admitted)
    ensures Inv(Register(l, t), u)
  {
    TalliedSkip(l, l.submissions[t].id, Queued);
    RegisterFits(l, u, t);
    SubmittersForward(l.submissions, l.place, u.threads, t, Registered);
  }

  lemma EnqueueFits(l: Life, u: Limits, t: Thread)
    requires Submitters(l.submissions, l.place, u.threads) && HandOk(l.place, l.pc) && Fits(l)
    requires InSubmit(l, t, Registered)
    ensures Fits(Enqueue(l, t))
  {
    var l' := Enqueue(l, t);
    forall x | x in l'.place ensures FitsAt(l', x) {
      assert x in l.place ==> FitsAt(l, x);
    }
  }

  lemma EnqueueKeeps(l: Life, u: Limits, t: Thread)
    requires Inv(l, u)
    requires InSubmit(l, t, Registered)
    ensures Inv(Enqueue(l, t), u)
  {
    EnqueueFits(l, u, t);
    var id := l.submissions[t].id;
    ListsAdd(l.pending, l.place, Waiting, id);
    ListsSkip(l.active, l.place, Running, id, Waiting);
    ListsSkip(l.finished, l.place, Done, id, Waiting);
    SubmittersLeave(l.submissions, l.place, u.threads, t, Waiting);
    SweepSkip(l.place, l.pc, id, Waiting);
  }

  lemma TakeNextFits(l: Life, u: Limits)
    requires Submitters(l.submissions, l.place, u.threads) && HandOk(l.place, l.pc) && Fits(l)
    requires l.pc.Filling? && l.pending != [] && |l.active| < u.maxActive && At(l.place, l.pending[0], Waiting)
    ensures Fits(TakeNext(l))
  {
    hide Submitters;
    var l' := TakeNext(l);
    forall x | x in l'.place ensures FitsAt(l', x) {
      assert x in l.place ==> FitsAt(l, x);
    }
  }

  lemma TakeNextKeeps(l: Life, u: Limits)
    requires Inv(l, u)
    requires l.pc.Filling? && l.pending != [] && |l.active| < u.maxActive
    ensures Inv(TakeNext(l), u)
  {
    hide Submitters, FitsAt;
    TakeNextFits(l, u);
    var id := l.pending[0];
    ListsTail(l.pending, l.place, Waiting, InHand);
    ListsSkip(l.active, l.place, Running, id, InHand);
    ListsSkip(l.finished, l.place, Done, id, InHand);
    SubmittersSkip(l.submissions, l.place, u.threads, id, InHand);
  }

  lemma StartPrefillFits(l: Life, u: Limits)
    requires Submitters(l.submissions, l.place, u.threads) && HandOk(l.place, l.pc) && Fits(l)
    requires l.pc.Holding?
    ensures Fits(StartPrefill(l, l.pc.id))
  {
    var l' := StartPrefill(l, l.pc.id);
    forall x | x in l'.place ensures FitsAt(l', x) {
      assert x in l.place ==> FitsAt(l, x);
    }
  }

  lemma StartPrefillKeeps(l: Life, u: Limits)
    requires Inv(l, u)
    requires l.pc.Holding?
    ensures Inv(StartPrefill(l, l.pc.id), u)
  {
    TalliedSkip(l, l.pc.id, Prefilling);
    StartPrefillFits(l, u);
  }

  lemma ActivateFits(l: Life, u: Limits)
    requires Submitters(l.submissions, l.place, u.threads) && HandOk(l.place, l.pc) && Fits(l)
    requires l.pc.Prefill?
    ensures Fits(Activate(l, l.pc.id))
  {
    var l' := Activate(l, l.pc.id);
    forall x | x in l'.place ensures FitsAt(l', x) {
      assert x in l.place ==> FitsAt(l, x);
    }
  }

  lemma ActivateKeeps(l: Life, u: Limits)
    requires Inv(l, u)
    requires l.pc.Prefill?
    ensures Inv(Activate(l, l.pc.id), u)
  {
    TalliedSkip(l, l.pc.id, Decoding);
    ActivateFits(l, u);
    ListsSkip(l.pending, l.place, Waiting, l.pc.id, Running);
    ListsAdd(l.active, l.place, Running, l.pc.id);
    ListsSkip(l.finished, l.place, Done, l.pc.id, Running);
    SubmittersSkip(l.submissions, l.place, u.threads, l.pc.id, Running);
  }

  lemma MarkFits(l: Life, u: Limits)
    requires Submitters(l.submissions, l.place, u.threads) && HandOk(l.place, l.pc) && Fits(l)
    requires l.pc.Ending? && l.pc.end.ToMark?
    ensures Fits(Mark(l))
  {
    var l' := Mark(l);
    forall x | x in l'.place ensures FitsAt(l', x) {
      assert x in l.place ==> FitsAt(l, x);
    }
  }

  lemma MarkKeeps(l: Life, u: Limits)
    requires Inv(l, u)
    requires l.pc.Ending? && l.pc.end.ToMark?
    ensures Inv(Mark(l), u)
  {
    TalliedSkip(l, l.pc.id, Verdict(l.pc.outcome));
    MarkFits(l, u);
  }

  lemma EraseActiveFits(l: Life, u: Limits)
    requires Submitters(l.submissions, l.place, u.threads) && HandOk(l.place, l.pc) && Fits(l)
    requires l.pc.Ending? && l.pc.end.ToErase?
    ensures Fits(EraseActive(l))
  {
    var l' := EraseActive(l);
    forall x | x in l'.place ensures FitsAt(l', x) {
      assert x in l.place ==> FitsAt(l, x);
    }
  }

  lemma EraseActiveKeeps(l: Life, u: Limits)
    requires Inv(l, u)
    requires l.pc.Ending? && l.pc.end.ToErase?
    ensures Inv(EraseActive(l), u)
  {
    hide Fits, FitsAt, Tallied;
    EraseActiveFits(l, u);
    ListsSkip(l.pending, l.place, Waiting, l.pc.id, InHand);
    ListsErase(l.active, l.place, Running, l.pc.id, InHand);
    ListsSkip(l.finished, l.place, Done, l.pc.id, InHand);
    SubmittersSkip(l.submissions, l.place, u.threads, l.pc.id, InHand);
  }

  lemma DeregisterFits(l: Life, u: Limits)
    requires Submitters(l.submissions, l.place, u.threads) && HandOk(l.place, l.pc) && Fits(l)
    requires l.pc.Ending? && l.pc.end.ToDeregister?
    ensures Fits(Deregister(l))
  {
    var l' := Deregister(l);
    forall x | x in l'.place ensures FitsAt(l', x) {
      assert x in l.place ==> FitsAt(l, x);
    }
  }

  lemma DeregisterKeeps(l: Life, u: Limits)
    requires Inv(l, u)
    requires l.pc.Ending? && l.pc.end.ToDeregister?
    ensures Inv(Deregister(l), u)
  {
    hide Fits;
    DeregisterFits(l, u);
  }

  lemma TallyFits(l: Life, u: Limits)
    requires Submitters(l.submissions, l.place, u.threads) && HandOk(l.place, l.pc) && Fits(l)
    requires l.pc.Ending? && l.pc.end.ToTally?
    ensures Fits(Tally(l))
  {
    hide Submitters;
    var l' := Tally(l);
    forall x | x in l'.place ensures FitsAt(l', x) {
      assert x in l.place ==> FitsAt(l, x);
    }
  }

  lemma TallyHand(place: map<Id, Place>, pc: Pc)
    requires HandOk(place, pc) && pc.Ending? && pc.end.ToTally?
    ensures HandOk(place[pc.id := Done], Back(pc.sweep))
  {
  }

  lemma TallyKeeps(l: Life, u: Limits)
    requires Inv(l, u)
    requires l.pc.Ending? && l.pc.end.ToTally?
    ensures Inv(Tally(l), u)
  {
    assert FitsAt(l, l.pc.id);
    TalliedMore(l, l.pc.id);
    TallyFits(l, u);
    TallyHand(l.place, l.pc);
    ListsSkip(l.pending, l.place, Waiting, l.pc.id, Done);
    ListsSkip(l.active, l.place, Running, l.pc.id, Done);
    ListsAdd(l.finished, l.place, Done, l.pc.id);
    SubmittersSkip(l.submissions, l.place, u.threads, l.pc.id, Done);
  }

  /** The decode thread moves on without changing where any request is. */
  ghost predicate SameGrip(l: Life, pc: Pc) {
    && HandOk(l.place, pc)
    && ((l.pc.Holding? || l.pc.Prefill? || l.pc.Ending?) && At(l.place, l.pc.id, InHand) ==> Grips(pc, l.pc.id))
    && (forall id :: Marked(pc, id) <==> Marked(l.pc, id))
    && (pc.Ending? && !pc.end.ToMark? ==> l.pc.Ending? && pc.outcome == l.pc.outcome)
    && !(pc.Ending? && pc.end.ToTally?) && !(l.pc.Ending? && l.pc.end.ToTally?)
    && (pc.Prefill? ==> pc.id in l.status && l.status[pc.id].Prefilling?)
    && (pc.Holding? || pc.Prefill? ==> l.pc.Holding? || l.pc.Prefill?)
  }

  lemma GotoKeeps(l: Life, u: Limits, pc: Pc)
    requires Inv(l, u) && SameGrip(l, pc)
    ensures Inv(Goto(l, pc), u)
  {
    var l' := Goto(l, pc);
    forall x | x in l'.place ensures FitsAt(l', x) {
      assert FitsAt(l, x);
    }
  }

  lemma NobodyCounted(l: Life)
    requires Nobody(l)
    ensures Counted(l)
  {
    assert Ended(l.finished, l.status, Completed) == {} && Ended(l.finished, l.status, Errored) == {};
  }

  lemma NobodyInv(l: Life, u: Limits)
    requires Nobody(l)
    ensures Inv(l, u)
  {
    NobodyCounted(l);
  }

  ghost predicate Touches(pc: Pc, id: Id) {
    (pc.Holding? || pc.Prefill? || pc.Stepping? || pc.Ending?) && pc.id == id
  }

  /** The decode thread only works on requests in its hands or in the active list. */
  lemma TouchedPlace(l: Life, u: Limits, id: Id)
    requires Inv(l, u) && Touches(l.pc, id)
    ensures id in l.place && (l.place[id].InHand? || l.place[id].Running?)
  {
    hide Fits, Places;
  }

  lemma PendingPlace(l: Life, u: Limits)
    requires Inv(l, u) && l.pending != []
    ensures At(l.place, l.pending[0], Waiting)
  {
    assert l.pending[0] in l.pending;
  }

  lemma HoldingPlace(l: Life, u: Limits)
    requires Inv(l, u) && (l.pc.Holding? || l.pc.Prefill?)
    ensures At(l.place, l.pc.id, InHand)
  {
  }

  lemma SweepPlace(l: Life, u: Limits)
    requires Inv(l, u) && l.pc.Sweeping? && l.pc.rest != []
    ensures At(l.place, l.pc.rest[0], Running)
  {
    assert l.pc.rest[0] in l.pc.rest;
  }

  lemma SteppingPlace(l: Life, u: Limits)
    requires Inv(l, u) && l.pc.Stepping?
    ensures At(l.place, l.pc.id, Running)
  {
    hide Fits, Places;
  }

  lemma ActivePlace(l: Life, u: Limits, id: Id)
    requires Inv(l, u)
    ensures id in l.active <==> At(l.place, id, Running)
  {
  }

  lemma OrderPlace(l: Life, u: Limits, id: Id)
    requires Inv(l, u)
    ensures id in l.order <==> id in l.place
  {
  }

  lemma ActiveLists(l: Life, u: Limits)
    requires Inv(l, u)
    ensures Distinct(l.order) && Distinct(l.active) && forall id :: id in l.active ==> id in l.order
  {
  }

  lemma LeavingPlace(l: Life, u: Limits)
    requires Inv(l, u) && l.pc.Ending? && (l.pc.end.ToDeregister? || l.pc.end.ToTally?)
    ensures At(l.place, l.pc.id, InHand)
  {
    hide Places;
  }

  lemma SubmitterPlace(l: Life, u: Limits, t: Thread)
    requires Inv(l, u) && t in l.submissions
    ensures At(l.place, l.submissions[t].id, Submitting(t)) && !Touches(l.pc, l.submissions[t].id)
  {
    if Touches(l.pc, l.submissions[t].id) {
      TouchedPlace(l, u, l.submissions[t].id);
    }
  }

  // ---------------------------------------------------------------- moves of the decode thread

  lemma HandToEnd(l: Life, u: Limits, outcome: Outcome)
    requires Inv(l, u) && (l.pc.Holding? || l.pc.Prefill?)
    ensures Inv(Goto(l, Ending(l.pc.id, outcome, ToMark, None)), u)
  {
    hide Fits, Places;
    GotoKeeps(l, u, Ending(l.pc.id, outcome, ToMark, None));
  }

  lemma HandToPrefill(l: Life, u: Limits, d: Decision, stage: PrefillStage)
    requires Inv(l, u) && (l.pc.Holding? || l.pc.Prefill?) && l.pc.id in l.status && l.status[l.pc.id].Prefilling?
    ensures Inv(Goto(l, Prefill(l.pc.id, d, stage)), u)
  {
    hide Fits, Places;
    GotoKeeps(l, u, Prefill(l.pc.id, d, stage));
  }

  lemma PrefillStatus(l: Life, u: Limits)
    requires Inv(l, u) && l.pc.Prefill?
    ensures l.pc.id in l.status && l.status[l.pc.id].Prefilling?
  {
    assert FitsAt(l, l.pc.id);
  }

  lemma FillToSweep(l: Life, u: Limits)
    requires Inv(l, u) && l.pc.Filling?
    ensures Inv(Goto(l, Sweeping(l.active)), u)
  {
    hide Fits;
    GotoKeeps(l, u, Sweeping(l.active));
  }

  lemma SweepToFill(l: Life, u: Limits)
    requires Inv(l, u) && l.pc.Sweeping?
    ensures Inv(Goto(l, Filling), u)
  {
    hide Places;
    GotoKeeps(l, u, Filling);
  }

  lemma SweepToStep(l: Life, u: Limits)
    requires Inv(l, u) && l.pc.Sweeping? && l.pc.rest != []
    ensures Inv(Goto(l, Stepping(l.pc.rest[0], l.pc.rest[1..])), u)
  {
    hide Fits, Places;
    GotoKeeps(l, u, Stepping(l.pc.rest[0], l.pc.rest[1..]));
  }

  lemma SweepToEnd(l: Life, u: Limits, outcome: Outcome)
    requires Inv(l, u) && l.pc.Sweeping? && l.pc.rest != []
    ensures Inv(Goto(l, Ending(l.pc.rest[0], outcome, ToMark, Some(l.pc.rest[1..]))), u)
  {
    hide Places;
    GotoKeeps(l, u, Ending(l.pc.rest[0], outcome, ToMark, Some(l.pc.rest[1..])));
  }

  lemma StepToSweep(l: Life, u: Limits)
    requires Inv(l, u) && l.pc.Stepping?
    ensures Inv(Goto(l, Sweeping(l.pc.rest)), u)
  {
    hide Fits, Places;
    GotoKeeps(l, u, Sweeping(l.pc.rest));
  }

  lemma StepToEnd(l: Life, u: Limits, outcome: Outcome)
    requires Inv(l, u) && l.pc.Stepping?
    ensures Inv(Goto(l, Ending(l.pc.id, outcome, ToMark, Some(l.pc.rest))), u)
  {
    hide Fits, Places;
    GotoKeeps(l, u, Ending(l.pc.id, outcome, ToMark, Some(l.pc.rest)));
  }

  /** Between the steps of finishing a request that the active list and the registry do not see. */
  lemma EndToEnd(l: Life, u: Limits, end: EndStage)
    requires Inv(l, u) && l.pc.Ending? && !l.pc.end.ToMark? && !end.ToMark?
    requires !l.pc.end.ToTally? && !end.ToTally? && !end.ToDeregister?
    ensures Inv(Goto(l, l.pc.(end := end)), u)
  {
    hide Places;
    GotoKeeps(l, u, l.pc.(end := end));
  }
}
