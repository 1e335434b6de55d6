/** The token queue between the decode thread and an HTTP thread (include/scheduler/request.hpp:23-100). */
module Stream {
  import opened Wrappers

  datatype FinishReason = Stop | Length | NoReason

  datatype Event =
    | Token(id: int, text: string)
    | Complete(reason: FinishReason)
    | Failed(error: Error)

  /** `accepted`, `popped` and `attempts` are history: the events that entered and left the queue, and
      the number of pushes tried while it was open. */
  datatype Stream = Stream(
    capacity: nat, events: seq<Event>, closed: bool, dropped: nat,
    accepted: seq<Event>, popped: seq<Event>, attempts: nat)

  function Fresh(capacity: nat): Stream { Stream(capacity, [], false, 0, [], [], 0) }

  function Push(s: Stream, e: Event): (Stream, bool) {
    if s.closed then (s, false)
    else if |s.events| >= s.capacity then (s.(dropped := s.dropped + 1, attempts := s.attempts + 1), false)
    else
      (s.(events := s.events + [e], accepted := s.accepted + [e], attempts := s.attempts + 1), true)
  }

  /** `pop`, once its wait is over: nothing if the queue is empty, whether it is closed or the wait
      timed out. */
  function Pop(s: Stream): (Stream, Option<Event>) {
    if s.events == [] then (s, None)
    else (s.(events := s.events[1..], popped := s.popped + [s.events[0]]), Some(s.events[0]))
  }

  function Close(s: Stream): Stream { s.(closed := true) }

  // ---------------------------------------------------------------- every interleaving

  datatype Op = DoPush(event: Event) | DoPop | DoClose

  function Step(s: Stream, op: Op): Stream {
    match op
    case DoPush(e) => Push(s, e).0
    case DoPop => Pop(s).0
    case DoClose => Close(s)
  }

  function Run(s: Stream, ops: seq<Op>): Stream {
    if ops == [] then s else Step(Run(s, ops[..|ops| - 1]), ops[|ops| - 1])
  }

  /** First in, first out; nothing lost except the drops that are counted; never over capacity. */
  ghost predicate Sound(s: Stream) {
    && s.popped + s.events == s.accepted
    && |s.events| <= s.capacity
    && s.attempts == |s.popped| + |s.events| + s.dropped
  }

  lemma StepSound(s: Stream, op: Op)
    requires Sound(s)
    ensures Sound(Step(s, op)) && s.accepted <= Step(s, op).accepted && s.popped <= Step(s, op).popped
    ensures s.closed ==> Step(s, op).closed && Step(s, op).accepted == s.accepted
  {
    match op
    case DoPush(e) =>
      if !s.closed && |s.events| < s.capacity {
        assert s.popped + (s.events + [e]) == (s.popped + s.events) + [e];
      }
    case DoPop =>
      if s.events != [] {
        assert s.popped + s.events == (s.popped + [s.events[0]]) + s.events[1..];
      }
    case DoClose =>
  }

  /** Over any sequence of pushes, pops and closes. */
  lemma {:induction false} RunSound(s: Stream, ops: seq<Op>)
    requires Sound(s)
    ensures Sound(Run(s, ops))
    ensures s.closed ==> Run(s, ops).closed && Run(s, ops).accepted == s.accepted
    ensures s.accepted <= Run(s, ops).accepted && s.popped <= Run(s, ops).popped
  {
    if ops != [] {
      RunSound(s, ops[..|ops| - 1]);
      StepSound(Run(s, ops[..|ops| - 1]), ops[|ops| - 1]);
    }
  }

  /** The events that a run tries to push. */
  function Offered(ops: seq<Op>): seq<Event> {
    if ops == [] then []
    else
      var last := ops[|ops| - 1];
      Offered(ops[..|ops| - 1]) + if last.DoPush? then [last.event] else []
  }

  /** An open queue with room for everything that a run offers accepts all of it, in order, and drops
      nothing, until it is closed. */
  lemma {:induction false} RoomAccepts(s: Stream, ops: seq<Op>)
    requires !s.closed && |s.events| + |Offered(ops)| <= s.capacity && DoClose !in ops
    ensures var t := Run(s, ops);
      && t.accepted == s.accepted + Offered(ops) && t.dropped == s.dropped && !t.closed
      && t.capacity == s.capacity && |t.events| <= |s.events| + |Offered(ops)|
  {
    if ops != [] {
      var init := ops[..|ops| - 1];
      assert DoClose !in init && ops[|ops| - 1] in ops;
      RoomAccepts(s, init);
    }
  }

  /** While nothing is taken out, a full queue drops everything that a run offers, and counts it. */
  lemma {:induction false} FullDrops(s: Stream, ops: seq<Op>)
    requires !s.closed && |s.events| >= s.capacity && DoPop !in ops && DoClose !in ops
    ensures Run(s, ops) == s.(dropped := s.dropped + |Offered(ops)|, attempts := s.attempts + |Offered(ops)|)
  {
    if ops != [] {
      var init := ops[..|ops| - 1];
      assert DoClose !in init && DoPop !in init && ops[|ops| - 1] in ops;
      FullDrops(s, init);
    }
  }
}
