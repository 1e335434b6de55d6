/** The token queue as it is written (include/scheduler/request.hpp:32-100). */
module TokenQueue {
  import opened Wrappers
  import S = Stream

  class Queue {
    const capacity: nat
    var events: seq<S.Event>
    var closed: bool
    var dropped: nat
    ghost var accepted: seq<S.Event>
    ghost var popped: seq<S.Event>
    ghost var attempts: nat

    ghost function Contents(): S.Stream
      reads this
    {
      S.Stream(capacity, events, closed, dropped, accepted, popped, attempts)
    }

    constructor (capacity: nat)
      ensures Contents() == S.Fresh(capacity) && S.Sound(Contents())
    {
      this.capacity := capacity;
      events, closed, dropped := [], false, 0;
      accepted, popped, attempts := [], [], 0;
    }

    method Push(e: S.Event) returns (pushed: bool)
      requires S.Sound(Contents())
      modifies this
      ensures (Contents(), pushed) == S.Push(old(Contents()), e) && S.Sound(Contents())
      ensures pushed <==> !old(closed) && |old(events)| < capacity
      ensures events == (if pushed then old(events) + [e] else old(events)) && closed == old(closed)
      ensures dropped == old(dropped) + if old(closed) || pushed then 0 else 1
    {
      S.StepSound(Contents(), S.DoPush(e));
      if closed {
        return false;
      }
      attempts := attempts + 1;
      if |events| >= capacity {
        dropped := dropped + 1;
        return false;
      }
      events := events + [e];
      accepted := accepted + [e];
      return true;
    }

    method Pop() returns (e: Option<S.Event>)
      requires S.Sound(Contents())
      modifies this
      ensures (Contents(), e) == S.Pop(old(Contents())) && S.Sound(Contents())
      ensures if old(events) == [] then e == None && events == []
              else e == Some(old(events)[0]) && events == old(events)[1..]
    {
      S.StepSound(Contents(), S.DoPop);
      if events == [] {
        return None;
      }
      e := Some(events[0]);
      popped := popped + [events[0]];
      events := events[1..];
    }

    method Close()
      requires S.Sound(Contents())
      modifies this
      ensures Contents() == S.Close(old(Contents())) && S.Sound(Contents())
      ensures closed && events == old(events) && dropped == old(dropped)
    {
      closed := true;
    }
  }
}

/** A client thread that polls the queue of its request while the decode thread fills it
    (src/api/routes.cpp:273-381, 403-447; src/scheduler/scheduler.cpp:352-376, 506-567). */
module Client {
  import opened Wrappers
  import opened Stream
  import opened Talks
  import G = Generation

  /** How the client left its loop: on a terminal event, on finding the request terminal after an
      empty poll, on its own timeout, or because a write failed. */
  datatype Exit = ByEvent | ByState | ByTimeout | ByDisconnect

  /** The client is about to poll, has polled in vain, or has left. `sawEnd` is history: whether after
      its last poll the end had been announced and nothing was queued. */
  datatype Phase = Polling | Checking(sawEnd: bool) | Left(exit: Exit, sawEnd: bool)

  /** A request as its client sees it, and the client. */
  datatype Session = Session(stream: Stream, terminal: bool, announced: bool, phase: Phase)

  /** `delivers` tells whether the client's connection takes what is written. */
  datatype Act =
    | Speak(token: int, text: string) | SetTerminal | AnnounceEnd(last: Event) | CloseQueue
    | Poll(delivers: bool) | Look(expired: bool)

  function Opened(capacity: nat): Session { Session(Fresh(capacity), false, false, Polling) }

  /** The decode thread speaks until it sets the final state, then announces the end, then closes. */
  predicate Possible(s: Session, a: Act) {
    match a
    case Speak(_, _) => !s.terminal
    case SetTerminal => !s.terminal
    case AnnounceEnd(last) => s.terminal && !s.announced && !last.Token?
    case CloseQueue => s.announced && !s.stream.closed
    case Poll(_) => s.phase.Polling?
    case Look(_) => s.phase.Checking?
  }

  /** Where a poll leaves the client. */
  function AfterPoll(e: Option<Event>, sawEnd: bool, delivers: bool): Phase {
    match e
    case None => Checking(sawEnd)
    case Some(event) =>
      if !event.Token? then Left(ByEvent, sawEnd)
      else if event.text != "" && !delivers then Left(ByDisconnect, sawEnd)
      else Polling
  }

  function Do(s: Session, a: Act): Session {
    match a
    case Speak(token, text) => s.(stream := Push(s.stream, Token(token, text)).0)
    case SetTerminal => s.(terminal := true)
    case AnnounceEnd(last) => s.(stream := Push(s.stream, last).0, announced := true)
    case CloseQueue => s.(stream := Close(s.stream))
    case Poll(delivers) =>
      var (q, e) := Pop(s.stream);
      s.(stream := q, phase := AfterPoll(e, s.announced && q.events == [], delivers))
    case Look(expired) =>
      if !s.phase.Checking? then s
      else if s.terminal then s.(phase := Left(ByState, s.phase.sawEnd))
      else if expired then s.(phase := Left(ByTimeout, s.phase.sawEnd))
      else s.(phase := Polling)
  }

  ghost predicate Plays(s: Session, acts: seq<Act>, t: Session)
    decreases |acts|
  {
    if acts == [] then t == s else Possible(s, acts[0]) && Plays(Do(s, acts[0]), acts[1..], t)
  }

  // ---------------------------------------------------------------- invariant

  /** Everything that was accepted has been read. */
  ghost predicate ReadAll(q: Stream) { q.popped == q.accepted }

  /** What the client's last poll tells about the queue now. */
  ghost predicate PhaseOk(s: Session) {
    && (!(s.phase.Left? && s.phase.exit.ByEvent?) ==> TokensOnly(s.stream.popped))
    && (s.phase.Left? && s.phase.exit.ByEvent? ==> s.phase.sawEnd)
    && (s.phase.Checking? || s.phase.Left? ==>
          && (s.phase.sawEnd ==> s.announced && s.stream.events == [])
          && (!s.phase.sawEnd && s.announced && s.stream.capacity >= 1 ==> s.stream.events != []))
  }

  ghost predicate Ok(s: Session) {
    && Sound(s.stream) && PhaseOk(s)
    && (s.stream.closed ==> s.announced) && (s.announced ==> s.terminal)
    && (if s.announced then Ended(s.stream.accepted) else TokensOnly(s.stream.accepted))
    && (s.announced && s.stream.dropped == 0 ==> !TokensOnly(s.stream.accepted))
  }

  /** All but the last event are tokens. */
  lemma TerminalOnlyLast(accepted: seq<Event>)
    requires Ended(accepted)
    ensures forall i :: 0 <= i < |accepted| - 1 ==> accepted[i].Token?
  {
    if !TokensOnly(accepted) {
      var front := accepted[..|accepted| - 1];
      forall i | 0 <= i < |accepted| - 1 ensures accepted[i].Token? {
        assert front[i] == accepted[i];
      }
    }
  }

  lemma PollOk(s: Session, delivers: bool)
    requires Ok(s) && s.phase.Polling?
    ensures Ok(Do(s, Poll(delivers)))
  {
    StepSound(s.stream, DoPop);
    var q := s.stream;
    if q.events != [] {
      var n := |q.popped|;
      assert q.accepted[n] == q.events[0];
      if !q.events[0].Token? {
        TerminalOnlyLast(q.accepted);
        assert |q.events| == 1;
      }
    }
  }

  lemma PushOk(s: Session, a: Act)
    requires Ok(s) && Possible(s, a) && (a.Speak? || a.AnnounceEnd?)
    ensures Ok(Do(s, a))
  {
    var e := if a.Speak? then Token(a.token, a.text) else a.last;
    StepSound(s.stream, DoPush(e));
    assert (s.stream.accepted + [e])[..|s.stream.accepted|] == s.stream.accepted;
    assert (s.stream.accepted + [e])[|s.stream.accepted|] == e;
  }

  lemma DoOk(s: Session, a: Act)
    requires Ok(s) && Possible(s, a)
    ensures Ok(Do(s, a))
  {
    match a
    case Speak(_, _) => PushOk(s, a);
    case SetTerminal =>
    case AnnounceEnd(_) => PushOk(s, a);
    case CloseQueue =>
    case Poll(delivers) => PollOk(s, delivers);
    case Look(_) =>
  }

  lemma {:induction false} PlaysOk(s: Session, acts: seq<Act>, t: Session)
    requires Ok(s) && Plays(s, acts, t)
    ensures Ok(t)
    decreases |acts|
  {
    if acts != [] {
      DoOk(s, acts[0]);
      PlaysOk(Do(s, acts[0]), acts[1..], t);
    }
  }

  // ---------------------------------------------------------------- guarantees

  /** In every interleaving: once the end has been announced, so that nothing more can come, a client
      that has left has read every event the queue ever accepted if and only if the end had been
      announced, and nothing was queued, after its last poll; on a terminal event that is so. */
  lemma LeavesWithEverythingIff(capacity: nat, acts: seq<Act>, t: Session)
    requires capacity >= 1 && Plays(Opened(capacity), acts, t) && t.announced && t.phase.Left?
    ensures ReadAll(t.stream) <==> t.phase.sawEnd
    ensures t.phase.exit.ByEvent? ==> ReadAll(t.stream)
  {
    PlaysOk(Opened(capacity), acts, t);
    SameCapacity(Opened(capacity), acts, t);
    assert |t.stream.popped + t.stream.events| == |t.stream.accepted|;
    assert t.stream.events == [] ==> t.stream.popped + t.stream.events == t.stream.popped;
  }

  /** What the client and the queue can tell: it has read everything if and only if it left on the terminal
      event, or that event was dropped from a full queue and nothing is left in the queue. So while nothing
      is dropped, exactly the clients that leave on the terminal event have read everything. */
  lemma ReadsAllVisibly(capacity: nat, acts: seq<Act>, t: Session)
    requires capacity >= 1 && Plays(Opened(capacity), acts, t) && t.announced && t.phase.Left?
    ensures ReadAll(t.stream) <==>
      t.phase.exit.ByEvent? || (TokensOnly(t.stream.accepted) && t.stream.events == [])
    ensures t.stream.dropped == 0 ==> (ReadAll(t.stream) <==> t.phase.exit.ByEvent?)
  {
    PlaysOk(Opened(capacity), acts, t);
    LeavesWithEverythingIff(capacity, acts, t);
    assert t.stream.events == [] ==> t.stream.popped + t.stream.events == t.stream.popped;
  }

  lemma {:induction false} SameCapacity(s: Session, acts: seq<Act>, t: Session)
    requires Plays(s, acts, t)
    ensures t.stream.capacity == s.stream.capacity
    decreases |acts|
  {
    if acts != [] {
      SameCapacity(Do(s, acts[0]), acts[1..], t);
    }
  }

  /** The client's own steps, with no one else moving, until it has left. */
  function Alone(s: Session, fuel: nat): Session
    decreases fuel
  {
    if fuel == 0 || s.phase.Left? then s
    else Alone(Do(s, if s.phase.Polling? then Poll(true) else Look(false)), fuel - 1)
  }

  /** Once the queue is closed the client leaves within two steps more than the queue holds. */
  lemma {:induction false} ClosedMeansLeaving(s: Session)
    requires Ok(s) && s.stream.closed
    ensures Alone(s, |s.stream.events| + 2).phase.Left?
    decreases |s.stream.events|
  {
    if s.phase.Polling? {
      PollOk(s, true);
      var next := Do(s, Poll(true));
      if s.stream.events != [] {
        assert Alone(s, |s.stream.events| + 2) == Alone(next, |next.stream.events| + 2);
        ClosedMeansLeaving(next);
      } else {
        assert next.phase == Checking(true) && next.terminal;
        assert Alone(s, 2) == Alone(next, 1);
        assert Do(next, Look(false)).phase.Left?;
        assert Alone(next, 1) == Alone(Do(next, Look(false)), 0);
      }
    } else if s.phase.Checking? {
      var n := |s.stream.events| + 1;
      assert Alone(s, n + 1) == Alone(Do(s, Look(false)), n);
    }
  }

  /** A client that leaves because it found the request terminal after a poll that merely timed out
      may miss what was sent in between: here the only token and the end. */
  lemma LateTokenMissed(capacity: nat, token: int, text: string, last: Event) returns (acts: seq<Act>, t: Session)
    requires capacity >= 2 && !last.Token?
    ensures Plays(Opened(capacity), acts, t) && t.phase == Left(ByState, false)
    ensures t.stream.popped == [] && t.stream.accepted == [Token(token, text), last]
  {
    var s0 := Opened(capacity);
    var s1 := Do(s0, Poll(true));
    var s2 := Do(s1, Speak(token, text));
    var s3 := Do(s2, SetTerminal);
    var s4 := Do(s3, AnnounceEnd(last));
    t := Do(s4, Look(false));
    assert Plays(t, [], t);
    PlaysThen(s4, Look(false), [], t);
    PlaysThen(s3, AnnounceEnd(last), [Look(false)], t);
    PlaysThen(s2, SetTerminal, [AnnounceEnd(last), Look(false)], t);
    PlaysThen(s1, Speak(token, text), [SetTerminal, AnnounceEnd(last), Look(false)], t);
    acts := [Poll(true)] + ([Speak(token, text)] + ([SetTerminal] + ([AnnounceEnd(last)] + ([Look(false)] + []))));
    PlaysThen(s0, Poll(true), [Speak(token, text)] + ([SetTerminal] + ([AnnounceEnd(last)] + ([Look(false)] + []))), t);
  }

  lemma PlaysThen(s: Session, a: Act, acts: seq<Act>, t: Session)
    requires Possible(s, a) && Plays(Do(s, a), acts, t)
    ensures Plays(s, [a] + acts, t)
  {
    assert ([a] + acts)[1..] == acts;
  }

  // ---------------------------------------------------------------- the loop

  /** What the decode thread does around one poll of the client: before it, and between an empty poll
      and the look at the request's state; whether the connection takes what is written; and whether
      the client's own timeout has expired by then. */
  datatype Round = Round(before: seq<Act>, between: seq<Act>, delivers: bool, expired: bool)

  predicate ByProducer(a: Act) { !a.Poll? && !a.Look? }

  /** The acts of the decode thread among `acts` that are possible in turn. */
  function Perform(s: Session, acts: seq<Act>): Session
    decreases |acts|
  {
    if acts == [] then s
    else Perform(if ByProducer(acts[0]) && Possible(s, acts[0]) then Do(s, acts[0]) else s, acts[1..])
  }

  lemma {:induction false} PerformOk(s: Session, acts: seq<Act>)
    requires Ok(s)
    ensures Ok(Perform(s, acts)) && Perform(s, acts).phase == s.phase
    ensures Perform(s, acts).stream.popped == s.stream.popped
    decreases |acts|
  {
    if acts != [] {
      if ByProducer(acts[0]) && Possible(s, acts[0]) {
        DoOk(s, acts[0]);
        PerformOk(Do(s, acts[0]), acts[1..]);
      } else {
        PerformOk(s, acts[1..]);
      }
    }
  }

  lemma ConcatMore(pieces: seq<string>, piece: string)
    ensures G.Concat(pieces + [piece]) == G.Concat(pieces) + piece
  {
    assert (pieces + [piece])[..|pieces|] == pieces;
  }

  /** What has been written spells the tokens that have been read. */
  ghost predicate Spells(sent: seq<string>, popped: seq<Event>) {
    G.Concat(sent) == G.Concat(Texts(popped)) && "" !in sent
  }

  /** Reads one event and writes its text, if it has any. */
  method Write(sent: seq<string>, ghost popped: seq<Event>, e: Event) returns (after: seq<string>)
    requires Spells(sent, popped)
    ensures Spells(after, popped + [e])
  {
    after := sent;
    TextsAppend(popped, e);
    if e.Token? {
      ConcatMore(Texts(popped), e.text);
      if e.text != "" {
        ConcatMore(sent, e.text);
        after := sent + [e.text];
      }
    } else {
      assert Texts(popped + [e]) == Texts(popped);
    }
  }

  lemma LookOk(s: Session, expired: bool)
    requires Ok(s) && s.phase.Checking?
    ensures var t := Do(s, Look(expired));
      && Ok(t) && t.stream == s.stream && !t.phase.Checking?
      && (t.phase.Left? ==> t.phase.exit.ByState? || t.phase.exit.ByTimeout?)
  {
  }

  /** What has been written spells the tokens read, up to the one whose write failed. */
  ghost predicate Written(sent: seq<string>, t: Session) {
    if t.phase.Left? && t.phase.exit.ByDisconnect? then
      t.stream.popped != [] && Spells(sent, t.stream.popped[..|t.stream.popped| - 1])
    else Spells(sent, t.stream.popped)
  }

  /** One poll, and the write of what it brings. */
  method Receive(sent: seq<string>, t: Session, delivers: bool) returns (after: seq<string>, t': Session)
    requires Ok(t) && t.phase.Polling? && Spells(sent, t.stream.popped)
    ensures t' == Do(t, Poll(delivers)) && Ok(t') && Written(after, t')
  {
    PollOk(t, delivers);
    t' := Do(t, Poll(delivers));
    after := sent;
    var event := Pop(t.stream).1;
    if event.Some? {
      assert t'.stream.popped == t.stream.popped + [event.value];
      if t'.phase.Left? && t'.phase.exit.ByDisconnect? {
        assert t'.stream.popped[..|t.stream.popped|] == t.stream.popped;
      } else {
        after := Write(sent, t.stream.popped, event.value);
      }
    }
  }

  /** An empty poll: the decode thread goes on, and then the client looks at the request's state. */
  method Reconsider(sent: seq<string>, t: Session, round: Round) returns (t': Session)
    requires Ok(t) && t.phase.Checking? && Spells(sent, t.stream.popped)
    ensures Ok(t') && !t'.phase.Checking? && Written(sent, t') && (t'.phase.Left? ==> !t'.phase.exit.ByEvent?)
  {
    PerformOk(t, round.between);
    t' := Perform(t, round.between);
    LookOk(t', round.expired);
    t' := Do(t', Look(round.expired));
  }

  /** The polling loop of a streamed response. What it has written spells the tokens it has read, but for
      one whose write failed; and if it left on a terminal event it has read everything. */
  method Relay(capacity: nat, rounds: seq<Round>) returns (sent: seq<string>, t: Session)
    ensures Ok(t) && Written(sent, t)
    ensures t.phase.Left? && t.phase.exit.ByEvent? ==> Spells(sent, t.stream.accepted)
  {
    t := Opened(capacity);
    sent := [];
    var (done, i) := (false, 0);
    while !done && i < |rounds|
      invariant 0 <= i <= |rounds| && Ok(t) && (if done then t.phase.Left? else t.phase.Polling?)
      invariant Written(sent, t)
      decreases |rounds| - i
    {
      PerformOk(t, rounds[i].before);
      t := Perform(t, rounds[i].before);
      sent, t := Receive(sent, t, rounds[i].delivers);
      if t.phase.Checking? {
        t := Reconsider(sent, t, rounds[i]);
      }
      done := t.phase.Left?;
      i := i + 1;
    }
    if t.phase.Left? && t.phase.exit.ByEvent? {
      assert t.stream.popped + t.stream.events == t.stream.popped;
    }
  }
}
