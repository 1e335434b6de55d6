/** Every run of the step system, seen by the client of one request, is a session: the order in which the
    decode thread speaks, marks, announces and closes is derived here, not assumed. */
module Sessions {
  import opened Wrappers
  import opened Stream
  import opened Talks
  import opened System
  import opened Safety
  import opened Locality
  import opened Delivery
  import Cl = Client
  import A = Allocator
  import L = Lifecycle

  /** The request as its client sees it; before it is submitted it is new. */
  ghost function View(u: Setup, s: State, id: Id, phase: Cl.Phase): Cl.Session {
    if Recorded(s, id) then
      Cl.Session(s.talks[id].stream, L.Terminal(s.life.status[id]),
                 Announced(s.life.place[id], ModeOf(s.life.pc, id)), phase)
    else Cl.Opened(u.capacity).(phase := phase)
  }

  /** Nothing, or one act of the decode thread. */
  ghost predicate Produces(v: Cl.Session, w: Cl.Session) {
    w == v || exists a :: Cl.ByProducer(a) && Cl.Possible(v, a) && w == Cl.Do(v, a)
  }

  /** The request can still get tokens. */
  ghost predicate Open(s: State, id: Id) {
    Recorded(s, id) && !L.Terminal(s.life.status[id]) && !Announced(s.life.place[id], ModeOf(s.life.pc, id))
  }

  // ---------------------------------------------------------------- steps that do not work on the request

  lemma OtherSteps(u: Setup, s: State, step: Step, id: Id, phase: Cl.Phase)
    requires Enabled(u, s, step) && Recorded(s, id) && WorksOn(u, s, step) != Some(id) && step != Consume(id)
    ensures View(u, Apply(u, s, step), id, phase) == View(u, s, id, phase)
  {
    hide Apply, Enabled;
    StepLocal(u, s, step, id);
  }

  // ---------------------------------------------------------------- steps that do

  lemma OfferView(u: Setup, s: State, step: Step, id: Id, phase: Cl.Phase)
    requires Enabled(u, s, step) && step.Offer? && step.id == id && !Recorded(s, id) && !L.Touches(s.life.pc, id)
    ensures Produces(View(u, s, id, phase), View(u, Apply(u, s, step), id, phase))
  {
    hide Enabled;
    var (v, w) := (View(u, s, id, phase), View(u, Apply(u, s, step), id, phase));
    assert w == v || w == Cl.Do(v, Cl.SetTerminal);
  }

  lemma SubmitView(u: Setup, s: State, step: Step, id: Id, phase: Cl.Phase)
    requires Enabled(u, s, step) && OfSubmit(step) && !step.Offer? && WorksOn(u, s, step) == Some(id) && Open(s, id)
    requires !L.Touches(s.life.pc, id)
    ensures Produces(View(u, s, id, phase), View(u, Apply(u, s, step), id, phase))
  {
    hide Enabled;
    var (v, w) := (View(u, s, id, phase), View(u, Apply(u, s, step), id, phase));
    assert w == v || w == Cl.Do(v, Cl.SetTerminal);
  }

  lemma FillView(u: Setup, s: State, step: Step, id: Id, phase: Cl.Phase)
    requires Enabled(u, s, step) && (OfFill(step) || OfPrefill(step)) && WorksOn(u, s, step) == Some(id) && Open(s, id)
    ensures View(u, Apply(u, s, step), id, phase) == View(u, s, id, phase)
  {
    hide A.Coherent, A.Allocate, A.GiveBack;
  }

  lemma EntryView(u: Setup, s: State, step: Step, id: Id, phase: Cl.Phase)
    requires Enabled(u, s, step) && OfEntry(step) && WorksOn(u, s, step) == Some(id) && Open(s, id)
    ensures Produces(View(u, s, id, phase), View(u, Apply(u, s, step), id, phase))
  {
    hide A.Coherent, A.Allocate, A.GiveBack;
    var (v, w) := (View(u, s, id, phase), View(u, Apply(u, s, step), id, phase));
    if step.TokenEntry? && !s.talks[id].cancelled {
      assert w == Cl.Do(v, Cl.Speak(step.token, step.piece));
    } else {
      assert w == v;
    }
  }

  /** How far a request that is being finished has come. */
  ghost predicate Stands(s: State, id: Id) {
    && Recorded(s, id) && s.life.pc.Ending? && s.life.pc.id == id && !s.life.place[id].Done?
    && (L.Terminal(s.life.status[id]) <==> !s.life.pc.end.ToMark?)
    && (s.talks[id].stream.closed <==> Closed(s.life.place[id], ModeOf(s.life.pc, id)))
  }

  lemma EndView(u: Setup, s: State, step: Step, id: Id, phase: Cl.Phase)
    requires Enabled(u, s, step) && (step.Mark? || step.AnnounceEnd? || step.CloseQueue?)
    requires WorksOn(u, s, step) == Some(id) && Stands(s, id)
    ensures Produces(View(u, s, id, phase), View(u, Apply(u, s, step), id, phase))
  {
    hide A.Coherent, A.Allocate, A.GiveBack;
    var (v, w) := (View(u, s, id, phase), View(u, Apply(u, s, step), id, phase));
    if step.Mark? {
      assert w == Cl.Do(v, Cl.SetTerminal);
    } else if step.AnnounceEnd? {
      assert w == Cl.Do(v, Cl.AnnounceEnd(LastEvent(s.life.pc.outcome)));
    } else {
      assert w == Cl.Do(v, Cl.CloseQueue);
    }
  }

  lemma FreeBudgetView(u: Setup, s: State, step: Step, id: Id, phase: Cl.Phase)
    requires Enabled(u, s, step) && step.FreeBudget? && WorksOn(u, s, step) == Some(id)
    requires if s.life.pc.Ending? then Stands(s, id) else Open(s, id)
    ensures View(u, Apply(u, s, step), id, phase) == View(u, s, id, phase)
  {
  }

  lemma FreeKvView(u: Setup, s: State, step: Step, id: Id, phase: Cl.Phase)
    requires Enabled(u, s, step) && step.FreeKv? && WorksOn(u, s, step) == Some(id)
    requires if s.life.pc.Ending? then Stands(s, id) else Open(s, id)
    ensures View(u, Apply(u, s, step), id, phase) == View(u, s, id, phase)
  {
  }

  lemma LeaveView(u: Setup, s: State, step: Step, id: Id, phase: Cl.Phase)
    requires Enabled(u, s, step) && (step.EraseActive? || step.Deregister? || step.Tally?)
    requires WorksOn(u, s, step) == Some(id)
    requires if s.life.pc.Ending? then Stands(s, id) else Open(s, id)
    ensures View(u, Apply(u, s, step), id, phase) == View(u, s, id, phase)
  {
    hide A.Coherent, A.Allocate, A.GiveBack;
  }

  // ---------------------------------------------------------------- what the invariant says of the request

  lemma OpenFact(u: Setup, s: State, id: Id)
    requires Inv(u, s) && id in s.life.place && !s.life.place[id].Done? && !s.life.place[id].TurnedAway?
    requires !(s.life.pc.Ending? && s.life.pc.id == id)
    ensures Open(s, id)
  {
    hide Inv;
    InvRecords(u, s, id);
    Facts(u, s, id);
  }

  lemma StandsFact(u: Setup, s: State)
    requires Inv(u, s) && s.life.pc.Ending?
    ensures Stands(s, s.life.pc.id)
  {
    var id := s.life.pc.id;
    L.TouchedPlace(s.life, u.limits, id);
    InvRecords(u, s, id);
    Facts(u, s, id);
  }

  /** Where the request is that a step works on. */
  lemma WorkPlace(u: Setup, s: State, step: Step, id: Id)
    requires Inv(u, s) && Enabled(u, s, step) && WorksOn(u, s, step) == Some(id) && !step.Offer?
    ensures id in s.life.place && !s.life.place[id].Done? && !s.life.place[id].TurnedAway?
    ensures OfSubmit(step) ==> !L.Touches(s.life.pc, id)
    ensures !OfSubmit(step) && s.life.pc.Ending? ==> s.life.pc.id == id
    ensures OfSubmit(step) || OfFill(step) || OfPrefill(step) || OfEntry(step) ==>
      !(s.life.pc.Ending? && s.life.pc.id == id)
  {
    hide Fit, L.Inv, R.Inv;
    if OfSubmit(step) {
      L.SubmitterPlace(s.life, u.limits, step.thread);
    } else if step.TakeNext? {
      L.PendingPlace(s.life, u.limits);
    } else if step.CheckEntry? {
      L.SweepPlace(s.life, u.limits);
    } else {
      L.TouchedPlace(s.life, u.limits, id);
    }
  }

  lemma WorkView(u: Setup, s: State, step: Step, id: Id, phase: Cl.Phase)
    requires Inv(u, s) && Enabled(u, s, step) && WorksOn(u, s, step) == Some(id) && !step.Offer?
    ensures Produces(View(u, s, id, phase), View(u, Apply(u, s, step), id, phase))
  {
    hide Apply, R.Inv, Coupled;
    WorkPlace(u, s, step, id);
    if s.life.pc.Ending? && s.life.pc.id == id {
      StandsFact(u, s);
    } else {
      OpenFact(u, s, id);
    }
    if OfSubmit(step) {
      SubmitView(u, s, step, id, phase);
    } else if OfFill(step) || OfPrefill(step) {
      FillView(u, s, step, id, phase);
    } else if OfEntry(step) {
      EntryView(u, s, step, id, phase);
    } else if step.Mark? || step.AnnounceEnd? || step.CloseQueue? {
      EndView(u, s, step, id, phase);
    } else if step.FreeBudget? {
      FreeBudgetView(u, s, step, id, phase);
    } else if step.FreeKv? {
      FreeKvView(u, s, step, id, phase);
    } else {
      LeaveView(u, s, step, id, phase);
    }
  }

  /** A request that no step has brought in is still unknown. */
  lemma NotYet(u: Setup, s: State, step: Step, id: Id)
    requires Enabled(u, s, step) && id !in s.life.place && WorksOn(u, s, step) != Some(id)
    ensures id !in Apply(u, s, step).life.place
  {
    hide Apply, Enabled;
    if OfSubmit(step) || OfFill(step) || OfPrefill(step) {
      NotYetEarly(u, s, step, id);
    } else {
      NotYetLate(u, s, step, id);
    }
  }

  lemma NotYetEarly(u: Setup, s: State, step: Step, id: Id)
    requires Enabled(u, s, step) && id !in s.life.place && WorksOn(u, s, step) != Some(id)
    requires OfSubmit(step) || OfFill(step) || OfPrefill(step)
    ensures id !in Apply(u, s, step).life.place
  {
    hide A.Coherent, A.Allocate, A.GiveBack;
  }

  lemma NotYetLate(u: Setup, s: State, step: Step, id: Id)
    requires Enabled(u, s, step) && id !in s.life.place && WorksOn(u, s, step) != Some(id)
    requires !OfSubmit(step) && !OfFill(step) && !OfPrefill(step)
    ensures id !in Apply(u, s, step).life.place
  {
    hide A.Coherent, A.Allocate, A.GiveBack;
  }

  /** One step of any thread but the client itself. */
  lemma StepView(u: Setup, s: State, step: Step, id: Id, phase: Cl.Phase)
    requires Inv(u, s) && Enabled(u, s, step) && step != Consume(id)
    ensures Produces(View(u, s, id, phase), View(u, Apply(u, s, step), id, phase))
  {
    hide Inv, Apply;
    if id in s.life.place {
      InvRecords(u, s, id);
      if WorksOn(u, s, step) == Some(id) {
        WorkView(u, s, step, id, phase);
      } else {
        OtherSteps(u, s, step, id, phase);
      }
    } else {
      Untouched(u, s, id);
      if step.Offer? && step.id == id {
        OfferView(u, s, step, id, phase);
      } else {
        if WorksOn(u, s, step) == Some(id) {
          WorkPlace(u, s, step, id);
        }
        NotYet(u, s, step, id);
      }
    }
  }

  // ---------------------------------------------------------------- runs of the system and a client

  /** A step of the system, or of the client of one request. */
  datatype Move = Other(step: Step) | PollQueue(delivers: bool) | LookUp(expired: bool)

  datatype Joint = Joint(state: State, phase: Cl.Phase)

  ghost predicate CanMove(u: Setup, j: Joint, id: Id, m: Move) {
    match m
    case Other(step) => Enabled(u, j.state, step) && step != Consume(id)
    case PollQueue(_) => j.phase.Polling? && id in j.state.talks
    case LookUp(_) => j.phase.Checking? && id in j.state.talks
  }

  ghost function Moved(u: Setup, j: Joint, id: Id, m: Move): Joint
    requires CanMove(u, j, id, m)
  {
    match m
    case Other(step) => Joint(Apply(u, j.state, step), j.phase)
    case PollQueue(delivers) =>
      Joint(Apply(u, j.state, Consume(id)), Cl.Do(View(u, j.state, id, j.phase), Cl.Poll(delivers)).phase)
    case LookUp(expired) => j.(phase := Cl.Do(View(u, j.state, id, j.phase), Cl.Look(expired)).phase)
  }

  ghost predicate Goes(u: Setup, j: Joint, id: Id, moves: seq<Move>, k: Joint)
    decreases |moves|
  {
    if moves == [] then k == j else CanMove(u, j, id, moves[0]) && Goes(u, Moved(u, j, id, moves[0]), id, moves[1..], k)
  }

  lemma PollView(u: Setup, s: State, id: Id, phase: Cl.Phase, delivers: bool)
    requires Recorded(s, id) && phase.Polling?
    ensures var v := View(u, s, id, phase);
      View(u, Apply(u, s, Consume(id)), id, Cl.Do(v, Cl.Poll(delivers)).phase) == Cl.Do(v, Cl.Poll(delivers))
  {
  }

  lemma LookView(u: Setup, s: State, id: Id, phase: Cl.Phase, expired: bool)
    requires phase.Checking?
    ensures var v := View(u, s, id, phase);
      View(u, s, id, Cl.Do(v, Cl.Look(expired)).phase) == Cl.Do(v, Cl.Look(expired))
  {
  }

  lemma TalksRecorded(u: Setup, s: State, id: Id)
    requires Inv(u, s) && id in s.talks
    ensures Recorded(s, id)
  {
    hide L.Inv, R.Inv;
    InvRecords(u, s, id);
  }

  /** Each move is an act of the session, or none. */
  lemma MoveActs(u: Setup, j: Joint, id: Id, m: Move) returns (acts: seq<Cl.Act>)
    requires Inv(u, j.state) && CanMove(u, j, id, m)
    ensures Inv(u, Moved(u, j, id, m).state)
    ensures var k := Moved(u, j, id, m); Cl.Plays(View(u, j.state, id, j.phase), acts, View(u, k.state, id, k.phase))
  {
    hide Inv;
    var (v, k) := (View(u, j.state, id, j.phase), Moved(u, j, id, m));
    var w := View(u, k.state, id, k.phase);
    match m
    case Other(step) =>
      StepKeeps(u, j.state, step);
      StepView(u, j.state, step, id, j.phase);
      acts := ActsOf(v, w);
    case PollQueue(delivers) =>
      StepKeeps(u, j.state, Consume(id));
      TalksRecorded(u, j.state, id);
      PollView(u, j.state, id, j.phase, delivers);
      acts := [Cl.Poll(delivers)];
      OneAct(v, Cl.Poll(delivers));
    case LookUp(expired) =>
      LookView(u, j.state, id, j.phase, expired);
      acts := [Cl.Look(expired)];
      OneAct(v, Cl.Look(expired));
  }

  lemma OneAct(v: Cl.Session, a: Cl.Act)
    requires Cl.Possible(v, a)
    ensures Cl.Plays(v, [a], Cl.Do(v, a))
  {
    assert [a][1..] == [];
    assert Cl.Plays(Cl.Do(v, a), [], Cl.Do(v, a));
  }

  lemma ActsOf(v: Cl.Session, w: Cl.Session) returns (acts: seq<Cl.Act>)
    requires Produces(v, w)
    ensures Cl.Plays(v, acts, w)
  {
    if w == v {
      acts := [];
    } else {
      var a :| Cl.ByProducer(a) && Cl.Possible(v, a) && w == Cl.Do(v, a);
      OneAct(v, a);
      acts := [a];
    }
  }

  lemma {:induction false} PlaysOn(v: Cl.Session, a: seq<Cl.Act>, w: Cl.Session, b: seq<Cl.Act>, x: Cl.Session)
    requires Cl.Plays(v, a, w) && Cl.Plays(w, b, x)
    ensures Cl.Plays(v, a + b, x)
    decreases |a|
  {
    if a == [] {
      assert a + b == b;
    } else {
      assert (a + b)[1..] == a[1..] + b;
      PlaysOn(Cl.Do(v, a[0]), a[1..], w, b, x);
    }
  }

  lemma {:induction false} GoesPlays(u: Setup, j: Joint, id: Id, moves: seq<Move>, k: Joint) returns (acts: seq<Cl.Act>)
    requires Inv(u, j.state) && Goes(u, j, id, moves, k)
    ensures Inv(u, k.state) && Cl.Plays(View(u, j.state, id, j.phase), acts, View(u, k.state, id, k.phase))
    decreases |moves|
  {
    hide Inv, Apply, Enabled;
    if moves == [] {
      acts := [];
    } else {
      var next := Moved(u, j, id, moves[0]);
      var a := MoveActs(u, j, id, moves[0]);
      var b := GoesPlays(u, next, id, moves[1..], k);
      PlaysOn(View(u, j.state, id, j.phase), a, View(u, next.state, id, next.phase), b, View(u, k.state, id, k.phase));
      acts := a + b;
    }
  }

  /** In every run of the system together with a client, from nothing submitted: once the end of the
      client's request has been announced, a client that has left has read everything if and only if the
      end had been announced, and nothing was queued, after its last poll. */
  lemma ClientReadsAllIff(u: Setup, s: State, id: Id, moves: seq<Move>, k: Joint)
    requires Init(u, s) && Sane(u) && u.capacity >= 1 && Goes(u, Joint(s, Cl.Polling), id, moves, k)
    requires id in k.state.talks && k.phase.Left? && View(u, k.state, id, k.phase).announced
    ensures Cl.ReadAll(k.state.talks[id].stream) <==> k.phase.sawEnd
    ensures var q := k.state.talks[id].stream;
      Cl.ReadAll(q) <==> k.phase.exit.ByEvent? || (TokensOnly(q.accepted) && q.events == [])
  {
    hide Apply, Enabled, Fit, L.Inv, R.Inv;
    InitInv(u, s);
    var acts := GoesPlays(u, Joint(s, Cl.Polling), id, moves, k);
    TalksRecorded(u, k.state, id);
    Cl.LeavesWithEverythingIff(u.capacity, acts, View(u, k.state, id, k.phase));
    Cl.ReadsAllVisibly(u.capacity, acts, View(u, k.state, id, k.phase));
  }
}
