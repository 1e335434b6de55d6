/** A run of the scheduler and a client in which the client leaves without the only token
    (src/api/routes.cpp:280-287, src/scheduler/scheduler.cpp:335-376, 506-520). */
module LateClient {
  import opened Wrappers
  import opened KvCache
  import opened Allocator
  import opened Stream
  import opened StopChecker
  import opened Generation
  import opened Talks
  import opened System
  import opened Safety
  import opened Guarantees
  import opened Locality
  import opened SchedulerSteps
  import opened SoloRuns
  import opened Sessions
  import Cl = Client
  import L = Lifecycle
  import R = Resources

  const ME: Id := 0

  /** The decode thread is about to produce the first and only token of `ME`. */
  ghost predicate Speaking(u: Setup, s: State, prompt: nat) {
    && s.life.pc == L.Stepping(ME, []) && Recorded(s, ME) && s.life.status[ME].Decoding? && s.life.place[ME].Running?
    && s.specs[ME] == One(prompt) && s.talks[ME] == NewTalk(u.capacity)
  }

  lemma Snapshots(u: Setup, s: State, prompt: nat) returns (t: State)
    requires Reached(u, s) && s.life.pc == L.Filling && s.life.pending == [] && s.life.active == [ME]
    requires ME in s.specs && s.specs[ME] == One(prompt) && ME in s.talks && s.talks[ME] == NewTalk(u.capacity)
    ensures Reached(u, t) && Speaking(u, t, prompt)
  {
    hide Reached;
    var a := SnapshotStep(u, s);
    assert [ME] + [] == [ME];
    t := EntryStep(u, a, ME, [], false);
    ActiveRecorded(u, s);
  }

  lemma ActiveRecorded(u: Setup, s: State)
    requires Reached(u, s) && s.life.pc == L.Filling && s.life.active == [ME]
    ensures Recorded(s, ME) && s.life.status[ME].Decoding? && s.life.place[ME].Running?
  {
    hide Reached, Fit, R.Inv;
    ReachedInv(u, s);
    L.ActivePlace(s.life, u.limits, ME);
    InvRecords(u, s, ME);
    assert L.FitsAt(s.life, ME);
  }

  lemma Speaks(u: Setup, prompt: nat, grants: seq<Grant>) returns (t: State)
    requires Unused(u) && Sane(u) && Serves(u) && prompt < u.maxContext && Admissible(u, prompt + 1)
    requires Allocate(u.alloc, prompt + 1, SplitDevices(u, DecisionFor(u, Start(u), prompt + 1)), grants).1.Ok?
    ensures Reached(u, t) && Speaking(u, t, prompt)
  {
    hide Reached;
    var d := DecisionFor(u, Start(u), prompt + 1);
    var a := FirstPlaced(u, ME, prompt);
    DecisionUsable(u, Start(u), prompt + 1);
    var b := Reads(u, a, ME, prompt + 1, d, grants);
    var c := ActivateStep(u, b, ME);
    t := Snapshots(u, c, prompt);
  }

  // ---------------------------------------------------------------- the moves

  lemma GoesThen(u: Setup, j: Joint, m: Move, next: Joint, rest: seq<Move>, k: Joint)
    requires CanMove(u, j, ME, m) && next == Moved(u, j, ME, m) && Goes(u, next, ME, rest, k)
    ensures Goes(u, j, ME, [m] + rest, k)
  {
    hide Apply, Enabled;
    assert ([m] + rest)[1..] == rest;
  }

  lemma PollsEarly(u: Setup, s: State, prompt: nat)
    requires Speaking(u, s, prompt)
    ensures CanMove(u, Joint(s, Cl.Polling), ME, PollQueue(true))
    ensures var k := Moved(u, Joint(s, Cl.Polling), ME, PollQueue(true));
      Speaking(u, k.state, prompt) && k.phase == Cl.Checking(false)
  {
    hide Enabled, Allocate;
  }

  /** The token is in the queue and the request is about to be marked. */
  ghost predicate Spoken(s: State, token: int, piece: string) {
    && s.life.pc.Ending? && s.life.pc.id == ME && s.life.pc.end.ToMark? && Recorded(s, ME)
    && s.life.pc.outcome.Finish?
    && s.talks[ME].stream.accepted == [Token(token, piece)] && s.talks[ME].stream.popped == []
  }

  lemma SpeaksLast(u: Setup, s: State, prompt: nat, token: int, piece: string)
    requires Speaking(u, s, prompt) && u.capacity >= 1
    ensures Enabled(u, s, TokenEntry(token, piece)) && Spoken(Apply(u, s, TokenEntry(token, piece)), token, piece)
  {
    var cfg := StopsFor(u, s.specs[ME]);
    CheckMeaning([token], piece, cfg);
    assert NOTHING.tokens + [token] == [token] && NOTHING.text + piece == piece;
    assert Utter(s.talks[ME], token, piece, cfg).out.halted;
  }

  lemma LooksLate(u: Setup, s: State)
    requires Recorded(s, ME) && s.life.status[ME].Completed?
    ensures CanMove(u, Joint(s, Cl.Checking(false)), ME, LookUp(false))
    ensures Moved(u, Joint(s, Cl.Checking(false)), ME, LookUp(false)) == Joint(s, Cl.Left(Cl.ByState, false))
  {
    hide Apply, Enabled;
  }

  /** The end of the run, from the token on. */
  lemma MissesIt(u: Setup, s: State, prompt: nat, token: int, piece: string) returns (moves: seq<Move>, t: State)
    requires Speaking(u, s, prompt) && u.capacity >= 1
    ensures Goes(u, Joint(s, Cl.Checking(false)), ME, moves, Joint(t, Cl.Left(Cl.ByState, false))) && ME in t.talks
    ensures t.talks[ME].stream.accepted == [Token(token, piece)] && t.talks[ME].stream.popped == []
  {
    hide Coherent, CoupledAt, Utter, GpuAccepts;
    SpeaksLast(u, s, prompt, token, piece);
    var b := Apply(u, s, TokenEntry(token, piece));
    t := Apply(u, b, Mark);
    LooksLate(u, t);
    var k := Joint(t, Cl.Left(Cl.ByState, false));
    assert Goes(u, k, ME, [], k);
    GoesThen(u, Joint(t, Cl.Checking(false)), LookUp(false), k, [], k);
    GoesThen(u, Joint(b, Cl.Checking(false)), Other(Mark), Joint(t, Cl.Checking(false)), [LookUp(false)] + [], k);
    moves := [Other(TokenEntry(token, piece))] + ([Other(Mark)] + ([LookUp(false)] + []));
    GoesThen(u, Joint(s, Cl.Checking(false)), Other(TokenEntry(token, piece)), Joint(b, Cl.Checking(false)),
             [Other(Mark)] + ([LookUp(false)] + []), k);
  }

  /** For every setup that serves requests of this length: a client that has polled in vain, and looks at
      the request just after the decode thread has spoken and marked it, leaves without the token. */
  lemma LateTokenMissed(u: Setup, prompt: nat, grants: seq<Grant>, token: int, piece: string)
      returns (s: State, moves: seq<Move>, t: State)
    requires Unused(u) && Sane(u) && Serves(u) && prompt < u.maxContext && Admissible(u, prompt + 1) && u.capacity >= 1
    requires Allocate(u.alloc, prompt + 1, SplitDevices(u, DecisionFor(u, Start(u), prompt + 1)), grants).1.Ok?
    ensures Reached(u, s) && ME in s.talks && s.talks[ME].stream == Fresh(u.capacity)
    ensures Goes(u, Joint(s, Cl.Polling), ME, moves, Joint(t, Cl.Left(Cl.ByState, false))) && ME in t.talks
    ensures t.talks[ME].stream.accepted == [Token(token, piece)] && t.talks[ME].stream.popped == []
  {
    hide Reached, Apply, Enabled, Unused, Allocate;
    s := Speaks(u, prompt, grants);
    PollsEarly(u, s, prompt);
    var a := Moved(u, Joint(s, Cl.Polling), ME, PollQueue(true));
    moves, t := MissesIt(u, a.state, prompt, token, piece);
    GoesThen(u, Joint(s, Cl.Polling), PollQueue(true), a, moves, Joint(t, Cl.Left(Cl.ByState, false)));
    moves := [PollQueue(true)] + moves;
  }
}
