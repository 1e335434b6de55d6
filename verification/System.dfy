/** The scheduler, its HTTP threads and its decode thread as one step system
    (src/scheduler/scheduler.cpp, src/api/routes.cpp:174-208).

    A step is what one thread does under one lock, so a sequence of steps is an interleaving. Clock
    readings, device and runtime outcomes, sampled tokens and their text are inputs of the steps. */
module System {
  import opened Wrappers
  import opened Words
  import opened KvCache
  import opened Routing
  import opened Allocator
  import opened Stream
  import opened StopChecker
  import opened Talks
  import L = Lifecycle
  import R = Resources

  type Id = L.Id
  type Thread = L.Thread

  /** The configuration; `budgets` and `alloc` are what the server starts with. */
  datatype Setup = Setup(
    limits: L.Limits, maxContext: int, hasRouter: bool, topology: Topology, eos: int, imEnd: int, capacity: nat,
    budgets: seq<Budget>, alloc: Allocator)

  datatype Spec = Spec(input: nat, maxTokens: nat, sequences: seq<string>) {
    function SeqLen(): nat { input + maxTokens }
  }

  datatype State = State(life: L.Life, res: R.Res, talks: map<Id, Talk>, specs: map<Id, Spec>)

  datatype Step =
    | Offer(thread: Thread, id: Id, prompt: nat, asked: nat, sequences: seq<string>)
    | CheckGpu(thread: Thread) | CheckKv(thread: Thread) | Register(thread: Thread) | Enqueue(thread: Thread)
    | Cancel(id: Id)
    | Consume(id: Id)
    | TakeNext
    | TestTimeouts(expired: bool)
    | PlaceOnGpu
    | AllocateKv(grants: seq<Grant>)
    | UnreserveGpu
    | CommitGpu
    | RunPrefill(fault: Option<Error>)
    | Activate
    | Snapshot
    | CheckEntry(expired: bool)
    | FaultEntry(error: Error)
    | TokenEntry(token: int, piece: string)
    | EndSweep
    | Mark | AnnounceEnd | CloseQueue | FreeBudget | FreeKv | EraseActive | Deregister | Tally

  // ---------------------------------------------------------------- functions of the source

  /** The context-length clamp of `chat_completions`: the token limit that the request is created with. */
  function Clamp(prompt: nat, asked: nat, maxContext: int): (r: Result<nat>) {
    if prompt > maxContext then Err(InvalidRequest)
    else if prompt + asked > maxContext then
      if maxContext - prompt < 1 then Err(InvalidRequest) else Ok(maxContext - prompt)
    else Ok(asked)
  }

  /** A request passes the clamp exactly when there is room for one token, and then may produce as many
      tokens as it asked for or as there is room for. */
  lemma ClampMeaning(prompt: nat, asked: nat, maxContext: int)
    requires asked >= 1
    ensures Clamp(prompt, asked, maxContext).Ok? <==> prompt + 1 <= maxContext
    ensures Clamp(prompt, asked, maxContext).Ok? ==>
      var n := Clamp(prompt, asked, maxContext).value;
      1 <= n <= asked && prompt + n <= maxContext && (n == asked || prompt + n == maxContext)
  {
  }

  function StopsFor(u: Setup, spec: Spec): StopConfig {
    StopConfig(u.eos, u.imEnd, [], spec.sequences, spec.maxTokens)
  }

  function DecisionFor(u: Setup, r: R.Res, seqLen: nat): Decision {
    if u.hasRouter then Route(u.topology, r.budgets, r.roundRobin, seqLen) else Decision(PerRequest, [])
  }

  /** The devices that the KV cache is split over; none for a single-device allocation. */
  function SplitDevices(u: Setup, d: Decision): seq<DeviceId> {
    if u.hasRouter && d.strategy.TensorParallel? && |d.devices| > 1 then d.devices else []
  }

  predicate GpuAccepts(u: Setup, r: R.Res, seqLen: nat) {
    u.hasRouter ==>
      var perDevice := ConfigOf(r.alloc).BytesPerDevice(seqLen);
      && (Recommend(u.topology, seqLen).TensorParallel? && perDevice == 0 ==> r.budgets != [])
      && CanPlace(u.topology, r.budgets, seqLen, EstimateKv(seqLen), perDevice)
  }

  function LastEvent(o: L.Outcome): Event {
    match o
    case Finish(reason) => Event.Complete(reason)
    case Fail(e) => Event.Failed(e)
  }

  // ---------------------------------------------------------------- the step relation

  predicate Known(s: State, id: Id) {
    id in s.talks && id in s.specs && id in s.res.hold
  }

  predicate SubmitsAt(s: State, t: Thread, stage: L.SubmitStage) {
    L.InSubmit(s.life, t, stage) && Known(s, s.life.submissions[t].id)
  }

  predicate CanFill(u: Setup, s: State) {
    s.life.pending != [] && |s.life.active| < u.limits.maxActive
  }

  predicate Holds(s: State, status: L.Status) {
    s.life.pc.Holding? && s.life.pc.id in s.life.status && s.life.status[s.life.pc.id] == status
      && Known(s, s.life.pc.id)
  }

  predicate Prefills(s: State) {
    s.life.pc.Prefill? && Known(s, s.life.pc.id) && R.Usable(s.life.pc.decision)
  }

  predicate Steps(s: State) { s.life.pc.Stepping? && Known(s, s.life.pc.id) }

  predicate Ends(s: State, end: L.EndStage) {
    s.life.pc.Ending? && s.life.pc.end == end && Known(s, s.life.pc.id)
  }

  predicate AtFreeBudget(s: State) { (Prefills(s) && s.life.pc.stage.AtFault?) || Ends(s, L.ToFreeBudget) }

  predicate AtFreeKv(s: State) { (Prefills(s) && s.life.pc.stage.AtFaultKv?) || Ends(s, L.ToFreeKv) }

  ghost predicate Enabled(u: Setup, s: State, step: Step) {
    match step
    case Offer(t, id, prompt, asked, _) =>
      && t < u.limits.threads && t !in s.life.submissions && id !in s.life.place && asked >= 1
      && Clamp(prompt, asked, u.maxContext).Ok?
    case CheckGpu(t) => SubmitsAt(s, t, L.QueueChecked)
    case CheckKv(t) => SubmitsAt(s, t, L.GpuChecked)
    case Register(t) => SubmitsAt(s, t, L.Admitted)
    case Enqueue(t) => SubmitsAt(s, t, L.Registered)
    case Cancel(id) => id in s.talks
    case Consume(id) => id in s.talks
    case TakeNext => s.life.pc.Filling? && CanFill(u, s)
    case TestTimeouts(_) => Holds(s, L.Queued)
    case PlaceOnGpu => Holds(s, L.Prefilling)
    case AllocateKv(_) => Prefills(s) && s.life.pc.stage.AtReserved? && Coherent(s.res.alloc)
    case UnreserveGpu => Prefills(s) && s.life.pc.stage.AtRefused?
    case CommitGpu => Prefills(s) && s.life.pc.stage.AtAllocated?
    case RunPrefill(_) => Prefills(s) && s.life.pc.stage.AtCommitted?
    case Activate => Prefills(s) && s.life.pc.stage.AtReady?
    case Snapshot => s.life.pc.Filling? && !CanFill(u, s)
    case CheckEntry(_) => s.life.pc.Sweeping? && s.life.pc.rest != [] && Known(s, s.life.pc.rest[0])
    case FaultEntry(_) => Steps(s)
    case TokenEntry(_, _) => Steps(s)
    case EndSweep => s.life.pc.Sweeping? && s.life.pc.rest == []
    case Mark => Ends(s, L.ToMark)
    case AnnounceEnd => Ends(s, L.ToAnnounce)
    case CloseQueue => Ends(s, L.ToClose)
    case FreeBudget => AtFreeBudget(s)
    case FreeKv => AtFreeKv(s) && Coherent(s.res.alloc)
    case EraseActive => Ends(s, L.ToErase)
    case Deregister => Ends(s, L.ToDeregister)
    case Tally => Ends(s, L.ToTally)
  }

  function Goto(s: State, pc: L.Pc): State { s.(life := L.Goto(s.life, pc)) }

  function Say(s: State, id: Id, t: Talk): State { s.(talks := s.talks[id := t]) }

  /** A request created by `make_request` enters the system. */
  function WithNew(u: Setup, s: State, life: L.Life, id: Id, spec: Spec): State {
    State(life, R.Enter(s.res, id, spec.SeqLen()), s.talks[id := NewTalk(u.capacity)], s.specs[id := spec])
  }

  ghost function DoOffer(u: Setup, s: State, t: Thread, id: Id, prompt: nat, asked: nat, sequences: seq<string>)
    : State
  {
    if !Enabled(u, s, Offer(t, id, prompt, asked, sequences)) then s
    else
      var spec := Spec(prompt, Clamp(prompt, asked, u.maxContext).value, sequences);
      if |s.life.pending| >= u.limits.maxQueue then WithNew(u, s, L.Refuse(s.life, id), id, spec)
      else WithNew(u, s, L.Join(s.life, t, id), id, spec)
  }

  ghost function DoCheckGpu(u: Setup, s: State, t: Thread): State {
    if !Enabled(u, s, CheckGpu(t)) then s
    else
      s.(life := if GpuAccepts(u, s.res, s.specs[s.life.submissions[t].id].SeqLen())
                 then L.Forward(s.life, t, L.GpuChecked) else L.TurnAway(s.life, t))
  }

  ghost function DoCheckKv(u: Setup, s: State, t: Thread): State {
    if !Enabled(u, s, CheckKv(t)) then s
    else
      s.(life := if CanAllocate(s.res.alloc, s.specs[s.life.submissions[t].id].SeqLen())
                 then L.Forward(s.life, t, L.Admitted) else L.TurnAway(s.life, t))
  }

  ghost function DoTestTimeouts(u: Setup, s: State, expired: bool): State {
    if !Enabled(u, s, TestTimeouts(expired)) then s
    else
      var id := s.life.pc.id;
      if expired then Goto(s, L.Ending(id, L.Fail(Timeout), L.ToMark, None)) else s.(life := L.StartPrefill(s.life, id))
  }

  ghost function DoPlaceOnGpu(u: Setup, s: State): State {
    if !Enabled(u, s, PlaceOnGpu) then s
    else
      var id := s.life.pc.id;
      var d := DecisionFor(u, s.res, s.specs[id].SeqLen());
      var r := R.ReserveGpu(s.res, id, d);
      var selects := u.hasRouter && d.strategy.PerRequest?;
      Goto(s, L.Prefill(id, d, L.AtReserved)).(
        res := r.(roundRobin := if selects then r.roundRobin + 1 else r.roundRobin))
  }

  ghost function DoAllocateKv(u: Setup, s: State, grants: seq<Grant>): State {
    if !Enabled(u, s, AllocateKv(grants)) then s
    else
      var (r, refused) := R.AllocateKv(s.res, s.life.pc.id, SplitDevices(u, s.life.pc.decision), grants);
      var stage := match refused case None => L.AtAllocated case Some(e) => L.AtRefused(e);
      Goto(s, s.life.pc.(stage := stage)).(res := r)
  }

  ghost function DoUnreserveGpu(u: Setup, s: State): State {
    if !Enabled(u, s, UnreserveGpu) then s
    else
      var (id, e) := (s.life.pc.id, s.life.pc.stage.error);
      Goto(s, L.Ending(id, L.Fail(e), L.ToMark, None)).(res := R.UnreserveGpu(s.res, id, s.life.pc.decision))
  }

  ghost function DoCommitGpu(u: Setup, s: State): State {
    if !Enabled(u, s, CommitGpu) then s
    else
      Goto(s, s.life.pc.(stage := L.AtCommitted)).(res := R.CommitGpu(s.res, s.life.pc.id, s.life.pc.decision))
  }

  ghost function DoRunPrefill(u: Setup, s: State, fault: Option<Error>): State {
    if !Enabled(u, s, RunPrefill(fault)) then s
    else
      var id := s.life.pc.id;
      match fault
      case None => Goto(s, s.life.pc.(stage := L.AtReady)).(res := R.SetLength(s.res, id, s.specs[id].input))
      case Some(e) => Goto(s, s.life.pc.(stage := L.AtFault(e)))
  }

  /** The checks of `decode_loop` before a step: cancellation, then the timeouts. */
  ghost function DoCheckEntry(u: Setup, s: State, expired: bool): State {
    if !Enabled(u, s, CheckEntry(expired)) then s
    else
      var (id, rest) := (s.life.pc.rest[0], s.life.pc.rest[1..]);
      Goto(s, if s.talks[id].cancelled then L.Ending(id, L.Finish(Stop), L.ToMark, Some(rest))
              else if expired then L.Ending(id, L.Fail(Timeout), L.ToMark, Some(rest))
              else L.Stepping(id, rest))
  }

  /** `run_decode_step` fails, unless it first sees a cancellation that came after the check above. */
  ghost function DoFaultEntry(u: Setup, s: State, e: Error): State {
    if !Enabled(u, s, FaultEntry(e)) then s
    else
      var (id, rest) := (s.life.pc.id, s.life.pc.rest);
      var outcome := if s.talks[id].cancelled then L.Finish(s.talks[id].out.finish) else L.Fail(e);
      Goto(s, L.Ending(id, outcome, L.ToMark, Some(rest)))
  }

  /** `run_decode_step` yields a token. */
  ghost function DoToken(u: Setup, s: State, token: int, piece: string): State {
    if !Enabled(u, s, TokenEntry(token, piece)) then s
    else
      var (id, rest) := (s.life.pc.id, s.life.pc.rest);
      var t := Utter(s.talks[id], token, piece, StopsFor(u, s.specs[id]));
      var pc := if t.out.halted then L.Ending(id, L.Finish(t.out.finish), L.ToMark, Some(rest)) else L.Sweeping(rest);
      Say(Goto(s, pc), id, t).(res := R.SetLength(s.res, id, s.res.hold[id].handle.currentLen + 1))
  }

  /** That, unless it first sees a cancellation that came after the check. */
  ghost function DoTokenEntry(u: Setup, s: State, token: int, piece: string): State {
    if !Enabled(u, s, TokenEntry(token, piece)) then s
    else
      var t := s.talks[s.life.pc.id];
      if t.cancelled then Goto(s, L.Ending(s.life.pc.id, L.Finish(t.out.finish), L.ToMark, Some(s.life.pc.rest)))
      else DoToken(u, s, token, piece)
  }

  ghost function DoMark(u: Setup, s: State): State {
    if !Enabled(u, s, Mark) then s
    else
      var id := s.life.pc.id;
      var t := match s.life.pc.outcome
        case Finish(reason) => Conclude(s.talks[id], reason)
        case Fail(e) => Blame(s.talks[id], e);
      Say(s.(life := L.Mark(s.life)), id, t)
  }

  ghost function DoAnnounce(s: State): State {
    if !Ends(s, L.ToAnnounce) then s
    else
      var id := s.life.pc.id;
      Say(Goto(s, s.life.pc.(end := L.ToClose)), id, Announce(s.talks[id], LastEvent(s.life.pc.outcome)))
  }

  ghost function DoCloseQueue(s: State): State {
    if !Ends(s, L.ToClose) then s
    else
      var id := s.life.pc.id;
      Say(Goto(s, s.life.pc.(end := L.ToFreeBudget)), id, Hush(s.talks[id]))
  }

  /** Past `free_resources`, whichever function called it. */
  function AfterFree(pc: L.Pc): L.Pc {
    if pc.Prefill? && (pc.stage.AtFault? || pc.stage.AtFaultKv?)
    then L.Ending(pc.id, L.Fail(pc.stage.error), L.ToMark, None)
    else if pc.Ending? then pc.(end := L.ToErase) else pc
  }

  /** `free_resources`, up to and including the router's part. */
  ghost function DoFreeBudget(u: Setup, s: State): State {
    if !Enabled(u, s, FreeBudget) then s
    else
      var (pc, id) := (s.life.pc, s.life.pc.id);
      if !s.res.hold[id].handle.IsValid() then Goto(s, AfterFree(pc))
      else
        Goto(s, if pc.Prefill? then pc.(stage := L.AtFaultKv(pc.stage.error)) else pc.(end := L.ToFreeKv)).(
          res := R.FreeBudget(s.res, id, u.hasRouter))
  }

  ghost function DoFreeKv(u: Setup, s: State): State {
    if !Enabled(u, s, FreeKv) then s
    else
      Goto(s, AfterFree(s.life.pc)).(res := R.FreeKv(s.res, s.life.pc.id))
  }

  /** The state after a step; a step that is not enabled changes nothing. */
  ghost function Apply(u: Setup, s: State, step: Step): State {
    if !Enabled(u, s, step) then s
    else
      match step
      case Offer(t, id, prompt, asked, sequences) => DoOffer(u, s, t, id, prompt, asked, sequences)
      case CheckGpu(t) => DoCheckGpu(u, s, t)
      case CheckKv(t) => DoCheckKv(u, s, t)
      case Register(t) => s.(life := L.Register(s.life, t))
      case Enqueue(t) => s.(life := L.Enqueue(s.life, t))
      case Cancel(id) => Say(s, id, s.talks[id].(cancelled := true))
      case Consume(id) => Say(s, id, Listen(s.talks[id]))
      case TakeNext => s.(life := L.TakeNext(s.life))
      case TestTimeouts(expired) => DoTestTimeouts(u, s, expired)
      case PlaceOnGpu => DoPlaceOnGpu(u, s)
      case AllocateKv(grants) => DoAllocateKv(u, s, grants)
      case UnreserveGpu => DoUnreserveGpu(u, s)
      case CommitGpu => DoCommitGpu(u, s)
      case RunPrefill(fault) => DoRunPrefill(u, s, fault)
      case Activate => s.(life := L.Activate(s.life, s.life.pc.id))
      case Snapshot => Goto(s, L.Sweeping(s.life.active))
      case CheckEntry(expired) => DoCheckEntry(u, s, expired)
      case FaultEntry(e) => DoFaultEntry(u, s, e)
      case TokenEntry(token, piece) => DoTokenEntry(u, s, token, piece)
      case EndSweep => Goto(s, L.Filling)
      case Mark => DoMark(u, s)
      case AnnounceEnd => DoAnnounce(s)
      case CloseQueue => DoCloseQueue(s)
      case FreeBudget => DoFreeBudget(u, s)
      case FreeKv => DoFreeKv(u, s)
      case EraseActive => s.(life := L.EraseActive(s.life))
      case Deregister => s.(life := L.Deregister(s.life))
      case Tally => s.(life := L.Tally(s.life))
  }

  // ---------------------------------------------------------------- runs

  /** Nothing charged, nothing allocated. */
  ghost predicate Unused(u: Setup) {
    && |u.budgets| == (if u.hasRouter then |u.topology.devices| else 0)
    && (forall i :: 0 <= i < |u.budgets| ==>
          var b := u.budgets[i];
          b.device == u.topology.devices[i] && b.used == 0 && b.reserved == 0 && b.total < WORD)
    && Coherent(u.alloc) && Live(u.alloc) == {}
    && (forall d :: Counts(u.alloc, d) ==> NetUsed(u.alloc, d) == 0)
    && (match u.alloc case OfContiguous(c) => c.leaked == map[] case OfPool(p) => p.granted == map[])
  }

  function Start(u: Setup): R.Res { R.Res(map[], u.budgets, 0, u.alloc, map[], [], []) }

  /** Nothing submitted yet. */
  ghost predicate Init(u: Setup, s: State) {
    && L.Nobody(s.life) && s.talks == map[] && s.specs == map[]
    && s.res.hold == map[] && s.res.owner == map[] && s.res.obtained == [] && s.res.released == []
    && s.res.budgets == u.budgets && s.res.alloc == u.alloc && Unused(u)
  }

  /** `steps` is an interleaving from `s` to `t`. */
  ghost predicate Runs(u: Setup, s: State, steps: seq<Step>, t: State)
    decreases |steps|
  {
    if steps == [] then t == s
    else Enabled(u, s, steps[0]) && Runs(u, Apply(u, s, steps[0]), steps[1..], t)
  }
}
