/** The scheduler as it is written (src/scheduler/scheduler.cpp): an object whose methods update the
    queue, the active list, the registry, the counters, the budgets, the allocator and the requests.

    `model` is the state of the step system. Every method updates the real fields and takes the
    corresponding steps; `Valid` says that the two agree and that the state is one of those that the
    step system reaches, so that all its guarantees hold. A method is what its thread does when no
    other thread comes in between; other orders are the business of the step system. */
module Scheduler {
  import opened Wrappers
  import opened Words
  import opened Sums
  import opened KvCache
  import opened Routing
  import opened Allocator
  import opened Stream
  import opened StopChecker
  import opened Generation
  import opened Talks
  import opened System
  import opened Safety
  import opened Guarantees
  import opened Drain
  import opened SchedulerSteps
  import C = Contiguous
  import P = Pool
  import L = Lifecycle
  import R = Resources

  // ---------------------------------------------------------------- what the methods compute

  /** `free_resources`: the budget is released and the cache given back if the handle is valid, and
      nothing changes if it is not. */
  ghost predicate Freed(
    u: Setup, h: R.Hold, budgets: seq<Budget>, a: Allocator, h': R.Hold, budgets': seq<Budget>, a': Allocator)
  {
    if h.handle.IsValid() then
      && Coherent(a) && (a', h'.handle) == GiveBack(a, h.handle) && h'.gpus == h.gpus && h'.seqLen == h.seqLen
      && budgets' == if u.hasRouter && h.gpus != [] then Release(budgets, h.gpus, EstimateKv(h.seqLen)) else budgets
    else h' == h && budgets' == budgets && a' == a
  }

  class Scheduler {
    const u: Setup
    var pending: seq<Id>
    var active: seq<Id>
    var registry: set<Id>
    var completed: nat
    var errored: nat
    var status: map<Id, L.Status>
    var specs: map<Id, Spec>
    var talks: map<Id, Talk>
    var hold: map<Id, R.Hold>
    var budgets: seq<Budget>
    var roundRobin: nat
    var alloc: Allocator
    ghost var model: State

    ghost predicate Agrees()
      reads this
    {
      && LifeIs(model.life, pending, active, registry, completed, errored, status)
      && ResIs(model.res, hold, budgets, roundRobin, alloc)
      && specs == model.specs && talks == model.talks
    }

    ghost predicate Valid()
      reads this
    {
      Agrees() && Reached(u, model)
    }

    // -------------------------------------------------------------- run_prefill

    /** The routing decision, the round-robin counter and the budgets after it, and the state that goes
        with them. */
    method RouteRequest(id: Id) returns (d: Decision, counter: nat, after: seq<Budget>, ghost next: State)
      requires Valid() && HeldAs(model, id, L.Prefilling)
      ensures Reached(u, next) && Lower(u, model, next) && id in hold && id in specs
      ensures hold[id].seqLen == specs[id].SeqLen()
      ensures d == DecisionOf(u, budgets, roundRobin, specs[id].SeqLen())
      ensures counter == roundRobin + if u.hasRouter && d.strategy.PerRequest? then 1 else 0
      ensures next.life == L.Goto(model.life, L.Prefill(id, d, L.AtReserved)) && next.talks == talks
      ensures next.specs == specs
      ensures ResIs(next.res, hold[id := hold[id].(gpus := d.devices, phase := R.Reserved)], after, counter, alloc)
    {
      hide Reached;
      next := PlaceStep(u, model, id);
      var n := specs[id].SeqLen();
      d, counter, after := Decision(PerRequest, []), roundRobin, budgets;
      if u.hasRouter {
        d := Route(u.topology, budgets, roundRobin, n);
        if d.strategy.PerRequest? {
          counter := counter + 1;
        }
        after := Reserve(budgets, d, EstimateKv(n));
      }
    }

    /** Routes the request and reserves its budget. */
    method Place(id: Id) returns (d: Decision)
      requires Valid() && HeldAs(model, id, L.Prefilling)
      modifies this`budgets, this`roundRobin, this`hold, this`model
      ensures Valid() && Lower(u, old(model), model) && model.life.pc == L.Prefill(id, d, L.AtReserved)
      ensures id in hold && id in specs && hold[id].seqLen == specs[id].SeqLen()
      ensures d == DecisionOf(u, old(budgets), old(roundRobin), specs[id].SeqLen())
      ensures roundRobin == old(roundRobin) + if u.hasRouter && d.strategy.PerRequest? then 1 else 0
      ensures hold[id].gpus == d.devices
    {
      hide Reached;
      var decision, counter, after, next := RouteRequest(id);
      d := decision;
      roundRobin, budgets := counter, after;
      hold := hold[id := hold[id].(gpus := d.devices, phase := R.Reserved)];
      model := next;
    }

    /** `free_resources`; `r` is the memory as the step system sees it. */
    method FreeResources(id: Id, ghost r: R.Res)
      requires id in hold && Coherent(alloc) && ResIs(r, hold, budgets, roundRobin, alloc)
      modifies this`budgets, this`alloc, this`hold
      ensures id in hold && hold == old(hold)[id := hold[id]]
      ensures Freed(u, old(hold[id]), old(budgets), old(alloc), hold[id], budgets, alloc)
      ensures ResIs(FreedRes(u, r, id), hold, budgets, roundRobin, alloc)
    {
      hide Coherent, GiveBack;
      var h := hold[id];
      if h.handle.IsValid() {
        if u.hasRouter && h.gpus != [] {
          budgets := Release(budgets, h.gpus, EstimateKv(h.seqLen));
        }
        var (a, handle) := GiveBack(alloc, h.handle);
        alloc := a;
        hold := hold[id := h.(handle := handle, phase := R.AfterFreeKv(AfterRelease(h.phase), handle))];
      }
    }

    /** The charge moves from reserved to used, or is given up. */
    method Settle(id: Id, d: Decision, commit: bool)
      requires id in hold && R.Usable(d) && (!u.hasRouter ==> d == Decision(PerRequest, []))
      modifies this`budgets, this`hold
      ensures hold == old(hold)[id := old(hold[id]).(phase := if commit then R.Charged else R.Bare)]
      ensures budgets == if commit then Commit(old(budgets), d, EstimateKv(old(hold[id]).seqLen))
                         else Unreserve(old(budgets), d, EstimateKv(old(hold[id]).seqLen))
    {
      var bytes := EstimateKv(hold[id].seqLen);
      if d == Decision(PerRequest, []) {
        NoDevices(budgets, d, bytes);
      }
      if u.hasRouter {
        budgets := if commit then Commit(budgets, d, bytes) else Unreserve(budgets, d, bytes);
      }
      hold := hold[id := hold[id].(phase := if commit then R.Charged else R.Bare)];
    }

    /** The part of `run_prefill` after the reservation. */
    method AllocateAndRead(id: Id, d: Decision, answer: Answer, ghost r: R.Res) returns (fault: Option<Error>)
      requires id in hold && id in specs && Coherent(alloc) && R.Usable(d)
      requires !u.hasRouter ==> d == Decision(PerRequest, [])
      requires ResIs(r, hold, budgets, roundRobin, alloc) && Distinct(SplitDevices(u, d))
      modifies this`budgets, this`alloc, this`hold
      ensures var (r', e) := PrefilledRes(u, r, id, specs[id].input, d, answer.grants, answer.fault);
        fault == e && ResIs(r', hold, budgets, roundRobin, alloc)
      ensures fault.None? ==> id in hold && hold[id].handle.currentLen == specs[id].input
      ensures fault == ReadFault(old(alloc), old(hold[id]).seqLen, SplitDevices(u, d), answer)
    {
      hide Allocate;
      var split := if u.hasRouter && d.strategy.TensorParallel? && |d.devices| > 1 then d.devices else [];
      AllocateEffect(alloc, hold[id].seqLen, split, answer.grants);
      var (a, result) := Allocate(alloc, hold[id].seqLen, split, answer.grants);
      alloc := a;
      if result.Err? {
        Settle(id, d, false);
        return Some(result.error);
      }
      hold := hold[id := hold[id].(handle := result.value, phase := R.Allocated)];
      Settle(id, d, true);
      if answer.fault.None? {
        hold := hold[id := hold[id].(handle := hold[id].handle.(currentLen := specs[id].input))];
      } else {
        ghost var r3 := R.CommitGpu(R.AllocateKv(r, id, split, answer.grants).0, id, d);
        FreeResources(id, r3);
      }
      return answer.fault;
    }

    method PrefillPlaced(id: Id, d: Decision, answer: Answer) returns (fault: Option<Error>)
      requires Valid() && model.life.pc == L.Prefill(id, d, L.AtReserved)
      requires !u.hasRouter ==> d == Decision(PerRequest, [])
      modifies this`budgets, this`alloc, this`hold, this`model
      ensures Valid() && Lower(u, old(model), model) && model.life.pc == PrefilledPc(id, d, fault)
      ensures fault.None? ==> id in hold && id in specs && hold[id].handle.currentLen == specs[id].input
      ensures Coherent(old(alloc)) && id in old(hold)
      ensures fault == ReadFault(old(alloc), old(hold[id]).seqLen, SplitDevices(u, d), answer)
    {
      hide Reached, Lower, Allocate;
      ghost var next := ReservedRun(u, model, id, d, answer.grants, answer.fault);
      SplitDistinct(u, model);
      fault := AllocateAndRead(id, d, answer, model.res);
      model := next;
    }

    /** `run_prefill`: the request is ready to decode, its cache as long as the prompt; or it is about to
        fail, exactly if the allocator refused or the model could not read the prompt. */
    method Prefill(id: Id, answer: Answer) returns (fault: Option<Error>)
      requires Valid() && HeldAs(model, id, L.Prefilling)
      modifies this`budgets, this`roundRobin, this`alloc, this`hold, this`model
      ensures Valid() && Lower(u, old(model), model)
      ensures fault.None? ==>
        && model.life.pc.Prefill? && model.life.pc.id == id && model.life.pc.stage.AtReady?
        && id in hold && id in specs && hold[id].handle.currentLen == specs[id].input
      ensures fault.Some? ==> model.life.pc == L.Ending(id, L.Fail(fault.value), L.ToMark, None)
      ensures Coherent(old(alloc)) && id in specs
      ensures fault == PrefillFault(u, old(budgets), old(roundRobin), old(alloc), specs[id].SeqLen(), answer)
      ensures roundRobin == old(roundRobin) +
        if u.hasRouter && Recommend(u.topology, specs[id].SeqLen()).PerRequest? then 1 else 0
    {
      hide Reached, Coherent, Allocate;
      var d := Place(id);
      fault := PrefillPlaced(id, d, answer);
    }

    // -------------------------------------------------------------- complete_request and fail_request

    /** The output, the last event and the end of the stream. */
    method Conclude(id: Id, outcome: L.Outcome)
      requires id in talks
      modifies this`talks, this`status
      ensures talks == old(talks)[id := LastTalk(old(talks)[id], outcome)]
      ensures status == old(status)[id := if outcome.Finish? then L.Completed else L.Errored]
    {
      var t := talks[id];
      var last := Event.Complete(NoReason);
      match outcome {
        case Finish(reason) =>
          t := t.(out := t.out.(finish := reason));
          status := status[id := L.Completed];
          last := Event.Complete(reason);
        case Fail(e) =>
          status := status[id := L.Errored];
          t := t.(error := Some(e));
          last := Event.Failed(e);
      }
      t := t.(stream := Push(t.stream, last).0);
      t := t.(stream := Close(t.stream));
      talks := talks[id := t];
    }

    /** What `complete_request` and `fail_request` do to the fields; `r` is the memory as the step system
        sees it. */
    method Retire(id: Id, outcome: L.Outcome, ghost r: R.Res)
      requires id in talks && id in hold && Coherent(alloc) && ResIs(r, hold, budgets, roundRobin, alloc)
      modifies this`talks, this`status, this`budgets, this`alloc, this`hold, this`active, this`registry
      modifies this`completed, this`errored
      ensures status == old(status)[id := if outcome.Finish? then L.Completed else L.Errored]
      ensures talks == old(talks)[id := LastTalk(old(talks)[id], outcome)]
      ensures id in hold && hold == old(hold)[id := hold[id]]
      ensures Freed(u, old(hold[id]), old(budgets), old(alloc), hold[id], budgets, alloc)
      ensures ResIs(FreedRes(u, r, id), hold, budgets, roundRobin, alloc)
      ensures active == Erase(old(active), id) && registry == old(registry) - {id}
      ensures completed == old(completed) + (if outcome.Finish? then 1 else 0)
      ensures errored == old(errored) + (if outcome.Finish? then 0 else 1)
    {
      Conclude(id, outcome);
      FreeResources(id, r);
      active := Erase(active, id);
      registry := registry - {id};
      if outcome.Finish? {
        completed := completed + 1;
      } else {
        errored := errored + 1;
      }
    }

    /** `complete_request` and `fail_request`: final status, last event, closed stream; memory given back;
        out of the active list and the registry; counted once. No other request changes. */
    method Finish(id: Id, outcome: L.Outcome)
      requires Valid() && EndsAt(model.life.pc, id, outcome, L.ToMark)
      modifies this`talks, this`status, this`budgets, this`alloc, this`hold, this`active, this`registry
      modifies this`completed, this`errored, this`model
      ensures Valid() && Lower(u, old(model), model) && model.life.pc == L.Back(old(model.life.pc.sweep))
      ensures status == old(status)[id := if outcome.Finish? then L.Completed else L.Errored]
      ensures id in old(talks) &&
        var t := old(talks)[id];
        talks == old(talks)[id := match outcome
          case Finish(reason) =>
            t.(out := t.out.(finish := reason), stream := Close(Push(t.stream, Event.Complete(reason)).0))
          case Fail(e) => t.(error := Some(e), stream := Close(Push(t.stream, Event.Failed(e)).0))]
      ensures id in old(hold) && id in hold && hold == old(hold)[id := hold[id]]
      ensures Freed(u, old(hold[id]), old(budgets), old(alloc), hold[id], budgets, alloc)
      ensures active == Erase(old(active), id) && registry == old(registry) - {id}
      ensures completed == old(completed) + (if outcome.Finish? then 1 else 0)
      ensures errored == old(errored) + (if outcome.Finish? then 0 else 1)
    {
      hide Reached, Coherent, Measure;
      ghost var next := FinishRun(u, model, id, outcome);
      Retire(id, outcome, model.res);
      model := next;
    }

    /** `fail_request`, for a request that was not active. */
    method FailRequest(id: Id, e: Error)
      requires Valid() && model.life.pc == L.Ending(id, L.Fail(e), L.ToMark, None)
      modifies this`talks, this`status, this`budgets, this`alloc, this`hold, this`active, this`registry
      modifies this`completed, this`errored, this`model
      ensures Valid() && Lower(u, old(model), model) && model.life.pc.Filling? && status == old(status)[id := L.Errored]
      ensures active == Erase(old(active), id) && completed == old(completed) && errored == old(errored) + 1
      ensures id in talks && talks[id].error == Some(e)
    {
      hide Reached, Lower;
      Finish(id, L.Fail(e));
    }

    // -------------------------------------------------------------- process_queue

    method TakeFront() returns (id: Id)
      requires Valid() && model.life.pc.Filling? && pending != [] && |active| < u.limits.maxActive
      modifies this`pending, this`model
      ensures Valid() && Lower(u, old(model), model)
      ensures HeldAs(model, id, L.Queued) && id == old(pending[0]) && pending == old(pending[1..])
      ensures model.res == old(model).res && model.specs == old(model).specs
    {
      hide Reached;
      ghost var next := TakeStep(u, model);
      id := pending[0];
      pending := pending[1..];
      model := next;
    }

    /** The deadlines that `process_queue` checks; `run_prefill` starts by changing the status. */
    method CheckDeadlines(id: Id, expired: bool)
      requires Valid() && HeldAs(model, id, L.Queued)
      modifies this`status, this`model
      ensures Valid() && Lower(u, old(model), model)
      ensures if expired then model.life.pc == L.Ending(id, L.Fail(Timeout), L.ToMark, None) && status == old(status)
              else HeldAs(model, id, L.Prefilling) && status == old(status)[id := L.Prefilling]
      ensures model.res == old(model).res && model.specs == old(model).specs
    {
      hide Reached;
      ghost var next := DeadlineStep(u, model, id, expired);
      if !expired {
        status := status[id := L.Prefilling];
      }
      model := next;
    }

    method Start(id: Id)
      requires Valid() && model.life.pc.Prefill? && model.life.pc.id == id && model.life.pc.stage.AtReady?
      modifies this`status, this`active, this`model
      ensures Valid() && Lower(u, old(model), model) && model.life.pc.Filling?
      ensures status == old(status)[id := L.Decoding] && active == old(active) + [id]
    {
      hide Reached;
      ghost var next := ActivateStep(u, model, id);
      status := status[id := L.Decoding];
      active := active + [id];
      model := next;
    }

    /** A request whose deadlines have not passed: prefill, and then the active list or the failure. */
    method Launch(id: Id, answer: Answer)
      requires Valid() && HeldAs(model, id, L.Prefilling) && !answer.expired
      modifies this
      ensures Valid() && Lower(u, old(model), model) && model.life.pc.Filling?
      ensures pending == old(pending) && completed == old(completed)
      ensures if errored == old(errored) then active == old(active) + [id] && status == old(status)[id := L.Decoding]
              else errored == old(errored) + 1 && active == Erase(old(active), id)
                   && status == old(status)[id := L.Errored]
      ensures errored == old(errored) <==> EarlyFault(u, old(model), id, answer).None?
      ensures errored != old(errored) ==> id in talks && talks[id].error == EarlyFault(u, old(model), id, answer)
    {
      hide Reached, Coherent;
      var fault := Prefill(id, answer);
      if fault.Some? {
        FailRequest(id, fault.value);
      } else {
        Start(id);
      }
    }

    /** One request of the queue: it is activated, or it has failed and was counted; it fails exactly if a
        deadline has passed or its prefill fails, and that error is recorded. */
    method Admit(answer: Answer)
      requires Valid() && model.life.pc.Filling? && pending != [] && |active| < u.limits.maxActive
      modifies this
      ensures Valid() && Lower(u, old(model), model) && model.life.pc.Filling? && pending == old(pending[1..])
      ensures completed == old(completed) && old(pending[0]) in status
      ensures if errored == old(errored)
              then active == old(active) + [old(pending[0])] && status[old(pending[0])].Decoding?
              else errored == old(errored) + 1 && active == Erase(old(active), old(pending[0]))
                   && status[old(pending[0])].Errored?
      ensures var (id, fault) := (old(pending[0]), EarlyFault(u, old(model), old(pending[0]), answer));
        (errored == old(errored) <==> fault.None?) && (fault.Some? ==> id in talks && talks[id].error == fault)
    {
      hide Reached, Measure;
      ghost var first := model;
      var id := TakeFront();
      CheckDeadlines(id, answer.expired);
      SameFailure(u, first, model, id, answer);
      if answer.expired {
        FailRequest(id, Timeout);
      } else {
        Launch(id, answer);
      }
    }

    /** `process_queue`: until the queue is empty or the active list is full. */
    method ProcessQueue(answers: nat -> Answer)
      requires Valid() && model.life.pc.Filling?
      modifies this
      ensures Valid() && model.life.pc.Filling? && (pending == [] || |active| >= u.limits.maxActive)
      ensures exists n :: 0 <= n <= |old(pending)| && pending == old(pending)[n..]
      ensures model == old(model) || Lower(u, old(model), model)
      ensures old(pending) == [] ==> model == old(model)
    {
      hide Reached, Coherent;
      var n := 0;
      while pending != [] && |active| < u.limits.maxActive
        invariant Valid() && model.life.pc.Filling?
        invariant 0 <= n <= |old(pending)| && pending == old(pending)[n..]
        invariant if n == 0 then model == old(model) else Lower(u, old(model), model)
        decreases |pending|
      {
        Admit(answers(n));
        n := n + 1;
      }
    }

    // -------------------------------------------------------------- decode_loop

    /** `run_decode_step` yields a token: text, stream, stop check and cache length. */
    method EmitToken(id: Id, token: int, piece: string)
      requires id in talks && id in hold && id in specs
      modifies this`talks, this`hold
      ensures talks == old(talks)[id := Utter(old(talks)[id], token, piece, StopsFor(u, specs[id]))]
      ensures hold == old(hold)[id := Longer(old(hold)[id])]
    {
      var (t, cfg) := (talks[id], StopsFor(u, specs[id]));
      var (tokens, text) := (t.out.tokens + [token], t.out.text + piece);
      var handle := hold[id].handle;
      hold := hold[id := hold[id].(handle := handle.(currentLen := handle.currentLen + 1))];
      t := t.(stream := Push(t.stream, Token(token, piece)).0);
      var v := Check(tokens, text, cfg);
      if v.matched != "" {
        text := TrimStopSequence(text, v.matched);
      }
      var finish := if v.stop then v.reason else t.out.finish;
      t := t.(out := Output(tokens, text, finish, v.stop, v.matched, t.out.pieces + [piece]));
      talks := talks[id := t];
    }

    /** What the body of the loop over the snapshot does to the fields: it takes them from `s` to `t`. */
    method DealWith(id: Id, answer: Answer, ghost s: State, ghost t: State)
      requires Known(s, id) && Coherent(s.res.alloc) && Advanced(u, s, t, id, answer)
      requires LifeIs(s.life, pending, active, registry, completed, errored, status)
      requires ResIs(s.res, hold, budgets, roundRobin, alloc) && talks == s.talks && specs == s.specs
      modifies this`talks, this`status, this`budgets, this`alloc, this`hold, this`active, this`registry
      modifies this`completed, this`errored
      ensures LifeIs(t.life, pending, active, registry, completed, errored, status)
      ensures ResIs(t.res, hold, budgets, roundRobin, alloc) && talks == t.talks && specs == t.specs
    {
      hide Utter, LastTalk, Coherent, GiveBack;
      if talks[id].cancelled {
        Retire(id, L.Finish(Stop), s.res);
      } else if answer.expired {
        Retire(id, L.Fail(Timeout), s.res);
      } else if answer.fault.Some? {
        Retire(id, L.Fail(answer.fault.value), s.res);
      } else {
        EmitToken(id, answer.token, answer.piece);
        if talks[id].out.halted {
          Retire(id, L.Finish(talks[id].out.finish), LongerRes(s.res, id, true));
        }
      }
    }

    /** One request of the snapshot: cancelled, timed out, failed, finished, or one token further: the token
        that was sampled. No other request changes. */
    method Advance(id: Id, ghost rest: seq<Id>, answer: Answer)
      requires Valid() && model.life.pc == L.Sweeping([id] + rest)
      modifies this`talks, this`status, this`budgets, this`alloc, this`hold, this`active, this`registry
      modifies this`completed, this`errored, this`model
      ensures Valid() && Lower(u, old(model), model) && model.life.pc == L.Sweeping(rest)
      ensures Known(old(model), id) && Coherent(old(model).res.alloc) && Advanced(u, old(model), model, id, answer)
      ensures id in specs && id in old(talks) && id in talks && talks == old(talks)[id := talks[id]]
      ensures var cfg := StopConfig(u.eos, u.imEnd, [], specs[id].sequences, specs[id].maxTokens);
        && Turned(old(talks)[id], answer, cfg, talks[id])
        && match TurnEnds(old(talks)[id], answer, cfg)
           case None =>
             status == old(status) && active == old(active) && registry == old(registry)
             && completed == old(completed) && errored == old(errored)
           case Some(st) =>
             status == old(status)[id := st] && active == Erase(old(active), id) && registry == old(registry) - {id}
             && completed == old(completed) + (if st.Completed? then 1 else 0)
             && errored == old(errored) + if st.Completed? then 0 else 1
    {
      hide Reached, Lower, Turned, TurnEnds, Advanced;
      ghost var next := AdvanceRun(u, model, id, rest, answer);
      AdvancedTurn(u, model, next, id, answer);
      DealWith(id, answer, model, next);
      model := next;
    }

    /** Since `first`, nothing was done yet or there is less left to do. */
    ghost predicate Worked(first: State, some: bool) reads this {
      if some then Lower(u, first, model) else model == first
    }

    method Visit(batch: seq<Id>, i: nat, answer: Answer, ghost first: State)
      requires Valid() && i < |batch| && model.life.pc == L.Sweeping(batch[i..]) && Worked(first, i > 0)
      modifies this`talks, this`status, this`budgets, this`alloc, this`hold, this`active, this`registry
      modifies this`completed, this`errored, this`model
      ensures Valid() && model.life.pc == L.Sweeping(batch[i + 1..]) && Worked(first, true)
      ensures batch[i] in specs
      ensures TookTurn(StopsFor(u, specs[batch[i]]), answer, batch[i], old(talks), old(status), talks, status)
      ensures forall id :: id != batch[i] ==> Untouched(id, old(talks), old(status), talks, status)
    {
      hide Reached, Coherent, Turned, TurnEnds, Advanced;
      assert batch[i..] == [batch[i]] + batch[i + 1..];
      ghost var before := model;
      SweepListed(u, model);
      Advance(batch[i], batch[i + 1..], answer);
      if i > 0 {
        LowerChain(u, first, before, model);
      }
    }

    method OpenSweep() returns (batch: seq<Id>)
      requires Valid() && model.life.pc.Filling? && (pending == [] || |active| >= u.limits.maxActive)
      modifies this`model
      ensures Valid() && batch == active && model == Goto(old(model), L.Sweeping(batch))
      ensures !NothingToDo(old(model)) ==> Lower(u, old(model), model)
    {
      hide Reached;
      ghost var next := SnapshotStep(u, model);
      batch := active;
      model := next;
    }

    method CloseSweep()
      requires Valid() && model.life.pc == L.Sweeping([])
      modifies this`model
      ensures Valid() && model == Goto(old(model), L.Filling)
      ensures !NothingToDo(old(model)) ==> Lower(u, old(model), model)
    {
      hide Reached;
      ghost var next := EndSweepStep(u, model);
      model := next;
    }

    method SweepAll(batch: seq<Id>, entries: nat -> Answer)
      requires Valid() && model.life.pc == L.Sweeping(batch)
      modifies this`talks, this`status, this`budgets, this`alloc, this`hold, this`active, this`registry
      modifies this`completed, this`errored, this`model
      ensures Valid() && model.life.pc == L.Sweeping([])
      ensures if batch == [] then model == old(model) else Lower(u, old(model), model)
      ensures Swept(u, specs, batch, |batch|, entries, old(talks), old(status), talks, status)
    {
      hide Reached, Coherent, TookTurn, Untouched;
      ghost var first := model;
      SweepListed(u, model);
      NoneSwept(u, specs, batch, entries, talks, status);
      for i := 0 to |batch|
        invariant Valid() && model.life.pc == L.Sweeping(batch[i..]) && Worked(first, i > 0)
        invariant Swept(u, specs, batch, i, entries, old(talks), old(status), talks, status)
      {
        ghost var (mid, marks) := (talks, status);
        Visit(batch, i, entries(i), first);
        SweptMore(u, specs, batch, i, entries, old(talks), old(status), mid, marks, talks, status);
      }
    }

    /** Every request of a snapshot of the active list gets one turn, and no other request gets any. */
    method Sweep(entries: nat -> Answer)
      requires Valid() && model.life.pc.Filling? && (pending == [] || |active| >= u.limits.maxActive)
      modifies this`talks, this`status, this`budgets, this`alloc, this`hold, this`active, this`registry
      modifies this`completed, this`errored, this`model
      ensures Valid() && model.life.pc.Filling?
      ensures if NothingToDo(old(model)) then model == old(model) else Lower(u, old(model), model)
      ensures Swept(u, specs, old(active), |old(active)|, entries, old(talks), old(status), talks, status)
    {
      hide Reached, Swept;
      var batch := OpenSweep();
      SweepAll(batch, entries);
      EndSweepLevel(model);
      CloseSweep();
    }

    /** The body of `decode_loop`. A pass that finds something to do leaves less to do. */
    method Pass(answers: nat -> Answer, entries: nat -> Answer)
      requires Valid() && model.life.pc.Filling?
      modifies this
      ensures Valid() && model.life.pc.Filling?
      ensures if NothingToDo(old(model)) then model == old(model) else Lower(u, old(model), model)
    {
      hide Reached;
      ProcessQueue(answers);
      Sweep(entries);
    }

    /** `decode_loop`, for a number of passes: whatever the devices, the clock and the sampler answer,
        without new requests it runs out of work. Then no budget is charged, but for what failed prefills
        of split requests released twice under the pooled allocator. */
    method DecodeLoop(passes: nat, answers: nat -> nat -> Answer, entries: nat -> nat -> Answer)
      requires Valid() && model.life.pc.Filling? && u.limits.maxActive >= 1
      modifies this
      ensures Valid() && model.life.pc.Filling?
      ensures passes > Measure(old(model)) ==> pending == [] && active == []
      ensures passes > Measure(old(model)) ==> DrainedTo(u, model, budgets)
    {
      hide Reached;
      for k := 0 to passes
        invariant Valid() && model.life.pc.Filling?
        invariant NothingToDo(model) || Measure(model) + k <= Measure(old(model))
      {
        Pass(answers(k), entries(k));
      }
      MeasureBounded(u, model);
      if NothingToDo(model) {
        AllDrained(u, model);
      }
    }

    // -------------------------------------------------------------- HTTP threads

    /** A new request object, at the end of the queue or rejected: the fields go from `s` to `t`. */
    method Record(id: Id, spec: Spec, accepted: bool, ghost s: State, ghost t: State)
      requires Submitted(s, t, id, accepted) && t.specs == specs[id := spec]
      requires t.talks == talks[id := NewTalk(u.capacity)]
      requires LifeIs(s.life, pending, active, registry, completed, errored, status)
      requires ResIs(t.res, hold[id := R.Hold(spec.SeqLen(), NO_HANDLE, [], R.Bare)], budgets, roundRobin, alloc)
      modifies this`specs, this`talks, this`hold, this`status, this`registry, this`pending
      ensures LifeIs(t.life, pending, active, registry, completed, errored, status)
      ensures ResIs(t.res, hold, budgets, roundRobin, alloc) && talks == t.talks && specs == t.specs
      ensures status == old(status)[id := if accepted then L.Queued else L.Rejected]
      ensures registry == (if accepted then old(registry) + {id} else old(registry))
      ensures pending == if accepted then old(pending) + [id] else old(pending)
      ensures specs == old(specs)[id := spec] && talks == old(talks)[id := NewTalk(u.capacity)]
      ensures hold == old(hold)[id := R.Hold(spec.SeqLen(), NO_HANDLE, [], R.Bare)]
    {
      specs := specs[id := spec];
      talks := talks[id := NewTalk(u.capacity)];
      hold := hold[id := R.Hold(spec.SeqLen(), NO_HANDLE, [], R.Bare)];
      if accepted {
        registry := registry + {id};
        status := status[id := L.Queued];
        pending := pending + [id];
      } else {
        status := status[id := L.Rejected];
      }
    }

    /** `admit`: the queue, then the budgets, then the allocator. */
    method Admits(spec: Spec) returns (fits: bool)
      requires Agrees()
      ensures fits == Accepts(u, model, spec)
    {
      if |pending| >= u.limits.maxQueue {
        return false;
      }
      SameChecks(u, model.res, R.Res(hold, budgets, roundRobin, alloc, map[], [], []), spec.SeqLen());
      if !GpuAccepts(u, R.Res(hold, budgets, roundRobin, alloc, map[], [], []), spec.SeqLen()) {
        return false;
      }
      return CanAllocate(alloc, spec.SeqLen());
    }

    method SubmitClamped(thread: Thread, id: Id, spec: Spec) returns (accepted: bool)
      requires Valid() && thread < u.limits.threads && thread !in model.life.submissions && id !in model.life.place
      requires Clamped(u, spec)
      modifies this`specs, this`talks, this`hold, this`status, this`registry, this`pending, this`model
      ensures Valid() && accepted == Accepts(u, old(model), spec)
      ensures status == old(status)[id := if accepted then L.Queued else L.Rejected]
      ensures registry == (if accepted then old(registry) + {id} else old(registry))
      ensures pending == if accepted then old(pending) + [id] else old(pending)
      ensures specs == old(specs)[id := spec] && talks == old(talks)[id := NewTalk(u.capacity)]
      ensures hold == old(hold)[id := R.Hold(spec.SeqLen(), NO_HANDLE, [], R.Bare)]
    {
      hide Reached;
      ghost var next := SubmitRun(u, model, thread, id, spec);
      accepted := Admits(spec);
      Record(id, spec, accepted, model, next);
      model := next;
    }

    /** `submit`: the request is registered and at the end of the queue, or it is rejected and the queue,
        the registry, the budgets and the allocator are unchanged. It is accepted exactly when it fits the
        context, the queue is not full, and router and allocator have room for prompt and output; then what
        it asked for is on record, and nothing has been produced for it. */
    method Submit(thread: Thread, id: Id, prompt: nat, asked: nat, sequences: seq<string>) returns (r: Result<()>)
      requires Valid() && thread < u.limits.threads && thread !in model.life.submissions && id !in model.life.place
      requires asked >= 1
      modifies this`specs, this`talks, this`hold, this`status, this`registry, this`pending, this`model
      ensures Valid()
      ensures var limit := Clamp(prompt, asked, u.maxContext);
        if limit.Err? then
          && r == Err(InvalidRequest) && status == old(status) && specs == old(specs) && talks == old(talks)
          && hold == old(hold)
        else
          var (n, a) := (prompt + limit.value, old(alloc));
          && (r.Ok? <==>
                && |old(pending)| < u.limits.maxQueue && CanAllocate(a, n)
                && (u.hasRouter ==>
                      var share := ConfigOf(a).BytesPerDevice(n);
                      && (Recommend(u.topology, n).TensorParallel? && share == 0 ==> old(budgets) != [])
                      && CanPlace(u.topology, old(budgets), n, EstimateKv(n), share)))
          && (r.Err? ==> r.error == ResourceExhausted)
          && status == old(status)[id := if r.Ok? then L.Queued else L.Rejected]
          && specs == old(specs)[id := Spec(prompt, limit.value, sequences)]
          && talks == old(talks)[id := Talk(NOTHING, Fresh(u.capacity), false, None)]
          && hold == old(hold)[id := R.Hold(n, NO_HANDLE, [], R.Bare)]
      ensures registry == (if r.Ok? then old(registry) + {id} else old(registry))
      ensures pending == if r.Ok? then old(pending) + [id] else old(pending)
    {
      hide Reached;
      var limit := Clamp(prompt, asked, u.maxContext);
      if limit.Err? {
        return Err(limit.error);
      }
      var accepted := SubmitClamped(thread, id, Spec(prompt, limit.value, sequences));
      return if accepted then Ok(()) else Err(ResourceExhausted);
    }

    /** `cancel` finds the request through the registry. */
    method Cancel(id: Id)
      requires Valid()
      modifies this`talks, this`model
      ensures Valid()
      ensures id in registry ==> id in old(talks) && talks == old(talks)[id := old(talks)[id].(cancelled := true)]
      ensures id !in registry ==> talks == old(talks)
    {
      hide Reached;
      if id in registry {
        RegisteredKnown(u, model, id);
        ghost var next := CancelStep(u, model, id);
        talks := talks[id := talks[id].(cancelled := true)];
        model := next;
      }
    }

    /** An idle scheduler over the budgets and the allocator of the setup. */
    constructor (u: Setup)
      requires Unused(u) && Sane(u)
      ensures Valid() && this.u == u && model == Begin(u) && model.life.pc.Filling?
    {
      this.u := u;
      pending, active, registry, completed, errored := [], [], {}, 0, 0;
      status, specs, talks, hold := map[], map[], map[], map[];
      budgets, roundRobin, alloc := u.budgets, 0, u.alloc;
      model := Begin(u);
      new;
      Begins(u);
    }
  }

  /** No budget is charged, but for what was released twice. */
  ghost predicate DrainedTo(u: Setup, s: State, budgets: seq<Budget>) {
    forall i :: 0 <= i < |budgets| ==>
      && budgets[i].reserved == 0 && budgets[i].used == Wrap(0 - Overdraft(s, budgets[i].device))
      && (!SplitOverPool(u) ==> budgets[i].used == 0)
  }

  lemma AllDrained(u: Setup, s: State)
    requires Reached(u, s) && NothingToDo(s)
    ensures DrainedTo(u, s, s.res.budgets)
  {
    hide Reached;
    forall i | 0 <= i < |s.res.budgets|
      ensures s.res.budgets[i].reserved == 0 && s.res.budgets[i].used == Wrap(0 - Overdraft(s, s.res.budgets[i].device))
      ensures !SplitOverPool(u) ==> s.res.budgets[i].used == 0
    {
      DrainedBudgets(u, s, i);
    }
  }

  /** The contiguous allocator after `initialize`. */
  function EmptyContiguous(cfg: Config, memory: nat): Allocator {
    var devices := if cfg.devices == [] then {cfg.device} else set d | d in cfg.devices;
    OfContiguous(C.Contiguous(cfg, map d | d in devices :: C.Stats(memory, 0, memory), map[], 1, map[]))
  }

  /** The pooled allocator after `initialize`, the devices having granted `g`. */
  function EmptyPool(cfg: Config, slotTokens: nat, slots: nat, overflow: bool, g: Grant): Allocator {
    var devices := if cfg.devices == [] then {cfg.device} else set d | d in cfg.devices;
    var pools := map d | d in devices :: P.Carve(g, slots, cfg.BytesFor(slotTokens));
    OfPool(P.Pool(cfg, slotTokens, cfg.BytesFor(slotTokens), overflow, pools, map[], 1, map[]))
  }

  function Budgets(u: Setup, perDevice: nat): seq<Budget> {
    if u.hasRouter then Tight(u.topology.devices, perDevice) else []
  }

  lemma EmptyPoolFits(cfg: Config, slotTokens: nat, slots: nat, overflow: bool, g: Grant)
    requires cfg.BytesFor(slotTokens) * slots < WORD
    ensures var a := EmptyPool(cfg, slotTokens, slots, overflow, g);
      Coherent(a) && Live(a) == {} && (forall d :: NetUsed(a, d) == 0) && a.p.granted == map[]
  {
    P.CarveSound(g, slots, cfg.BytesFor(slotTokens));
  }

  /** Whatever the limits, the devices and the memory are, a scheduler can be set up, with either
      allocator. */
  lemma StartsClean(u: Setup, perDevice: nat, cfg: Config, memory: nat, slotTokens: nat, slots: nat,
    overflow: bool, g: Grant)
    requires Distinct(u.topology.devices) && perDevice < WORD && memory < WORD
    requires cfg.BytesFor(slotTokens) * slots < WORD
    ensures forall a | a in {EmptyContiguous(cfg, memory), EmptyPool(cfg, slotTokens, slots, overflow, g)} ::
      var v := u.(budgets := Budgets(u, perDevice), alloc := a); Unused(v) && Sane(v) && Reached(v, Begin(v))
  {
    hide Apply;
    EmptyPoolFits(cfg, slotTokens, slots, overflow, g);
    forall a | a in {EmptyContiguous(cfg, memory), EmptyPool(cfg, slotTokens, slots, overflow, g)}
      ensures var v := u.(budgets := Budgets(u, perDevice), alloc := a); Unused(v) && Sane(v) && Reached(v, Begin(v))
    {
      Begins(u.(budgets := Budgets(u, perDevice), alloc := a));
    }
  }
}
