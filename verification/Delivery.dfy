/** What the client of a request receives, for every interleaving that starts with nothing submitted. */
module Delivery {
  import opened Wrappers
  import opened Stream
  import opened StopChecker
  import opened Generation
  import opened Talks
  import opened System
  import opened Safety
  import opened Guarantees
  import opened Locality
  import A = Allocator
  import L = Lifecycle

  lemma Facts(u: Setup, t: State, id: Id)
    requires Inv(u, t) && id in t.talks
    ensures Recorded(t, id)
    ensures var (p, m) := (t.life.place[id], ModeOf(t.life.pc, id));
      TalkOk(t.talks[id], StopsFor(u, t.specs[id]), Announced(p, m), Closed(p, m))
    ensures L.StatusFits(t.life.status[id], t.life.place[id], t.life.submissions, t.life.pc, id)
  {
    hide R.Inv;
    assert CoupledAt(u, t, id);
    assert L.FitsAt(t.life, id);
  }

  // ---------------------------------------------------------------- the stream

  /** The events begin with every token produced so far, with its text, in order. */
  ghost predicate Streams(events: seq<Event>, o: Output) {
    |o.tokens| == |o.pieces| <= |events| &&
      forall i :: 0 <= i < |o.tokens| ==> events[i] == Token(o.tokens[i], o.pieces[i])
  }

  lemma TalkContract(t: Talk, cfg: StopConfig, announced: bool, closed: bool)
    requires TalkOk(t, cfg, announced, closed)
    ensures var q := t.stream;
      && q.popped + q.events == q.accepted && |q.events| <= q.capacity
      && q.attempts == |q.popped| + |q.events| + q.dropped && q.closed == closed
      && Ended(q.accepted) && (q.dropped == 0 ==> Streams(q.accepted, t.out))
  {
  }

  lemma ClosedIsTerminal(st: L.Status, p: L.Place, l: L.Life, id: Id)
    requires L.StatusFits(st, p, l.submissions, l.pc, id) && Closed(p, ModeOf(l.pc, id))
    requires p.InHand? || p.Running? || p.Done?
    ensures L.Terminal(st)
  {
  }

  /** What a consumer may rely on. First in, first out, never over capacity, and every push tried is
      popped, queued or counted as dropped; the stream carries tokens and then at most one terminal
      event; without drops these are all the tokens of the output with their texts, in order; and a
      closed queue belongs to a request that has its final status. */
  lemma StreamContract(u: Setup, t: State, id: Id)
    requires Reached(u, t) && id in t.talks
    ensures id in t.life.status
    ensures var q := t.talks[id].stream;
      && q.popped + q.events == q.accepted && |q.events| <= q.capacity
      && q.attempts == |q.popped| + |q.events| + q.dropped
      && Ended(q.accepted) && (q.dropped == 0 ==> Streams(q.accepted, t.talks[id].out))
      && (q.closed ==> L.Terminal(t.life.status[id]))
  {
    hide Reached, Fit, L.Inv, R.Inv;
    ReachedInv(u, t);
    Facts(u, t, id);
    var (p, m) := (t.life.place[id], ModeOf(t.life.pc, id));
    TalkContract(t.talks[id], StopsFor(u, t.specs[id]), Announced(p, m), Closed(p, m));
    if Closed(p, m) {
      if L.Touches(t.life.pc, id) {
        L.TouchedPlace(t.life, u.limits, id);
      }
      ClosedIsTerminal(t.life.status[id], p, t.life, id);
    }
  }

  // ---------------------------------------------------------------- when generation ends

  /** A request that completes was cancelled or had reached a stop condition. */
  ghost predicate WillingAt(s: State, id: Id) {
    Recorded(s, id) ==>
      (s.life.status[id].Completed? || (s.life.pc.Ending? && s.life.pc.id == id && s.life.pc.outcome.Finish?)) ==>
        s.talks[id].cancelled || s.talks[id].out.halted
  }

  ghost predicate Willing(s: State) {
    forall id {:trigger WillingAt(s, id)} :: id in s.talks ==> WillingAt(s, id)
  }

  /** A request about to yield a token has not been marked. */
  ghost predicate Unmarked(s: State) {
    s.life.pc.Stepping? ==> s.life.pc.id in s.life.status && s.life.status[s.life.pc.id].Decoding?
  }

  lemma InvUnmarked(u: Setup, s: State)
    requires Inv(u, s)
    ensures Unmarked(s)
  {
    hide Fit, R.Inv;
    if s.life.pc.Stepping? {
      assert L.FitsAt(s.life, s.life.pc.id);
    }
  }

  ghost predicate Involves(u: Setup, s: State, step: Step, x: Id)
    requires Enabled(u, s, step)
  {
    WorksOn(u, s, step) == Some(x) && WillingAt(s, x) && Recorded(s, x) && Unmarked(s)
  }

  lemma WorkWilling(u: Setup, s: State, step: Step, x: Id)
    requires Enabled(u, s, step) && Involves(u, s, step, x)
    ensures WillingAt(Apply(u, s, step), x)
  {
    hide Apply;
    if OfSubmit(step) || OfFill(step) || OfPrefill(step) {
      EarlyWilling(u, s, step, x);
    } else {
      LateWilling(u, s, step, x);
    }
  }

  lemma EarlyWilling(u: Setup, s: State, step: Step, x: Id)
    requires Enabled(u, s, step) && Involves(u, s, step, x) && (OfSubmit(step) || OfFill(step) || OfPrefill(step))
    ensures WillingAt(Apply(u, s, step), x)
  {
  }

  lemma LateWilling(u: Setup, s: State, step: Step, x: Id)
    requires Enabled(u, s, step) && Involves(u, s, step, x) && !OfSubmit(step) && !OfFill(step) && !OfPrefill(step)
    ensures WillingAt(Apply(u, s, step), x)
  {
  }

  lemma NewWilling(u: Setup, s: State, step: Step, id: Id)
    requires Enabled(u, s, step) && id !in s.life.place && !L.Touches(s.life.pc, id)
    requires id in Apply(u, s, step).talks && id !in s.talks
    ensures WillingAt(Apply(u, s, step), id)
  {
    hide A.Coherent, A.Allocate, A.GiveBack, A.CanAllocate;
    assert step.Offer? && step.id == id;
  }

  lemma Untouched(u: Setup, s: State, id: Id)
    requires Inv(u, s) && id !in s.life.place
    ensures !L.Touches(s.life.pc, id) && id !in s.talks
  {
    hide R.Inv;
    if L.Touches(s.life.pc, id) {
      L.TouchedPlace(s.life, u.limits, id);
    }
  }

  lemma OldWilling(u: Setup, s: State, step: Step, id: Id)
    requires Enabled(u, s, step) && Recorded(s, id) && WillingAt(s, id) && Unmarked(s)
    ensures WillingAt(Apply(u, s, step), id)
  {
    hide Apply, Enabled;
    if WorksOn(u, s, step) == Some(id) {
      WorkWilling(u, s, step, id);
    } else {
      StepLocal(u, s, step, id);
    }
  }

  lemma StepWillingAt(u: Setup, s: State, step: Step, id: Id)
    requires Inv(u, s) && Enabled(u, s, step) && Willing(s) && id in Apply(u, s, step).talks
    ensures WillingAt(Apply(u, s, step), id)
  {
    hide Inv, Apply;
    if id in s.life.place {
      InvRecords(u, s, id);
      InvUnmarked(u, s);
      OldWilling(u, s, step, id);
    } else {
      Untouched(u, s, id);
      NewWilling(u, s, step, id);
    }
  }

  lemma {:induction false} RunWilling(u: Setup, s: State, steps: seq<Step>, t: State)
    requires Inv(u, s) && Willing(s) && Runs(u, s, steps, t)
    ensures Willing(t)
    decreases |steps|
  {
    hide Inv, Apply, Enabled;
    if steps != [] {
      var next := Apply(u, s, steps[0]);
      forall id | id in next.talks ensures WillingAt(next, id) {
        StepWillingAt(u, s, steps[0], id);
      }
      StepKeeps(u, s, steps[0]);
      RunWilling(u, next, steps[1..], t);
    }
  }

  lemma ReachedWilling(u: Setup, t: State, id: Id)
    requires Reached(u, t) && id in t.talks
    ensures WillingAt(t, id)
  {
    hide Reached, Inv, Runs;
    var s, steps := Origin(u, t);
    RunWilling(u, s, steps, t);
  }

  /** No boundary before `n` tokens calls for a stop. */
  ghost predicate NoEarlierStop(o: Output, n: nat, cfg: StopConfig)
    requires |o.pieces| == |o.tokens|
  {
    forall k :: 0 < k < n && k <= |o.tokens| ==> !StopsAt(o, k, cfg)
  }

  /** Generation ends at the first token boundary where a stop condition holds. A request that
      completed without being cancelled is at such a boundary, and no request ever has an earlier
      one behind it; the finish reason is `Length` exactly when the token limit is reached. The kept text
      is what the tokens spell; but when only a stop sequence ended generation, it is without that one,
      the first in the request's list that the spelled text ends with. */
  lemma StopsOnTime(u: Setup, t: State, id: Id)
    requires Reached(u, t) && id in t.talks
    ensures Recorded(t, id)
    ensures var (o, spec) := (t.talks[id].out, t.specs[id]);
      var cfg := StopConfig(u.eos, u.imEnd, [], spec.sequences, spec.maxTokens);
      && |o.pieces| == |o.tokens| <= spec.maxTokens
      && (t.life.status[id].Completed? && !t.talks[id].cancelled ==>
            o.halted && o.tokens != [] && StopsAt(o, |o.tokens|, cfg))
      && NoEarlierStop(o, |o.tokens|, cfg)
      && (t.life.status[id].Decoding? && AtRest(t) ==> NoEarlierStop(o, |o.tokens| + 1, cfg))
      && (o.finish.Length? <==> |o.tokens| == spec.maxTokens)
      && (o.halted ==> o.finish == if |o.tokens| == spec.maxTokens then Length else Stop)
      && Concat(o.pieces) == o.text + o.matched
      && if !o.halted || |o.tokens| == spec.maxTokens || OnStopToken(o.tokens, cfg)
         then o.text == Concat(o.pieces) else FirstMatch(o.matched, Concat(o.pieces), spec.sequences)
  {
    hide Reached, Inv;
    ReachedInv(u, t);
    Facts(u, t, id);
    ReachedWilling(u, t, id);
    if t.life.status[id].Decoding? && AtRest(t) {
      DecodingRuns(u, t, id);
    }
  }

  lemma DecodingRuns(u: Setup, t: State, id: Id)
    requires Inv(u, t) && AtRest(t) && Recorded(t, id) && t.life.status[id].Decoding?
    ensures !t.talks[id].out.halted
  {
    hide R.Inv, TalkOk, Known;
    assert L.FitsAt(t.life, id);
    assert CoupledAt(u, t, id);
  }
}
