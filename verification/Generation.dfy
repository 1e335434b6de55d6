/** Stop conditions (src/core/stop_checker.cpp:10-118). */
module StopChecker {
  import opened Wrappers
  import opened Stream

  /** The two stop tokens of the tokenizer, and what the request asked for. */
  datatype StopConfig = StopConfig(eos: int, imEnd: int, stopTokens: seq<int>, sequences: seq<string>, maxTokens: int)

  datatype Verdict = Verdict(stop: bool, reason: FinishReason, matched: string)

  const GO_ON: Verdict := Verdict(false, NoReason, "")

  predicate EndsWith(text: string, suffix: string) {
    |text| >= |suffix| && text[|text| - |suffix|..] == suffix
  }

  /** The first non-empty stop sequence, in list order, that the text ends with. */
  function FindStopSequence(text: string, sequences: seq<string>): Option<string> {
    if sequences == [] then None
    else if sequences[0] != "" && EndsWith(text, sequences[0]) then Some(sequences[0])
    else FindStopSequence(text, sequences[1..])
  }

  function TrimStopSequence(text: string, suffix: string): string {
    if suffix != "" && EndsWith(text, suffix) then text[..|text| - |suffix|] else text
  }

  predicate IsStopToken(t: int, cfg: StopConfig) {
    t == cfg.eos || t == cfg.imEnd || t in cfg.stopTokens
  }

  function Check(tokens: seq<int>, text: string, cfg: StopConfig): Verdict {
    if cfg.maxTokens > 0 && |tokens| >= cfg.maxTokens then Verdict(true, Length, "")
    else if tokens != [] && IsStopToken(tokens[|tokens| - 1], cfg) then Verdict(true, Stop, "")
    else if cfg.sequences != [] && text != "" then
      match FindStopSequence(text, cfg.sequences)
      case Some(m) => Verdict(true, Stop, m)
      case None => GO_ON
    else GO_ON
  }

  /** To end with a string is to be some text followed by it. */
  lemma EndsWithMeaning(text: string, suffix: string)
    ensures EndsWith(text, suffix) <==> exists kept :: text == kept + suffix
  {
    if EndsWith(text, suffix) {
      assert text == text[..|text| - |suffix|] + suffix;
    }
  }

  // ---------------------------------------------------------------- the conditions, from the configuration

  ghost predicate LengthReached(tokens: seq<int>, cfg: StopConfig) {
    cfg.maxTokens > 0 && |tokens| >= cfg.maxTokens
  }

  ghost predicate OnStopToken(tokens: seq<int>, cfg: StopConfig) {
    tokens != [] &&
      var last := tokens[|tokens| - 1];
      last == cfg.eos || last == cfg.imEnd || last in cfg.stopTokens
  }

  /** `m` is the first entry of the list, empty ones aside, that the text ends with. */
  ghost predicate FirstMatch(m: string, text: string, sequences: seq<string>) {
    exists i :: 0 <= i < |sequences| && sequences[i] == m && m != "" && EndsWith(text, m)
      && forall j :: 0 <= j < i && sequences[j] != "" ==> !EndsWith(text, sequences[j])
  }

  ghost predicate OnSequence(text: string, cfg: StopConfig) { exists m :: FirstMatch(m, text, cfg.sequences) }

  /** A token boundary at which generation has to end: the length is reached, the last token is a stop
      token, or the text ends with one of the stop sequences. */
  ghost predicate MustStop(tokens: seq<int>, text: string, cfg: StopConfig) {
    LengthReached(tokens, cfg) || OnStopToken(tokens, cfg) || OnSequence(text, cfg)
  }

  lemma {:induction false} FindStopSequenceMeaning(text: string, sequences: seq<string>)
    ensures match FindStopSequence(text, sequences)
      case Some(m) => FirstMatch(m, text, sequences)
      case None => forall m :: !FirstMatch(m, text, sequences)
  {
    if sequences != [] && !(sequences[0] != "" && EndsWith(text, sequences[0])) {
      FindStopSequenceMeaning(text, sequences[1..]);
      forall m ensures FirstMatch(m, text, sequences[1..]) <==> FirstMatch(m, text, sequences) {
        MatchLater(m, text, sequences);
      }
    }
  }

  lemma MatchLater(m: string, text: string, sequences: seq<string>)
    requires sequences != [] && !(sequences[0] != "" && EndsWith(text, sequences[0]))
    ensures FirstMatch(m, text, sequences[1..]) <==> FirstMatch(m, text, sequences)
  {
    var rest := sequences[1..];
    if FirstMatch(m, text, rest) {
      var i :| 0 <= i < |rest| && rest[i] == m && m != "" && EndsWith(text, m)
        && forall j :: 0 <= j < i && rest[j] != "" ==> !EndsWith(text, rest[j]);
      assert sequences[i + 1] == m;
      assert forall j :: 0 < j < i + 1 ==> sequences[j] == rest[j - 1];
    }
    if FirstMatch(m, text, sequences) {
      var i :| 0 <= i < |sequences| && sequences[i] == m && m != "" && EndsWith(text, m)
        && forall j :: 0 <= j < i && sequences[j] != "" ==> !EndsWith(text, sequences[j]);
      assert rest[i - 1] == m;
      assert forall j :: 0 <= j < i - 1 ==> rest[j] == sequences[j + 1];
    }
  }

  /** The checker stops exactly at such a boundary and tells why. It reports a stop sequence exactly
      if nothing else ends generation there, and then the first in the list that the text ends with. */
  lemma CheckMeaning(tokens: seq<int>, text: string, cfg: StopConfig)
    ensures var v := Check(tokens, text, cfg);
      && (v.stop <==> MustStop(tokens, text, cfg))
      && v.reason == (if LengthReached(tokens, cfg) then Length else if v.stop then Stop else NoReason)
      && if v.stop && !LengthReached(tokens, cfg) && !OnStopToken(tokens, cfg)
         then FirstMatch(v.matched, text, cfg.sequences) else v.matched == ""
  {
    FindStopSequenceMeaning(text, cfg.sequences);
  }
}

/** One request's output, token by token (src/scheduler/scheduler.cpp:284-305, 335-400). */
module Generation {
  import opened Stream
  import opened StopChecker

  /** `pieces` is history: the decoded text of each token, in order. */
  datatype Output = Output(
    tokens: seq<int>, text: string, finish: FinishReason, halted: bool, matched: string, pieces: seq<string>)

  const NOTHING: Output := Output([], "", NoReason, false, "", [])

  /** Appends a token and its text, then applies the stop check. */
  function Advance(o: Output, token: int, piece: string, cfg: StopConfig): Output {
    var tokens := o.tokens + [token];
    var text := o.text + piece;
    var v := Check(tokens, text, cfg);
    Output(tokens,
           if v.matched != "" then TrimStopSequence(text, v.matched) else text,
           if v.stop then v.reason else o.finish,
           v.stop, v.matched, o.pieces + [piece])
  }

  function Concat(pieces: seq<string>): string {
    if pieces == [] then "" else Concat(pieces[..|pieces| - 1]) + pieces[|pieces| - 1]
  }

  /** The output after `n` tokens had to stop there. */
  ghost predicate StopsAt(o: Output, n: nat, cfg: StopConfig)
    requires n <= |o.tokens| == |o.pieces|
  {
    MustStop(o.tokens[..n], Concat(o.pieces[..n]), cfg)
  }

  /** What is cut off: the first stop sequence in the list that the spelled text ends with, if nothing
      else ended generation; otherwise nothing. */
  ghost predicate CutOff(o: Output, cfg: StopConfig) {
    if o.halted && !LengthReached(o.tokens, cfg) && !OnStopToken(o.tokens, cfg)
    then FirstMatch(o.matched, Concat(o.pieces), cfg.sequences) else o.matched == ""
  }

  /** Generation halts at the first boundary that calls for it, never earlier and never later; the
      streamed pieces spell the kept text followed by the stop sequence that was cut off. */
  ghost predicate Faithful(o: Output, cfg: StopConfig) {
    && |o.pieces| == |o.tokens|
    && Concat(o.pieces) == o.text + o.matched && CutOff(o, cfg)
    && (!o.halted ==> !o.finish.Length?)
    && (o.halted ==> o.tokens != [] && StopsAt(o, |o.tokens|, cfg)
                     && o.finish == if |o.tokens| == cfg.maxTokens then Length else Stop)
    && (forall n :: 0 < n < |o.tokens| || (n == |o.tokens| && 0 < n && !o.halted) ==> !StopsAt(o, n, cfg))
    && |o.tokens| <= cfg.maxTokens
    && (!o.halted ==> |o.tokens| < cfg.maxTokens)
  }

  /** The pieces spell the kept text and what was cut off. */
  lemma AdvanceSpells(o: Output, token: int, piece: string, cfg: StopConfig)
    requires Concat(o.pieces) == o.text
    ensures var r := Advance(o, token, piece, cfg);
      Concat(r.pieces) == o.text + piece && Concat(r.pieces) == r.text + r.matched
  {
    var r := Advance(o, token, piece, cfg);
    var text := o.text + piece;
    CheckMeaning(r.tokens, text, cfg);
    assert r.pieces[..|o.pieces|] == o.pieces;
    var v := Check(r.tokens, text, cfg);
    assert text == text[..|text| - |v.matched|] + text[|text| - |v.matched|..];
  }

  /** Boundaries already passed stay as they were. */
  lemma AdvanceKeepsPast(o: Output, token: int, piece: string, cfg: StopConfig, n: nat)
    requires |o.pieces| == |o.tokens| && n <= |o.tokens|
    ensures var r := Advance(o, token, piece, cfg); StopsAt(r, n, cfg) == StopsAt(o, n, cfg)
  {
    var r := Advance(o, token, piece, cfg);
    assert r.tokens[..n] == o.tokens[..n] && r.pieces[..n] == o.pieces[..n];
  }

  /** The new boundary calls for a stop exactly when the output halts there. */
  lemma AdvanceHalts(o: Output, token: int, piece: string, cfg: StopConfig)
    requires |o.pieces| == |o.tokens| && Concat(o.pieces) == o.text
    ensures var r := Advance(o, token, piece, cfg);
      && (r.halted <==> StopsAt(r, |r.tokens|, cfg))
      && r.finish == (if LengthReached(r.tokens, cfg) then Length else if r.halted then Stop else o.finish)
      && CutOff(r, cfg)
  {
    var r := Advance(o, token, piece, cfg);
    AdvanceSpells(o, token, piece, cfg);
    CheckMeaning(r.tokens, o.text + piece, cfg);
    assert r.tokens[..|r.tokens|] == r.tokens && r.pieces[..|r.pieces|] == r.pieces;
  }

  /** The token is recorded with its text, and the output stays faithful. */
  lemma AdvanceFaithful(o: Output, token: int, piece: string, cfg: StopConfig)
    requires Faithful(o, cfg) && !o.halted
    ensures var r := Advance(o, token, piece, cfg);
      Faithful(r, cfg) && r.tokens == o.tokens + [token] && r.pieces == o.pieces + [piece]
  {
    var r := Advance(o, token, piece, cfg);
    AdvanceSpells(o, token, piece, cfg);
    AdvanceHalts(o, token, piece, cfg);
    forall n | 0 < n <= |o.tokens| ensures !StopsAt(r, n, cfg) {
      AdvanceKeepsPast(o, token, piece, cfg, n);
    }
  }

  /** All the tokens the model would produce, fed one by one until the output halts. */
  function Generate(o: Output, feed: seq<(int, string)>, cfg: StopConfig): Output
    decreases |feed|
  {
    if feed == [] || o.halted then o else Generate(Advance(o, feed[0].0, feed[0].1, cfg), feed[1..], cfg)
  }

  /** `r` continues `o` with the first entries of `feed`; with all of them unless it halted. */
  ghost predicate Takes(o: Output, feed: seq<(int, string)>, r: Output)
    requires |o.pieces| == |o.tokens| && |r.pieces| == |r.tokens|
  {
    var n := |o.tokens|;
    && n <= |r.tokens| <= n + |feed| && (|r.tokens| < n + |feed| ==> r.halted)
    && (forall i :: 0 <= i < n ==> r.tokens[i] == o.tokens[i] && r.pieces[i] == o.pieces[i])
    && (forall i :: n <= i < |r.tokens| ==> r.tokens[i] == feed[i - n].0 && r.pieces[i] == feed[i - n].1)
  }

  /** One entry, and then the rest. */
  lemma TakesOne(o: Output, feed: seq<(int, string)>, next: Output, r: Output)
    requires |o.pieces| == |o.tokens| && |next.pieces| == |next.tokens| && |r.pieces| == |r.tokens| && feed != []
    requires next.tokens == o.tokens + [feed[0].0] && next.pieces == o.pieces + [feed[0].1]
    requires Takes(next, feed[1..], r)
    ensures Takes(o, feed, r)
  {
    var n := |o.tokens|;
    forall i | 0 <= i < |r.tokens|
      ensures (r.tokens[i], r.pieces[i])
        == if i < n then (o.tokens[i], o.pieces[i]) else feed[i - n]
    {
      assert i <= n ==> r.tokens[i] == next.tokens[i] && r.pieces[i] == next.pieces[i];
      assert i > n ==> feed[1..][i - n - 1] == feed[i - n];
    }
  }

  lemma {:induction false} GenerateFaithful(o: Output, feed: seq<(int, string)>, cfg: StopConfig)
    requires Faithful(o, cfg)
    ensures Faithful(Generate(o, feed, cfg), cfg) && Takes(o, feed, Generate(o, feed, cfg))
    decreases |feed|
  {
    hide Advance, StopsAt, CutOff, Concat;
    if feed != [] && !o.halted {
      var next := Advance(o, feed[0].0, feed[0].1, cfg);
      AdvanceFaithful(o, feed[0].0, feed[0].1, cfg);
      GenerateFaithful(next, feed[1..], cfg);
      TakesOne(o, feed, next, Generate(o, feed, cfg));
    }
  }

  /** From the start, for any feed: the output is the first entries of the feed, up to the first
      boundary that calls for a stop, or all of them; and its text is what they spell, without the stop
      sequence that ended it. */
  lemma GenerateFirst(feed: seq<(int, string)>, cfg: StopConfig)
    requires cfg.maxTokens >= 1
    ensures var r := Generate(NOTHING, feed, cfg);
      && |r.pieces| == |r.tokens| <= |feed|
      && (forall i :: 0 <= i < |r.tokens| ==> feed[i] == (r.tokens[i], r.pieces[i]))
      && (if r.halted then StopsAt(r, |r.tokens|, cfg) else |r.tokens| == |feed|)
      && (forall n :: 0 < n < |r.tokens| ==> !StopsAt(r, n, cfg))
      && Concat(r.pieces) == r.text + r.matched && CutOff(r, cfg)
  {
    assert Faithful(NOTHING, cfg);
    GenerateFaithful(NOTHING, feed, cfg);
  }
}

/** A request's output and its token queue together
    (src/scheduler/scheduler.cpp:352-376, 506-523, 551-567). */
module Talks {
  import opened Wrappers
  import opened Stream
  import opened StopChecker
  import opened Generation

  /** `error` is what `fail_request` records; a rejected request gets its error from `submit`. */
  datatype Talk = Talk(out: Output, stream: Stream, cancelled: bool, error: Option<Error>)

  function NewTalk(capacity: nat): Talk { Talk(NOTHING, Fresh(capacity), false, None) }

  /** A token is appended, offered to the queue and checked. */
  function Utter(t: Talk, token: int, piece: string, cfg: StopConfig): Talk {
    t.(out := Advance(t.out, token, piece, cfg), stream := Push(t.stream, Token(token, piece)).0)
  }

  function Conclude(t: Talk, reason: FinishReason): Talk { t.(out := t.out.(finish := reason)) }

  function Blame(t: Talk, e: Error): Talk { t.(error := Some(e)) }

  function Announce(t: Talk, last: Event): Talk { t.(stream := Push(t.stream, last).0) }

  function Hush(t: Talk): Talk { t.(stream := Close(t.stream)) }

  function Listen(t: Talk): Talk { t.(stream := Pop(t.stream).0) }

  // ---------------------------------------------------------------- invariant

  ghost predicate TokensOnly(events: seq<Event>) {
    forall i :: 0 <= i < |events| ==> events[i].Token?
  }

  /** Tokens, then at most one terminal event, and nothing after it. */
  ghost predicate Ended(events: seq<Event>) {
    TokensOnly(events) || (events != [] && TokensOnly(events[..|events| - 1]) && !events[|events| - 1].Token?)
  }

  function Texts(events: seq<Event>): seq<string> {
    if events == [] then []
    else
      var last := events[|events| - 1];
      Texts(events[..|events| - 1]) + if last.Token? then [last.text] else []
  }

  /** Every token with its text, in order, and then the end if it has been announced. */
  ghost predicate Carries(events: seq<Event>, o: Output, announced: bool)
    requires |o.pieces| == |o.tokens|
  {
    && |events| == |o.tokens| + (if announced then 1 else 0)
    && (forall i :: 0 <= i < |o.tokens| ==> events[i] == Token(o.tokens[i], o.pieces[i]))
    && (announced ==> !events[|o.tokens|].Token?)
  }

  /** The stream of a request: sound, with all its tokens if none was dropped, with nothing but
      tokens until the end is announced, and open until it is closed. */
  ghost predicate TalkOk(t: Talk, cfg: StopConfig, announced: bool, closed: bool) {
    && Faithful(t.out, cfg)
    && Sound(t.stream)
    && t.stream.closed == closed
    && (if announced then Ended(t.stream.accepted) else TokensOnly(t.stream.accepted))
    && (t.stream.dropped == 0 ==> Carries(t.stream.accepted, t.out, announced))
    && t.stream.attempts == |t.out.tokens| + (if announced then 1 else 0)
  }

  lemma TextsAppend(events: seq<Event>, e: Event)
    ensures Texts(events + [e]) == Texts(events) + (if e.Token? then [e.text] else [])
  {
    assert (events + [e])[..|events|] == events;
  }

  lemma UtterOk(t: Talk, token: int, piece: string, cfg: StopConfig)
    requires TalkOk(t, cfg, false, false) && !t.out.halted
    ensures TalkOk(Utter(t, token, piece, cfg), cfg, false, false)
  {
    AdvanceFaithful(t.out, token, piece, cfg);
    StepSound(t.stream, DoPush(Token(token, piece)));
  }

  lemma ConcludeOk(t: Talk, reason: FinishReason, cfg: StopConfig, announced: bool, closed: bool)
    requires TalkOk(t, cfg, announced, closed)
    requires reason == t.out.finish || (!t.out.halted && !reason.Length?)
    ensures TalkOk(Conclude(t, reason), cfg, announced, closed)
  {
    var o := Conclude(t, reason).out;
    forall n | 0 <= n <= |o.tokens| ensures StopsAt(o, n, cfg) == StopsAt(t.out, n, cfg) {
    }
  }

  lemma AnnounceOk(t: Talk, last: Event, cfg: StopConfig)
    requires TalkOk(t, cfg, false, false) && !last.Token?
    ensures TalkOk(Announce(t, last), cfg, true, false)
  {
    StepSound(t.stream, DoPush(last));
    assert (t.stream.accepted + [last])[..|t.stream.accepted|] == t.stream.accepted;
  }

  lemma ListenOk(t: Talk, cfg: StopConfig, announced: bool, closed: bool)
    requires TalkOk(t, cfg, announced, closed)
    ensures TalkOk(Listen(t), cfg, announced, closed)
  {
    StepSound(t.stream, DoPop);
  }
}
