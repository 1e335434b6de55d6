/** The chat template (src/tokenizer/prompt_builder.cpp:71-134; include/api/types.hpp:12-27). */
module PromptTemplate {
  import opened Wrappers
  import opened Text
  import opened Tokenizer

  datatype Role = System | User | Assistant | Tool

  datatype Message = Message(role: Role, content: Bytes)

  datatype Config = Config(defaultSystem: Bytes, allowRaw: bool)

  function RoleName(role: Role): Bytes {
    match role
    case System => "system"
    case User => "user"
    case Assistant => "assistant"
    case Tool => "tool"
  }

  function Header(role: Role): Bytes { IM_START + RoleName(role) + "\n" }

  function FormatMessage(m: Message): Bytes { Header(m.role) + m.content + IM_END + "\n" }

  predicate Occurs(k: Bytes, text: Bytes) { exists i :: 0 <= i <= |text| && MatchesAt(k, text, i) }

  predicate IsFormatted(text: Bytes) { Occurs(IM_START, text) || Occurs(IM_END, text) }

  /** The turns a prompt consists of: the messages, after the default system message if none of them
      is a system message. */
  function Turns(cfg: Config, messages: seq<Message>): seq<Message> {
    if (exists i :: 0 <= i < |messages| && messages[i].role.System?) || cfg.defaultSystem == [] then messages
    else [Message(System, cfg.defaultSystem)] + messages
  }

  function Gather(f: Message -> Bytes, turns: seq<Message>, end: Bytes): Bytes {
    if turns == [] then end else f(turns[0]) + Gather(f, turns[1..], end)
  }

  function Suffix(generate: bool): Bytes { if generate then Header(Assistant) else [] }

  /** The turns, then the generation prompt. */
  function Format(turns: seq<Message>, generate: bool): Bytes { Gather(FormatMessage, turns, Suffix(generate)) }

  function BuildPrompt(cfg: Config, messages: seq<Message>, generate: bool): Bytes {
    if messages != [] && cfg.allowRaw && IsFormatted(messages[0].content) then messages[0].content
    else Format(Turns(cfg, messages), generate)
  }

  // ---------------------------------------------------------------- the inverse

  /** The first end marker. */
  function FindEnd(text: Bytes): (r: Option<nat>)
    ensures r.Some? ==> r.value + |IM_END| <= |text|
  {
    if text == [] then None
    else if Prefixes(IM_END, text) then Some(0)
    else
      match FindEnd(text[1..])
      case None => None
      case Some(i) => Some(i + 1)
  }

  function RoleOf(text: Bytes): Option<Role> {
    if Prefixes(Header(System), text) then Some(System)
    else if Prefixes(Header(User), text) then Some(User)
    else if Prefixes(Header(Assistant), text) then Some(Assistant)
    else if Prefixes(Header(Tool), text) then Some(Tool)
    else None
  }

  /** Reads a prompt back into its turns and whether it ends with the generation prompt. */
  function Parse(text: Bytes): Option<(seq<Message>, bool)>
    decreases |text|
  {
    if text == [] then Some(([], false))
    else
      var role := RoleOf(text);
      if role.None? then None
      else
        var body := text[|Header(role.value)|..];
        var end := FindEnd(body);
        if end.None? then (if body == [] && role.value.Assistant? then Some(([], true)) else None)
        else
          var rest := body[end.value + |IM_END|..];
          if rest == [] || rest[0] != '\n' then None
          else
            var more := Parse(rest[1..]);
            if more.None? then None
            else Some(([Message(role.value, body[..end.value])] + more.value.0, more.value.1))
  }

  // ---------------------------------------------------------------- the end marker

  lemma {:induction false} FindEndMeaning(text: Bytes)
    ensures FindEnd(text).Some? <==> Occurs(IM_END, text)
  {
    if text != [] {
      FindEndMeaning(text[1..]);
      assert text[0..] == text;
      if i :| 0 <= i <= |text| && MatchesAt(IM_END, text, i) {
        assert i > 0 ==> text[1..][i - 1..] == text[i..] && MatchesAt(IM_END, text[1..], i - 1);
        assert i == 0 ==> Prefixes(IM_END, text);
      }
      if Prefixes(IM_END, text) {
        assert MatchesAt(IM_END, text, 0);
      } else if j :| 0 <= j <= |text[1..]| && MatchesAt(IM_END, text[1..], j) {
        assert text[1..][j..] == text[j + 1..] && MatchesAt(IM_END, text, j + 1);
      }
    }
  }

  lemma IsKey()
    ensures IM_END in BUILT_IN && Proper(BUILT_IN)
  {
    BuiltInProper();
  }

  /** What precedes the first end marker contains none. */
  lemma {:induction false} BeforeEnd(text: Bytes, n: nat)
    requires FindEnd(text) == Some(n) || (FindEnd(text).None? && n <= |text|)
    ensures FindEnd(text[..n]).None?
    decreases |text|
  {
    if n > 0 {
      assert text[..n][1..] == text[1..][..n - 1];
      BeforeEnd(text[1..], n - 1);
      if |IM_END| <= n {
        assert text[..n][..|IM_END|] == text[..|IM_END|];
      }
    }
  }

  /** After text without an end marker, the first end marker is the one that follows, since a marker
      cannot overlap another. */
  lemma {:induction false} EndAfter(content: Bytes, rest: Bytes)
    requires FindEnd(content).None?
    ensures FindEnd(content + IM_END + rest) == Some(|content|)
    decreases |content|
  {
    var text := content + IM_END + rest;
    if content == [] {
      assert text[..|IM_END|] == IM_END;
    } else {
      IsKey();
      MatchStaysInFront(BUILT_IN, content, IM_END, rest, IM_END);
      assert text[1..] == content[1..] + IM_END + rest;
      EndAfter(content[1..], rest);
    }
  }

  lemma HeadersDiffer(text: Bytes, role: Role)
    requires Prefixes(Header(role), text)
    ensures RoleOf(text) == Some(role)
  {
    var n := |IM_START|;
    assert n == 12 && text[n] == Header(role)[n] == RoleName(role)[0];
    forall r: Role | Prefixes(Header(r), text) ensures RoleName(r)[0] == text[n] {
      assert text[..|Header(r)|][n] == text[n] && Header(r)[n] == RoleName(r)[0];
    }
  }

  // ---------------------------------------------------------------- regrouping

  lemma Assoc(a: Bytes, b: Bytes, c: Bytes)
    ensures (a + b) + c == a + (b + c)
  {
  }

  lemma Halves(a: Bytes, b: Bytes)
    ensures (a + b)[..|a|] == a && (a + b)[|a|..] == b
  {
  }

  lemma FourAndRest(a: Bytes, b: Bytes, c: Bytes, d: Bytes, rest: Bytes)
    ensures (((a + b) + c) + d) + rest == a + ((b + c) + (d + rest))
  {
  }

  lemma TwoTurns(h: Bytes, x: Bytes, e: Bytes, n: Bytes, g: Bytes, y: Bytes)
    ensures ((h + ((((x + e) + n) + g) + y)) + e) + n == (((h + x) + e) + n) + (((g + y) + e) + n)
  {
  }

  // ---------------------------------------------------------------- round trip

  /** No turn contains the end marker. */
  ghost predicate Clean(turns: seq<Message>) {
    turns == [] || (FindEnd(turns[0].content).None? && Clean(turns[1..]))
  }

  /** A turn and what follows it, as the parser takes them apart. */
  lemma TurnParts(m: Message, rest: Bytes)
    ensures FormatMessage(m) + rest == Header(m.role) + ((m.content + IM_END) + ("\n" + rest))
  {
    FourAndRest(Header(m.role), m.content, IM_END, "\n", rest);
  }

  lemma ThreeParts(a: Bytes, b: Bytes, c: Bytes)
    ensures ((a + b) + c)[..|a|] == a && ((a + b) + c)[|a| + |b|..] == c
  {
  }

  lemma BodyParts(content: Bytes, tail: Bytes)
    requires FindEnd(content).None?
    ensures var body := (content + IM_END) + tail;
      FindEnd(body) == Some(|content|) && body[..|content|] == content && body[|content| + |IM_END|..] == tail
  {
    EndAfter(content, tail);
    ThreeParts(content, IM_END, tail);
  }

  lemma ParseTurn(m: Message, rest: Bytes)
    requires FindEnd(m.content).None?
    ensures var more := Parse(rest);
      Parse(FormatMessage(m) + rest)
      == if more.None? then None else Some(([m] + more.value.0, more.value.1))
  {
    var (text, h, tail) := (FormatMessage(m) + rest, Header(m.role), "\n" + rest);
    var body := (m.content + IM_END) + tail;
    TurnParts(m, rest);
    Halves(h, body);
    HeadersDiffer(text, m.role);
    assert text != [] && text[|h|..] == body;
    BodyParts(m.content, tail);
    assert tail[1..] == rest && tail[0] == '\n';
  }

  lemma ParseSuffix()
    ensures Parse(Header(Assistant)) == Some(([], true))
  {
    var h := Header(Assistant);
    assert h[..|h|] == h;
    HeadersDiffer(h, Assistant);
    assert h[|h|..] == [];
  }

  lemma {:induction false} ParseFormat(turns: seq<Message>, generate: bool)
    requires Clean(turns)
    ensures Parse(Format(turns, generate)) == Some((turns, generate))
  {
    if turns == [] {
      ParseSuffix();
    } else {
      ParseFormat(turns[1..], generate);
      ParseTurn(turns[0], Format(turns[1..], generate));
      assert turns == [turns[0]] + turns[1..];
    }
  }

  /** The parser only returns clean turns. */
  lemma {:induction false} ParsedIsClean(text: Bytes)
    requires Parse(text).Some?
    ensures Clean(Parse(text).value.0)
    decreases |text|
  {
    if text != [] {
      var role := RoleOf(text).value;
      var body := text[|Header(role)|..];
      if FindEnd(body).Some? {
        var n := FindEnd(body).value;
        BeforeEnd(body, n);
        var rest := body[n + |IM_END|..][1..];
        ParsedIsClean(rest);
        var turns := Parse(text).value.0;
        assert turns[1..] == Parse(rest).value.0;
      }
    }
  }

  /** A formatted prompt can be read back, turns and generation prompt alike, if and only if no turn
      contains the end marker. */
  lemma ReadBackIff(turns: seq<Message>, generate: bool)
    ensures Parse(Format(turns, generate)) == Some((turns, generate)) <==> Clean(turns)
  {
    if Clean(turns) {
      ParseFormat(turns, generate);
    }
    if Parse(Format(turns, generate)) == Some((turns, generate)) {
      ParsedIsClean(Format(turns, generate));
    }
  }

  lemma {:induction false} CleanMeaning(turns: seq<Message>)
    ensures Clean(turns) <==> forall i :: 0 <= i < |turns| ==> !Occurs(IM_END, turns[i].content)
  {
    if turns != [] {
      FindEndMeaning(turns[0].content);
      CleanMeaning(turns[1..]);
      assert forall i :: 0 < i < |turns| ==> turns[i] == turns[1..][i - 1];
      assert forall i :: 0 <= i < |turns| - 1 ==> turns[1..][i] == turns[i + 1];
    }
  }

  /** With raw prompts disabled the prompt determines the messages, the default system turn and the
      generation prompt, for all messages whose contents, like the default, contain no end marker. */
  lemma TemplateRoundTrip(cfg: Config, messages: seq<Message>, generate: bool)
    requires !cfg.allowRaw && !Occurs(IM_END, cfg.defaultSystem)
    requires forall i :: 0 <= i < |messages| ==> !Occurs(IM_END, messages[i].content)
    ensures Parse(BuildPrompt(cfg, messages, generate)) == Some((Turns(cfg, messages), generate))
  {
    var turns := Turns(cfg, messages);
    forall i | 0 <= i < |turns| ensures !Occurs(IM_END, turns[i].content) {
      assert |turns| > |messages| ==> i == 0 || turns[i] == messages[i - 1];
    }
    CleanMeaning(turns);
    ParseFormat(turns, generate);
  }

  /** An end marker in a content forges a turn: one message formats like two. */
  lemma EndMarkerForgesTurn(r: Role, q: Role, x: Bytes, y: Bytes, generate: bool)
    ensures Format([Message(r, x + IM_END + "\n" + Header(q) + y)], generate)
         == Format([Message(r, x), Message(q, y)], generate)
  {
    var one := Message(r, x + IM_END + "\n" + Header(q) + y);
    var (a, b) := (Message(r, x), Message(q, y));
    TwoTurns(Header(r), x, IM_END, "\n", Header(q), y);
    GatherOne(FormatMessage, one, Suffix(generate));
    GatherTwo(FormatMessage, a, b, Suffix(generate));
  }

  lemma GatherOne(f: Message -> Bytes, m: Message, end: Bytes)
    ensures Gather(f, [m], end) == f(m) + end
  {
    assert Gather(f, [m][1..], end) == end;
  }

  lemma GatherTwo(f: Message -> Bytes, a: Message, b: Message, end: Bytes)
    ensures Gather(f, [a, b], end) == (f(a) + f(b)) + end
  {
    assert [a, b][1..] == [b];
    GatherOne(f, b, end);
    Assoc(f(a), f(b), end);
  }

  /** The text of a turn, role by role. */
  function TurnText(m: Message): Bytes {
    match m.role
    case System => "<|im_start|>system\n" + m.content + "<|im_end|>\n"
    case User => "<|im_start|>user\n" + m.content + "<|im_end|>\n"
    case Assistant => "<|im_start|>assistant\n" + m.content + "<|im_end|>\n"
    case Tool => "<|im_start|>tool\n" + m.content + "<|im_end|>\n"
  }

  lemma TurnIsText(m: Message)
    ensures FormatMessage(m) == TurnText(m)
  {
    assert Header(System) == "<|im_start|>system\n" && Header(User) == "<|im_start|>user\n";
    assert Header(Assistant) == "<|im_start|>assistant\n" && Header(Tool) == "<|im_start|>tool\n";
    Assoc(Header(m.role) + m.content, IM_END, "\n");
  }

  /** The texts of the turns, one after the other. */
  function TurnTexts(turns: seq<Message>): Bytes {
    if turns == [] then [] else TurnText(turns[0]) + TurnTexts(turns[1..])
  }

  lemma {:induction false} FormatIsText(turns: seq<Message>, generate: bool)
    ensures Format(turns, generate)
      == TurnTexts(turns) + if generate then "<|im_start|>assistant\n" else []
  {
    hide TurnText, FormatMessage;
    if turns != [] {
      TurnIsText(turns[0]);
      FormatIsText(turns[1..], generate);
      Assoc(TurnText(turns[0]), TurnTexts(turns[1..]), if generate then "<|im_start|>assistant\n" else []);
    }
  }

  /** The text holds one of the two markers. */
  ghost predicate Marked(text: Bytes) {
    exists i :: 0 <= i <= |text| && ("<|im_start|>" <= text[i..] || "<|im_end|>" <= text[i..])
  }

  lemma FormattedIsMarked(text: Bytes)
    ensures IsFormatted(text) <==> Marked(text)
  {
    forall i | 0 <= i <= |text|
      ensures (MatchesAt(IM_START, text, i) <==> "<|im_start|>" <= text[i..])
        && (MatchesAt(IM_END, text, i) <==> "<|im_end|>" <= text[i..])
    {
    }
  }

  /** The default system turn, if there is one to add. */
  function DefaultText(cfg: Config, messages: seq<Message>): Bytes {
    if cfg.defaultSystem == [] || exists m :: m in messages && m.role == System then []
    else "<|im_start|>system\n" + cfg.defaultSystem + "<|im_end|>\n"
  }

  lemma TurnsText(cfg: Config, messages: seq<Message>)
    ensures TurnTexts(Turns(cfg, messages)) == DefaultText(cfg, messages) + TurnTexts(messages)
  {
    var turns := Turns(cfg, messages);
    if turns != messages {
      assert turns[1..] == messages;
    }
  }

  /** The whole prompt, written out. The first message alone is the prompt exactly if that is allowed and it
      holds one of the two markers. Otherwise: the default system turn, if there is one and no message is a
      system message; the messages in order; and the opening of the answer, if asked for. */
  lemma PromptText(cfg: Config, messages: seq<Message>, generate: bool)
    ensures BuildPrompt(cfg, messages, generate) ==
      if messages != [] && cfg.allowRaw && Marked(messages[0].content) then messages[0].content
      else DefaultText(cfg, messages) + TurnTexts(messages) + if generate then "<|im_start|>assistant\n" else []
  {
    hide Format, Turns, TurnTexts, DefaultText, IsFormatted, Marked;
    if messages != [] {
      FormattedIsMarked(messages[0].content);
    }
    FormatIsText(Turns(cfg, messages), generate);
    TurnsText(cfg, messages);
  }

  /** The markers of a turn are tokens of their own, whatever its content is; the tokenizer cannot
      merge them with the text around them. */
  lemma TurnTokens(vocab: Vocab, m: Message, rest: Bytes)
    ensures Tokens(BUILT_IN, vocab, FormatMessage(m) + rest)
         == [151644] + Tokens(BUILT_IN, vocab, RoleName(m.role) + "\n" + m.content)
            + [151645] + Tokens(BUILT_IN, vocab, "\n" + rest)
  {
    BuiltInProper();
    var (inner, tail) := (RoleName(m.role) + "\n" + m.content, "\n" + rest);
    TurnParts(m, rest);
    HeadParts(IM_START, RoleName(m.role), "\n", m.content, IM_END, tail);
    SpecialSplits(BUILT_IN, vocab, [], IM_START, inner + IM_END + tail);
    SpecialSplits(BUILT_IN, vocab, inner, IM_END, tail);
    Regroup(151644, Tokens(BUILT_IN, vocab, inner), 151645, Tokens(BUILT_IN, vocab, tail));
  }

  lemma HeadParts(a: Bytes, b: Bytes, c: Bytes, d: Bytes, e: Bytes, rest: Bytes)
    ensures ((a + b) + c) + ((d + e) + rest) == ([] + a) + ((((b + c) + d) + e) + rest)
  {
  }

  // ---------------------------------------------------------------- the loops

  function GatherLeft(f: Message -> Bytes, turns: seq<Message>): Bytes {
    if turns == [] then [] else GatherLeft(f, turns[..|turns| - 1]) + f(turns[|turns| - 1])
  }

  lemma {:induction false} GatherFromLeft(f: Message -> Bytes, done: seq<Message>, turns: seq<Message>, end: Bytes)
    ensures GatherLeft(f, done) + Gather(f, turns, end) == GatherLeft(f, done + turns) + end
    decreases |turns|
  {
    if turns == [] {
      assert done + turns == done;
    } else {
      var next := done + [turns[0]];
      assert next[..|done|] == done;
      GatherFromLeft(f, next, turns[1..], end);
      assert next + turns[1..] == done + turns;
      Assoc(GatherLeft(f, done), f(turns[0]), Gather(f, turns[1..], end));
    }
  }

  method AnySystem(messages: seq<Message>) returns (found: bool)
    ensures found <==> exists i :: 0 <= i < |messages| && messages[i].role.System?
  {
    for i := 0 to |messages|
      invariant forall j :: 0 <= j < i ==> !messages[j].role.System?
    {
      if messages[i].role.System? {
        return true;
      }
    }
    return false;
  }

  /** The default system turn. */
  method DefaultTurn(content: Bytes) returns (turn: Bytes)
    ensures turn == FormatMessage(Message(System, content))
  {
    turn := IM_START + "system\n";
    assert turn == Header(System);
    turn := turn + content;
    turn := turn + IM_END + "\n";
  }

  method AppendMessages(format: Message -> Bytes, prompt: Bytes, ghost lead: seq<Message>, messages: seq<Message>)
      returns (all: Bytes)
    requires prompt == GatherLeft(format, lead)
    ensures all == GatherLeft(format, lead + messages)
  {
    all := prompt;
    assert lead + messages[..0] == lead;
    for i := 0 to |messages|
      invariant all == GatherLeft(format, lead + messages[..i])
    {
      ghost var turns := lead + messages[..i + 1];
      assert turns[..|turns| - 1] == lead + messages[..i];
      all := all + format(messages[i]);
    }
    assert messages[..|messages|] == messages;
  }

  lemma PromptOfTurns(turns: seq<Message>, generate: bool)
    ensures Format(turns, generate) == GatherLeft(FormatMessage, turns) + Suffix(generate)
  {
    GatherFromLeft(FormatMessage, [], turns, Suffix(generate));
    assert [] + turns == turns;
  }

  lemma OneTurn(m: Message)
    ensures GatherLeft(FormatMessage, [m]) == FormatMessage(m)
  {
    assert GatherLeft(FormatMessage, [m][..0]) == [];
  }

  method BuildFormattedPrompt(cfg: Config, messages: seq<Message>, generate: bool) returns (prompt: Bytes)
    ensures prompt == BuildPrompt(cfg, messages, generate)
  {
    if messages != [] && cfg.allowRaw && IsFormatted(messages[0].content) {
      return messages[0].content;
    }
    prompt := [];
    var hasSystem := AnySystem(messages);
    ghost var lead: seq<Message> := [];
    if !hasSystem && cfg.defaultSystem != [] {
      prompt := DefaultTurn(cfg.defaultSystem);
      lead := [Message(System, cfg.defaultSystem)];
      OneTurn(lead[0]);
    }
    prompt := AppendMessages(FormatMessage, prompt, lead, messages);
    assert lead + messages == Turns(cfg, messages);
    PromptOfTurns(lead + messages, generate);
    if generate {
      prompt := prompt + Header(Assistant);
    }
  }
}
