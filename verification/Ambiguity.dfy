/** When two lists of turns give the same prompt (src/tokenizer/prompt_builder.cpp:71-134): exactly when
    splitting their contents at every end marker that is followed by a line break and the header of a turn
    gives the same list. */
module Ambiguity {
  import opened Wrappers
  import opened Text
  import opened Tokenizer
  import opened PromptTemplate

  /** What stands between two contents. */
  function Seam(role: Role): Bytes { IM_END + "\n" + Header(role) }

  lemma SeamShape(role: Role)
    ensures |IM_END| == 10 && |IM_START| == 12 && |Header(role)| >= 17 && |Seam(role)| == 11 + |Header(role)|
    ensures Seam(role)[0] == '<' && Seam(role)[11] == '<' && Seam(role)[16] == 's'
    ensures forall j :: 0 < j < 11 ==> Seam(role)[j] != '<'
    ensures forall j :: 11 < j < |Seam(role)| ==> Seam(role)[j] != '<'
  {
    assert forall j :: 0 < j < |RoleName(role)| ==> RoleName(role)[j] != '<';
  }

  function SeamAt(text: Bytes): Option<Role> {
    if Prefixes(Seam(System), text) then Some(System)
    else if Prefixes(Seam(User), text) then Some(User)
    else if Prefixes(Seam(Assistant), text) then Some(Assistant)
    else if Prefixes(Seam(Tool), text) then Some(Tool)
    else None
  }

  lemma SeamIsThere(text: Bytes)
    ensures SeamAt(text).Some? ==> Prefixes(Seam(SeamAt(text).value), text)
    ensures SeamAt(text).None? ==> forall r :: !Prefixes(Seam(r), text)
  {
    forall r | SeamAt(text).None? ensures !Prefixes(Seam(r), text) {
      match r
      case System =>
      case User =>
      case Assistant =>
      case Tool =>
    }
  }

  /** The first seam, and the role it opens. */
  function FindSeam(text: Bytes): Option<(nat, Role)> {
    if text == [] then None
    else if SeamAt(text).Some? then Some((0, SeamAt(text).value))
    else
      match FindSeam(text[1..])
      case None => None
      case Some((i, r)) => Some((i + 1, r))
  }

  lemma {:induction false} FindSeamMeaning(text: Bytes)
    ensures FindSeam(text).Some? ==>
      var (i, r) := FindSeam(text).value;
      i + |Seam(r)| <= |text| && text[i..i + |Seam(r)|] == Seam(r) && FindSeam(text[..i]).None?
    ensures FindSeam(text).None? ==> forall i, r :: 0 <= i <= |text| ==> !Prefixes(Seam(r), text[i..])
  {
    if text == [] {
      SeamsAreLong();
    } else {
      SeamIsThere(text);
      FindSeamMeaning(text[1..]);
      assert text[0..] == text;
      if SeamAt(text).None? {
        if FindSeam(text).Some? {
          var (i, r) := FindSeam(text[1..]).value;
          SeamLater(text, i, r);
        } else {
          forall i, r | 0 <= i <= |text| ensures !Prefixes(Seam(r), text[i..]) {
            assert i > 0 ==> text[i..] == text[1..][i - 1..];
          }
        }
      }
    }
  }

  lemma SeamsAreLong()
    ensures forall r: Role :: |Seam(r)| > 0
  {
  }

  lemma SeamLater(text: Bytes, i: nat, r: Role)
    requires text != [] && SeamAt(text).None? && i + |Seam(r)| <= |text[1..]|
    requires text[1..][i..i + |Seam(r)|] == Seam(r) && FindSeam(text[1..][..i]).None?
    ensures text[i + 1..i + 1 + |Seam(r)|] == Seam(r) && FindSeam(text[..i + 1]).None?
  {
    assert text[..i + 1][1..] == text[1..][..i];
    assert text[i + 1..i + 1 + |Seam(r)|] == text[1..][i..i + |Seam(r)|];
    PrefixExtends(Seam(System), text, i + 1);
    PrefixExtends(Seam(User), text, i + 1);
    PrefixExtends(Seam(Assistant), text, i + 1);
    PrefixExtends(Seam(Tool), text, i + 1);
  }

  lemma PrefixExtends(k: Bytes, text: Bytes, n: nat)
    requires n <= |text|
    ensures Prefixes(k, text[..n]) ==> Prefixes(k, text)
  {
    if |k| <= n {
      assert text[..n][..|k|] == text[..|k|];
    }
  }

  // ---------------------------------------------------------------- splitting contents

  /** The message up to the first seam, and the one that the seam opens. */
  function First(m: Message): Message
    requires FindSeam(m.content).Some?
  {
    FindSeamMeaning(m.content);
    Message(m.role, m.content[..FindSeam(m.content).value.0])
  }

  function Rest(m: Message): Message
    requires FindSeam(m.content).Some?
  {
    FindSeamMeaning(m.content);
    var (i, r) := FindSeam(m.content).value;
    Message(r, m.content[i + |Seam(r)|..])
  }

  lemma Parts(m: Message)
    requires FindSeam(m.content).Some?
    ensures FindSeam(First(m).content).None? && |Rest(m).content| < |m.content|
    ensures m.content == (First(m).content + Seam(Rest(m).role)) + Rest(m).content && First(m).role == m.role
  {
    FindSeamMeaning(m.content);
    var (i, r) := FindSeam(m.content).value;
    SeamShape(r);
    CutAt(m.content, i, |Seam(r)|);
  }

  /** A message split at every seam in its content. */
  function Explode(m: Message): seq<Message>
    decreases |m.content|
  {
    if FindSeam(m.content).None? then [m] else Parts(m); [First(m)] + Explode(Rest(m))
  }

  function ExplodeAll(turns: seq<Message>): seq<Message> {
    if turns == [] then [] else Explode(turns[0]) + ExplodeAll(turns[1..])
  }

  ghost predicate Seamless(turns: seq<Message>) {
    turns == [] || (FindSeam(turns[0].content).None? && Seamless(turns[1..]))
  }

  lemma {:induction false} SeamlessAppend(a: seq<Message>, b: seq<Message>)
    requires Seamless(a) && Seamless(b)
    ensures Seamless(a + b)
  {
    if a == [] {
      assert a + b == b;
    } else {
      assert (a + b)[1..] == a[1..] + b;
      SeamlessAppend(a[1..], b);
    }
  }

  lemma SeamlessOne(m: Message)
    requires FindSeam(m.content).None?
    ensures Seamless([m])
  {
    assert Seamless([m][1..]);
  }

  lemma SeamlessCons(m: Message, turns: seq<Message>)
    requires FindSeam(m.content).None? && Seamless(turns)
    ensures Seamless([m] + turns)
  {
    assert ([m] + turns)[1..] == turns;
  }

  lemma {:induction false} ExplodeSeamless(m: Message)
    ensures Seamless(Explode(m))
    decreases |m.content|
  {
    if FindSeam(m.content).None? {
      SeamlessOne(m);
    } else {
      Parts(m);
      ExplodeSeamless(Rest(m));
      SeamlessCons(First(m), Explode(Rest(m)));
    }
  }

  lemma {:induction false} ExplodeAllSeamless(turns: seq<Message>)
    ensures Seamless(ExplodeAll(turns))
  {
    if turns != [] {
      ExplodeSeamless(turns[0]);
      ExplodeAllSeamless(turns[1..]);
      SeamlessAppend(Explode(turns[0]), ExplodeAll(turns[1..]));
    }
  }

  lemma {:induction false} GatherAppend(f: Message -> Bytes, a: seq<Message>, b: seq<Message>, end: Bytes)
    ensures Gather(f, a + b, end) == Gather(f, a, Gather(f, b, end))
  {
    if a == [] {
      assert a + b == b;
    } else {
      assert (a + b)[1..] == a[1..] + b;
      GatherAppend(f, a[1..], b, end);
    }
  }

  /** A content with a seam formats like two messages. */
  lemma SeamSplits(role: Role, x: Bytes, r: Role, y: Bytes)
    ensures FormatMessage(Message(role, (x + Seam(r)) + y))
      == FormatMessage(Message(role, x)) + FormatMessage(Message(r, y))
  {
    TwoTurns(Header(role), x, IM_END, "\n", Header(r), y);
    SeamInside(x, IM_END, "\n", Header(r), y);
  }

  lemma SeamInside(x: Bytes, e: Bytes, n: Bytes, h: Bytes, y: Bytes)
    ensures (x + ((e + n) + h)) + y == (((x + e) + n) + h) + y
  {
  }

  lemma CutAt(c: Bytes, i: nat, n: nat)
    requires i + n <= |c|
    ensures c == (c[..i] + c[i..i + n]) + c[i + n..]
  {
  }

  lemma {:induction false} ExplodeFormats(m: Message, end: Bytes)
    ensures Gather(FormatMessage, Explode(m), end) == FormatMessage(m) + end
    decreases |m.content|
  {
    if FindSeam(m.content).None? {
      GatherOne(FormatMessage, m, end);
    } else {
      Parts(m);
      var (first, rest) := (First(m), Rest(m));
      ExplodeFormats(rest, end);
      GatherAppend(FormatMessage, [first], Explode(rest), end);
      GatherOne(FormatMessage, first, Gather(FormatMessage, Explode(rest), end));
      SeamSplits(m.role, first.content, rest.role, rest.content);
      Assoc(FormatMessage(first), FormatMessage(rest), end);
    }
  }

  lemma {:induction false} ExplodeAllFormats(turns: seq<Message>, generate: bool)
    ensures Format(ExplodeAll(turns), generate) == Format(turns, generate)
  {
    if turns != [] {
      ExplodeAllFormats(turns[1..], generate);
      GatherAppend(FormatMessage, Explode(turns[0]), ExplodeAll(turns[1..]), Suffix(generate));
      ExplodeFormats(turns[0], Format(turns[1..], generate));
    }
  }

  // ---------------------------------------------------------------- seamless lists are determined

  /** A prompt is empty or begins with a header. */
  lemma FormatBegins(turns: seq<Message>, generate: bool)
    ensures Format(turns, generate) == [] || exists r :: Prefixes(Header(r), Format(turns, generate))
    ensures turns != [] ==> |Format(turns, generate)| >= 28
    ensures turns == [] ==> |Format(turns, generate)| <= 22
  {
    if turns != [] {
      var m := turns[0];
      var rest := Format(turns[1..], generate);
      TurnParts(m, rest);
      SeamShape(m.role);
      Halves(Header(m.role), (m.content + IM_END) + ("\n" + rest));
      assert Prefixes(Header(m.role), Format(turns, generate));
    } else if generate {
      assert Header(Assistant)[..|Header(Assistant)|] == Header(Assistant);
      assert Prefixes(Header(Assistant), Format(turns, generate));
    }
  }

  /** No content without a seam reaches past another content that the same text has in its place. */
  lemma NoLonger(body: Bytes, x: Bytes, rx: Bytes, y: Bytes, ry: Bytes)
    requires body == (x + IM_END) + ("\n" + rx) && body == (y + IM_END) + ("\n" + ry)
    requires FindSeam(y).None? && (rx == [] || exists r :: Prefixes(Header(r), rx))
    ensures |y| <= |x|
  {
    assert |body| == |x| + |IM_END| + 1 + |rx| && |body| == |y| + |IM_END| + 1 + |ry|;
    if rx != [] {
      var r :| Prefixes(Header(r), rx);
      SeamInBody(body, x, rx, r);
      if |x| < |y| {
        SeamCannotCross(body, y, ry, |x|, r);
        assert false;
      }
    }
  }

  lemma SeamInBody(body: Bytes, x: Bytes, rx: Bytes, r: Role)
    requires body == (x + IM_END) + ("\n" + rx) && Prefixes(Header(r), rx)
    ensures |x| + |Seam(r)| <= |body| && body[|x|..|x| + |Seam(r)|] == Seam(r)
  {
    var rest := rx[|Header(r)|..];
    assert rx == Header(r) + rest;
    SeamInside2(x, IM_END, "\n", Header(r), rest);
    ThreeParts(x, Seam(r), rest);
    assert body[|x|..|x| + |Seam(r)|] == Seam(r);
  }

  lemma SeamInside2(x: Bytes, e: Bytes, n: Bytes, h: Bytes, rest: Bytes)
    ensures (x + e) + (n + (h + rest)) == (x + ((e + n) + h)) + rest
  {
  }

  lemma NotInside(y: Bytes, i: nat, r: Role)
    requires FindSeam(y).None? && i <= |y|
    ensures !Prefixes(Seam(r), y[i..])
  {
    FindSeamMeaning(y);
  }

  lemma NotWithin(body: Bytes, y: Bytes, z: Bytes, i: nat, k: Bytes)
    requires body == y + z && i + |k| <= |y| && !Prefixes(k, y[i..])
    ensures body[i..i + |k|] != k
  {
    InsideFirst(body, y, z, i, |k|);
  }

  lemma SeamNotAcross(body: Bytes, y: Bytes, ry: Bytes, i: nat, r: Role)
    requires body == (y + IM_END) + ("\n" + ry) && i < |y| < i + |Seam(r)| <= |body|
    ensures body[i..i + |Seam(r)|] != Seam(r)
  {
    SeamShape(r);
    BodyAfter(body, y, ry);
    Crosses(body, |y|, i, Seam(r));
  }

  /** A seam does not begin in a seamless content and end after it. */
  lemma SeamCannotCross(body: Bytes, y: Bytes, ry: Bytes, i: nat, r: Role)
    requires body == (y + IM_END) + ("\n" + ry) && FindSeam(y).None? && i < |y| && i + |Seam(r)| <= |body|
    ensures body[i..i + |Seam(r)|] != Seam(r)
  {
    if i + |Seam(r)| <= |y| {
      NotInside(y, i, r);
      Assoc(y, IM_END, "\n" + ry);
      NotWithin(body, y, IM_END + ("\n" + ry), i, Seam(r));
    } else {
      SeamNotAcross(body, y, ry, i, r);
    }
  }

  lemma InsideFirst(body: Bytes, y: Bytes, z: Bytes, i: nat, n: nat)
    requires i + n <= |y|
    ensures (y + z)[i..i + n] == y[i..][..n]
  {
  }

  /** A string whose only `<` are at 0 and 11, and with an `s` at 16, does not match across a place where
      the text has a `<` and an `e` five bytes later. */
  lemma Crosses(body: Bytes, at: nat, i: nat, k: Bytes)
    requires i < at < i + |k| <= |body| && at + 5 < |body| && body[at] == '<' && body[at + 5] == 'e'
    requires |k| > 16 && k[16] == 's' && (forall j :: 0 < j < 11 ==> k[j] != '<')
    requires forall j :: 11 < j < |k| ==> k[j] != '<'
    ensures body[i..i + |k|] != k
  {
    assert body[i..i + |k|][at - i] == '<';
    if at - i == 11 {
      assert body[i..i + |k|][16] == 'e';
    }
  }

  lemma BodyAfter(body: Bytes, y: Bytes, ry: Bytes)
    requires body == (y + IM_END) + ("\n" + ry)
    ensures |y| + 10 < |body| && body[|y|] == '<' && body[|y| + 5] == 'e'
  {
    assert body[|y|] == IM_END[0] && body[|y| + 5] == IM_END[5];
  }

  lemma SameBodies(x: Bytes, rx: Bytes, y: Bytes, ry: Bytes)
    requires (x + IM_END) + ("\n" + rx) == (y + IM_END) + ("\n" + ry) && |x| == |y|
    ensures x == y && rx == ry
  {
    ThreeParts(x, IM_END, "\n" + rx);
    ThreeParts(y, IM_END, "\n" + ry);
    assert ("\n" + rx)[1..] == rx && ("\n" + ry)[1..] == ry;
  }

  /** The first turns of two lists that format alike. */
  lemma SameFirst(m: Message, rm: Bytes, n: Message, rn: Bytes)
    requires FormatMessage(m) + rm == FormatMessage(n) + rn
    requires FindSeam(m.content).None? && FindSeam(n.content).None?
    requires rm == [] || exists r :: Prefixes(Header(r), rm)
    requires rn == [] || exists r :: Prefixes(Header(r), rn)
    ensures m == n && rm == rn
  {
    var text := FormatMessage(m) + rm;
    TurnParts(m, rm);
    TurnParts(n, rn);
    var (bm, bn) := ((m.content + IM_END) + ("\n" + rm), (n.content + IM_END) + ("\n" + rn));
    Halves(Header(m.role), bm);
    Halves(Header(n.role), bn);
    HeadersDiffer(text, m.role);
    HeadersDiffer(text, n.role);
    assert bm == bn;
    NoLonger(bm, m.content, rm, n.content, rn);
    NoLonger(bm, n.content, rn, m.content, rm);
    SameBodies(m.content, rm, n.content, rn);
  }

  lemma {:induction false} SeamlessDetermined(a: seq<Message>, g: bool, b: seq<Message>, h: bool)
    requires Seamless(a) && Seamless(b) && Format(a, g) == Format(b, h)
    ensures a == b && g == h
  {
    FormatBegins(a, g);
    FormatBegins(b, h);
    if a != [] && b != [] {
      FormatBegins(a[1..], g);
      FormatBegins(b[1..], h);
      SameFirst(a[0], Format(a[1..], g), b[0], Format(b[1..], h));
      SeamlessDetermined(a[1..], g, b[1..], h);
      assert a == [a[0]] + a[1..] && b == [b[0]] + b[1..];
    }
  }

  /** Two lists of turns give the same prompt if and only if they are the same once every content is split
      at its seams, and both or neither ask for generation. */
  lemma FormatAlikeIff(a: seq<Message>, g: bool, b: seq<Message>, h: bool)
    ensures Format(a, g) == Format(b, h) <==> ExplodeAll(a) == ExplodeAll(b) && g == h
  {
    ExplodeAllFormats(a, g);
    ExplodeAllFormats(b, h);
    ExplodeAllSeamless(a);
    ExplodeAllSeamless(b);
    if Format(a, g) == Format(b, h) {
      SeamlessDetermined(ExplodeAll(a), g, ExplodeAll(b), h);
    }
  }
}
