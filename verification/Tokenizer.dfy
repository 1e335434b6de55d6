/** Splitting text at special tokens (src/tokenizer/tokenizer.cpp:180-265). */
module Tokenizer {
  import opened Wrappers
  import opened Text

  type Vocab = map<Bytes, int>

  const IM_START: Bytes := "<|im_start|>"
  const IM_END: Bytes := "<|im_end|>"
  const END_OF_TEXT: Bytes := "<|endoftext|>"

  const BUILT_IN: Vocab := map[IM_START := 151644, IM_END := 151645, END_OF_TEXT := 151643]

  predicate Prefixes(k: Bytes, text: Bytes) { |k| <= |text| && text[..|k|] == k }

  /** `text.compare(pos, k.length(), k) == 0` */
  predicate MatchesAt(k: Bytes, text: Bytes, pos: nat)
    requires pos <= |text|
  {
    Prefixes(k, text[pos..])
  }

  ghost predicate Matches(sp: Vocab, text: Bytes, k: Bytes) { k in sp && Prefixes(k, text) }

  /** A special string begins with `<`, has no other `<`, and begins no other special string. */
  ghost predicate KeyOk(sp: Vocab, k: Bytes) {
    k in sp ==>
      && k != [] && k[0] == '<' && '<' !in k[1..]
      && forall l :: l in sp && Prefixes(k, l) ==> l == k
  }

  ghost predicate Proper(sp: Vocab) {
    forall k {:trigger KeyOk(sp, k)} :: KeyOk(sp, k)
  }

  /** `tokenize_chunk` on one byte. */
  function ByteId(vocab: Vocab, c: Byte): int {
    if [c] in vocab then vocab[[c]] else c as int
  }

  /** Byte by byte: a special string where there is one, the byte where there is none. */
  ghost function Tokens(sp: Vocab, vocab: Vocab, text: Bytes): seq<int>
    decreases |text|
  {
    if text == [] then []
    else if k :| Matches(sp, text, k) && k != [] then [sp[k]] + Tokens(sp, vocab, text[|k|..])
    else [ByteId(vocab, text[0])] + Tokens(sp, vocab, text[1..])
  }

  lemma ShorterMatch(sp: Vocab, text: Bytes, k: Bytes, l: Bytes)
    requires KeyOk(sp, k) && Matches(sp, text, k) && Matches(sp, text, l) && |k| <= |l|
    ensures k == l
  {
    assert l[..|k|] == text[..|l|][..|k|] == text[..|k|];
  }

  /** At most one special string matches, so the order in which the map lists them is irrelevant. */
  lemma OneMatch(sp: Vocab, text: Bytes, k: Bytes, l: Bytes)
    requires Proper(sp) && Matches(sp, text, k) && Matches(sp, text, l)
    ensures k == l
  {
    assert KeyOk(sp, k) && KeyOk(sp, l);
    if |k| <= |l| {
      ShorterMatch(sp, text, k, l);
    } else {
      ShorterMatch(sp, text, l, k);
    }
  }

  lemma TokensMatch(sp: Vocab, vocab: Vocab, text: Bytes, k: Bytes)
    requires Proper(sp) && Matches(sp, text, k)
    ensures k != [] && Tokens(sp, vocab, text) == [sp[k]] + Tokens(sp, vocab, text[|k|..])
  {
    assert KeyOk(sp, k);
    var l :| Matches(sp, text, l) && l != [] && Tokens(sp, vocab, text) == [sp[l]] + Tokens(sp, vocab, text[|l|..]);
    OneMatch(sp, text, k, l);
  }

  ghost predicate NoMatch(sp: Vocab, text: Bytes) { forall k :: k in sp ==> !Prefixes(k, text) }

  lemma TokensByte(sp: Vocab, vocab: Vocab, text: Bytes)
    requires text != [] && NoMatch(sp, text)
    ensures Tokens(sp, vocab, text) == [ByteId(vocab, text[0])] + Tokens(sp, vocab, text[1..])
  {
  }

  function ByteIds(vocab: Vocab, chunk: Bytes): (ids: seq<int>)
    ensures |ids| == |chunk| && forall i :: 0 <= i < |ids| ==> ids[i] == ByteId(vocab, chunk[i])
  {
    seq(|chunk|, i requires 0 <= i < |chunk| => ByteId(vocab, chunk[i]))
  }

  lemma ByteIdsTail(vocab: Vocab, chunk: Bytes)
    requires chunk != []
    ensures ByteIds(vocab, chunk) == [ByteId(vocab, chunk[0])] + ByteIds(vocab, chunk[1..])
  {
  }

  lemma Joined(a: seq<int>, b: seq<int>, c: seq<int>)
    ensures a + (b + c) == (a + b) + c
  {
  }

  lemma NoTokens(sp: Vocab, vocab: Vocab)
    ensures Tokens(sp, vocab, []) == []
  {
  }

  /** Text without a special string is a chunk of bytes. */
  lemma {:induction false} ChunkTokens(sp: Vocab, vocab: Vocab, text: Bytes, pos: nat, end: nat)
    requires pos <= end <= |text| && forall i :: pos <= i < end ==> NoMatch(sp, text[i..])
    ensures Tokens(sp, vocab, text[pos..]) == ByteIds(vocab, text[pos..end]) + Tokens(sp, vocab, text[end..])
    decreases end - pos
  {
    hide Tokens, ByteIds, ByteId, NoMatch;
    if pos < end {
      var (rest, chunk) := (text[pos..], text[pos..end]);
      assert rest[1..] == text[pos + 1..] && chunk[1..] == text[pos + 1..end];
      TokensByte(sp, vocab, rest);
      ByteIdsTail(vocab, chunk);
      ChunkTokens(sp, vocab, text, pos + 1, end);
      Joined([ByteId(vocab, rest[0])], ByteIds(vocab, chunk[1..]), Tokens(sp, vocab, text[end..]));
    }
  }

  // ---------------------------------------------------------------- a special token splits the text

  /** A special string that begins in front of another ends there at the latest. */
  lemma MatchStaysInFront(sp: Vocab, a: Bytes, s: Bytes, b: Bytes, k: Bytes)
    requires Proper(sp) && s in sp && k in sp && a != []
    ensures Prefixes(k, a + s + b) <==> Prefixes(k, a)
  {
    var text := a + s + b;
    assert KeyOk(sp, k) && KeyOk(sp, s);
    assert text[|a|] == s[0];
    if |k| > |a| {
      assert k[|a|] == k[1..][|a| - 1];
      assert |k| <= |text| ==> text[..|k|][|a|] == text[|a|];
    } else {
      assert text[..|k|] == a[..|k|];
    }
  }

  ghost predicate SplitsAt(sp: Vocab, vocab: Vocab, a: Bytes, s: Bytes, b: Bytes)
    requires s in sp
  {
    Tokens(sp, vocab, a + s + b) == Tokens(sp, vocab, a) + [sp[s]] + Tokens(sp, vocab, b)
  }

  lemma SplitPastMatch(sp: Vocab, vocab: Vocab, a: Bytes, s: Bytes, b: Bytes, k: Bytes)
    requires Proper(sp) && s in sp && a != [] && Matches(sp, a, k) && SplitsAt(sp, vocab, a[|k|..], s, b)
    ensures SplitsAt(sp, vocab, a, s, b)
  {
    var text := a + s + b;
    MatchStaysInFront(sp, a, s, b, k);
    TokensMatch(sp, vocab, a, k);
    TokensMatch(sp, vocab, text, k);
    assert text[|k|..] == a[|k|..] + s + b;
  }

  lemma NoMatchInFront(sp: Vocab, a: Bytes, s: Bytes, b: Bytes)
    requires Proper(sp) && s in sp && a != [] && NoMatch(sp, a)
    ensures NoMatch(sp, a + s + b)
  {
    forall k | k in sp ensures !Prefixes(k, a + s + b) {
      MatchStaysInFront(sp, a, s, b, k);
    }
  }

  lemma Regroup(x: int, a: seq<int>, y: int, b: seq<int>)
    ensures [x] + (a + [y] + b) == ([x] + a) + [y] + b
  {
  }

  lemma SplitPastByte(sp: Vocab, vocab: Vocab, a: Bytes, s: Bytes, b: Bytes)
    requires s in sp && a != [] && NoMatch(sp, a) && NoMatch(sp, a + s + b) && SplitsAt(sp, vocab, a[1..], s, b)
    ensures SplitsAt(sp, vocab, a, s, b)
  {
    var text := a + s + b;
    TokensByte(sp, vocab, a);
    TokensByte(sp, vocab, text);
    assert text[1..] == a[1..] + s + b && text[0] == a[0];
    Regroup(ByteId(vocab, a[0]), Tokens(sp, vocab, a[1..]), sp[s], Tokens(sp, vocab, b));
  }

  /** Tokenizing is compatible with concatenation at every special string. */
  lemma {:induction false} SpecialSplits(sp: Vocab, vocab: Vocab, a: Bytes, s: Bytes, b: Bytes)
    requires Proper(sp) && s in sp
    ensures Tokens(sp, vocab, a + s + b) == Tokens(sp, vocab, a) + [sp[s]] + Tokens(sp, vocab, b)
    decreases |a|
  {
    if a == [] {
      var text := a + s + b;
      assert text[..|s|] == s && text[|s|..] == b;
      TokensMatch(sp, vocab, text, s);
    } else if NoMatch(sp, a) {
      SpecialSplits(sp, vocab, a[1..], s, b);
      NoMatchInFront(sp, a, s, b);
      SplitPastByte(sp, vocab, a, s, b);
    } else {
      var k :| k in sp && Prefixes(k, a);
      assert KeyOk(sp, k);
      SpecialSplits(sp, vocab, a[|k|..], s, b);
      SplitPastMatch(sp, vocab, a, s, b, k);
    }
  }

  // ---------------------------------------------------------------- the built-in vocabulary

  lemma Differ(k: Bytes, l: Bytes, i: nat)
    requires i < |k| && i < |l| && k[i] != l[i]
    ensures !Prefixes(k, l) && !Prefixes(l, k)
  {
    assert |k| <= |l| ==> l[..|k|][i] == l[i];
    assert |l| <= |k| ==> k[..|l|][i] == k[i];
  }

  lemma BuiltInProper()
    ensures Proper(BUILT_IN)
  {
    Differ(IM_START, IM_END, 5);
    Differ(IM_START, END_OF_TEXT, 2);
    Differ(IM_END, END_OF_TEXT, 2);
    forall k ensures KeyOk(BUILT_IN, k) {
    }
  }

  /** No single byte is a key, so that every byte is its own id. */
  ghost predicate Bytewise(vocab: Vocab) { forall k :: k in vocab ==> |k| != 1 }

  /** The bytes that an id stands for. */
  function Spelling(id: int): Bytes {
    if 0 <= id < 256 then [id as char]
    else if id == 151644 then IM_START
    else if id == 151645 then IM_END
    else if id == 151643 then END_OF_TEXT
    else []
  }

  function Spell(ids: seq<int>): Bytes {
    if ids == [] then [] else Spelling(ids[0]) + Spell(ids[1..])
  }

  lemma SpellMore(id: int, ids: seq<int>)
    ensures Spell([id] + ids) == Spelling(id) + Spell(ids)
  {
    assert ([id] + ids)[1..] == ids;
  }

  lemma KeySpelled(k: Bytes)
    requires k in BUILT_IN
    ensures Spelling(BUILT_IN[k]) == k
  {
  }

  /** With the built-in vocabulary the ids of a text spell the text. */
  lemma {:induction false} IdsSpellText(vocab: Vocab, text: Bytes)
    requires Bytewise(vocab)
    ensures Spell(Tokens(BUILT_IN, vocab, text)) == text
    decreases |text|
  {
    BuiltInProper();
    SpellsWith(BUILT_IN, vocab, text);
  }

  lemma {:induction false} SpellsWith(sp: Vocab, vocab: Vocab, text: Bytes)
    requires sp == BUILT_IN && Proper(sp) && Bytewise(vocab)
    ensures Spell(Tokens(sp, vocab, text)) == text
    decreases |text|
  {
    if text != [] {
      if NoMatch(sp, text) {
        TokensByte(sp, vocab, text);
        SpellsWith(sp, vocab, text[1..]);
        SpellMore(text[0] as int, Tokens(sp, vocab, text[1..]));
        assert text == [text[0]] + text[1..];
      } else {
        var k :| k in sp && Prefixes(k, text);
        TokensMatch(sp, vocab, text, k);
        SpellsWith(sp, vocab, text[|k|..]);
        SpellMore(sp[k], Tokens(sp, vocab, text[|k|..]));
        KeySpelled(k);
        assert text == k + text[|k|..];
      }
    }
  }

  /** So no two texts have the same ids. */
  lemma IdsDetermineText(vocab: Vocab, a: Bytes, b: Bytes)
    requires Bytewise(vocab) && Tokens(BUILT_IN, vocab, a) == Tokens(BUILT_IN, vocab, b)
    ensures a == b
  {
    IdsSpellText(vocab, a);
    IdsSpellText(vocab, b);
  }

  // ---------------------------------------------------------------- the loops

  /** `text.find(k, pos)`, or the length of the text when there is none. */
  method Find(text: Bytes, k: Bytes, pos: nat) returns (at: nat)
    requires pos <= |text|
    ensures pos <= at <= |text|
    ensures forall i :: pos <= i < at ==> !MatchesAt(k, text, i)
    ensures at < |text| ==> MatchesAt(k, text, at)
  {
    at := pos;
    while at < |text|
      invariant pos <= at <= |text|
      invariant forall i :: pos <= i < at ==> !MatchesAt(k, text, i)
    {
      if MatchesAt(k, text, at) {
        return;
      }
      at := at + 1;
    }
  }

  method TokenizeChunk(vocab: Vocab, chunk: Bytes) returns (ids: seq<int>)
    ensures ids == ByteIds(vocab, chunk) && |ids| == |chunk|
    ensures forall i :: 0 <= i < |chunk| ==>
      ids[i] == if [chunk[i]] in vocab then vocab[[chunk[i]]] else chunk[i] as int
  {
    ids := [];
    for i := 0 to |chunk|
      invariant |ids| == i && forall j :: 0 <= j < i ==> ids[j] == ByteId(vocab, chunk[j])
    {
      ids := ids + [if [chunk[i]] in vocab then vocab[[chunk[i]]] else chunk[i] as int];
    }
  }

  class Tokenizer {
    var vocab: Vocab
    var specials: Vocab

    /** `setup_minimal_vocab`, then the map that `register_special_tokens` fills. */
    constructor ()
      ensures Bytewise(vocab) && specials == BUILT_IN
    {
      vocab := map[END_OF_TEXT := 151643, IM_START := 151644, IM_END := 151645];
      specials := map[];
      new;
      for i := 0 to 256
        invariant Bytewise(vocab) && specials == map[]
      {
        vocab := vocab[[0xC4 as char, 0xA0 as char, i as char] := i];
      }
      specials := specials[IM_START := 151644];
      specials := specials[IM_END := 151645];
      specials := specials[END_OF_TEXT := 151643];
    }

    /** The special string at `pos`, in whatever order the map lists them. */
    method SpecialAt(order: seq<Bytes>, text: Bytes, pos: nat) returns (k: Option<Bytes>)
      requires pos <= |text| && forall k :: k in order <==> k in specials
      ensures k.Some? ==> Matches(specials, text[pos..], k.value)
      ensures k.None? ==> NoMatch(specials, text[pos..])
    {
      for i := 0 to |order|
        invariant forall j :: 0 <= j < i ==> !Prefixes(order[j], text[pos..])
      {
        if MatchesAt(order[i], text, pos) {
          assert order[i] in order;
          return Some(order[i]);
        }
      }
      return None;
    }

    /** Where the chunk that begins at `pos` ends: at the next special string, or at the end. */
    method ChunkEnd(order: seq<Bytes>, text: Bytes, pos: nat) returns (end: nat)
      requires pos < |text| && (forall k :: k in order <==> k in specials) && NoMatch(specials, text[pos..])
      ensures pos < end <= |text|
      ensures forall i :: pos <= i < end ==> NoMatch(specials, text[i..])
    {
      end := |text|;
      for i := 0 to |order|
        invariant pos < end <= |text|
        invariant forall j, n :: 0 <= j < i && pos <= n < end ==> !MatchesAt(order[j], text, n)
      {
        assert order[i] in order;
        var at := Find(text, order[i], pos);
        if at < end {
          end := at;
        }
      }
      forall n | pos <= n < end ensures NoMatch(specials, text[n..]) {
        forall k | k in specials ensures !Prefixes(k, text[n..]) {
          var j :| 0 <= j < |order| && order[j] == k;
          assert !MatchesAt(order[j], text, n);
        }
      }
    }

    /** `tokenize`: chunk by chunk, which comes to the same as byte by byte. */
    method Tokenize(order: seq<Bytes>, text: Bytes) returns (result: seq<int>)
      requires Proper(specials) && forall k :: k in order <==> k in specials
      ensures result == Tokens(specials, vocab, text)
    {
      hide Tokens, Proper, NoMatch, ByteIds;
      result := [];
      var pos := 0;
      assert text[0..] == text;
      while pos < |text|
        invariant pos <= |text|
        invariant result + Tokens(specials, vocab, text[pos..]) == Tokens(specials, vocab, text)
      {
        var special := SpecialAt(order, text, pos);
        if special.Some? {
          var k := special.value;
          TokensMatch(specials, vocab, text[pos..], k);
          assert text[pos..][|k|..] == text[pos + |k|..];
          Joined(result, [specials[k]], Tokens(specials, vocab, text[pos + |k|..]));
          result := result + [specials[k]];
          pos := pos + |k|;
        } else {
          var end := ChunkEnd(order, text, pos);
          var ids := TokenizeChunk(vocab, text[pos..end]);
          ChunkTokens(specials, vocab, text, pos, end);
          Joined(result, ids, Tokens(specials, vocab, text[end..]));
          result := result + ids;
          pos := end;
        }
      }
      assert text[pos..] == [];
      NoTokens(specials, vocab);
    }
  }
}
