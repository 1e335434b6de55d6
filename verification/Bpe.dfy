/** Byte-pair encoding (src/tokenizer/bpe.cpp). */
module Bpe {
  import opened Text

  type Word = seq<Bytes>
  type Pair = (Bytes, Bytes)

  /** Ranks of the pairs that may be merged; the largest `int` is never chosen. */
  type Merges = map<Pair, int>

  const INT_MAX: int := 0x7fff_ffff

  predicate Usable(m: Merges, p: Pair) { p in m && m[p] < INT_MAX }

  function Pairs(w: Word): (r: seq<Pair>)
    ensures |w| < 2 ==> r == []
    ensures |w| >= 2 ==> |r| == |w| - 1 && forall i :: 0 <= i < |r| ==> r[i] == (w[i], w[i + 1])
  {
    if |w| < 2 then [] else seq(|w| - 1, i requires 0 <= i < |w| - 1 => (w[i], w[i + 1]))
  }

  /** The pair of lowest rank, the first such, with its rank; `INT_MAX` when no pair is usable. */
  function Best(m: Merges, pairs: seq<Pair>): (r: (int, Pair)) {
    if pairs == [] then (INT_MAX, ([], []))
    else
      var best := Best(m, pairs[..|pairs| - 1]);
      var p := pairs[|pairs| - 1];
      if p in m && m[p] < best.0 then (m[p], p) else best
  }

  /** One pass, left to right: occurrences of the pair are merged, overlapping ones are not. */
  function Merge(w: Word, p: Pair): Word {
    if w == [] then []
    else if |w| >= 2 && (w[0], w[1]) == p then [p.0 + p.1] + Merge(w[2..], p)
    else [w[0]] + Merge(w[1..], p)
  }

  predicate Solid(w: Word) { forall i :: 0 <= i < |w| ==> w[i] != [] }

  function Concat(w: Word): Bytes {
    if w == [] then [] else w[0] + Concat(w[1..])
  }

  function Singles(token: Bytes): (w: Word)
    ensures |w| == |token| && forall i :: 0 <= i < |w| ==> w[i] == [token[i]]
  {
    seq(|token|, i requires 0 <= i < |token| => [token[i]])
  }

  // ---------------------------------------------------------------- one pass

  lemma {:induction false} MergeShrinks(w: Word, p: Pair)
    ensures |Merge(w, p)| <= |w|
    ensures p in Pairs(w) ==> |Merge(w, p)| < |w|
    ensures p !in Pairs(w) ==> Merge(w, p) == w
    decreases |w|
  {
    if w != [] {
      if |w| >= 2 && (w[0], w[1]) == p {
        MergeShrinks(w[2..], p);
        assert Pairs(w)[0] == p;
      } else {
        MergeShrinks(w[1..], p);
        PairsTail(w, p);
        assert w == [w[0]] + w[1..];
      }
    }
  }

  lemma PairsTail(w: Word, p: Pair)
    requires w != []
    ensures p in Pairs(w) <==> (|w| >= 2 && (w[0], w[1]) == p) || p in Pairs(w[1..])
  {
    var tail := w[1..];
    if |w| >= 2 {
      assert Pairs(w)[0] == (w[0], w[1]);
      if i :| 0 <= i < |Pairs(w)| && Pairs(w)[i] == p {
        assert i > 0 ==> Pairs(tail)[i - 1] == p;
      }
      if j :| 0 <= j < |Pairs(tail)| && Pairs(tail)[j] == p {
        assert Pairs(w)[j + 1] == p;
      }
    }
  }

  lemma {:induction false} MergeKeepsText(w: Word, p: Pair)
    ensures Concat(Merge(w, p)) == Concat(w)
    ensures Solid(w) ==> Solid(Merge(w, p))
    decreases |w|
  {
    if w != [] {
      if |w| >= 2 && (w[0], w[1]) == p {
        MergeKeepsText(w[2..], p);
        assert w[1..][1..] == w[2..];
        assert Solid(w) ==> w[0] != [] && Solid(w[2..]);
        var rest := Merge(w[2..], p);
        assert ([p.0 + p.1] + rest)[1..] == rest;
      } else {
        MergeKeepsText(w[1..], p);
        var rest := Merge(w[1..], p);
        assert ([w[0]] + rest)[1..] == rest;
        assert Solid(w) ==> w[0] != [] && Solid(w[1..]);
      }
    }
  }

  /** A pass removes every occurrence of its pair. */
  lemma {:induction false} MergeRemoves(w: Word, p: Pair)
    requires Solid(w)
    ensures p !in Pairs(Merge(w, p))
    decreases |w|
  {
    if w != [] {
      var next := if |w| >= 2 && (w[0], w[1]) == p then w[2..] else w[1..];
      assert Solid(next);
      MergeRemoves(next, p);
      var m := Merge(w, p);
      assert m[1..] == Merge(next, p);
      PairsTail(m, p);
      if |m| >= 2 && (m[0], m[1]) == p {
        MergeHead(next, p);
        assert false;
      }
    }
  }

  /** A pass joins the first occurrence of its pair and goes on behind it. */
  lemma {:induction false} MergeLeftmost(w: Word, i: nat)
    requires i + 1 < |w| && forall j :: 0 <= j < i ==> (w[j], w[j + 1]) != (w[i], w[i + 1])
    ensures Merge(w, (w[i], w[i + 1])) == w[..i] + [w[i] + w[i + 1]] + Merge(w[i + 2..], (w[i], w[i + 1]))
    decreases i
  {
    if i > 0 {
      MergeLeftmost(w[1..], i - 1);
      assert w[1..][i + 1..] == w[i + 2..];
      assert w[..i] == [w[0]] + w[1..][..i - 1];
      assert (w[0], w[1]) != (w[i], w[i + 1]);
    }
  }

  /** The first piece after a pass is the first piece before it, or the merged pair. */
  lemma MergeHead(w: Word, p: Pair)
    requires w != []
    ensures Merge(w, p) != []
    ensures Merge(w, p)[0] == if |w| >= 2 && (w[0], w[1]) == p then p.0 + p.1 else w[0]
  {
  }

  // ---------------------------------------------------------------- the whole encoding

  lemma {:induction false} BestMeaning(m: Merges, pairs: seq<Pair>)
    ensures var (rank, p) := Best(m, pairs);
      && rank <= INT_MAX
      && (rank < INT_MAX ==> p in pairs && Usable(m, p) && m[p] == rank)
      && (forall q :: q in pairs && Usable(m, q) ==> rank <= m[q])
  {
    if pairs != [] {
      var init := pairs[..|pairs| - 1];
      BestMeaning(m, init);
      assert pairs == init + [pairs[|pairs| - 1]];
    }
  }

  /** Among the usable pairs the chosen one has the lowest rank, and of those it is the first in the word. */
  lemma {:induction false} BestIsFirstLowest(m: Merges, pairs: seq<Pair>, i: nat)
    requires i < |pairs| && Usable(m, pairs[i])
    requires forall j :: 0 <= j < |pairs| && Usable(m, pairs[j]) ==>
      m[pairs[i]] <= m[pairs[j]] && (j < i ==> m[pairs[i]] < m[pairs[j]])
    ensures Best(m, pairs) == (m[pairs[i]], pairs[i])
    decreases |pairs|
  {
    var n := |pairs| - 1;
    if i == n {
      BestMeaning(m, pairs[..n]);
    } else {
      BestIsFirstLowest(m, pairs[..n], i);
    }
  }

  /** Merges the pair of lowest rank until no pair is usable. Every pass shortens the word. */
  function Encode(m: Merges, w: Word): Word
    decreases |w|
  {
    var (rank, p) := Best(m, Pairs(w));
    if rank == INT_MAX then w
    else
      BestMeaning(m, Pairs(w));
      MergeShrinks(w, p);
      Encode(m, Merge(w, p))
  }

  /** One round of `apply_bpe`: the first usable pair of lowest rank is joined where it first occurs, and
      then everywhere behind. */
  lemma EncodeStep(m: Merges, w: Word, i: nat)
    requires i < |Pairs(w)| && Usable(m, Pairs(w)[i])
    requires forall j :: 0 <= j < |Pairs(w)| && Usable(m, Pairs(w)[j]) ==>
      m[Pairs(w)[i]] <= m[Pairs(w)[j]] && (j < i ==> m[Pairs(w)[i]] < m[Pairs(w)[j]])
    ensures Encode(m, w) == Encode(m, w[..i] + [w[i] + w[i + 1]] + Merge(w[i + 2..], (w[i], w[i + 1])))
  {
    BestIsFirstLowest(m, Pairs(w), i);
    forall j | 0 <= j < i ensures (w[j], w[j + 1]) != (w[i], w[i + 1]) {
      assert Pairs(w)[j] == (w[j], w[j + 1]);
    }
    MergeLeftmost(w, i);
  }

  /** A byte, or two such strings that the table merges. */
  ghost predicate Built(m: Merges, x: Bytes)
    decreases |x|
  {
    |x| == 1 || exists k :: 0 < k < |x| && Usable(m, (x[..k], x[k..])) && Built(m, x[..k]) && Built(m, x[k..])
  }

  ghost predicate AllBuilt(m: Merges, w: Word) {
    forall i :: 0 <= i < |w| ==> Built(m, w[i])
  }

  lemma BuiltPair(m: Merges, p: Pair)
    requires Usable(m, p) && Built(m, p.0) && Built(m, p.1) && p.0 != [] && p.1 != []
    ensures Built(m, p.0 + p.1)
  {
    var (x, k) := (p.0 + p.1, |p.0|);
    assert x[..k] == p.0 && x[k..] == p.1;
  }

  lemma {:induction false} MergeBuilt(m: Merges, w: Word, p: Pair)
    requires AllBuilt(m, w) && Solid(w) && Usable(m, p)
    ensures AllBuilt(m, Merge(w, p))
    decreases |w|
  {
    if w != [] {
      if |w| >= 2 && (w[0], w[1]) == p {
        BuiltPair(m, p);
        MergeBuilt(m, w[2..], p);
      } else {
        MergeBuilt(m, w[1..], p);
      }
    }
  }

  /** What an encoding is: the same text, in pieces that are bytes or built by merges of the table,
      in which no adjacent pair can still be merged. */
  ghost predicate Encodes(m: Merges, w: Word, r: Word) {
    && Concat(r) == Concat(w) && Solid(r) && AllBuilt(m, r)
    && forall p :: p in Pairs(r) ==> !Usable(m, p)
  }

  lemma {:induction false} EncodeMeaning(m: Merges, w: Word)
    requires Solid(w) && AllBuilt(m, w)
    ensures Encodes(m, w, Encode(m, w))
    ensures |Encode(m, w)| <= |w|
    decreases |w|
  {
    var (rank, p) := Best(m, Pairs(w));
    BestMeaning(m, Pairs(w));
    if rank < INT_MAX {
      MergeShrinks(w, p);
      MergeKeepsText(w, p);
      MergeBuilt(m, w, p);
      EncodeMeaning(m, Merge(w, p));
    }
  }

  lemma {:induction false} SinglesText(token: Bytes)
    ensures Concat(Singles(token)) == token && Solid(Singles(token))
  {
    if token != [] {
      SinglesText(token[1..]);
      assert Singles(token)[1..] == Singles(token[1..]);
      assert token == [token[0]] + token[1..];
    }
  }

  /** No adjacent pair has a rank below the largest `int`. */
  ghost predicate NoneLeft(m: Merges, r: Word) {
    forall i :: 0 <= i < |r| - 1 && (r[i], r[i + 1]) in m ==> m[(r[i], r[i + 1])] >= 0x7fff_ffff
  }

  lemma EncodesAll(m: Merges, w: Word, r: Word)
    requires Encodes(m, w, r)
    ensures NoneLeft(m, r)
  {
    forall i | 0 <= i < |r| - 1 && (r[i], r[i + 1]) in m ensures m[(r[i], r[i + 1])] >= 0x7fff_ffff {
      assert Pairs(r)[i] in Pairs(r);
    }
  }

  /** `apply_bpe` terminates for every token and every table, keeps the text, and returns only bytes
      and merges of the table, with no usable pair left. */
  lemma TokenEncoded(m: Merges, token: Bytes)
    ensures Encodes(m, Singles(token), Encode(m, Singles(token)))
    ensures Concat(Encode(m, Singles(token))) == token
  {
    SinglesText(token);
    EncodeMeaning(m, Singles(token));
  }

  // ---------------------------------------------------------------- the encoding is local

  /** No two usable pairs have the same rank. */
  ghost predicate Ranked(m: Merges) {
    forall p, q :: Usable(m, p) && Usable(m, q) && m[p] == m[q] ==> p == q
  }

  /** A piece of `w` ends after `n` bytes. */
  ghost predicate Cut(w: Word, n: nat) {
    exists k :: 0 <= k <= |w| && |Concat(w[..k])| == n
  }

  lemma {:induction false} ConcatAppend(u: Word, v: Word)
    ensures Concat(u + v) == Concat(u) + Concat(v)
  {
    if u == [] {
      assert u + v == v;
    } else {
      assert (u + v)[1..] == u[1..] + v;
      ConcatAppend(u[1..], v);
    }
  }

  lemma CutAfterFirst(w: Word, n: nat)
    requires w != [] && Cut(w, n) && n > 0
    ensures n >= |w[0]| && Cut(w[1..], n - |w[0]|)
  {
    var k :| 0 <= k <= |w| && |Concat(w[..k])| == n;
    assert w[..k][1..] == w[1..][..k - 1];
  }

  lemma CutBeforeFirst(x: Bytes, w: Word, n: nat)
    requires Cut(w, n)
    ensures Cut([x] + w, n + |x|)
  {
    var k :| 0 <= k <= |w| && |Concat(w[..k])| == n;
    assert ([x] + w)[..k + 1] == [x] + w[..k];
    assert ([x] + w[..k])[1..] == w[..k];
  }

  lemma CutStart(w: Word)
    ensures Cut(w, 0)
  {
    assert Concat(w[..0]) == [];
  }

  /** A pass removes ends of pieces and makes no new ones. */
  lemma {:induction false} MergeCuts(w: Word, p: Pair, n: nat)
    requires Cut(Merge(w, p), n)
    ensures Cut(w, n)
    decreases |w|
  {
    if n == 0 {
      CutStart(w);
    } else if w != [] {
      var m := Merge(w, p);
      CutAfterFirst(m, n);
      if |w| >= 2 && (w[0], w[1]) == p {
        assert m[1..] == Merge(w[2..], p);
        MergeCuts(w[2..], p, n - |m[0]|);
        CutBeforeFirst(w[1], w[2..], n - |m[0]|);
        assert w[1..] == [w[1]] + w[2..];
        CutBeforeFirst(w[0], w[1..], n - |w[0]|);
      } else {
        assert m[1..] == Merge(w[1..], p);
        MergeCuts(w[1..], p, n - |m[0]|);
        CutBeforeFirst(w[0], w[1..], n - |w[0]|);
      }
      assert w == [w[0]] + w[1..];
    }
  }

  lemma {:induction false} EncodeCuts(m: Merges, w: Word, n: nat)
    requires Cut(Encode(m, w), n)
    ensures Cut(w, n)
    decreases |w|
  {
    var (rank, p) := Best(m, Pairs(w));
    if rank != INT_MAX {
      BestMeaning(m, Pairs(w));
      MergeShrinks(w, p);
      EncodeCuts(m, Merge(w, p), n);
      MergeCuts(w, p, n);
    }
  }

  /** Merging across a seam leaves no end of a piece there. */
  lemma CrossingLosesSeam(u: Word, v: Word, p: Pair)
    requires |u| == 1 && v != [] && Solid(u) && Solid(v) && (u + v)[1] == p.1 && u[0] == p.0
    ensures !Cut(Merge(u + v, p), |Concat(u)|)
  {
    var m := Merge(u + v, p);
    ConcatOne(u[0]);
    assert u == [u[0]] && v[0] != [] && m[0] == p.0 + p.1 && p.1 == v[0];
    forall k | 0 <= k <= |m| ensures |Concat(m[..k])| != |Concat(u)| {
      if k > 0 {
        assert m[..k][0] == m[0];
      }
    }
  }

  lemma ConcatOne(x: Bytes)
    ensures Concat([x]) == x
  {
    assert Concat([x][1..]) == [];
  }

  lemma ConcatTwo(u: Word)
    requires |u| >= 2
    ensures Concat(u) == (u[0] + u[1]) + Concat(u[2..])
  {
    assert u[1..][1..] == u[2..] && u[1..][0] == u[1];
  }

  lemma MergeFirstPair(u: Word, v: Word, p: Pair)
    requires |u| >= 2 && (u[0], u[1]) == p
    ensures Merge(u + v, p) == [p.0 + p.1] + Merge(u[2..] + v, p)
    ensures Merge(u, p) == [p.0 + p.1] + Merge(u[2..], p)
  {
    assert (u + v)[2..] == u[2..] + v;
  }

  lemma MergeFirstPiece(u: Word, v: Word, p: Pair)
    requires u != [] && (|u| >= 2 ==> (u[0], u[1]) != p) && (|u| == 1 && v != [] ==> (u[0], v[0]) != p)
    ensures Merge(u + v, p) == [u[0]] + Merge(u[1..] + v, p)
    ensures Merge(u, p) == [u[0]] + Merge(u[1..], p)
  {
    assert (u + v)[1..] == u[1..] + v;
  }

  lemma CutRest(x: Bytes, w: Word, n: nat)
    requires Cut([x] + w, |x| + n) && x != []
    ensures Cut(w, n)
  {
    CutAfterFirst([x] + w, |x| + n);
    assert ([x] + w)[1..] == w;
  }

  /** A pass that merges nothing across the seam works on both sides separately. */
  lemma {:induction false} MergeSplits(u: Word, v: Word, p: Pair)
    requires Solid(u) && Solid(v) && Cut(Merge(u + v, p), |Concat(u)|)
    ensures Merge(u + v, p) == Merge(u, p) + Merge(v, p)
    decreases |u|
  {
    if u == [] {
      assert u + v == v;
    } else if |u| == 1 && v != [] && (u[0], v[0]) == p {
      CrossingLosesSeam(u, v, p);
      assert false;
    } else if |u| >= 2 && (u[0], u[1]) == p {
      MergeFirstPair(u, v, p);
      ConcatTwo(u);
      CutRest(p.0 + p.1, Merge(u[2..] + v, p), |Concat(u[2..])|);
      MergeSplits(u[2..], v, p);
      Regroup(p.0 + p.1, Merge(u[2..], p), Merge(v, p));
    } else {
      MergeFirstPiece(u, v, p);
      CutRest(u[0], Merge(u[1..] + v, p), |Concat(u[1..])|);
      MergeSplits(u[1..], v, p);
      Regroup(u[0], Merge(u[1..], p), Merge(v, p));
    }
  }

  lemma Regroup(x: Bytes, a: Word, b: Word)
    ensures [x] + (a + b) == ([x] + a) + b
  {
  }

  lemma LeftPair(u: Word, v: Word, i: nat)
    requires i < |Pairs(u)|
    ensures i < |Pairs(u + v)| && Pairs(u + v)[i] == Pairs(u)[i]
  {
    assert (u + v)[i] == u[i] && (u + v)[i + 1] == u[i + 1];
  }

  lemma RightPair(u: Word, v: Word, j: nat)
    requires j < |Pairs(v)|
    ensures |u| + j < |Pairs(u + v)| && Pairs(u + v)[|u| + j] == Pairs(v)[j]
  {
    assert (u + v)[|u| + j] == v[j] && (u + v)[|u| + j + 1] == v[j + 1];
  }

  lemma PairsOfSides(u: Word, v: Word, q: Pair)
    requires q in Pairs(u) || q in Pairs(v)
    ensures q in Pairs(u + v)
  {
    if q in Pairs(u) {
      var i :| 0 <= i < |Pairs(u)| && Pairs(u)[i] == q;
      LeftPair(u, v, i);
    } else {
      var j :| 0 <= j < |Pairs(v)| && Pairs(v)[j] == q;
      RightPair(u, v, j);
    }
  }

  /** No usable pair of `w` has a lower rank than `p`. */
  ghost predicate Leads(m: Merges, p: Pair, w: Word)
    requires Usable(m, p)
  {
    forall q :: q in Pairs(w) && Usable(m, q) ==> m[p] <= m[q]
  }

  /** Merging the leading pair first does not change the encoding. */
  lemma EncodeLeading(m: Merges, w: Word, p: Pair)
    requires Ranked(m) && Usable(m, p) && Leads(m, p, w)
    ensures Encode(m, w) == Encode(m, Merge(w, p))
  {
    MergeShrinks(w, p);
    if p in Pairs(w) {
      BestMeaning(m, Pairs(w));
    }
  }

  lemma StuckSides(m: Merges, u: Word, v: Word)
    requires Best(m, Pairs(u + v)).0 == INT_MAX
    ensures Encode(m, u + v) == u + v && Encode(m, u) == u && Encode(m, v) == v
  {
    BestMeaning(m, Pairs(u + v));
    BestMeaning(m, Pairs(u));
    BestMeaning(m, Pairs(v));
    forall q | q in Pairs(u) || q in Pairs(v) ensures q in Pairs(u + v) {
      PairsOfSides(u, v, q);
    }
  }

  /** If a piece of the encoding of `u + v` ends where `u` ends, the encoding is the encoding of `u`
      followed by the encoding of `v`. */
  lemma {:induction false} EncodeSplits(m: Merges, u: Word, v: Word)
    requires Ranked(m) && Solid(u) && Solid(v) && Cut(Encode(m, u + v), |Concat(u)|)
    ensures Encode(m, u + v) == Encode(m, u) + Encode(m, v)
    decreases |u + v|
  {
    var (rank, p) := Best(m, Pairs(u + v));
    if rank == INT_MAX {
      StuckSides(m, u, v);
    } else {
      BestMeaning(m, Pairs(u + v));
      MergeShrinks(u + v, p);
      EncodeCuts(m, Merge(u + v, p), |Concat(u)|);
      MergeSplits(u, v, p);
      MergeKeepsText(u, p);
      MergeKeepsText(v, p);
      EncodeSplits(m, Merge(u, p), Merge(v, p));
      forall q | q in Pairs(u) || q in Pairs(v) ensures q in Pairs(u + v) {
        PairsOfSides(u, v, q);
      }
      EncodeLeading(m, u, p);
      EncodeLeading(m, v, p);
    }
  }

  lemma SinglesAppend(a: Bytes, b: Bytes)
    ensures Singles(a + b) == Singles(a) + Singles(b)
  {
  }

  /** The encoding is local: where it has an end of a piece, the parts before and after it are
      encoded as they would be alone. */
  lemma EncodingIsLocal(m: Merges, a: Bytes, b: Bytes)
    requires Ranked(m) && Cut(Encode(m, Singles(a + b)), |a|)
    ensures Encode(m, Singles(a + b)) == Encode(m, Singles(a)) + Encode(m, Singles(b))
  {
    SinglesAppend(a, b);
    SinglesText(a);
    SinglesText(b);
    EncodeSplits(m, Singles(a), Singles(b));
  }

  /** In a word without empty pieces, equally long beginnings are the same. */
  lemma {:induction false} SameBeginning(w: Word, i: nat, j: nat)
    requires Solid(w) && i <= |w| && j <= |w| && |Concat(w[..i])| == |Concat(w[..j])|
    ensures i == j
    decreases |w|
  {
    if i > 0 && j > 0 {
      assert w[..i][1..] == w[1..][..i - 1] && w[..j][1..] == w[1..][..j - 1];
      SameBeginning(w[1..], i - 1, j - 1);
    }
  }

  /** The pieces from the `i`-th on are the encoding of the rest of the text. */
  lemma SuffixEncoded(m: Merges, token: Bytes, i: nat) returns (rest: Bytes)
    requires Ranked(m) && i <= |Encode(m, Singles(token))|
    ensures Encode(m, Singles(rest)) == Encode(m, Singles(token))[i..]
  {
    var r := Encode(m, Singles(token));
    var a := Concat(r[..i]);
    rest := Concat(r[i..]);
    TokenEncoded(m, token);
    WordParts(r, i);
    EncodingIsLocal(m, a, rest);
    TokenEncoded(m, a);
    PrefixUnique(r, Encode(m, Singles(a)), Encode(m, Singles(rest)), i);
  }

  lemma WordParts(w: Word, i: nat)
    requires i <= |w|
    ensures Concat(w) == Concat(w[..i]) + Concat(w[i..]) && Cut(w, |Concat(w[..i])|)
  {
    assert w == w[..i] + w[i..];
    ConcatAppend(w[..i], w[i..]);
  }

  lemma FirstPieceStable(m: Merges, token: Bytes)
    requires Ranked(m) && Encode(m, Singles(token)) != []
    ensures var piece := Encode(m, Singles(token))[0]; Encode(m, Singles(piece)) == [piece]
  {
    var r := Encode(m, Singles(token));
    var (piece, c) := (r[0], Concat(r[1..]));
    TokenEncoded(m, token);
    assert token == piece + c && r[..1] == [piece];
    ConcatOne(piece);
    assert Cut(r, |piece|);
    EncodingIsLocal(m, piece, c);
    TokenEncoded(m, piece);
    PrefixUnique(r, Encode(m, Singles(piece)), Encode(m, Singles(c)), 1);
  }

  /** Every piece of an encoding is its own encoding. */
  lemma PiecesAreStable(m: Merges, token: Bytes, i: nat)
    requires Ranked(m) && i < |Encode(m, Singles(token))|
    ensures var piece := Encode(m, Singles(token))[i]; Encode(m, Singles(piece)) == [piece]
  {
    var rest := SuffixEncoded(m, token, i);
    FirstPieceStable(m, rest);
  }

  lemma PrefixUnique(w: Word, x: Word, y: Word, i: nat)
    requires Solid(w) && w == x + y && i <= |w| && |Concat(w[..i])| == |Concat(x)|
    ensures x == w[..i] && y == w[i..]
  {
    assert w[..|x|] == x;
    SameBeginning(w, i, |x|);
  }

  // ---------------------------------------------------------------- equal ranks

  lemma Stuck(m: Merges, w: Word)
    requires forall p :: p in Pairs(w) ==> !Usable(m, p)
    ensures Encode(m, w) == w
  {
    BestMeaning(m, Pairs(w));
  }

  /** Two pairs that overlap and have the same rank. */
  const TIED: Merges := map[("a", "b") := 0, ("b", "c") := 0]

  lemma EncodeTied()
    ensures Encode(TIED, ["b", "c", "a", "b", "c"]) == ["bc", "a", "bc"]
  {
    var (w, p) := (["b", "c", "a", "b", "c"], ("b", "c"));
    BestIsFirstLowest(TIED, Pairs(w), 0);
    assert Best(TIED, Pairs(w)) == (0, p);
    assert w[2..] == ["a", "b", "c"] && w[2..][1..] == ["b", "c"] && w[2..][1..][2..] == [];
    assert p.0 + p.1 == "bc";
    assert Merge(["b", "c"], p) == ["bc"] + Merge([], p) by { assert ["b", "c"][2..] == []; }
    assert Merge(["a", "b", "c"], p) == ["a"] + Merge(["b", "c"], p);
    assert Merge(w, p) == ["bc"] + Merge(["a", "b", "c"], p);
    assert Merge(w, p) == ["bc", "a", "bc"];
    MergeShrinks(w, p);
    Stuck(TIED, ["bc", "a", "bc"]);
  }

  lemma EncodeTiedSides()
    ensures Encode(TIED, ["b", "c"]) == ["bc"] && Encode(TIED, ["a", "b", "c"]) == ["ab", "c"]
  {
    var (u, v, p, q) := (["b", "c"], ["a", "b", "c"], ("b", "c"), ("a", "b"));
    BestIsFirstLowest(TIED, Pairs(u), 0);
    BestIsFirstLowest(TIED, Pairs(v), 0);
    assert Best(TIED, Pairs(u)) == (0, p) && Best(TIED, Pairs(v)) == (0, q);
    assert u[2..] == [] && v[2..] == ["c"] && v[2..][1..] == [];
    assert p.0 + p.1 == "bc" && q.0 + q.1 == "ab";
    assert Merge(["c"], q) == ["c"] + Merge([], q) by { assert ["c"][1..] == []; }
    assert Merge(u, p) == ["bc"] + Merge([], p) && Merge(v, q) == ["ab"] + Merge(["c"], q);
    assert Merge(u, p) == ["bc"] && Merge(v, q) == ["ab", "c"];
    MergeShrinks(u, p);
    MergeShrinks(v, q);
    Stuck(TIED, ["bc"]);
    Stuck(TIED, ["ab", "c"]);
  }

  /** With equal ranks the encoding is not local: which of two tied pairs comes first in the word
      decides how the rest of it is merged. */
  lemma EqualRanksNotLocal()
    ensures var a: Bytes := "bc"; var b: Bytes := "abc";
      && Cut(Encode(TIED, Singles(a + b)), |a|)
      && Encode(TIED, Singles(a + b)) != Encode(TIED, Singles(a)) + Encode(TIED, Singles(b))
  {
    var a: Bytes := "bc";
    var b: Bytes := "abc";
    assert Singles(a + b) == ["b", "c", "a", "b", "c"] && Singles(a) == ["b", "c"] && Singles(b) == ["a", "b", "c"];
    EncodeTied();
    EncodeTiedSides();
    var r := Encode(TIED, Singles(a + b));
    assert r[..1] == ["bc"];
    ConcatOne("bc");
    assert r[1] == "a" && (Encode(TIED, Singles(a)) + Encode(TIED, Singles(b)))[1] == "ab";
  }

  // ---------------------------------------------------------------- the loops

  method GetPairs(word: Word) returns (pairs: seq<Pair>)
    ensures pairs == Pairs(word)
  {
    pairs := [];
    if |word| < 2 {
      return;
    }
    for i := 0 to |word| - 1
      invariant |pairs| == i && forall j :: 0 <= j < i ==> pairs[j] == (word[j], word[j + 1])
    {
      pairs := pairs + [(word[i], word[i + 1])];
    }
  }

  method FindBest(m: Merges, pairs: seq<Pair>) returns (rank: int, best: Pair)
    ensures (rank, best) == Best(m, pairs)
  {
    rank, best := INT_MAX, ([], []);
    for i := 0 to |pairs|
      invariant (rank, best) == Best(m, pairs[..i])
    {
      assert pairs[..i + 1][..i] == pairs[..i];
      if pairs[i] in m && m[pairs[i]] < rank {
        rank, best := m[pairs[i]], pairs[i];
      }
    }
    assert pairs[..|pairs|] == pairs;
  }

  lemma Shift(a: Word, x: Bytes, b: Word)
    ensures a + ([x] + b) == (a + [x]) + b
  {
  }

  method MergeOnce(word: Word, p: Pair) returns (merged: Word)
    ensures merged == Merge(word, p)
  {
    merged := [];
    var i := 0;
    while i < |word|
      invariant 0 <= i <= |word|
      invariant merged + Merge(word[i..], p) == Merge(word, p)
    {
      if i < |word| - 1 && word[i] == p.0 && word[i + 1] == p.1 {
        assert word[i..][2..] == word[i + 2..];
        Shift(merged, p.0 + p.1, Merge(word[i + 2..], p));
        merged := merged + [p.0 + p.1];
        i := i + 2;
      } else {
        assert word[i..][1..] == word[i + 1..];
        Shift(merged, word[i], Merge(word[i + 1..], p));
        merged := merged + [word[i]];
        i := i + 1;
      }
    }
  }

  method ApplyBpe(token: Bytes, m: Merges) returns (word: Word)
    ensures word == Encode(m, Singles(token))
    ensures Encodes(m, Singles(token), word) && Concat(word) == token
    ensures NoneLeft(m, word)
  {
    hide Encodes, NoneLeft, Merge, Concat, Singles;
    TokenEncoded(m, token);
    EncodesAll(m, Singles(token), Encode(m, Singles(token)));
    word := [];
    for i := 0 to |token|
      invariant |word| == i && forall j :: 0 <= j < i ==> word[j] == [token[j]]
    {
      word := word + [[token[i]]];
    }
    assert word == Singles(token);
    while true
      invariant Encode(m, word) == Encode(m, Singles(token))
      decreases |word|
    {
      var pairs := GetPairs(word);
      if pairs == [] {
        break;
      }
      var rank, best := FindBest(m, pairs);
      if rank == INT_MAX {
        break;
      }
      BestMeaning(m, pairs);
      MergeShrinks(word, best);
      word := MergeOnce(word, best);
      if |word| == 1 {
        break;
      }
    }
  }

  // ---------------------------------------------------------------- merge tables

  /** The lines of a merges file that name a pair, in order (src/tokenizer/tokenizer.cpp:164-175):
      each gets the next rank, and a pair named twice keeps the later one. So no rank occurs twice. */
  method LoadMerges(lines: seq<Pair>) returns (m: Merges)
    ensures Ranked(m)
    ensures forall p :: p in m <==> p in lines
    ensures forall p :: p in m ==> 0 <= m[p] < |lines| && lines[m[p]] == p && p !in lines[m[p] + 1..]
  {
    m := map[];
    for rank := 0 to |lines|
      invariant forall p :: p in m <==> p in lines[..rank]
      invariant forall p :: p in m ==> 0 <= m[p] < rank && lines[m[p]] == p && p !in lines[m[p] + 1..rank]
    {
      m := m[lines[rank] := rank];
      assert lines[..rank + 1] == lines[..rank] + [lines[rank]];
      forall p | p in m ensures p !in lines[m[p] + 1..rank + 1] {
        if p != lines[rank] {
          assert lines[m[p] + 1..rank + 1] == lines[m[p] + 1..rank] + [lines[rank]];
        }
      }
    }
    assert lines[..|lines|] == lines;
    assert forall p :: p in m ==> lines[m[p] + 1..] == lines[m[p] + 1..|lines|];
  }
}
