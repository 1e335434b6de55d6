/** Nucleus selection over the reals (src/core/sampler.cpp:73-123). The exponential is any positive
    function, and the result of the partial sort is an input. */
module Sampler {

  ghost predicate Positive(ws: seq<real>) { forall i :: 0 <= i < |ws| ==> ws[i] > 0.0 }

  function Total(ws: seq<real>): real {
    if ws == [] then 0.0 else Total(ws[..|ws| - 1]) + ws[|ws| - 1]
  }

  lemma TotalMore(ws: seq<real>, n: nat)
    requires n < |ws|
    ensures Total(ws[..n + 1]) == Total(ws[..n]) + ws[n]
  {
    assert ws[..n + 1][..n] == ws[..n];
  }

  lemma {:induction false} TotalPositive(ws: seq<real>, k: nat, n: nat)
    requires Positive(ws) && k <= n <= |ws|
    ensures Total(ws[..k]) <= Total(ws[..n])
    ensures k < n ==> Total(ws[..k]) < Total(ws[..n])
    ensures Total(ws[..k]) >= 0.0
    decreases n
  {
    if k < n {
      TotalPositive(ws, k, n - 1);
      TotalMore(ws, n - 1);
    } else if k > 0 {
      TotalPositive(ws, k - 1, k - 1);
      TotalMore(ws, k - 1);
    } else {
      assert ws[..0] == [];
    }
  }

  /** The share of the first `m` candidates that the first `n` have. */
  function Share(ws: seq<real>, m: nat, n: nat): real
    requires Positive(ws) && n <= m <= |ws| && 0 < m
  {
    TotalPositive(ws, 0, m);
    Total(ws[..n]) / Total(ws[..m])
  }

  /** The shortest non-empty prefix of the first `m` candidates whose share reaches `p`. */
  ghost predicate IsNucleus(ws: seq<real>, m: nat, p: real, n: nat)
    requires Positive(ws) && m <= |ws|
  {
    && 1 <= n <= m && Share(ws, m, n) >= p
    && forall k :: 1 <= k < n ==> Share(ws, m, k) < p
  }

  lemma Divide(a: real, b: real, s: real)
    requires s > 0.0
    ensures (a + b) / s == a / s + b / s
  {
  }

  lemma Smaller(a: real, s: real, t: real)
    requires a >= 0.0 && 0.0 < s <= t
    ensures a / s >= a / t
  {
    assert a / s * s == a && a / t * t == a;
    assert a / t * s <= a / t * t;
  }

  /** Dropping candidates only raises the shares of the others. */
  lemma ShareOfFewer(ws: seq<real>, m: nat, v: nat, n: nat)
    requires Positive(ws) && n <= m <= v <= |ws| && 0 < m
    ensures Share(ws, m, n) >= Share(ws, v, n)
  {
    TotalPositive(ws, m, v);
    TotalPositive(ws, 0, m);
    TotalPositive(ws, n, m);
    assert ws[..0] == [];
    Smaller(Total(ws[..n]), Total(ws[..m]), Total(ws[..v]));
  }

  lemma WholeShare(ws: seq<real>, m: nat)
    requires Positive(ws) && 0 < m <= |ws|
    ensures Share(ws, m, m) == 1.0
  {
    TotalPositive(ws, 0, m);
    var s := Total(ws[..m]);
    assert s / s == 1.0;
  }

  /** The nucleus of the first `m` candidates is a prefix of the nucleus of the whole vocabulary, for
      the same order; and it is the whole nucleus if and only if that fits among the candidates and
      its last token is still needed after renormalising. */
  lemma TruncatedNucleus(ws: seq<real>, m: nat, p: real, n: nat, full: nat)
    requires Positive(ws) && 0 < m <= |ws|
    requires IsNucleus(ws, m, p, n) && IsNucleus(ws, |ws|, p, full)
    ensures n <= full
    ensures m == |ws| ==> n == full
    ensures n == full <==> full <= m && (full == 1 || Share(ws, m, full - 1) < p)
  {
    if full <= m {
      ShareOfFewer(ws, m, |ws|, full);
      if full > 1 && Share(ws, m, full - 1) < p && n < full {
        ShareMonotone(ws, m, n, full - 1);
      }
    }
  }

  lemma ShareMonotone(ws: seq<real>, m: nat, k: nat, n: nat)
    requires Positive(ws) && k <= n <= m <= |ws| && 0 < m
    ensures Share(ws, m, k) <= Share(ws, m, n)
  {
    TotalPositive(ws, 0, m);
    TotalPositive(ws, k, n);
    var (a, b, s) := (Total(ws[..k]), Total(ws[..n]), Total(ws[..m]));
    assert a / s * s == a && b / s * s == b;
    if a / s > b / s {
      assert a / s * s > b / s * s;
    }
  }

  // ---------------------------------------------------------------- the loops

  function MaxCandidates(vocab: nat, p: real): (m: nat)
    ensures m <= vocab && (vocab > 0 ==> m > 0)
  {
    var limit := if p >= 0.9 then 1000 else 256;
    if vocab < limit then vocab else limit
  }

  /** What the partial sort leaves: the first `m` indices in descending order of their logits, and no
      larger logit after them. */
  ghost predicate SortedUpTo(logits: seq<real>, order: seq<nat>, m: nat) {
    && |order| == |logits| && m <= |order| && (forall i :: 0 <= i < |order| ==> order[i] < |logits|)
    && (forall i, j :: 0 <= i < j < |order| ==> order[i] != order[j])
    && (forall i, j :: 0 <= i < j < |order| && i < m ==> logits[order[i]] >= logits[order[j]])
  }

  /** The unnormalised probabilities, in the sorted order. */
  function Weights(logits: seq<real>, order: seq<nat>, exp: real -> real): (ws: seq<real>)
    requires order != [] && forall i :: 0 <= i < |order| ==> order[i] < |logits|
    ensures |ws| == |order| && forall i :: 0 <= i < |ws| ==> ws[i] == exp(logits[order[i]] - logits[order[0]])
    ensures (forall x :: exp(x) > 0.0) ==> Positive(ws)
  {
    seq(|order|, i requires 0 <= i < |order| => exp(logits[order[i]] - logits[order[0]]))
  }

  /** The exponentials of the candidates, and their sum. */
  method Exponentials(logits: seq<real>, order: seq<nat>, m: nat, exp: real -> real)
    returns (exps: seq<real>, sum: real)
    requires order != [] && m <= |order| && forall i :: 0 <= i < |order| ==> order[i] < |logits|
    ensures exps == Weights(logits, order, exp)[..m] && sum == Total(exps)
  {
    ghost var ws := Weights(logits, order, exp);
    var top := logits[order[0]];
    exps, sum := [], 0.0;
    for i := 0 to m
      invariant exps == ws[..i] && sum == Total(exps)
    {
      TotalMore(ws, i);
      exps := exps + [exp(logits[order[i]] - top)];
      sum := sum + exps[i];
    }
  }

  /** Adds up probabilities until they reach `p`. */
  method NucleusSize(exps: seq<real>, sum: real, p: real) returns (size: nat)
    requires exps != [] && Positive(exps) && sum == Total(exps) && p <= 1.0
    ensures IsNucleus(exps, |exps|, p, size)
  {
    var m := |exps|;
    assert exps[..m] == exps;
    TotalPositive(exps, 0, m);
    WholeShare(exps, m);
    var cumulative := 0.0;
    size := 0;
    var i := 0;
    while i < m
      invariant 0 <= i <= m && size == i && cumulative == Share(exps, m, i)
      invariant forall k :: 1 <= k <= i ==> Share(exps, m, k) < p
    {
      TotalMore(exps, i);
      Divide(Total(exps[..i]), exps[i], sum);
      cumulative := cumulative + exps[i] / sum;
      size := i + 1;
      if cumulative >= p {
        return;
      }
      i := i + 1;
    }
  }

  /** Shares among the first `m` weights depend on those weights only. */
  lemma NucleusOfPrefix(ws: seq<real>, m: nat, p: real, n: nat)
    requires Positive(ws) && 0 < m <= |ws| && IsNucleus(ws[..m], m, p, n)
    ensures IsNucleus(ws, m, p, n)
  {
    forall k | 0 <= k <= m ensures Share(ws, m, k) == Share(ws[..m], m, k) {
      assert ws[..m][..k] == ws[..k] && ws[..m][..m] == ws[..m];
    }
  }

  /** The selection always reaches `p`, with the shortest non-empty prefix of the sorted candidates,
      and no token left out has a larger logit than a token kept. */
  method SelectNucleus(logits: seq<real>, order: seq<nat>, p: real, exp: real -> real) returns (kept: seq<nat>)
    requires logits != [] && 0.0 <= p <= 1.0 && (forall x :: exp(x) > 0.0)
    requires SortedUpTo(logits, order, MaxCandidates(|logits|, p))
    ensures kept <= order
    ensures var limit := if p >= 0.9 then 1000 else 256;
      IsNucleus(Weights(logits, order, exp), if |logits| < limit then |logits| else limit, p, |kept|)
    ensures forall i, j :: 0 <= i < |kept| <= j < |order| ==> logits[order[i]] >= logits[order[j]]
  {
    var m := MaxCandidates(|logits|, p);
    var exps, sum := Exponentials(logits, order, m, exp);
    var size := NucleusSize(exps, sum, p);
    NucleusOfPrefix(Weights(logits, order, exp), m, p, size);
    return order[..size];
  }
}
