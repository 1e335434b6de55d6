/** Result and option types shared by every component. */
module Wrappers {
  datatype Option<+T> = None | Some(value: T)

  /** The failure kinds that `utils/result.hpp` distinguishes and the modelled code can return. */
  datatype Error = Internal | ResourceExhausted | InvalidRequest | Timeout

  datatype Result<+T> = Ok(value: T) | Err(error: Error)
}

/** Unsigned 64-bit counters: the program's `size_t` budgets wrap around. */
module Words {
  const WORD: int := 0x1_0000_0000_0000_0000

  function Wrap(x: int): (w: nat)
    ensures w < WORD
    ensures 0 <= x < WORD ==> w == x
  {
    x % WORD
  }

  /** Adding to a wrapped counter is adding to the counter it stands for. */
  lemma WrapAdd(a: int, b: int)
    ensures Wrap(Wrap(a) + b) == Wrap(a + b)
  {
    var q := a / WORD;
    assert a == q * WORD + Wrap(a);
    var r := (Wrap(a) + b) / WORD;
    assert a + b == (q + r) * WORD + Wrap(Wrap(a) + b);
    WrapUnique(a + b, q + r, Wrap(Wrap(a) + b));
  }

  /** Multiplication as repeated addition: keeps products out of the solver's arithmetic. */
  function Times(n: nat, x: nat): nat {
    if n == 0 then 0 else Times(n - 1, x) + x
  }

  lemma {:induction false} TimesIsProduct(n: nat, x: nat)
    ensures Times(n, x) == n * x
  {
    if n > 0 {
      TimesIsProduct(n - 1, x);
      assert n * x == (n - 1) * x + x;
    }
  }

  lemma {:induction false} TimesMonotone(m: nat, n: nat, x: nat)
    requires m <= n
    ensures Times(m, x) <= Times(n, x)
    decreases n
  {
    if m < n {
      TimesMonotone(m, n - 1, x);
    }
  }

  lemma WrapNegative(x: int)
    ensures Wrap(0 - x) == 0 <==> Wrap(x) == 0
  {
    WrapAdd(x, 0 - x);
    WrapAdd(0 - x, x);
  }

  lemma WrapUnique(x: int, q: int, w: nat)
    requires x == q * WORD + w
    requires w < WORD
    ensures Wrap(x) == w
  {
    var d := x / WORD - q;
    assert x == (x / WORD) * WORD + x % WORD;
    assert d * WORD == w - x % WORD;
  }
}

/** Finite sums and duplicate-free sequences. */
module Sums {
  import opened Words

  function Sum<T>(xs: seq<T>, f: T -> int): int {
    if xs == [] then 0 else f(xs[0]) + Sum(xs[1..], f)
  }

  ghost predicate Distinct<T>(xs: seq<T>) {
    xs == [] || (xs[0] !in xs[1..] && Distinct(xs[1..]))
  }

  lemma {:induction false} DistinctMeaning<T>(xs: seq<T>)
    ensures Distinct(xs) <==> forall i, j :: 0 <= i < j < |xs| ==> xs[i] != xs[j]
  {
    if xs != [] {
      DistinctMeaning(xs[1..]);
      if Distinct(xs) {
        forall i, j | 0 <= i < j < |xs| ensures xs[i] != xs[j] {
          assert xs[j] == xs[1..][j - 1];
          assert i > 0 ==> xs[i] == xs[1..][i - 1];
        }
      } else if xs[0] in xs[1..] {
        var j :| 0 <= j < |xs[1..]| && xs[1..][j] == xs[0];
        assert xs[j + 1] == xs[0];
      } else {
        var i, j :| 0 <= i < j < |xs[1..]| && xs[1..][i] == xs[1..][j];
        assert xs[i + 1] == xs[j + 1];
      }
    }
  }

  lemma {:induction false} DistinctAppend<T>(xs: seq<T>, x: T)
    requires Distinct(xs) && x !in xs
    ensures Distinct(xs + [x])
  {
    if xs == [] {
      assert xs + [x] == [x];
    } else {
      assert (xs + [x])[1..] == xs[1..] + [x];
      assert x !in xs[1..];
      DistinctAppend(xs[1..], x);
    }
  }

  /** All but the last element. */
  lemma {:induction false} DistinctInit<T(!new)>(xs: seq<T>)
    requires Distinct(xs) && xs != []
    ensures Distinct(xs[..|xs| - 1]) && xs[|xs| - 1] !in xs[..|xs| - 1]
    ensures forall x :: x in xs <==> x in xs[..|xs| - 1] || x == xs[|xs| - 1]
  {
    var n := |xs| - 1;
    DistinctMeaning(xs);
    DistinctMeaning(xs[..n]);
    assert xs == xs[..n] + [xs[n]];
  }

  lemma {:induction false} DistinctPrefix<T(!new)>(xs: seq<T>, n: nat)
    requires Distinct(xs) && n <= |xs|
    ensures Distinct(xs[..n])
  {
    DistinctMeaning(xs);
    DistinctMeaning(xs[..n]);
  }

  /** `erase(remove(xs, x))`: every occurrence of `x` goes, the order of the others stays. */
  function Erase<T(==, !new)>(xs: seq<T>, x: T): (r: seq<T>)
    ensures forall y :: y in r <==> y in xs && y != x
    ensures |r| <= |xs|
  {
    if xs == [] then [] else if xs[0] == x then Erase(xs[1..], x) else [xs[0]] + Erase(xs[1..], x)
  }

  lemma {:induction false} EraseDistinct<T(!new)>(xs: seq<T>, x: T)
    requires Distinct(xs)
    ensures Distinct(Erase(xs, x))
    ensures x in xs ==> |Erase(xs, x)| == |xs| - 1
    ensures x !in xs ==> Erase(xs, x) == xs
  {
    if xs != [] {
      EraseDistinct(xs[1..], x);
      assert xs == [xs[0]] + xs[1..];
    }
  }

  lemma {:induction false} SumSame<T>(xs: seq<T>, f: T -> int, g: T -> int)
    requires forall x :: x in xs ==> f(x) == g(x)
    ensures Sum(xs, f) == Sum(xs, g)
  {
    if xs != [] {
      SumSame(xs[1..], f, g);
    }
  }

  /** Changing the summand at one place of a duplicate-free sequence changes the sum by the difference. */
  lemma {:induction false} SumChange<T>(xs: seq<T>, f: T -> int, g: T -> int, x: T)
    requires Distinct(xs) && x in xs
    requires forall y :: y in xs && y != x ==> f(y) == g(y)
    ensures Sum(xs, g) == Sum(xs, f) + g(x) - f(x)
  {
    if xs[0] == x {
      SumSame(xs[1..], f, g);
    } else {
      SumChange(xs[1..], f, g, x);
    }
  }

  lemma {:induction false} SumAppend<T>(xs: seq<T>, x: T, f: T -> int)
    ensures Sum(xs + [x], f) == Sum(xs, f) + f(x)
  {
    if xs == [] {
      assert xs + [x] == [x];
    } else {
      assert (xs + [x])[1..] == xs[1..] + [x];
      SumAppend(xs[1..], x, f);
    }
  }

  /** A sum over a list equals the sum over any duplicate-free sublist outside which the summand vanishes. */
  lemma {:induction false} SumSupport<T(!new)>(xs: seq<T>, ys: seq<T>, f: T -> int)
    requires Distinct(xs) && Distinct(ys)
    requires forall y :: y in ys ==> y in xs
    requires forall x :: x in xs && x !in ys ==> f(x) == 0
    ensures Sum(xs, f) == Sum(ys, f)
    decreases |ys|
  {
    if ys == [] {
      var zero := (_: T) => 0;
      SumSame(xs, f, zero);
      SumZero(xs, zero);
    } else {
      var y := ys[0];
      var g := (x: T) => if x == y then 0 else f(x);
      SumChange(xs, f, g, y);
      forall x | x in xs && x !in ys[1..] ensures g(x) == 0 {
        assert x != y ==> x !in ys;
      }
      SumSupport(xs, ys[1..], g);
      SumSame(ys[1..], f, g);
    }
  }

  lemma {:induction false} SumZero<T>(xs: seq<T>, f: T -> int)
    requires forall x :: x in xs ==> f(x) == 0
    ensures Sum(xs, f) == 0
  {
    if xs != [] {
      SumZero(xs[1..], f);
    }
  }

  /** A sum of multiples of the word size is one. */
  lemma {:induction false} SumWraps<T>(xs: seq<T>, f: T -> int)
    requires forall x :: x in xs ==> Wrap(f(x)) == 0
    ensures Wrap(Sum(xs, f)) == 0
  {
    if xs != [] {
      SumWraps(xs[1..], f);
      WrapAdd(f(xs[0]), Sum(xs[1..], f));
    }
  }

  /** Modulo the word size only one member counts. */
  lemma {:induction false} SumWrapsOne<T(!new)>(xs: seq<T>, f: T -> int, x: T)
    requires Distinct(xs) && forall y :: y in xs && y != x ==> Wrap(f(y)) == 0
    ensures Wrap(Sum(xs, f)) == Wrap(if x in xs then f(x) else 0)
  {
    if xs != [] {
      SumWrapsOne(xs[1..], f, x);
      WrapAdd(f(xs[0]), Sum(xs[1..], f));
      WrapAdd(Sum(xs[1..], f), f(xs[0]));
    }
  }

  lemma {:induction false} SumMinus<T>(xs: seq<T>, f: T -> int, g: T -> int, h: T -> int)
    requires forall x :: x in xs ==> f(x) == g(x) - h(x)
    ensures Sum(xs, f) == Sum(xs, g) - Sum(xs, h)
  {
    if xs != [] {
      SumMinus(xs[1..], f, g, h);
    }
  }

  lemma {:induction false} SumNonNegative<T>(xs: seq<T>, f: T -> int)
    requires forall x :: x in xs ==> f(x) >= 0
    ensures Sum(xs, f) >= 0
    ensures forall x :: x in xs ==> f(x) <= Sum(xs, f)
  {
    if xs != [] {
      SumNonNegative(xs[1..], f);
      forall x | x in xs ensures f(x) <= Sum(xs, f) {
        assert x == xs[0] || x in xs[1..];
      }
    }
  }
}

/** The program's `std::string`: a sequence of bytes. */
module Text {
  type Byte = c: char | c as int < 256
  type Bytes = seq<Byte>
}
