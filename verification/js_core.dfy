/** The few JavaScript built-ins the budget simulator relies on, over exact numbers. */
module JsCore {

  /** An optional value: `undefined` or a value. */
  datatype Option<+T> = None | Some(value: T)

  /** `Math.round`: the nearest integer, halves rounded up (92.5 becomes 93, -2.5 becomes -2). */
  function Round(x: real): (r: int)
    ensures r as real - 0.5 <= x < r as real + 0.5
  {
    (x + 0.5).Floor
  }

  lemma RoundMonotone(x: real, y: real)
    requires x <= y
    ensures Round(x) <= Round(y)
  {
  }

  lemma RoundOfInteger(n: int)
    ensures Round(n as real) == n
  {
  }

  /** `Math.min` of two numbers. */
  function Min(x: real, y: real): (r: real)
    ensures r <= x && r <= y
    ensures r == x || r == y
  {
    if x <= y then x else y
  }

  /** `Math.abs`. */
  function Abs(x: real): (r: real)
    ensures r >= 0.0
    ensures r == x || r == -x
  {
    if x < 0.0 then -x else x
  }

  /** `xs.reduce((sum, x) => sum + f(x), 0)` over integers. */
  function SumOf<T>(xs: seq<T>, f: T -> int): int
  {
    if xs == [] then 0 else f(xs[0]) + SumOf(xs[1..], f)
  }

  lemma {:induction false} SumOfConcat<T>(xs: seq<T>, ys: seq<T>, f: T -> int)
    ensures SumOf(xs + ys, f) == SumOf(xs, f) + SumOf(ys, f)
  {
    if xs != [] {
      assert (xs + ys)[1..] == xs[1..] + ys;
      SumOfConcat(xs[1..], ys, f);
    } else {
      assert xs + ys == ys;
    }
  }

  /** The sum does not depend on the order of the elements. */
  lemma {:induction false} SumOfPermutation<T>(xs: seq<T>, ys: seq<T>, f: T -> int)
    requires multiset(xs) == multiset(ys)
    ensures SumOf(xs, f) == SumOf(ys, f)
  {
    if xs == [] {
      assert |ys| == |multiset(ys)| == 0;
    } else {
      var x := xs[0];
      assert x in multiset(ys);
      var j :| 0 <= j < |ys| && ys[j] == x;
      var rest := ys[..j] + ys[j + 1..];
      assert ys == ys[..j] + [x] + ys[j + 1..];
      SumOfConcat(ys[..j] + [x], ys[j + 1..], f);
      SumOfConcat(ys[..j], [x], f);
      SumOfConcat(ys[..j], ys[j + 1..], f);
      assert SumOf([x], f) == f(x) by {
        assert [x][1..] == [];
      }
      assert xs == [x] + xs[1..];
      assert multiset(xs) == multiset{x} + multiset(xs[1..]);
      assert multiset(ys) == multiset(ys[..j]) + multiset{x} + multiset(ys[j + 1..]);
      assert multiset(rest) == multiset(ys[..j]) + multiset(ys[j + 1..]);
      assert multiset(xs[1..]) == multiset(xs) - multiset{x};
      assert multiset(rest) == multiset(ys) - multiset{x};
      SumOfPermutation(xs[1..], rest, f);
    }
  }

  /** A sum of terms in [lo, hi] lies in [lo * n, hi * n]. */
  lemma {:induction false} SumOfBounds<T>(xs: seq<T>, f: T -> int, lo: int, hi: int)
    requires forall i :: 0 <= i < |xs| ==> lo <= f(xs[i]) <= hi
    ensures lo * |xs| <= SumOf(xs, f) <= hi * |xs|
  {
    if xs != [] {
      SumOfBounds(xs[1..], f, lo, hi);
      assert lo * |xs| == lo + lo * |xs[1..]|;
      assert hi * |xs| == hi + hi * |xs[1..]|;
    }
  }

  /** The rounded mean of n terms in [lo, hi] lies in [lo, hi]. */
  lemma RoundedMeanBounds(sum: int, n: int, lo: int, hi: int)
    requires n > 0 && lo * n <= sum <= hi * n
    ensures lo <= Round(sum as real / n as real) <= hi
  {
    var mean := sum as real / n as real;
    assert mean * n as real == sum as real;
    assert lo as real * n as real <= sum as real;
    assert lo as real <= mean;
    RoundMonotone(lo as real, mean);
    RoundOfInteger(lo);
    RoundedMeanAtMost(sum, n, hi);
  }

  /** The rounded mean of n terms adding up to at most hi * n is at most hi. */
  lemma RoundedMeanAtMost(sum: int, n: int, hi: int)
    requires n > 0 && sum <= hi * n
    ensures Round(sum as real / n as real) <= hi
  {
    var mean := sum as real / n as real;
    assert mean * n as real == sum as real;
    assert sum as real <= hi as real * n as real;
    assert mean <= hi as real;
    RoundMonotone(mean, hi as real);
    RoundOfInteger(hi);
  }
}
