/** The JavaScript `number` operations the hearing-test core relies on, over exact reals.
    Floating-point rounding error is not modelled: `real` stands for `number`. */
module RealMath {

  /** `Math.round`: the nearest integer, with halves rounded towards +infinity. */
  function Round(x: real): (r: int)
    ensures r as real - 0.5 <= x < r as real + 0.5
  {
    (x + 0.5).Floor
  }

  /** `Math.min` on two numbers. */
  function Min(a: real, b: real): real {
    if a <= b then a else b
  }

  /** `Math.max` on two numbers. */
  function Max(a: real, b: real): real {
    if a >= b then a else b
  }

  /** `Math.max(0, Math.min(1, v))`: the value forced into the unit interval. */
  function Clamp01(v: real): (c: real)
    ensures 0.0 <= c <= 1.0
    ensures 0.0 <= v <= 1.0 ==> c == v
    ensures v < 0.0 ==> c == 0.0
    ensures v > 1.0 ==> c == 1.0
  {
    Max(0.0, Min(1.0, v))
  }

  /** Every element lies in [0, 1]. */
  predicate InUnit(xs: seq<real>) {
    forall i :: 0 <= i < |xs| ==> 0.0 <= xs[i] <= 1.0
  }

  /** Two equally long sequences, the first pointwise no larger than the second. */
  predicate PointwiseLe(xs: seq<real>, ys: seq<real>) {
    |xs| == |ys| && forall i :: 0 <= i < |xs| ==> xs[i] <= ys[i]
  }

  /** The sum `xs.reduce((a, b) => a + b, 0)` accumulates, left to right. */
  function Sum(xs: seq<real>): (s: real)
    ensures |xs| == 0 ==> s == 0.0
    ensures |xs| == 1 ==> s == xs[0]
  {
    if |xs| == 0 then 0.0
    else
      assert |xs| == 1 ==> xs[..0] == [];
      Sum(xs[..|xs| - 1]) + xs[|xs| - 1]
  }

  /** Arithmetic mean; the source divides by the length, so an empty list has none. */
  function Mean(xs: seq<real>): (m: real)
    requires |xs| > 0
    ensures InUnit(xs) ==> 0.0 <= m <= 1.0
  {
    var n := |xs| as real;
    var m := Sum(xs) / n;
    if InUnit(xs) then SumBounds(xs); assert m * n == Sum(xs); m else m
  }

  /** Rounding is monotone. */
  lemma RoundMonotone(x: real, y: real)
    requires x <= y
    ensures Round(x) <= Round(y)
  {
  }

  /** Rounding an integer gives it back. */
  lemma RoundOfInt(n: int)
    ensures Round(n as real) == n
  {
  }

  /** Rounding a value of [0, 100] stays within [0, 100]. */
  lemma RoundPercent(x: real)
    requires 0.0 <= x <= 100.0
    ensures 0 <= Round(x) <= 100
  {
  }

  /** A sum of values in [0, 1] lies between 0 and the number of values. */
  lemma {:induction false} SumBounds(xs: seq<real>)
    requires InUnit(xs)
    ensures 0.0 <= Sum(xs) <= |xs| as real
  {
    if |xs| > 0 {
      var init := xs[..|xs| - 1];
      assert forall i :: 0 <= i < |init| ==> init[i] == xs[i];
      SumBounds(init);
    }
  }

  /** Summing a concatenation sums the parts. */
  lemma {:induction false} SumAppend(a: seq<real>, b: seq<real>)
    ensures Sum(a + b) == Sum(a) + Sum(b)
  {
    if |b| == 0 {
      assert a + b == a;
    } else {
      var init := b[..|b| - 1];
      assert (a + b)[..|a + b| - 1] == a + init;
      SumAppend(a, init);
    }
  }

  /** The sum is monotone in every summand. */
  lemma {:induction false} SumMonotone(xs: seq<real>, ys: seq<real>)
    requires PointwiseLe(xs, ys)
    ensures Sum(xs) <= Sum(ys)
  {
    if |xs| > 0 {
      var n := |xs| - 1;
      assert PointwiseLe(xs[..n], ys[..n]) by {
        assert forall i :: 0 <= i < n ==> xs[..n][i] == xs[i] && ys[..n][i] == ys[i];
      }
      SumMonotone(xs[..n], ys[..n]);
    }
  }

  /** The mean is monotone in every element, for lists of one length. */
  lemma MeanMonotone(xs: seq<real>, ys: seq<real>)
    requires |xs| > 0 && PointwiseLe(xs, ys)
    ensures Mean(xs) <= Mean(ys)
  {
    SumMonotone(xs, ys);
    var n := |xs| as real;
    assert Sum(xs) / n <= Sum(ys) / n;
  }

  /** The mean of two equally long lists taken together is the mean of their means. */
  lemma MeanOfConcat(a: seq<real>, b: seq<real>)
    requires |a| == |b| > 0
    ensures Mean(a + b) == (Mean(a) + Mean(b)) / 2.0
  {
    SumAppend(a, b);
    var n := |a| as real;
    assert |a + b| as real == 2.0 * n;
    calc {
      Mean(a + b);
      (Sum(a) + Sum(b)) / (2.0 * n);
      (Sum(a) / n + Sum(b) / n) / 2.0;
    }
  }
}
