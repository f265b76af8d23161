/**
 * Real arithmetic shared by the inventory and time-series models: the square
 * root that `Math.sqrt` stands for, absolute values, and the sums, means,
 * squared deviations, minimum and maximum that the source computes with
 * `reduce`, `Math.min(...data)` and `Math.max(...data)`.
 */
module RealMath {

  /**
   * `sqrt` is an exact square root on the non-negative reals. No real square
   * root can be constructed in Dafny, so every operation of the model that calls
   * `Math.sqrt` receives it as a parameter that satisfies this predicate.
   */
  ghost predicate IsSqrt(sqrt: real -> real)
  {
    forall x: real {:trigger sqrt(x)} :: 0.0 <= x ==> 0.0 <= sqrt(x) && sqrt(x) * sqrt(x) == x
  }

  /** Squaring is strictly increasing on the non-negative reals. */
  lemma SquareLess(a: real, b: real)
    requires 0.0 <= a < b
    ensures a * a < b * b
  {
    var d := b - a;
    assert b * b == a * a + 2.0 * a * d + d * d;
    assert 0.0 < d * d;
    assert 0.0 <= a * d;
  }

  /** A square of a non-negative number determines the number. */
  lemma {:induction false} SquareInjective(a: real, b: real)
    requires 0.0 <= a && 0.0 <= b && a * a == b * b
    ensures a == b
  {
    if a < b {
      SquareLess(a, b);
    } else if b < a {
      SquareLess(b, a);
    }
  }

  /** Only zero squares to zero. */
  lemma SquareZero(x: real)
    requires x * x == 0.0
    ensures x == 0.0
  {
    if x < 0.0 {
      SquareLess(0.0, -x);
    } else if 0.0 < x {
      SquareLess(0.0, x);
    }
  }

  lemma SqrtOfSquare(sqrt: real -> real, a: real)
    requires IsSqrt(sqrt) && 0.0 <= a
    ensures sqrt(a * a) == a
  {
    assert 0.0 <= a * a;
    SquareInjective(sqrt(a * a), a);
  }

  lemma SqrtOfZero(sqrt: real -> real)
    requires IsSqrt(sqrt)
    ensures sqrt(0.0) == 0.0
  {
    SqrtOfSquare(sqrt, 0.0);
  }

  lemma SqrtOfOne(sqrt: real -> real)
    requires IsSqrt(sqrt)
    ensures sqrt(1.0) == 1.0
  {
    SqrtOfSquare(sqrt, 1.0);
  }

  /** `Math.abs`. */
  function Abs(x: real): (r: real)
    ensures 0.0 <= r && (r == x || r == -x)
  {
    if x < 0.0 then -x else x
  }

  function Min(x: real, y: real): real { if x <= y then x else y }

  function Max(x: real, y: real): real { if x <= y then y else x }

  /** A square is never negative, and it is positive unless its root is zero. */
  lemma SquareSign(x: real)
    ensures 0.0 <= x * x
    ensures x != 0.0 ==> 0.0 < x * x
  {
    if x < 0.0 {
      assert x * x == (-x) * (-x);
    }
  }

  /** Dividing bounds `n * lo <= t <= n * hi` by a positive `n`. */
  lemma DivideBounds(n: real, lo: real, t: real, hi: real)
    requires 0.0 < n && n * lo <= t <= n * hi
    ensures lo <= t / n <= hi
  {
    var q := t / n;
    assert q * n == t;
  }

  /**
   * The quotient x / y as a function term: two quotients of equal arguments are
   * then equal by congruence, which the solver does not see for `/` itself.
   */
  function Ratio(x: real, y: real): real
    requires y != 0.0
  {
    x / y
  }

  /** A multiple of a positive number divided by that number gives back the factor. */
  lemma QuotientOfMultiple(num: real, den: real, b: real)
    requires 0.0 < den && num == b * den
    ensures num / den == b
  {
    DivideBounds(den, b, num, b);
  }

  /** Dividing n·a + b·s by a positive n gives a + b·(s / n). */
  lemma AffineQuotient(a: real, b: real, s: real, n: real)
    requires 0.0 < n
    ensures (n * a + b * s) / n == a + b * (s / n)
  {
    var q := s / n;
    assert q * n == s;
    assert n * a + b * s == (a + b * q) * n;
    QuotientOfMultiple(n * a + b * s, n, a + b * q);
  }

  /** Dividing by a positive number keeps the order. */
  lemma DivideMonotone(x: real, y: real, h: real)
    requires x <= y && 0.0 < h
    ensures x / h <= y / h
  {
    var a, b := x / h, y / h;
    assert a * h == x;
    assert b * h == y;
    assert (b - a) * h == y - x;
  }

  /** Left-to-right sum, the order of `reduce((sum, val) => sum + val, 0)`. */
  function Sum(s: seq<real>): real
  {
    if |s| == 0 then 0.0 else Sum(s[..|s| - 1]) + s[|s| - 1]
  }

  /** Mean of a non-empty sequence. */
  function Mean(s: seq<real>): real
    requires |s| > 0
  {
    Sum(s) / |s| as real
  }

  /** Sum of squared deviations from `m`, left to right. */
  function SqDevSum(s: seq<real>, m: real): (r: real)
    ensures 0.0 <= r
  {
    if |s| == 0 then 0.0
    else
      SquareSign(s[|s| - 1] - m);
      SqDevSum(s[..|s| - 1], m) + (s[|s| - 1] - m) * (s[|s| - 1] - m)
  }

  /** `Math.min(...s)` on a non-empty sequence. */
  function MinOf(s: seq<real>): (r: real)
    requires |s| > 0
    ensures r in s
    ensures forall i :: 0 <= i < |s| ==> r <= s[i]
  {
    if |s| == 1 then s[0] else Min(MinOf(s[..|s| - 1]), s[|s| - 1])
  }

  /** `Math.max(...s)` on a non-empty sequence. */
  function MaxOf(s: seq<real>): (r: real)
    requires |s| > 0
    ensures r in s
    ensures forall i :: 0 <= i < |s| ==> s[i] <= r
  {
    if |s| == 1 then s[0] else Max(MaxOf(s[..|s| - 1]), s[|s| - 1])
  }

  /** A sum of `n` terms, each between `lo` and `hi`, lies between `n * lo` and `n * hi`. */
  lemma {:induction false} SumBetween(s: seq<real>, lo: real, hi: real)
    requires forall i :: 0 <= i < |s| ==> lo <= s[i] <= hi
    ensures |s| as real * lo <= Sum(s) <= |s| as real * hi
  {
    if |s| > 0 {
      SumBetween(s[..|s| - 1], lo, hi);
    }
  }

  /** The mean of elements that all lie between `lo` and `hi` lies between them too. */
  lemma MeanBetween(s: seq<real>, lo: real, hi: real)
    requires |s| > 0
    requires forall i :: 0 <= i < |s| ==> lo <= s[i] <= hi
    ensures lo <= Mean(s) <= hi
  {
    SumBetween(s, lo, hi);
    DivideBounds(|s| as real, lo, Sum(s), hi);
  }

  /** The mean of a non-empty sequence lies between its minimum and its maximum. */
  lemma MeanBetweenMinMax(s: seq<real>)
    requires |s| > 0
    ensures MinOf(s) <= Mean(s) <= MaxOf(s)
  {
    MeanBetween(s, MinOf(s), MaxOf(s));
  }

  /** The sum of squared deviations is zero exactly when every element equals `m`. */
  lemma {:induction false} SqDevSumZeroIff(s: seq<real>, m: real)
    ensures SqDevSum(s, m) == 0.0 <==> forall i :: 0 <= i < |s| ==> s[i] == m
  {
    if |s| > 0 {
      var init, last := s[..|s| - 1], s[|s| - 1];
      SqDevSumZeroIff(init, m);
      SquareSign(last - m);
      assert SqDevSum(s, m) == SqDevSum(init, m) + (last - m) * (last - m);
      assert forall i :: 0 <= i < |s| - 1 ==> s[i] == init[i];
      if SqDevSum(s, m) == 0.0 {
        SquareZero(last - m);
      }
    }
  }

  /** Sum distributes over element-wise subtraction. */
  lemma {:induction false} SumOfDifferences(a: seq<real>, b: seq<real>, d: seq<real>)
    requires |a| == |b| == |d|
    requires forall i :: 0 <= i < |d| ==> d[i] == a[i] - b[i]
    ensures Sum(d) == Sum(a) - Sum(b)
  {
    if |d| > 0 {
      var k := |d| - 1;
      SumOfDifferences(a[..k], b[..k], d[..k]);
    }
  }
}
