/** Exact-arithmetic counterparts of `sum`, `np.mean` and `np.var`, and the
    transcendental functions the detectors call, taken as parameters. */
module Stats {

  /** `math.sqrt`, `math.log(x, 2)`, `2 ** x`, `math.log` and `math.exp`; the
      model computes on exact reals and treats these as given functions. */
  datatype Numerics = Numerics(
    sqrt: real -> real,
    log2: real -> real,
    pow2: real -> real,
    ln: real -> real,
    exp: real -> real)

  /** The one fact about the square root the detectors rely on. */
  ghost predicate SqrtNonNegative(num: Numerics)
  {
    forall x :: 0.0 <= x ==> 0.0 <= num.sqrt(x)
  }

  /** The one fact about `2 ** x` the perplexity bound relies on. */
  ghost predicate Pow2Positive(num: Numerics)
  {
    forall x :: 0.0 < num.pow2(x)
  }

  /** `math.sqrt` as an exact square root of the non-negative reals. */
  ghost predicate SqrtExact(num: Numerics)
  {
    forall x :: 0.0 <= x ==> 0.0 <= num.sqrt(x) && num.sqrt(x) * num.sqrt(x) == x
  }

  lemma SquareMonotone(x: real, y: real)
    requires 0.0 <= x && 0.0 <= y
    ensures x < y <==> x * x < y * y
  {
    assert y * y - x * x == (y - x) * (y + x);
    if x < y {
      ProductPositive(y - x, y + x);
    } else if y < x {
      ProductPositive(x - y, x + y);
      assert x * x - y * y == (x - y) * (x + y);
    }
  }

  lemma ProductPositive(a: real, b: real)
    requires 0.0 < a && 0.0 < b
    ensures 0.0 < a * b
  {
  }

  /** A ratio s / m with s the square root of v lies below b exactly when v
      lies below (b·m)². */
  lemma RootRatioBelow(s: real, v: real, m: real, b: real)
    requires 0.0 <= s && s * s == v && 0.0 < m && 0.0 < b
    ensures s / m < b <==> v < (b * m) * (b * m)
  {
    var q := s / m;
    assert q * m == s;
    assert q < b <==> q * m < b * m;
    SquareMonotone(s, b * m);
  }

  function Sum(xs: seq<real>): real
  {
    if xs == [] then 0.0 else xs[0] + Sum(xs[1..])
  }

  /** `np.mean`. */
  function Mean(xs: seq<real>): real
    requires |xs| > 0
  {
    Sum(xs) / |xs| as real
  }

  function SquaredDeviations(xs: seq<real>, m: real): (r: seq<real>)
    ensures |r| == |xs|
    ensures forall i :: 0 <= i < |r| ==> r[i] >= 0.0
  {
    var r := seq(|xs|, i requires 0 <= i < |xs| => (xs[i] - m) * (xs[i] - m));
    assert forall i :: 0 <= i < |r| ==> r[i] >= 0.0 by {
      forall i | 0 <= i < |r| ensures r[i] >= 0.0 {
        SquareNonNegative(xs[i] - m);
      }
    }
    r
  }

  lemma SquareNonNegative(x: real)
    ensures x * x >= 0.0
  {
    if x < 0.0 {
      assert x * x == (-x) * (-x);
    }
  }

  /** `np.var`: the population variance (divides by n, not n - 1). */
  function PopVariance(xs: seq<real>): (v: real)
    requires |xs| > 0
    ensures v >= 0.0
  {
    var d := SquaredDeviations(xs, Mean(xs));
    MeanBounds(d, 0.0, 0.0, false);
    Mean(d)
  }

  /** A series whose terms are all equal has that value as its mean and no
      variance. */
  lemma ConstantSeries(xs: seq<real>, c: real)
    requires |xs| > 0
    requires forall i :: 0 <= i < |xs| ==> xs[i] == c
    ensures Mean(xs) == c
    ensures PopVariance(xs) == 0.0
  {
    MeanBounds(xs, c, c, true);
    var d := SquaredDeviations(xs, c);
    MeanBounds(d, 0.0, 0.0, true);
  }

  /** The quotient is the only number whose product with the divisor gives
      back the dividend. */
  lemma QuotientUnique(x: real, y: real, z: real)
    requires 0.0 < y && z * y == x
    ensures z == x / y
  {
    var w := x / y;
    assert w * y == x;
    if z < w {
      ProductPositive(w - z, y);
    } else if w < z {
      ProductPositive(z - w, y);
    }
  }

  /** Dividing `v` by a positive `m` twice gives the one number `b` with
      `b·m·m == v`, that is `v / m ** 2`. */
  lemma OverSquare(v: real, m: real, b: real)
    requires 0.0 < m
    ensures v / m / m == b <==> b * m * m == v
  {
    var q := v / m / m;
    assert q * m == v / m;
    assert q * m * m == v;
    if b * m * m == v {
      QuotientUnique(v / m, m, b);
    }
  }

  /** A non-negative quantity over a positive one is non-negative. */
  lemma QuotientNonNegative(a: real, b: real)
    requires 0.0 <= a && 0.0 < b
    ensures 0.0 <= a / b
  {
    assert a / b * b == a;
  }

  function AsReals(ns: seq<nat>): (r: seq<real>)
    ensures |r| == |ns|
  {
    seq(|ns|, i requires 0 <= i < |ns| => ns[i] as real)
  }

  /** A sum of n terms, each between `lo` and `hi`, lies between n·lo and n·hi. */
  lemma {:induction false} SumLowerBound(xs: seq<real>, lo: real)
    requires forall i :: 0 <= i < |xs| ==> lo <= xs[i]
    ensures lo * |xs| as real <= Sum(xs)
  {
    if xs != [] {
      SumLowerBound(xs[1..], lo);
    }
  }

  lemma {:induction false} SumUpperBound(xs: seq<real>, hi: real)
    requires forall i :: 0 <= i < |xs| ==> xs[i] <= hi
    ensures Sum(xs) <= hi * |xs| as real
  {
    if xs != [] {
      SumUpperBound(xs[1..], hi);
    }
  }

  /** A mean lies between a lower bound of its terms and (when `bounded`) an
      upper bound of them. */
  lemma MeanBounds(xs: seq<real>, lo: real, hi: real, bounded: bool)
    requires |xs| > 0
    requires forall i :: 0 <= i < |xs| ==> lo <= xs[i]
    requires bounded ==> forall i :: 0 <= i < |xs| ==> xs[i] <= hi
    ensures lo <= Mean(xs)
    ensures bounded ==> Mean(xs) <= hi
  {
    var n := |xs| as real;
    SumLowerBound(xs, lo);
    assert lo <= Sum(xs) / n by {
      assert lo * n / n == lo;
    }
    if bounded {
      SumUpperBound(xs, hi);
      assert hi * n / n == hi;
    }
  }
}
