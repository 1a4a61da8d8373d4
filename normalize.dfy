/**
 Query normalisation (`mnorm` and `znorm` in tsalign/__init__.py): mean-centring,
 and z-normalisation with the divisor clamped from below at `epsilon`.

 `np.std` is a square root, which `real` arithmetic cannot compute; the standard
 deviation is therefore passed in as `std`, and `IsPopulationStd` states what it
 must be: the non-negative number whose square is the population variance
 (`ddof=0`).
 */
module Normalize {
  import opened Series

  /** Default clamp of the z-normalisation divisor, `1e-6`. */
  const DefaultEpsilon: real := 0.000001

  /** `np.mean`. */
  function Mean(x: seq<real>): real
    requires |x| > 0
  {
    Sum(x) / (|x| as real)
  }

  /** The mean times the number of entries gives back their sum. */
  lemma MeanTimesLength(x: seq<real>)
    requires |x| > 0
    ensures Mean(x) * (|x| as real) == Sum(x)
  {
    CancelCount(Sum(x), |x|);
  }

  /** `mnorm`: subtracts the mean from every entry, so the result sums to zero. */
  function MNorm(x: seq<real>): (r: seq<real>)
    requires |x| > 0
    ensures |r| == |x|
    ensures forall i :: 0 <= i < |x| ==> r[i] == x[i] - Mean(x)
    ensures Sum(r) == 0.0
  {
    SumShift(x, -Mean(x));
    CancelCount(Sum(x), |x|);
    Shift(x, -Mean(x))
  }

  /** `np.var(x, ddof=0)`: the mean squared deviation from the mean. */
  function PopulationVariance(x: seq<real>): (v: real)
    requires |x| > 0
    ensures v >= 0.0
  {
    SumNonNegative(Squares(MNorm(x)));
    Sum(Squares(MNorm(x))) / (|x| as real)
  }

  /** `std` is `np.std(x, ddof=0)`: non-negative, and its square is the population variance. */
  predicate IsPopulationStd(x: seq<real>, std: real)
    requires |x| > 0
  {
    std >= 0.0 && std * std == PopulationVariance(x)
  }

  /** At most one number is the population standard deviation of `x`. */
  lemma PopulationStdUnique(x: seq<real>, a: real, b: real)
    requires |x| > 0 && IsPopulationStd(x, a) && IsPopulationStd(x, b)
    ensures a == b
  {
    SquareRootUnique(a, b);
  }

  /** `max(std, epsilon)`: the divisor `znorm` uses. */
  function Divisor(std: real, epsilon: real): (d: real)
    ensures d >= std && d >= epsilon
    ensures d == std || d == epsilon
  {
    if std >= epsilon then std else epsilon
  }

  /**
   `znorm`: the mean-centred series divided by `max(std, epsilon)`. The divisor is
   at least `epsilon > 0`, so the division is always defined.
   */
  function ZNorm(x: seq<real>, epsilon: real, std: real): (r: seq<real>)
    requires |x| > 0 && epsilon > 0.0
    requires IsPopulationStd(x, std)
    ensures |r| == |x|
    ensures Divisor(std, epsilon) >= epsilon > 0.0
    ensures forall i :: 0 <= i < |x| ==> r[i] == MNorm(x)[i] / Divisor(std, epsilon)
  {
    var m := MNorm(x);
    seq(|x|, i requires 0 <= i < |x| => m[i] / Divisor(std, epsilon))
  }

  // ---------------------------------------------------------------------
  // Properties of the normalisations

  /** Below the clamp, `znorm` is `mnorm` divided by `epsilon`. */
  lemma ZNormClamped(x: seq<real>, epsilon: real, std: real)
    requires |x| > 0 && epsilon > 0.0 && IsPopulationStd(x, std)
    requires std < epsilon
    ensures forall i :: 0 <= i < |x| ==> ZNorm(x, epsilon, std)[i] == MNorm(x)[i] / epsilon
  {
  }

  /** The z-normalised series is the mean-centred one scaled by `1 / max(std, epsilon)`. */
  lemma ZNormIsScaledMNorm(x: seq<real>, epsilon: real, std: real)
    requires |x| > 0 && epsilon > 0.0 && IsPopulationStd(x, std)
    ensures ZNorm(x, epsilon, std) == Scale(MNorm(x), 1.0 / Divisor(std, epsilon))
  {
    var z, m, d := ZNorm(x, epsilon, std), MNorm(x), Divisor(std, epsilon);
    var scaled := Scale(m, 1.0 / d);
    forall i | 0 <= i < |m| ensures scaled[i] == z[i] {
      DivIsScale(m[i], d);
    }
  }

  /** The z-normalised series sums to zero (its mean is 0). */
  lemma ZNormSumsToZero(x: seq<real>, epsilon: real, std: real)
    requires |x| > 0 && epsilon > 0.0 && IsPopulationStd(x, std)
    ensures Sum(ZNorm(x, epsilon, std)) == 0.0
  {
    ZNormIsScaledMNorm(x, epsilon, std);
    SumScale(MNorm(x), 1.0 / Divisor(std, epsilon));
  }

  /** A series that sums to zero is its own mean-centred form. */
  lemma CentredIsFixed(z: seq<real>)
    requires |z| > 0 && Sum(z) == 0.0
    ensures MNorm(z) == z
  {
    assert Mean(z) == 0.0;
    var m := MNorm(z);
    forall i | 0 <= i < |z| ensures m[i] == z[i] {
    }
  }

  /**
   Above the clamp, the squares of the z-normalised series sum to `|x|`: the
   squares of the mean-centred series, divided by `std² = variance`.
   */
  lemma ZNormSquaresSum(x: seq<real>, epsilon: real, std: real)
    requires |x| > 0 && epsilon > 0.0 && IsPopulationStd(x, std)
    requires std >= epsilon
    ensures Sum(Squares(ZNorm(x, epsilon, std))) == |x| as real
  {
    var z, m, v := ZNorm(x, epsilon, std), MNorm(x), PopulationVariance(x);
    assert Divisor(std, epsilon) == std;
    SquaresOfQuotients(z, m, std, v);
    VariancePositive(x, std);
    var sm, sz, nr := Sum(Squares(m)), Sum(Squares(z)), |x| as real;
    CancelCount(sm, |x|);
    calc {
      v * sz;
      == sm;
      == nr * (sm / nr);
      == nr * v;
      == v * nr;
    }
    CancelFactor(v, sz, nr);
  }

  /** Dividing every entry by `d > 0` divides the sum of squares by `c = d²`. */
  lemma SquaresOfQuotients(z: seq<real>, m: seq<real>, d: real, c: real)
    requires |z| == |m| && d > 0.0 && c == d * d
    requires forall i :: 0 <= i < |z| ==> z[i] == m[i] / d
    ensures Sum(Squares(m)) == c * Sum(Squares(z))
  {
    var scaled, sm := Scale(Squares(z), c), Squares(m);
    forall i | 0 <= i < |z| ensures scaled[i] == sm[i] {
      ScaledSquare(m[i], d, c);
    }
    assert scaled == sm;
    SumScale(Squares(z), c);
  }

  /** A positive standard deviation means a positive variance. */
  lemma VariancePositive(x: seq<real>, std: real)
    requires |x| > 0 && IsPopulationStd(x, std) && std > 0.0
    ensures PopulationVariance(x) > 0.0
  {
    calc {
      PopulationVariance(x);
      == std * std;
      > { MulPositive(std, std); } 0.0;
    }
  }

  /**
   Above the clamp, the z-normalised series has population variance exactly 1
   (and, by ZNormSumsToZero, mean 0).
   */
  lemma ZNormUnitVariance(x: seq<real>, epsilon: real, std: real)
    requires |x| > 0 && epsilon > 0.0 && IsPopulationStd(x, std)
    requires std >= epsilon
    ensures PopulationVariance(ZNorm(x, epsilon, std)) == 1.0
  {
    var z := ZNorm(x, epsilon, std);
    ZNormSumsToZero(x, epsilon, std);
    CentredIsFixed(z);
    ZNormSquaresSum(x, epsilon, std);
    CancelCount(1.0, |x|);
  }

  /** Shifting a series by a constant changes neither its mean-centred form nor its variance. */
  lemma MNormShiftInvariant(x: seq<real>, c: real)
    requires |x| > 0
    ensures MNorm(Shift(x, c)) == MNorm(x)
    ensures PopulationVariance(Shift(x, c)) == PopulationVariance(x)
  {
    var y := Shift(x, c);
    SumShift(x, c);
    MeanOfShift(Sum(x), c, |x|);
    assert Mean(y) == Mean(x) + c;
    var my, mx := MNorm(y), MNorm(x);
    forall i | 0 <= i < |x| ensures my[i] == mx[i] {
    }
  }

  // ---------------------------------------------------------------------
  // Arithmetic helpers

  lemma CancelCount(s: real, n: nat)
    requires n > 0
    ensures (n as real) * (s / (n as real)) == s
    ensures (n as real) / (n as real) == 1.0
  {
  }

  lemma MeanOfShift(s: real, c: real, n: nat)
    requires n > 0
    ensures (s + (n as real) * c) / (n as real) == s / (n as real) + c
  {
  }

  lemma DivIsScale(a: real, d: real)
    requires d > 0.0
    ensures (1.0 / d) * a == a / d
  {
  }

  lemma ScaledSquare(a: real, d: real, c: real)
    requires d > 0.0 && c == d * d
    ensures c * ((a / d) * (a / d)) == a * a
  {
    assert (a / d) * d == a;
    calc {
      c * ((a / d) * (a / d));
      == (d * d) * ((a / d) * (a / d));
      == ((a / d) * d) * ((a / d) * d);
      == a * a;
    }
  }

  lemma SquareRootUnique(a: real, b: real)
    requires a >= 0.0 && b >= 0.0 && a * a == b * b
    ensures a == b
  {
    assert (a + b) * (a - b) == a * a - b * b;
    if a + b > 0.0 {
      assert (a + b) * 0.0 == 0.0;
      CancelFactor(a + b, a - b, 0.0);
    }
  }

  lemma CancelFactor(c: real, x: real, y: real)
    requires c > 0.0 && c * x == c * y
    ensures x == y
  {
  }
}
