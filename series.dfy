/**
 The numpy reductions and elementwise operations the alignment engine is built
 from, over exact `real` arithmetic: `np.sum`, `np.square`, `np.cumsum`,
 `np.argmin`, the reversal `Q[::-1]`, and the dot product / squared distance
 that describe what the engine is meant to compute.
 */
module Series {

  /** `np.sum`: the sum of all entries (0 for the empty sequence). */
  function Sum(s: seq<real>): real
  {
    if |s| == 0 then 0.0 else Sum(s[..|s| - 1]) + s[|s| - 1]
  }

  /** `np.square`: every entry squared. */
  function Squares(s: seq<real>): (r: seq<real>)
    ensures |r| == |s|
    ensures forall i :: 0 <= i < |s| ==> r[i] == s[i] * s[i] && r[i] >= 0.0
  {
    seq(|s|, i requires 0 <= i < |s| => s[i] * s[i])
  }

  /** Elementwise product of two equally long sequences. */
  function Products(a: seq<real>, b: seq<real>): (r: seq<real>)
    requires |a| == |b|
    ensures |r| == |a|
    ensures forall i :: 0 <= i < |a| ==> r[i] == a[i] * b[i]
  {
    seq(|a|, i requires 0 <= i < |a| => a[i] * b[i])
  }

  /** Elementwise difference `a − b` of two equally long sequences. */
  function Diffs(a: seq<real>, b: seq<real>): (r: seq<real>)
    requires |a| == |b|
    ensures |r| == |a|
    ensures forall i :: 0 <= i < |a| ==> r[i] == a[i] - b[i]
  {
    seq(|a|, i requires 0 <= i < |a| => a[i] - b[i])
  }

  /** The dot product `Σ_j a[j]·b[j]`. */
  function Dot(a: seq<real>, b: seq<real>): real
    requires |a| == |b|
  {
    Sum(Products(a, b))
  }

  /** The squared Euclidean distance `Σ_j (a[j] − b[j])²`. */
  function SquaredDistance(a: seq<real>, b: seq<real>): real
    requires |a| == |b|
  {
    Sum(Squares(Diffs(a, b)))
  }

  /** `s[::-1]`. */
  function Reverse(s: seq<real>): (r: seq<real>)
    ensures |r| == |s|
    ensures forall i :: 0 <= i < |s| ==> r[i] == s[|s| - 1 - i]
  {
    seq(|s|, i requires 0 <= i < |s| => s[|s| - 1 - i])
  }

  /** `np.cumsum`: entry `k` is the total of the first `k + 1` entries. */
  function CumSum(s: seq<real>): (r: seq<real>)
    ensures |r| == |s|
    ensures forall k :: 0 <= k < |s| ==> r[k] == Sum(s[..k + 1])
  {
    seq(|s|, k requires 0 <= k < |s| => Sum(s[..k + 1]))
  }

  /** The running total just before index `k` is the sum of the first `k` entries. */
  lemma CumSumAt(s: seq<real>, k: nat)
    requires 1 <= k <= |s|
    ensures CumSum(s)[k - 1] == Sum(s[..k])
  {
    assert s[..(k - 1) + 1] == s[..k];
  }

  /**
   The running totals start at the first entry and each adds the next entry to
   the one before it.
   */
  lemma CumSumRecurrence(s: seq<real>)
    ensures |s| > 0 ==> CumSum(s)[0] == s[0]
    ensures forall k :: 1 <= k < |s| ==> CumSum(s)[k] == CumSum(s)[k - 1] + s[k]
  {
    if |s| > 0 {
      var h := s[..1];
      assert h[..0] == [] && h[0] == s[0];
      assert Sum(h) == s[0];
      assert CumSum(s)[0] == Sum(h);
    }
    forall k | 1 <= k < |s| ensures CumSum(s)[k] == CumSum(s)[k - 1] + s[k] {
      assert s[..k + 1][..k] == s[..k];
      assert s[..(k - 1) + 1] == s[..k];
    }
  }

  /** `k` is where the minimum of `s` first occurs. */
  predicate IsFirstMinimum(s: seq<real>, k: int)
  {
    && 0 <= k < |s|
    && (forall j :: 0 <= j < |s| ==> s[k] <= s[j])
    && (forall j :: 0 <= j < k ==> s[k] < s[j])
  }

  /** `np.argmin`: the first index holding the smallest value. */
  function ArgMin(s: seq<real>): (k: nat)
    requires |s| > 0
    ensures IsFirstMinimum(s, k)
  {
    if |s| == 1 then 0
    else
      var k := ArgMin(s[..|s| - 1]);
      if s[|s| - 1] < s[k] then |s| - 1 else k
  }

  // ---------------------------------------------------------------------
  // Algebra of Sum

  lemma {:induction false} SumConcat(a: seq<real>, b: seq<real>)
    ensures Sum(a + b) == Sum(a) + Sum(b)
  {
    if |b| > 0 {
      SumConcat(a, b[..|b| - 1]);
      assert (a + b)[..|a + b| - 1] == a + b[..|b| - 1];
    } else {
      assert a + b == a;
    }
  }

  /** A slice sums to the difference of two prefix sums. */
  lemma SumSlice(s: seq<real>, i: nat, j: nat)
    requires i <= j <= |s|
    ensures Sum(s[i..j]) == Sum(s[..j]) - Sum(s[..i])
  {
    assert s[..j] == s[..i] + s[i..j];
    SumConcat(s[..i], s[i..j]);
  }

  lemma {:induction false} SumReverse(s: seq<real>)
    ensures Sum(Reverse(s)) == Sum(s)
  {
    if |s| > 0 {
      var n := |s|;
      SumReverse(s[..n - 1]);
      assert Reverse(s) == [s[n - 1]] + Reverse(s[..n - 1]);
      SumConcat([s[n - 1]], Reverse(s[..n - 1]));
      assert Sum([s[n - 1]]) == s[n - 1] by {
        assert [s[n - 1]][..0] == [];
      }
    }
  }

  /** `s + c`, numpy's broadcast of a scalar over a sequence. */
  function Shift(s: seq<real>, c: real): (r: seq<real>)
    ensures |r| == |s|
    ensures forall i :: 0 <= i < |s| ==> r[i] == s[i] + c
  {
    seq(|s|, i requires 0 <= i < |s| => s[i] + c)
  }

  /** `c * s`, numpy's broadcast of a scalar factor over a sequence. */
  function Scale(s: seq<real>, c: real): (r: seq<real>)
    ensures |r| == |s|
    ensures forall i :: 0 <= i < |s| ==> r[i] == c * s[i]
  {
    seq(|s|, i requires 0 <= i < |s| => c * s[i])
  }

  /** Adding `c` to every entry raises the sum by `|s|·c`. */
  lemma {:induction false} SumShift(s: seq<real>, c: real)
    ensures Sum(Shift(s, c)) == Sum(s) + (|s| as real) * c
  {
    if |s| > 0 {
      var n := |s|;
      var s' := s[..n - 1];
      SumShift(s', c);
      assert Shift(s, c)[..n - 1] == Shift(s', c);
    }
  }

  /** Multiplying every entry by `c` multiplies the sum by `c`. */
  lemma {:induction false} SumScale(s: seq<real>, c: real)
    ensures Sum(Scale(s, c)) == c * Sum(s)
  {
    if |s| > 0 {
      var n := |s|;
      var s' := s[..n - 1];
      SumScale(s', c);
      var t, t' := Scale(s, c), Scale(s', c);
      forall i | 0 <= i < n - 1 ensures t[i] == t'[i] {
        assert s'[i] == s[i];
      }
      assert t[..n - 1] == t';
    }
  }

  /** A sum of non-negative entries is non-negative, and is zero only when every entry is. */
  lemma {:induction false} SumNonNegative(s: seq<real>)
    requires forall i :: 0 <= i < |s| ==> s[i] >= 0.0
    ensures Sum(s) >= 0.0
    ensures Sum(s) == 0.0 ==> forall i :: 0 <= i < |s| ==> s[i] == 0.0
  {
    if |s| > 0 {
      SumNonNegative(s[..|s| - 1]);
      assert forall i :: 0 <= i < |s| - 1 ==> s[..|s| - 1][i] == s[i];
    }
  }

  /** `Σ(a−b)² = Σa² − 2·Σab + Σb²`. */
  lemma {:induction false} SquaredDistanceExpand(a: seq<real>, b: seq<real>)
    requires |a| == |b|
    ensures SquaredDistance(a, b) == Sum(Squares(a)) - 2.0 * Dot(a, b) + Sum(Squares(b))
  {
    if |a| > 0 {
      var n := |a|;
      var a', b' := a[..n - 1], b[..n - 1];
      SquaredDistanceExpand(a', b');
      PrefixesAgree(a, b, n - 1);
      var e := Diffs(a, b)[n - 1];
      ExpandSquare(a[n - 1], b[n - 1], e);
    }
  }

  /** The elementwise sequences of a prefix are the prefixes of the elementwise sequences. */
  lemma PrefixesAgree(a: seq<real>, b: seq<real>, k: nat)
    requires |a| == |b| && k <= |a|
    ensures Squares(Diffs(a, b))[..k] == Squares(Diffs(a[..k], b[..k]))
    ensures Products(a, b)[..k] == Products(a[..k], b[..k])
    ensures Squares(a)[..k] == Squares(a[..k])
    ensures Squares(b)[..k] == Squares(b[..k])
  {
    var a', b' := a[..k], b[..k];
    var d, d' := Squares(Diffs(a, b)), Squares(Diffs(a', b'));
    var p, p' := Products(a, b), Products(a', b');
    var sa, sa' := Squares(a), Squares(a');
    var sb, sb' := Squares(b), Squares(b');
    forall i | 0 <= i < k
      ensures d[i] == d'[i] && p[i] == p'[i] && sa[i] == sa'[i] && sb[i] == sb'[i]
    {
      assert a'[i] == a[i] && b'[i] == b[i];
      assert Diffs(a, b)[i] == Diffs(a', b')[i];
    }
  }

  lemma ExpandSquare(x: real, y: real, e: real)
    requires e == x - y
    ensures e * e == x * x - 2.0 * (x * y) + y * y
  {
  }

  /** The squared distance is never negative, and it is zero exactly when the sequences are equal. */
  lemma SquaredDistanceNonNegative(a: seq<real>, b: seq<real>)
    requires |a| == |b|
    ensures SquaredDistance(a, b) >= 0.0
    ensures SquaredDistance(a, b) == 0.0 <==> a == b
  {
    var e := Diffs(a, b);
    var d := Squares(e);
    SumNonNegative(d);
    if a == b {
      assert forall i :: 0 <= i < |a| ==> e[i] == 0.0;
      SumZero(d);
    }
    if SquaredDistance(a, b) == 0.0 {
      forall i | 0 <= i < |a| ensures a[i] == b[i] {
        SquareZero(e[i]);
      }
    }
  }

  lemma MulPositive(a: real, b: real)
    requires a > 0.0 && b > 0.0
    ensures a * b > 0.0
  {
  }

  /** Only zero squares to zero. */
  lemma SquareZero(x: real)
    requires x * x == 0.0
    ensures x == 0.0
  {
    if x > 0.0 {
      calc {
        0.0;
        == x * x;
        > { MulPositive(x, x); } 0.0;
      }
    } else if x < 0.0 {
      calc {
        0.0;
        == x * x;
        == (-x) * (-x);
        > { MulPositive(-x, -x); } 0.0;
      }
    }
  }

  lemma {:induction false} SumZero(s: seq<real>)
    requires forall i :: 0 <= i < |s| ==> s[i] == 0.0
    ensures Sum(s) == 0.0
  {
    if |s| > 0 {
      SumZero(s[..|s| - 1]);
    }
  }
}
