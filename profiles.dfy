/**
 The distance profiles of tsalign/__init__.py (`adjust_cumsum_length`,
 `fft_sdist`, `fft_mdist`, `fft_zdist`): for every offset `i` at which the
 query `Q` fits inside the subject `S`, one number meant to measure how far
 `Q` is from the window `S[i..i+|Q|]`.

 The profile is built from a "valid" convolution of `S` with the reversed
 query (the cross-correlation `Σ_j Q[j]·S[i+j]`) and from the running total of
 the squares of `S`. The FFT that computes the convolution in floating point is
 replaced here by its exact value.

 As written, `adjust_cumsum_length` subtracts `cumsum[i]` where the window sum
 needs `cumsum[i-1]`, so entry `i` is the squared distance to the window MINUS
 `S[i]²` (FftSdistProfile); module Corrected states the intended profile.
 */
module Profiles {
  import opened Series
  import opened Normalize

  /**
   `fftconvolve(a, b, mode='valid')`: entry `i` is `Σ_k a[i+|b|-1-k]·b[k]`, the
   window `a[i..i+|b|]` read backwards against `b`; there is one entry for each
   offset at which `b` fits inside `a`.
   */
  function ValidConvolve(a: seq<real>, b: seq<real>): (r: seq<real>)
    requires 1 <= |b| <= |a|
    ensures |r| == |a| - |b| + 1
  {
    seq(|a| - |b| + 1, i requires 0 <= i <= |a| - |b| => Dot(Reverse(a[i..i + |b|]), b))
  }

  /**
   Convolving with the reversed query is correlating with the query: entry `i`
   is the dot product of `Q` with the window of `S` at offset `i`.
   */
  lemma ConvolveReversedIsCorrelation(s: seq<real>, q: seq<real>, i: nat)
    requires 1 <= |q| <= |s| && i <= |s| - |q|
    ensures ValidConvolve(s, Reverse(q))[i] == Dot(q, s[i..i + |q|])
  {
    var w := s[i..i + |q|];
    var p, p' := Products(Reverse(w), Reverse(q)), Products(q, w);
    assert p == Reverse(p') by {
      forall k | 0 <= k < |p| ensures p[k] == Reverse(p')[k] {
      }
    }
    SumReverse(p');
    assert ValidConvolve(s, Reverse(q))[i] == Dot(Reverse(w), Reverse(q));
  }

  /**
   `adjust_cumsum_length(c, qLen, convLen)`: the running totals from position
   `qLen - 1` on, cut or zero-padded to `convLen` entries (ShiftedTotals), minus
   the first `convLen` running totals.
   */
  function AdjustCumsumLength(c: seq<real>, qLen: nat, convLen: nat): (r: seq<real>)
    requires convLen <= |c|
    ensures |r| == convLen
    ensures forall i :: 0 <= i < convLen ==>
      r[i] == (if ShiftStart(c, qLen) + i < |c| then c[ShiftStart(c, qLen) + i] else 0.0) - c[i]
  {
    var shifted := ShiftedTotals(c, qLen, convLen);
    seq(convLen, i requires 0 <= i < convLen => shifted[i] - c[i])
  }

  /**
   The first three lines of `adjust_cumsum_length`: `c[qLen-1:]` (a slice that
   starts past the end is empty; `qLen = 0` is the index `-1`, which numpy reads
   as the last entry), cut to `convLen` entries when longer, padded with zeros
   when shorter.
   */
  function ShiftedTotals(c: seq<real>, qLen: nat, convLen: nat): (r: seq<real>)
    ensures |r| == convLen
    ensures forall i :: 0 <= i < convLen ==>
      r[i] == (if ShiftStart(c, qLen) + i < |c| then c[ShiftStart(c, qLen) + i] else 0.0)
  {
    var shifted := c[ShiftStart(c, qLen)..];
    if |shifted| > convLen then shifted[..convLen]
    else if |shifted| < convLen then shifted + seq(convLen - |shifted|, _ => 0.0)
    else shifted
  }

  /** Where numpy's slice `c[qLen-1:]` starts. */
  function ShiftStart(c: seq<real>, qLen: nat): (k: nat)
    ensures k <= |c|
    ensures 1 <= qLen <= |c| + 1 ==> k == qLen - 1
  {
    if qLen == 0 then (if |c| == 0 then 0 else |c| - 1)
    else if qLen - 1 <= |c| then qLen - 1
    else |c|
  }

  /**
   `fft_sdist(Q, S)`: `Σ Q² − 2·conv + adjusted`, with `conv` the valid
   convolution of `S` with the reversed query and `adjusted` the adjusted running
   totals of `S²`.
   */
  function FftSdist(q: seq<real>, s: seq<real>): (r: seq<real>)
    requires 1 <= |q| <= |s|
    ensures |r| == |s| - |q| + 1
  {
    var conv := ValidConvolve(s, Reverse(q));
    var adjusted := AdjustCumsumLength(CumSum(Squares(s)), |q|, |conv|);
    seq(|conv|, i requires 0 <= i < |conv| => Sum(Squares(q)) - 2.0 * conv[i] + adjusted[i])
  }

  /** `fft_mdist(Q, S)`: the sdist profile of the mean-centred query. */
  function FftMdist(q: seq<real>, s: seq<real>): (r: seq<real>)
    requires 1 <= |q| <= |s|
    ensures |r| == |s| - |q| + 1
  {
    FftSdist(MNorm(q), s)
  }

  /**
   `fft_zdist(Q, S, epsilon)`: the sdist profile of the z-normalised query;
   `qStd` is the population standard deviation of `Q`.
   */
  function FftZdist(q: seq<real>, s: seq<real>, epsilon: real, qStd: real): (r: seq<real>)
    requires 1 <= |q| <= |s| && epsilon > 0.0 && IsPopulationStd(q, qStd)
    ensures |r| == |s| - |q| + 1
  {
    FftSdist(ZNorm(q, epsilon, qStd), s)
  }

  // ---------------------------------------------------------------------
  // What the profiles compute

  /** The window of `s` of length `m` at offset `i`. */
  function Window(s: seq<real>, i: nat, m: nat): (w: seq<real>)
    requires i + m <= |s|
    ensures |w| == m
    ensures forall j :: 0 <= j < m ==> w[j] == s[i + j]
  {
    s[i..i + m]
  }

  /**
   In `fft_sdist` the running totals are never cut or padded: the slice from
   `|Q| - 1` on is exactly as long as the convolution, and entry `i` of the
   adjusted totals of `t` is the sum of `t[i+1..i+|Q|]`.
   */
  lemma AdjustedIsWindowTail(t: seq<real>, m: nat, i: nat)
    requires 1 <= m <= |t| && i <= |t| - m
    ensures |CumSum(t)[m - 1..]| == |t| - m + 1
    ensures AdjustCumsumLength(CumSum(t), m, |t| - m + 1)[i] == Sum(t[i + 1..i + m])
  {
    var c := CumSum(t);
    AdjustFullLength(c, m, i);
    assert c[i + m - 1] == Sum(t[..i + m]) by {
      assert t[..(i + m - 1) + 1] == t[..i + m];
    }
    SumSlice(t, i + 1, i + m);
  }

  /**
   When the convolution is as long as the slice `c[qLen-1:]`, nothing is cut or
   padded: entry `i` is `c[i + qLen - 1] − c[i]`.
   */
  lemma AdjustFullLength(c: seq<real>, qLen: nat, i: nat)
    requires 1 <= qLen <= |c| && i <= |c| - qLen
    ensures |c[qLen - 1..]| == |c| - qLen + 1
    ensures AdjustCumsumLength(c, qLen, |c| - qLen + 1)[i] == c[i + qLen - 1] - c[i]
  {
    assert ShiftStart(c, qLen) == qLen - 1;
  }

  /** The squares of a window are the window of the squares. */
  lemma WindowOfSquares(s: seq<real>, i: nat, m: nat)
    requires i + m <= |s|
    ensures Squares(s)[i..i + m] == Squares(Window(s, i, m))
  {
    var t, t' := Squares(s)[i..i + m], Squares(Window(s, i, m));
    forall j | 0 <= j < m ensures t[j] == t'[j] {
      assert Window(s, i, m)[j] == s[i + j];
    }
  }

  /** The squares of a window sum to the same as the window of the squares. */
  lemma SumWindowOfSquares(s: seq<real>, i: nat, m: nat)
    requires i + m <= |s|
    ensures Sum(Squares(s)[i..i + m]) == Sum(Squares(Window(s, i, m)))
  {
    WindowOfSquares(s, i, m);
  }

  /** The squares of a window sum to its first square plus the squares of `S` after it. */
  lemma WindowSquares(s: seq<real>, i: nat, m: nat)
    requires 1 <= m && i + m <= |s|
    ensures Sum(Squares(Window(s, i, m))) == s[i] * s[i] + Sum(Squares(s)[i + 1..i + m])
  {
    var t := Squares(s)[i + 1..i + m];
    WindowOfSquares(s, i, m);
    assert Squares(s)[i..i + m] == [s[i] * s[i]] + t;
    SumConcat([s[i] * s[i]], t);
    assert Sum([s[i] * s[i]]) == s[i] * s[i] by {
      assert [s[i] * s[i]][..0] == [];
    }
  }

  /** Entry `i` of the sdist profile from its three terms, the convolution as a correlation. */
  lemma FftSdistEntry(q: seq<real>, s: seq<real>, i: nat)
    requires 1 <= |q| <= |s| && i <= |s| - |q|
    ensures FftSdist(q, s)[i] == Sum(Squares(q)) - 2.0 * Dot(q, Window(s, i, |q|))
                                 + AdjustCumsumLength(CumSum(Squares(s)), |q|, |s| - |q| + 1)[i]
  {
    ConvolveReversedIsCorrelation(s, q, i);
  }

  /** The adjusted totals of `S²` at `i`: the squares of the window at `i`, less `S[i]²`. */
  lemma AdjustedIsWindowSquares(s: seq<real>, m: nat, i: nat)
    requires 1 <= m <= |s| && i <= |s| - m
    ensures AdjustCumsumLength(CumSum(Squares(s)), m, |s| - m + 1)[i]
         == Sum(Squares(Window(s, i, m))) - s[i] * s[i]
  {
    AdjustedIsWindowTail(Squares(s), m, i);
    WindowSquares(s, i, m);
  }

  /**
   Entry `i` of the sdist profile term by term: `Σ Q²`, twice the correlation of
   `Q` with the window at `i`, the squares of that window, and `−S[i]²`.
   */
  lemma FftSdistTerms(q: seq<real>, s: seq<real>, i: nat)
    requires 1 <= |q| <= |s| && i <= |s| - |q|
    ensures FftSdist(q, s)[i] == Sum(Squares(q)) - 2.0 * Dot(q, Window(s, i, |q|))
                                 + Sum(Squares(Window(s, i, |q|))) - s[i] * s[i]
  {
    FftSdistEntry(q, s, i);
    AdjustedIsWindowSquares(s, |q|, i);
  }

  /**
   Entry `i` of the sdist profile, as the code computes it: the squared distance
   from `Q` to the window at offset `i`, less the square of the window's first
   entry `S[i]`.
   */
  lemma FftSdistProfile(q: seq<real>, s: seq<real>, i: nat)
    requires 1 <= |q| <= |s| && i <= |s| - |q|
    ensures FftSdist(q, s)[i] == SquaredDistance(q, Window(s, i, |q|)) - s[i] * s[i]
  {
    FftSdistTerms(q, s, i);
    SquaredDistanceExpand(q, Window(s, i, |q|));
  }

  /** The mdist profile: distance from the mean-centred query, less `S[i]²`. */
  lemma FftMdistProfile(q: seq<real>, s: seq<real>, i: nat)
    requires 1 <= |q| <= |s| && i <= |s| - |q|
    ensures FftMdist(q, s)[i] == SquaredDistance(MNorm(q), Window(s, i, |q|)) - s[i] * s[i]
  {
    FftSdistProfile(MNorm(q), s, i);
  }

  /** The zdist profile: distance from the z-normalised query, less `S[i]²`. */
  lemma FftZdistProfile(q: seq<real>, s: seq<real>, epsilon: real, qStd: real, i: nat)
    requires 1 <= |q| <= |s| && epsilon > 0.0 && IsPopulationStd(q, qStd)
    requires i <= |s| - |q|
    ensures FftZdist(q, s, epsilon, qStd)[i]
         == SquaredDistance(ZNorm(q, epsilon, qStd), Window(s, i, |q|)) - s[i] * s[i]
  {
    FftSdistProfile(ZNorm(q, epsilon, qStd), s, i);
  }

  /** Raising every query entry by the same constant does not change the mdist profile. */
  lemma FftMdistQueryShiftInvariant(q: seq<real>, s: seq<real>, c: real)
    requires 1 <= |q| <= |s|
    ensures FftMdist(Shift(q, c), s) == FftMdist(q, s)
  {
    MNormShiftInvariant(q, c);
  }

  /**
   Raising every query entry by the same constant does not change its standard
   deviation, nor the zdist profile.
   */
  lemma FftZdistQueryShiftInvariant(q: seq<real>, s: seq<real>, epsilon: real, qStd: real, c: real)
    requires 1 <= |q| <= |s| && epsilon > 0.0 && IsPopulationStd(q, qStd)
    ensures IsPopulationStd(Shift(q, c), qStd)
    ensures FftZdist(Shift(q, c), s, epsilon, qStd) == FftZdist(q, s, epsilon, qStd)
  {
    MNormShiftInvariant(q, c);
    var z, z' := ZNorm(q, epsilon, qStd), ZNorm(Shift(q, c), epsilon, qStd);
    forall j | 0 <= j < |q| ensures z'[j] == z[j] {
    }
    assert z' == z;
  }

  /**
   A query of one entry `a`: the running totals cancel, and entry `i` is
   `a² − 2·a·S[i]`, whatever the subject.
   */
  lemma FftSdistSingleEntry(a: real, s: seq<real>, i: nat)
    requires 1 <= |s| && i < |s|
    ensures FftSdist([a], s)[i] == a * a - 2.0 * (a * s[i])
  {
    FftSdistProfile([a], s, i);
    var w := Window(s, i, 1);
    var e := a - s[i];
    assert Diffs([a], w) == [e];
    assert Squares([e])[0] == e * e;
    assert Squares([e]) == [e * e];
    assert Sum([e * e]) == e * e by {
      assert [e * e][..0] == [];
    }
    ExpandSquare(a, s[i], e);
  }
}
