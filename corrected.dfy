/**
 The distance profile `adjust_cumsum_length` evidently intends: the sum of the
 squares of the window `S[i..i+|Q|]` is `cumsum[i+|Q|-1] − cumsum[i-1]` (with
 `cumsum[-1] = 0`), not `− cumsum[i]`. With that one change every profile entry
 is exactly the squared distance from the compared query to its window, so the
 profile is never negative and an exact copy of the query is always found.
 */
module Corrected {
  import opened Series
  import opened Normalize
  import opened Profiles
  import opened Align

  /**
   `adjust_cumsum_length` with the running totals shifted by one place: the
   shifted totals minus `[0] + cumsum`, cut to `convLen` entries.
   */
  function CorrectedAdjust(c: seq<real>, qLen: nat, convLen: nat): (r: seq<real>)
    requires convLen <= |c|
    ensures |r| == convLen
    ensures forall i :: 0 <= i < convLen ==>
      r[i] == ShiftedTotals(c, qLen, convLen)[i] - (if i == 0 then 0.0 else c[i - 1])
  {
    var shifted, previous := ShiftedTotals(c, qLen, convLen), [0.0] + c;
    seq(convLen, i requires 0 <= i < convLen => shifted[i] - previous[i])
  }

  /** `fft_sdist` with the corrected adjustment. */
  function CorrectedSdist(q: seq<real>, s: seq<real>): (r: seq<real>)
    requires 1 <= |q| <= |s|
    ensures |r| == |s| - |q| + 1
  {
    var conv := ValidConvolve(s, Reverse(q));
    var adjusted := CorrectedAdjust(CumSum(Squares(s)), |q|, |conv|);
    seq(|conv|, i requires 0 <= i < |conv| => Sum(Squares(q)) - 2.0 * conv[i] + adjusted[i])
  }

  /** Corrected, entry `i` of the adjusted totals of `t` is the sum of `t[i..i+m]`. */
  lemma CorrectedAdjustIsWindowSum(t: seq<real>, m: nat, i: nat)
    requires 1 <= m <= |t| && i <= |t| - m
    ensures CorrectedAdjust(CumSum(t), m, |t| - m + 1)[i] == Sum(t[i..i + m])
  {
    CorrectedAdjustPrefixes(t, m, i);
    SumSlice(t, i, i + m);
  }

  /** Entry `i` of the corrected adjusted totals of `t` as a difference of prefix sums. */
  lemma CorrectedAdjustPrefixes(t: seq<real>, m: nat, i: nat)
    requires 1 <= m <= |t| && i <= |t| - m
    ensures CorrectedAdjust(CumSum(t), m, |t| - m + 1)[i] == Sum(t[..i + m]) - Sum(t[..i])
  {
    var c := CumSum(t);
    CorrectedAdjustFullLength(c, m, i);
    CumSumAt(t, i + m);
    if i > 0 {
      CumSumAt(t, i);
    } else {
      assert t[..i] == [];
    }
  }

  /** With nothing cut or padded, entry `i` is `c[i + qLen - 1] − c[i - 1]` (`c[-1] = 0`). */
  lemma CorrectedAdjustFullLength(c: seq<real>, qLen: nat, i: nat)
    requires 1 <= qLen <= |c| && i <= |c| - qLen
    ensures CorrectedAdjust(c, qLen, |c| - qLen + 1)[i]
         == c[i + qLen - 1] - (if i == 0 then 0.0 else c[i - 1])
  {
    assert ShiftStart(c, qLen) == qLen - 1;
    assert ShiftedTotals(c, qLen, |c| - qLen + 1)[i] == c[i + qLen - 1];
  }

  /** Corrected, entry `i` is exactly the squared distance from `Q` to the window at `i`. */
  lemma CorrectedSdistIsDistance(q: seq<real>, s: seq<real>, i: nat)
    requires 1 <= |q| <= |s| && i <= |s| - |q|
    ensures CorrectedSdist(q, s)[i] == SquaredDistance(q, Window(s, i, |q|))
  {
    CorrectedSdistTerms(q, s, i);
    SquaredDistanceExpand(q, Window(s, i, |q|));
  }

  /** Corrected, the adjusted totals of `S²` at `i` are the squares of the window at `i`. */
  lemma CorrectedAdjustIsWindowSquares(s: seq<real>, m: nat, i: nat)
    requires 1 <= m <= |s| && i <= |s| - m
    ensures CorrectedAdjust(CumSum(Squares(s)), m, |s| - m + 1)[i] == Sum(Squares(Window(s, i, m)))
  {
    CorrectedAdjustIsWindowSum(Squares(s), m, i);
    SumWindowOfSquares(s, i, m);
  }

  /**
   Entry `i` of the corrected profile term by term: `Σ Q²`, twice the
   correlation of `Q` with the window at `i`, and the squares of that window.
   */
  lemma CorrectedSdistTerms(q: seq<real>, s: seq<real>, i: nat)
    requires 1 <= |q| <= |s| && i <= |s| - |q|
    ensures CorrectedSdist(q, s)[i]
         == Sum(Squares(q)) - 2.0 * Dot(q, Window(s, i, |q|)) + Sum(Squares(Window(s, i, |q|)))
  {
    CorrectedSdistEntry(q, s, i);
    CorrectedAdjustIsWindowSquares(s, |q|, i);
  }

  /** Entry `i` of the corrected profile from its three terms, the convolution as a correlation. */
  lemma CorrectedSdistEntry(q: seq<real>, s: seq<real>, i: nat)
    requires 1 <= |q| <= |s| && i <= |s| - |q|
    ensures CorrectedSdist(q, s)[i] == Sum(Squares(q)) - 2.0 * Dot(q, Window(s, i, |q|))
                                        + CorrectedAdjust(CumSum(Squares(s)), |q|, |s| - |q| + 1)[i]
  {
    ConvolveReversedIsCorrelation(s, q, i);
  }

  /** The correction adds back exactly the `S[i]²` the as-written entry leaves out. */
  lemma CorrectionAddsFirstSquare(q: seq<real>, s: seq<real>, i: nat)
    requires 1 <= |q| <= |s| && i <= |s| - |q|
    ensures CorrectedSdist(q, s)[i] == FftSdist(q, s)[i] + s[i] * s[i]
  {
    var d := SquaredDistance(q, Window(s, i, |q|));
    CorrectedSdistIsDistance(q, s, i);
    FftSdistProfile(q, s, i);
  }

  /** The corrected profile of each measure: the corrected sdist profile of its compared query. */
  function CorrectedProfile(m: Measure, q: seq<real>, s: seq<real>, qStd: real): (r: seq<real>)
    requires 1 <= |q| <= |s|
    requires m == ZNormalized ==> IsPopulationStd(q, qStd)
    ensures |r| == |s| - |q| + 1
  {
    CorrectedSdist(ComparedQuery(m, q, qStd), s)
  }

  /**
   Every corrected profile entry is the squared distance from the compared query
   to its window: never negative, and zero exactly at a window equal to it.
   */
  lemma CorrectedProfileEntry(m: Measure, q: seq<real>, s: seq<real>, qStd: real, i: nat)
    requires 1 <= |q| <= |s| && i <= |s| - |q|
    requires m == ZNormalized ==> IsPopulationStd(q, qStd)
    ensures CorrectedProfile(m, q, s, qStd)[i] == SquaredDistance(ComparedQuery(m, q, qStd), Window(s, i, |q|))
    ensures CorrectedProfile(m, q, s, qStd)[i] >= 0.0
    ensures CorrectedProfile(m, q, s, qStd)[i] == 0.0 <==> Window(s, i, |q|) == ComparedQuery(m, q, qStd)
  {
    CorrectedSdistIsDistance(ComparedQuery(m, q, qStd), s, i);
    SquaredDistanceNonNegative(ComparedQuery(m, q, qStd), Window(s, i, |q|));
  }

  /** `align_timeseries` over the corrected profiles. */
  function CorrectedAlign(query: seq<real>, subject: seq<real>, qStd: real,
                          distance: string := "zdist"): (r: Result<Alignment>)
    requires 1 <= |query| <= |subject|
    requires distance == "zdist" ==> IsPopulationStd(query, qStd)
    ensures r.Failure? <==> ParseMeasure(distance).Failure?
    ensures r.Failure? ==> r.error == InvalidDistance(distance)
    ensures r.Success? ==>
      r.value == AlignByProfile(query, subject, CorrectedProfile(ParseMeasure(distance).value, query, subject, qStd))
  {
    match ParseMeasure(distance)
    case Failure(e) => Failure(e)
    case Success(m) => Success(AlignByProfile(query, subject, CorrectedProfile(m, query, subject, qStd)))
  }

  /** The squared distance from `c` to each window of `s`, offset by offset. */
  function Distances(c: seq<real>, s: seq<real>): (r: seq<real>)
    requires 1 <= |c| <= |s|
    ensures |r| == |s| - |c| + 1
  {
    seq(|s| - |c| + 1, i requires 0 <= i <= |s| - |c| => SquaredDistance(c, Window(s, i, |c|)))
  }

  /** Every corrected profile is exactly the Distances from its compared query. */
  lemma CorrectedProfileIsDistances(m: Measure, q: seq<real>, s: seq<real>, qStd: real)
    requires 1 <= |q| <= |s|
    requires m == ZNormalized ==> IsPopulationStd(q, qStd)
    ensures CorrectedProfile(m, q, s, qStd) == Distances(ComparedQuery(m, q, qStd), s)
  {
    var p, d := CorrectedProfile(m, q, s, qStd), Distances(ComparedQuery(m, q, qStd), s);
    forall i | 0 <= i <= |s| - |q| ensures p[i] == d[i] {
      CorrectedSdistIsDistance(ComparedQuery(m, q, qStd), s, i);
    }
  }

  /**
   Corrected, the aligned window is the first of the windows nearest to the
   compared query: no other window is closer, and every earlier one is farther.
   */
  lemma CorrectedAlignIsNearest(m: Measure, q: seq<real>, s: seq<real>, qStd: real)
    requires 1 <= |q| <= |s|
    requires m == ZNormalized ==> IsPopulationStd(q, qStd)
    ensures exists k ::
      IsFirstMinimum(Distances(ComparedQuery(m, q, qStd), s), k) && AlignByProfile(q, s, CorrectedProfile(m, q, s, qStd)).aligned == Window(s, k, |q|)
  {
    CorrectedProfileIsDistances(m, q, s, qStd);
    var r := AlignByProfile(q, s, Distances(ComparedQuery(m, q, qStd), s));
  }

  /**
   Corrected, `sdist` always finds an exact copy: when some window of the
   subject equals the query, the aligned window is the query and the difference
   is all zeros.
   */
  lemma CorrectedAlignFindsExactCopy(q: seq<real>, s: seq<real>, qStd: real, j: nat)
    requires 1 <= |q| <= |s| && j <= |s| - |q|
    requires Window(s, j, |q|) == q
    ensures CorrectedAlign(q, s, qStd, "sdist").Success?
    ensures CorrectedAlign(q, s, qStd, "sdist").value.aligned == q
    ensures forall i :: 0 <= i < |q| ==> CorrectedAlign(q, s, qStd, "sdist").value.difference[i] == 0.0
  {
    assert ParseMeasure("sdist") == Success(SquaredEuclidean);
    var p := CorrectedProfile(SquaredEuclidean, q, s, qStd);
    var k := ArgMin(p);
    FirstMinimumIsExactCopy(q, s, qStd, j, k);
    AlignAtFirstMinimum(q, s, p, k);
    DifferenceZeroIffMatch(q, s, p);
  }

  /**
   When some window equals the query, so does the window at the first minimum
   of the corrected sdist profile.
   */
  lemma FirstMinimumIsExactCopy(q: seq<real>, s: seq<real>, qStd: real, j: nat, k: nat)
    requires 1 <= |q| <= |s| && j <= |s| - |q|
    requires Window(s, j, |q|) == q
    requires IsFirstMinimum(CorrectedProfile(SquaredEuclidean, q, s, qStd), k)
    ensures Window(s, k, |q|) == q
  {
    CorrectedProfileEntry(SquaredEuclidean, q, s, qStd, j);
    CorrectedProfileEntry(SquaredEuclidean, q, s, qStd, k);
  }
}
