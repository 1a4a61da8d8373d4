/**
 `align_timeseries` in tsalign/__init__.py: choose a distance profile by its
 name, find the first offset where the profile is smallest, and return the
 subject's window at that offset together with `query − window`.

 The `sdist`, `mdist` and `zdist` entry points only forward to `fft_sdist`,
 `fft_mdist` and `fft_zdist` (with the default `epsilon = 1e-6`); they are the
 three branches of Profile.
 */
module Align {
  import opened Series
  import opened Normalize
  import opened Profiles

  /** The three distances `align_timeseries` accepts. */
  datatype Measure = SquaredEuclidean | MeanAdjusted | ZNormalized

  /** The error `align_timeseries` raises (a `ValueError`) for any other name. */
  datatype AlignError = InvalidDistance(tag: string)

  datatype Result<T> = Success(value: T) | Failure(error: AlignError)

  /** The two arrays `align_timeseries` returns. */
  datatype Alignment = Alignment(aligned: seq<real>, difference: seq<real>)

  /** The name under which each distance is selected. */
  function Tag(m: Measure): string
  {
    match m
    case SquaredEuclidean => "sdist"
    case MeanAdjusted => "mdist"
    case ZNormalized => "zdist"
  }

  /** The `if`/`elif` chain that selects the distance; any other name is an error. */
  function ParseMeasure(tag: string): (r: Result<Measure>)
    ensures r.Failure? ==> r.error == InvalidDistance(tag)
  {
    if tag == "sdist" then Success(SquaredEuclidean)
    else if tag == "mdist" then Success(MeanAdjusted)
    else if tag == "zdist" then Success(ZNormalized)
    else Failure(InvalidDistance(tag))
  }

  /** Exactly the three names are accepted, each selecting the measure it names. */
  lemma ParseMeasureTag(tag: string, m: Measure)
    ensures ParseMeasure(Tag(m)) == Success(m)
    ensures ParseMeasure(tag) == Success(m) <==> tag == Tag(m)
    ensures ParseMeasure(tag).Success? <==> tag in {"sdist", "mdist", "zdist"}
  {
  }

  /**
   `dist(query_series, subject_series)` for the selected distance. `qStd` is the
   population standard deviation of the query; only `zdist` uses it.
   */
  function Profile(m: Measure, q: seq<real>, s: seq<real>, qStd: real): (r: seq<real>)
    requires 1 <= |q| <= |s|
    requires m == ZNormalized ==> IsPopulationStd(q, qStd)
    ensures |r| == |s| - |q| + 1
  {
    match m
    case SquaredEuclidean => FftSdist(q, s)
    case MeanAdjusted => FftMdist(q, s)
    case ZNormalized => FftZdist(q, s, DefaultEpsilon, qStd)
  }

  /** The query as each distance compares it: unchanged, mean-centred or z-normalised. */
  function ComparedQuery(m: Measure, q: seq<real>, qStd: real): (r: seq<real>)
    requires |q| > 0
    requires m == ZNormalized ==> IsPopulationStd(q, qStd)
    ensures |r| == |q|
  {
    match m
    case SquaredEuclidean => q
    case MeanAdjusted => MNorm(q)
    case ZNormalized => ZNorm(q, DefaultEpsilon, qStd)
  }

  /**
   Every profile is the sdist profile of its compared query: entry `i` is the
   squared distance from that query to the window at `i`, less `S[i]²`.
   */
  lemma ProfileEntry(m: Measure, q: seq<real>, s: seq<real>, qStd: real, i: nat)
    requires 1 <= |q| <= |s| && i <= |s| - |q|
    requires m == ZNormalized ==> IsPopulationStd(q, qStd)
    ensures Profile(m, q, s, qStd) == FftSdist(ComparedQuery(m, q, qStd), s)
    ensures Profile(m, q, s, qStd)[i]
         == SquaredDistance(ComparedQuery(m, q, qStd), Window(s, i, |q|)) - s[i] * s[i]
  {
    FftSdistProfile(ComparedQuery(m, q, qStd), s, i);
  }

  /**
   The last three lines of `align_timeseries`: the first offset where the
   profile `p` is smallest, the window of the subject there, and the query
   minus that window.
   */
  function AlignByProfile(q: seq<real>, s: seq<real>, p: seq<real>): (r: Alignment)
    requires 1 <= |q| <= |s| && |p| == |s| - |q| + 1
    ensures |r.aligned| == |q| && |r.difference| == |q|
    ensures exists k :: IsFirstMinimum(p, k) && r.aligned == Window(s, k, |q|)
    ensures forall j :: 0 <= j < |q| ==> r.difference[j] == q[j] - r.aligned[j]
  {
    var k := ArgMin(p);
    var aligned := Window(s, k, |q|);
    Alignment(aligned, seq(|q|, j requires 0 <= j < |q| => q[j] - aligned[j]))
  }

  /**
   `align_timeseries(query, subject, distance)`: fails exactly for an unknown
   distance name; otherwise aligns by the selected profile.
   */
  function AlignTimeseries(query: seq<real>, subject: seq<real>, qStd: real,
                           distance: string := "zdist"): (r: Result<Alignment>)
    requires 1 <= |query| <= |subject|
    requires distance == "zdist" ==> IsPopulationStd(query, qStd)
    ensures r.Failure? <==> ParseMeasure(distance).Failure?
    ensures r.Failure? ==> r.error == InvalidDistance(distance)
    ensures r.Success? ==>
      r.value == AlignByProfile(query, subject, Profile(ParseMeasure(distance).value, query, subject, qStd))
  {
    match ParseMeasure(distance)
    case Failure(e) => Failure(e)
    case Success(m) => Success(AlignByProfile(query, subject, Profile(m, query, subject, qStd)))
  }

  /** Exactly the names `sdist`, `mdist` and `zdist` are accepted. */
  lemma AlignTimeseriesAccepts(query: seq<real>, subject: seq<real>, qStd: real, distance: string)
    requires 1 <= |query| <= |subject|
    requires distance == "zdist" ==> IsPopulationStd(query, qStd)
    ensures AlignTimeseries(query, subject, qStd, distance).Success? <==> distance in {"sdist", "mdist", "zdist"}
  {
    ParseMeasureTag(distance, SquaredEuclidean);
  }

  /**
   What each profile entry measures once the code's running-total offset is
   accounted for: at offset `i`, the squared distance from the compared query
   to the window at `i`, less the square of the window's first entry.
   */
  function Scores(m: Measure, q: seq<real>, s: seq<real>, qStd: real): (r: seq<real>)
    requires 1 <= |q| <= |s|
    requires m == ZNormalized ==> IsPopulationStd(q, qStd)
    ensures |r| == |s| - |q| + 1
  {
    var c := ComparedQuery(m, q, qStd);
    seq(|s| - |q| + 1, i requires 0 <= i <= |s| - |q| => SquaredDistance(c, Window(s, i, |q|)) - s[i] * s[i])
  }

  /** Every profile is exactly its Scores. */
  lemma ProfileIsScores(m: Measure, q: seq<real>, s: seq<real>, qStd: real)
    requires 1 <= |q| <= |s|
    requires m == ZNormalized ==> IsPopulationStd(q, qStd)
    ensures Profile(m, q, s, qStd) == Scores(m, q, s, qStd)
  {
    var p, sc := Profile(m, q, s, qStd), Scores(m, q, s, qStd);
    forall i | 0 <= i <= |s| - |q| ensures p[i] == sc[i] {
      ProfileEntry(m, q, s, qStd, i);
    }
  }

  /**
   What the alignment optimises: the chosen window is at the first offset
   where Scores is smallest.
   */
  lemma AlignmentMinimisesScore(m: Measure, q: seq<real>, s: seq<real>, qStd: real)
    requires 1 <= |q| <= |s|
    requires m == ZNormalized ==> IsPopulationStd(q, qStd)
    ensures exists k ::
      IsFirstMinimum(Scores(m, q, s, qStd), k) && AlignByProfile(q, s, Profile(m, q, s, qStd)).aligned == Window(s, k, |q|)
  {
    ProfileIsScores(m, q, s, qStd);
    var r := AlignByProfile(q, s, Scores(m, q, s, qStd));
  }

  /** The first minimum is unique, so the window is the one at any first minimum. */
  lemma AlignAtFirstMinimum(q: seq<real>, s: seq<real>, p: seq<real>, k: nat)
    requires 1 <= |q| <= |s| && |p| == |s| - |q| + 1
    requires IsFirstMinimum(p, k)
    ensures AlignByProfile(q, s, p).aligned == Window(s, k, |q|)
  {
    var r := AlignByProfile(q, s, p);
    var k' :| IsFirstMinimum(p, k') && r.aligned == Window(s, k', |q|);
    assert k' == k;
  }

  /** The difference is all zeros exactly when the aligned window equals the query. */
  lemma DifferenceZeroIffMatch(q: seq<real>, s: seq<real>, p: seq<real>)
    requires 1 <= |q| <= |s| && |p| == |s| - |q| + 1
    ensures var r := AlignByProfile(q, s, p);
      (forall j :: 0 <= j < |q| ==> r.difference[j] == 0.0) <==> r.aligned == q
  {
    var r := AlignByProfile(q, s, p);
    if forall j :: 0 <= j < |q| ==> r.difference[j] == 0.0 {
      assert forall j :: 0 <= j < |q| ==> r.aligned[j] == q[j];
    }
  }

  /** With the name `sdist`, `align_timeseries` aligns by the sdist profile itself. */
  lemma SdistSelectsFftSdist(q: seq<real>, s: seq<real>, qStd: real)
    requires 1 <= |q| <= |s|
    ensures AlignTimeseries(q, s, qStd, "sdist") == Success(AlignByProfile(q, s, FftSdist(q, s)))
  {
    assert ParseMeasure("sdist") == Success(SquaredEuclidean);
  }

  /**
   A query hidden unchanged in a run of zeros is found by `sdist`: the profile
   is `[9, 3, -1, 7, 8]`, its minimum is at offset 2, the aligned window is the
   query and the difference is all zeros.
   */
  lemma AlignFindsEmbeddedQuery(q: seq<real>, s: seq<real>)
    requires q == [1.0, 2.0, 3.0] && s == [0.0, 0.0, 1.0, 2.0, 3.0, 0.0, 0.0]
    ensures FftSdist(q, s) == [9.0, 3.0, -1.0, 7.0, 8.0]
    ensures AlignTimeseries(q, s, 0.0, "sdist").Success?
    ensures AlignTimeseries(q, s, 0.0, "sdist").value.aligned == q
    ensures forall j :: 0 <= j < 3 ==> AlignTimeseries(q, s, 0.0, "sdist").value.difference[j] == 0.0
  {
    EmbeddedQueryProfile(q, s);
    SdistSelectsFftSdist(q, s, 0.0);
    var p := FftSdist(q, s);
    assert IsFirstMinimum(p, 2);
    AlignAtFirstMinimum(q, s, p, 2);
    assert Window(s, 2, 3) == q;
    DifferenceZeroIffMatch(q, s, p);
  }

  /** The sdist profile of the query `[1, 2, 3]` against the subject `[0, 0, 1, 2, 3, 0, 0]`. */
  lemma EmbeddedQueryProfile(q: seq<real>, s: seq<real>)
    requires q == [1.0, 2.0, 3.0] && s == [0.0, 0.0, 1.0, 2.0, 3.0, 0.0, 0.0]
    ensures FftSdist(q, s) == [9.0, 3.0, -1.0, 7.0, 8.0]
  {
    ProfileIsScores(SquaredEuclidean, q, s, 0.0);
    EmbeddedQueryScores(q, s);
  }

  /** The Scores of the query `[1, 2, 3]` against the subject `[0, 0, 1, 2, 3, 0, 0]`. */
  lemma EmbeddedQueryScores(q: seq<real>, s: seq<real>)
    requires |q| == 3 && q[0] == 1.0 && q[1] == 2.0 && q[2] == 3.0
    requires |s| == 7 && s[0] == 0.0 && s[1] == 0.0 && s[2] == 1.0 && s[3] == 2.0
    requires s[4] == 3.0 && s[5] == 0.0 && s[6] == 0.0
    ensures Scores(SquaredEuclidean, q, s, 0.0) == [9.0, 3.0, -1.0, 7.0, 8.0]
  {
    ScoreEntry3(q, s, 0, 1.0, 2.0, 2.0, 9.0);
    ScoreEntry3(q, s, 1, 1.0, 1.0, 1.0, 3.0);
    ScoreEntry3(q, s, 2, 0.0, 0.0, 0.0, -1.0);
    ScoreEntry3(q, s, 3, -1.0, -1.0, 3.0, 7.0);
    ScoreEntry3(q, s, 4, -2.0, 2.0, 3.0, 8.0);
    FiveEntries(Scores(SquaredEuclidean, q, s, 0.0), 9.0, 3.0, -1.0, 7.0, 8.0);
  }

  /** A sequence of five entries is the display of those entries. */
  lemma FiveEntries(p: seq<real>, a: real, b: real, c: real, d: real, e: real)
    requires |p| == 5 && p[0] == a && p[1] == b && p[2] == c && p[3] == d && p[4] == e
    ensures p == [a, b, c, d, e]
  {
  }

  /**
   The `sdist` score `v` at `i` for a three-entry query whose differences from
   the window are `e0, e1, e2`.
   */
  lemma ScoreEntry3(q: seq<real>, s: seq<real>, i: nat, e0: real, e1: real, e2: real, v: real)
    requires |q| == 3 && 3 <= |s| && i <= |s| - 3
    requires q[0] - s[i] == e0 && q[1] - s[i + 1] == e1 && q[2] - s[i + 2] == e2
    requires v == e0 * e0 + e1 * e1 + e2 * e2 - s[i] * s[i]
    ensures Scores(SquaredEuclidean, q, s, 0.0)[i] == v
  {
    Distance3(q, Window(s, i, 3), e0, e1, e2);
  }

  /** The squared distance between three-entry sequences whose differences are `e0, e1, e2`. */
  lemma Distance3(q: seq<real>, w: seq<real>, e0: real, e1: real, e2: real)
    requires |q| == 3 && |w| == 3
    requires q[0] - w[0] == e0 && q[1] - w[1] == e1 && q[2] - w[2] == e2
    ensures SquaredDistance(q, w) == e0 * e0 + e1 * e1 + e2 * e2
  {
    var e := Diffs(q, w);
    assert e[0] == e0 && e[1] == e1 && e[2] == e2;
    SumOfThree(Squares(e));
  }

  lemma SumOfThree(t: seq<real>)
    requires |t| == 3
    ensures Sum(t) == t[0] + t[1] + t[2]
  {
    var t1, t2 := t[..1], t[..2];
    assert t1[..0] == [];
    assert Sum(t1) == t[0];
    assert t2[..1] == t1;
    assert Sum(t2) == t[0] + t[1];
    assert t[..|t| - 1] == t2;
  }

  /**
   As written, `sdist` can miss an exact copy: for the query `[1]` and the
   subject `[1, 5]` the window at offset 0 equals the query, yet the profile is
   `[-1, -9]`, so the window at offset 1 is returned with difference `[-4]`.
   */
  lemma AlignMissesExactCopy(q: seq<real>, s: seq<real>)
    requires q == [1.0] && s == [1.0, 5.0]
    ensures Window(s, 0, 1) == q
    ensures FftSdist(q, s) == [-1.0, -9.0]
    ensures AlignTimeseries(q, s, 0.0, "sdist") == Success(Alignment([5.0], [-4.0]))
  {
    var p := FftSdist(q, s);
    FftSdistSingleEntry(1.0, s, 0);
    FftSdistSingleEntry(1.0, s, 1);
    assert p == [-1.0, -9.0];
    AlignAtFirstMinimum(q, s, p, 1);
    var r := AlignByProfile(q, s, p);
    assert r.aligned == [5.0];
    assert r.difference == [-4.0];
    assert ParseMeasure("sdist") == Success(SquaredEuclidean);
    assert Profile(SquaredEuclidean, q, s, 0.0) == p;
  }
}
