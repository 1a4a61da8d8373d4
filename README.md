# TSAlign alignment engine in Dafny

A model of the rolling-distance alignment engine of TSAlign
(`tsalign/__init__.py`). Given a query and a longer subject time series, it
computes a distance profile with one entry per offset, takes the first offset
where the profile is smallest, and returns the subject's window there together
with `query − window`. The model uses exact `real` arithmetic. Every function
is pure, like the numpy expressions it models.

Modules, in dependency order:

- `Series` (`series.dfy`): the numpy building blocks.
  - `np.sum`, `np.square`, `np.cumsum`, `np.argmin` (first occurrence) and the reversal `Q[::-1]`.
  - The dot product and squared Euclidean distance, which say what the profiles measure.
  - The algebra of sums these need.
- `Normalize` (`normalize.dfy`): `mnorm` and `znorm`, with the divisor `max(std, epsilon)`.
- `Profiles` (`profiles.dfy`): `adjust_cumsum_length`, `fft_sdist`, `fft_mdist` and `fft_zdist`.
  - `fftconvolve(S, Q[::-1], mode='valid')` is specified by what it computes, the valid convolution.
  - Its entry `i` is shown to be the dot product of `Q` with the window of `S` at `i`.
- `Align` (`align.dfy`): `align_timeseries`.
  - Selection by name; an unknown name is an error result.
  - The wrappers `sdist`, `mdist` and `zdist` are the three branches of `Profile`.
- `Corrected` (`corrected.dfy`): the running-total adjustment as evidently intended (see Findings).
  - It defines the corrected profile and alignment and proves the properties the as-written code lacks.

What the code computes, as proved here:
- Entry `i` of every profile is the squared distance from the compared query to the window `S[i..i+|Q|]`, less `S[i]²`.
- The compared query is the query itself for `sdist`, mean-centred for `mdist`, and z-normalised for `zdist`.
- The alignment therefore picks the first offset minimising that quantity, not the squared distance itself.

## Model

| member | source | states |
|---|---|---|
| Series.ArgMin | tsalign/__init__.py:158 | the index returned holds the smallest entry, and every earlier entry is strictly larger (numpy's first-occurrence `argmin`) |
| Series.Squares | tsalign/__init__.py:63-65 | `np.square`: one entry per input entry, each the square of that entry and never negative |
| Series.CumSum | tsalign/__init__.py:63 | `np.cumsum`: one entry per input entry, entry `k` the sum of the entries up to and including `k` |
| Series.CumSumRecurrence | tsalign/__init__.py:63 | the running totals start at the first entry, and each adds the next entry to the total before it |
| Series.Reverse | tsalign/__init__.py:62 | `Q[::-1]`: same length, entry `i` is the entry `i` places from the end |
| Series.SumReverse | tsalign/__init__.py:62 | reversing a series does not change its sum |
| Series.SumConcat | tsalign/__init__.py:65 | `np.sum` is additive: the sum of a concatenation is the sum of the sums |
| Series.SquaredDistanceExpand | tsalign/__init__.py:62-65 | `Σ(a−b)² = Σa² − 2·Σab + Σb²`, the identity the FFT formula rests on |
| Series.SquaredDistanceNonNegative | tsalign/__init__.py:51-65 | a squared distance is never negative, and is zero exactly when the two sequences are equal |
| Normalize.MeanTimesLength | tsalign/__init__.py:15 | `np.mean`: the mean times the number of entries is their sum |
| Normalize.MNorm | tsalign/__init__.py:5-15 | every entry is the input entry minus the mean, and the result sums to zero |
| Normalize.PopulationVariance | tsalign/__init__.py:28 | the population variance (`ddof=0`) is never negative, so a standard deviation for it exists |
| Normalize.PopulationStdUnique | tsalign/__init__.py:28 | at most one number is the population standard deviation: `np.std` has one value for each series |
| Normalize.Divisor | tsalign/__init__.py:29 | `max(std, epsilon)`: at least both arguments and equal to one of them |
| Normalize.ZNorm | tsalign/__init__.py:17-29 | every entry is the mean-centred entry divided by the divisor, which is at least `epsilon > 0`, so there is no division by zero |
| Normalize.ZNormClamped | tsalign/__init__.py:28-29 | when `std < epsilon`, every entry is the mean-centred entry divided by `epsilon` |
| Normalize.ZNormIsScaledMNorm | tsalign/__init__.py:29 | the z-normalised series is the mean-centred series scaled by `1 / max(std, epsilon)` |
| Normalize.ZNormSumsToZero | tsalign/__init__.py:17-29 | the z-normalised series has mean zero |
| Normalize.CentredIsFixed | tsalign/__init__.py:15 | mean-centring a series that already sums to zero leaves it unchanged |
| Normalize.ZNormSquaresSum | tsalign/__init__.py:28-29 | when `std >= epsilon`, the squares of the z-normalised series sum to its length |
| Normalize.ZNormUnitVariance | tsalign/__init__.py:17-29 | when `std >= epsilon`, the z-normalised series has population variance exactly 1 |
| Normalize.MNormShiftInvariant | tsalign/__init__.py:15 | adding a constant to every entry changes neither the mean-centred series nor the variance |
| Profiles.ValidConvolve | tsalign/__init__.py:62 | `fftconvolve(..., mode='valid')` has one entry per offset at which the reversed query fits, `len(S) − len(Q) + 1` |
| Profiles.ConvolveReversedIsCorrelation | tsalign/__init__.py:62 | entry `i` of the valid convolution of `S` with the reversed `Q` is the dot product of `Q` with the window at `i` |
| Profiles.AdjustCumsumLength | tsalign/__init__.py:31-49 | exactly `conv_length` entries; entry `i` is the running total `len(Q) - 1` places on, or 0 in the padded tail, minus the running total at `i` |
| Profiles.ShiftedTotals | tsalign/__init__.py:43-48 | the slice `c[qLen-1:]` cut or zero-padded to `convLen` entries: entry `i` is `c[start + i]` where that exists, else 0 |
| Profiles.ShiftStart | tsalign/__init__.py:43 | the slice starts at `qLen - 1` whenever that is a valid start |
| Profiles.FftSdist | tsalign/__init__.py:51-65 | the profile has one entry per valid offset, `len(S) − len(Q) + 1` |
| Profiles.FftMdist | tsalign/__init__.py:67-79 | one entry per valid offset; its entries are stated by Profiles.FftMdistProfile |
| Profiles.FftZdist | tsalign/__init__.py:81-94 | one entry per valid offset; its entries are stated by Profiles.FftZdistProfile |
| Profiles.Window | tsalign/__init__.py:159 | the window has length `m`, and its entry `j` is `S[i + j]` |
| Profiles.WindowOfSquares | tsalign/__init__.py:63 | the squares of a window are the window of `np.square(S)` at the same offset |
| Profiles.WindowSquares | tsalign/__init__.py:63-64 | the squares of the window at `i` sum to `S[i]²` plus the squares of the rest of the window |
| Profiles.AdjustedIsWindowTail | tsalign/__init__.py:43-49 | on the `fft_sdist` path nothing is cut or padded, and entry `i` is the sum of `t[i+1..i+len(Q)]` |
| Profiles.AdjustFullLength | tsalign/__init__.py:43-49 | with the slice exactly `conv_length` long, entry `i` is `c[i + qLen - 1] − c[i]` |
| Profiles.AdjustedIsWindowSquares | tsalign/__init__.py:63-64 | the adjusted totals of `S²` at `i` are the window's sum of squares less `S[i]²` |
| Profiles.FftSdistEntry | tsalign/__init__.py:62-65 | entry `i` is `ΣQ² − 2·(Q · window at i) + ` the adjusted total at `i` |
| Profiles.FftSdistTerms | tsalign/__init__.py:62-65 | entry `i` is `ΣQ² − 2·(Q · window) + Σwindow² − S[i]²` |
| Profiles.FftSdistProfile | tsalign/__init__.py:51-65 | entry `i` is the squared distance from `Q` to the window at `i`, less `S[i]²` |
| Profiles.FftMdistProfile | tsalign/__init__.py:67-79 | entry `i` is the squared distance from the mean-centred query to the window, less `S[i]²`; the subject is not normalised |
| Profiles.FftZdistProfile | tsalign/__init__.py:81-94 | entry `i` is the squared distance from the z-normalised query to the window, less `S[i]²`; the subject is not normalised |
| Profiles.FftMdistQueryShiftInvariant | tsalign/__init__.py:78-79 | adding a constant to the query does not change the mdist profile |
| Profiles.FftZdistQueryShiftInvariant | tsalign/__init__.py:93-94 | adding a constant to the query changes neither its standard deviation nor the zdist profile |
| Profiles.FftSdistSingleEntry | tsalign/__init__.py:51-65 | for a one-entry query `[a]`, entry `i` is `a² − 2·a·S[i]`: the running totals cancel |
| Align.ParseMeasure | tsalign/__init__.py:149-156 | an unrecognised name yields the error carrying that name |
| Align.ParseMeasureTag | tsalign/__init__.py:149-156 | each of `sdist`, `mdist`, `zdist` selects its own distance, and only those three names are accepted |
| Align.Profile | tsalign/__init__.py:96-134 | the selected profile has one entry per valid offset |
| Align.ComparedQuery | tsalign/__init__.py:78 | the query as compared has the query's length |
| Align.ProfileEntry | tsalign/__init__.py:96-134 | every profile is the sdist profile of its compared query; entry `i` is that query's squared distance to the window, less `S[i]²` |
| Align.AlignByProfile | tsalign/__init__.py:157-160 | the aligned window is the window at a first minimum of the profile, and `aligned[j] + difference[j] == query[j]`, both of the query's length |
| Align.AlignTimeseries | tsalign/__init__.py:136-161 | fails exactly when the name is not recognised, with that name; otherwise aligns by the selected profile |
| Align.AlignTimeseriesAccepts | tsalign/__init__.py:149-156 | the call succeeds exactly for the names `sdist`, `mdist` and `zdist` |
| Align.ProfileIsScores | tsalign/__init__.py:157 | every profile equals Scores: per offset, the compared query's squared distance to the window less `S[i]²` |
| Align.AlignmentMinimisesScore | tsalign/__init__.py:157-159 | the aligned window is at the first offset minimising Scores |
| Align.AlignAtFirstMinimum | tsalign/__init__.py:158-159 | the aligned window is the window at the (unique) first minimum |
| Align.DifferenceZeroIffMatch | tsalign/__init__.py:160 | the difference is all zeros exactly when the aligned window equals the query |
| Align.SdistSelectsFftSdist | tsalign/__init__.py:149-150 | with the name `sdist`, the alignment is made on the `fft_sdist` profile |
| Align.AlignFindsEmbeddedQuery | tsalign/__init__.py:157-160 | for `Q = [1,2,3]` and `S = [0,0,1,2,3,0,0]` the profile is `[9,3,-1,7,8]`, the aligned window is `Q` and the difference is zero |
| Align.EmbeddedQueryProfile | tsalign/__init__.py:62-65 | the sdist profile of that example is `[9,3,-1,7,8]` |
| Align.AlignMissesExactCopy | tsalign/__init__.py:49 | for `Q = [1]` and `S = [1, 5]`, `S[0..1] == Q` yet the profile is `[-1,-9]` and `sdist` aligns to `[5]` with difference `[-4]` |
| Corrected.CorrectedAdjust | tsalign/__init__.py:49 | as the code, but subtracting the running total before `i` (0 for the first entry) |
| Corrected.CorrectedSdist | tsalign/__init__.py:51-65 | corrected, one entry per valid offset; its entries are stated by Corrected.CorrectedSdistIsDistance |
| Corrected.CorrectedAdjustIsWindowSum | tsalign/__init__.py:43-49 | corrected, entry `i` is the sum of the whole window `t[i..i+len(Q)]` |
| Corrected.CorrectedSdistIsDistance | tsalign/__init__.py:51-65 | corrected, entry `i` is exactly the squared distance from `Q` to the window at `i` |
| Corrected.CorrectionAddsFirstSquare | tsalign/__init__.py:49 | the corrected entry is the as-written entry plus `S[i]²` |
| Corrected.CorrectedProfile | tsalign/__init__.py:96-134 | corrected, the selected profile has one entry per valid offset |
| Corrected.CorrectedProfileEntry | tsalign/__init__.py:96-134 | corrected, every entry is never negative and is zero exactly where the window equals the compared query |
| Corrected.CorrectedAlign | tsalign/__init__.py:136-161 | `align_timeseries` over the corrected profiles: same failures, aligns by the corrected profile |
| Corrected.CorrectedProfileIsDistances | tsalign/__init__.py:157 | every corrected profile is the sequence of the compared query's squared distances to the windows |
| Corrected.CorrectedAlignIsNearest | tsalign/__init__.py:157-159 | corrected, the aligned window is the first of the windows nearest to the compared query |
| Corrected.CorrectedAlignFindsExactCopy | tsalign/__init__.py:157-160 | corrected, when some window equals the query, `sdist` aligns to the query with an all-zero difference |
| Corrected.FirstMinimumIsExactCopy | tsalign/__init__.py:158-159 | corrected, when some window equals the query, so does the window at the first minimum |

## Left out

- The FFT inside `scipy.signal.fftconvolve` and all floating-point rounding are left out. The convolution is its exact meaning, the valid convolution over `real`. Rounding artefacts such as a profile entry near `-1e-9` therefore do not arise.
- The square root in `np.std` is not computed. The standard deviation of the query is a parameter `qStd` that must be the population standard deviation (`IsPopulationStd`: non-negative, with square equal to the population variance). `sdist` and `mdist` ignore it.
- The `epsilon` parameter of `zdist` and `fft_zdist`: `align_timeseries` always uses the default `1e-6`, and the model's `FftZdist` requires `epsilon > 0`. A zero or negative `epsilon` is not modelled.
- An empty query, and a query longer than the subject, are preconditions (`1 <= |Q| <= |S|`). The code has no guard for them, and what numpy and scipy then do is not modelled.
- Profiles.AdjustCumsumLength: requires `convLen <= len(cumsum)`. The code's only caller passes the length of the valid convolution, which under `1 <= len(Q) <= len(S)` never exceeds it.
- Align.AlignTimeseries: the `ValueError`'s message is a fixed text listing the three names. The model's error instead carries the rejected name, and the message text is not modelled.
- Normalize.ZNormUnitVariance: unit variance is proved only when `std >= epsilon`. Below the clamp the code divides by `epsilon`; Normalize.ZNormClamped states that case.
- Align.AlignByProfile: returns the aligned window as a value. numpy's slice at tsalign/__init__.py:159 is a view that shares memory with the subject; that aliasing is not modelled.
- The `int(...)` conversion of the argmin index is the identity on the model's natural-number index.
- NaN and infinite inputs are not modelled.
- `benchmark.py`, the example script `test.py` and `setup.py` are not part of this model. They hold timing, random data, plotting, file output and packaging.

## Findings

| source | as written | input that shows it | evidently intended | confidence | as-written member | corrected member |
|---|---|---|---|---|---|---|
| tsalign/__init__.py:49 | subtracts `cumsum_S[:conv_length]`, so entry `i` subtracts the running total through `S[i]`. Each profile entry is then the squared distance to the window at `i` less `S[i]²`. | `Q = [1]`, `S = [1, 5]`, `distance='sdist'`: the profile is `[-1, -9]` and the result is window `[5]` with difference `[-4]`, although `S[0:1]` equals `Q` | subtract the running total before the window (0 at offset 0), so that entry `i` is the window's sum of squares and the profile is the squared distance: never negative, and 0 at an exact copy, which is then found | not executed | Align.AlignMissesExactCopy | Corrected.CorrectedAlignFindsExactCopy |

The docstrings of `fft_sdist` and `sdist` (tsalign/__init__.py:53, 98) describe the profile as the rolling Euclidean distance. The worked example (`Q = [1,2,3]`, `S = [0,0,1,2,3,0,0]`, minimum at offset 2) holds for the code as written: Align.AlignFindsEmbeddedQuery proves it with the profile `[9, 3, -1, 7, 8]`. The main model follows the code. The distance the docstrings describe is the `Corrected` module, which Corrected.CorrectionAddsFirstSquare ties to the code entry by entry.
