# Sharp-drop detectors of snewpdag, in Dafny

snewpdag is a pipeline of plugins that receive an alert payload (a dictionary of named
fields) and add fields of their own to it. This project models two of its feature
plugins, which look for a sudden drop in a binned neutrino count series (the signature of
a collapse into a black hole):

- **BH_Detector** finds edges in the smoothed counts.
  - Its derivative-based edge finder (`d2_edge_finder`) builds a slope `diff1` with `np.convolve(s, [1, 0, -1], 'same')` and a curvature `diff2` with `np.convolve(diff1, [1, -1], 'same')`. It reports the interior indices where the curvature is near zero and changes sign, filtered by the edge type and the slope threshold.
  - A Canny-style detector (`canny_edge_detector`) thins the absolute gradient by non-maximum suppression, applies a double threshold and keeps the weak indices next to a strong one.
  - The plugin's `alert` reports the last falling edge.
- **SharpDropoff** works on segments of the log2 counts.
  - It takes the segments a change-point search returns and averages the log2 counts over each one.
  - It keeps the largest step between consecutive segment means.
  - It records a drop when that step is a fall of at least log2 of the drop threshold.

Files:

- `numeric.dfy` (module `Numeric`) models the numpy primitives over exact reals and sequences: `where`, `max`, `argmax`, `mean`, `sign`, `ceil`, and `convolve` in `'same'` mode.
- `alert_data.dfy` (module `AlertData`) holds the payload values and the payload dictionary, a class whose `Update` is `dict.update`.
- `bh_detector.dfy` (module `BHDetector`) contains:
  - the edge finder, as functions;
  - the Canny detector, as specification functions plus a method over arrays that follows the source's in-place steps;
  - the `BHDetector` plugin class.
- `sharp_dropoff.dfy` (module `SharpDropoff`) contains the minimum segment size, the segment means (including the method with the `log_means` loop), the steps between means, and the `SharpDropoff` plugin class. Its `Alert` returns an error result wherever the modelled code raises.

Where the code behaves differently from what its docstrings and names promise, the model follows the code:

- SharpDropoff's docstring (SharpDropoff.py lines 20-21) calls `max_drop` the "sharpest drop value". The code takes the **maximum** of the steps between segment means (line 70), which is the gentlest fall or the largest rise, not the minimum. A detection therefore needs every step to fall by the threshold (`DetectionIffEveryStepFalls`).
- The same docstring calls `drop_time` the time bin at which the sharpest drop starts. The code takes `times[k]` (line 74), where `k` is the index of a pair of consecutive segments, not the breakpoint where that drop starts.
- `found_dropoff` and `drop_time` are set in the constructor (lines 44-45) and never reset by `alert` (lines 73-76). A later call that detects nothing leaves an earlier detection in place.
- BH_Detector's `thresh_slope` defaults to -400 and is compared as given for every edge type. Rising and "both" edges therefore pass the slope test on a flat series. The constant series [1, 1, 1] over times [0, 1, 2] reports a rising edge at index 1 (`FlatSeriesReportsRisingEdge`), because the zero padding of `convolve` bends the curvature at the ends.
- With a single segment (no change point), `np.diff` is empty and `max()` raises. The model returns `Err(EmptyDifferences)`.

## Model

| member | source | states |
|---|---|---|
| Numeric.Where | snewpdag/plugins/features/BH_Detector.py:63-72 | np.where over an index range: x is in the result iff it is in range and the mask holds there; the result is strictly ascending; it is empty iff the mask holds nowhere |
| Numeric.ArgMax | snewpdag/plugins/features/SharpDropoff.py:74 | argmax is in range, attains the maximum, and every earlier index is strictly smaller (the first occurrence) |
| Numeric.MeanWithin | snewpdag/plugins/features/SharpDropoff.py:66 | a mean lies between any lower and upper bound of the values it averages |
| Numeric.ConvolveSameThreeTaps | snewpdag/plugins/features/BH_Detector.py:59 | convolve 'same' with a three-tap kernel is centred: x*a[i+1] + y*a[i] + z*a[i-1], zero outside the array |
| Numeric.ConvolveSameTwoTaps | snewpdag/plugins/features/BH_Detector.py:60 | convolve 'same' with a two-tap kernel: x*a[i] + y*a[i-1], zero before the start |
| Numeric.ConvolveSame | snewpdag/plugins/features/BH_Detector.py:59-60 | convolve in 'same' mode has as many entries as the longer input (its entries are stated by the two rows above) |
| Numeric.Sign | snewpdag/plugins/features/BH_Detector.py:63 | np.sign is -1, 0 or 1, negative exactly for negative inputs and positive exactly for positive ones |
| Numeric.SeqMax | snewpdag/plugins/features/SharpDropoff.py:70 | ndarray.max() is an element that no element exceeds |
| Numeric.Ceil | snewpdag/plugins/features/SharpDropoff.py:56 | math.ceil(x) is the integer c with x <= c < x + 1 |
| Numeric.Mean | snewpdag/plugins/features/SharpDropoff.py:66 | ndarray.mean() lies between the least and the greatest element |
| AlertData.Dict.Update | snewpdag/plugins/features/BH_Detector.py:125 | dict.update: the keys of d take d's values and every other key keeps its value (also SharpDropoff.py line 85) |
| BHDetector.ScaledStep | snewpdag/plugins/features/BH_Detector.py:58 | dt = (last time - first time) * 1000 / n is zero exactly when the first and last bins coincide |
| BHDetector.Diff1 | snewpdag/plugins/features/BH_Detector.py:59 | diff1 has one slope per sample (its values are stated by Diff1IsCentredDifference) |
| BHDetector.Diff2 | snewpdag/plugins/features/BH_Detector.py:60 | diff2 has one curvature per slope (its values are stated by Diff2IsBackwardDifference) |
| BHDetector.Diff1IsCentredDifference | snewpdag/plugins/features/BH_Detector.py:59 | diff1[i] = (s[i+1] - s[i-1]) / dt inside, diff1[0] = s[1]/dt and diff1[n-1] = -s[n-2]/dt at the ends |
| BHDetector.Diff2IsBackwardDifference | snewpdag/plugins/features/BH_Detector.py:60 | diff2[i] = (diff1[i] - diff1[i-1]) / dt, and diff2[0] = diff1[0]/dt |
| BHDetector.EdgeMaskIsEdgeAt | snewpdag/plugins/features/BH_Detector.py:63-70 | the sign-product mask of each branch equals the sign-free conditions (neighbours strictly on opposite sides of zero) |
| BHDetector.Selected | snewpdag/plugins/features/BH_Detector.py:63-72 | the selected slice indices are ascending and lie in [0, n-3] |
| BHDetector.SelectedCharacterised | snewpdag/plugins/features/BH_Detector.py:63-72 | a slice index is selected iff the edge conditions hold at the full index one above it; nothing is selected iff no interior index is an edge |
| BHDetector.EdgeIndices | snewpdag/plugins/features/BH_Detector.py:53-76 | the returned indices are strictly ascending and lie in [1, n-2], so times[drop_ind[-1]] is in bounds; when the time bins span no time (every diff2 infinite or NaN) nothing is returned |
| Numeric.Shift | snewpdag/plugins/features/BH_Detector.py:76 | edge_ind + 1: same length, every index raised by the offset |
| BHDetector.EdgeIndicesCharacterised | snewpdag/plugins/features/BH_Detector.py:63-76 | i is returned iff 1 <= i <= n-2 and the conditions of the edge type hold there (falling: abs(diff2[i]) < epsilon, diff2[i-1] < 0 < diff2[i+1], diff1[i] < thresh_slope; rising and both use the same signed threshold); an unknown type returns nothing |
| BHDetector.ConstantSeriesHasNoFallingEdge | snewpdag/plugins/features/BH_Detector.py:63-66 | a constant series has no falling edge when thresh_slope <= 0 |
| BHDetector.FlatSeriesReportsRisingEdge | snewpdag/plugins/features/BH_Detector.py:45-68 | with epsilon 60 and slope threshold -400 the constant series [1, 1, 1] over times [0, 1, 2] reports exactly the rising edge [1] |
| BHDetector.Gradient | snewpdag/plugins/features/BH_Detector.py:84-86 | the absolute centred difference has zero ends and no negative entry |
| BHDetector.GradientValue | snewpdag/plugins/features/BH_Detector.py:84 | inside the series the gradient is abs(s[i+1] - s[i-1]) |
| BHDetector.Normalized | snewpdag/plugins/features/BH_Detector.py:87 | the rescaled gradient has one entry per gradient entry (its range is stated by NormalizedRange) |
| BHDetector.NormalizedRange | snewpdag/plugins/features/BH_Detector.py:87 | rescaling a zero-ended non-negative series by its positive maximum keeps zero ends, puts every entry in [0, 100], 100 at the first maximum, and makes the new maximum 100 |
| BHDetector.NormalizedGradientRange | snewpdag/plugins/features/BH_Detector.py:84-87 | the normalised gradient has diff[0] = diff[n-1] = 0, entries in [0, 100] and maximum exactly 100 when the raw maximum is positive |
| BHDetector.Suppressed | snewpdag/plugins/features/BH_Detector.py:90-91 | non-maximum suppression: zero ends, and each interior entry is diff[i] when it is at least both neighbours, else 0 |
| BHDetector.SuppressionUnique | snewpdag/plugins/features/BH_Detector.py:90-91 | those conditions determine the suppressed array completely |
| BHDetector.CannyEdges | snewpdag/plugins/features/BH_Detector.py:84-91 | the thinned strengths have zero ends and lie in [0, 100]; when the gradient is zero everywhere (numpy's NaN case) they are all zero |
| BHDetector.StrongIndices | snewpdag/plugins/features/BH_Detector.py:95 | strong_i is ascending and holds exactly the indices whose strength is at least strong_threshold |
| BHDetector.WeakIndices | snewpdag/plugins/features/BH_Detector.py:94 | weak_i is ascending and holds exactly the indices whose strength is at least weak_threshold and below strong_threshold |
| BHDetector.Linked | snewpdag/plugins/features/BH_Detector.py:98 | hysteresis keeps exactly the weak indices whose predecessor or successor is strong |
| BHDetector.LinkedKeepsOrder | snewpdag/plugins/features/BH_Detector.py:98 | hysteresis keeps the weak indices ascending |
| BHDetector.Merge | snewpdag/plugins/features/BH_Detector.py:99 | np.insert at searchsorted positions yields every strong and every kept weak index, as many entries as both lists |
| BHDetector.MergeKeepsOrder | snewpdag/plugins/features/BH_Detector.py:99 | inserting ascending weak indices, none of them strong, into the ascending strong indices gives an ascending list |
| BHDetector.Hysteresis | snewpdag/plugins/features/BH_Detector.py:94-99 | the result is strictly ascending and holds exactly the strong indices and the weak indices with a strong neighbour |
| BHDetector.CannyEdgeIndices | snewpdag/plugins/features/BH_Detector.py:79-101 | the Canny result is strictly ascending and holds exactly the strong indices and the weak indices next to a strong one; no isolated weak index survives |
| BHDetector.PeakKept | snewpdag/plugins/features/BH_Detector.py:90-91 | an entry of 100 in a zero-ended series bounded by 100 is interior and survives suppression |
| BHDetector.PeakSurvivesSuppression | snewpdag/plugins/features/BH_Detector.py:85-91 | the index of the first raw maximum is interior and holds 100 after normalisation and suppression |
| BHDetector.CannyKeepsSteepestIndex | snewpdag/plugins/features/BH_Detector.py:85-99 | with a positive raw maximum and strong_threshold <= 100, the index of the steepest gradient is in the result, which is therefore non-empty |
| BHDetector.GradientArray | snewpdag/plugins/features/BH_Detector.py:84-86 | the array built from abs(convolve) with both ends overwritten by zero is the gradient |
| BHDetector.RescaleInPlace | snewpdag/plugins/features/BH_Detector.py:87 | the rescaling of line 87, done in place here, leaves every entry as old / max * 100 |
| BHDetector.SuppressInto | snewpdag/plugins/features/BH_Detector.py:90-91 | writing the interior of the zero-initialised edges array yields the non-maximum suppression of diff |
| BHDetector.CannyEdgeDetector | snewpdag/plugins/features/BH_Detector.py:79-101 | the array-based detector returns exactly the indices of the specification, including the all-zero-gradient case where numpy's NaN comparisons leave the edges zero |
| BHDetector.BHDetector.constructor | snewpdag/plugins/features/BH_Detector.py:40-50 | fields from the arguments, epsilon 60 and thresh_slope -400 by default, no drop found yet |
| BHDetector.BHDetector.Alert | snewpdag/plugins/features/BH_Detector.py:103-127 | found_drop iff the falling-edge list is non-empty; drop_time is the time of the last falling edge or None; data gains exactly has_drop and drop_time with those values, other keys unchanged; returns True |
| SharpDropoff.MinSize | snewpdag/plugins/features/SharpDropoff.py:56 | max(2, ceil(char_time / dt)) is at least 2 |
| SharpDropoff.MinSizeSpans | snewpdag/plugins/features/SharpDropoff.py:51-56 | for dt > 0 the minimum segment spans char_time (min_size * dt >= char_time), and when above 2 it is the least such size |
| SharpDropoff.StepsUpIffIncreasing | snewpdag/plugins/features/SharpDropoff.py:59 | breakpoints that step up at every position are exactly the strictly increasing ones |
| SharpDropoff.BreakpointsBounds | snewpdag/plugins/features/SharpDropoff.py:59-60 | 0 followed by the breakpoints is an ascending list of boundaries within [0, n], and there are at most n breakpoints |
| SharpDropoff.Bounds | snewpdag/plugins/features/SharpDropoff.py:60 | the boundaries are 0 then the breakpoints: one more than the breakpoints, ascending, within [0, n] |
| SharpDropoff.Segment | snewpdag/plugins/features/SharpDropoff.py:66 | the slice log_vals[bkps[i]:bkps[i+1]] is non-empty, with bkps[i+1] - bkps[i] samples |
| SharpDropoff.SegmentMeans | snewpdag/plugins/features/SharpDropoff.py:64-66 | log_means has one entry per segment, as many as the breakpoints the search returned |
| SharpDropoff.SegmentMeansWithin | snewpdag/plugins/features/SharpDropoff.py:64-66 | one mean per segment, each between its segment's minimum and maximum |
| SharpDropoff.LogMeans | snewpdag/plugins/features/SharpDropoff.py:64-66 | the log_means loop yields, in order, the mean of log_vals[bkps[i]:bkps[i+1]] for every segment |
| SharpDropoff.Diffs | snewpdag/plugins/features/SharpDropoff.py:70 | np.diff has one entry fewer than a non-empty input, none for an empty one (its entries are stated by DiffsAt) |
| SharpDropoff.DiffsAt | snewpdag/plugins/features/SharpDropoff.py:70 | entry k of np.diff is log_means[k+1] - log_means[k] |
| SharpDropoff.DiffsTelescope | snewpdag/plugins/features/SharpDropoff.py:70 | the steps sum to the change from the first mean to the last |
| SharpDropoff.Steps | snewpdag/plugins/features/SharpDropoff.py:60-70 | there is one step per pair of consecutive segments, fewer than the samples |
| SharpDropoff.SegmentSteps | snewpdag/plugins/features/SharpDropoff.py:60-70 | prepending 0, filling the means and differencing them yields the specified steps |
| SharpDropoff.DetectionIffEveryStepFalls | snewpdag/plugins/features/SharpDropoff.py:70-73 | drop_max <= -log2(thresh_drop) iff every step falls by at least log2(thresh_drop) |
| SharpDropoff.ConstantSeriesNoDrop | snewpdag/plugins/features/SharpDropoff.py:64-73 | on constant log counts with at least two segments and a threshold above 1, no drop is detected |
| SharpDropoff.DropIndexInBounds | snewpdag/plugins/features/SharpDropoff.py:70-74 | the index used for drop_time is a segment-pair index below the number of samples, and it is the first index of the largest step |
| SharpDropoff.AlertFailure | snewpdag/plugins/features/SharpDropoff.py:50-73 | alert raises exactly when there are fewer than two time bins, the first step is zero, there is one segment, or the threshold is not positive |
| SharpDropoff.SharpDropoff.constructor | snewpdag/plugins/features/SharpDropoff.py:34-46 | char_time 0.0002, penalty 0.6 and threshold_drop 3 by default; min_size 2 before any alert; no drop found yet |
| SharpDropoff.SharpDropoff.Alert | snewpdag/plugins/features/SharpDropoff.py:48-87 | the result is an error exactly as AlertFailure says; min_size is set once dt is usable; drop_max is the largest step once it is computed; a detection (drop_max <= -log2 threshold) sets drop_time = times[first argmax] and found_dropoff, otherwise both keep their old values, so found_dropoff never goes back to False; on success data gains exactly has_drop, drop_time and max_drop = 2**drop_max |

## Left out

- scipy's `median_filter` (BH_Detector.py lines 55 and 81) is a library call. The smoothed series is an input of `EdgeIndices`, `CannyEdgeDetector` and `BHDetector.BHDetector.Alert`.
- ruptures' `KernelCPD.fit_predict` (SharpDropoff.py lines 46 and 59) is a foreign change-point search. Its breakpoints are an input: ascending ends of non-empty segments, the last being the number of samples. The penalty is kept as a field but not used, and `min_size` is recorded without any effect on the search.
- `np.log2` of the counts, `math.log2` of the threshold, and `2**drop_max` are not computed.
  - The log2 counts are an input.
  - log2 of the threshold is a constructor parameter.
  - `max_drop` is written as the symbolic value `Exp2Val(drop_max)`.
- Floating point is modelled as exact reals. IEEE rounding, infinities from log2 of a zero count, and NaN are not modelled. Two infinite or NaN cases that decide a result are modelled by their outcome: a Canny gradient that is zero everywhere gives all-zero edge strengths, and time bins that span no time give the edge finder no edges.
- Logging and `logging.basicConfig` are left out, including the `times[bkps[:-1]]` lookup, which only feeds a log line.
- The `Node` base class, its keyword-argument plumbing and the `out_field` option are left out. `out_field` is kept as a field that is never read, as in the source.
- snewpdag/tests/test_sharp_drop.py is left out: it needs an external data file and the change-point library.
- BHDetector.EdgeIndices: requires at least three samples; with fewer, numpy's convolve swaps its operands, which is not modelled. A zero time span is modelled by its outcome only: numpy's division by zero makes every diff2 entry infinite or NaN, so no index passes `abs(diff2) < epsilon`, nothing is returned, and `alert` reports no drop. The infinite and NaN derivatives themselves are not modelled.
- BHDetector.CannyEdgeDetector: requires at least three samples. It takes the smoothed series directly; the source's unused first parameter (`times`, which receives the plugin when the function is called as a method) is dropped.
- BHDetector.BHDetector.Alert: requires a payload with time and count arrays of the smoothed series' length. Missing keys, which raise in the source, are not modelled.
- SharpDropoff.SharpDropoff.Alert: requires a payload whose time and count arrays match the log counts, and well-formed breakpoints. A malformed breakpoint list from the change-point search is not modelled.
- Neither `Alert` method models the partial writes before an exception inside the library calls. Only the exceptions raised by the modelled code are modelled: indexing `times[1]`, `ceil` of a division by zero, `max` of an empty array, and `log2` of a non-positive threshold.
