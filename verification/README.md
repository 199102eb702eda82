# Crypto price anomaly analyzer — Dafny model

This project models the analysis engine of a live cryptocurrency price
monitor (`app/analyzer.py`). Each cycle of the analyzer's poll loop reads
the trade prices and the alert log from a shared state document. It takes
the last 120 prices as the window and computes their mean, standard
deviation and the z-score of the latest price. Over that one window it runs
three detectors:

- a two-sided CUSUM drift detector on the standardised prices;
- a variance-ratio F-test comparing the window's older and newer halves;
- an isolation-forest outlier classifier, refitted on the last 500 prices.

The three signals are fused by logical OR into one decision. The decision
goes into an alert log bounded at 200 entries: the full record when the
cycle is anomalous, a `{ts, price, anomaly: false}` sample point otherwise.

Prices are Dafny `real`s, so every statistic is exact. The model is pure
functions over `seq<real>`, in five modules:

- `Common`: an option type and Python's `s[-n:]` slice (`Last`).
- `Statistics`: sum, mean, population and Bessel-corrected variance, the
  zero-deviation floor, standardisation, and the facts that tie zero
  variance to constant data.
- `Cusum`: the detector as a step function folded over the window
  (`Step`, `Scan`, `Detect`), with its accumulator band, trigger order and
  trigger-count bounds.
- `VarianceRatio`: the F statistic (`Ratio`), the two-sided fold
  (`TwoSided`), the fail-open test (`Test`) and its swap symmetry.
- `Analyzer`: the window, the decision (`Measure`, `Decide`), the retraining
  rule, the alert log (`AppendAlert`) and one whole cycle (`Cycle`). Also
  here: the properties of a cycle on a constant window, the idempotence of
  a repeated cycle, and the jump scenario (120 prices at 100, then three at
  130), which provably fires a positive CUSUM trigger.

Things the analyzer gets from outside enter as parameters:

- the timestamp `now`;
- the window's standard deviation `sigma`, which must satisfy
  `sigma >= 0 && sigma² == PopVariance(window)`;
- the F distribution's CDF, as a function returning a value or `Raised`;
- the isolation forest's prediction, as a function of the training set and
  the price. The forest is seeded (`random_state=42`), so a fitted model is
  determined by its training set, and the model held between cycles is
  represented by that set.

Three details of the code decide behaviour that a quick reading of the
analyzer might get wrong; the model follows the code in each:

- The alert log is cut to its last 199 entries before the branch
  (`app/analyzer.py:119`), so the cut happens for sample points as well as
  for anomalies. The later cut to 200 (line 127) never removes anything.
  `AppendAlertIsFifo` proves the whole update equals "append, then keep the
  last 200".
- The halves are `window[:half]` and `window[half:]`, so for a window of odd
  length the newer half has one more point. The degrees of freedom are
  always `(len(w2) - 1, len(w1) - 1)`, even when `w1` has the larger
  variance and supplies the numerator. As a result the test is symmetric
  under swapping the halves only when they have equal length
  (`SwapSymmetric`). `SwapAsymmetricForUnequalHalves` gives a concrete
  counterexample for halves of 6 and 7 points.
- `cusum_detector` defaults to `h = 5.0`, but the only caller passes
  `CUSUM_THRESHOLD = 4.0`. The model's cycle uses 4.0.

## Model

| member | source | states |
|---|---|---|
| Common.Last | app/analyzer.py:77 | Python's `s[-n:]`: the result has `min(len(s), n)` elements and is the suffix of `s` of that length, in order (also the slices at lines 95, 119 and 127) |
| Statistics.Mean | app/analyzer.py:32 | `np.mean`; the empty sequence is given mean 0, which no caller reads (see Left out); what the mean is, is stated by `MeanWithinRange` and `MeanOfConstant` |
| Statistics.MeanWithinRange | app/analyzer.py:32 | the mean of a non-empty window is at least its smallest and at most its largest price (also line 78) |
| Statistics.MeanOfConstant | app/analyzer.py:32 | the mean of a non-empty constant window is its one price |
| Statistics.PopVariance | app/analyzer.py:33 | `np.var`, the square of `np.std` (also line 79): never negative; `PopVarianceZeroIff` says when it is zero |
| Statistics.SampleVariance | app/analyzer.py:51-52 | `np.var(ddof=1)`: never negative; `SampleVarianceBounds` and `SampleVarianceZeroIff` relate it to the population variance and to constant halves |
| Statistics.SampleVarianceBounds | app/analyzer.py:51-52 | the Bessel-corrected variance is at least the population variance, and the two are zero together |
| Statistics.PopVarianceZeroIff | app/analyzer.py:33 | the population variance of a window is zero exactly when every price in it is the same, which is when the detector substitutes 1.0 for the deviation |
| Statistics.SampleVarianceZeroIff | app/analyzer.py:51-54 | the Bessel-corrected variance of a half is zero exactly when the half is constant |
| Statistics.ConstantStandardizesToZero | app/analyzer.py:32-37 | a constant window has standard deviation zero and every price in it standardises to zero |
| Statistics.SafeSigma | app/analyzer.py:33 | the divisor is positive: the deviation when positive, 1.0 otherwise |
| Statistics.Standardize | app/analyzer.py:37 | each standardised increment times the divisor is the price's deviation from the mean |
| Cusum.Step | app/analyzer.py:37-45 | for `h >= 0` both accumulators end inside `[0, h]` and `[-h, 0]`; a positive trigger fires exactly when `s_pos + z - k > h` and a negative one exactly when `s_neg + z + k < -h`; a trigger resets its accumulator to zero, and an accumulator that does not fire carries `max(0, s_pos + z - k)` or `min(0, s_neg + z + k)`; every trigger carries the step's index, positive before negative |
| Cusum.Scan | app/analyzer.py:30-46 | starting from zero accumulators, the pass keeps them in the band, every trigger index is inside the window, triggers are in firing order, and there are at most two per price |
| Cusum.Detect | app/analyzer.py:28-46 | `cusum_detector` returns triggers with indices in `[0, len(prices))`, in firing order, at most `2·len(prices)` of them |
| Cusum.OrderedMeansFiringOrder | app/analyzer.py:35-46 | trigger indices never decrease, and two triggers at one index are a positive followed by a negative |
| Cusum.ScanPrefix | app/analyzer.py:35-46 | the triggers over a prefix of the window are a prefix of the triggers over the window |
| Cusum.LargeRiseFires | app/analyzer.py:38-42 | a standardised price above `h + k` fires a positive trigger at its index whatever preceded it |
| Cusum.LargeDropFires | app/analyzer.py:39-45 | a standardised price below `-(h + k)` fires a negative trigger at its index |
| Cusum.RunAccumulates | app/analyzer.py:38-42 | over a run of standardised prices each at least `d` above the slack, none of which fires, the positive sum grows by at least `d` per price |
| Cusum.SustainedRiseFires | app/analyzer.py:35-42 | `m` consecutive standardised prices each at least `d > 0` above the slack, with `m·d > h`, fire a positive trigger at one of their indices, even when no single price exceeds `h + k` |
| Cusum.QuietScan | app/analyzer.py:30-45 | while every standardised price lies within the slack, both accumulators stay zero and nothing fires |
| Cusum.ConstantWindowIsQuiet | app/analyzer.py:32-46 | a constant window with `k, h >= 0` produces no trigger |
| VarianceRatio.Ratio | app/analyzer.py:51-57 | the degenerate case arises exactly when a half is constant; otherwise `F >= 1` is the larger variance over the smaller, with degrees of freedom `(len(w2)-1, len(w1)-1)` |
| VarianceRatio.TwoSided | app/analyzer.py:62 | the fold `2·min(p, 1-p)` maps probabilities to probabilities: `2p` below one half, `2(1-p)` above |
| VarianceRatio.TwoSidedSymmetric | app/analyzer.py:62 | the fold gives the same value for `p` and `1 - p` |
| VarianceRatio.Test | app/analyzer.py:49-65 | a constant half gives exactly 1.0, a raising CDF gives exactly 1.0, a CDF value `p` gives exactly `2·min(p, 1-p)` (in `[0,1]` when `p` is), and any result other than 1.0 is that fold |
| VarianceRatio.RatioSwap | app/analyzer.py:55-57 | swapping the halves keeps `F` and swaps the degrees of freedom |
| VarianceRatio.SwapSymmetric | app/analyzer.py:55-57 | for halves of equal length, swapping them leaves the p-value unchanged |
| VarianceRatio.SwapAsymmetricForUnequalHalves | app/analyzer.py:55-57 | for halves of 6 and 7 points there is a CDF under which swapping the halves changes the p-value |
| Analyzer.Window | app/analyzer.py:77 | the window is the last `min(n, 120)` prices, in order |
| Analyzer.WindowSlides | app/analyzer.py:77 | one new price joins the window and, once it is full, the oldest price leaves |
| Analyzer.ZScore | app/analyzer.py:80 | the z-score times the floored deviation is the latest price's deviation from the mean; it is zero exactly at the mean |
| Analyzer.VariancePValue | app/analyzer.py:86-90 | with `half = len(window)//2`, the p-value is the variance test on `window[:half]` and `window[half:]` when `half > 5` and 1.0 otherwise; it is 1.0 for a constant window, and lies in `[0,1]` for a CDF that returns probabilities |
| Analyzer.Retrain | app/analyzer.py:93-97 | with at least 500 prices the model is fitted on exactly the last 500; otherwise the previous model is kept |
| Analyzer.RetrainForgetsPriorModel | app/analyzer.py:93-97 | retraining discards the prior model: the result does not depend on it |
| Analyzer.IsolationFlag | app/analyzer.py:99-103 | the flag is set exactly when a model exists and predicts an outlier for the price |
| Analyzer.Measure | app/analyzer.py:76-90 | the mean, the latest price's z-score, the CUSUM trigger count and the variance p-value are all computed over the same window `prices[-120:]`; the count is at most 240, and the p-value is 1.0 when a half would have at most five points |
| Analyzer.Anomalous | app/analyzer.py:115 | the fusion rule: any one of a CUSUM trigger, `pvar < 0.01` or the isolation flag makes the cycle anomalous, and with none of them it is normal |
| Analyzer.Decide | app/analyzer.py:105-121 | `anomaly` holds exactly when `cusum_count > 0` or `pvar < 0.01` or the isolation flag is set; the note `ANOMALY_DETECTED` is present exactly on anomalous decisions; `sigma` is stored raw |
| Analyzer.Entry | app/analyzer.py:120-126 | an anomalous decision enters the log whole, a normal one as a sample point carrying only its time and price |
| Analyzer.AppendAlert | app/analyzer.py:118-127 | the new log holds at most 200 entries, ends with this cycle's entry (the full decision if anomalous, else the sample point), and before it holds the most recent `min(len, 199)` entries of the old log in their original order |
| Analyzer.AppendAlertIsFifo | app/analyzer.py:118-127 | the trim-append-trim sequence equals appending and keeping the last 200 entries |
| Analyzer.Cycle | app/analyzer.py:76-134 | with fewer than 10 prices nothing changes: no decision, same document, same model; otherwise the model is retrained if due, one decision is taken, the log gets its entry, the stats hold the raw deviation, `last_update` is `now`, and the prices are untouched |
| Analyzer.LogStaysWithinCapacity | app/analyzer.py:118-127 | a log within 200 entries stays within 200 after any cycle |
| Analyzer.NoModelNoIsolationFlag | app/analyzer.py:93-103 | with no model held and fewer than 500 prices, no model is fitted and the isolation flag is false |
| Analyzer.ConstantWindowSignals | app/analyzer.py:77-90 | over a constant window the mean is the price, the z-score is 0, the CUSUM count is 0 and the variance p-value is 1.0 |
| Analyzer.ConstantWindowDecision | app/analyzer.py:76-115 | a cycle over a constant window stores sigma 0, z-score 0, no CUSUM trigger and p-value 1.0, and is anomalous exactly when the isolation flag is set |
| Analyzer.CycleIdempotent | app/analyzer.py:76-116 | a second cycle over the same prices, with the model the first left, yields the same model and the same decision except for `ts`, whatever the alert log held |
| Analyzer.JumpWindowMean | app/analyzer.py:78 | 117 prices at 100 followed by 3 at 130 have mean 100.75 |
| Analyzer.JumpWindowVariance | app/analyzer.py:79 | that window has population variance 21.9375 |
| Analyzer.JumpFires | app/analyzer.py:83 | over that window CUSUM fires a positive trigger at index 117, the first price at 130 |
| Analyzer.JumpIsDetected | app/analyzer.py:76-115 | for 120 prices at 100 followed by three at 130, a deviation whose square is 21.9375 is the window's standard deviation, and with it the cycle counts at least one CUSUM trigger and is anomalous |

## Left out

- `load_state` and `write_state` (app/analyzer.py:17-25, 135): reading and writing the JSON file, and the empty document used when the file is missing, are file I/O. The document is a value passed into and returned from `Cycle`, and `state.get` defaults are not modelled.
- The poll loop, `time.sleep`, `time.time()` and the `KeyboardInterrupt` handler (app/analyzer.py:67-74, 137-143) are control flow and clocks. `now` is a parameter, and `Cycle` models one iteration.
- The `print` of each alert (app/analyzer.py:123) is console output.
- `scipy.stats.f.cdf` (app/analyzer.py:60) is a foreign numerical routine. It is the parameter `cdf`, which returns a value or `Raised`. What it computes is not modelled.
- IsolationForest fitting and prediction (app/analyzer.py:93-103) come from a foreign machine-learning library. The contamination rate of 0.01 is part of that library's behaviour. The model is its training set, and prediction is the parameter `predict`.
- The square root inside `np.std` is not modelled: `sigma` is an input satisfying `IsPopStd`.
- Floating point is not modelled. Prices and statistics are exact reals, so rounding, infinities and NaN are out of scope. That includes a NaN that a CDF returns instead of raising.
- VarianceRatio.Test: requires each half to hold at least two points. With fewer, numpy's `ddof=1` variance is NaN and the function returns NaN. The analyzer only calls the test on halves of at least six points.
- Statistics.Mean: the mean and variance of an empty window are taken as 0, where numpy gives NaN. Only the empty CUSUM pass can reach them, and it reads neither.
- Trade fields other than the price (quantity, timestamp, maker flag) are never read by the analyzer, so a document holds only prices.
- app/streamer.py (websocket ingestion and its periodic file writes) and app/dashboard.py (the Streamlit display) are network, I/O and UI code.
- The state file shared between processes without locking is a concurrency matter and is not modelled.
