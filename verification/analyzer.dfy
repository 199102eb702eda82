/** One analysis cycle of the analyzer's poll loop: from the trade prices
    and the alert log of the shared state document, build the rolling
    statistics, run the three detectors over the same window, fuse them
    into one decision, and append to the bounded alert log. The wall clock,
    the square root behind the standard deviation, the F distribution and
    the isolation forest enter as parameters. */
module Analyzer {
  import opened Common
  import opened Statistics
  import Cusum
  import VarianceRatio

  /** `ROLL_WINDOW`: prices in the analysis window. */
  const RollWindow: nat := 120
  /** Fewer prices than this and the cycle does nothing. */
  const MinHistory: nat := 10
  /** The slack `k` and `CUSUM_THRESHOLD` the cycle passes to the detector
      (whose own default threshold, 5.0, is never used). */
  const CusumSlack: real := 0.5
  const CusumThreshold: real := 4.0
  /** A half-window must hold more points than this for the variance test. */
  const MinHalf: nat := 5
  /** Below this variance p-value the cycle is anomalous. */
  const PValueCutoff: real := 0.01
  /** `IF_ESTIMATE_WINDOW`: prices the isolation forest is fitted on. */
  const IfEstimateWindow: nat := 500
  /** The alert log keeps this many entries; an incoming log is first cut
      to one fewer to leave room for the new one. */
  const AlertCapacity: nat := 200
  const AnomalyNote: string := "ANOMALY_DETECTED"

  /** The `stats` block of the shared state document. */
  datatype RollingStats = RollingStats(mu: real, sigma: real, zscore: real)

  /** A decision record; `note` is present on anomalous decisions. */
  datatype Decision = Decision(
    ts: int, price: real, mu: real, sigma: real, zscore: real,
    cusumCount: nat, variancePval: real, isolationFlag: bool,
    anomaly: bool, note: Option<string>)

  /** An alert log entry: a full decision (anomalous cycles) or a
      `{ts, price, anomaly: false}` sample point (normal cycles). */
  datatype AlertEntry = Full(decision: Decision) | Sample(ts: int, price: real)

  /** A fitted `IsolationForest(contamination=0.01, random_state=42)`. The
      seed is fixed, so a model is determined by the prices it was fitted
      on. */
  datatype OutlierModel = OutlierModel(trainingSet: seq<real>)

  /** `model.predict([[x]])[0] == -1` for the model fitted on a training
      set. */
  type Predict = (seq<real>, real) -> bool

  /** The fields of the shared state document the analyzer reads or
      writes; only the price of each trade is used. */
  datatype Document = Document(
    prices: seq<real>, alerts: seq<AlertEntry>,
    stats: Option<RollingStats>, lastUpdate: Option<int>)

  /** What a cycle leaves behind: the document to write, the model held in
      memory for the next cycle, and the decision taken, if any. */
  datatype CycleResult = CycleResult(doc: Document, model: Option<OutlierModel>, decision: Option<Decision>)

  /** `prices[-ROLL_WINDOW:]`: the most recent prices, oldest first. */
  function Window(prices: seq<real>): (w: seq<real>)
    ensures |w| <= RollWindow
    ensures |w| == if |prices| < RollWindow then |prices| else RollWindow
    ensures w == prices[|prices| - |w|..]
  {
    Last(prices, RollWindow)
  }

  /** The window slides: when one more price arrives, it joins the window
      and the oldest price leaves once the window is full. */
  lemma WindowSlides(prices: seq<real>, x: real)
    ensures Window(prices + [x]) == Last(Window(prices) + [x], RollWindow)
  {
    var a := Window(prices + [x]);
    var b := Last(Window(prices) + [x], RollWindow);
    assert |a| == |b|;
    forall i | 0 <= i < |a|
      ensures a[i] == b[i]
    {
      if i < |a| - 1 {
        assert a[i] == (prices + [x])[|prices| + 1 - |a| + i];
      }
    }
  }

  /** `(price - mu) / (sigma if sigma > 0 else 1.0)`. */
  function ZScore(price: real, mu: real, sigma: real): (z: real)
    ensures z * SafeSigma(sigma) == price - mu
    ensures sigma <= 0.0 ==> z == price - mu
    ensures z == 0.0 <==> price == mu
  {
    (price - mu) / SafeSigma(sigma)
  }

  /** The variance p-value of a window: the test on its halves
      `window[:half]` and `window[half:]` when each half has more than five
      points, and 1.0 (no change) otherwise. A constant window never shows a
      change. */
  function VariancePValue(window: seq<real>, cdf: VarianceRatio.FCdf): (pval: real)
    ensures |window| / 2 <= MinHalf ==> pval == 1.0
    ensures |window| / 2 > MinHalf ==>
      pval == VarianceRatio.Test(window[..|window| / 2], window[|window| / 2..], cdf)
    ensures Constant(window) ==> pval == 1.0
    ensures (forall f, dfn, dfd :: cdf(f, dfn, dfd).Value? ==> 0.0 <= cdf(f, dfn, dfd).p <= 1.0) ==>
      0.0 <= pval <= 1.0
  {
    var half := |window| / 2;
    if half > MinHalf then
      assert Constant(window) ==> Constant(window[..half]) && Constant(window[half..]);
      VarianceRatio.Test(window[..half], window[half..], cdf)
    else 1.0
  }

  /** The model after this cycle's retraining step: refitted from scratch on
      the last 500 prices once that many exist, else the one from before. */
  function Retrain(prices: seq<real>, model: Option<OutlierModel>): (m: Option<OutlierModel>)
    ensures |prices| >= IfEstimateWindow ==>
      m.Some? && |m.value.trainingSet| == IfEstimateWindow &&
      m.value.trainingSet == prices[|prices| - IfEstimateWindow..]
    ensures |prices| < IfEstimateWindow ==> m == model
  {
    if |prices| >= IfEstimateWindow then Some(OutlierModel(Last(prices, IfEstimateWindow)))
    else model
  }

  /** Retraining replaces the model outright: once 500 prices exist, the
      model held before has no influence on the one that results. */
  lemma RetrainForgetsPriorModel(prices: seq<real>, m1: Option<OutlierModel>, m2: Option<OutlierModel>)
    requires |prices| >= IfEstimateWindow
    ensures Retrain(prices, m1) == Retrain(prices, m2)
  {
  }

  /** The isolation flag: false while no model has been fitted, otherwise
      the model's verdict on the price. */
  function IsolationFlag(model: Option<OutlierModel>, price: real, predict: Predict): (flag: bool)
    ensures flag <==> model.Some? && predict(model.value.trainingSet, price)
  {
    match model
    case None => false
    case Some(m) => predict(m.trainingSet, price)
  }

  /** The fusion rule: any one signal makes the cycle anomalous, and a
      cycle with none of them is normal. */
  predicate Anomalous(cusumCount: nat, pval: real, isolation: bool)
    ensures cusumCount > 0 ==> Anomalous(cusumCount, pval, isolation)
    ensures pval < PValueCutoff ==> Anomalous(cusumCount, pval, isolation)
    ensures isolation ==> Anomalous(cusumCount, pval, isolation)
    ensures cusumCount == 0 && pval >= PValueCutoff && !isolation ==> !Anomalous(cusumCount, pval, isolation)
  {
    cusumCount > 0 || pval < PValueCutoff || isolation
  }

  /** The window statistics and the two window detectors' outputs. */
  datatype Signals = Signals(mu: real, zscore: real, cusumCount: nat, variancePval: real)

  /** Rolling statistics, CUSUM trigger count and variance p-value of a
      history of at least `MinHistory` prices, all over the same window. */
  function Measure(prices: seq<real>, sigma: real, cdf: VarianceRatio.FCdf): (s: Signals)
    requires |prices| >= MinHistory
    requires IsPopStd(Window(prices), sigma)
    ensures s.mu == Mean(Window(prices))
    ensures s.zscore == ZScore(prices[|prices| - 1], s.mu, sigma)
    ensures s.cusumCount == |Cusum.Detect(Window(prices), sigma, CusumSlack, CusumThreshold)|
    ensures s.cusumCount <= 2 * RollWindow
    ensures s.variancePval == VariancePValue(Window(prices), cdf)
    ensures |Window(prices)| / 2 <= MinHalf ==> s.variancePval == 1.0
  {
    var window := Window(prices);
    var mu := Mean(window);
    Signals(mu, ZScore(prices[|prices| - 1], mu, sigma),
            |Cusum.Detect(window, sigma, CusumSlack, CusumThreshold)|,
            VariancePValue(window, cdf))
  }

  /** The decision record: the fused verdict over the three signals, with
      the anomaly note on exactly the anomalous decisions. */
  function Decide(now: int, price: real, sigma: real, s: Signals, isolation: bool): (d: Decision)
    ensures d.ts == now && d.price == price && d.sigma == sigma
    ensures d.mu == s.mu && d.zscore == s.zscore && d.cusumCount == s.cusumCount
    ensures d.variancePval == s.variancePval && d.isolationFlag == isolation
    ensures d.anomaly <==> d.cusumCount > 0 || d.variancePval < PValueCutoff || d.isolationFlag
    ensures d.note == if d.anomaly then Some(AnomalyNote) else None
  {
    var anomaly := Anomalous(s.cusumCount, s.variancePval, isolation);
    Decision(now, price, s.mu, sigma, s.zscore, s.cusumCount, s.variancePval, isolation,
             anomaly, if anomaly then Some(AnomalyNote) else None)
  }

  /** The log entry a decision becomes: the whole decision when it is
      anomalous, otherwise only its time and price. */
  function Entry(d: Decision): (e: AlertEntry)
    ensures e.Full? <==> d.anomaly
    ensures e.Full? ==> e.decision == d
    ensures e.Sample? ==> e.ts == d.ts && e.price == d.price
  {
    if d.anomaly then Full(d) else Sample(d.ts, d.price)
  }

  /** Lines 119-127: keep the last 199 entries of the incoming log, append
      the new entry, keep the last 200. The result never exceeds the
      capacity, ends with the new entry, and before it holds the most
      recent entries of the incoming log, in order, as many as fit. */
  function AppendAlert(log: seq<AlertEntry>, d: Decision): (r: seq<AlertEntry>)
    ensures |r| <= AlertCapacity
    ensures |r| == (if |log| < AlertCapacity - 1 then |log| else AlertCapacity - 1) + 1
    ensures r[|r| - 1] == Entry(d)
    ensures log == log[..|log| - (|r| - 1)] + r[..|r| - 1]
  {
    var kept := if |log| >= AlertCapacity - 1 then Last(log, AlertCapacity - 1) else log;
    assert log == log[..|log| - |kept|] + kept;
    if d.anomaly then kept + [Full(d)]
    else Last(kept + [Sample(d.ts, d.price)], AlertCapacity)
  }

  /** The trimming around the append amounts to a plain first-in
      first-out log of capacity 200: append, then drop the oldest entries
      beyond capacity. Whether the cut happens before or after the append
      makes no difference to the result. */
  lemma AppendAlertIsFifo(log: seq<AlertEntry>, d: Decision)
    ensures AppendAlert(log, d) == Last(log + [Entry(d)], AlertCapacity)
  {
    var r := AppendAlert(log, d);
    var f := Last(log + [Entry(d)], AlertCapacity);
    assert |r| == |f|;
    forall i | 0 <= i < |r|
      ensures r[i] == f[i]
    {
      if i < |r| - 1 {
        assert r[i] == r[..|r| - 1][i];
        assert log[|log| - (|r| - 1) + i] == (log + [Entry(d)])[|log| - (|r| - 1) + i];
      }
    }
  }

  /** One pass of the poll loop's body. With fewer than `MinHistory`
      prices nothing changes. Otherwise the model is retrained if due, a
      decision is taken over the window, the alert log gains its entry, and
      the statistics and timestamp are overwritten; the prices are never
      touched. `sigma` is the population standard deviation of the window. */
  function Cycle(doc: Document, model: Option<OutlierModel>, now: int, sigma: real,
                 cdf: VarianceRatio.FCdf, predict: Predict): (r: CycleResult)
    requires |doc.prices| >= MinHistory ==> IsPopStd(Window(doc.prices), sigma)
    ensures |doc.prices| < MinHistory ==> r == CycleResult(doc, model, None)
    ensures |doc.prices| >= MinHistory ==>
      && r.decision.Some?
      && r.model == Retrain(doc.prices, model)
      && r.decision.value == Decide(now, doc.prices[|doc.prices| - 1], sigma,
                                    Measure(doc.prices, sigma, cdf),
                                    IsolationFlag(r.model, doc.prices[|doc.prices| - 1], predict))
      && r.doc.prices == doc.prices
      && r.doc.alerts == AppendAlert(doc.alerts, r.decision.value)
      && r.doc.stats == Some(RollingStats(r.decision.value.mu, sigma, r.decision.value.zscore))
      && r.doc.lastUpdate == Some(now)
  {
    if |doc.prices| < MinHistory then CycleResult(doc, model, None)
    else
      var m := Retrain(doc.prices, model);
      var price := doc.prices[|doc.prices| - 1];
      var d := Decide(now, price, sigma, Measure(doc.prices, sigma, cdf), IsolationFlag(m, price, predict));
      CycleResult(
        Document(doc.prices, AppendAlert(doc.alerts, d),
                 Some(RollingStats(d.mu, sigma, d.zscore)), Some(now)),
        m, Some(d))
  }

  /** After any cycle that takes a decision the log is within capacity, and
      a cycle that skips leaves the log as it was; so a log that starts
      within capacity stays within it. */
  lemma LogStaysWithinCapacity(doc: Document, model: Option<OutlierModel>, now: int, sigma: real,
                               cdf: VarianceRatio.FCdf, predict: Predict)
    requires |doc.prices| >= MinHistory ==> IsPopStd(Window(doc.prices), sigma)
    requires |doc.alerts| <= AlertCapacity
    ensures |Cycle(doc, model, now, sigma, cdf, predict).doc.alerts| <= AlertCapacity
  {
  }

  /** Until a model has been fitted, the isolation flag is false: with no
      model held and fewer than 500 prices, no decision carries it. */
  lemma NoModelNoIsolationFlag(doc: Document, now: int, sigma: real,
                               cdf: VarianceRatio.FCdf, predict: Predict)
    requires |doc.prices| >= MinHistory ==> IsPopStd(Window(doc.prices), sigma)
    requires |doc.prices| < IfEstimateWindow
    ensures var r := Cycle(doc, None, now, sigma, cdf, predict);
            r.model.None? && (r.decision.Some? ==> !r.decision.value.isolationFlag)
  {
  }

  /** Over a constant window the z-score is zero, CUSUM fires nothing and
      the variance test sees no change. */
  lemma ConstantWindowSignals(prices: seq<real>, sigma: real, cdf: VarianceRatio.FCdf)
    requires |prices| >= MinHistory && IsPopStd(Window(prices), sigma)
    requires Constant(Window(prices))
    ensures Measure(prices, sigma, cdf) == Signals(prices[|prices| - 1], 0.0, 0, 1.0)
  {
    var window := Window(prices);
    Cusum.ConstantWindowIsQuiet(window, sigma, CusumSlack, CusumThreshold);
    MeanOfConstant(window);
    assert prices[|prices| - 1] == window[|window| - 1];
  }

  /** So a cycle over a constant window is anomalous only if the isolation
      forest says so; the decision stores the raw standard deviation, zero,
      not the 1.0 the z-score was divided by. */
  lemma ConstantWindowDecision(doc: Document, model: Option<OutlierModel>, now: int, sigma: real,
                               cdf: VarianceRatio.FCdf, predict: Predict)
    requires |doc.prices| >= MinHistory && IsPopStd(Window(doc.prices), sigma)
    requires Constant(Window(doc.prices))
    ensures var d := Cycle(doc, model, now, sigma, cdf, predict).decision.value;
            d.sigma == 0.0 && d.zscore == 0.0 && d.cusumCount == 0 && d.variancePval == 1.0 &&
            (d.anomaly <==> d.isolationFlag)
  {
    ConstantWindowSignals(doc.prices, sigma, cdf);
    ConstantStandardizesToZero(Window(doc.prices), sigma);
  }

  /** Running the cycle again on the same prices, with the model the first
      run left, repeats every field of the decision but the timestamp,
      whatever the alert log held. */
  lemma CycleIdempotent(doc: Document, doc': Document, model: Option<OutlierModel>,
                        now: int, now': int, sigma: real,
                        cdf: VarianceRatio.FCdf, predict: Predict)
    requires |doc.prices| >= MinHistory && IsPopStd(Window(doc.prices), sigma)
    requires doc'.prices == doc.prices
    ensures var r := Cycle(doc, model, now, sigma, cdf, predict);
            var r' := Cycle(doc', r.model, now', sigma, cdf, predict);
            r'.model == r.model && r'.decision.value == r.decision.value.(ts := now')
  {
  }

  /** The jump scenario: 120 trades at 100, then three at 130. */
  function JumpHistory(): seq<real>
  {
    Repeat(100.0, 120) + Repeat(130.0, 3)
  }

  /** The shape of its window: 117 prices at 100, then three at 130. */
  predicate JumpShaped(w: seq<real>)
  {
    && |w| == 120
    && (forall i :: 0 <= i < 117 ==> w[i] == 100.0)
    && (forall i :: 117 <= i < 120 ==> w[i] == 130.0)
  }

  /** The jump history's window has that shape. */
  lemma JumpHistoryWindow()
    ensures JumpShaped(Window(JumpHistory()))
  {
  }

  /** A jump-shaped window has mean 100.75 ... */
  lemma JumpWindowMean(w: seq<real>)
    requires JumpShaped(w)
    ensures Mean(w) == 100.75
  {
    var low, high := w[..117], w[117..];
    assert w == low + high;
    SumConcat(low, high);
    SumOfConstant(low, 100.0);
    SumOfConstant(high, 130.0);
  }

  /** ... and population variance 21.9375. */
  lemma JumpWindowVariance(w: seq<real>)
    requires JumpShaped(w)
    ensures PopVariance(w) == 21.9375
  {
    var low, high := w[..117], w[117..];
    assert w == low + high;
    JumpWindowMean(w);
    SumSqDevConcat(low, high, 100.75);
    SumSqDevOfConstant(low, 100.0, 100.75);
    SumSqDevOfConstant(high, 130.0, 100.75);
    assert Sq(100.0 - 100.75) == 0.5625;
    assert Sq(130.0 - 100.75) == 855.5625;
  }

  /** A standard deviation whose square is 21.9375 lies strictly between 0
      and 4.7, and a deviation of 29.25 then standardises above 4.5. */
  lemma JumpStandardizes(sigma: real, z: real)
    requires sigma >= 0.0 && Sq(sigma) == 21.9375
    requires z * SafeSigma(sigma) == 29.25
    ensures z > CusumThreshold + CusumSlack
  {
    SqSign(sigma);
    SqMonotone(4.7, sigma);
    assert 0.0 < sigma < 4.7;
    assert z <= 4.5 ==> z * sigma <= 4.5 * sigma;
  }

  /** CUSUM fires a positive trigger at the first price of 130. */
  lemma JumpFires(w: seq<real>, sigma: real)
    requires JumpShaped(w) && IsPopStd(w, sigma)
    ensures Cusum.Trigger(117, Cusum.Positive) in Cusum.Detect(w, sigma, CusumSlack, CusumThreshold)
  {
    JumpWindowMean(w);
    JumpWindowVariance(w);
    var zs := Standardize(w, Mean(w), SafeSigma(sigma));
    JumpStandardizes(sigma, zs[117]);
    Cusum.LargeRiseFires(zs, 117, CusumSlack, CusumThreshold);
  }

  /** So the cycle over the jump history, given the standard deviation of
      its window (the root of 21.9375), counts at least one CUSUM trigger
      and is anomalous, whatever the other two signals say. */
  lemma JumpIsDetected(model: Option<OutlierModel>, now: int, sigma: real,
                       cdf: VarianceRatio.FCdf, predict: Predict)
    requires sigma >= 0.0 && Sq(sigma) == 21.9375
    ensures IsPopStd(Window(JumpHistory()), sigma)
    ensures var d := Cycle(Document(JumpHistory(), [], None, None), model, now, sigma, cdf, predict).decision.value;
            d.cusumCount >= 1 && d.anomaly
  {
    JumpHistoryWindow();
    JumpWindowVariance(Window(JumpHistory()));
    JumpFires(Window(JumpHistory()), sigma);
  }
}
