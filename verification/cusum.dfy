/** The two-sided CUSUM drift detector of `cusum_detector`: a pass over the
    standardised prices of a window that keeps a positive and a negative
    cumulative sum, fires a trigger when either leaves the band `[-h, h]`,
    and resets the sum that fired. The pass starts from zero every time it
    is run; nothing is carried from one analysis cycle to the next. */
module Cusum {
  import opened Statistics

  datatype Direction = Positive | Negative

  /** `(i, "positive")` or `(i, "negative")`: the accumulator of that
      direction exceeded the threshold at window index `i`. */
  datatype Trigger = Trigger(index: nat, direction: Direction)

  /** `s_pos` and `s_neg`. */
  datatype Accumulators = Accumulators(sPos: real, sNeg: real)

  /** The accumulators after a pass and the triggers it fired, in order. */
  datatype Pass = Pass(acc: Accumulators, triggers: seq<Trigger>)

  function Max(a: real, b: real): real { if a >= b then a else b }

  function Min(a: real, b: real): real { if a <= b then a else b }

  function Abs(a: real): real { if a < 0.0 then -a else a }

  /** The accumulators stay inside the band the threshold draws. */
  predicate Bounded(acc: Accumulators, h: real)
  {
    0.0 <= acc.sPos <= h && -h <= acc.sNeg <= 0.0
  }

  /** Position of a trigger in firing order: index first, and at one index
      the positive check runs before the negative one. */
  function Rank(t: Trigger): nat
  {
    2 * t.index + (if t.direction == Positive then 0 else 1)
  }

  /** Triggers strictly increase in firing order. */
  predicate Ordered(ts: seq<Trigger>)
  {
    forall a, b :: 0 <= a < b < |ts| ==> Rank(ts[a]) < Rank(ts[b])
  }

  /** One loop iteration: fold the standardised price `z` at index `i` into
      the accumulators with slack `k`, then test each against `h`. */
  function Step(acc: Accumulators, z: real, k: real, h: real, i: nat): (r: Pass)
    ensures h >= 0.0 ==> Bounded(r.acc, h)
    ensures forall t :: t in r.triggers ==> t.index == i
    ensures Ordered(r.triggers)
    ensures h >= 0.0 ==> (Trigger(i, Positive) in r.triggers <==> acc.sPos + z - k > h)
    ensures h >= 0.0 ==> (Trigger(i, Negative) in r.triggers <==> acc.sNeg + z + k < -h)
    ensures Trigger(i, Positive) in r.triggers ==> r.acc.sPos == 0.0
    ensures Trigger(i, Negative) in r.triggers ==> r.acc.sNeg == 0.0
    ensures Trigger(i, Positive) !in r.triggers ==> r.acc.sPos == Max(0.0, acc.sPos + z - k)
    ensures Trigger(i, Negative) !in r.triggers ==> r.acc.sNeg == Min(0.0, acc.sNeg + z + k)
  {
    var p := Max(0.0, acc.sPos + z - k);
    var n := Min(0.0, acc.sNeg + z + k);
    var firePos := p > h;
    var fireNeg := Abs(n) > h;
    Pass(Accumulators(if firePos then 0.0 else p, if fireNeg then 0.0 else n),
         (if firePos then [Trigger(i, Positive)] else [])
         + (if fireNeg then [Trigger(i, Negative)] else []))
  }

  lemma OrderedAppend(a: seq<Trigger>, b: seq<Trigger>, i: nat)
    requires Ordered(a) && Ordered(b)
    requires forall t :: t in a ==> t.index < i
    requires forall t :: t in b ==> t.index == i
    ensures Ordered(a + b)
  {
    forall x, y | 0 <= x < y < |a + b|
      ensures Rank((a + b)[x]) < Rank((a + b)[y])
    {
      if y < |a| {
        assert (a + b)[x] == a[x] && (a + b)[y] == a[y];
      } else if x >= |a| {
        assert (a + b)[x] == b[x - |a|] && (a + b)[y] == b[y - |a|];
      } else {
        assert (a + b)[x] == a[x] && a[x] in a;
        assert (a + b)[y] == b[y - |a|] && b[y - |a|] in b;
      }
    }
  }

  /** The CUSUM pass over the standardised prices `zs`, from zero
      accumulators. Every trigger points into the window, triggers come in
      firing order (so at most one of each direction per index), there are
      at most two per price, and the accumulators end inside the band. */
  function Scan(zs: seq<real>, k: real, h: real): (r: Pass)
    ensures h >= 0.0 ==> Bounded(r.acc, h)
    ensures forall t :: t in r.triggers ==> t.index < |zs|
    ensures Ordered(r.triggers)
    ensures |r.triggers| <= 2 * |zs|
    decreases |zs|
  {
    if |zs| == 0 then Pass(Accumulators(0.0, 0.0), [])
    else
      var prev := Scan(zs[..|zs| - 1], k, h);
      var step := Step(prev.acc, zs[|zs| - 1], k, h, |zs| - 1);
      OrderedAppend(prev.triggers, step.triggers, |zs| - 1);
      Pass(step.acc, prev.triggers + step.triggers)
  }

  /** `cusum_detector(prices, k, h)`: standardise the window by its own mean
      and standard deviation (1.0 in place of a zero deviation), then scan. */
  function Detect(prices: seq<real>, sigma: real, k: real, h: real): (r: seq<Trigger>)
    requires IsPopStd(prices, sigma)
    ensures forall t :: t in r ==> t.index < |prices|
    ensures Ordered(r)
    ensures |r| <= 2 * |prices|
  {
    Scan(Standardize(prices, Mean(prices), SafeSigma(sigma)), k, h).triggers
  }

  /** Firing order, read as the source's loop emits it: indices never
      decrease, and two triggers at one index are a positive followed by a
      negative. */
  lemma OrderedMeansFiringOrder(ts: seq<Trigger>)
    requires Ordered(ts)
    ensures forall a, b :: 0 <= a < b < |ts| ==> ts[a].index <= ts[b].index
    ensures forall a, b :: 0 <= a < b < |ts| && ts[a].index == ts[b].index ==>
      ts[a].direction == Positive && ts[b].direction == Negative
  {
    forall a, b | 0 <= a < b < |ts|
      ensures ts[a].index <= ts[b].index
    {
      assert Rank(ts[a]) < Rank(ts[b]);
    }
  }

  /** A pass over a prefix of the window fires a prefix of the triggers of
      the whole pass: later prices never retract an earlier trigger. */
  lemma {:induction false} ScanPrefix(zs: seq<real>, j: nat, k: real, h: real)
    requires j <= |zs|
    ensures Scan(zs[..j], k, h).triggers <= Scan(zs, k, h).triggers
    decreases |zs| - j
  {
    if j < |zs| {
      ScanPrefix(zs[..|zs| - 1], j, k, h);
      assert zs[..|zs| - 1][..j] == zs[..j];
    } else {
      assert zs[..j] == zs;
    }
  }

  /** An element of a prefix is an element of the longer sequence. */
  lemma InLonger(x: Trigger, a: seq<Trigger>, b: seq<Trigger>)
    requires x in a && a <= b
    ensures x in b
  {
    var j :| 0 <= j < |a| && a[j] == x;
    assert b[j] == x;
  }

  /** A standardised price above `h + k` always fires a positive trigger at
      its own index, whatever came before it. */
  lemma LargeRiseFires(zs: seq<real>, i: nat, k: real, h: real)
    requires h >= 0.0 && i < |zs| && zs[i] > h + k
    ensures Trigger(i, Positive) in Scan(zs, k, h).triggers
  {
    var pre := zs[..i + 1];
    assert pre[..|pre| - 1] == zs[..i];
    var prev := Scan(zs[..i], k, h);
    var step := Step(prev.acc, zs[i], k, h, i);
    assert Scan(pre, k, h).triggers == prev.triggers + step.triggers;
    assert Trigger(i, Positive) in step.triggers;
    assert Trigger(i, Positive) in Scan(pre, k, h).triggers;
    ScanPrefix(zs, i + 1, k, h);
    InLonger(Trigger(i, Positive), Scan(pre, k, h).triggers, Scan(zs, k, h).triggers);
  }


  /** A standardised price below `-(h + k)` always fires a negative trigger
      at its own index. */
  lemma LargeDropFires(zs: seq<real>, i: nat, k: real, h: real)
    requires h >= 0.0 && i < |zs| && zs[i] < -(h + k)
    ensures Trigger(i, Negative) in Scan(zs, k, h).triggers
  {
    var pre := zs[..i + 1];
    assert pre[..|pre| - 1] == zs[..i];
    var prev := Scan(zs[..i], k, h);
    var step := Step(prev.acc, zs[i], k, h, i);
    assert Scan(pre, k, h).triggers == prev.triggers + step.triggers;
    assert Trigger(i, Negative) in step.triggers;
    assert Trigger(i, Negative) in Scan(pre, k, h).triggers;
    ScanPrefix(zs, i + 1, k, h);
    InLonger(Trigger(i, Negative), Scan(pre, k, h).triggers, Scan(zs, k, h).triggers);
  }

  /** A non-empty pass is the pass over all but the last price followed by
      one step; its triggers extend those of the shorter pass. */
  lemma ScanLast(zs: seq<real>, k: real, h: real)
    requires |zs| > 0
    ensures var prev := Scan(zs[..|zs| - 1], k, h);
            var step := Step(prev.acc, zs[|zs| - 1], k, h, |zs| - 1);
            Scan(zs, k, h) == Pass(step.acc, prev.triggers + step.triggers)
    ensures forall t :: t in Scan(zs[..|zs| - 1], k, h).triggers ==> t in Scan(zs, k, h).triggers
  {
  }

  /** A trigger fired before the last price stays among the triggers. */
  lemma FiredStaysFiredOneMore(zs: seq<real>, t: Trigger, k: real, h: real)
    requires |zs| > 0 && t in Scan(zs[..|zs| - 1], k, h).triggers
    ensures t in Scan(zs, k, h).triggers
  {
    ScanLast(zs, k, h);
  }

  /** `j` times `d`, as repeated addition. */
  function Times(j: nat, d: real): real
  {
    if j == 0 then 0.0 else Times(j - 1, d) + d
  }

  /** One more addition adds `d`. */
  lemma TimesSucc(j: nat, d: real)
    requires j > 0
    ensures Times(j, d) == Times(j - 1, d) + d
  {
  }

  /** Repeated addition is multiplication. */
  lemma {:induction false} TimesIsProduct(j: nat, d: real)
    ensures Times(j, d) == (j as real) * d
  {
    if j > 0 {
      TimesIsProduct(j - 1, d);
    }
  }

  /** What is missing from a concatenation is missing from both parts. */
  lemma NotInParts(x: Trigger, a: seq<Trigger>, b: seq<Trigger>)
    requires x !in a + b
    ensures x !in a && x !in b
  {
  }

  /** A step that does not fire adds at least `d` to the positive sum when
      its price is at least `d` above the slack. */
  lemma StepGrows(acc: Accumulators, z: real, k: real, d: real, h: real, i: nat)
    requires z >= k + d && Trigger(i, Positive) !in Step(acc, z, k, h, i).triggers
    ensures Step(acc, z, k, h, i).acc.sPos >= acc.sPos + d
  {
  }

  /** Drift accumulates: when the standardised prices from index `s` to the
      end of `zs` each lie at least `d` above the slack and none of them
      fires, the positive sum has grown by at least `d` per such price. */
  lemma {:induction false} RunAccumulates(zs: seq<real>, s: nat, k: real, d: real, h: real)
    requires h >= 0.0 && d > 0.0 && s <= |zs|
    requires forall i :: s <= i < |zs| ==> zs[i] >= k + d
    requires forall i :: s <= i < |zs| ==> Trigger(i, Positive) !in Scan(zs, k, h).triggers
    ensures Scan(zs, k, h).acc.sPos >= Times(|zs| - s, d)
    decreases |zs|
  {
    if |zs| > s {
      var init := zs[..|zs| - 1];
      assert forall j :: s <= j < |init| ==> init[j] == zs[j];
      QuietBeforeLast(zs, s, k, h);
      RunAccumulates(init, s, k, d, h);
      assert |init| - s == |zs| - 1 - s;
      assert Scan(init, k, h).acc.sPos >= Times(|zs| - 1 - s, d);
      GrowsByLast(zs, s, k, d, h);
    }
  }

  /** No positive trigger in a stretch of the whole pass means none in that
      stretch of the pass without its last price. */
  lemma QuietBeforeLast(zs: seq<real>, s: nat, k: real, h: real)
    requires s < |zs|
    requires forall i :: s <= i < |zs| ==> Trigger(i, Positive) !in Scan(zs, k, h).triggers
    ensures forall i :: s <= i < |zs| - 1 ==> Trigger(i, Positive) !in Scan(zs[..|zs| - 1], k, h).triggers
  {
    ScanLast(zs, k, h);
  }

  /** The induction step of `RunAccumulates`: a last price at least `d`
      above the slack that does not fire adds `d` to the drift so far. */
  lemma GrowsByLast(zs: seq<real>, s: nat, k: real, d: real, h: real)
    requires s < |zs| && zs[|zs| - 1] >= k + d
    requires Trigger(|zs| - 1, Positive) !in Scan(zs, k, h).triggers
    requires Scan(zs[..|zs| - 1], k, h).acc.sPos >= Times(|zs| - 1 - s, d)
    ensures Scan(zs, k, h).acc.sPos >= Times(|zs| - s, d)
  {
    var n := |zs| - 1;
    var prev := Scan(zs[..n], k, h);
    var step := Step(prev.acc, zs[n], k, h, n);
    ScanLast(zs, k, h);
    NotInParts(Trigger(n, Positive), prev.triggers, step.triggers);
    StepGrows(prev.acc, zs[n], k, d, h, n);
    TimesSucc(|zs| - s, d);
  }

  /** A sustained upward drift is caught: `m` consecutive standardised
      prices, each at least `d > 0` above the slack, with `m·d > h`, fire a
      positive trigger at one of their own indices. */
  lemma SustainedRiseFires(zs: seq<real>, s: nat, m: nat, k: real, d: real, h: real)
    requires h >= 0.0 && d > 0.0 && s + m <= |zs|
    requires forall i :: s <= i < s + m ==> zs[i] >= k + d
    requires (m as real) * d > h
    ensures exists i :: s <= i < s + m && Trigger(i, Positive) in Scan(zs, k, h).triggers
  {
    TimesIsProduct(m, d);
    var i := RunFires(zs, s, m, k, d, h);
  }

  /** The same with the total drift written as repeated addition: the index
      returned is one at which the run fires. */
  lemma {:induction false} RunFires(zs: seq<real>, s: nat, m: nat, k: real, d: real, h: real) returns (i: nat)
    requires h >= 0.0 && d > 0.0 && s + m <= |zs|
    requires forall i :: s <= i < s + m ==> zs[i] >= k + d
    requires Times(m, d) > h
    ensures s <= i < s + m && Trigger(i, Positive) in Scan(zs, k, h).triggers
    decreases |zs|
  {
    if |zs| == s + m {
      assert |zs| - s == m;
      i := RunFiresByItsEnd(zs, s, k, d, h);
    } else {
      var init := zs[..|zs| - 1];
      assert forall j :: s <= j < s + m ==> init[j] == zs[j];
      i := RunFires(init, s, m, k, d, h);
      FiredStaysFiredOneMore(zs, Trigger(i, Positive), k, h);
    }
  }

  /** The same for a run that reaches the end of the prices scanned. */
  lemma RunFiresByItsEnd(run: seq<real>, s: nat, k: real, d: real, h: real) returns (i: nat)
    requires h >= 0.0 && d > 0.0 && s <= |run|
    requires forall i :: s <= i < |run| ==> run[i] >= k + d
    requires Times(|run| - s, d) > h
    ensures s <= i < |run| && Trigger(i, Positive) in Scan(run, k, h).triggers
  {
    var pass := Scan(run, k, h);
    if j :| s <= j < |run| && Trigger(j, Positive) in pass.triggers {
      i := j;
    } else {
      RunAccumulates(run, s, k, d, h);
      assert false;
    }
  }

  /** While every standardised price stays within the slack, both
      accumulators stay at zero and nothing fires. */
  lemma {:induction false} QuietScan(zs: seq<real>, k: real, h: real)
    requires h >= 0.0
    requires forall i :: 0 <= i < |zs| ==> -k <= zs[i] <= k
    ensures Scan(zs, k, h) == Pass(Accumulators(0.0, 0.0), [])
    decreases |zs|
  {
    if |zs| > 0 {
      QuietScan(zs[..|zs| - 1], k, h);
    }
  }

  /** A constant window never fires: every price standardises to zero and
      the slack absorbs it. */
  lemma ConstantWindowIsQuiet(prices: seq<real>, sigma: real, k: real, h: real)
    requires IsPopStd(prices, sigma) && Constant(prices)
    requires k >= 0.0 && h >= 0.0
    ensures Detect(prices, sigma, k, h) == []
  {
    ConstantStandardizesToZero(prices, sigma);
    QuietScan(Standardize(prices, Mean(prices), SafeSigma(sigma)), k, h);
  }
}
