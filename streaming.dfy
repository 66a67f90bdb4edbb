/**
 * The tick-by-tick calculator of src/streaming.rs: bounded FIFO buffers of the last N
 * prices and volumes, an EMA carried across ticks, an RSI over the last N changes whose
 * averages are re-seeded whenever the average gain is 0, and the rule set that turns one
 * snapshot of indicator values into signals.
 */
module Streaming {
  import opened Common
  import Ema
  import Sma
  import Rsi

  /** One market data point. The timestamp is an opaque instant. */
  datatype MarketTick = MarketTick(
    symbol: string,
    timestamp: int,
    price: real,
    volume: nat,
    bid: Option<real>,
    ask: Option<real>)

  /** The snapshot `update` returns for a tick. */
  datatype IndicatorValues = IndicatorValues(
    symbol: string,
    timestamp: int,
    price: real,
    volume: nat,
    sma: Option<real>,
    ema: Option<real>,
    rsi: Option<real>,
    volumeSma: Option<real>,
    volumeRatio: Option<real>)

  /** The last n entries of `s`, oldest first, or all of `s` when it has fewer. */
  function LastN<T>(s: seq<T>, n: nat): (r: seq<T>)
    ensures |r| == if |s| <= n then |s| else n
  {
    if |s| <= n then s else s[|s| - n..]
  }

  /** A buffer that never filled holds everything pushed. */
  lemma LastNWhole<T>(s: seq<T>, n: nat)
    requires |s| <= n
    ensures LastN(s, n) == s
  {
  }

  /** Pushing at the back and popping the front once the buffer exceeds n keeps the last n entries. */
  lemma LastNSnoc<T>(s: seq<T>, x: T, n: nat)
    requires n >= 1
    ensures var b := LastN(s, n) + [x];
            LastN(s + [x], n) == if |b| > n then b[1..] else b
  {
    var b := LastN(s, n) + [x];
    if |b| > n {
      assert b[1..] == (s + [x])[|s| + 1 - n..];
    } else {
      assert b == s + [x];
    }
  }

  /** Sum of unsigned volumes. */
  function NatSum(vs: seq<nat>): nat
  {
    if |vs| == 0 then 0 else NatSum(vs[..|vs| - 1]) + vs[|vs| - 1]
  }

  /** A sum of volumes is 0 only when every volume is 0. */
  lemma {:induction false} NatSumZero(vs: seq<nat>)
    requires NatSum(vs) == 0
    ensures forall i :: 0 <= i < |vs| ==> vs[i] == 0
  {
    if |vs| > 0 {
      NatSumZero(vs[..|vs| - 1]);
      assert forall i :: 0 <= i < |vs| - 1 ==> vs[i] == vs[..|vs| - 1][i];
    }
  }

  /** The streaming SMA after the ticks `h`: null until N prices have arrived, then the mean of the last N. */
  function StreamSma(h: seq<real>, n: nat): Option<real>
    requires n >= 1
  {
    if |h| < n then None else Some(Sum(h[|h| - n..]) / (n as real))
  }

  /** The streaming volume SMA after the volumes `vh`: null until N ticks, then the mean of the last N volumes. */
  function StreamVolumeSma(vh: seq<nat>, n: nat): Option<real>
    requires n >= 1
  {
    if |vh| < n then None else Some((NatSum(vh[|vh| - n..]) as real) / (n as real))
  }

  /**
   * The tick's volume relative to the volume SMA, present exactly when the SMA is present
   * and non-zero.
   */
  function VolumeRatio(volume: nat, volumeSma: Option<real>): (r: Option<real>)
    ensures r.Some? <==> volumeSma.Some? && volumeSma.value != 0.0
    ensures r.Some? ==> r.value * volumeSma.value == volume as real
  {
    match volumeSma
    case None => None
    case Some(vs) => if vs == 0.0 then None else Some((volume as real) / vs)
  }

  /** The RSI part of the calculator's state. */
  datatype RsiState = RsiState(gains: seq<real>, losses: seq<real>, avgGain: real, avgLoss: real)

  /** What the RSI state always satisfies: buffers of equal length with non-negative entries, non-negative averages. */
  ghost predicate RsiStateOk(s: RsiState)
  {
    && |s.gains| == |s.losses|
    && (forall k :: 0 <= k < |s.gains| ==> s.gains[k] >= 0.0)
    && (forall k :: 0 <= k < |s.losses| ==> s.losses[k] >= 0.0)
    && s.avgGain >= 0.0 && s.avgLoss >= 0.0
  }

  /** Pushes a change's gain and loss and drops the oldest pair once more than N are buffered. */
  function PushChange(s: RsiState, gain: real, loss: real, n: nat): (t: RsiState)
    requires RsiStateOk(s) && gain >= 0.0 && loss >= 0.0
    ensures RsiStateOk(t)
    ensures t.avgGain == s.avgGain && t.avgLoss == s.avgLoss
    ensures |s.gains| <= n ==> |t.gains| <= n
  {
    var pushedGains, pushedLosses := s.gains + [gain], s.losses + [loss];
    if |pushedGains| > n then RsiState(pushedGains[1..], pushedLosses[1..], s.avgGain, s.avgLoss)
    else RsiState(pushedGains, pushedLosses, s.avgGain, s.avgLoss)
  }

  /**
   * Updates the averages over a full buffer: re-seeds them from the simple means when the
   * buffer holds exactly N changes and the average gain is 0, applies Wilder smoothing otherwise.
   */
  function SmoothAverages(t: RsiState, gain: real, loss: real, n: nat): (u: RsiState)
    requires n >= 1 && RsiStateOk(t) && gain >= 0.0 && loss >= 0.0
    ensures RsiStateOk(u)
    ensures u.gains == t.gains && u.losses == t.losses
  {
    if |t.gains| == n && t.avgGain == 0.0 then
      SumNonNegative(t.gains);
      SumNonNegative(t.losses);
      RsiState(t.gains, t.losses, Sum(t.gains) / (n as real), Sum(t.losses) / (n as real))
    else
      RsiState(t.gains, t.losses, Rsi.WilderStep(t.avgGain, gain, n), Rsi.WilderStep(t.avgLoss, loss, n))
  }

  /**
   * One `calculate_rsi` call, given the price buffer after the push and the tick's price:
   * nothing while fewer than two prices are buffered; otherwise push the change, emit nothing
   * while fewer than N changes are buffered, and emit the RSI of the updated averages.
   */
  function RsiStep(s: RsiState, prices: seq<real>, currentPrice: real, n: nat): (res: (RsiState, Option<real>))
    requires n >= 1 && RsiStateOk(s)
    ensures RsiStateOk(res.0)
    ensures |s.gains| <= n ==> |res.0.gains| <= n
    ensures |prices| < 2 ==> res == (s, None)
    ensures res.1.Some? ==> 0.0 <= res.1.value <= 100.0
    ensures res.1.Some? ==> (res.1.value == 100.0 <==> res.0.avgLoss == 0.0)
    ensures res.1.Some? ==> res.1.value == Rsi.CalculateRsi(res.0.avgGain, res.0.avgLoss)
  {
    if |prices| < 2 then (s, None)
    else
      var change := currentPrice - prices[|prices| - 2];
      var t := PushChange(s, Rsi.Gain(change), Rsi.Loss(change), n);
      if |t.gains| < n then (t, None)
      else
        var u := SmoothAverages(t, Rsi.Gain(change), Rsi.Loss(change), n);
        (u, Some(Rsi.CalculateRsi(u.avgGain, u.avgLoss)))
  }

  /** The RSI state after the prices `h`, starting from empty buffers and zero averages. */
  function StreamRsiRun(h: seq<real>, n: nat): (s: RsiState)
    requires n >= 1
    ensures RsiStateOk(s)
  {
    if |h| == 0 then RsiState([], [], 0.0, 0.0)
    else RsiStep(StreamRsiRun(h[..|h| - 1], n), LastN(h, n), h[|h| - 1], n).0
  }

  /** The RSI emitted for the last price of `h`. */
  function StreamRsi(h: seq<real>, n: nat): (r: Option<real>)
    requires n >= 1 && |h| >= 1
    ensures r.Some? ==> 0.0 <= r.value <= 100.0
    ensures r.Some? ==> (r.value == 100.0 <==> StreamRsiRun(h, n).avgLoss == 0.0)
    ensures r.Some? ==> r.value == Rsi.CalculateRsi(StreamRsiRun(h, n).avgGain, StreamRsiRun(h, n).avgLoss)
  {
    RsiStep(StreamRsiRun(h[..|h| - 1], n), LastN(h, n), h[|h| - 1], n).1
  }

  /** One RSI step pushes the change of the last two buffered prices onto buffers that hold the last N changes. */
  lemma RsiStepBuffers(s: RsiState, prices: seq<real>, x: real, n: nat, g: seq<real>, l: seq<real>)
    requires n >= 1 && RsiStateOk(s) && |prices| >= 2
    requires s.gains == LastN(g, n) && s.losses == LastN(l, n)
    ensures var change := x - prices[|prices| - 2];
            && RsiStep(s, prices, x, n).0.gains == LastN(g + [Rsi.Gain(change)], n)
            && RsiStep(s, prices, x, n).0.losses == LastN(l + [Rsi.Loss(change)], n)
  {
    var change := x - prices[|prices| - 2];
    LastNSnoc(g, Rsi.Gain(change), n);
    LastNSnoc(l, Rsi.Loss(change), n);
  }

  /**
   * The outcomes of an RSI step with two buffered prices, by the length of the resulting
   * buffer: no output and unchanged averages below N; re-seeded averages at exactly N changes
   * when the average gain was 0; Wilder-smoothed averages at N or more changes when it was
   * not. A buffer holding at most N changes still does after the step, so for the calculator's
   * states these cases are exhaustive.
   */
  lemma RsiStepCases(s: RsiState, prices: seq<real>, x: real, n: nat)
    requires n >= 1 && RsiStateOk(s) && |prices| >= 2
    ensures var change, res := x - prices[|prices| - 2], RsiStep(s, prices, x, n);
            && (res.1.Some? <==> |res.0.gains| >= n)
            && (|s.gains| <= n ==> |res.0.gains| <= n)
            && (|res.0.gains| < n ==> res.0.avgGain == s.avgGain && res.0.avgLoss == s.avgLoss)
            && (|res.0.gains| == n && s.avgGain == 0.0 ==>
                  res.0.avgGain == Sum(res.0.gains) / (n as real) && res.0.avgLoss == Sum(res.0.losses) / (n as real))
            && (|res.0.gains| >= n && s.avgGain != 0.0 ==>
                  && res.0.avgGain == Rsi.WilderStep(s.avgGain, Rsi.Gain(change), n)
                  && res.0.avgLoss == Rsi.WilderStep(s.avgLoss, Rsi.Loss(change), n))
  {
  }

  /** With N = 1 the price buffer never holds two prices, so the RSI state never leaves its initial value. */
  lemma {:induction false} StreamRsiIdleForOne(h: seq<real>)
    ensures StreamRsiRun(h, 1) == RsiState([], [], 0.0, 0.0)
  {
    if |h| > 0 {
      StreamRsiIdleForOne(h[..|h| - 1]);
      assert |LastN(h, 1)| == 1;
    }
  }

  /** With N >= 2 the RSI buffers hold the last N gains and losses of the whole history. */
  lemma {:induction false} StreamRsiBuffers(h: seq<real>, n: nat)
    requires n >= 2
    ensures StreamRsiRun(h, n).gains == LastN(Rsi.Gains(h), n)
    ensures StreamRsiRun(h, n).losses == LastN(Rsi.Losses(h), n)
  {
    if |h| > 0 {
      var p := h[..|h| - 1];
      StreamRsiBuffers(p, n);
      var s := StreamRsiRun(p, n);
      assert StreamRsiRun(h, n) == RsiStep(s, LastN(h, n), h[|h| - 1], n).0;
      if |h| >= 2 {
        StreamBuffersStep(h, n, s);
      } else {
        assert |h| == 1 && Rsi.Gains(h) == [] && Rsi.Losses(h) == [];
      }
    }
  }

  /** One step of the calculator extends buffers holding the last N changes of a history by the change of its next price. */
  lemma StreamBuffersStep(h: seq<real>, n: nat, s: RsiState)
    requires n >= 2 && |h| >= 2 && RsiStateOk(s)
    requires s.gains == LastN(Rsi.Gains(h[..|h| - 1]), n) && s.losses == LastN(Rsi.Losses(h[..|h| - 1]), n)
    ensures RsiStep(s, LastN(h, n), h[|h| - 1], n).0.gains == LastN(Rsi.Gains(h), n)
    ensures RsiStep(s, LastN(h, n), h[|h| - 1], n).0.losses == LastN(Rsi.Losses(h), n)
  {
    var p, x, prices := h[..|h| - 1], h[|h| - 1], LastN(h, n);
    var change := x - p[|p| - 1];
    assert x - prices[|prices| - 2] == change by {
      LastTwoBuffered(h, n);
    }
    assert Rsi.Gains(h) == Rsi.Gains(p) + [Rsi.Gain(change)]
        && Rsi.Losses(h) == Rsi.Losses(p) + [Rsi.Loss(change)] by {
      assert h == p + [x];
      Rsi.GainsSnoc(p, x);
    }
    RsiStepBuffers(s, prices, x, n, Rsi.Gains(p), Rsi.Losses(p));
  }

  /** The averages stay 0 until more than N prices have arrived. */
  lemma {:induction false} StreamAveragesUntouched(h: seq<real>, n: nat)
    requires n >= 1 && |h| <= n
    ensures StreamRsiRun(h, n).avgGain == 0.0 && StreamRsiRun(h, n).avgLoss == 0.0
  {
    if |h| > 0 {
      var p := h[..|h| - 1];
      StreamAveragesUntouched(p, n);
      if n == 1 {
        StreamRsiIdleForOne(h);
      } else if |LastN(h, n)| >= 2 {
        StreamRsiBuffers(h, n);
        RsiStepCases(StreamRsiRun(p, n), LastN(h, n), h[|h| - 1], n);
      }
    }
  }

  /** The streaming RSI is present exactly when N >= 2 and more than N prices have arrived. */
  lemma StreamRsiWarmUp(h: seq<real>, n: nat)
    requires n >= 1 && |h| >= 1
    ensures StreamRsi(h, n).Some? <==> n >= 2 && |h| >= n + 1
  {
    if n == 1 {
      StreamRsiIdleForOne(h[..|h| - 1]);
    } else if |h| >= 2 {
      StreamRsiBuffers(h, n);
      RsiStepCases(StreamRsiRun(h[..|h| - 1], n), LastN(h, n), h[|h| - 1], n);
    }
  }

  /**
   * Once more than N prices have arrived, a step taken while the average gain is 0 re-seeds
   * both averages with the simple means of the last N gains and losses.
   */
  lemma StreamReseed(h: seq<real>, n: nat)
    requires 2 <= n && n + 1 <= |h|
    requires StreamRsiRun(h[..|h| - 1], n).avgGain == 0.0
    ensures StreamRsiRun(h, n).avgGain == Sum(LastN(Rsi.Gains(h), n)) / (n as real)
    ensures StreamRsiRun(h, n).avgLoss == Sum(LastN(Rsi.Losses(h), n)) / (n as real)
  {
    var res := RsiStep(StreamRsiRun(h[..|h| - 1], n), LastN(h, n), h[|h| - 1], n);
    assert StreamRsiRun(h, n) == res.0;
    StreamRsiBuffers(h, n);
    assert |res.0.gains| == n;
    RsiStepCases(StreamRsiRun(h[..|h| - 1], n), LastN(h, n), h[|h| - 1], n);
  }

  /** The first RSI output seeds the averages with the simple means of the first N gains and losses. */
  lemma StreamFirstSeed(h: seq<real>, n: nat)
    requires 2 <= n && |h| == n + 1
    ensures StreamRsiRun(h, n).avgGain == Sum(Rsi.Gains(h)) / (n as real)
    ensures StreamRsiRun(h, n).avgLoss == Sum(Rsi.Losses(h)) / (n as real)
  {
    var g, l := Rsi.Gains(h), Rsi.Losses(h);
    LastNWhole(g, n);
    LastNWhole(l, n);
    assert Sum(LastN(g, n)) == Sum(g) && Sum(LastN(l, n)) == Sum(l);
    StreamAveragesUntouched(h[..|h| - 1], n);
    StreamReseed(h, n);
  }

  /**
   * Once more than N prices have arrived, a step taken while the average gain is positive
   * applies Wilder smoothing to both averages with the newest change.
   */
  lemma StreamWilderStep(h: seq<real>, n: nat)
    requires 2 <= n && n + 2 <= |h|
    requires StreamRsiRun(h[..|h| - 1], n).avgGain > 0.0
    ensures var s, change := StreamRsiRun(h[..|h| - 1], n), h[|h| - 1] - h[|h| - 2];
            && StreamRsiRun(h, n).avgGain == Rsi.WilderStep(s.avgGain, Rsi.Gain(change), n)
            && StreamRsiRun(h, n).avgLoss == Rsi.WilderStep(s.avgLoss, Rsi.Loss(change), n)
  {
    var s, prices, x := StreamRsiRun(h[..|h| - 1], n), LastN(h, n), h[|h| - 1];
    assert StreamRsiRun(h, n) == RsiStep(s, prices, x, n).0;
    StreamBufferFull(h, n);
    LastTwoBuffered(h, n);
    SmoothingStep(s, prices, x, n);
  }

  /** The last two buffered prices are the last two prices seen. */
  lemma LastTwoBuffered(h: seq<real>, n: nat)
    requires 2 <= n && 2 <= |h|
    ensures |LastN(h, n)| >= 2 && LastN(h, n)[|LastN(h, n)| - 2] == h[|h| - 2]
  {
  }

  /** After more than N changes the RSI buffers hold exactly N of them. */
  lemma StreamBufferFull(h: seq<real>, n: nat)
    requires 2 <= n && n + 1 <= |h|
    ensures |StreamRsiRun(h, n).gains| == n
  {
    StreamRsiBuffers(h, n);
    assert |Rsi.Gains(h)| == |h| - 1 >= n;
  }

  /** A step that fills the buffer while the average gain is positive smooths both averages. */
  lemma SmoothingStep(s: RsiState, prices: seq<real>, x: real, n: nat)
    requires n >= 1 && RsiStateOk(s) && |prices| >= 2 && s.avgGain > 0.0
    requires |RsiStep(s, prices, x, n).0.gains| == n
    ensures var change := x - prices[|prices| - 2];
            && RsiStep(s, prices, x, n).0.avgGain == Rsi.WilderStep(s.avgGain, Rsi.Gain(change), n)
            && RsiStep(s, prices, x, n).0.avgLoss == Rsi.WilderStep(s.avgLoss, Rsi.Loss(change), n)
  {
    RsiStepCases(s, prices, x, n);
  }

  /** At the first output the seeded averages are the batch ones, and positive when the window holds a gain. */
  lemma FirstSeedMatchesBatch(h: seq<real>, n: nat)
    requires 2 <= n && |h| == n + 1
    requires Sum(Rsi.Gains(h)) > 0.0
    ensures StreamRsiRun(h, n).avgGain == Rsi.WilderAverage(Rsi.Gains(h), n) > 0.0
    ensures StreamRsiRun(h, n).avgLoss == Rsi.WilderAverage(Rsi.Losses(h), n)
  {
    StreamFirstSeed(h, n);
    PositiveQuotient(Sum(Rsi.Gains(h)), n as real);
  }

  /**
   * When the first N changes contain a gain, the first full window seeds the averages with a
   * positive gain average, which Wilder smoothing keeps positive, so the averages are never
   * re-seeded and equal the batch averages over every change so far.
   */
  lemma {:induction false} StreamAveragesMatchBatch(h: seq<real>, n: nat)
    requires 2 <= n && n + 1 <= |h|
    requires Sum(Rsi.Gains(h[..n + 1])) > 0.0
    ensures StreamRsiRun(h, n).avgGain == Rsi.WilderAverage(Rsi.Gains(h), n) > 0.0
    ensures StreamRsiRun(h, n).avgLoss == Rsi.WilderAverage(Rsi.Losses(h), n)
  {
    if |h| == n + 1 {
      assert h[..n + 1] == h;
      FirstSeedMatchesBatch(h, n);
    } else {
      var p := h[..|h| - 1];
      assert p[..n + 1] == h[..n + 1];
      StreamAveragesMatchBatch(p, n);
      StreamWilderStep(h, n);
      BatchWilderSnoc(h, n);
    }
  }

  /** The batch averages over one more price take one Wilder step with the newest change. */
  lemma BatchWilderSnoc(h: seq<real>, n: nat)
    requires 2 <= n && n + 2 <= |h|
    ensures var p, change := h[..|h| - 1], h[|h| - 1] - h[|h| - 2];
            && Rsi.WilderAverage(Rsi.Gains(h), n)
               == Rsi.WilderStep(Rsi.WilderAverage(Rsi.Gains(p), n), Rsi.Gain(change), n)
            && Rsi.WilderAverage(Rsi.Losses(h), n)
               == Rsi.WilderStep(Rsi.WilderAverage(Rsi.Losses(p), n), Rsi.Loss(change), n)
  {
    var p, x := h[..|h| - 1], h[|h| - 1];
    var change := h[|h| - 1] - h[|h| - 2];
    assert h == p + [x] && x - p[|p| - 1] == change;
    Rsi.GainsSnoc(p, x);
    Rsi.WilderSnoc(Rsi.Gains(p), Rsi.Gain(change), n);
    Rsi.WilderSnoc(Rsi.Losses(p), Rsi.Loss(change), n);
  }

  /**
   * Under the same condition, the streaming RSI after the first i+1 prices is the batch RSI
   * at row i.
   */
  lemma StreamRsiMatchesBatch(xs: seq<real>, n: nat, i: nat)
    requires 2 <= n <= i < |xs|
    requires Sum(Rsi.Gains(xs[..n + 1])) > 0.0
    ensures StreamRsi(xs[..i + 1], n) == Rsi.RsiAt(xs, n, i)
  {
    var h := xs[..i + 1];
    assert h[..n + 1] == xs[..n + 1];
    StreamRsiWarmUp(h, n);
    StreamAveragesMatchBatch(h, n);
  }

  /**
   * Without a gain in the first window the streaming averages can be re-seeded and then
   * differ from the batch ones: over [10, 9, 7, 8] with N = 2 the batch RSI of the last row
   * is 40 while the streaming RSI is 100/3.
   */
  lemma StreamRsiReseedDiffersFromBatch(xs: seq<real>)
    requires xs == [10.0, 9.0, 7.0, 8.0]
    ensures Rsi.RsiAt(xs, 2, 3) == Some(40.0)
    ensures StreamRsi(xs, 2) == Some(100.0 / 3.0)
  {
    WitnessChanges(xs);
    BatchRsiOfWitness(xs);
    WitnessAverages(xs);
    StreamRsiWarmUp(xs, 2);
    assert Rsi.CalculateRsi(0.5, 1.0) == 100.0 / 3.0 by {
      Rsi.RsiClosedForm(0.5, 1.0);
    }
  }

  lemma WitnessChanges(xs: seq<real>)
    requires xs == [10.0, 9.0, 7.0, 8.0]
    ensures Rsi.Gains(xs) == [0.0, 0.0, 1.0] && Rsi.Losses(xs) == [1.0, 2.0, 0.0]
    ensures Rsi.Gains(xs[..3]) == [0.0, 0.0] && Rsi.Losses(xs[..3]) == [1.0, 2.0]
    ensures Rsi.Gains(xs[..2]) == [0.0] && Rsi.Losses(xs[..2]) == [1.0]
  {
    Rsi.GainsAt(xs, 0);
    Rsi.GainsAt(xs, 1);
    Rsi.GainsAt(xs, 2);
    Rsi.GainsAt(xs[..3], 0);
    Rsi.GainsAt(xs[..3], 1);
    Rsi.GainsAt(xs[..2], 0);
  }

  lemma BatchRsiOfWitness(xs: seq<real>)
    requires xs == [10.0, 9.0, 7.0, 8.0]
    requires Rsi.Gains(xs) == [0.0, 0.0, 1.0] && Rsi.Losses(xs) == [1.0, 2.0, 0.0]
    ensures Rsi.RsiAt(xs, 2, 3) == Some(40.0)
  {
    assert xs[..4] == xs;
    var g, l := Rsi.Gains(xs), Rsi.Losses(xs);
    assert g == g[..2] + [1.0] && l == l[..2] + [0.0];
    Rsi.WilderSnoc(g[..2], 1.0, 2);
    Rsi.WilderSnoc(l[..2], 0.0, 2);
    assert Rsi.WilderAverage(g[..2], 2) == Sum(g[..2]) / 2.0;
    assert Rsi.WilderAverage(l[..2], 2) == Sum(l[..2]) / 2.0;
    assert g[..2] == [0.0, 0.0] && l[..2] == [1.0, 2.0];
    assert Sum([0.0, 0.0]) == 0.0 && Sum([1.0, 2.0]) == 3.0;
    Rsi.RsiClosedForm(0.5, 0.75);
  }

  /** The averages after the witness prices: re-seeded at the third price and again at the fourth. */
  lemma WitnessAverages(xs: seq<real>)
    requires |xs| == 4
    requires Rsi.Gains(xs) == [0.0, 0.0, 1.0] && Rsi.Losses(xs) == [1.0, 2.0, 0.0]
    requires Rsi.Gains(xs[..3]) == [0.0, 0.0] && Rsi.Losses(xs[..3]) == [1.0, 2.0]
    ensures StreamRsiRun(xs, 2).avgGain == 0.5 && StreamRsiRun(xs, 2).avgLoss == 1.0
  {
    var h3 := xs[..3];
    assert xs[..|xs| - 1] == h3;
    StreamFirstSeed(h3, 2);
    PairMean(Rsi.Gains(h3), 0.0, 0.0);
    StreamReseed(xs, 2);
    assert LastN(Rsi.Gains(xs), 2) == [0.0, 1.0] && LastN(Rsi.Losses(xs), 2) == [2.0, 0.0];
    PairMean(LastN(Rsi.Gains(xs), 2), 0.0, 1.0);
    PairMean(LastN(Rsi.Losses(xs), 2), 2.0, 0.0);
  }

  /** The mean of a two-element window. */
  lemma PairMean(g: seq<real>, a: real, b: real)
    requires g == [a, b]
    ensures Sum(g) / (2 as real) == (a + b) / 2.0
  {
    assert g[..1] == [a] && g[..1][..0] == [];
    assert Sum(g[..1]) == Sum([]) + a;
  }

  /** `calculate_sma`: the mean of the price buffer once it holds N prices. */
  function CalculateSma(prices: seq<real>, n: nat): (r: Option<real>)
    requires n >= 1
    ensures |prices| <= n ==> (r.Some? <==> |prices| == n)
  {
    if |prices| < n then None else Some(Sum(prices) / (|prices| as real))
  }

  /** `calculate_volume_sma`: the mean of the volume buffer once it holds N volumes. */
  function CalculateVolumeSma(volumes: seq<nat>, n: nat): (r: Option<real>)
    requires n >= 1
    ensures |volumes| <= n ==> (r.Some? <==> |volumes| == n)
    ensures r.Some? ==> r.value >= 0.0
  {
    if |volumes| < n then None else Some((NatSum(volumes) as real) / (|volumes| as real))
  }

  /** Over the buffer of the last N prices, `calculate_sma` is the streaming SMA of the whole history. */
  lemma CalculateSmaOfLastN(h: seq<real>, vh: seq<nat>, n: nat)
    requires n >= 1
    ensures CalculateSma(LastN(h, n), n) == StreamSma(h, n)
    ensures CalculateVolumeSma(LastN(vh, n), n) == StreamVolumeSma(vh, n)
  {
  }

  /** Everything `StreamingIndicators` keeps between ticks, apart from its symbol and N. */
  datatype CalcState = CalcState(prices: seq<real>, volumes: seq<nat>, ema: Option<real>, rsi: RsiState)

  /** The state of a freshly created calculator. */
  function Initial(): (s: CalcState)
    ensures RsiStateOk(s.rsi)
  {
    CalcState([], [], None, RsiState([], [], 0.0, 0.0))
  }

  /**
   * One `update`: push the tick's price and volume, drop the oldest pair once more than N
   * prices are buffered, then compute SMA, EMA, RSI and volume SMA in that order. Returns
   * the new state and the snapshot.
   */
  function Step(s: CalcState, tick: MarketTick, n: nat): (res: (CalcState, IndicatorValues))
    requires n >= 1 && RsiStateOk(s.rsi)
    ensures RsiStateOk(res.0.rsi)
    ensures |s.prices| == |s.volumes| <= n ==> |res.0.prices| == |res.0.volumes| <= n
    ensures |s.rsi.gains| <= n ==> |res.0.rsi.gains| <= n
  {
    var pushedPrices, pushedVolumes := s.prices + [tick.price], s.volumes + [tick.volume];
    var prices := if |pushedPrices| > n then pushedPrices[1..] else pushedPrices;
    var volumes := if |pushedPrices| > n then pushedVolumes[1..] else pushedVolumes;
    var ema := Ema.EmaStep(s.ema, tick.price, Ema.Alpha(n));
    var rsi := RsiStep(s.rsi, prices, tick.price, n);
    var volumeSma := CalculateVolumeSma(volumes, n);
    (CalcState(prices, volumes, Some(ema), rsi.0),
     IndicatorValues(tick.symbol, tick.timestamp, tick.price, tick.volume,
                     CalculateSma(prices, n), Some(ema), rsi.1, volumeSma, VolumeRatio(tick.volume, volumeSma)))
  }

  /** The state after feeding `ticks`, in order, to a fresh calculator. */
  function Run(ticks: seq<MarketTick>, n: nat): (s: CalcState)
    requires n >= 1
    ensures RsiStateOk(s.rsi)
    ensures |s.prices| == |s.volumes| <= n && |s.rsi.gains| <= n
  {
    if |ticks| == 0 then Initial() else Step(Run(ticks[..|ticks| - 1], n), ticks[|ticks| - 1], n).0
  }

  /** The snapshot a fresh calculator returns for the last of `ticks`. */
  function Snapshot(ticks: seq<MarketTick>, n: nat): IndicatorValues
    requires n >= 1 && |ticks| >= 1
  {
    Step(Run(ticks[..|ticks| - 1], n), ticks[|ticks| - 1], n).1
  }

  /** One more tick is one more `Step`, from the state the earlier ticks reached. */
  lemma RunSnoc(ticks: seq<MarketTick>, tick: MarketTick, n: nat)
    requires n >= 1
    ensures Run(ticks + [tick], n) == Step(Run(ticks, n), tick, n).0
    ensures Snapshot(ticks + [tick], n) == Step(Run(ticks, n), tick, n).1
  {
    assert (ticks + [tick])[..|ticks|] == ticks;
  }

  function Prices(ticks: seq<MarketTick>): (h: seq<real>)
    ensures |h| == |ticks| && forall i :: 0 <= i < |ticks| ==> h[i] == ticks[i].price
  {
    seq(|ticks|, i requires 0 <= i < |ticks| => ticks[i].price)
  }

  function Volumes(ticks: seq<MarketTick>): (vh: seq<nat>)
    ensures |vh| == |ticks| && forall i :: 0 <= i < |ticks| ==> vh[i] == ticks[i].volume
  {
    seq(|ticks|, i requires 0 <= i < |ticks| => ticks[i].volume)
  }

  /** Prices and volumes of a prefix of the ticks are the same prefix of their prices and volumes. */
  lemma TicksSnoc(ticks: seq<MarketTick>)
    requires |ticks| >= 1
    ensures Prices(ticks) == Prices(ticks[..|ticks| - 1]) + [ticks[|ticks| - 1].price]
    ensures Volumes(ticks) == Volumes(ticks[..|ticks| - 1]) + [ticks[|ticks| - 1].volume]
  {
  }

  /** One step keeps buffers that hold the last N prices and volumes holding the last N. */
  lemma StepBuffers(s: CalcState, tick: MarketTick, n: nat, h: seq<real>, vh: seq<nat>)
    requires n >= 1 && RsiStateOk(s.rsi) && |h| == |vh|
    requires s.prices == LastN(h, n) && s.volumes == LastN(vh, n)
    ensures Step(s, tick, n).0.prices == LastN(h + [tick.price], n)
    ensures Step(s, tick, n).0.volumes == LastN(vh + [tick.volume], n)
  {
    LastNSnoc(h, tick.price, n);
    LastNSnoc(vh, tick.volume, n);
  }

  /** After any ticks, the buffers hold the last N prices and volumes. */
  lemma {:induction false} RunBuffers(ticks: seq<MarketTick>, n: nat)
    requires n >= 1
    ensures Run(ticks, n).prices == LastN(Prices(ticks), n)
    ensures Run(ticks, n).volumes == LastN(Volumes(ticks), n)
  {
    if |ticks| > 0 {
      var prefix := ticks[..|ticks| - 1];
      RunBuffers(prefix, n);
      TicksSnoc(ticks);
      StepBuffers(Run(prefix, n), ticks[|ticks| - 1], n, Prices(prefix), Volumes(prefix));
    }
  }

  /** After any ticks, the EMA is the EMA recurrence over every price so far. */
  lemma {:induction false} RunEma(ticks: seq<MarketTick>, n: nat)
    requires n >= 1
    ensures Run(ticks, n).ema == Ema.EmaFrom(None, Prices(ticks), Ema.Alpha(n))
  {
    if |ticks| > 0 {
      var prefix := ticks[..|ticks| - 1];
      RunEma(prefix, n);
      TicksSnoc(ticks);
      var h := Prices(ticks);
      assert h[..|h| - 1] == Prices(prefix);
    }
  }

  /** After any ticks, the RSI state is `StreamRsiRun` of the prices so far. */
  lemma {:induction false} RunRsi(ticks: seq<MarketTick>, n: nat)
    requires n >= 1
    ensures Run(ticks, n).rsi == StreamRsiRun(Prices(ticks), n)
  {
    if |ticks| > 0 {
      var prefix := ticks[..|ticks| - 1];
      RunRsi(prefix, n);
      RunBuffers(ticks, n);
      TicksSnoc(ticks);
      var h := Prices(ticks);
      assert h[..|h| - 1] == Prices(prefix);
    }
  }

  /** The snapshot's SMA and volume SMA are the streaming means of the last N prices and volumes. */
  lemma SnapshotMeans(ticks: seq<MarketTick>, n: nat)
    requires n >= 1 && |ticks| >= 1
    ensures Snapshot(ticks, n).sma == StreamSma(Prices(ticks), n)
    ensures Snapshot(ticks, n).volumeSma == StreamVolumeSma(Volumes(ticks), n)
  {
    var prefix := ticks[..|ticks| - 1];
    assert Run(ticks, n) == Step(Run(prefix, n), ticks[|ticks| - 1], n).0;
    RunBuffers(ticks, n);
    CalculateSmaOfLastN(Prices(ticks), Volumes(ticks), n);
  }

  /** The snapshot's EMA is the EMA recurrence's value after every price so far. */
  lemma SnapshotEma(ticks: seq<MarketTick>, n: nat)
    requires n >= 1 && |ticks| >= 1
    ensures Snapshot(ticks, n).ema == Some(Ema.EmaAt(Prices(ticks), Ema.Alpha(n), |ticks| - 1))
  {
    var prefix := ticks[..|ticks| - 1];
    assert Run(ticks, n) == Step(Run(prefix, n), ticks[|ticks| - 1], n).0;
    RunEma(ticks, n);
    var h := Prices(ticks);
    assert h[..|h|] == h;
  }

  /** The snapshot's RSI is the streaming RSI of the prices so far. */
  lemma SnapshotRsi(ticks: seq<MarketTick>, n: nat)
    requires n >= 1 && |ticks| >= 1
    ensures Snapshot(ticks, n).rsi == StreamRsi(Prices(ticks), n)
  {
    var prefix := ticks[..|ticks| - 1];
    var h := Prices(ticks);
    assert Run(ticks, n) == Step(Run(prefix, n), ticks[|ticks| - 1], n).0;
    RunBuffers(ticks, n);
    RunRsi(prefix, n);
    TicksSnoc(ticks);
    assert h[..|h| - 1] == Prices(prefix);
  }

  /**
   * The snapshot for the last of `ticks` carries that tick's own fields and, as indicators,
   * the streaming SMA, the EMA recurrence's latest value, the streaming RSI and the volume
   * SMA of the history, and the tick's volume relative to that volume SMA.
   */
  lemma SnapshotMeaning(ticks: seq<MarketTick>, n: nat)
    requires n >= 1 && |ticks| >= 1
    ensures var v, h, last := Snapshot(ticks, n), Prices(ticks), ticks[|ticks| - 1];
            && v.symbol == last.symbol && v.timestamp == last.timestamp
            && v.price == last.price && v.volume == last.volume
            && v.sma == StreamSma(h, n)
            && v.ema == Some(Ema.EmaAt(h, Ema.Alpha(n), |h| - 1))
            && v.rsi == StreamRsi(h, n)
            && v.volumeSma == StreamVolumeSma(Volumes(ticks), n)
            && v.volumeRatio == VolumeRatio(last.volume, v.volumeSma)
  {
    SnapshotMeans(ticks, n);
    SnapshotEma(ticks, n);
    SnapshotRsi(ticks, n);
  }

  class StreamingIndicators {
    const symbol: string
    const windowSize: nat
    var prices: seq<real>
    var volumes: seq<nat>
    var emaValue: Option<real>
    var rsiGains: seq<real>
    var rsiLosses: seq<real>
    var rsiAvgGain: real
    var rsiAvgLoss: real

    ghost function RsiFields(): RsiState
      reads this`rsiGains, this`rsiLosses, this`rsiAvgGain, this`rsiAvgLoss
    {
      RsiState(rsiGains, rsiLosses, rsiAvgGain, rsiAvgLoss)
    }

    ghost function State(): CalcState
      reads this
    {
      CalcState(prices, volumes, emaValue, RsiFields())
    }

    /** The buffers hold at most N entries each, and the RSI state is well formed. */
    ghost predicate Valid()
      reads this
    {
      && windowSize >= 1
      && RsiStateOk(RsiFields())
      && |prices| == |volumes| <= windowSize
      && |rsiGains| <= windowSize
    }

    constructor (symbol: string, windowSize: nat)
      requires windowSize >= 1
      ensures Valid()
      ensures this.symbol == symbol && this.windowSize == windowSize
      ensures State() == Initial()
    {
      this.symbol := symbol;
      this.windowSize := windowSize;
      prices := [];
      volumes := [];
      emaValue := None;
      rsiGains := [];
      rsiLosses := [];
      rsiAvgGain := 0.0;
      rsiAvgLoss := 0.0;
    }

    /**
     * Pushes the tick's price and volume, drops the oldest pair beyond N, and recomputes SMA,
     * EMA, RSI and volume SMA in that order: one `Step` of the state.
     */
    method Update(tick: MarketTick) returns (v: IndicatorValues)
      requires Valid()
      modifies this
      ensures Valid()
      ensures (State(), v) == Step(old(State()), tick, windowSize)
    {
      ghost var step := Step(State(), tick, windowSize);
      prices := prices + [tick.price];
      volumes := volumes + [tick.volume];
      if |prices| > windowSize {
        prices := prices[1..];
        volumes := volumes[1..];
      }
      assert prices == step.0.prices && volumes == step.0.volumes;
      var sma := CalculateSma(prices, windowSize);
      var ema := CalculateEma(tick.price);
      var rsi := CalculateRsi(tick.price);
      var volumeSma := CalculateVolumeSma(volumes, windowSize);
      v := IndicatorValues(tick.symbol, tick.timestamp, tick.price, tick.volume,
                           sma, ema, rsi, volumeSma, VolumeRatio(tick.volume, volumeSma));
      assert emaValue == step.0.ema && RsiFields() == step.0.rsi;
      assert v == step.1;
    }

    /** Seeds the EMA with the first price and blends every later price in with 2 / (N + 1). */
    method CalculateEma(currentPrice: real) returns (r: Option<real>)
      modifies this`emaValue
      ensures emaValue == Some(Ema.EmaStep(old(emaValue), currentPrice, Ema.Alpha(windowSize)))
      ensures r == emaValue
    {
      var alpha := Ema.Alpha(windowSize);
      match emaValue {
        case None =>
          emaValue := Some(currentPrice);
        case Some(prevEma) =>
          var newEma := Ema.EmaStep(emaValue, currentPrice, alpha);
          emaValue := Some(newEma);
      }
      r := emaValue;
    }

    /** The RSI step on the fields, against the price buffer as `update` has just left it. */
    method CalculateRsi(currentPrice: real) returns (r: Option<real>)
      requires windowSize >= 1 && RsiStateOk(RsiFields())
      modifies this`rsiGains, this`rsiLosses, this`rsiAvgGain, this`rsiAvgLoss
      ensures (RsiFields(), r) == RsiStep(old(RsiFields()), prices, currentPrice, windowSize)
    {
      ghost var before := RsiFields();
      ghost var step := RsiStep(before, prices, currentPrice, windowSize);
      if |prices| < 2 {
        return None;
      }
      var prevPrice := prices[|prices| - 2];
      var change := currentPrice - prevPrice;
      var gain := Rsi.Gain(change);
      var loss := Rsi.Loss(change);
      var g, l := rsiGains + [gain], rsiLosses + [loss];
      if |g| > windowSize {
        g, l := g[1..], l[1..];
      }
      ghost var pushed := RsiState(g, l, rsiAvgGain, rsiAvgLoss);
      assert pushed == PushChange(before, gain, loss, windowSize);
      rsiGains, rsiLosses := g, l;
      if |g| < windowSize {
        assert step == (pushed, None);
        return None;
      }
      var ag, al;
      if |g| == windowSize && rsiAvgGain == 0.0 {
        ag, al := Sum(g) / (windowSize as real), Sum(l) / (windowSize as real);
      } else {
        ag, al := Rsi.WilderStep(rsiAvgGain, gain, windowSize), Rsi.WilderStep(rsiAvgLoss, loss, windowSize);
      }
      assert RsiState(g, l, ag, al) == SmoothAverages(pushed, gain, loss, windowSize);
      assert step == (RsiState(g, l, ag, al), Some(Rsi.CalculateRsi(ag, al)));
      rsiAvgGain, rsiAvgLoss := ag, al;
      r := Some(Rsi.CalculateRsi(ag, al));
    }
  }

  /** The streaming SMA after the first i+1 prices is the batch SMA at row i. */
  lemma StreamSmaMatchesBatch(xs: seq<real>, n: nat, i: nat)
    requires n >= 1 && i < |xs|
    ensures StreamSma(xs[..i + 1], n) == Sma.SmaAt(xs, n, i)
  {
    if i + 1 >= n {
      assert xs[..i + 1][i + 1 - n..] == xs[i + 1 - n..i + 1];
    }
  }

  /** A volume SMA of 0 means every buffered volume, the tick's own included, is 0. */
  lemma ZeroVolumeSmaMeansQuietWindow(vh: seq<nat>, n: nat)
    requires n >= 1 && StreamVolumeSma(vh, n) == Some(0.0)
    ensures forall i :: |vh| - n <= i < |vh| ==> vh[i] == 0
  {
    var w := vh[|vh| - n..];
    NatSumZero(w);
    forall i | |vh| - n <= i < |vh| ensures vh[i] == 0 {
      assert vh[i] == w[i - (|vh| - n)];
    }
  }
}
