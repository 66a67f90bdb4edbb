/**
 * Relative strength index over one partition (src/functions/rsi.rs): per-row gains and
 * losses, a simple-average seed at the N-th change, then Wilder smoothing with factor 1/N.
 */
module Rsi {
  import opened Common
  import opened Arguments

  /** The upward part of a price change. */
  function Gain(change: real): (g: real)
    ensures g >= 0.0
    ensures g > 0.0 <==> change > 0.0
    ensures g > 0.0 ==> g == change
  {
    if change > 0.0 then change else 0.0
  }

  /** The downward part of a price change, as a non-negative amount. */
  function Loss(change: real): (l: real)
    ensures l >= 0.0
    ensures l > 0.0 <==> change < 0.0
    ensures l > 0.0 ==> l == -change
  {
    if change < 0.0 then -change else 0.0
  }

  /** A change splits into its gain and its loss, and at most one of them is positive. */
  lemma GainLossSplit(change: real)
    ensures Gain(change) - Loss(change) == change
    ensures Gain(change) == 0.0 || Loss(change) == 0.0
  {
  }

  /** The gains of consecutive prices: one per change, so one fewer than the prices. */
  function Gains(xs: seq<real>): (g: seq<real>)
    ensures |g| == if |xs| == 0 then 0 else |xs| - 1
    ensures forall k :: 0 <= k < |g| ==> g[k] >= 0.0
  {
    if |xs| < 2 then [] else Gains(xs[..|xs| - 1]) + [Gain(xs[|xs| - 1] - xs[|xs| - 2])]
  }

  /** The losses of consecutive prices. */
  function Losses(xs: seq<real>): (l: seq<real>)
    ensures |l| == if |xs| == 0 then 0 else |xs| - 1
    ensures forall k :: 0 <= k < |l| ==> l[k] >= 0.0
  {
    if |xs| < 2 then [] else Losses(xs[..|xs| - 1]) + [Loss(xs[|xs| - 1] - xs[|xs| - 2])]
  }

  /** Appending a price appends the gain and the loss of its change. */
  lemma GainsSnoc(xs: seq<real>, x: real)
    requires |xs| > 0
    ensures Gains(xs + [x]) == Gains(xs) + [Gain(x - xs[|xs| - 1])]
    ensures Losses(xs + [x]) == Losses(xs) + [Loss(x - xs[|xs| - 1])]
  {
    GainSnoc(xs, x);
    LossSnoc(xs, x);
  }

  /** The gains half of `GainsSnoc`. */
  lemma GainSnoc(xs: seq<real>, x: real)
    requires |xs| > 0
    ensures Gains(xs + [x]) == Gains(xs) + [Gain(x - xs[|xs| - 1])]
  {
    var ys := xs + [x];
    assert ys[..|ys| - 1] == xs && ys[|ys| - 1] - ys[|ys| - 2] == x - xs[|xs| - 1];
    calc {
      Gains(ys);
      Gains(ys[..|ys| - 1]) + [Gain(ys[|ys| - 1] - ys[|ys| - 2])];
      Gains(xs) + [Gain(x - xs[|xs| - 1])];
    }
  }

  /** The losses half of `GainsSnoc`. */
  lemma LossSnoc(xs: seq<real>, x: real)
    requires |xs| > 0
    ensures Losses(xs + [x]) == Losses(xs) + [Loss(x - xs[|xs| - 1])]
  {
    var ys := xs + [x];
    assert ys[..|ys| - 1] == xs && ys[|ys| - 1] - ys[|ys| - 2] == x - xs[|xs| - 1];
    calc {
      Losses(ys);
      Losses(ys[..|ys| - 1]) + [Loss(ys[|ys| - 1] - ys[|ys| - 2])];
      Losses(xs) + [Loss(x - xs[|xs| - 1])];
    }
  }

  /** Entry k of the gains and of the losses comes from the change between prices k and k+1. */
  lemma {:induction false} GainsAt(xs: seq<real>, k: nat)
    requires k + 1 < |xs|
    ensures Gains(xs)[k] == Gain(xs[k + 1] - xs[k])
    ensures Losses(xs)[k] == Loss(xs[k + 1] - xs[k])
  {
    if k + 2 < |xs| {
      GainsAt(xs[..|xs| - 1], k);
    }
  }

  /**
   * The running average after the N-th entry of `ds`: the simple mean of the first N
   * entries, then avg * (1 - 1/N) + d * (1/N) for every later entry d.
   */
  function WilderAverage(ds: seq<real>, n: nat): (avg: real)
    requires 1 <= n <= |ds|
    ensures (forall k :: 0 <= k < |ds| ==> ds[k] >= 0.0) ==> avg >= 0.0
    decreases |ds|
  {
    if |ds| == n then
      assert (forall k :: 0 <= k < |ds| ==> ds[k] >= 0.0) ==> Sum(ds) >= 0.0 by {
        if forall k :: 0 <= k < |ds| ==> ds[k] >= 0.0 { SumNonNegative(ds); }
      }
      Sum(ds) / (n as real)
    else
      WilderStep(WilderAverage(ds[..|ds| - 1], n), ds[|ds| - 1], n)
  }

  /** Wilder smoothing with factor 1/N: avg * (1 - 1/N) + x * (1/N), which stays non-negative. */
  function WilderStep(avg: real, x: real, n: nat): (r: real)
    requires n >= 1
    ensures avg >= 0.0 && x >= 0.0 ==> r >= 0.0
    ensures avg > 0.0 && x >= 0.0 && n >= 2 ==> r > 0.0
  {
    var alpha := 1.0 / (n as real);
    assert 0.0 <= 1.0 - alpha;
    (avg * (1.0 - alpha)) + (x * alpha)
  }

  /** One more entry moves the average a 1/N step toward it. */
  lemma WilderSnoc(ds: seq<real>, d: real, n: nat)
    requires 1 <= n <= |ds|
    ensures WilderAverage(ds + [d], n) == WilderStep(WilderAverage(ds, n), d, n)
  {
    assert (ds + [d])[..|ds|] == ds;
  }

  /**
   * RSI from the two averages: exactly 100 when the average loss is 0, otherwise
   * 100 - 100 / (1 + gain/loss), which is the share of gains in the total movement.
   */
  function CalculateRsi(avgGain: real, avgLoss: real): (r: real)
    requires avgGain >= 0.0 && avgLoss >= 0.0
    ensures avgLoss == 0.0 ==> r == 100.0
    ensures avgLoss > 0.0 ==> 0.0 <= r < 100.0 && r == 100.0 * avgGain / (avgGain + avgLoss)
  {
    if avgLoss == 0.0 then 100.0
    else
      var rs := avgGain / avgLoss;
      RsiClosedForm(avgGain, avgLoss);
      100.0 - (100.0 / (1.0 + rs))
  }

  /** 100 - 100 / (1 + g/l) is the share 100 * g / (g + l) of gains in the total movement. */
  lemma RsiClosedForm(g: real, l: real)
    requires g >= 0.0 && l > 0.0
    ensures 1.0 + g / l > 0.0
    ensures 100.0 - 100.0 / (1.0 + g / l) == 100.0 * g / (g + l)
    ensures 0.0 <= 100.0 * g / (g + l) < 100.0
  {
    var rs := g / l;
    var total := g + l;
    assert rs * l == g;
    assert (1.0 + rs) * l == total;
    var q := 100.0 / (1.0 + rs);
    assert q * (1.0 + rs) == 100.0;
    assert q * total == 100.0 * l;
    assert q == 100.0 * l / total;
    assert 100.0 * l / total + 100.0 * g / total == 100.0 * total / total;
    assert 100.0 * total / total == 100.0;
    assert 100.0 * g / total < 100.0 * total / total;
  }

  /** The RSI emitted at row i: null for rows 0 .. N-1, then RSI of the Wilder averages of the first i changes. */
  function RsiAt(xs: seq<real>, n: nat, i: nat): Option<real>
    requires n >= 1 && i < |xs|
  {
    if i < n then None
    else
      var g := Gains(xs[..i + 1]);
      var l := Losses(xs[..i + 1]);
      Some(CalculateRsi(WilderAverage(g, n), WilderAverage(l, n)))
  }

  /** The evaluator's price, gain and loss buffers and its two running averages. */
  datatype RsiBuffers = RsiBuffers(values: seq<real>, gains: seq<real>, losses: seq<real>, avgGain: real, avgLoss: real)

  /**
   * The gains and losses of the buffered prices, and, once N changes have been seen, their
   * Wilder averages: what the buffers hold after the prices `b.values`.
   */
  ghost predicate Tracked(b: RsiBuffers, n: nat)
  {
    && n >= 1
    && b.gains == Gains(b.values) && b.losses == Losses(b.values)
    && (|b.gains| >= n ==> b.avgGain == WilderAverage(b.gains, n) && b.avgLoss == WilderAverage(b.losses, n))
  }

  /**
   * What the step needs of the buffers: non-negative gains and losses and, once N changes
   * have been seen, non-negative averages.
   */
  ghost predicate BuffersOk(b: RsiBuffers, n: nat)
  {
    && n >= 1
    && (forall k :: 0 <= k < |b.gains| ==> b.gains[k] >= 0.0)
    && (forall k :: 0 <= k < |b.losses| ==> b.losses[k] >= 0.0)
    && (|b.gains| >= n ==> b.avgGain >= 0.0 && b.avgLoss >= 0.0)
  }

  /** Buffers that track the prices are well formed. */
  lemma TrackedOk(b: RsiBuffers, n: nat)
    requires Tracked(b, n)
    ensures BuffersOk(b, n)
  {
  }

  /**
   * One row of the loop: push the price; from the second price on, push its change's gain and
   * loss, seed the averages with the simple means at the N-th change and smooth them
   * afterwards, and emit the RSI from the N-th change on.
   */
  function PushStep(b: RsiBuffers, x: real, n: nat): (res: (RsiBuffers, Option<real>))
    requires BuffersOk(b, n)
  {
    var prefix := b.values + [x];
    if |prefix| == 1 then (b.(values := prefix), None)
    else
      var change := x - b.values[|b.values| - 1];
      var gain, loss := Gain(change), Loss(change);
      var g, l := b.gains + [gain], b.losses + [loss];
      if |g| < n then (RsiBuffers(prefix, g, l, b.avgGain, b.avgLoss), None)
      else
        SumNonNegative(g);
        SumNonNegative(l);
        NonNegativeQuotient(Sum(g), n as real);
        NonNegativeQuotient(Sum(l), n as real);
        var ag := if |g| == n then Sum(g) / (n as real) else WilderStep(b.avgGain, gain, n);
        var al := if |g| == n then Sum(l) / (n as real) else WilderStep(b.avgLoss, loss, n);
        (RsiBuffers(prefix, g, l, ag, al), Some(CalculateRsi(ag, al)))
  }

  /** A step keeps the buffers tracking the prices, and emits the batch RSI of the new row. */
  lemma PushStepTracks(b: RsiBuffers, x: real, n: nat)
    requires Tracked(b, n)
    ensures BuffersOk(b, n)
    ensures var res := PushStep(b, x, n);
            && Tracked(res.0, n) && res.0.values == b.values + [x]
            && res.1 == RsiAt(b.values + [x], n, |b.values|)
            && (|res.0.gains| < n ==> res.0.avgGain == b.avgGain && res.0.avgLoss == b.avgLoss)
  {
    TrackedOk(b, n);
    var prefix := b.values + [x];
    RsiAtEnd(prefix, n);
    if |b.values| == 0 {
      assert Gains(prefix) == [] && Losses(prefix) == [];
      assert PushStep(b, x, n) == (b.(values := prefix), None);
    } else {
      var change := x - b.values[|b.values| - 1];
      var g, l := b.gains + [Gain(change)], b.losses + [Loss(change)];
      assert Gains(prefix) == g && Losses(prefix) == l by {
        GainsSnoc(b.values, x);
      }
      if |g| < n {
        PushWarmUp(b, x, n);
      } else if |g| == n {
        PushSeed(b, x, n);
        assert WilderAverage(g, n) == Sum(g) / (n as real);
        assert WilderAverage(l, n) == Sum(l) / (n as real);
      } else {
        PushSmooth(b, x, n);
      }
    }
  }

  /** Before the N-th change a step only grows the buffers. */
  lemma PushWarmUp(b: RsiBuffers, x: real, n: nat)
    requires BuffersOk(b, n) && |b.values| > 0 && |b.gains| + 1 < n
    ensures var change := x - b.values[|b.values| - 1];
            PushStep(b, x, n)
            == (RsiBuffers(b.values + [x], b.gains + [Gain(change)], b.losses + [Loss(change)], b.avgGain, b.avgLoss), None)
  {
  }

  /** At the N-th change a step seeds the averages with the simple means. */
  lemma PushSeed(b: RsiBuffers, x: real, n: nat)
    requires BuffersOk(b, n) && |b.values| > 0 && |b.gains| + 1 == n
    ensures var change := x - b.values[|b.values| - 1];
            var g, l := b.gains + [Gain(change)], b.losses + [Loss(change)];
            && Sum(g) >= 0.0 && Sum(l) >= 0.0
            && PushStep(b, x, n)
               == (RsiBuffers(b.values + [x], g, l, Sum(g) / (n as real), Sum(l) / (n as real)),
                   Some(CalculateRsi(Sum(g) / (n as real), Sum(l) / (n as real))))
  {
    var change := x - b.values[|b.values| - 1];
    SumNonNegative(b.gains + [Gain(change)]);
    SumNonNegative(b.losses + [Loss(change)]);
  }

  /** After the N-th change a step smooths the tracked averages with the new change. */
  lemma PushSmooth(b: RsiBuffers, x: real, n: nat)
    requires Tracked(b, n) && BuffersOk(b, n) && |b.values| > 0 && |b.gains| >= n
    ensures var change := x - b.values[|b.values| - 1];
            var g, l := b.gains + [Gain(change)], b.losses + [Loss(change)];
            PushStep(b, x, n)
            == (RsiBuffers(b.values + [x], g, l, WilderAverage(g, n), WilderAverage(l, n)),
                Some(CalculateRsi(WilderAverage(g, n), WilderAverage(l, n))))
  {
    var change := x - b.values[|b.values| - 1];
    var g, l := b.gains + [Gain(change)], b.losses + [Loss(change)];
    var ag, al := WilderStep(b.avgGain, Gain(change), n), WilderStep(b.avgLoss, Loss(change), n);
    assert ag == WilderAverage(g, n) by {
      WilderSnoc(b.gains, Gain(change), n);
    }
    assert al == WilderAverage(l, n) by {
      WilderSnoc(b.losses, Loss(change), n);
    }
    assert PushStep(b, x, n) == (RsiBuffers(b.values + [x], g, l, ag, al), Some(CalculateRsi(ag, al)));
  }

  /** The RSI at the last row of `xs`, in terms of the gains and losses of all of `xs`. */
  lemma RsiAtEnd(xs: seq<real>, n: nat)
    requires n >= 1 && |xs| >= 1
    ensures RsiAt(xs, n, |xs| - 1)
         == if |xs| - 1 < n then None
            else Some(CalculateRsi(WilderAverage(Gains(xs), n), WilderAverage(Losses(xs), n)))
  {
    assert xs[..|xs|] == xs;
  }

  /** The outputs for rows 0 .. m-1, in row order. */
  ghost function RsiOutputs(xs: seq<real>, n: nat, m: nat): seq<Option<real>>
    requires n >= 1 && m <= |xs|
  {
    if m == 0 then [] else RsiOutputs(xs, n, m - 1) + [RsiAt(xs, n, m - 1)]
  }

  /** Entry k of the outputs is the RSI at row k. */
  lemma {:induction false} RsiOutputsAt(xs: seq<real>, n: nat, m: nat)
    requires n >= 1 && m <= |xs|
    ensures |RsiOutputs(xs, n, m)| == m
    ensures forall k :: 0 <= k < m ==> RsiOutputs(xs, n, m)[k] == RsiAt(xs, n, k)
  {
    if m > 0 {
      RsiOutputsAt(xs, n, m - 1);
    }
  }

  /** A step over row i of `xs`, from buffers tracking the rows before it, tracks rows 0 .. i and emits row i's RSI. */
  lemma PushRow(before: RsiBuffers, after: RsiBuffers, out: Option<real>, xs: seq<real>, n: nat, i: nat)
    requires i < |xs| && Tracked(before, n) && before.values == xs[..i]
    requires BuffersOk(before, n) && (after, out) == PushStep(before, xs[i], n)
    ensures Tracked(after, n) && after.values == xs[..i + 1]
    ensures |after.gains| < n ==> after.avgGain == before.avgGain && after.avgLoss == before.avgLoss
    ensures out == RsiAt(xs, n, i)
  {
    assert xs[..i] + [xs[i]] == xs[..i + 1];
    PushStepTracks(before, xs[i], n);
    RsiAtPrefix(xs, n, i);
  }

  class RsiPartitionEvaluator {
    var windowSize: nat
    var values: seq<real>
    var gains: seq<real>
    var losses: seq<real>
    var avgGain: real
    var avgLoss: real

    constructor ()
      ensures windowSize == 0 && values == [] && gains == [] && losses == []
      ensures avgGain == 0.0 && avgLoss == 0.0
    {
      windowSize := 0;
      values := [];
      gains := [];
      losses := [];
      avgGain := 0.0;
      avgLoss := 0.0;
    }

    ghost function Buffers(): RsiBuffers
      reads this
    {
      RsiBuffers(values, gains, losses, avgGain, avgLoss)
    }

    /**
     * The body of the row loop: pushes one price and its change, seeds the averages with the
     * simple mean at the N-th change, smooths them afterwards, and emits the row's RSI.
     */
    method PushPrice(currentValue: real) returns (out: Option<real>)
      requires BuffersOk(Buffers(), windowSize)
      modifies this
      ensures windowSize == old(windowSize)
      ensures (Buffers(), out) == PushStep(old(Buffers()), currentValue, windowSize)
    {
      ghost var step := PushStep(Buffers(), currentValue, windowSize);
      var n := windowSize;
      var prices := values + [currentValue];
      if |prices| == 1 {
        values := prices;
        return None;
      }
      var change := currentValue - values[|values| - 1];
      var gain, loss := Gain(change), Loss(change);
      var g, l := gains + [gain], losses + [loss];
      if |g| < n {
        values, gains, losses := prices, g, l;
        return None;
      }
      SumNonNegative(g);
      SumNonNegative(l);
      var ag, al;
      if |g| == n {
        ag, al := Sum(g) / (n as real), Sum(l) / (n as real);
        NonNegativeQuotient(Sum(g), n as real);
        NonNegativeQuotient(Sum(l), n as real);
      } else {
        assert avgGain >= 0.0 && avgLoss >= 0.0;
        ag, al := WilderStep(avgGain, gain, n), WilderStep(avgLoss, loss, n);
      }
      values, gains, losses, avgGain, avgLoss := prices, g, l, ag, al;
      out := Some(CalculateRsi(ag, al));
    }

    /** The row loop over cleared buffers: one `PushPrice` per row, collecting the outputs. */
    method RunRows(xs: seq<real>, n: nat) returns (result: seq<Option<real>>)
      requires n >= 1 && windowSize == n && values == [] && gains == [] && losses == []
      modifies this
      ensures windowSize == n && Tracked(Buffers(), n) && values == xs
      ensures |gains| < n ==> avgGain == old(avgGain) && avgLoss == old(avgLoss)
      ensures |result| == |xs|
      ensures forall k :: 0 <= k < |xs| ==> result[k] == RsiAt(xs, n, k)
    {
      result := [];
      var i := 0;
      while i < |xs|
        invariant 0 <= i <= |xs|
        invariant windowSize == n
        invariant Tracked(Buffers(), n) && values == xs[..i]
        invariant |gains| < n ==> avgGain == old(avgGain) && avgLoss == old(avgLoss)
        invariant result == RsiOutputs(xs, n, i)
      {
        ghost var before := Buffers();
        TrackedOk(before, n);
        var rsi := PushPrice(xs[i]);
        PushRow(before, Buffers(), rsi, xs, n, i);
        result := result + [rsi];
        i := i + 1;
      }
      assert xs[..i] == xs;
      RsiOutputsAt(xs, n, i);
    }

    /**
     * Checks the arguments, clears the buffers and runs the gain/loss recurrence over every row.
     * The averages left over from an earlier call are overwritten at the seed before they are
     * read, so the output depends on this call's arguments only; with fewer than N changes
     * they are left as they were.
     */
    method EvaluateAll(args: seq<Column>, numRows: nat) returns (r: Result<seq<Option<real>>, Error>)
      requires RowsAligned(args, numRows)
      requires !ZeroWindow(args)
      modifies this
      ensures r.Failure? <==> ParseWindowed(args).Failure?
      ensures r.Failure? ==> r.error == ParseWindowed(args).error
      ensures r.Failure? ==>
                && windowSize == old(windowSize) && values == old(values)
                && gains == old(gains) && losses == old(losses)
                && avgGain == old(avgGain) && avgLoss == old(avgLoss)
      ensures r.Success? ==>
                var input := ParseWindowed(args).value;
                && windowSize == input.windowSize >= 1
                && values == input.prices
                && gains == Gains(input.prices) && losses == Losses(input.prices)
                && (|gains| >= windowSize ==>
                      avgGain == WilderAverage(gains, windowSize) && avgLoss == WilderAverage(losses, windowSize))
                && (|gains| < windowSize ==> avgGain == old(avgGain) && avgLoss == old(avgLoss))
                && |input.prices| == |r.value| == numRows
                && forall i :: 0 <= i < numRows ==> r.value[i] == RsiAt(input.prices, input.windowSize, i)
    {
      var parsed := ParseWindowed(args);
      if parsed.Failure? {
        return Failure(parsed.error);
      }
      var xs, n := parsed.value.prices, parsed.value.windowSize;
      PricesHaveRows(args, numRows);
      windowSize := n;

      values := [];
      gains := [];
      losses := [];
      var result := RunRows(xs, n);
      r := Success(result);
    }
  }

  /** The RSI at row i depends on rows 0 .. i only. */
  lemma RsiAtPrefix(xs: seq<real>, n: nat, i: nat)
    requires n >= 1 && i < |xs|
    ensures RsiAt(xs[..i + 1], n, i) == RsiAt(xs, n, i)
  {
    assert xs[..i + 1][..i + 1] == xs[..i + 1];
  }

  /** Wilder averages of zero entries are zero. */
  lemma {:induction false} WilderOfZeros(ds: seq<real>, n: nat)
    requires 1 <= n <= |ds|
    requires forall k :: 0 <= k < |ds| ==> ds[k] == 0.0
    ensures WilderAverage(ds, n) == 0.0
  {
    if |ds| == n {
      SumBounds(ds, 0.0, 0.0);
    } else {
      var init := ds[..|ds| - 1];
      assert forall k :: 0 <= k < |init| ==> init[k] == ds[k];
      WilderOfZeros(init, n);
    }
  }

  /** Once defined, the RSI lies in [0, 100], and it is exactly 100 precisely when the average loss is 0. */
  lemma RsiInRange(xs: seq<real>, n: nat, i: nat)
    requires n >= 1 && i < |xs|
    ensures RsiAt(xs, n, i).Some? <==> i >= n
    ensures RsiAt(xs, n, i).Some? ==>
              && 0.0 <= RsiAt(xs, n, i).value <= 100.0
              && (RsiAt(xs, n, i).value == 100.0 <==> WilderAverage(Losses(xs[..i + 1]), n) == 0.0)
  {
  }

  /** Over prices that never fall, every defined RSI is exactly 100. */
  lemma RsiOfNonFallingPrices(xs: seq<real>, n: nat, i: nat)
    requires n >= 1 && n <= i < |xs|
    requires forall k :: 0 < k <= i ==> xs[k - 1] <= xs[k]
    ensures RsiAt(xs, n, i) == Some(100.0)
  {
    var prefix := xs[..i + 1];
    var l := Losses(prefix);
    forall k | 0 <= k < |l| ensures l[k] == 0.0 {
      GainsAt(prefix, k);
    }
    WilderOfZeros(l, n);
  }

  /** The first RSI, at row N, is computed from the simple means of the first N gains and losses. */
  lemma RsiSeedIsSimpleMean(xs: seq<real>, n: nat)
    requires 1 <= n < |xs|
    ensures |Gains(xs[..n + 1])| == |Losses(xs[..n + 1])| == n
    ensures RsiAt(xs, n, n).Some?
    ensures WilderAverage(Gains(xs[..n + 1]), n) == Mean(Gains(xs[..n + 1]))
    ensures WilderAverage(Losses(xs[..n + 1]), n) == Mean(Losses(xs[..n + 1]))
  {
  }
}
