/**
 * The stateless rule set of `StreamingSignalDetector::detect_signals` in src/streaming.rs:
 * one snapshot of indicator values in, at most one RSI signal, one volume-spike signal and
 * one moving-average crossover signal out, in that order.
 */
module Detector {
  import opened Common
  import Streaming

  datatype SignalType =
    | Oversold
    | Overbought
    | VolumeSpike
    | BullishCrossover
    | BearishCrossover
    | PriceBreakout

  /** A detected signal. The human-readable description is not modelled. */
  datatype TradingSignal = TradingSignal(
    signalType: SignalType,
    symbol: string,
    timestamp: int,
    strength: real,
    price: real)

  /** Where a signal family sits in the output: RSI signals first, then volume, then crossover. */
  function Rank(t: SignalType): nat
  {
    match t
    case Oversold => 0
    case Overbought => 0
    case VolumeSpike => 1
    case BullishCrossover => 2
    case BearishCrossover => 2
    case PriceBreakout => 3
  }

  /** The types of the signals, in order. */
  function Types(r: seq<TradingSignal>): (ts: seq<SignalType>)
    ensures |ts| == |r| && forall i :: 0 <= i < |r| ==> ts[i] == r[i].signalType
  {
    seq(|r|, i requires 0 <= i < |r| => r[i].signalType)
  }

  /** A signal of type `t` stamped with the snapshot's symbol, timestamp and price. */
  function Emit(v: Streaming.IndicatorValues, t: SignalType, strength: real): TradingSignal
  {
    TradingSignal(t, v.symbol, v.timestamp, strength, v.price)
  }

  /** Below 30 the RSI reads oversold, above 70 overbought; strength is the distance past the threshold over 30. */
  function RsiSignals(v: Streaming.IndicatorValues): (r: seq<TradingSignal>)
    ensures |r| <= 1
    ensures forall i :: 0 <= i < |r| ==> r[i] == Emit(v, r[i].signalType, r[i].strength) && Rank(r[i].signalType) == 0
    ensures Types(r) == if v.rsi.Some? && v.rsi.value < 30.0 then [Oversold]
                        else if v.rsi.Some? && v.rsi.value > 70.0 then [Overbought] else []
  {
    match v.rsi
    case None => []
    case Some(rsi) =>
      if rsi < 30.0 then [Emit(v, Oversold, (30.0 - rsi) / 30.0)]
      else if rsi > 70.0 then [Emit(v, Overbought, (rsi - 70.0) / 30.0)]
      else []
  }

  /** A volume more than twice its average is a spike; strength is the excess over 3, without a cap. */
  function VolumeSignals(v: Streaming.IndicatorValues): (r: seq<TradingSignal>)
    ensures |r| <= 1
    ensures forall i :: 0 <= i < |r| ==> r[i] == Emit(v, r[i].signalType, r[i].strength) && Rank(r[i].signalType) == 1
    ensures Types(r) == if v.volumeRatio.Some? && v.volumeRatio.value > 2.0 then [VolumeSpike] else []
  {
    match v.volumeRatio
    case None => []
    case Some(ratio) => if ratio > 2.0 then [Emit(v, VolumeSpike, (ratio - 2.0) / 3.0)] else []
  }

  /**
   * `((ema - sma) / sma).abs().min(1.0)`. Over a zero SMA the quotient is infinite or NaN,
   * and `f64::min` returns 1.0 for both.
   */
  function CrossoverStrength(sma: real, ema: real): (r: real)
    ensures 0.0 <= r <= 1.0
    ensures sma != 0.0 && ema != sma ==> r > 0.0
    ensures sma != 0.0 && Abs(ema - sma) <= Abs(sma) ==> r * Abs(sma) == Abs(ema - sma)
    ensures sma != 0.0 && Abs(ema - sma) >= Abs(sma) ==> r == 1.0
  {
    if sma == 0.0 then 1.0
    else
      var q := Abs((ema - sma) / sma);
      QuotientMagnitude(ema - sma, sma);
      if q < 1.0 then q else 1.0
  }

  /** EMA more than 0.2% above the SMA is bullish; otherwise more than 0.2% below is bearish. */
  function CrossoverSignals(v: Streaming.IndicatorValues): (r: seq<TradingSignal>)
    ensures |r| <= 1
    ensures forall i :: 0 <= i < |r| ==> r[i] == Emit(v, r[i].signalType, r[i].strength) && Rank(r[i].signalType) == 2
    ensures Types(r) == if v.sma.Some? && v.ema.Some? && v.ema.value > v.sma.value * 1.002 then [BullishCrossover]
                        else if v.sma.Some? && v.ema.Some? && v.ema.value < v.sma.value * 0.998 then [BearishCrossover]
                        else []
  {
    if v.sma.Some? && v.ema.Some? then
      var sma, ema := v.sma.value, v.ema.value;
      if ema > sma * 1.002 then [Emit(v, BullishCrossover, CrossoverStrength(sma, ema))]
      else if ema < sma * 0.998 then [Emit(v, BearishCrossover, CrossoverStrength(sma, ema))]
      else []
    else []
  }

  /**
   * `detect_signals`: the RSI, volume and crossover rules in turn. Each family contributes at
   * most one signal, under exactly the condition its rule names, and in that order; every
   * signal carries the snapshot's symbol, timestamp and price; `PriceBreakout` is never emitted.
   */
  function DetectSignals(v: Streaming.IndicatorValues): (r: seq<TradingSignal>)
    ensures |r| <= 3
    ensures forall i :: 0 <= i < |r| ==>
              r[i].symbol == v.symbol && r[i].timestamp == v.timestamp && r[i].price == v.price
    ensures forall i, j :: 0 <= i < j < |r| ==> Rank(r[i].signalType) < Rank(r[j].signalType)
    ensures Types(r) == Types(RsiSignals(v)) + Types(VolumeSignals(v)) + Types(CrossoverSignals(v))
  {
    var a, b, c := RsiSignals(v), VolumeSignals(v), CrossoverSignals(v);
    StampedConcat(v, a, b, c);
    a + b + c
  }

  /** An RSI signal is emitted exactly when the RSI is below 30 (oversold) or above 70 (overbought). */
  lemma DetectsRsiExtremes(v: Streaming.IndicatorValues)
    ensures Oversold in Types(DetectSignals(v)) <==> v.rsi.Some? && v.rsi.value < 30.0
    ensures Overbought in Types(DetectSignals(v)) <==> v.rsi.Some? && v.rsi.value > 70.0
  {
    assert Types(DetectSignals(v)) == Types(RsiSignals(v)) + Types(VolumeSignals(v)) + Types(CrossoverSignals(v));
  }

  /** A volume spike is emitted exactly when the volume ratio exceeds 2. */
  lemma DetectsVolumeSpike(v: Streaming.IndicatorValues)
    ensures VolumeSpike in Types(DetectSignals(v)) <==> v.volumeRatio.Some? && v.volumeRatio.value > 2.0
  {
    assert Types(DetectSignals(v)) == Types(RsiSignals(v)) + Types(VolumeSignals(v)) + Types(CrossoverSignals(v));
  }

  /**
   * A bullish crossover is emitted exactly when the EMA exceeds the SMA by more than 0.2%, a
   * bearish one exactly when it is not bullish and the EMA is more than 0.2% below the SMA;
   * a price breakout is never emitted.
   */
  lemma DetectsCrossover(v: Streaming.IndicatorValues)
    ensures BullishCrossover in Types(DetectSignals(v)) <==>
              v.sma.Some? && v.ema.Some? && v.ema.value > v.sma.value * 1.002
    ensures BearishCrossover in Types(DetectSignals(v)) <==>
              && v.sma.Some? && v.ema.Some?
              && !(v.ema.value > v.sma.value * 1.002) && v.ema.value < v.sma.value * 0.998
    ensures PriceBreakout !in Types(DetectSignals(v))
  {
    var a, b, c := Types(RsiSignals(v)), Types(VolumeSignals(v)), Types(CrossoverSignals(v));
    assert Types(DetectSignals(v)) == a + b + c;
    assert BullishCrossover !in a + b && BearishCrossover !in a + b && PriceBreakout !in a + b;
  }

  /**
   * The rule behind each signal type, trigger and strength: an RSI past 30 or 70, with the
   * distance past the threshold over 30; a volume ratio above 2, with the excess over 3; an
   * EMA 0.2% above or below the SMA, with the clamped relative gap.
   */
  ghost predicate SignalRule(v: Streaming.IndicatorValues, s: TradingSignal)
  {
    match s.signalType
    case Oversold => v.rsi.Some? && v.rsi.value < 30.0 && s.strength * 30.0 == 30.0 - v.rsi.value
    case Overbought => v.rsi.Some? && v.rsi.value > 70.0 && s.strength * 30.0 == v.rsi.value - 70.0
    case VolumeSpike =>
      v.volumeRatio.Some? && v.volumeRatio.value > 2.0 && s.strength * 3.0 == v.volumeRatio.value - 2.0
    case BullishCrossover =>
      && v.sma.Some? && v.ema.Some? && v.ema.value > v.sma.value * 1.002
      && s.strength == CrossoverStrength(v.sma.value, v.ema.value)
    case BearishCrossover =>
      && v.sma.Some? && v.ema.Some? && v.ema.value < v.sma.value * 0.998
      && s.strength == CrossoverStrength(v.sma.value, v.ema.value)
    case PriceBreakout => false
  }

  /** Every detected signal follows the rule of its type. */
  lemma SignalStrengths(v: Streaming.IndicatorValues)
    ensures forall s :: s in DetectSignals(v) ==> SignalRule(v, s)
  {
    var a, b, c := RsiSignals(v), VolumeSignals(v), CrossoverSignals(v);
    assert DetectSignals(v) == a + b + c;
    assert forall s :: s in a ==> SignalRule(v, s);
    assert forall s :: s in b ==> SignalRule(v, s);
    assert forall s :: s in c ==> SignalRule(v, s);
  }

  /**
   * For an RSI in [0, 100], RSI strengths lie in (0, 1] and crossover strengths in [0, 1]; a
   * volume spike's strength is positive but has no upper bound.
   */
  lemma StrengthBounds(v: Streaming.IndicatorValues)
    requires v.rsi.Some? ==> 0.0 <= v.rsi.value <= 100.0
    ensures forall s :: s in DetectSignals(v) ==>
              && s.strength >= 0.0
              && (s.signalType != VolumeSpike ==> s.strength <= 1.0)
              && (s.signalType in {Oversold, Overbought, VolumeSpike} ==> s.strength > 0.0)
  {
    SignalStrengths(v);
  }

  /** A volume eight times its average gives a spike of strength 2: the volume strength is not clamped. */
  lemma VolumeSpikeUnclamped(v: Streaming.IndicatorValues)
    requires v.rsi.None? && v.sma.None? && v.volumeRatio == Some(8.0)
    ensures DetectSignals(v) == [TradingSignal(VolumeSpike, v.symbol, v.timestamp, 2.0, v.price)]
  {
    assert RsiSignals(v) == [] && CrossoverSignals(v) == [];
  }

  /**
   * The snapshot of the signal-detection test: an RSI of 25, a volume ratio of 2.5 and an EMA
   * of 150.5 over an SMA of 149 give an oversold signal, a volume spike and a bullish crossover,
   * in that order.
   */
  lemma OversoldSpikeAndCrossover(v: Streaming.IndicatorValues)
    requires v.sma == Some(149.0) && v.ema == Some(150.5)
    requires v.rsi == Some(25.0) && v.volumeRatio == Some(2.5)
    ensures DetectSignals(v) == [
              TradingSignal(Oversold, v.symbol, v.timestamp, 1.0 / 6.0, v.price),
              TradingSignal(VolumeSpike, v.symbol, v.timestamp, 1.0 / 6.0, v.price),
              TradingSignal(BullishCrossover, v.symbol, v.timestamp, 3.0 / 298.0, v.price)]
  {
    QuotientMagnitude(1.5, 149.0);
    assert CrossoverStrength(149.0, 150.5) == 3.0 / 298.0;
  }

  /** Signals over the calculator's snapshots: RSI and crossover strengths never exceed 1. */
  lemma SnapshotStrengthBounds(ticks: seq<Streaming.MarketTick>, n: nat)
    requires n >= 1 && |ticks| >= 1
    ensures forall s :: s in DetectSignals(Streaming.Snapshot(ticks, n)) ==>
              && s.strength >= 0.0
              && (s.signalType != VolumeSpike ==> s.strength <= 1.0)
              && (s.signalType in {Oversold, Overbought, VolumeSpike} ==> s.strength > 0.0)
  {
    Streaming.SnapshotRsi(ticks, n);
    StrengthBounds(Streaming.Snapshot(ticks, n));
  }

  /** The first tick at a non-negative price raises no signal, whatever N is. */
  lemma FirstTickIsQuiet(ticks: seq<Streaming.MarketTick>, n: nat)
    requires n >= 1 && |ticks| == 1 && ticks[0].price >= 0.0
    ensures DetectSignals(Streaming.Snapshot(ticks, n)) == []
  {
    var t := ticks[0];
    assert ticks[..0] == [];
    var v := Streaming.Step(Streaming.Initial(), t, n).1;
    assert Streaming.Snapshot(ticks, n) == v;
    assert v.rsi.None?;
    assert Sum([t.price]) == t.price;
    assert v.sma.Some? ==> v.sma.value == t.price;
    assert v.ema == Some(t.price);
    assert Streaming.NatSum([t.volume]) == t.volume;
    assert v.volumeSma.Some? ==> v.volumeSma.value == t.volume as real;
    if v.volumeRatio.Some? {
      var vs := v.volumeSma.value;
      assert vs == t.volume as real && vs != 0.0;
      assert v.volumeRatio == Some((t.volume as real) / vs);
      KnownQuotient(t.volume as real, vs, 1.0);
    }
  }

  /** Types distribute over concatenation. */
  lemma TypesAppend(a: seq<TradingSignal>, b: seq<TradingSignal>)
    ensures Types(a + b) == Types(a) + Types(b)
  {
    assert forall i :: 0 <= i < |a + b| ==> Types(a + b)[i] == (Types(a) + Types(b))[i];
  }

  /**
   * Concatenating the signals of the three rule groups, at most one each, stamped from the
   * snapshot and ranked 0, 1 and 2, keeps the stamps, orders the types by rank and concatenates the types.
   */
  lemma StampedConcat(v: Streaming.IndicatorValues, a: seq<TradingSignal>, b: seq<TradingSignal>, c: seq<TradingSignal>)
    requires |a| <= 1 && |b| <= 1 && |c| <= 1
    requires forall i :: 0 <= i < |a| ==> a[i] == Emit(v, a[i].signalType, a[i].strength) && Rank(a[i].signalType) == 0
    requires forall i :: 0 <= i < |b| ==> b[i] == Emit(v, b[i].signalType, b[i].strength) && Rank(b[i].signalType) == 1
    requires forall i :: 0 <= i < |c| ==> c[i] == Emit(v, c[i].signalType, c[i].strength) && Rank(c[i].signalType) == 2
    ensures forall i :: 0 <= i < |a + b + c| ==>
              (a + b + c)[i].symbol == v.symbol && (a + b + c)[i].timestamp == v.timestamp && (a + b + c)[i].price == v.price
    ensures forall i, j :: 0 <= i < j < |a + b + c| ==> Rank((a + b + c)[i].signalType) < Rank((a + b + c)[j].signalType)
    ensures Types(a + b + c) == Types(a) + Types(b) + Types(c)
  {
    TypesAppend(a, b);
    TypesAppend(a + b, c);
    var r := a + b + c;
    assert forall i :: 0 <= i < |r| ==> r[i] == Emit(v, r[i].signalType, r[i].strength) by {
      assert forall i :: 0 <= i < |a| ==> r[i] == a[i];
      assert forall i :: |a| <= i < |a| + |b| ==> r[i] == b[i - |a|];
      assert forall i :: |a| + |b| <= i < |r| ==> r[i] == c[i - |a| - |b|];
    }
    assert forall i :: 0 <= i < |r| ==> Rank(r[i].signalType) == if i < |a| then 0 else if i < |a| + |b| then 1 else 2;
  }
}
