/**
 * The per-row rules of the batch signal detector in src/polygon/signals.rs: RSI thresholds on
 * rows carrying a 14-period RSI, and SMA20/SMA50 crossovers on rows carrying both averages
 * and their values one row earlier. The query text, the table scan and the batch iteration
 * are replaced by a sequence of rows in scan order.
 */
module Signals {
  import opened Common

  datatype SignalType = Buy | Sell | Hold

  /** A detected signal. The human-readable reason is not modelled. */
  datatype TradingSignal = TradingSignal(
    signalType: SignalType,
    symbol: string,
    timestamp: int,
    price: real,
    confidence: real)

  /** A row of the RSI query: ticker, bar start, close and the RSI over it, null during warm-up. */
  datatype RsiRow = RsiRow(symbol: string, timestamp: int, price: real, rsi: Option<real>)

  /** A row of the crossover query: the two SMAs at this bar and at the one before, each possibly null. */
  datatype CrossoverRow = CrossoverRow(
    symbol: string,
    timestamp: int,
    price: real,
    sma20: Option<real>,
    sma50: Option<real>,
    prevSma20: Option<real>,
    prevSma50: Option<real>)

  /**
   * The RSI rule for one row: below 30 a buy, above 70 a sell, with confidence the distance
   * past the threshold over 30; rows without an RSI are filtered out by the query.
   */
  function RsiRowSignal(row: RsiRow): (r: Option<TradingSignal>)
    ensures r.Some? <==> row.rsi.Some? && (row.rsi.value < 30.0 || row.rsi.value > 70.0)
    ensures r.Some? ==> && r.value.symbol == row.symbol && r.value.timestamp == row.timestamp
                        && r.value.price == row.price && r.value.signalType != Hold
    ensures r.Some? ==> (r.value.signalType == Buy <==> row.rsi.value < 30.0)
    ensures r.Some? && r.value.signalType == Buy ==> r.value.confidence * 30.0 == 30.0 - row.rsi.value
    ensures r.Some? && r.value.signalType == Sell ==> r.value.confidence * 30.0 == row.rsi.value - 70.0
    ensures r.Some? && 0.0 <= row.rsi.value <= 100.0 ==> 0.0 < r.value.confidence <= 1.0
  {
    match row.rsi
    case None => None
    case Some(rsi) =>
      if rsi < 30.0 then Some(TradingSignal(Buy, row.symbol, row.timestamp, row.price, (30.0 - rsi) / 30.0))
      else if rsi > 70.0 then Some(TradingSignal(Sell, row.symbol, row.timestamp, row.price, (rsi - 70.0) / 30.0))
      else None
  }

  /**
   * The query's filter: all four averages present, and SMA20 either crossing above SMA50
   * from at or below it, or crossing below from at or above it.
   */
  predicate Qualifies(row: CrossoverRow)
  {
    && row.sma20.Some? && row.sma50.Some? && row.prevSma20.Some? && row.prevSma50.Some?
    && var (s20, s50, p20, p50) := (row.sma20.value, row.sma50.value, row.prevSma20.value, row.prevSma50.value);
       (p20 <= p50 && s20 > s50) || (p20 >= p50 && s20 < s50)
  }

  /** Buy when SMA20 is above SMA50, sell otherwise. */
  function CrossoverType(sma20: real, sma50: real): SignalType
  {
    if sma20 > sma50 then Buy else Sell
  }

  /**
   * `(spread / price).min(1.0)` with spread = |sma20 - sma50|. Over a zero price the quotient
   * is infinite or NaN, and `f64::min` returns 1.0 for both.
   */
  function CrossoverConfidence(sma20: real, sma50: real, price: real): (c: real)
    ensures c <= 1.0
    ensures price > 0.0 ==> c >= 0.0
    ensures price > 0.0 && sma20 != sma50 ==> c > 0.0
    ensures price > 0.0 && Abs(sma20 - sma50) <= price ==> c * price == Abs(sma20 - sma50)
    ensures price > 0.0 && Abs(sma20 - sma50) >= price ==> c == 1.0
    ensures price < 0.0 ==> c * price == Abs(sma20 - sma50)
    ensures price == 0.0 ==> c == 1.0
  {
    var spread := Abs(sma20 - sma50);
    if price == 0.0 then 1.0
    else
      var q := spread / price;
      SpreadOverPrice(spread, price);
      if q < 1.0 then q else 1.0
  }

  /** A spread over a non-zero price: the quotient's sign and its position against 1. */
  lemma SpreadOverPrice(spread: real, price: real)
    requires spread >= 0.0 && price != 0.0
    ensures (spread / price) * price == spread
    ensures price > 0.0 ==> spread / price >= 0.0 && (spread / price < 1.0 <==> spread < price)
    ensures price > 0.0 && spread > 0.0 ==> spread / price > 0.0
    ensures price < 0.0 ==> spread / price <= 0.0
  {
    if price > 0.0 {
      QuotientMagnitude(spread, price);
    } else {
      NonNegativeQuotient(spread, -price);
      assert spread / price == -(spread / -price);
    }
  }

  /**
   * The crossover rule for one row: qualifying rows become signals, the rest are filtered out.
   * A buy marks SMA20 crossing above SMA50 and a sell SMA20 crossing below it: the sell
   * branch, taken whenever SMA20 is not above SMA50, only ever sees SMA20 strictly below.
   */
  function CrossoverRowSignal(row: CrossoverRow): (r: Option<TradingSignal>)
    ensures r.Some? <==> Qualifies(row)
    ensures r.Some? ==> && r.value.symbol == row.symbol && r.value.timestamp == row.timestamp
                        && r.value.price == row.price && r.value.signalType != Hold
    ensures r.Some? && r.value.signalType == Buy ==>
              row.prevSma20.value <= row.prevSma50.value && row.sma20.value > row.sma50.value
    ensures r.Some? && r.value.signalType == Sell ==>
              row.prevSma20.value >= row.prevSma50.value && row.sma20.value < row.sma50.value
    ensures r.Some? ==>
              && r.value.signalType == CrossoverType(row.sma20.value, row.sma50.value)
              && r.value.confidence == CrossoverConfidence(row.sma20.value, row.sma50.value, row.price)
    ensures r.Some? && row.price > 0.0 ==> 0.0 < r.value.confidence <= 1.0
  {
    if Qualifies(row) then
      var s20, s50 := row.sma20.value, row.sma50.value;
      Some(TradingSignal(CrossoverType(s20, s50), row.symbol, row.timestamp, row.price,
                         CrossoverConfidence(s20, s50, row.price)))
    else None
  }

  /** The RSI signals of a scan, in row order. */
  function RsiSignalsOf(rows: seq<RsiRow>): (r: seq<TradingSignal>)
    ensures |r| <= |rows|
  {
    if |rows| == 0 then []
    else
      var last := RsiRowSignal(rows[|rows| - 1]);
      RsiSignalsOf(rows[..|rows| - 1]) + (if last.Some? then [last.value] else [])
  }

  /** The crossover signals of a scan, in row order. */
  function CrossoverSignalsOf(rows: seq<CrossoverRow>): (r: seq<TradingSignal>)
    ensures |r| <= |rows|
  {
    if |rows| == 0 then []
    else
      var last := CrossoverRowSignal(rows[|rows| - 1]);
      CrossoverSignalsOf(rows[..|rows| - 1]) + (if last.Some? then [last.value] else [])
  }

  /** Scanning two runs of rows one after the other gives the first run's signals, then the second's. */
  lemma {:induction false} RsiSignalsAppend(a: seq<RsiRow>, b: seq<RsiRow>)
    ensures RsiSignalsOf(a + b) == RsiSignalsOf(a) + RsiSignalsOf(b)
  {
    if |b| > 0 {
      assert (a + b)[..|a + b| - 1] == a + b[..|b| - 1];
      RsiSignalsAppend(a, b[..|b| - 1]);
    } else {
      assert a + b == a;
    }
  }

  /** Scanning two runs of rows one after the other gives the first run's signals, then the second's. */
  lemma {:induction false} CrossoverSignalsAppend(a: seq<CrossoverRow>, b: seq<CrossoverRow>)
    ensures CrossoverSignalsOf(a + b) == CrossoverSignalsOf(a) + CrossoverSignalsOf(b)
  {
    if |b| > 0 {
      assert (a + b)[..|a + b| - 1] == a + b[..|b| - 1];
      CrossoverSignalsAppend(a, b[..|b| - 1]);
    } else {
      assert a + b == a;
    }
  }

  /** Every RSI signal of a scan is the signal of one of its rows. */
  lemma {:induction false} RsiSignalsFromRows(rows: seq<RsiRow>)
    ensures forall s :: s in RsiSignalsOf(rows) ==> exists i :: 0 <= i < |rows| && RsiRowSignal(rows[i]) == Some(s)
  {
    if |rows| > 0 {
      var init := rows[..|rows| - 1];
      RsiSignalsFromRows(init);
      forall s | s in RsiSignalsOf(rows)
        ensures exists i :: 0 <= i < |rows| && RsiRowSignal(rows[i]) == Some(s)
      {
        if s in RsiSignalsOf(init) {
          var i :| 0 <= i < |init| && RsiRowSignal(init[i]) == Some(s);
          assert rows[i] == init[i];
        } else {
          assert RsiRowSignal(rows[|rows| - 1]) == Some(s);
        }
      }
    }
  }

  /** Every crossover signal of a scan is the signal of one of its qualifying rows. */
  lemma {:induction false} CrossoverSignalsFromRows(rows: seq<CrossoverRow>)
    ensures forall s :: s in CrossoverSignalsOf(rows) ==>
              exists i :: 0 <= i < |rows| && CrossoverRowSignal(rows[i]) == Some(s)
  {
    if |rows| > 0 {
      var init := rows[..|rows| - 1];
      CrossoverSignalsFromRows(init);
      forall s | s in CrossoverSignalsOf(rows)
        ensures exists i :: 0 <= i < |rows| && CrossoverRowSignal(rows[i]) == Some(s)
      {
        if s in CrossoverSignalsOf(init) {
          var i :| 0 <= i < |init| && CrossoverRowSignal(init[i]) == Some(s);
          assert rows[i] == init[i];
        } else {
          assert CrossoverRowSignal(rows[|rows| - 1]) == Some(s);
        }
      }
    }
  }

  /** `detect_rsi_signals`' row loop: one pass over the rows, pushing each row's signal. */
  method DetectRsiSignals(rows: seq<RsiRow>) returns (signals: seq<TradingSignal>)
    ensures signals == RsiSignalsOf(rows)
  {
    signals := [];
    var row := 0;
    while row < |rows|
      invariant 0 <= row <= |rows|
      invariant signals == RsiSignalsOf(rows[..row])
    {
      assert rows[..row + 1][..row] == rows[..row];
      var s := RsiRowSignal(rows[row]);
      if s.Some? {
        signals := signals + [s.value];
      }
      row := row + 1;
    }
    assert rows[..row] == rows;
  }

  /** `detect_ma_crossover_signals`' row loop: one pass over the rows, pushing each qualifying row's signal. */
  method DetectCrossoverSignals(rows: seq<CrossoverRow>) returns (signals: seq<TradingSignal>)
    ensures signals == CrossoverSignalsOf(rows)
  {
    signals := [];
    var row := 0;
    while row < |rows|
      invariant 0 <= row <= |rows|
      invariant signals == CrossoverSignalsOf(rows[..row])
    {
      assert rows[..row + 1][..row] == rows[..row];
      var s := CrossoverRowSignal(rows[row]);
      if s.Some? {
        signals := signals + [s.value];
      }
      row := row + 1;
    }
    assert rows[..row] == rows;
  }
}
