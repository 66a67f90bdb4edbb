# Technical indicators of datafusion-functions-financial, in Dafny

This project models the indicator engine of the `datafusion-functions-financial` Rust crate
and proves properties about it. The model covers:

- the four batch window functions (`sma`, `ema`, `rsi`, `macd`), each a partition evaluator
  whose `evaluate_all` checks its arguments and runs a recurrence once over a price column;
- the tick-by-tick calculator `StreamingIndicators` and the rule set
  `StreamingSignalDetector::detect_signals`;
- the per-row RSI and SMA20/SMA50 crossover rules of the batch signal detector;
- the `ValidationReport` state machine of the data validator.

Arithmetic is over `real`, not IEEE-754 doubles. Exact-equality tests of the source
(`avg_loss == 0.0`, `rsi_avg_gain == 0.0`) stay exact.

Each module follows one source file:

| module | file | form |
|---|---|---|
| `Common` | – | `Option`, `Result`, left-to-right `Sum`, `Mean`, small real-arithmetic lemmas |
| `Arguments` | the argument checks shared by the four `evaluate_all` | functions over a model of the argument columns |
| `Sma`, `Ema`, `Rsi`, `Macd` | `src/functions/*.rs` | a class with the evaluator's fields, a loop-based `EvaluateAll` proved against a pure specification (`SmaAt`, `EmaAt`, `RsiAt`, `MacdAt`), and lemmas about that specification |
| `Streaming` | `src/streaming.rs` (calculator) | the class `StreamingIndicators`, whose `Update` is proved to take one pure `Step`; lemmas about `Run`/`Snapshot` over any tick history |
| `Detector` | `src/streaming.rs` (`detect_signals`) | pure functions over a snapshot |
| `Signals` | `src/polygon/signals.rs` | pure per-row rules; the row loops are methods proved against recursive scans |
| `Validator` | `src/polygon/validator.rs` | the class `ValidationReport`, with a ghost log of `add_check` calls that `Replay` interprets |

Some results describe behaviour that is easy to miss in the source, and the model keeps it as
written:

- MACD never resets its EMA state, so a second call continues from the first call's state
  (`Macd.MacdCarriesState`, `Macd.MacdCarriedStateDiffersFromFresh`).
- The streaming RSI re-seeds its averages from simple means whenever the average gain is
  exactly 0, not only at the first full window. It agrees with the batch RSI when the first
  window contains a gain (`Streaming.StreamRsiMatchesBatch`). Otherwise it can differ: over
  [10, 9, 7, 8] with N = 2 the batch RSI is 40 and the streaming RSI is 100/3
  (`Streaming.StreamRsiReseedDiffersFromBatch`).
- With N = 1 the streaming price buffer never holds two prices, so the streaming RSI is
  always absent (`Streaming.StreamRsiIdleForOne`, `Streaming.StreamRsiWarmUp`).
- The volume-spike strength has no upper bound (`Detector.VolumeSpikeUnclamped`).
- A validation report that failed stays failed even after the failing check is overwritten
  with a zero count (`Validator.OverwriteKeepsFailedVerdict`).

## Model

| member | source | states |
|---|---|---|
| Arguments.UsizeOf | src/functions/sma.rs:92-97 | `i64 as usize` keeps non-negative sizes, wraps negative ones to 2^64 + w, and is 0 only for 0 |
| Arguments.FirstNonNull | src/functions/sma.rs:92-97 | `find_map(\|x\| x)` is absent exactly when every entry is null, and otherwise is an entry preceded only by nulls |
| Arguments.WindowSizeIgnoresLaterEntries | src/functions/sma.rs:92-97 | the window size is the first non-null entry; whatever follows it is never read |
| Arguments.ParseWindowed | src/functions/sma.rs:71-97 | the checks in source order: argument count 2, first column Float64, second column Int64, window column not all null; on success the prices are the first column and the window is the first non-null entry cast to usize |
| Arguments.ParseSingle | src/functions/macd.rs:95-106 | succeeds exactly for one Float64 column; otherwise fails with the count error or the kind error |
| Arguments.PricesHaveRows | src/functions/sma.rs:102-103 | under the engine's contract the price column has `num_rows` entries |
| Sma.SmaPartitionEvaluator.constructor | src/functions/sma.rs:57-62 | empty `values`, window size 0 |
| Sma.SmaPartitionEvaluator.EvaluateAll | src/functions/sma.rs:66-120 | fails exactly when the argument checks fail, with their error and no state change; otherwise `values` ends as this call's prices, there are `num_rows` outputs, and output i is `SmaAt` (null before row N-1, then the mean of the last N prices) |
| Sma.SmaWithinRange | src/functions/sma.rs:106-113 | the SMA is present exactly from row N-1 on, and lies within the bounds of the prices |
| Sma.SmaSlide | src/functions/sma.rs:106-109 | moving one row on adds (entering - leaving) / N to the recomputed window mean |
| Sma.SmaExample | src/functions/sma.rs:143-166 | SMA(3) over 1 .. 10 is null, null, then 2 .. 9 |
| Ema.Alpha | src/functions/ema.rs:101-102 | 2 / (N + 1) is positive, at most 2, and at most 1 exactly when N >= 1 |
| Ema.EmaFrom | src/functions/ema.rs:107-121 | the recurrence's state is present after any non-empty run and unchanged after an empty one |
| Ema.EmaPartitionEvaluator.constructor | src/functions/ema.rs:58-64 | window 0, alpha 0, no EMA |
| Ema.EmaPartitionEvaluator.EvaluateAll | src/functions/ema.rs:68-128 | fails exactly when the argument checks fail, with no state change; otherwise alpha = 2/(N+1), `current_ema` restarts from None and ends at the recurrence over this call's prices, and every one of the `num_rows` outputs is present and equal to `EmaAt` |
| Ema.EmaSeed | src/functions/ema.rs:110-113 | the first output is the first price exactly |
| Ema.EmaRecurrence | src/functions/ema.rs:115-120 | every later output is alpha * price + (1 - alpha) * previous output |
| Ema.EmaWithinRange | src/functions/ema.rs:115-120 | with 0 < alpha <= 1 every output lies within the bounds of the prices seen so far |
| Ema.EmaFromAppend | src/functions/ema.rs:107-121 | running the recurrence over a ++ b equals running it over b from the state a left |
| Ema.EmaExample | src/functions/ema.rs:150-168 | EMA(3) over 10, 12, 13, 12, 15 is 10, 11, 12, 12, 13.5 |
| Rsi.Gain | src/functions/rsi.rs:134 | the gain is non-negative, and positive exactly for a rise, when it equals the change |
| Rsi.Loss | src/functions/rsi.rs:135 | the loss is non-negative, and positive exactly for a fall, when it equals the negated change |
| Rsi.GainLossSplit | src/functions/rsi.rs:131-135 | gain - loss is the change, and at most one of them is non-zero |
| Rsi.Gains | src/functions/rsi.rs:130-138 | one gain per change (one fewer than the prices), all non-negative |
| Rsi.GainsSnoc | src/functions/rsi.rs:130-138 | pushing a price pushes the gain and loss of its change from the previous price |
| Rsi.GainsAt | src/functions/rsi.rs:130-135 | gain and loss k come from the change between prices k and k+1 |
| Rsi.WilderAverage | src/functions/rsi.rs:146-155 | the seeded-then-smoothed average of non-negative entries is non-negative |
| Rsi.WilderStep | src/functions/rsi.rs:152-154 | smoothing with 1/N keeps non-negative averages non-negative, and positive ones positive for N >= 2 |
| Rsi.WilderSnoc | src/functions/rsi.rs:150-155 | one more change moves the average by one Wilder step |
| Rsi.CalculateRsi | src/functions/rsi.rs:72-78 | exactly 100 when the average loss is 0; otherwise 100 * gain / (gain + loss), in [0, 100) |
| Rsi.RsiClosedForm | src/functions/rsi.rs:76-77 | 100 - 100 / (1 + g/l) equals 100 * g / (g + l), which lies in [0, 100) |
| Rsi.PushWarmUp | src/functions/rsi.rs:137-144 | while fewer than N changes are buffered, a price pushes its change and emits nothing, leaving the averages alone |
| Rsi.PushSeed | src/functions/rsi.rs:146-149 | at the N-th change the averages become the simple means of the buffered gains and losses, and the RSI of those is emitted |
| Rsi.PushSmooth | src/functions/rsi.rs:150-158 | after the N-th change each average takes a Wilder step, which keeps it the Wilder average of all changes, and the RSI of those is emitted |
| Rsi.PushStepTracks | src/functions/rsi.rs:121-158 | one row keeps the buffers equal to the prices so far, their gains and losses and their Wilder averages, leaves the averages alone while fewer than N changes are buffered, and emits `RsiAt` of that row |
| Rsi.PushRow | src/functions/rsi.rs:120-158 | row i of the loop keeps the buffers tracking `xs[..i+1]`, leaves the averages alone below N changes, and emits `RsiAt(xs, N, i)` |
| Rsi.RsiPartitionEvaluator.constructor | src/functions/rsi.rs:61-70 | window 0, empty buffers, zero averages |
| Rsi.RsiPartitionEvaluator.PushPrice | src/functions/rsi.rs:121-158 | one iteration of the row loop on the fields is one `PushStep` |
| Rsi.RsiPartitionEvaluator.RunRows | src/functions/rsi.rs:120-162 | over cleared buffers the row loop emits `RsiAt` for every row and leaves the buffers tracking all the prices; with N changes or more the averages are the Wilder averages of all gains and losses, with fewer they are left as they were |
| Rsi.RsiPartitionEvaluator.EvaluateAll | src/functions/rsi.rs:82-165 | fails exactly when the argument checks fail, with no state change; otherwise the buffers hold this call's prices, gains and losses, the averages are the Wilder averages of those gains and losses once there are N of them and are left as they were below N, and output i is `RsiAt` of this call's prices alone, whatever averages an earlier call left |
| Rsi.RsiAtPrefix | src/functions/rsi.rs:120-158 | the RSI at row i depends on rows 0 .. i only |
| Rsi.WilderOfZeros | src/functions/rsi.rs:146-155 | averages of zero changes are zero |
| Rsi.RsiInRange | src/functions/rsi.rs:124-158 | the RSI is present exactly from row N on, lies in [0, 100], and is 100 exactly when the average loss is 0 |
| Rsi.RsiOfNonFallingPrices | src/functions/rsi.rs:72-75 | over prices that never fall every present RSI is exactly 100 |
| Rsi.RsiSeedIsSimpleMean | src/functions/rsi.rs:146-149 | the first RSI, at row N, uses the simple means of the first N gains and losses |
| Macd.MacdPartitionEvaluator.constructor | src/functions/macd.rs:59-66 | no EMAs; the factors are 2/13 and 2/27, the EMA factors for N = 12 and N = 26 |
| Macd.MacdPartitionEvaluator.UpdateEma | src/functions/macd.rs:68-86 | feeds the price to both EMA recurrences and returns their difference, always present |
| Macd.MacdPartitionEvaluator.EvaluateAll | src/functions/macd.rs:90-120 | fails exactly when the single-argument check fails, with no state change; otherwise every one of the `num_rows` outputs is present and is `MacdAt` from the EMA state the previous call left |
| Macd.MacdFirstIsZero | src/functions/macd.rs:70-85 | a fresh evaluator's first MACD is exactly 0 |
| Macd.MacdIsEmaDifference | src/functions/macd.rs:68-86 | from a fresh evaluator, row i is EMA(12) minus EMA(26) of the EMA evaluator, each taking its own blended step |
| Macd.MacdCarriesState | src/functions/macd.rs:89-117 | a call on b after a call on a emits the tail of one fresh call on a ++ b |
| Macd.MacdCarriedStateDiffersFromFresh | src/functions/macd.rs:89-117 | the carried state is observable: after [0] the next call's first MACD for [1] is 2/13 - 2/27, not 0 |
| Streaming.LastN | src/streaming.rs:58-65 | the bounded buffer holds min(k, N) entries |
| Streaming.LastNSnoc | src/streaming.rs:58-65 | push-back then pop-front beyond N keeps the last N entries |
| Streaming.NatSumZero | src/streaming.rs:158 | a sum of volumes is 0 only when every volume is 0 |
| Streaming.VolumeRatio | src/streaming.rs:82 | present exactly when the volume SMA is present and non-zero, and then ratio * SMA = volume |
| Streaming.PushChange | src/streaming.rs:119-128 | pushing a change's gain and loss keeps the RSI buffers well formed and at most N long, and the averages unchanged |
| Streaming.SmoothAverages | src/streaming.rs:134-143 | re-seeding or smoothing keeps the buffers and non-negative averages |
| Streaming.RsiStep | src/streaming.rs:111-151 | nothing happens with fewer than two buffered prices; the gain buffer stays at most N long; an emitted RSI lies in [0, 100], is 100 exactly when the new average loss is 0, and is the RSI of the new averages |
| Streaming.StreamRsiRun | src/streaming.rs:111-151 | the RSI state after any price history is well formed |
| Streaming.StreamRsi | src/streaming.rs:145-150 | the RSI emitted for the last price lies in [0, 100] and is 100 exactly when the average loss is 0 |
| Streaming.RsiStepBuffers | src/streaming.rs:116-128 | a step pushes the change of the last two buffered prices onto buffers holding the last N changes |
| Streaming.RsiStepCases | src/streaming.rs:130-143 | below N buffered changes nothing is emitted and the averages stay; at exactly N with a zero average gain they are re-seeded from the means; at N or more with a non-zero average gain they are smoothed; a buffer of at most N changes stays at most N |
| Streaming.StreamRsiIdleForOne | src/streaming.rs:112-114 | with N = 1 the RSI state never leaves its initial value |
| Streaming.StreamRsiBuffers | src/streaming.rs:116-128 | with N >= 2 the RSI buffers hold the last N gains and losses of the whole history |
| Streaming.StreamAveragesUntouched | src/streaming.rs:130-132 | the averages stay 0 until more than N prices have arrived |
| Streaming.StreamRsiWarmUp | src/streaming.rs:112-132 | the streaming RSI is present exactly when N >= 2 and more than N prices have arrived |
| Streaming.StreamReseed | src/streaming.rs:134-137 | with a full buffer and a zero average gain, a step re-seeds both averages with the means of the last N changes |
| Streaming.StreamFirstSeed | src/streaming.rs:134-137 | the first output seeds the averages with the means of the first N changes |
| Streaming.StreamWilderStep | src/streaming.rs:138-143 | with a full buffer and a positive average gain, a step smooths both averages with the newest change |
| Streaming.FirstSeedMatchesBatch | src/streaming.rs:134-137 | at the first output, the seeded averages are the batch Wilder averages, and the gain average is positive when the window holds a gain |
| Streaming.StreamAveragesMatchBatch | src/streaming.rs:134-143 | when the first window holds a gain the averages are never re-seeded and equal the batch Wilder averages |
| Streaming.BatchWilderSnoc | src/functions/rsi.rs:150-155 | the batch averages over one more price take one Wilder step with the newest change |
| Streaming.StreamRsiMatchesBatch | src/streaming.rs:111-151 | when the first window holds a gain, the streaming RSI after i+1 prices is the batch RSI at row i |
| Streaming.StreamRsiReseedDiffersFromBatch | src/streaming.rs:134 | without a gain in the first window re-seeding makes the streaming RSI differ from the batch one: 100/3 against 40 over [10, 9, 7, 8] with N = 2 |
| Streaming.CalculateSma | src/streaming.rs:86-93 | over a buffer of at most N prices the SMA is present exactly when the buffer is full |
| Streaming.CalculateVolumeSma | src/streaming.rs:153-160 | present exactly when the buffer is full, and non-negative |
| Streaming.CalculateSmaOfLastN | src/streaming.rs:86-93 | over the last-N buffer, the buffer means are the streaming SMA and volume SMA of the whole history |
| Streaming.Initial | src/streaming.rs:40-53 | the fresh RSI state is well formed |
| Streaming.Step | src/streaming.rs:56-84 | one update keeps the RSI state well formed, the price and volume buffers of equal length at most N, and the gain buffer at most N long |
| Streaming.Run | src/streaming.rs:56-84 | the state after any ticks has a well-formed RSI state, price and volume buffers of equal length at most N, and a gain buffer at most N long |
| Streaming.RunSnoc | src/streaming.rs:56-84 | one more tick is one more update from the state the earlier ticks reached |
| Streaming.StepBuffers | src/streaming.rs:58-65 | one update keeps the buffers holding the last N prices and volumes |
| Streaming.RunBuffers | src/streaming.rs:58-65 | after any ticks, the buffers hold the last min(k, N) prices and volumes, in arrival order |
| Streaming.RunEma | src/streaming.rs:95-109 | after any ticks, the EMA is the EMA recurrence over every price so far |
| Streaming.RunRsi | src/streaming.rs:111-151 | after any ticks, the RSI state is `StreamRsiRun` of the prices so far |
| Streaming.SnapshotMeans | src/streaming.rs:68-71 | the snapshot's SMA and volume SMA are the streaming means of the last N prices and volumes |
| Streaming.SnapshotEma | src/streaming.rs:95-109 | the snapshot's EMA is present and equals the batch EMA at the latest price |
| Streaming.SnapshotRsi | src/streaming.rs:70 | the snapshot's RSI is the streaming RSI of the prices so far |
| Streaming.SnapshotMeaning | src/streaming.rs:73-83 | the snapshot copies the tick's symbol, timestamp, price and volume, and carries the streaming SMA, EMA, RSI, volume SMA and volume ratio of the history |
| Streaming.StreamingIndicators.constructor | src/streaming.rs:40-53 | empty buffers, no EMA, zero RSI averages |
| Streaming.StreamingIndicators.Update | src/streaming.rs:56-84 | one update on the fields is one `Step`, and keeps the price, volume and gain buffers bounded by N |
| Streaming.StreamingIndicators.CalculateEma | src/streaming.rs:95-109 | the EMA field takes one recurrence step and is returned |
| Streaming.StreamingIndicators.CalculateRsi | src/streaming.rs:111-151 | the RSI fields take one `RsiStep` against the price buffer |
| Streaming.StreamSmaMatchesBatch | src/streaming.rs:86-93 | the streaming SMA after i+1 prices is the batch SMA at row i |
| Streaming.ZeroVolumeSmaMeansQuietWindow | src/streaming.rs:153-160 | a volume SMA of 0 means every buffered volume is 0 |
| Detector.RsiSignals | src/streaming.rs:192-212 | oversold below 30, overbought above 70, at most one signal, stamped from the snapshot |
| Detector.VolumeSignals | src/streaming.rs:215-226 | a spike exactly when the ratio exceeds 2, at most one signal, stamped from the snapshot |
| Detector.CrossoverStrength | src/streaming.rs:230-237 | the clamped relative gap lies in [0, 1], is positive for a non-zero gap, and is \|ema - sma\| / \|sma\| below the clamp and 1 at or above it |
| Detector.CrossoverSignals | src/streaming.rs:229-252 | bullish above SMA * 1.002, otherwise bearish below SMA * 0.998, at most one signal, stamped from the snapshot |
| Detector.DetectSignals | src/streaming.rs:188-255 | at most three signals, each stamped with the snapshot's symbol, timestamp and price, in the order RSI, volume, crossover |
| Detector.DetectsRsiExtremes | src/streaming.rs:192-212 | oversold is emitted exactly when RSI < 30, overbought exactly when RSI > 70 |
| Detector.DetectsVolumeSpike | src/streaming.rs:215-226 | a volume spike is emitted exactly when the ratio exceeds 2 |
| Detector.DetectsCrossover | src/streaming.rs:229-252 | bullish exactly when EMA > 1.002 * SMA, bearish exactly when not bullish and EMA < 0.998 * SMA, and never a price breakout |
| Detector.SignalStrengths | src/streaming.rs:188-255 | every signal's trigger and strength follow its type's rule |
| Detector.StrengthBounds | src/streaming.rs:188-255 | for an RSI in [0, 100], RSI strengths lie in (0, 1], crossover strengths in [0, 1], spike strengths are positive |
| Detector.VolumeSpikeUnclamped | src/streaming.rs:221 | a volume ratio of 8 gives a spike of strength 2 |
| Detector.OversoldSpikeAndCrossover | src/streaming.rs:347-366 | the test snapshot gives oversold (1/6), a volume spike (1/6) and a bullish crossover (3/298), in that order |
| Detector.SnapshotStrengthBounds | src/streaming.rs:188-255 | over the calculator's snapshots RSI and crossover strengths never exceed 1 |
| Detector.FirstTickIsQuiet | src/streaming.rs:369-389 | the first tick at a non-negative price raises no signal, whatever N is |
| Signals.RsiRowSignal | src/polygon/signals.rs:69-87 | a signal exactly for RSI < 30 (buy) or > 70 (sell), with confidence the distance past the threshold over 30, in (0, 1] for an RSI in [0, 100] |
| Signals.CrossoverConfidence | src/polygon/signals.rs:153-154 | the confidence is min(abs(sma20 - sma50) / price, 1): for a positive price it times the price is the spread while the spread is at most the price, and 1 beyond; for a negative price it times the price is the spread; a zero price gives 1; it is at most 1, non-negative for a positive price and positive when the SMAs differ |
| Signals.CrossoverRowSignal | src/polygon/signals.rs:115-163 | a signal exactly for a qualifying row; buy means SMA20 crossed above SMA50, sell that it crossed strictly below; the type is buy exactly when SMA20 is above SMA50 and the confidence is `CrossoverConfidence` of the row's SMAs and price, in (0, 1] for a positive price |
| Signals.RsiSignalsOf | src/polygon/signals.rs:53-92 | at most one signal per row |
| Signals.CrossoverSignalsOf | src/polygon/signals.rs:129-168 | at most one signal per row |
| Signals.RsiSignalsAppend | src/polygon/signals.rs:53-92 | signals come out in row-scan order: the first rows' signals, then the later rows' |
| Signals.CrossoverSignalsAppend | src/polygon/signals.rs:129-168 | signals come out in row-scan order |
| Signals.RsiSignalsFromRows | src/polygon/signals.rs:59-89 | every RSI signal is the signal of one of the rows |
| Signals.CrossoverSignalsFromRows | src/polygon/signals.rs:136-165 | every crossover signal is the signal of one of the qualifying rows |
| Signals.DetectRsiSignals | src/polygon/signals.rs:51-92 | the row loop emits the scan's RSI signals |
| Signals.DetectCrossoverSignals | src/polygon/signals.rs:127-168 | the row loop emits the scan's crossover signals |
| Validator.PassedIffNoFailures | src/polygon/validator.rs:25-30 | the verdict is true exactly when no recorded check had a failed row |
| Validator.LatestCheckWins | src/polygon/validator.rs:25-26 | a name is in the table exactly when a check of that name was recorded, and maps to the latest such count |
| Validator.PassedMeansZeroCounts | src/polygon/validator.rs:25-30 | a report that passed holds only zero counts |
| Validator.NeverPassesAgain | src/polygon/validator.rs:27-29 | once a check failed the verdict stays false |
| Validator.OverwriteKeepsFailedVerdict | src/polygon/validator.rs:25-30 | re-recording a failed check with 0 clears its count but not the verdict |
| Validator.ValidationReport.constructor | src/polygon/validator.rs:17-23 | no checks, no rows, passed |
| Validator.ValidationReport.AddCheck | src/polygon/validator.rs:25-30 | the count is stored under the name, replacing an earlier one and leaving other names alone; the verdict clears when rows failed and is kept otherwise; the row count is untouched |
| Validator.ValidationReport.SetTotalRows | src/polygon/validator.rs:32-34 | sets the row count and nothing else |

## Left out

- Query-engine wiring is not modelled: the `WindowUDFImpl` impls, signatures, return types, `register_*` and the crate's registration. Arrow downcasts become a "wrong kind of column" error.
- Null price rows are not modelled. `value(i).into()` always yields a value, so the `result.push(None)` branches for null prices cannot run.
- The `RowsAligned(args, numRows)` precondition of `Sma`, `Ema`, `Rsi` and `Macd` `EvaluateAll` is not a check the source makes. It stands for the query engine's promise that every argument column of a partition has `num_rows` entries.
- Sma.SmaPartitionEvaluator.EvaluateAll: requires a window size other than 0, because with N = 0 the mean divides by zero (NaN in the source).
- Rsi.RsiPartitionEvaluator.EvaluateAll: requires a window size other than 0, because with N = 0 Wilder smoothing divides by zero.
- Streaming.StreamingIndicators.constructor: requires N >= 1, because with N = 0 the buffers stay empty and the SMA is 0/0.
- Streaming.VolumeRatio: returns None where the source computes 0/0 = NaN for a zero volume SMA. This only happens when every buffered volume, the tick's own included, is 0. `detect_signals` treats NaN and None alike, since NaN > 2 is false.
- Floating point is not modelled: IEEE-754 rounding, NaN and infinities are replaced by `real`. Where the source relies on `f64::min` returning 1.0 for an infinite or NaN quotient, the model returns 1.0 explicitly (`Detector.CrossoverStrength` over a zero SMA, `Signals.CrossoverConfidence` over a zero price).
- The `u64` overflow of the volume sum in `calculate_volume_sma` is not modelled; volumes are unbounded `nat`.
- `usize` counts in `ValidationReport` are unbounded `nat`, which is harmless because the report does no arithmetic on them.
- `StreamingProcessor` is not modelled. Its `Arc<Mutex<…>>` and boxed handler callbacks concern sharing and callbacks, and `process_tick` is `update` followed by `detect_signals`, both of which are modelled.
- The unused `_sma_buffer` field of `StreamingIndicators` is not modelled. The `_symbol` field is kept as a constant.
- Timestamps are opaque integers. The nanosecond-to-`DateTime` conversion in the batch signal detector, with its fallback to the current time, depends on the clock and is not modelled.
- The `bid` and `ask` of a tick are carried but never read, as in the source.
- Description and reason strings (`{:.2}` formatting) and `ValidationReport::summary` are not modelled.
- The SQL text of the batch signal detector, the query execution and the batch iteration are replaced by a sequence of rows in scan order. The crossover query's filter is modelled as `Signals.Qualifies`.
- `PolygonValidator::validate_minute_aggs` and `validate_day_aggs` are not modelled; they run SQL against a session.
- src/polygon/client.rs, config.rs, types.rs, the examples and the benchmarks are not part of this model.
