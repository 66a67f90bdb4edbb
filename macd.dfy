/**
 * MACD line over one partition (src/functions/macd.rs): the difference of two EMA
 * recurrences with N = 12 and N = 26, run by an evaluator whose EMA state is never reset.
 */
module Macd {
  import opened Common
  import opened Arguments
  import opened Ema

  /** The MACD emitted at row i of `xs` when the two EMAs start from `e12` and `e26`. */
  function MacdAt(e12: Option<real>, e26: Option<real>, xs: seq<real>, i: nat): real
    requires i < |xs|
  {
    EmaFrom(e12, xs[..i + 1], Alpha(12)).value - EmaFrom(e26, xs[..i + 1], Alpha(26)).value
  }

  class MacdPartitionEvaluator {
    var ema12: Option<real>
    var ema26: Option<real>
    const alpha12: real := 2.0 / 13.0
    const alpha26: real := 2.0 / 27.0

    constructor ()
      ensures ema12 == None && ema26 == None
      ensures alpha12 == Alpha(12) && alpha26 == Alpha(26)
    {
      ema12 := None;
      ema26 := None;
    }

    /** Feeds one price to both EMAs and returns their difference, which is always present. */
    method UpdateEma(value: real) returns (macd: Option<real>)
      modifies this
      ensures ema12 == EmaFrom(old(ema12), [value], Alpha(12))
      ensures ema26 == EmaFrom(old(ema26), [value], Alpha(26))
      ensures macd.Some? && macd.value == ema12.value - ema26.value
    {
      assert [value][..0] == [];
      // Both updates are the EMA recurrence of the EMA evaluator: seed with the first value, blend afterwards.
      ema12 := Some(EmaStep(ema12, value, alpha12));
      ema26 := Some(EmaStep(ema26, value, alpha26));
      match (ema12, ema26) {
        case (Some(e12), Some(e26)) => macd := Some(e12 - e26);
        case _ => macd := None;
      }
    }

    /**
     * Checks for a single Float64 argument and feeds every row to `UpdateEma`. The EMA state
     * is not reset, so it continues from whatever an earlier call left behind.
     */
    method EvaluateAll(args: seq<Column>, numRows: nat) returns (r: Result<seq<Option<real>>, Error>)
      requires RowsAligned(args, numRows)
      modifies this
      ensures r.Failure? <==> ParseSingle(args).Failure?
      ensures r.Failure? ==> r.error == ParseSingle(args).error
      ensures r.Failure? ==> ema12 == old(ema12) && ema26 == old(ema26)
      ensures r.Success? ==>
                var xs := ParseSingle(args).value;
                && ema12 == EmaFrom(old(ema12), xs, Alpha(12))
                && ema26 == EmaFrom(old(ema26), xs, Alpha(26))
                && |xs| == |r.value| == numRows
                && forall i :: 0 <= i < numRows ==> r.value[i] == Some(MacdAt(old(ema12), old(ema26), xs, i))
    {
      var parsed := ParseSingle(args);
      if parsed.Failure? {
        return Failure(parsed.error);
      }
      var xs := parsed.value;
      PricesHaveRows(args, numRows);
      ghost var e12, e26 := ema12, ema26;

      var result: seq<Option<real>> := [];
      var i := 0;
      while i < numRows
        invariant 0 <= i <= numRows == |xs|
        invariant ema12 == EmaFrom(e12, xs[..i], Alpha(12))
        invariant ema26 == EmaFrom(e26, xs[..i], Alpha(26))
        invariant |result| == i
        invariant forall k :: 0 <= k < i ==> result[k] == Some(MacdAt(e12, e26, xs, k))
      {
        var value := xs[i];
        EmaFromAppend(e12, xs[..i], [value], Alpha(12));
        EmaFromAppend(e26, xs[..i], [value], Alpha(26));
        assert xs[..i] + [value] == xs[..i + 1];
        var macd := UpdateEma(value);
        result := result + [macd];
        i := i + 1;
      }
      assert xs[..i] == xs;
      r := Success(result);
    }
  }

  /** The first price seeds both EMAs, so a fresh evaluator's first MACD is exactly 0. */
  lemma MacdFirstIsZero(xs: seq<real>)
    requires |xs| > 0
    ensures MacdAt(None, None, xs, 0) == 0.0
  {
    EmaSeed(xs, Alpha(12));
    EmaSeed(xs, Alpha(26));
  }

  /**
   * From a fresh evaluator, row i is the EMA(12) output minus the EMA(26) output of the
   * EMA evaluator, and it follows the two blended recurrences with factors 2/13 and 2/27.
   */
  lemma MacdIsEmaDifference(xs: seq<real>, i: nat)
    requires 0 < i < |xs|
    ensures MacdAt(None, None, xs, i) == EmaAt(xs, Alpha(12), i) - EmaAt(xs, Alpha(26), i)
    ensures Alpha(12) == 2.0 / 13.0 && Alpha(26) == 2.0 / 27.0
    ensures MacdAt(None, None, xs, i) ==
              (2.0 / 13.0 * xs[i] + (1.0 - 2.0 / 13.0) * EmaAt(xs, Alpha(12), i - 1))
              - (2.0 / 27.0 * xs[i] + (1.0 - 2.0 / 27.0) * EmaAt(xs, Alpha(26), i - 1))
  {
    EmaRecurrence(xs, Alpha(12), i);
    EmaRecurrence(xs, Alpha(26), i);
  }

  /**
   * Running a fresh evaluator on `a` and then, without a reset, on `b` emits for `b` exactly
   * the tail of what one run over `a ++ b` emits.
   */
  lemma MacdCarriesState(a: seq<real>, b: seq<real>, i: nat)
    requires i < |b|
    ensures MacdAt(EmaFrom(None, a, Alpha(12)), EmaFrom(None, a, Alpha(26)), b, i) == MacdAt(None, None, a + b, |a| + i)
  {
    assert (a + b)[..|a| + i + 1] == a + b[..i + 1];
    EmaFromAppend(None, a, b[..i + 1], Alpha(12));
    EmaFromAppend(None, a, b[..i + 1], Alpha(26));
  }

  /**
   * The carried state is observable: after [0.0], the next call's first MACD for [1.0] is
   * 2/13 - 2/27, where a fresh evaluator would emit 0.
   */
  lemma MacdCarriedStateDiffersFromFresh()
    ensures MacdAt(None, None, [1.0], 0) == 0.0
    ensures MacdAt(EmaFrom(None, [0.0], Alpha(12)), EmaFrom(None, [0.0], Alpha(26)), [1.0], 0) == 2.0 / 13.0 - 2.0 / 27.0
  {
    MacdFirstIsZero([1.0]);
    assert [0.0][..0] == [] && [1.0][..1] == [1.0] && [1.0][..0] == [];
  }
}
