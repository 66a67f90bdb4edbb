/**
 * Exponential moving average over one partition (src/functions/ema.rs).
 * The recurrence defined here (EmaStep, EmaFrom) is also the one MACD and the
 * streaming calculator run.
 */
module Ema {
  import opened Common
  import opened Arguments

  /** The smoothing factor 2 / (N + 1). */
  function Alpha(n: nat): (a: real)
    ensures 0.0 < a <= 2.0
    ensures n >= 1 <==> a <= 1.0
  {
    2.0 / (n as real + 1.0)
  }

  /** One step of the recurrence: the first value seeds the EMA, later ones are blended in with weight alpha. */
  function EmaStep(prev: Option<real>, x: real, alpha: real): real
  {
    match prev
    case None => x
    case Some(p) => alpha * x + (1.0 - alpha) * p
  }

  /** The EMA state after feeding `xs`, in order, to a recurrence whose state was `prev`. */
  function EmaFrom(prev: Option<real>, xs: seq<real>, alpha: real): (r: Option<real>)
    ensures |xs| > 0 ==> r.Some?
    ensures |xs| == 0 ==> r == prev
    decreases |xs|
  {
    if |xs| == 0 then prev
    else Some(EmaStep(EmaFrom(prev, xs[..|xs| - 1], alpha), xs[|xs| - 1], alpha))
  }

  /** The EMA emitted at row i of a partition. */
  function EmaAt(xs: seq<real>, alpha: real, i: nat): real
    requires i < |xs|
  {
    EmaFrom(None, xs[..i + 1], alpha).value
  }

  class EmaPartitionEvaluator {
    var windowSize: nat
    var alpha: real
    var currentEma: Option<real>

    constructor ()
      ensures windowSize == 0 && alpha == 0.0 && currentEma == None
    {
      windowSize := 0;
      alpha := 0.0;
      currentEma := None;
    }

    /**
     * Checks the arguments, sets alpha from the window size, resets `current_ema` and runs
     * the recurrence over every row. Every output is present.
     */
    method EvaluateAll(args: seq<Column>, numRows: nat) returns (r: Result<seq<Option<real>>, Error>)
      requires RowsAligned(args, numRows)
      modifies this
      ensures r.Failure? <==> ParseWindowed(args).Failure?
      ensures r.Failure? ==> r.error == ParseWindowed(args).error
      ensures r.Failure? ==> windowSize == old(windowSize) && alpha == old(alpha) && currentEma == old(currentEma)
      ensures r.Success? ==>
                var input := ParseWindowed(args).value;
                && windowSize == input.windowSize
                && alpha == Alpha(input.windowSize)
                && currentEma == EmaFrom(None, input.prices, alpha)
                && |input.prices| == |r.value| == numRows
                && forall i :: 0 <= i < numRows ==> r.value[i] == Some(EmaAt(input.prices, alpha, i))
    {
      var parsed := ParseWindowed(args);
      if parsed.Failure? {
        return Failure(parsed.error);
      }
      var xs := parsed.value.prices;
      PricesHaveRows(args, numRows);
      windowSize := parsed.value.windowSize;
      alpha := Alpha(windowSize);

      var result: seq<Option<real>> := [];
      currentEma := None;
      var i := 0;
      while i < numRows
        invariant 0 <= i <= numRows == |xs|
        invariant windowSize == parsed.value.windowSize && alpha == Alpha(windowSize)
        invariant currentEma == EmaFrom(None, xs[..i], alpha)
        invariant |result| == i
        invariant forall k :: 0 <= k < i ==> result[k] == Some(EmaAt(xs, alpha, k))
      {
        var value := xs[i];
        assert xs[..i + 1][..i] == xs[..i];
        assert EmaAt(xs, alpha, i) == EmaStep(currentEma, value, alpha);
        match currentEma {
          case None =>
            currentEma := Some(value);
            result := result + [Some(value)];
          case Some(prevEma) =>
            var newEma := EmaStep(currentEma, value, alpha);
            currentEma := Some(newEma);
            result := result + [Some(newEma)];
        }
        i := i + 1;
      }
      assert xs[..i] == xs;
      r := Success(result);
    }
  }

  /** The first output is the first price exactly. */
  lemma EmaSeed(xs: seq<real>, alpha: real)
    requires |xs| > 0
    ensures EmaAt(xs, alpha, 0) == xs[0]
  {
    assert xs[..1][..0] == [];
  }

  /** Every later output blends the row's price into the previous output. */
  lemma EmaRecurrence(xs: seq<real>, alpha: real, i: nat)
    requires 0 < i < |xs|
    ensures EmaAt(xs, alpha, i) == alpha * xs[i] + (1.0 - alpha) * EmaAt(xs, alpha, i - 1)
  {
    assert xs[..i + 1][..i] == xs[..i];
  }

  lemma ProductNonNegative(a: real, b: real)
    requires a >= 0.0 && b >= 0.0
    ensures a * b >= 0.0
  {
  }

  /** A convex combination of two points of [lo, hi] stays in [lo, hi]. */
  lemma BlendWithinRange(alpha: real, x: real, p: real, lo: real, hi: real)
    requires 0.0 < alpha <= 1.0
    requires lo <= x <= hi && lo <= p <= hi
    ensures lo <= alpha * x + (1.0 - alpha) * p <= hi
  {
    var beta := 1.0 - alpha;
    ProductNonNegative(alpha, x - lo);
    ProductNonNegative(alpha, hi - x);
    ProductNonNegative(beta, p - lo);
    ProductNonNegative(beta, hi - p);
    assert alpha * x + beta * p - lo == alpha * (x - lo) + beta * (p - lo);
    assert hi - (alpha * x + beta * p) == alpha * (hi - x) + beta * (hi - p);
  }

  /** For N >= 1 every output lies between the least and the greatest price seen so far. */
  lemma {:induction false} EmaWithinRange(xs: seq<real>, alpha: real, i: nat, lo: real, hi: real)
    requires 0.0 < alpha <= 1.0
    requires i < |xs|
    requires forall j :: 0 <= j <= i ==> lo <= xs[j] <= hi
    ensures lo <= EmaAt(xs, alpha, i) <= hi
  {
    if i == 0 {
      EmaSeed(xs, alpha);
    } else {
      EmaWithinRange(xs, alpha, i - 1, lo, hi);
      EmaRecurrence(xs, alpha, i);
      BlendWithinRange(alpha, xs[i], EmaAt(xs, alpha, i - 1), lo, hi);
    }
  }

  /** Feeding `a` and then `b` gives the state that feeding `a ++ b` gives. */
  lemma {:induction false} EmaFromAppend(prev: Option<real>, a: seq<real>, b: seq<real>, alpha: real)
    ensures EmaFrom(prev, a + b, alpha) == EmaFrom(EmaFrom(prev, a, alpha), b, alpha)
    decreases |b|
  {
    if |b| == 0 {
      assert a + b == a;
    } else {
      assert (a + b)[..|a + b| - 1] == a + b[..|b| - 1];
      EmaFromAppend(prev, a, b[..|b| - 1], alpha);
    }
  }

  /** EMA(3) over [10, 12, 13, 12, 15] is [10, 11, 12, 12, 13.5]. */
  lemma EmaExample()
    ensures var xs := [10.0, 12.0, 13.0, 12.0, 15.0];
            && Alpha(3) == 0.5
            && EmaAt(xs, 0.5, 0) == 10.0 && EmaAt(xs, 0.5, 1) == 11.0 && EmaAt(xs, 0.5, 2) == 12.0
            && EmaAt(xs, 0.5, 3) == 12.0 && EmaAt(xs, 0.5, 4) == 13.5
  {
    var xs := [10.0, 12.0, 13.0, 12.0, 15.0];
    EmaSeed(xs, 0.5);
    EmaRecurrence(xs, 0.5, 1);
    EmaRecurrence(xs, 0.5, 2);
    EmaRecurrence(xs, 0.5, 3);
    EmaRecurrence(xs, 0.5, 4);
  }
}
