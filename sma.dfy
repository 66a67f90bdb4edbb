/**
 * Simple moving average over one partition (src/functions/sma.rs).
 * Output i is the mean of the last N prices once N prices have been seen, and null before.
 */
module Sma {
  import opened Common
  import opened Arguments

  /** The SMA at row i: null until N rows have been seen, then the mean of rows i+1-N .. i. */
  function SmaAt(xs: seq<real>, n: nat, i: nat): Option<real>
    requires n >= 1 && i < |xs|
  {
    if i + 1 < n then None else Some(Sum(xs[i + 1 - n..i + 1]) / (n as real))
  }

  class SmaPartitionEvaluator {
    var values: seq<real>
    var windowSize: nat

    constructor ()
      ensures values == [] && windowSize == 0
    {
      values := [];
      windowSize := 0;
    }

    /**
     * Checks the arguments, reads the window size, clears `values` and pushes every row,
     * emitting one output per row. The output depends on this call's arguments only.
     */
    method EvaluateAll(args: seq<Column>, numRows: nat) returns (r: Result<seq<Option<real>>, Error>)
      requires RowsAligned(args, numRows)
      requires !ZeroWindow(args)
      modifies this
      ensures r.Failure? <==> ParseWindowed(args).Failure?
      ensures r.Failure? ==> r.error == ParseWindowed(args).error
      ensures r.Failure? ==> values == old(values) && windowSize == old(windowSize)
      ensures r.Success? ==>
                var input := ParseWindowed(args).value;
                && windowSize == input.windowSize >= 1
                && values == input.prices
                && |input.prices| == |r.value| == numRows
                && forall i :: 0 <= i < numRows ==> r.value[i] == SmaAt(input.prices, input.windowSize, i)
    {
      var parsed := ParseWindowed(args);
      if parsed.Failure? {
        return Failure(parsed.error);
      }
      var xs := parsed.value.prices;
      PricesHaveRows(args, numRows);
      windowSize := parsed.value.windowSize;

      var result: seq<Option<real>> := [];
      values := [];
      var i := 0;
      while i < numRows
        invariant 0 <= i <= numRows == |xs|
        invariant windowSize == parsed.value.windowSize >= 1
        invariant values == xs[..i]
        invariant |result| == i
        invariant forall k :: 0 <= k < i ==> result[k] == SmaAt(xs, windowSize, k)
      {
        values := values + [xs[i]];
        assert values == xs[..i + 1];
        if |values| >= windowSize {
          var start := |values| - windowSize;
          assert values[start..] == xs[i + 1 - windowSize..i + 1];
          var sma := Sum(values[start..]) / (windowSize as real);
          result := result + [Some(sma)];
        } else {
          result := result + [None];
        }
        i := i + 1;
      }
      r := Success(result);
    }
  }

  /** Once defined, the SMA of prices that all lie in [lo, hi] lies in [lo, hi]. */
  lemma SmaWithinRange(xs: seq<real>, n: nat, i: nat, lo: real, hi: real)
    requires n >= 1 && i < |xs|
    requires forall j :: 0 <= j < |xs| ==> lo <= xs[j] <= hi
    ensures SmaAt(xs, n, i).Some? <==> i + 1 >= n
    ensures SmaAt(xs, n, i).Some? ==> lo <= SmaAt(xs, n, i).value <= hi
  {
    if i + 1 >= n {
      var w := xs[i + 1 - n..i + 1];
      assert forall j :: 0 <= j < |w| ==> w[j] == xs[i + 1 - n + j];
      MeanBounds(w, lo, hi);
    }
  }

  /**
   * The window-sum recomputation agrees with a running sum: moving one row on adds
   * (entering - leaving) / N to the average.
   */
  lemma SmaSlide(xs: seq<real>, n: nat, i: nat)
    requires n >= 1 && n <= i < |xs|
    ensures SmaAt(xs, n, i).Some? && SmaAt(xs, n, i - 1).Some?
    ensures SmaAt(xs, n, i).value == SmaAt(xs, n, i - 1).value + (xs[i] - xs[i - n]) / (n as real)
  {
    var mid := xs[i + 1 - n..i];
    assert xs[i + 1 - n..i + 1] == mid + [xs[i]];
    assert xs[i - n..i] == [xs[i - n]] + mid;
    SumAppend(mid, [xs[i]]);
    SumAppend([xs[i - n]], mid);
    assert Sum([xs[i]]) == xs[i];
    assert Sum([xs[i - n]]) == xs[i - n];
  }

  /** SMA(3) over 1.0 .. 10.0 is [null, null, 2.0, 3.0, ..., 9.0]. */
  lemma SmaExample()
    ensures var xs := [1.0, 2.0, 3.0, 4.0, 5.0, 6.0, 7.0, 8.0, 9.0, 10.0];
            && SmaAt(xs, 3, 0) == None && SmaAt(xs, 3, 1) == None
            && forall i :: 2 <= i < 10 ==> SmaAt(xs, 3, i) == Some((i as real))
  {
    var xs := [1.0, 2.0, 3.0, 4.0, 5.0, 6.0, 7.0, 8.0, 9.0, 10.0];
    forall i | 2 <= i < 10 ensures SmaAt(xs, 3, i) == Some(i as real) {
      var w := xs[i - 2..i + 1];
      assert w == [(i - 1) as real, i as real, (i + 1) as real];
      assert w[..2] == [(i - 1) as real, i as real];
      assert w[..2][..1] == [(i - 1) as real];
      assert w[..2][..1][..0] == [];
      assert Sum(w[..2][..1]) == (i - 1) as real;
      assert Sum(w[..2]) == (i - 1) as real + i as real;
      assert Sum(w) == 3.0 * (i as real);
    }
  }
}
