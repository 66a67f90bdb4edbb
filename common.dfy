/** Option and Result wrappers, and the summation every indicator uses. */
module Common {

  datatype Option<+T> = None | Some(value: T)

  datatype Result<+T, +E> = Success(value: T) | Failure(error: E)

  /** Left-to-right sum of a slice, the order in which `iter().sum()` accumulates. */
  function Sum(s: seq<real>): real
  {
    if |s| == 0 then 0.0 else Sum(s[..|s| - 1]) + s[|s| - 1]
  }

  /** Arithmetic mean of a non-empty slice. */
  function Mean(s: seq<real>): real
    requires |s| > 0
  {
    Sum(s) / (|s| as real)
  }

  /** Summation distributes over concatenation. */
  lemma {:induction false} SumAppend(a: seq<real>, b: seq<real>)
    ensures Sum(a + b) == Sum(a) + Sum(b)
  {
    if |b| == 0 {
      assert a + b == a;
    } else {
      assert (a + b)[..|a + b| - 1] == a + b[..|b| - 1];
      SumAppend(a, b[..|b| - 1]);
    }
  }

  /** A sum of terms in [lo, hi] lies between |s| * lo and |s| * hi. */
  lemma {:induction false} SumBounds(s: seq<real>, lo: real, hi: real)
    requires forall i :: 0 <= i < |s| ==> lo <= s[i] <= hi
    ensures (|s| as real) * lo <= Sum(s) <= (|s| as real) * hi
  {
    if |s| > 0 {
      var init := s[..|s| - 1];
      assert forall i :: 0 <= i < |init| ==> init[i] == s[i];
      SumBounds(init, lo, hi);
    }
  }

  /** The mean of terms in [lo, hi] lies in [lo, hi]. */
  lemma MeanBounds(s: seq<real>, lo: real, hi: real)
    requires |s| > 0
    requires forall i :: 0 <= i < |s| ==> lo <= s[i] <= hi
    ensures lo <= Mean(s) <= hi
  {
    SumBounds(s, lo, hi);
    var k := |s| as real;
    assert Sum(s) / k >= (k * lo) / k;
    assert Sum(s) / k <= (k * hi) / k;
  }

  /** A sum of non-negative terms is non-negative. */
  lemma {:induction false} SumNonNegative(s: seq<real>)
    requires forall i :: 0 <= i < |s| ==> s[i] >= 0.0
    ensures Sum(s) >= 0.0
  {
    if |s| > 0 {
      var init := s[..|s| - 1];
      assert forall i :: 0 <= i < |init| ==> init[i] == s[i];
      SumNonNegative(init);
    }
  }

  /** A quotient whose numerator is a known multiple of the divisor. */
  lemma KnownQuotient(a: real, b: real, c: real)
    requires b != 0.0 && a == c * b
    ensures a / b == c
  {
  }

  /** A non-negative amount shared over a positive count stays non-negative. */
  lemma NonNegativeQuotient(a: real, b: real)
    requires a >= 0.0 && b > 0.0
    ensures a / b >= 0.0
  {
  }

  /** A positive amount shared over a positive count stays positive. */
  lemma PositiveQuotient(a: real, b: real)
    requires a > 0.0 && b > 0.0
    ensures a / b > 0.0
  {
  }

  /** The magnitude of a real. */
  function Abs(x: real): real
  {
    if x < 0.0 then -x else x
  }

  /** |a / b| is |a| / |b|, so it is below 1 exactly when |a| is below |b|. */
  lemma QuotientMagnitude(a: real, b: real)
    requires b != 0.0
    ensures Abs(a / b) * Abs(b) == Abs(a)
    ensures Abs(a / b) < 1.0 <==> Abs(a) < Abs(b)
    ensures a != 0.0 ==> Abs(a / b) > 0.0
  {
    var q := Abs(a / b);
    assert (a / b) * b == a;
    assert q * Abs(b) == Abs(a);
    if q < 1.0 {
      var d := 1.0 - q;
      assert d * Abs(b) > 0.0;
      assert Abs(a) == Abs(b) - d * Abs(b);
    } else {
      var d := q - 1.0;
      assert d * Abs(b) >= 0.0;
      assert Abs(a) == Abs(b) + d * Abs(b);
    }
  }
}
