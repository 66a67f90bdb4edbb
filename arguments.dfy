/**
 * The argument shape a window function receives from the query engine: a list of
 * columns of `num_rows` entries each. SMA, EMA and RSI take a Float64 price column
 * and an Int64 window-size column; MACD takes a single Float64 price column.
 */
module Arguments {
  import opened Common

  /** The source's `i64`. */
  newtype i64 = x: int | -0x8000_0000_0000_0000 <= x < 0x8000_0000_0000_0000

  const UsizeModulus: int := 0x1_0000_0000_0000_0000

  /** One argument column. A Float64 column's null slots still carry a value, which is what `value(i)` reads. */
  datatype Column =
    | Float64Column(values: seq<real>)
    | Int64Column(entries: seq<Option<i64>>)
    | OtherColumn(length: nat)
  {
    function Length(): nat
    {
      match this
      case Float64Column(vs) => |vs|
      case Int64Column(es) => |es|
      case OtherColumn(n) => n
    }
  }

  datatype Error =
    | WrongArgumentCount
    | FirstArgumentNotFloat64
    | SecondArgumentNotInt64
    | NullWindowSize

  /** What the query engine guarantees: every argument column has exactly `num_rows` entries. */
  predicate RowsAligned(args: seq<Column>, numRows: nat)
  {
    forall c :: c in args ==> c.Length() == numRows
  }

  /** The `i64 as usize` cast on a 64-bit target: the two's-complement bits reread as unsigned. */
  function UsizeOf(w: i64): (n: nat)
    ensures n < UsizeModulus
    ensures w >= 0 ==> n == w as int
    ensures w < 0 ==> n == w as int + UsizeModulus
    ensures n == 0 <==> w == 0
  {
    (w as int) % UsizeModulus
  }

  /** `iter().find_map(|x| x)`: the first entry that is not null. */
  function FirstNonNull(entries: seq<Option<i64>>): (r: Option<i64>)
    ensures r.None? <==> forall i :: 0 <= i < |entries| ==> entries[i].None?
    ensures r.Some? ==> exists i :: 0 <= i < |entries| && entries[i] == r &&
                           forall j :: 0 <= j < i ==> entries[j].None?
  {
    if |entries| == 0 then None
    else if entries[0].Some? then entries[0]
    else
      var r := FirstNonNull(entries[1..]);
      assert r.Some? ==> exists i :: 0 <= i < |entries| && entries[i] == r &&
                           forall j :: 0 <= j < i ==> entries[j].None? by {
        if r.Some? {
          var i :| 0 <= i < |entries[1..]| && entries[1..][i] == r &&
                   forall j :: 0 <= j < i ==> entries[1..][j].None?;
          assert entries[i + 1] == r;
          assert forall j :: 0 <= j < i + 1 ==> entries[j].None? by {
            forall j | 0 <= j < i + 1 ensures entries[j].None? {
              if j > 0 { assert entries[j] == entries[1..][j - 1]; }
            }
          }
        }
      }
      r
  }

  /** The window size is taken from the first non-null entry; whatever follows it is never read. */
  lemma {:induction false} WindowSizeIgnoresLaterEntries(nulls: seq<Option<i64>>, w: i64, rest: seq<Option<i64>>)
    requires forall j :: 0 <= j < |nulls| ==> nulls[j].None?
    ensures FirstNonNull(nulls + [Some(w)] + rest) == Some(w)
  {
    if |nulls| > 0 {
      assert (nulls + [Some(w)] + rest)[1..] == nulls[1..] + [Some(w)] + rest;
      WindowSizeIgnoresLaterEntries(nulls[1..], w, rest);
    }
  }

  /** The checked inputs of SMA, EMA and RSI. */
  datatype WindowedInput = WindowedInput(prices: seq<real>, windowSize: nat)

  /**
   * The checks `evaluate_all` of SMA, EMA and RSI makes before touching any state,
   * in the source's order: argument count, kind of each argument, an all-null window column.
   */
  function ParseWindowed(args: seq<Column>): (r: Result<WindowedInput, Error>)
    ensures |args| != 2 ==> r == Failure(WrongArgumentCount)
    ensures |args| == 2 && !args[0].Float64Column? ==> r == Failure(FirstArgumentNotFloat64)
    ensures |args| == 2 && args[0].Float64Column? && !args[1].Int64Column? ==> r == Failure(SecondArgumentNotInt64)
    ensures |args| == 2 && args[0].Float64Column? && args[1].Int64Column? ==>
              (r == Failure(NullWindowSize) <==> forall i :: 0 <= i < |args[1].entries| ==> args[1].entries[i].None?)
    ensures r.Success? ==>
              && |args| == 2 && args[0].Float64Column? && args[1].Int64Column?
              && r.value.prices == args[0].values
              && exists i :: 0 <= i < |args[1].entries| && args[1].entries[i].Some?
                             && r.value.windowSize == UsizeOf(args[1].entries[i].value)
                             && forall j :: 0 <= j < i ==> args[1].entries[j].None?
  {
    if |args| != 2 then Failure(WrongArgumentCount)
    else if !args[0].Float64Column? then Failure(FirstArgumentNotFloat64)
    else if !args[1].Int64Column? then Failure(SecondArgumentNotInt64)
    else
      match FirstNonNull(args[1].entries)
      case None => Failure(NullWindowSize)
      case Some(w) => Success(WindowedInput(args[0].values, UsizeOf(w)))
  }

  /** The arguments are well formed but name a window of size 0, for which SMA and RSI divide by zero. */
  predicate ZeroWindow(args: seq<Column>)
  {
    ParseWindowed(args).Success? && ParseWindowed(args).value.windowSize == 0
  }

  /** The checks MACD's `evaluate_all` makes: exactly one argument, of kind Float64. */
  function ParseSingle(args: seq<Column>): (r: Result<seq<real>, Error>)
    ensures r.Success? <==> |args| == 1 && args[0].Float64Column?
    ensures r.Success? ==> r.value == args[0].values
    ensures |args| != 1 ==> r == Failure(WrongArgumentCount)
    ensures |args| == 1 && !args[0].Float64Column? ==> r == Failure(FirstArgumentNotFloat64)
  {
    if |args| != 1 then Failure(WrongArgumentCount)
    else if !args[0].Float64Column? then Failure(FirstArgumentNotFloat64)
    else Success(args[0].values)
  }

  /** Under the engine's contract the price column has exactly `num_rows` entries. */
  lemma PricesHaveRows(args: seq<Column>, numRows: nat)
    requires RowsAligned(args, numRows)
    requires |args| >= 1 && args[0].Float64Column?
    ensures |args[0].values| == numRows
  {
    assert args[0] in args;
  }
}
