/** Python's abs, min and max on floats, written over reals. */
module Numeric {

  function Abs(x: real): real {
    if x < 0.0 then -x else x
  }

  function Min(a: real, b: real): real {
    if a <= b then a else b
  }

  function Max(a: real, b: real): real {
    if a >= b then a else b
  }

  /** One numeric column of a table of records, in row order. */
  function ColumnOf<R>(rows: seq<R>, field: R -> real): (r: seq<real>)
    ensures |r| == |rows| && forall k :: 0 <= k < |rows| ==> r[k] == field(rows[k])
  {
    seq(|rows|, k requires 0 <= k < |rows| => field(rows[k]))
  }

  /** Series.max() of a non-empty column. */
  function MaxOf(xs: seq<real>): (m: real)
    requires |xs| > 0
    ensures m in xs
    ensures forall k :: 0 <= k < |xs| ==> xs[k] <= m
  {
    if |xs| == 1 then xs[0]
    else
      var rest := MaxOf(xs[1..]);
      assert forall k :: 1 <= k < |xs| ==> xs[k] == xs[1..][k - 1];
      Max(xs[0], rest)
  }

  /** Series.min() of a non-empty column. */
  function MinOf(xs: seq<real>): (m: real)
    requires |xs| > 0
    ensures m in xs
    ensures forall k :: 0 <= k < |xs| ==> xs[k] >= m
  {
    if |xs| == 1 then xs[0]
    else
      var rest := MinOf(xs[1..]);
      assert forall k :: 1 <= k < |xs| ==> xs[k] == xs[1..][k - 1];
      Min(xs[0], rest)
  }

  /**
   * Whether the float quotient a / b is > 0. Dividing by 0.0 gives +inf for
   * a > 0, -inf for a < 0 and NaN for a == 0; NaN compares false.
   */
  predicate QuotientPositive(a: real, b: real) {
    if b != 0.0 then a / b > 0.0 else a > 0.0
  }

  /** Whether the float quotient a / b is < 0, under the same rules. */
  predicate QuotientNegative(a: real, b: real) {
    if b != 0.0 then a / b < 0.0 else a < 0.0
  }
}
