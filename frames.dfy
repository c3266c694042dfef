/**
 * The parts of a pandas DataFrame the scripts rely on: column labels (a flat
 * Index or a MultiIndex of tuples), missing values (NaN) in a column, the
 * NaN-skipping mean of the last rows, and the forward-return label.
 */
module Frames {
  import opened Wrappers
  import opened Text

  /** df.columns: flat names, or the tuples of a MultiIndex. */
  datatype ColumnIndex = Flat(names: seq<string>) | Multi(tuples: seq<seq<string>>)

  function Width(c: ColumnIndex): nat {
    match c
    case Flat(names) => |names|
    case Multi(tuples) => |tuples|
  }

  /** A cell of a numeric column: None stands for NaN. */
  type Cell = Option<real>

  /** The parts of a MultiIndex tuple that are not the empty string. */
  function NonEmptyParts(tup: seq<string>): (r: seq<string>)
    ensures forall k :: 0 <= k < |r| ==> r[k] != ""
  {
    if tup == [] then []
    else (if tup[0] != "" then [tup[0]] else []) + NonEmptyParts(tup[1..])
  }

  /** '_'.join([str(x) for x in tup if str(x) != '']) */
  function JoinTuple(tup: seq<string>): string {
    Join(NonEmptyParts(tup), "_")
  }

  /** Empty levels never contribute: a tuple with one non-empty level flattens to it. */
  lemma {:induction false} JoinTupleSkipsEmpty(tup: seq<string>, before: nat, part: string)
    requires before < |tup| && tup[before] == part && part != ""
    requires forall k :: 0 <= k < |tup| && k != before ==> tup[k] == ""
    ensures JoinTuple(tup) == part
  {
    assert NonEmptyParts(tup) == [part] by {
      NonEmptyOnly(tup, before);
    }
  }

  lemma {:induction false} NonEmptyOnly(tup: seq<string>, before: nat)
    requires before < |tup| && tup[before] != ""
    requires forall k :: 0 <= k < |tup| && k != before ==> tup[k] == ""
    ensures NonEmptyParts(tup) == [tup[before]]
    decreases |tup|
  {
    if before == 0 {
      assert NonEmptyParts(tup[1..]) == [] by { NoneNonEmpty(tup[1..]); }
    } else {
      NonEmptyOnly(tup[1..], before - 1);
    }
  }

  lemma {:induction false} NoneNonEmpty(tup: seq<string>)
    requires forall k :: 0 <= k < |tup| ==> tup[k] == ""
    ensures NonEmptyParts(tup) == []
  {
    if tup != [] {
      NoneNonEmpty(tup[1..]);
    }
  }

  /** The label of column i after a MultiIndex is joined: str(c) for a flat one. */
  function Joined(c: ColumnIndex, i: nat): string
    requires i < Width(c)
  {
    match c
    case Flat(names) => names[i]
    case Multi(tuples) => JoinTuple(tuples[i])
  }

  /**
   * _norm_cols of run_swing.py (train_ai.py has the same function): join the
   * non-empty levels of a MultiIndex with "_", then strip every name.
   */
  function NormCols(c: ColumnIndex): (r: seq<string>)
    ensures |r| == Width(c)
  {
    seq(Width(c), i requires 0 <= i < Width(c) => Strip(Joined(c, i)))
  }

  /**
   * _norm_cols keeps the column count, leaves no blank at either end of a
   * name, and does not change the case: flat names that are already trimmed
   * come out unchanged.
   */
  lemma NormColsShape(c: ColumnIndex)
    ensures |NormCols(c)| == Width(c)
    ensures forall i :: 0 <= i < Width(c) ==> Trimmed(NormCols(c)[i])
    ensures c.Flat? && (forall i :: 0 <= i < |c.names| ==> Trimmed(c.names[i])) ==> NormCols(c) == c.names
  {
    if c.Flat? && (forall i :: 0 <= i < |c.names| ==> Trimmed(c.names[i])) {
      forall i | 0 <= i < |c.names| ensures NormCols(c)[i] == c.names[i] {
        assert Trimmed(c.names[i]);
      }
    }
  }

  /** Normalising twice is normalising once. */
  lemma NormColsIdempotent(c: ColumnIndex)
    ensures NormCols(Flat(NormCols(c))) == NormCols(c)
  {
    NormColsShape(c);
    NormColsShape(Flat(NormCols(c)));
  }

  /** A DataFrame whose column labels _norm_cols reassigns in place. */
  class Table {
    var columns: ColumnIndex

    constructor (columns: ColumnIndex)
      ensures this.columns == columns
    {
      this.columns := columns;
    }

    /** _norm_cols: a MultiIndex becomes its joined labels, then every label is stripped. */
    method NormColsInPlace()
      modifies this
      ensures columns == Flat(NormCols(old(columns)))
    {
      ghost var c := columns;
      if columns.Multi? {
        var joined: seq<string> := [];
        for i := 0 to |columns.tuples|
          invariant columns == c
          invariant |joined| == i && forall k :: 0 <= k < i ==> joined[k] == JoinTuple(c.tuples[k])
        {
          joined := joined + [JoinTuple(columns.tuples[i])];
        }
        columns := Flat(joined);
      }
      assert Width(columns) == Width(c) && forall k :: 0 <= k < Width(c) ==> columns.names[k] == Joined(c, k);
      var stripped: seq<string> := [];
      for i := 0 to |columns.names|
        invariant |stripped| == i && forall k :: 0 <= k < i ==> stripped[k] == Strip(columns.names[k])
      {
        stripped := stripped + [Strip(columns.names[i])];
      }
      columns := Flat(stripped);
    }
  }

  /** Values present in a column (Series.dropna()). */
  function Present(xs: seq<Cell>): (r: seq<real>)
    ensures |r| <= |xs|
  {
    if xs == [] then []
    else (if xs[0].Some? then [xs[0].value] else []) + Present(xs[1..])
  }

  function Sum(xs: seq<real>): real {
    if xs == [] then 0.0 else xs[0] + Sum(xs[1..])
  }

  /** Series.mean(): NaN values are skipped; the mean of nothing is NaN (None). */
  function MeanSkipNa(xs: seq<Cell>): (r: Option<real>)
    ensures r.None? <==> |Present(xs)| == 0
  {
    var v := Present(xs);
    if |v| == 0 then None else Some(Sum(v) / |v| as real)
  }

  /** Series.tail(n): the last n elements, or all of them. */
  function Tail<T>(s: seq<T>, n: nat): (r: seq<T>)
    ensures |r| == if |s| <= n then |s| else n
    ensures r == s[|s| - |r|..]
  {
    if |s| <= n then s else s[|s| - n..]
  }

  lemma TailNonEmpty<T>(s: seq<T>, n: nat)
    requires s != [] && n > 0
    ensures Tail(s, n) != [] && Tail(s, n)[|Tail(s, n)| - 1] == s[|s| - 1]
  {
  }

  /**
   * Whether b / a - 1 > 0 in floating point, where x / 0 is +inf for x > 0,
   * NaN for x == 0 and -inf for x < 0, and NaN > 0 is false.
   */
  predicate ForwardReturnPositive(a: real, b: real) {
    if a != 0.0 then b / a - 1.0 > 0.0 else b > 0.0
  }

  /**
   * label_forward_up in train_ai.py: (close.pct_change(h).shift(-h) > 0).astype(int);
   * row i compares close[i + h] with close[i], and the last h rows have a NaN
   * forward return, which compares false.
   */
  function ForwardUpLabels(closes: seq<real>, h: nat): (r: seq<int>)
    ensures |r| == |closes|
  {
    seq(|closes|, i requires 0 <= i < |closes| =>
      if i + h < |closes| && ForwardReturnPositive(closes[i], closes[i + h]) then 1 else 0)
  }

  /** With positive closes the label is 1 exactly when the close h bars later is higher. */
  lemma ForwardUpMeaning(closes: seq<real>, h: nat, i: nat)
    requires i < |closes|
    requires forall k :: 0 <= k < |closes| ==> closes[k] > 0.0
    ensures ForwardUpLabels(closes, h)[i] == 1 <==> i + h < |closes| && closes[i + h] > closes[i]
    ensures ForwardUpLabels(closes, h)[i] in {0, 1}
  {
    if i + h < |closes| {
      var a, b := closes[i], closes[i + h];
      RatioAboveOne(closes[i], closes[i + h]);
    }
  }

  lemma RatioAboveOne(a: real, b: real)
    requires a > 0.0
    ensures b / a - 1.0 > 0.0 <==> b > a
  {
    var q := b / a;
    assert q * a == b;
    assert (q - 1.0) * a == b - a;
  }

  /** The last h rows are always labelled 0, whatever the closes. */
  lemma ForwardUpTail(closes: seq<real>, h: nat, i: nat)
    requires i < |closes| && i + h >= |closes|
    ensures ForwardUpLabels(closes, h)[i] == 0
  {
  }
}
