/**
 * generate_signals.backup.py: the OHLCV normalisation of a downloaded frame
 * (column labels unwrapped and lower-cased, each price column picked from
 * its candidate names, rows without a close dropped), the intraday score of
 * the last bar, and the weekend rule, score filter and sort of `main`.
 * Downloads, indicator values and the weekday are inputs; `load_cfg` is the
 * shared YamlConfig.LoadCfg.
 */
module GenerateSignalsBackup {
  import opened Wrappers
  import opened Text
  import opened Numeric
  import opened Sorting
  import opened Frames
  import ColumnMatch
  import opened YamlConfig

  // ---------- column labels ----------

  /** The label _lower_colnames starts from: a tuple's last element ("" for an empty tuple), or the name. */
  function LabelName(c: ColumnIndex, i: nat): string
    requires i < Width(c)
  {
    match c
    case Flat(names) => names[i]
    case Multi(tuples) => if |tuples[i]| > 0 then tuples[i][|tuples[i]| - 1] else ""
  }

  /** _lower_colnames: one lower-case name per column. */
  method LowerColnames(c: ColumnIndex) returns (names: seq<string>)
    ensures |names| == Width(c)
    ensures forall i :: 0 <= i < |names| ==> names[i] == Lower(LabelName(c, i))
    ensures forall i :: 0 <= i < |names| ==> Lower(names[i]) == names[i]
  {
    var newCols: seq<string> := [];
    for i := 0 to Width(c)
      invariant |newCols| == i
      invariant forall k :: 0 <= k < i ==> newCols[k] == LabelName(c, k)
    {
      var cand: string;
      match c {
        case Flat(ns) =>
          cand := ns[i];
        case Multi(ts) =>
          cand := if |ts[i]| > 0 then ts[i][|ts[i]| - 1] else "";
      }
      newCols := newCols + [cand];
    }
    names := [];
    for i := 0 to |newCols|
      invariant |names| == i
      invariant forall k :: 0 <= k < i ==> names[k] == Lower(newCols[k])
      invariant forall k :: 0 <= k < i ==> Lower(names[k]) == names[k]
    {
      LowerIdempotent(newCols[i]);
      names := names + [Lower(newCols[i])];
    }
  }

  /** The lower-cased names as a function, for the specification below. */
  function ColumnNames(c: ColumnIndex): (r: seq<string>)
    ensures |r| == Width(c)
  {
    seq(Width(c), i requires 0 <= i < Width(c) => Lower(LabelName(c, i)))
  }

  /**
   * The droplevel step of normalize_ohlcv: a MultiIndex whose first level
   * holds a single ticker loses that level; a one-level index cannot drop
   * it (the exception is swallowed) and stays as it was.
   */
  function DropTickerLevel(c: ColumnIndex): (r: ColumnIndex)
    ensures Width(r) == Width(c)
  {
    match c
    case Flat(_) => c
    case Multi(ts) =>
      if |ts| > 0 && |ts[0]| >= 2 && (forall k :: 0 <= k < |ts| ==> |ts[k]| >= 2 && ts[k][0] == ts[0][0])
      then Multi(seq(|ts|, k requires 0 <= k < |ts| => ts[k][1..]))
      else c
  }

  /** Dropping the ticker level never changes the names: _lower_colnames already keeps a tuple's last element. */
  lemma DropTickerLevelKeepsNames(c: ColumnIndex)
    ensures ColumnNames(DropTickerLevel(c)) == ColumnNames(c)
  {
    var d := DropTickerLevel(c);
    forall i | 0 <= i < Width(c) ensures LabelName(d, i) == LabelName(c, i) {
      if c.Multi? && d != c {
        var t := c.tuples[i];
        assert d.tuples[i] == t[1..];
        assert t[1..][|t[1..]| - 1] == t[|t| - 1];
      }
    }
  }

  // ---------- picking columns ----------

  /**
   * `out[dest] = df[c]` raises ValueError when the name c labels more than
   * one column: df[c] is then a frame of several columns, which cannot be
   * set to the single column dest. `dest` names the assignment that raised.
   */
  datatype NormalizeError = DuplicatePick(dest: string)

  /** Some other column carries the name of column p. */
  predicate Repeated(cols: seq<string>, p: nat)
    requires p < |cols|
  {
    exists j :: 0 <= j < |cols| && j != p && cols[j] == cols[p]
  }

  /** A name labels two different columns. */
  predicate TwoOf(cols: seq<string>, x: string) {
    exists i, j :: 0 <= i < j < |cols| && cols[i] == x && cols[j] == x
  }

  /** What pick(dest, candidates) does: the position it copies, or the ValueError of copying it. */
  function PickOutcome(cols: seq<string>, dest: string, candidates: seq<string>): Result<Option<nat>, NormalizeError> {
    var p := ColumnMatch.FirstPresent(cols, candidates);
    if p.Some? && Repeated(cols, p.value) then Err(DuplicatePick(dest)) else Ok(p)
  }

  /** pick(dest, candidates): the loop over the candidates with its early return. */
  method Pick(cols: seq<string>, dest: string, candidates: seq<string>) returns (r: Result<Option<nat>, NormalizeError>)
    ensures r == PickOutcome(cols, dest, candidates)
    ensures r.Ok? && r.value.Some? ==> r.value == ColumnMatch.FirstPresent(cols, candidates)
    ensures r.Err? ==> exists k :: 0 <= k < |candidates| && TwoOf(cols, candidates[k])
  {
    ColumnMatch.FirstPresentSpec(cols, candidates);
    var i := 0;
    while i < |candidates|
      invariant i <= |candidates|
      invariant ColumnMatch.FirstPresent(cols, candidates) == ColumnMatch.FirstPresent(cols, candidates[i..])
    {
      assert candidates[i..][1..] == candidates[i + 1..];
      var c := candidates[i];
      if c in cols {
        ColumnMatch.IndexFromFound(cols, c, 0);
        var p := ColumnMatch.IndexFrom(cols, c, 0).value;
        assert cols[p] == c;
        assert cols[..] == cols;
        if c in cols[p + 1..] {
          assert Repeated(cols, p) by {
            var j :| 0 <= j < |cols| - p - 1 && cols[p + 1..][j] == c;
            assert cols[p + 1 + j] == c;
          }
          RepeatedTwoOf(cols, p);
          return Err(DuplicatePick(dest));
        }
        assert !Repeated(cols, p) by {
          forall j | p < j < |cols| ensures cols[j] != c {
            assert cols[p + 1..][j - p - 1] == cols[j];
          }
        }
        return Ok(Some(p));
      }
      i := i + 1;
    }
    return Ok(None);
  }

  lemma RepeatedTwoOf(cols: seq<string>, p: nat)
    requires p < |cols| && Repeated(cols, p)
    ensures TwoOf(cols, cols[p])
  {
    var j :| 0 <= j < |cols| && j != p && cols[j] == cols[p];
    if j < p {
      assert 0 <= j < p < |cols| && cols[j] == cols[p] && cols[p] == cols[p];
    } else {
      assert 0 <= p < j < |cols| && cols[p] == cols[p] && cols[j] == cols[p];
    }
  }

  /** The close column's names, in order of preference. */
  function CloseCandidates(): seq<string> {
    ["close", "adj close", "adj_close", "adjclose"]
  }

  /** Where each output column comes from. */
  datatype Picked = Picked(open: nat, high: nat, low: nat, close: nat, volume: Option<nat>)

  /** One row of the normalised frame; the close is never NaN. */
  datatype OhlcvRow = OhlcvRow(open: Cell, high: Cell, low: Cell, close: real, volume: Cell)

  /** A normalised frame; None stands for the empty pd.DataFrame() of a frame that cannot be normalised. */
  datatype Ohlcv = Ohlcv(columns: Picked, rows: seq<OhlcvRow>)

  /**
   * The ValueError of the pick sequence: the first of open, high, low,
   * close and volume whose picked name labels two columns. All five picks
   * run (`have &=` does not stop early), so a repeated volume raises even
   * when a price column is missing.
   */
  function PickError(names: seq<string>): Option<NormalizeError> {
    var o := PickOutcome(names, "open", ["open"]);
    var h := PickOutcome(names, "high", ["high"]);
    var l := PickOutcome(names, "low", ["low"]);
    var c := PickOutcome(names, "close", CloseCandidates());
    var v := PickOutcome(names, "volume", ["volume"]);
    if o.Err? then Some(o.error)
    else if h.Err? then Some(h.error)
    else if l.Err? then Some(l.error)
    else if c.Err? then Some(c.error)
    else if v.Err? then Some(v.error)
    else None
  }

  /** A pick raises iff the name it copies labels two columns. */
  lemma PickOutcomeMeaning(cols: seq<string>, dest: string, candidates: seq<string>)
    ensures PickOutcome(cols, dest, candidates).Err? <==>
      exists k :: 0 <= k < |candidates| && TwoOf(cols, candidates[k])
        && (forall k' :: 0 <= k' < k ==> candidates[k'] !in cols)
    ensures PickOutcome(cols, dest, candidates).Ok? ==> PickOutcome(cols, dest, candidates).value == ColumnMatch.FirstPresent(cols, candidates)
  {
    ColumnMatch.FirstPresentSpec(cols, candidates);
    var p := ColumnMatch.FirstPresent(cols, candidates);
    if p.Some? {
      var k :| 0 <= k < |candidates| && cols[p.value] == candidates[k]
        && (forall k' :: 0 <= k' < k ==> candidates[k'] !in cols)
        && (forall j' :: 0 <= j' < p.value ==> cols[j'] != candidates[k]);
      if Repeated(cols, p.value) {
        RepeatedTwoOf(cols, p.value);
      }
      forall k2 | 0 <= k2 < |candidates| && TwoOf(cols, candidates[k2]) && (forall k' :: 0 <= k' < k2 ==> candidates[k'] !in cols)
        ensures Repeated(cols, p.value)
      {
        var i, j :| 0 <= i < j < |cols| && cols[i] == candidates[k2] && cols[j] == candidates[k2];
        assert candidates[k2] in cols && candidates[k] in cols;
        assert k2 == k;
        if i != p.value {
          assert cols[i] == cols[p.value];
        } else {
          assert cols[j] == cols[p.value];
        }
      }
    } else {
      forall k | 0 <= k < |candidates| ensures !TwoOf(cols, candidates[k]) {
        assert candidates[k] !in cols;
      }
    }
  }

  /**
   * The pick sequence raises iff one of the names it copies labels two
   * columns: "open", "high", "low" or "volume" twice, or the first close
   * variant present twice; a repeated "open" always raises at open.
   */
  lemma PickErrorMeaning(names: seq<string>)
    ensures PickError(names).Some? <==>
      || TwoOf(names, "open") || TwoOf(names, "high") || TwoOf(names, "low") || TwoOf(names, "volume")
      || (exists k :: 0 <= k < 4 && TwoOf(names, CloseCandidates()[k])
            && forall k' :: 0 <= k' < k ==> CloseCandidates()[k'] !in names)
    ensures PickError(names) == Some(DuplicatePick("open")) <==> TwoOf(names, "open")
  {
    PickOutcomeMeaning(names, "open", ["open"]);
    PickOutcomeMeaning(names, "high", ["high"]);
    PickOutcomeMeaning(names, "low", ["low"]);
    PickOutcomeMeaning(names, "close", CloseCandidates());
    PickOutcomeMeaning(names, "volume", ["volume"]);
  }

  function PicksOf(names: seq<string>): (r: Option<Picked>)
    ensures r.Some? ==> r.value.open < |names| && r.value.high < |names| && r.value.low < |names| && r.value.close < |names|
    ensures r.Some? && r.value.volume.Some? ==> r.value.volume.value < |names|
  {
    var o := ColumnMatch.FirstPresent(names, ["open"]);
    var h := ColumnMatch.FirstPresent(names, ["high"]);
    var l := ColumnMatch.FirstPresent(names, ["low"]);
    var c := ColumnMatch.FirstPresent(names, CloseCandidates());
    var v := ColumnMatch.FirstPresent(names, ["volume"]);
    if o.None? || h.None? || l.None? || c.None? then None
    else Some(Picked(o.value, h.value, l.value, c.value, v))
  }

  /** The cell of column k; every row of a frame has one cell per column. */
  function CellAt(row: seq<Cell>, k: nat): Cell {
    if k < |row| then row[k] else None
  }

  predicate HasClose(p: Picked, row: seq<Cell>) {
    CellAt(row, p.close).Some?
  }

  /** out[dest] = df[c] for each picked column; only rows with a close are kept. */
  function RowOf(p: Picked, row: seq<Cell>): OhlcvRow {
    OhlcvRow(CellAt(row, p.open), CellAt(row, p.high), CellAt(row, p.low), CellAt(row, p.close).GetOr(0.0),
             if p.volume.Some? then CellAt(row, p.volume.value) else None)
  }

  /** out.dropna(subset=["close"]) over the picked columns. */
  function KeepRows(p: Picked, rows: seq<seq<Cell>>): seq<OhlcvRow> {
    if rows == [] then []
    else
      var n := |rows| - 1;
      KeepRows(p, rows[..n]) + (if HasClose(p, rows[n]) then [RowOf(p, rows[n])] else [])
  }

  /** Each kept row comes from an input row with a close; nothing is kept iff no row has one. */
  lemma {:induction false} KeepRowsSpec(p: Picked, rows: seq<seq<Cell>>)
    ensures |KeepRows(p, rows)| <= |rows|
    ensures forall o :: o in KeepRows(p, rows) ==>
      exists row: seq<Cell> :: row in rows && HasClose(p, row) && o == RowOf(p, row) && o.close == CellAt(row, p.close).value
    ensures KeepRows(p, rows) == [] <==> forall row: seq<Cell> :: row in rows ==> !HasClose(p, row)
  {
    if rows != [] {
      var n := |rows| - 1;
      var init := rows[..n];
      KeepRowsSpec(p, init);
      assert rows == init + [rows[n]];
      forall o | o in KeepRows(p, init)
        ensures exists row: seq<Cell> :: row in rows && HasClose(p, row) && o == RowOf(p, row) && o.close == CellAt(row, p.close).value
      {
        var row :| row in init && HasClose(p, row) && o == RowOf(p, row) && o.close == CellAt(row, p.close).value;
        assert row in rows;
      }
    }
  }

  /**
   * normalize_ohlcv, as a specification: Ok(None) is the empty frame,
   * Err the ValueError of a pick whose name labels two columns.
   */
  function NormalizeSpec(c: ColumnIndex, rows: seq<seq<Cell>>): Result<Option<Ohlcv>, NormalizeError>
  {
    if |rows| == 0 then Ok(None)
    else
      var names := ColumnNames(DropTickerLevel(c));
      var err := PickError(names);
      if err.Some? then Err(err.value)
      else
        var picks := PicksOf(names);
        if picks.None? then Ok(None)
        else Ok(Some(Ohlcv(picks.value, KeepRows(picks.value, rows))))
  }

  /**
   * Picking fails iff open, high, low or every close variant is missing;
   * otherwise each price column is found under its own name (close under
   * the first variant present), and volume is picked iff there is one.
   */
  lemma PicksOfMeaning(names: seq<string>)
    ensures PicksOf(names).None? <==>
      "open" !in names || "high" !in names || "low" !in names
      || (forall k :: 0 <= k < 4 ==> CloseCandidates()[k] !in names)
    ensures PicksOf(names).Some? ==>
      var p := PicksOf(names).value;
      && names[p.open] == "open" && names[p.high] == "high" && names[p.low] == "low"
      && (exists k :: 0 <= k < 4 && names[p.close] == CloseCandidates()[k]
            && forall k' :: 0 <= k' < k ==> CloseCandidates()[k'] !in names)
      && (p.volume.Some? <==> "volume" in names)
      && (p.volume.Some? ==> names[p.volume.value] == "volume")
  {
    ColumnMatch.FirstPresentSpec(names, ["open"]);
    ColumnMatch.FirstPresentSpec(names, ["high"]);
    ColumnMatch.FirstPresentSpec(names, ["low"]);
    ColumnMatch.FirstPresentSpec(names, CloseCandidates());
    ColumnMatch.FirstPresentSpec(names, ["volume"]);
  }

  /**
   * normalize_ohlcv raises iff there are rows and a picked name labels two
   * of the lower-cased columns; it gives an empty frame iff there are no
   * rows, or nothing raised and the columns cannot be picked; otherwise the
   * rows kept are exactly those with a close, each carrying that close.
   */
  lemma NormalizeSpecMeaning(c: ColumnIndex, rows: seq<seq<Cell>>)
    ensures NormalizeSpec(c, rows).Err? <==> |rows| > 0 && PickError(ColumnNames(c)).Some?
    ensures NormalizeSpec(c, rows) == Ok(None) <==>
      |rows| == 0 || (PickError(ColumnNames(c)).None? && PicksOf(ColumnNames(c)).None?)
    ensures NormalizeSpec(c, rows).Ok? && NormalizeSpec(c, rows).value.Some? ==>
      var f := NormalizeSpec(c, rows).value.value;
      && f.columns == PicksOf(ColumnNames(c)).value
      && (forall o :: o in f.rows ==> exists row: seq<Cell> :: row in rows && HasClose(f.columns, row) && o.close == CellAt(row, f.columns.close).value)
      && (f.rows == [] <==> forall row: seq<Cell> :: row in rows ==> !HasClose(f.columns, row))
  {
    DropTickerLevelKeepsNames(c);
    var r := NormalizeSpec(c, rows);
    if r.Ok? && r.value.Some? {
      KeepRowsSpec(r.value.value.columns, rows);
    }
  }

  /** Flat labels "Close" and "close" give two "close" columns, and normalize_ohlcv raises at close. */
  lemma DuplicateCloseRaises(rows: seq<seq<Cell>>)
    requires |rows| > 0
    ensures NormalizeSpec(Flat(["Open", "High", "Low", "Close", "close"]), rows) == Err(DuplicatePick("close"))
  {
    var c := Flat(["Open", "High", "Low", "Close", "close"]);
    ExampleNames();
    assert DropTickerLevel(c) == c;
    ExamplePickError();
  }

  lemma ExampleNames()
    ensures ColumnNames(Flat(["Open", "High", "Low", "Close", "close"])) == ["open", "high", "low", "close", "close"]
  {
    var c := Flat(["Open", "High", "Low", "Close", "close"]);
    assert Lower("Open") == "open" && Lower("High") == "high" && Lower("Low") == "low";
    assert Lower("Close") == "close" && Lower("close") == "close";
    assert forall i :: 0 <= i < 5 ==> LabelName(c, i) == c.names[i];
  }

  lemma ExamplePickError()
    ensures PickError(["open", "high", "low", "close", "close"]) == Some(DuplicatePick("close"))
  {
    var names := ["open", "high", "low", "close", "close"];
    NoRepeatAt(names, "open", 0);
    NoRepeatAt(names, "high", 1);
    NoRepeatAt(names, "low", 2);
    PickOutcomeMeaning(names, "open", ["open"]);
    PickOutcomeMeaning(names, "high", ["high"]);
    PickOutcomeMeaning(names, "low", ["low"]);
    PickOutcomeMeaning(names, "close", CloseCandidates());
    assert TwoOf(names, CloseCandidates()[0]) by {
      assert names[3] == "close" && names[4] == "close";
    }
  }

  /** A name that occurs only at position p does not label two columns. */
  lemma NoRepeatAt(names: seq<string>, x: string, p: nat)
    requires p < |names| && names[p] == x
    requires forall j :: 0 <= j < |names| && j != p ==> names[j] != x
    ensures !TwoOf(names, x)
  {
  }

  /**
   * The `have &= pick(...)` sequence: open, high, low, a close variant, then
   * the optional volume; a pick that raises ends it with its ValueError.
   */
  method PickColumns(names: seq<string>) returns (r: Result<Option<Picked>, NormalizeError>)
    ensures r.Err? <==> PickError(names).Some?
    ensures r.Err? ==> r.error == PickError(names).value
    ensures r.Ok? ==> r.value == PicksOf(names)
  {
    var have := true;
    var o := Pick(names, "open", ["open"]);
    if o.Err? { return Err(o.error); }
    have := have && o.value.Some?;
    var h := Pick(names, "high", ["high"]);
    if h.Err? { return Err(h.error); }
    have := have && h.value.Some?;
    var l := Pick(names, "low", ["low"]);
    if l.Err? { return Err(l.error); }
    have := have && l.value.Some?;
    var cl := Pick(names, "close", CloseCandidates());
    if cl.Err? { return Err(cl.error); }
    if cl.value.None? {
      have := false;
    }
    var v := Pick(names, "volume", ["volume"]);
    if v.Err? { return Err(v.error); }
    if !have {
      return Ok(None);
    }
    return Ok(Some(Picked(o.value.value, h.value.value, l.value.value, cl.value.value, v.value)));
  }

  /** The dropna loop, row by row. */
  method DropMissingClose(p: Picked, rows: seq<seq<Cell>>) returns (out: seq<OhlcvRow>)
    ensures out == KeepRows(p, rows)
  {
    out := [];
    for i := 0 to |rows|
      invariant out == KeepRows(p, rows[..i])
    {
      assert rows[..i + 1][..i] == rows[..i];
      if HasClose(p, rows[i]) {
        out := out + [RowOf(p, rows[i])];
      }
    }
    assert rows[..|rows|] == rows;
  }

  /** normalize_ohlcv */
  method NormalizeOhlcv(c: ColumnIndex, rows: seq<seq<Cell>>) returns (r: Result<Option<Ohlcv>, NormalizeError>)
    ensures r == NormalizeSpec(c, rows)
  {
    if |rows| == 0 {
      return Ok(None);
    }
    var names := LowerColnames(DropTickerLevel(c));
    assert names == ColumnNames(DropTickerLevel(c));
    var picks := PickColumns(names);
    if picks.Err? {
      return Err(picks.error);
    }
    if picks.value.None? {
      return Ok(None);
    }
    var out := DropMissingClose(picks.value.value, rows);
    r := Ok(Some(Ohlcv(picks.value.value, out)));
  }

  // ---------- scoring ----------

  /** The columns of one bar after add_indicators. */
  datatype IndBar = IndBar(high: real, low: real, close: real, ema10: real, ema20: real, ema200: real, rsi: real)

  /** The three EMAs are strictly stacked, up or down. */
  predicate EmaOk(b: IndBar) {
    (b.ema10 > b.ema20 > b.ema200) || (b.ema10 < b.ema20 < b.ema200)
  }

  predicate RsiNeutral(b: IndBar) {
    35.0 <= b.rsi <= 70.0
  }

  /** The score and the two words of the note that are not formatting. */
  datatype IntradayScore = IntradayScore(score: real, emaTrending: bool, aboveMid: bool)

  /** The midpoint of the window's range: (max high + min low) / 2. */
  function Mid(prior: seq<IndBar>): real
    requires |prior| > 0
  {
    (MaxOf(ColumnOf(prior, (b: IndBar) => b.high)) + MinOf(ColumnOf(prior, (b: IndBar) => b.low))) / 2.0
  }

  /** (close - mid) / mid over the window of the last 20 bars, or 0.0 when mid is 0. */
  function Dist(df: seq<IndBar>): real
    requires |df| > 0
  {
    var mid := Mid(Tail(df, 20));
    if mid != 0.0 then (df[|df| - 1].close - mid) / mid else 0.0
  }

  /** The 0.1 bonus: the last close sits on the same side of the mid as the move over the window. */
  predicate MomentumAgrees(df: seq<IndBar>)
    requires |df| > 0
  {
    var first := Tail(df, 20)[0].close;
    var move := df[|df| - 1].close - first;
    (Dist(df) > 0.0 && QuotientPositive(move, first)) || (!(Dist(df) > 0.0) && QuotientNegative(move, first))
  }

  /** 0.4 + 0.4 for stacked EMAs + 0.2 for a neutral RSI + 0.1 for agreeing momentum. */
  function Base(df: seq<IndBar>): real
    requires |df| > 0
  {
    var last := df[|df| - 1];
    0.4 + (if EmaOk(last) then 0.4 else 0.0) + (if RsiNeutral(last) then 0.2 else 0.0)
      + (if MomentumAgrees(df) then 0.1 else 0.0)
  }

  /** score_intraday */
  function ScoreIntraday(df: seq<IndBar>): IntradayScore
    requires |df| > 0
  {
    IntradayScore(Max(0.0, Min(1.0, Base(df))), EmaOk(df[|df| - 1]), Dist(df) > 0.0)
  }

  /**
   * The score lies in [0.4, 1.0]; it is 1.0 exactly when the EMAs are
   * stacked and the RSI is in [35, 70]; below that the clamp does nothing.
   */
  lemma ScoreIntradaySpec(df: seq<IndBar>)
    requires |df| > 0
    ensures var s := ScoreIntraday(df).score;
      var last := df[|df| - 1];
      && 0.4 <= s <= 1.0
      && (s == 1.0 <==> EmaOk(last) && RsiNeutral(last))
      && (!(EmaOk(last) && RsiNeutral(last)) ==> s == Base(df))
      && ScoreIntraday(df).emaTrending == EmaOk(last)
  {
  }

  // ---------- main ----------

  /** What the script has for one symbol: the length of the normalised frame and the frame after add_indicators. */
  datatype Fetched15 = Fetched15(normalizedRows: nat, indicators: seq<IndBar>)

  datatype SignalRow = SignalRow(symbol: string, kind: Kind, score: real, emaTrending: bool, aboveMid: bool)

  function RowScore(r: SignalRow): real {
    r.score
  }

  /** The row of a scored symbol, if it reaches min_score_intraday. */
  function ScoredRow(sym: string, kind: Kind, df: seq<IndBar>, minScore: real): seq<SignalRow>
    requires |df| > 0
  {
    var s := ScoreIntraday(df);
    if s.score >= minScore then [SignalRow(sym, kind, s.score, s.emaTrending, s.aboveMid)] else []
  }

  /** A symbol is skipped with fewer than 50 normalised bars or no rows left after add_indicators. */
  predicate Skipped(f: Fetched15) {
    f.normalizedRows < 50 || |f.indicators| == 0
  }

  /** One symbol's contribution to the rows. */
  function RowFor(sym: string, kind: Kind, f: Fetched15, minScore: real): seq<SignalRow> {
    if Skipped(f) then [] else ScoredRow(sym, kind, f.indicators, minScore)
  }

  lemma RowForSpec(sym: string, kind: Kind, f: Fetched15, minScore: real)
    ensures |RowFor(sym, kind, f, minScore)| <= 1
    ensures forall r :: r in RowFor(sym, kind, f, minScore) ==> r.score >= minScore && r.symbol == sym && r.kind == kind
  {
  }

  function RowsFor(syms: seq<string>, kind: Kind, fetch: string -> Fetched15, minScore: real): seq<SignalRow> {
    if syms == [] then []
    else
      var n := |syms| - 1;
      RowsFor(syms[..n], kind, fetch, minScore) + RowFor(syms[n], kind, fetch(syms[n]), minScore)
  }

  /** Every row kept scores at least minScore and belongs to a symbol of the list, with the list's kind. */
  lemma {:induction false} RowsForSpec(syms: seq<string>, kind: Kind, fetch: string -> Fetched15, minScore: real)
    ensures |RowsFor(syms, kind, fetch, minScore)| <= |syms|
    ensures forall r :: r in RowsFor(syms, kind, fetch, minScore) ==> r.score >= minScore && r.symbol in syms && r.kind == kind
  {
    if syms != [] {
      var n := |syms| - 1;
      RowsForSpec(syms[..n], kind, fetch, minScore);
      RowForSpec(syms[n], kind, fetch(syms[n]), minScore);
      forall r | r in RowsFor(syms[..n], kind, fetch, minScore) ensures r.symbol in syms {
        var k :| 0 <= k < n && syms[..n][k] == r.symbol;
        assert syms[k] == r.symbol;
      }
    }
  }

  lemma RowsForStep(syms: seq<string>, i: nat, kind: Kind, fetch: string -> Fetched15, minScore: real)
    requires i < |syms|
    ensures RowsFor(syms[..i + 1], kind, fetch, minScore) == RowsFor(syms[..i], kind, fetch, minScore) + RowFor(syms[i], kind, fetch(syms[i]), minScore)
  {
    assert syms[..i + 1][..i] == syms[..i];
  }

  lemma CollectStep(prior: seq<SignalRow>, syms: seq<string>, i: nat, kind: Kind, fetch: string -> Fetched15, minScore: real)
    requires i < |syms|
    ensures prior + RowsFor(syms[..i + 1], kind, fetch, minScore) ==
      (prior + RowsFor(syms[..i], kind, fetch, minScore)) + RowFor(syms[i], kind, fetch(syms[i]), minScore)
  {
    RowsForStep(syms, i, kind, fetch, minScore);
  }

  /** The for-loop over one symbol list. */
  method CollectRows(syms: seq<string>, kind: Kind, fetch: string -> Fetched15, minScore: real, prior: seq<SignalRow>)
    returns (rows: seq<SignalRow>)
    ensures rows == prior + RowsFor(syms, kind, fetch, minScore)
  {
    rows := prior;
    for i := 0 to |syms|
      invariant rows == prior + RowsFor(syms[..i], kind, fetch, minScore)
    {
      CollectStep(prior, syms, i, kind, fetch, minScore);
      var f := fetch(syms[i]);
      if Skipped(f) {
        assert RowFor(syms[i], kind, f, minScore) == [];
        assert rows + [] == rows;
        continue;
      }
      rows := rows + ScoredRow(syms[i], kind, f.indicators, minScore);
    }
    assert syms[..|syms|] == syms;
  }

  predicate WeekendSkip(allowWeekend: bool, weekday: int) {
    !allowWeekend && (weekday == 5 || weekday == 6)
  }

  /** The rows main writes. */
  function Signals(allowWeekend: bool, weekday: int, equity: seq<string>, crypto: seq<string>,
                   fetchEquity: string -> Fetched15, fetchCrypto: string -> Fetched15, minScore: real): seq<SignalRow>
  {
    if WeekendSkip(allowWeekend, weekday) then []
    else SortDesc(RowsFor(equity, Equity, fetchEquity, minScore) + RowsFor(crypto, Crypto, fetchCrypto, minScore), RowScore)
  }

  /**
   * On a weekend without allow_weekend the output is []; otherwise it holds
   * exactly the kept equity and crypto rows, each scoring at least
   * minScore, ordered by non-increasing score.
   */
  lemma SignalsSpec(allowWeekend: bool, weekday: int, equity: seq<string>, crypto: seq<string>,
                    fetchEquity: string -> Fetched15, fetchCrypto: string -> Fetched15, minScore: real)
    ensures var out := Signals(allowWeekend, weekday, equity, crypto, fetchEquity, fetchCrypto, minScore);
      var kept := RowsFor(equity, Equity, fetchEquity, minScore) + RowsFor(crypto, Crypto, fetchCrypto, minScore);
      && (WeekendSkip(allowWeekend, weekday) ==> out == [])
      && (!WeekendSkip(allowWeekend, weekday) ==> multiset(out) == multiset(kept))
      && SortedDesc(out, RowScore)
      && (forall r :: r in out ==> r.score >= minScore)
  {
    var kept := RowsFor(equity, Equity, fetchEquity, minScore) + RowsFor(crypto, Crypto, fetchCrypto, minScore);
    RowsForSpec(equity, Equity, fetchEquity, minScore);
    RowsForSpec(crypto, Crypto, fetchCrypto, minScore);
    SortDescSorted(kept, RowScore);
    var out := Signals(allowWeekend, weekday, equity, crypto, fetchEquity, fetchCrypto, minScore);
    forall r | r in out ensures r.score >= minScore {
      assert r in multiset(out);
    }
  }

  /** main: the weekend check, the two loops, then rows.sort(key=score, reverse=True). */
  method RunScript(allowWeekend: bool, weekday: int, equity: seq<string>, crypto: seq<string>,
              fetchEquity: string -> Fetched15, fetchCrypto: string -> Fetched15, minScore: real)
    returns (out: seq<SignalRow>)
    ensures out == Signals(allowWeekend, weekday, equity, crypto, fetchEquity, fetchCrypto, minScore)
  {
    if WeekendSkip(allowWeekend, weekday) {
      return [];
    }
    var rows := CollectRows(equity, Equity, fetchEquity, minScore, []);
    assert rows == RowsFor(equity, Equity, fetchEquity, minScore);
    rows := CollectRows(crypto, Crypto, fetchCrypto, minScore, rows);
    out := SortDesc(rows, RowScore);
  }
}
