/**
 * crypto_movers.py: rank a fixed crypto universe by weekly change, keep the
 * top movers, and merge them into the config's symbols_crypto list as a
 * sorted, de-duplicated list. Downloads, the JSON report and the YAML file
 * itself are left to the caller: the price history of each ticker and the
 * loaded config are inputs.
 */
module CryptoMovers {
  import opened Wrappers
  import opened Text
  import opened Sorting
  import opened Frames
  import opened YamlConfig

  /** The set of a list's elements, set(xs). */
  function Elems(xs: seq<string>): set<string> {
    set k | k in xs
  }

  lemma ElemsAppend(a: seq<string>, b: seq<string>)
    ensures Elems(a + b) == Elems(a) + Elems(b)
  {
  }

  /** Strictly ascending in Python's string order, hence free of duplicates. */
  predicate Ascending(s: seq<string>) {
    forall i, j :: 0 <= i < j < |s| ==> Less(s[i], s[j])
  }

  /** Inserts x into an ascending list unless it is already there. */
  function InsertUnique(x: string, s: seq<string>): (r: seq<string>)
    ensures Elems(r) == Elems(s) + {x}
  {
    if s == [] then [x]
    else if x == s[0] then s
    else if Less(x, s[0]) then [x] + s
    else
      assert s == [s[0]] + s[1..];
      ElemsAppend([s[0]], s[1..]);
      ElemsAppend([s[0]], InsertUnique(x, s[1..]));
      [s[0]] + InsertUnique(x, s[1..])
  }

  lemma {:induction false} InsertUniqueAscending(x: string, s: seq<string>)
    requires Ascending(s)
    ensures Ascending(InsertUnique(x, s))
  {
    if s != [] && x != s[0] && !Less(x, s[0]) {
      LessTotal(x, s[0]);
      InsertUniqueAscending(x, s[1..]);
      var r := InsertUnique(x, s[1..]);
      forall y | y in r ensures Less(s[0], y) {
        assert y in Elems(r);
        if y != x {
          var j :| 0 < j < |s| && s[j] == y;
        }
      }
    } else if s != [] && x != s[0] {
      forall j | 0 <= j < |s| ensures Less(x, s[j]) {
        if j > 0 {
          LessTransitive(x, s[0], s[j]);
        }
      }
    }
  }

  /** sorted(set(xs)) */
  function SortedSet(xs: seq<string>): (r: seq<string>)
    ensures Elems(r) == Elems(xs)
  {
    if xs == [] then [] else InsertUnique(xs[|xs| - 1], SortedSet(xs[..|xs| - 1]))
  }

  lemma {:induction false} SortedSetAscending(xs: seq<string>)
    ensures Ascending(SortedSet(xs))
  {
    if xs != [] {
      SortedSetAscending(xs[..|xs| - 1]);
      InsertUniqueAscending(xs[|xs| - 1], SortedSet(xs[..|xs| - 1]));
    }
  }

  /** An ascending list is determined by its elements. */
  lemma {:induction false} AscendingUnique(a: seq<string>, b: seq<string>)
    requires Ascending(a) && Ascending(b)
    requires Elems(a) == Elems(b)
    ensures a == b
  {
    assert a != [] ==> a[0] in Elems(a);
    assert b != [] ==> b[0] in Elems(b);
    if a != [] && b != [] {
      assert a[0] == b[0] by {
        var i :| 0 <= i < |b| && b[i] == a[0];
        var j :| 0 <= j < |a| && a[j] == b[0];
        LessTotal(a[0], b[0]);
      }
      forall y | y in a[1..] ensures y in b[1..] {
        var j :| 1 <= j < |a| && a[j] == y;
        LessTotal(a[0], y);
        assert y in Elems(b);
      }
      forall y | y in b[1..] ensures y in a[1..] {
        var j :| 1 <= j < |b| && b[j] == y;
        LessTotal(b[0], y);
        assert y in Elems(a);
      }
      assert Elems(a[1..]) == Elems(b[1..]);
      AscendingUnique(a[1..], b[1..]);
      assert a == [a[0]] + a[1..] && b == [b[0]] + b[1..];
    }
  }

  /** Sorting an ascending list's set gives the list back. */
  lemma SortedSetOfAscending(s: seq<string>)
    requires Ascending(s)
    ensures SortedSet(s) == s
  {
    SortedSetAscending(s);
    AscendingUnique(SortedSet(s), s);
  }

  /** The scanned universe, before sorted(set(...)). */
  const BaseTickers: seq<string> := [
    "BTC-USD", "ETH-USD", "SOL-USD", "XRP-USD", "DOGE-USD", "SHIB-USD", "ADA-USD", "AVAX-USD",
    "MATIC-USD", "LINK-USD", "INJ-USD", "NEAR-USD", "APT-USD", "SUI-USD", "FTM-USD", "SEI-USD",
    "TIA-USD", "JUP-USD", "WIF-USD", "FLOKI-USD", "PYTH-USD", "ARB-USD", "STRK-USD", "RUNE-USD",
    "ATOM-USD", "ETC-USD", "HBAR-USD", "GRT-USD", "AR-USD", "RNDR-USD"]

  /** BASE: the universe sorted and de-duplicated. */
  function Base(): seq<string> {
    SortedSet(BaseTickers)
  }

  lemma BaseSpec()
    ensures Ascending(Base())
    ensures Elems(Base()) == Elems(BaseTickers)
  {
    SortedSetAscending(BaseTickers);
  }

  /**
   * The price history download gives, per ticker: nothing (download failed,
   * empty frame, or no Close column) or the Close column with NaN as None.
   */
  type History = Option<seq<Cell>>

  /**
   * weekly_change: None on a failed download or with fewer than 8 closes
   * after dropna; otherwise the last close over the close 8 rows earlier, minus 1.
   */
  function WeeklyChange(h: History): (r: Option<real>)
    ensures h.None? ==> r.None?
    ensures h.Some? && |Present(h.value)| < 8 ==> r.None?
    ensures r.Some? ==>
      var c := Present(h.value);
      |c| >= 8 && c[|c| - 8] != 0.0 && r.value == c[|c| - 1] / c[|c| - 8] - 1.0
  {
    if h.None? then None
    else
      var close := Present(h.value);
      if |close| < 8 then None
      else if close[|close| - 8] == 0.0 then None
      else Some(close[|close| - 1] / close[|close| - 8] - 1.0)
  }

  datatype Mover = Mover(ticker: string, weeklyChange: real)

  /** The rows main collects: the tickers whose change is not None, in BASE order. */
  function Rows(tickers: seq<string>, history: string -> History): seq<Mover> {
    if tickers == [] then []
    else
      var t := tickers[|tickers| - 1];
      var chg := WeeklyChange(history(t));
      Rows(tickers[..|tickers| - 1], history) + (if chg.Some? then [Mover(t, chg.value)] else [])
  }

  /** A row exists exactly for every ticker with a change, carrying that change. */
  lemma {:induction false} RowsSpec(tickers: seq<string>, history: string -> History)
    ensures forall m :: m in Rows(tickers, history) ==>
      m.ticker in tickers && WeeklyChange(history(m.ticker)) == Some(m.weeklyChange)
    ensures forall t :: t in tickers && WeeklyChange(history(t)).Some? ==>
      Mover(t, WeeklyChange(history(t)).value) in Rows(tickers, history)
  {
    if tickers != [] {
      var n := |tickers| - 1;
      var init := tickers[..n];
      var last := tickers[n];
      var chg := WeeklyChange(history(last));
      var extra := if chg.Some? then [Mover(last, chg.value)] else [];
      assert Rows(tickers, history) == Rows(init, history) + extra;
      assert tickers == init + [last];
      RowsSpec(init, history);
      forall m | m in Rows(tickers, history)
        ensures m.ticker in tickers && WeeklyChange(history(m.ticker)) == Some(m.weeklyChange)
      {
        if m in Rows(init, history) {
          assert m.ticker in init;
        } else {
          assert m in extra;
        }
      }
      forall t | t in tickers && WeeklyChange(history(t)).Some?
        ensures Mover(t, WeeklyChange(history(t)).value) in Rows(tickers, history)
      {
        if t in init {
          assert Mover(t, WeeklyChange(history(t)).value) in Rows(init, history);
        } else {
          assert t == last;
        }
      }
    }
  }

  /** main's first loop: rows.append for every ticker with a change. */
  method CollectRows(tickers: seq<string>, history: string -> History) returns (rows: seq<Mover>)
    ensures rows == Rows(tickers, history)
  {
    rows := [];
    for i := 0 to |tickers|
      invariant rows == Rows(tickers[..i], history)
    {
      var t := tickers[i];
      assert tickers[..i + 1][..i] == tickers[..i];
      var chg := WeeklyChange(history(t));
      if chg.Some? {
        rows := rows + [Mover(t, chg.value)];
      }
    }
    assert tickers[..|tickers|] == tickers;
  }

  /** The sort key, df["weekly_change"]. */
  function ChangeOf(m: Mover): real {
    m.weeklyChange
  }

  function Tickers(rows: seq<Mover>): (r: seq<string>)
    ensures |r| == |rows|
    ensures forall k :: 0 <= k < |r| ==> r[k] == rows[k].ticker
  {
    if rows == [] then [] else [rows[0].ticker] + Tickers(rows[1..])
  }

  /** df.head(n): the first n rows, or for negative n all but the last -n rows. */
  function Head<T>(s: seq<T>, n: int): (r: seq<T>)
    ensures n >= 0 ==> r == Take(s, n)
    ensures n < 0 ==> r == s[..if |s| + n < 0 then 0 else |s| + n]
  {
    if n >= 0 then Take(s, n) else s[..if |s| + n < 0 then 0 else |s| + n]
  }

  /** The movers: the tickers of the first topN rows by descending weekly change. */
  function Movers(rows: seq<Mover>, topN: int): seq<string> {
    Tickers(Head(SortDesc(rows, ChangeOf), topN))
  }

  /**
   * For topN >= 0 there are min(topN, |rows|) movers, all with a row, and
   * each mover's change is at least every non-mover row's change.
   */
  lemma MoversSpec(rows: seq<Mover>, topN: nat)
    ensures var m := Take(SortDesc(rows, ChangeOf), topN);
      && Movers(rows, topN) == Tickers(m)
      && |Movers(rows, topN)| == (if |rows| <= topN then |rows| else topN)
      && (forall x :: x in m ==> x in rows)
      && (forall i, j :: 0 <= i < j < |m| ==> ChangeOf(m[i]) >= ChangeOf(m[j]))
      && (forall x, y :: x in rows && x !in m && y in m ==> ChangeOf(y) >= ChangeOf(x))
  {
    var m := Take(SortDesc(rows, ChangeOf), topN);
    assert Head(SortDesc(rows, ChangeOf), topN) == m;
    TakeDominates(rows, ChangeOf, topN);
  }

  datatype MergeError = NotAList(cause: ConfigError) | Unsortable

  /**
   * list(cfg.get("symbols_crypto", [])) as strings. A non-string entry is an
   * error: beside a string mover, sorted(set(current + movers)) raises
   * TypeError for it (or set() does, for an unhashable one). RunScript calls
   * this only when there is at least one mover.
   */
  function CurrentSymbols(cfg: map<string, Yaml>): (r: Result<seq<string>, MergeError>)
    ensures r.Ok? ==> (
      && Lines(cfg, "symbols_crypto").Ok?
      && |r.value| == |Lines(cfg, "symbols_crypto").value|
      && forall k :: 0 <= k < |r.value| ==> Lines(cfg, "symbols_crypto").value[k] == YStr(r.value[k]))
    ensures r.Err? <==> (
      || Lines(cfg, "symbols_crypto").Err?
      || exists k :: 0 <= k < |Lines(cfg, "symbols_crypto").value| && !Lines(cfg, "symbols_crypto").value[k].YStr?)
  {
    var lines := Lines(cfg, "symbols_crypto");
    if lines.Err? then Err(NotAList(lines.error))
    else if forall k :: 0 <= k < |lines.value| ==> lines.value[k].YStr? then
      Ok(seq(|lines.value|, k requires 0 <= k < |lines.value| => lines.value[k].str))
    else Err(Unsortable)
  }

  /** merged = sorted(set(current + movers)) */
  function Merge(current: seq<string>, movers: seq<string>): seq<string> {
    SortedSet(current + movers)
  }

  /** The merged list is ascending, without duplicates, and holds exactly current and the movers. */
  lemma MergeSpec(current: seq<string>, movers: seq<string>)
    ensures Ascending(Merge(current, movers))
    ensures Elems(Merge(current, movers)) == Elems(current) + Elems(movers)
  {
    SortedSetAscending(current + movers);
    assert Elems(current + movers) == Elems(current) + Elems(movers);
  }

  /** Merging the same movers again changes nothing. */
  lemma MergeIdempotent(current: seq<string>, movers: seq<string>)
    ensures Merge(Merge(current, movers), movers) == Merge(current, movers)
  {
    var m := Merge(current, movers);
    MergeSpec(current, movers);
    MergeSpec(m, movers);
    AscendingUnique(Merge(m, movers), m);
  }

  /** Boxes the merged strings as the YAML list written back. */
  function AsYamlList(xs: seq<string>): (r: Yaml)
    ensures r.YList? && |r.items| == |xs| && forall k :: 0 <= k < |xs| ==> r.items[k] == YStr(xs[k])
  {
    YList(seq(|xs|, k requires 0 <= k < |xs| => YStr(xs[k])))
  }

  /**
   * The outcome of main: nothing written, or the report written and then
   * either the config updated or the merge raising (the report stays written).
   */
  datatype Outcome =
    | NoMovers
    | Updated(report: seq<Mover>, movers: seq<string>, config: map<string, Yaml>)
    | Failed(report: seq<Mover>, error: MergeError)

  /** main's default top_n; the script calls main() with no argument. */
  const TopN: nat := 12

  /** With at least one row there is at least one mover at top_n = 12. */
  lemma MoversNonEmpty(rows: seq<Mover>)
    requires rows != []
    ensures |Movers(rows, TopN)| >= 1
  {
    MoversSpec(rows, TopN);
  }

  /**
   * main(): no rows means nothing is written; otherwise the report is the
   * rows by descending change, written before the config is read, and then
   * either only symbols_crypto of the config is replaced or the merge fails.
   */
  method RunScript(history: string -> History, cfg: map<string, Yaml>) returns (out: Outcome)
    ensures Rows(Base(), history) == [] <==> out.NoMovers?
    ensures !out.NoMovers? ==> out.report == SortDesc(Rows(Base(), history), ChangeOf)
    ensures !out.NoMovers? ==> |Movers(Rows(Base(), history), TopN)| >= 1
    ensures out.Updated? ==>
      var rows := Rows(Base(), history);
      && out.movers == Movers(rows, TopN)
      && CurrentSymbols(cfg).Ok?
      && out.config == cfg["symbols_crypto" := AsYamlList(Merge(CurrentSymbols(cfg).value, out.movers))]
    ensures out.Failed? <==> Rows(Base(), history) != [] && CurrentSymbols(cfg).Err?
    ensures out.Failed? ==> out.error == CurrentSymbols(cfg).error
  {
    var rows := CollectRows(Base(), history);
    if rows == [] {
      return NoMovers;
    }
    var report := SortDesc(rows, ChangeOf);
    var movers := Tickers(Head(report, TopN));
    MoversNonEmpty(rows);
    var current := CurrentSymbols(cfg);
    if current.Err? {
      return Failed(report, current.error);
    }
    var merged := Merge(current.value, movers);
    var newCfg := cfg;
    newCfg := newCfg["symbols_crypto" := AsYamlList(merged)];
    out := Updated(report, movers, newCfg);
  }

  /** Every config key other than symbols_crypto is left as it was. */
  lemma OnlySymbolsReplaced(cfg: map<string, Yaml>, merged: seq<string>)
    ensures var c := cfg["symbols_crypto" := AsYamlList(merged)];
      && c.Keys == cfg.Keys + {"symbols_crypto"}
      && (forall k :: k in cfg && k != "symbols_crypto" ==> c[k] == cfg[k])
      && Lines(c, "symbols_crypto") == Ok(AsYamlList(merged).items)
  {
  }
}
