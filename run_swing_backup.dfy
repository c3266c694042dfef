/**
 * run_swing.backup.py: the fail-open liquidity checks, the EMA-stack score
 * and direction of the last daily bar, the stop and 1R / 1.5R / 2R targets
 * of the trade plan, and the filter and sort of `main`. Downloads and
 * indicator values are inputs; `load_cfg` is the shared YamlConfig.LoadCfg;
 * rounding is left out.
 */
module RunSwingBackup {
  import opened Wrappers
  import opened Numeric
  import opened Sorting
  import opened Frames
  import opened YamlConfig

  // ---------- liquidity ----------

  /** The default window of both liquidity checks (the callers never pass another). */
  const Window: nat := 20

  /** The columns the liquidity checks read: the closes and, if the frame has one, the volume column. */
  datatype DailyFrame = DailyFrame(closes: seq<real>, volume: Option<seq<Cell>>)

  function Cells(xs: seq<real>): (r: seq<Cell>)
    ensures |r| == |xs| && forall k :: 0 <= k < |xs| ==> r[k] == Some(xs[k])
  {
    seq(|xs|, k requires 0 <= k < |xs| => Some(xs[k]))
  }

  /** Fail open: no volume column, or fewer rows than the window. */
  predicate FailOpen(df: DailyFrame) {
    df.volume.None? || |df.closes| < Window
  }

  /**
   * liquid_enough_equity: fail open, otherwise the mean close times the mean
   * volume of the last 20 rows must reach minDollar; a NaN mean compares false.
   */
  predicate LiquidEnoughEquity(df: DailyFrame, minDollar: real) {
    if FailOpen(df) then true
    else
      var px := MeanSkipNa(Cells(Tail(df.closes, Window)));
      var vol := MeanSkipNa(Tail(df.volume.value, Window));
      px.Some? && vol.Some? && px.value * vol.value >= minDollar
  }

  /** liquid_enough_crypto: fail open, otherwise the mean volume of the last 20 rows must reach minVol. */
  predicate LiquidEnoughCrypto(df: DailyFrame, minVol: real) {
    if FailOpen(df) then true
    else
      var v := MeanSkipNa(Tail(df.volume.value, Window));
      v.Some? && v.value >= minVol
  }

  /**
   * Both checks pass whenever they fail open, and a check that passes at a
   * threshold passes at every lower one.
   */
  lemma LiquidityFailOpenMonotone(df: DailyFrame, lo: real, hi: real)
    requires lo <= hi
    ensures FailOpen(df) ==> LiquidEnoughEquity(df, hi) && LiquidEnoughCrypto(df, hi)
    ensures LiquidEnoughEquity(df, hi) ==> LiquidEnoughEquity(df, lo)
    ensures LiquidEnoughCrypto(df, hi) ==> LiquidEnoughCrypto(df, lo)
  {
  }

  /** A frame with a volume column and at least 20 rows whose last 20 volumes are all NaN never passes. */
  lemma AllNaNVolumeFails(df: DailyFrame, threshold: real)
    requires df.volume.Some? && |df.closes| >= Window
    requires forall c :: c in Tail(df.volume.value, Window) ==> c.None?
    ensures !LiquidEnoughEquity(df, threshold) && !LiquidEnoughCrypto(df, threshold)
  {
    NoPresentValues(Tail(df.volume.value, Window));
  }

  lemma {:induction false} NoPresentValues(xs: seq<Cell>)
    requires forall c :: c in xs ==> c.None?
    ensures Present(xs) == []
  {
    if xs != [] {
      assert xs[0] in xs;
      assert forall c :: c in xs[1..] ==> c in xs;
      NoPresentValues(xs[1..]);
    }
  }

  // ---------- score ----------

  /** The columns score_swing and make_tradeplan read on one bar after add_indicators. */
  datatype SwingBar = SwingBar(low: real, close: real, ema20: real, ema200: real, rsi: real)

  datatype Direction = Long | Short | Neutral

  predicate StackUp(b: SwingBar) {
    b.ema20 > b.ema200 && b.close > b.ema20
  }

  predicate StackDown(b: SwingBar) {
    b.ema20 < b.ema200 && b.close < b.ema20
  }

  predicate RsiOk(b: SwingBar) {
    45.0 <= b.rsi <= 70.0
  }

  /** score_swing's score and direction (the RSI in the note is formatting). */
  datatype SwingScore = SwingScore(score: real, direction: Direction)

  function ScoreSwing(last: SwingBar): SwingScore {
    var base := 0.4 + (if StackUp(last) || StackDown(last) then 0.4 else 0.0) + (if RsiOk(last) then 0.2 else 0.0);
    var direction := if StackUp(last) then Long else if StackDown(last) then Short else Neutral;
    SwingScore(Max(0.0, Min(1.0, base)), direction)
  }

  /**
   * The two stacks exclude each other; the direction is long, short or
   * neutral exactly as the stacks say; the score is one of 0.4, 0.6, 0.8
   * and 1.0, so the clamp never changes it; and each part adds its weight.
   */
  lemma ScoreSwingSpec(last: SwingBar)
    ensures !(StackUp(last) && StackDown(last))
    ensures ScoreSwing(last).direction == Long <==> StackUp(last)
    ensures ScoreSwing(last).direction == Short <==> StackDown(last)
    ensures ScoreSwing(last).direction == Neutral <==> !StackUp(last) && !StackDown(last)
    ensures ScoreSwing(last).score in {0.4, 0.6, 0.8, 1.0}
    ensures ScoreSwing(last).score == 0.4 + (if StackUp(last) || StackDown(last) then 0.4 else 0.0) + (if RsiOk(last) then 0.2 else 0.0)
    ensures ScoreSwing(last).score == 1.0 <==> (StackUp(last) || StackDown(last)) && RsiOk(last)
  {
  }

  // ---------- trade plan ----------

  datatype Tradeplan = Tradeplan(stop: real, targets: seq<real>, atrMult: real)

  /** The stop before the guard: the lower of the last EMA20 and the lowest low of the last 5 bars. */
  function RawStop(df: seq<SwingBar>): real
    requires |df| > 0
  {
    Min(df[|df| - 1].ema20, MinOf(ColumnOf(Tail(df, 5), (b: SwingBar) => b.low)))
  }

  /** make_tradeplan: a stop at or above the close is reset to 97% of it; targets at 1R, 1.5R and 2R. */
  function MakeTradeplan(lastClose: real, df: seq<SwingBar>, trailMult: real): Tradeplan
    requires |df| > 0
  {
    var raw := RawStop(df);
    var stop := if raw >= lastClose then lastClose * 0.97 else raw;
    var risk := lastClose - stop;
    Tradeplan(stop, [lastClose + 1.0 * risk, lastClose + 1.5 * risk, lastClose + 2.0 * risk], trailMult)
  }

  /**
   * For a positive close the stop is below it, the targets lie above it and
   * strictly increase, each sitting k times the risk above the close; the
   * stop is the raw stop unless that was at or above the close, and never
   * above the last EMA20 or any of the last 5 lows in that case.
   */
  lemma MakeTradeplanSpec(lastClose: real, df: seq<SwingBar>, trailMult: real)
    requires |df| > 0
    ensures var p := MakeTradeplan(lastClose, df, trailMult);
      var risk := lastClose - p.stop;
      && |p.targets| == 3
      && p.targets[0] == lastClose + risk && p.targets[1] == lastClose + 1.5 * risk && p.targets[2] == lastClose + 2.0 * risk
      && (RawStop(df) < lastClose ==> (
            && p.stop == RawStop(df) && p.stop <= df[|df| - 1].ema20
            && forall k :: |df| - 5 <= k < |df| && 0 <= k ==> p.stop <= df[k].low))
      && (RawStop(df) >= lastClose ==> p.stop == lastClose * 0.97)
      && (lastClose > 0.0 ==> p.stop < lastClose && lastClose < p.targets[0] < p.targets[1] < p.targets[2])
  {
    var t := Tail(df, 5);
    forall k | |df| - 5 <= k < |df| && 0 <= k ensures MinOf(ColumnOf(t, (b: SwingBar) => b.low)) <= df[k].low {
      assert t[k - (|df| - |t|)] == df[k];
      assert ColumnOf(t, (b: SwingBar) => b.low)[k - (|df| - |t|)] == df[k].low;
    }
  }

  // ---------- main ----------

  /** What the script has for one symbol: the downloaded frame and the frame after add_indicators. */
  datatype Fetched1d = Fetched1d(frame: DailyFrame, indicators: seq<SwingBar>)

  datatype SwingRow = SwingRow(symbol: string, kind: Kind, score: real, direction: Direction,
                               entry: real, stop: real, targets: seq<real>, atrMult: real)

  function RowScore(r: SwingRow): real {
    r.score
  }

  /** The liquidity check of the symbol's list: the dollar check for equities, the volume check at 1,000,000 for crypto. */
  predicate Liquid(kind: Kind, df: DailyFrame, minDollar: real) {
    match kind
    case Equity => LiquidEnoughEquity(df, minDollar)
    case Crypto => LiquidEnoughCrypto(df, 1000000.0)
  }

  /** A symbol is skipped with fewer than 60 bars, when it is not liquid, or when no indicator rows remain. */
  predicate Skipped(kind: Kind, f: Fetched1d, minDollar: real) {
    |f.frame.closes| < 60 || !Liquid(kind, f.frame, minDollar) || |f.indicators| == 0
  }

  /** The row of a scored symbol that reaches MIN_SCORE, with its trade plan. */
  function ScoredRow(sym: string, kind: Kind, df: seq<SwingBar>, minScore: real, trailMult: real): seq<SwingRow>
    requires |df| > 0
  {
    var s := ScoreSwing(df[|df| - 1]);
    if s.score >= minScore then
      var lastClose := df[|df| - 1].close;
      var plan := MakeTradeplan(lastClose, df, trailMult);
      [SwingRow(sym, kind, s.score, s.direction, lastClose, plan.stop, plan.targets, plan.atrMult)]
    else []
  }

  function RowFor(sym: string, kind: Kind, f: Fetched1d, minScore: real, minDollar: real, trailMult: real): seq<SwingRow> {
    if Skipped(kind, f, minDollar) then [] else ScoredRow(sym, kind, f.indicators, minScore, trailMult)
  }

  function RowsFor(syms: seq<string>, kind: Kind, fetch: string -> Fetched1d, minScore: real, minDollar: real, trailMult: real): seq<SwingRow> {
    if syms == [] then []
    else
      var n := |syms| - 1;
      RowsFor(syms[..n], kind, fetch, minScore, minDollar, trailMult) + RowFor(syms[n], kind, fetch(syms[n]), minScore, minDollar, trailMult)
  }

  /** What every emitted row satisfies. */
  predicate GoodRow(r: SwingRow, kind: Kind, minScore: real) {
    && r.kind == kind
    && r.score >= minScore
    && |r.targets| == 3
    && (r.entry > 0.0 ==> r.stop < r.entry && r.entry < r.targets[0] < r.targets[1] < r.targets[2])
  }

  lemma RowForSpec(sym: string, kind: Kind, f: Fetched1d, minScore: real, minDollar: real, trailMult: real)
    ensures |RowFor(sym, kind, f, minScore, minDollar, trailMult)| <= 1
    ensures RowFor(sym, kind, f, minScore, minDollar, trailMult) != [] ==>
      && |f.frame.closes| >= 60 && Liquid(kind, f.frame, minDollar)
      && RowFor(sym, kind, f, minScore, minDollar, trailMult)[0].symbol == sym
      && GoodRow(RowFor(sym, kind, f, minScore, minDollar, trailMult)[0], kind, minScore)
  {
    if !Skipped(kind, f, minDollar) {
      ScoredRowSpec(sym, kind, f.indicators, minScore, trailMult);
    }
  }

  lemma ScoredRowSpec(sym: string, kind: Kind, df: seq<SwingBar>, minScore: real, trailMult: real)
    requires |df| > 0
    ensures |ScoredRow(sym, kind, df, minScore, trailMult)| <= 1
    ensures ScoredRow(sym, kind, df, minScore, trailMult) != [] ==>
      ScoredRow(sym, kind, df, minScore, trailMult)[0].symbol == sym && GoodRow(ScoredRow(sym, kind, df, minScore, trailMult)[0], kind, minScore)
  {
    MakeTradeplanSpec(df[|df| - 1].close, df, trailMult);
  }

  /** Every row has a symbol of its list, scores at least MIN_SCORE and carries a well-ordered plan. */
  lemma {:induction false} RowsForSpec(syms: seq<string>, kind: Kind, fetch: string -> Fetched1d, minScore: real, minDollar: real, trailMult: real)
    ensures |RowsFor(syms, kind, fetch, minScore, minDollar, trailMult)| <= |syms|
    ensures forall r :: r in RowsFor(syms, kind, fetch, minScore, minDollar, trailMult) ==> r.symbol in syms && GoodRow(r, kind, minScore)
  {
    if syms != [] {
      var n := |syms| - 1;
      RowsForSpec(syms[..n], kind, fetch, minScore, minDollar, trailMult);
      RowForSpec(syms[n], kind, fetch(syms[n]), minScore, minDollar, trailMult);
      forall r | r in RowsFor(syms[..n], kind, fetch, minScore, minDollar, trailMult) ensures r.symbol in syms {
        var k :| 0 <= k < n && syms[..n][k] == r.symbol;
        assert syms[k] == r.symbol;
      }
    }
  }

  lemma RowsForStep(syms: seq<string>, i: nat, kind: Kind, fetch: string -> Fetched1d, minScore: real, minDollar: real, trailMult: real)
    requires i < |syms|
    ensures RowsFor(syms[..i + 1], kind, fetch, minScore, minDollar, trailMult)
      == RowsFor(syms[..i], kind, fetch, minScore, minDollar, trailMult) + RowFor(syms[i], kind, fetch(syms[i]), minScore, minDollar, trailMult)
  {
    assert syms[..i + 1][..i] == syms[..i];
  }

  lemma CollectStep(prior: seq<SwingRow>, syms: seq<string>, i: nat, kind: Kind, fetch: string -> Fetched1d,
                    minScore: real, minDollar: real, trailMult: real)
    requires i < |syms|
    ensures prior + RowsFor(syms[..i + 1], kind, fetch, minScore, minDollar, trailMult) ==
      (prior + RowsFor(syms[..i], kind, fetch, minScore, minDollar, trailMult)) + RowFor(syms[i], kind, fetch(syms[i]), minScore, minDollar, trailMult)
  {
    RowsForStep(syms, i, kind, fetch, minScore, minDollar, trailMult);
  }

  /** The for-loop over one symbol list, with its three `continue` guards. */
  method CollectRows(syms: seq<string>, kind: Kind, fetch: string -> Fetched1d, minScore: real, minDollar: real, trailMult: real,
                     prior: seq<SwingRow>) returns (rows: seq<SwingRow>)
    ensures rows == prior + RowsFor(syms, kind, fetch, minScore, minDollar, trailMult)
  {
    rows := prior;
    for i := 0 to |syms|
      invariant rows == prior + RowsFor(syms[..i], kind, fetch, minScore, minDollar, trailMult)
    {
      CollectStep(prior, syms, i, kind, fetch, minScore, minDollar, trailMult);
      var f := fetch(syms[i]);
      if |f.frame.closes| < 60 {
        assert RowFor(syms[i], kind, f, minScore, minDollar, trailMult) == [];
        assert rows + [] == rows;
        continue;
      }
      if !Liquid(kind, f.frame, minDollar) {
        assert RowFor(syms[i], kind, f, minScore, minDollar, trailMult) == [];
        assert rows + [] == rows;
        continue;
      }
      if |f.indicators| == 0 {
        assert RowFor(syms[i], kind, f, minScore, minDollar, trailMult) == [];
        assert rows + [] == rows;
        continue;
      }
      rows := rows + ScoredRow(syms[i], kind, f.indicators, minScore, trailMult);
    }
    assert syms[..|syms|] == syms;
  }

  /** The rows main writes: both lists' rows sorted by non-increasing score. */
  function Swings(equity: seq<string>, crypto: seq<string>, fetchEquity: string -> Fetched1d, fetchCrypto: string -> Fetched1d,
                  minScore: real, minDollar: real, trailMult: real): seq<SwingRow>
  {
    SortDesc(RowsFor(equity, Equity, fetchEquity, minScore, minDollar, trailMult)
             + RowsFor(crypto, Crypto, fetchCrypto, minScore, minDollar, trailMult), RowScore)
  }

  /**
   * The output holds exactly the kept rows of both lists, ordered by
   * non-increasing score; each one scores at least MIN_SCORE and has a stop
   * below and targets above a positive entry.
   */
  lemma SwingsSpec(equity: seq<string>, crypto: seq<string>, fetchEquity: string -> Fetched1d, fetchCrypto: string -> Fetched1d,
                   minScore: real, minDollar: real, trailMult: real)
    ensures var out := Swings(equity, crypto, fetchEquity, fetchCrypto, minScore, minDollar, trailMult);
      && multiset(out) == multiset(RowsFor(equity, Equity, fetchEquity, minScore, minDollar, trailMult)
                                   + RowsFor(crypto, Crypto, fetchCrypto, minScore, minDollar, trailMult))
      && SortedDesc(out, RowScore)
      && (forall r :: r in out ==> (
            && r.score >= minScore && |r.targets| == 3
            && (r.entry > 0.0 ==> r.stop < r.entry && r.entry < r.targets[0] < r.targets[1] < r.targets[2])))
  {
    var kept := RowsFor(equity, Equity, fetchEquity, minScore, minDollar, trailMult)
      + RowsFor(crypto, Crypto, fetchCrypto, minScore, minDollar, trailMult);
    RowsForSpec(equity, Equity, fetchEquity, minScore, minDollar, trailMult);
    RowsForSpec(crypto, Crypto, fetchCrypto, minScore, minDollar, trailMult);
    SortDescSorted(kept, RowScore);
    var out := Swings(equity, crypto, fetchEquity, fetchCrypto, minScore, minDollar, trailMult);
    forall r | r in out
      ensures r.score >= minScore && |r.targets| == 3
        && (r.entry > 0.0 ==> r.stop < r.entry && r.entry < r.targets[0] < r.targets[1] < r.targets[2])
    {
      assert r in multiset(out);
      assert r in kept;
    }
  }

  /** main: both loops, then rows.sort(key=score, reverse=True). */
  method RunScript(equity: seq<string>, crypto: seq<string>, fetchEquity: string -> Fetched1d, fetchCrypto: string -> Fetched1d,
              minScore: real, minDollar: real, trailMult: real) returns (out: seq<SwingRow>)
    ensures out == Swings(equity, crypto, fetchEquity, fetchCrypto, minScore, minDollar, trailMult)
  {
    var rows := CollectRows(equity, Equity, fetchEquity, minScore, minDollar, trailMult, []);
    assert rows == RowsFor(equity, Equity, fetchEquity, minScore, minDollar, trailMult);
    rows := CollectRows(crypto, Crypto, fetchCrypto, minScore, minDollar, trailMult, rows);
    out := SortDesc(rows, RowScore);
  }
}
