/**
 * run_swing.py: the fail-open average-volume check, the column checks of
 * `enrich`, the heuristic probability and its model override, the trend
 * and retest filters, and the stop / target / reward-to-risk gates of
 * `main`. Downloads, indicator values and the model's prediction are
 * inputs; rounding is left out.
 */
module RunSwing {
  import opened Wrappers
  import opened Text
  import opened Numeric
  import opened Frames
  import opened ColumnMatch

  /** The script's settings (read once from config.yaml). */
  datatype Settings = Settings(
    minProb: real, minRr: real, trendConfirm: bool, retestRequired: bool, minAvgVol: real, trailMult: real)

  /** swing_min_rr's default. */
  const DefaultMinRr: real := 1.4

  // ---------- avg_vol_ok ----------

  /** The 3-month history avg_vol_ok downloads: the call raised, or its column labels and rows. */
  datatype History = Raised | History(columns: ColumnIndex, rows: seq<seq<Cell>>)

  function VolumeCandidates(): seq<string> {
    ["volume", "volume_close", "vol", "volumetotal"]
  }

  /** The volume column: the first candidate present, else the first name containing "volume". */
  function VolumeColumn(cols: seq<string>): (r: Option<nat>)
    ensures r.Some? ==> r.value < |cols|
  {
    var exact := FirstPresent(cols, VolumeCandidates());
    if exact.Some? then exact
    else
      FuzzyFromSpec(cols, "volume", 0);
      FuzzyFrom(cols, "volume", 0)
  }

  /** hist[name] with duplicated names is a frame, and iloc[:, -1] keeps the last column of that name. */
  function LastNamed(names: seq<string>, j: nat): (r: nat)
    requires j < |names|
    ensures j <= r < |names| && names[r] == names[j]
    ensures forall k :: r < k < |names| ==> names[k] != names[j]
    decreases |names| - j
  {
    if exists k :: j < k < |names| && names[k] == names[j] then
      var k :| j < k < |names| && names[k] == names[j];
      var r := LastNamed(names, k);
      r
    else j
  }

  /** The column's values. */
  function Column(rows: seq<seq<Cell>>, j: nat): (r: seq<Cell>)
    ensures |r| == |rows|
  {
    seq(|rows|, i requires 0 <= i < |rows| => if j < |rows[i]| then rows[i][j] else None)
  }

  /**
   * avg_vol_ok: True for a "-USD" ticker, a failed or empty download and a
   * history with no volume column; otherwise the mean of its last 20
   * values must reach the minimum (a NaN mean, with no value, fails).
   */
  predicate AvgVolOk(ticker: string, hist: History, minAvgVol: real) {
    if Contains(ticker, "-USD") then true
    else if hist.Raised? || |hist.rows| == 0 then true
    else
      var names := NormCols(hist.columns);
      var vol := VolumeColumn(LowerAll(names));
      if vol.None? then true
      else
        var m := MeanSkipNa(Tail(Column(hist.rows, LastNamed(names, vol.value)), 20));
        m.Some? && m.value >= minAvgVol
  }

  /**
   * The check fails only for a non-crypto ticker whose volume column has a
   * mean below the minimum or no value at all; a history with no column
   * named "vol" and none containing "volume" passes.
   */
  lemma AvgVolOkFailOpen(ticker: string, hist: History, minAvgVol: real)
    ensures !AvgVolOk(ticker, hist, minAvgVol) ==> (
      && !Contains(ticker, "-USD") && hist.History? && |hist.rows| > 0
      && VolumeColumn(LowerAll(NormCols(hist.columns))).Some?)
    ensures hist.History? ==>
      var cols := LowerAll(NormCols(hist.columns));
      (forall k :: 0 <= k < |cols| ==> !Contains(cols[k], "volume") && cols[k] != "vol") ==>
        AvgVolOk(ticker, hist, minAvgVol)
  {
    if hist.History? {
      var cols := LowerAll(NormCols(hist.columns));
      if forall k :: 0 <= k < |cols| ==> !Contains(cols[k], "volume") && cols[k] != "vol" {
        NoVolumeColumn(cols);
      }
    }
  }

  /** Without a name containing "volume" or equal to "vol" no volume column is found. */
  lemma NoVolumeColumn(cols: seq<string>)
    requires forall k :: 0 <= k < |cols| ==> !Contains(cols[k], "volume") && cols[k] != "vol"
    ensures VolumeColumn(cols).None?
  {
    FirstPresentSpec(cols, VolumeCandidates());
    FuzzyFromSpec(cols, "volume", 0);
    if FirstPresent(cols, VolumeCandidates()).Some? {
      var j := FirstPresent(cols, VolumeCandidates()).value;
      var k :| 0 <= k < 4 && cols[j] == VolumeCandidates()[k]
        && (forall k' :: 0 <= k' < k ==> VolumeCandidates()[k'] !in cols)
        && (forall j' :: 0 <= j' < j ==> cols[j'] != VolumeCandidates()[k]);
      VolumeCandidatesContainVolume(k);
      assert false;
    }
  }

  /** Every exact volume name but "vol" contains "volume". */
  lemma VolumeCandidatesContainVolume(k: nat)
    requires k < 4
    ensures k != 2 ==> Contains(VolumeCandidates()[k], "volume")
    ensures k == 2 ==> VolumeCandidates()[k] == "vol"
  {
    var v := VolumeCandidates();
    if k != 2 {
      assert v[k][..6] == "volume";
      StartsWithContains(v[k], "volume");
    }
  }

  // ---------- enrich ----------

  /** One row of enrich's output after NaN rows are dropped. */
  datatype DayBar = DayBar(low: real, close: real, ema20: real, ema200: real, rsi: real)

  /** What main has for a symbol: the volume history, the daily download, and the rows enrich computes from it. */
  datatype SymbolData = SymbolData(history: History, columns: ColumnIndex, downloadEmpty: bool, enriched: seq<DayBar>)

  /**
   * enrich(fetch1d(sym)): an empty download passes through; otherwise the
   * labels are normalised and close, high and low must each resolve, or
   * _get_series raises KeyError.
   */
  function Enrich(d: SymbolData): (r: Result<seq<DayBar>, KeyError>)
    ensures d.downloadEmpty ==> r == Ok([])
  {
    if d.downloadEmpty then Ok([])
    else
      match PriceSeriesError(NormCols(d.columns))
      case Some(e) => Err(e)
      case None => Ok(d.enriched)
  }

  /** enrich fails exactly when, on a non-empty download, no normalised label contains some required name. */
  lemma EnrichErrIff(d: SymbolData)
    ensures var cols := LowerAll(NormCols(d.columns));
      Enrich(d).Err? <==> (
        && !d.downloadEmpty
        && ((forall k :: 0 <= k < 4 ==> NoMatch(cols, Lower(PriceCloseCandidates()[k])))
            || NoMatch(cols, Lower("high")) || NoMatch(cols, Lower("low"))))
    ensures Enrich(d).Err? ==> Enrich(d).error.columns == NormCols(d.columns)
  {
    PriceSeriesErrorIff(NormCols(d.columns));
  }

  // ---------- probability and filters ----------

  const FeatsSwing: seq<string> :=
    ["ret1", "ret3", "ret5", "ema10", "ema20", "ema200", "ema_slope20", "ema_dist20", "rsi", "atr"]

  /** The loaded model pack: a dict with a truthy model or not, its feature list, and what predict_proba gives (None: it raised). */
  datatype ModelPack = ModelPack(hasModel: bool, feats: seq<string>, predicted: Option<real>)

  /** The heuristic: 0.65 when close > ema20 > ema200 and 45 <= rsi <= 70, else 0.4. */
  function HeuristicProb(last: DayBar): real {
    if last.close > last.ema20 > last.ema200 && 45.0 <= last.rsi <= 70.0 then 0.65 else 0.4
  }

  /** The model's probability replaces the heuristic only for a truthy model with exactly FEATS_SWING. */
  function Prob(last: DayBar, pack: Option<ModelPack>): (p: real)
    ensures p != HeuristicProb(last) ==>
      pack.Some? && pack.value.hasModel && pack.value.feats == FeatsSwing && pack.value.predicted == Some(p)
    ensures pack.Some? && pack.value.hasModel && pack.value.feats == FeatsSwing && pack.value.predicted.Some? ==>
      p == pack.value.predicted.value
    ensures pack.None? ==> p in {0.4, 0.65}
  {
    if pack.Some? && pack.value.hasModel && pack.value.feats != [] && pack.value.feats == FeatsSwing
       && pack.value.predicted.Some?
    then pack.value.predicted.value
    else HeuristicProb(last)
  }

  /** |close - ema20| / ema20 <= 0.01 in floats: dividing by a zero ema20 gives inf or NaN, and both compare false. */
  predicate Near(b: DayBar) {
    b.ema20 != 0.0 && Abs(b.close - b.ema20) / b.ema20 <= 0.01
  }

  /** passes_filters */
  predicate PassesFilters(df: seq<DayBar>, trendConfirm: bool, retestRequired: bool)
    requires |df| > 0
  {
    var last := df[|df| - 1];
    && (trendConfirm ==> last.close > last.ema20 > last.ema200)
    && (retestRequired ==> exists b :: b in Tail(df, 5) && Near(b))
  }

  /**
   * With the trend confirmation the last bar must close above EMA20 above
   * EMA200; with the retest one of the last 5 bars must close within 1% of
   * a positive EMA20; a negative EMA20 passes that test.
   */
  lemma PassesFiltersSpec(df: seq<DayBar>, trendConfirm: bool, retestRequired: bool, i: nat)
    requires |df| > 0 && i < |df|
    ensures PassesFilters(df, true, false) <==> df[|df| - 1].close > df[|df| - 1].ema20 > df[|df| - 1].ema200
    ensures PassesFilters(df, false, false)
    ensures PassesFilters(df, trendConfirm, retestRequired) ==> PassesFilters(df, false, retestRequired) && PassesFilters(df, trendConfirm, false)
    ensures df[i].ema20 > 0.0 ==> (Near(df[i]) <==> Abs(df[i].close - df[i].ema20) <= 0.01 * df[i].ema20)
    ensures df[i].ema20 < 0.0 ==> Near(df[i])
    ensures |df| - 5 <= i && df[i].ema20 > 0.0 && Abs(df[i].close - df[i].ema20) <= 0.01 * df[i].ema20 ==>
      PassesFilters(df, false, retestRequired)
  {
    var b := df[i];
    if b.ema20 > 0.0 {
      QuotientAtMost(Abs(b.close - b.ema20), b.ema20, 0.01);
    } else if b.ema20 < 0.0 {
      var q := Abs(b.close - b.ema20) / b.ema20;
      assert q * b.ema20 == Abs(b.close - b.ema20);
    }
    if |df| - 5 <= i {
      var t := Tail(df, 5);
      assert t[i - (|df| - |t|)] == df[i];
    }
  }

  /** For a positive divisor, a / e <= c exactly when a <= c * e. */
  lemma QuotientAtMost(a: real, e: real, c: real)
    requires e > 0.0
    ensures a / e <= c <==> a <= c * e
  {
    var q := a / e;
    assert q * e == a;
    if q <= c {
      assert (c - q) * e >= 0.0;
    } else {
      assert (q - c) * e > 0.0;
    }
  }

  // ---------- the gates of main ----------

  /** One emitted row (rounding left out). */
  datatype SwingSignal = SwingSignal(ticker: string, prob: real, entry: real, stop: real, targets: seq<real>, atrMult: real)

  /** The stop: the lower of the last EMA20 and the lowest low of the last 3 bars. */
  function Stop(df: seq<DayBar>): real
    requires |df| > 0
  {
    Min(df[|df| - 1].ema20, MinOf(seq(|Tail(df, 3)|, k requires 0 <= k < |Tail(df, 3)| => Tail(df, 3)[k].low)))
  }

  /** rr = (t1 - price) / risk with t1 = price + 1.0 * risk, as written. */
  function RewardRisk(price: real, risk: real): real
    requires risk > 0.0
  {
    ((price + 1.0 * risk) - price) / risk
  }

  /** The reward-to-risk ratio is 1 whatever the price and the risk. */
  lemma RewardRiskIsOne(price: real, risk: real)
    requires risk > 0.0
    ensures RewardRisk(price, risk) == 1.0
  {
    assert (price + 1.0 * risk) - price == risk;
  }

  /** The gates after enrich, for a symbol with enriched rows: its row, or none. */
  function Gates(sym: string, base: seq<DayBar>, pack: Option<ModelPack>, s: Settings): seq<SwingSignal> {
    if |base| < 80 then []
    else
      var last := base[|base| - 1];
      var proba := Prob(last, pack);
      if proba < s.minProb || !PassesFilters(base, s.trendConfirm, s.retestRequired) then []
      else
        var price := last.close;
        var stop := Stop(base);
        var risk := price - stop;
        if risk <= 0.0 || RewardRisk(price, risk) < s.minRr then []
        else [SwingSignal(sym, proba, price, stop, [price + 1.0 * risk, price + 2.0 * risk], s.trailMult)]
  }

  /**
   * The outcome for one symbol: Err aborts main (enrich is outside any
   * try block); Ok([]) is a `continue`; Ok([row]) is an appended row.
   */
  function Step(sym: string, d: SymbolData, pack: Option<ModelPack>, s: Settings): Result<seq<SwingSignal>, KeyError> {
    if !AvgVolOk(sym, d.history, s.minAvgVol) then Ok([])
    else
      match Enrich(d)
      case Err(e) => Err(e)
      case Ok(base) => Ok(Gates(sym, base, pack, s))
  }

  /** main's loop over SYMS as a specification: rows in symbol order, or the first KeyError. */
  function Scan(syms: seq<string>, data: string -> SymbolData, pack: Option<ModelPack>, s: Settings): Result<seq<SwingSignal>, KeyError> {
    if syms == [] then Ok([])
    else
      var n := |syms| - 1;
      match Scan(syms[..n], data, pack, s)
      case Err(e) => Err(e)
      case Ok(rows) =>
        match Step(syms[n], data(syms[n]), pack, s)
        case Err(e) => Err(e)
        case Ok(more) => Ok(rows + more)
  }

  /**
   * A row leaves the gates only for at least 80 enriched rows whose model or
   * heuristic probability reaches the minimum and which pass the filters; it
   * enters at the last close with the computed stop below it, t1 at 1R and
   * t2 at 2R above it, and only when the minimum reward-to-risk is at most 1.
   * A candidate that reaches the risk gate with a positive risk gets its row
   * exactly when that minimum is at most 1.
   */
  lemma GatesSpec(sym: string, base: seq<DayBar>, pack: Option<ModelPack>, s: Settings)
    ensures |Gates(sym, base, pack, s)| <= 1
    ensures Gates(sym, base, pack, s) != [] ==>
      && |base| >= 80
      && var last := base[|base| - 1];
      && var r := Gates(sym, base, pack, s)[0];
      && r.ticker == sym && r.prob == Prob(last, pack) && r.prob >= s.minProb
      && PassesFilters(base, s.trendConfirm, s.retestRequired)
      && r.entry == last.close && r.stop == Stop(base) && r.atrMult == s.trailMult
      && |r.targets| == 2 && r.stop < r.entry < r.targets[0] < r.targets[1]
      && r.targets[0] - r.entry == r.entry - r.stop && r.targets[1] - r.entry == 2.0 * (r.entry - r.stop)
      && s.minRr <= 1.0
    ensures (
      && |base| >= 80 && Prob(base[|base| - 1], pack) >= s.minProb
      && PassesFilters(base, s.trendConfirm, s.retestRequired)
      && base[|base| - 1].close - Stop(base) > 0.0) ==>
        (Gates(sym, base, pack, s) != [] <==> s.minRr <= 1.0)
  {
    if |base| >= 80 {
      var price := base[|base| - 1].close;
      var risk := price - Stop(base);
      if risk > 0.0 {
        RewardRiskIsOne(price, risk);
      }
    }
  }

  /** A step fails only on enrich's KeyError after the volume check passed; its rows are those of the gates. */
  lemma StepSpec(sym: string, d: SymbolData, pack: Option<ModelPack>, s: Settings)
    ensures Step(sym, d, pack, s).Err? <==> AvgVolOk(sym, d.history, s.minAvgVol) && Enrich(d).Err?
    ensures Step(sym, d, pack, s).Ok? && Step(sym, d, pack, s).value != [] ==>
      && AvgVolOk(sym, d.history, s.minAvgVol) && Enrich(d).Ok?
      && Step(sym, d, pack, s).value == Gates(sym, Enrich(d).value, pack, s)
    ensures Step(sym, d, pack, s).Ok? ==> |Step(sym, d, pack, s).value| <= 1
  {
    if AvgVolOk(sym, d.history, s.minAvgVol) && Enrich(d).Ok? {
      GatesSpec(sym, Enrich(d).value, pack, s);
    }
  }

  /** What every row of a step satisfies. */
  lemma StepRows(sym: string, d: SymbolData, pack: Option<ModelPack>, s: Settings)
    ensures Step(sym, d, pack, s).Ok? ==> forall r :: r in Step(sym, d, pack, s).value ==>
      && r.ticker == sym && r.prob >= s.minProb && |r.targets| == 2
      && r.stop < r.entry < r.targets[0] < r.targets[1] && s.minRr <= 1.0
    ensures Step(sym, d, pack, s).Err? ==> AvgVolOk(sym, d.history, s.minAvgVol) && Enrich(d).Err?
  {
    StepSpec(sym, d, pack, s);
    if AvgVolOk(sym, d.history, s.minAvgVol) && Enrich(d).Ok? {
      GatesSpec(sym, Enrich(d).value, pack, s);
    }
  }

  /**
   * main writes rows only when swing_min_rr is at most 1: with the default
   * 1.4, or any value above 1, the scan can only end with no rows or a KeyError.
   */
  lemma {:induction false} ScanEmptyAboveOne(syms: seq<string>, data: string -> SymbolData, pack: Option<ModelPack>, s: Settings)
    requires s.minRr > 1.0
    ensures Scan(syms, data, pack, s).Ok? ==> Scan(syms, data, pack, s).value == []
  {
    if syms != [] {
      var n := |syms| - 1;
      ScanEmptyAboveOne(syms[..n], data, pack, s);
      StepRows(syms[n], data(syms[n]), pack, s);
    }
  }

  /** Every row of the scan belongs to a symbol of the list and passed every gate. */
  lemma {:induction false} ScanSpec(syms: seq<string>, data: string -> SymbolData, pack: Option<ModelPack>, s: Settings)
    ensures Scan(syms, data, pack, s).Ok? ==>
      forall r :: r in Scan(syms, data, pack, s).value ==>
        && r.ticker in syms && r.prob >= s.minProb && |r.targets| == 2
        && r.stop < r.entry < r.targets[0] < r.targets[1]
    ensures Scan(syms, data, pack, s).Err? ==>
      exists k :: 0 <= k < |syms| && Enrich(data(syms[k])).Err? && AvgVolOk(syms[k], data(syms[k]).history, s.minAvgVol)
  {
    if syms != [] {
      var n := |syms| - 1;
      var init := syms[..n];
      ScanSpec(init, data, pack, s);
      StepRows(syms[n], data(syms[n]), pack, s);
      if Scan(init, data, pack, s).Err? {
        var k :| 0 <= k < |init| && Enrich(data(init[k])).Err? && AvgVolOk(init[k], data(init[k]).history, s.minAvgVol);
        assert syms[k] == init[k];
      }
      if Scan(init, data, pack, s).Ok? {
        forall r | r in Scan(init, data, pack, s).value ensures r.ticker in syms {
          var k :| 0 <= k < |init| && init[k] == r.ticker;
          assert syms[k] == r.ticker;
        }
      }
    }
  }

  lemma ScanStep(syms: seq<string>, i: nat, data: string -> SymbolData, pack: Option<ModelPack>, s: Settings)
    requires i < |syms|
    ensures Scan(syms[..i + 1], data, pack, s) ==
      match Scan(syms[..i], data, pack, s)
      case Err(e) => Err(e)
      case Ok(rows) =>
        match Step(syms[i], data(syms[i]), pack, s)
        case Err(e) => Err(e)
        case Ok(more) => Ok(rows + more)
  {
    assert syms[..i + 1][..i] == syms[..i];
  }

  /** main: the loop over SYMS with its `continue` guards; a KeyError from enrich ends the run. */
  method RunScript(syms: seq<string>, data: string -> SymbolData, pack: Option<ModelPack>, s: Settings)
    returns (r: Result<seq<SwingSignal>, KeyError>)
    ensures r == Scan(syms, data, pack, s)
  {
    var out: seq<SwingSignal> := [];
    for i := 0 to |syms|
      invariant Scan(syms[..i], data, pack, s) == Ok(out)
    {
      ScanStep(syms, i, data, pack, s);
      var sym := syms[i];
      var d := data(sym);
      if !AvgVolOk(sym, d.history, s.minAvgVol) {
        assert out + [] == out;
        continue;
      }
      var enriched := Enrich(d);
      if enriched.Err? {
        assert Step(sym, d, pack, s) == Err(enriched.error);
        assert Scan(syms[..i + 1], data, pack, s) == Err(enriched.error);
        ScanErrSticks(syms, i + 1, data, pack, s);
        return Err(enriched.error);
      }
      var more := Gate(sym, enriched.value, pack, s);
      out := out + more;
    }
    assert syms[..|syms|] == syms;
    r := Ok(out);
  }

  /** The body of main's loop after enrich, each failed gate a `continue` (here a return with no row). */
  method Gate(sym: string, base: seq<DayBar>, pack: Option<ModelPack>, s: Settings) returns (more: seq<SwingSignal>)
    ensures more == Gates(sym, base, pack, s)
  {
    more := [];
    if |base| < 80 {
      return;
    }
    var last := base[|base| - 1];
    var proba := Prob(last, pack);
    if proba < s.minProb {
      return;
    }
    if !PassesFilters(base, s.trendConfirm, s.retestRequired) {
      return;
    }
    var price := last.close;
    var stop := Stop(base);
    var risk := price - stop;
    if risk <= 0.0 {
      return;
    }
    var t1 := price + 1.0 * risk;
    var t2 := price + 2.0 * risk;
    var rr := (t1 - price) / risk;
    if rr < s.minRr {
      return;
    }
    more := [SwingSignal(sym, proba, price, stop, [t1, t2], s.trailMult)];
  }

  /** Once a prefix of the scan has failed, the whole scan fails with the same error. */
  lemma {:induction false} ScanErrSticks(syms: seq<string>, i: nat, data: string -> SymbolData, pack: Option<ModelPack>, s: Settings)
    requires i <= |syms| && Scan(syms[..i], data, pack, s).Err?
    ensures Scan(syms, data, pack, s) == Scan(syms[..i], data, pack, s)
    decreases |syms| - i
  {
    if i < |syms| {
      ScanStep(syms, i, data, pack, s);
      ScanErrSticks(syms, i + 1, data, pack, s);
    } else {
      assert syms[..i] == syms;
    }
  }

  // ---------- the reward-to-risk gate measured to the final target ----------

  /** rr measured to t2 = price + 2.0 * risk, the ratio a 1.4 minimum can compare against. */
  function RewardRiskToFinal(price: real, risk: real): real
    requires risk > 0.0
  {
    ((price + 2.0 * risk) - price) / risk
  }

  /** Measured to the final target the ratio is 2, so every minimum up to 2 admits the candidate. */
  lemma RewardRiskToFinalIsTwo(price: real, risk: real, minRr: real)
    requires risk > 0.0
    ensures RewardRiskToFinal(price, risk) == 2.0
    ensures minRr <= 2.0 ==> !(RewardRiskToFinal(price, risk) < minRr)
  {
    assert (price + 2.0 * risk) - price == 2.0 * risk;
  }

  /** Gates with the reward-to-risk gate measured to the final target. */
  function GatesToFinal(sym: string, base: seq<DayBar>, pack: Option<ModelPack>, s: Settings): seq<SwingSignal> {
    if |base| < 80 then []
    else
      var last := base[|base| - 1];
      var proba := Prob(last, pack);
      if proba < s.minProb || !PassesFilters(base, s.trendConfirm, s.retestRequired) then []
      else
        var price := last.close;
        var stop := Stop(base);
        var risk := price - stop;
        if risk <= 0.0 || RewardRiskToFinal(price, risk) < s.minRr then []
        else [SwingSignal(sym, proba, price, stop, [price + 1.0 * risk, price + 2.0 * risk], s.trailMult)]
  }

  /**
   * With the gate measured to the final target and the default minimum of
   * 1.4, a candidate that passes the length, probability, filter and
   * positive-risk gates yields its row, where the gate as written yields none.
   */
  lemma GatesToFinalAdmits(sym: string, base: seq<DayBar>, pack: Option<ModelPack>, s: Settings)
    requires s.minRr == DefaultMinRr && |base| >= 80
    requires Prob(base[|base| - 1], pack) >= s.minProb && PassesFilters(base, s.trendConfirm, s.retestRequired)
    requires base[|base| - 1].close - Stop(base) > 0.0
    ensures |GatesToFinal(sym, base, pack, s)| == 1
    ensures GatesToFinal(sym, base, pack, s)[0].entry == base[|base| - 1].close
    ensures GatesToFinal(sym, base, pack, s)[0].stop == Stop(base)
    ensures Gates(sym, base, pack, s) == []
  {
    var price := base[|base| - 1].close;
    RewardRiskToFinalIsTwo(price, price - Stop(base), s.minRr);
    RewardRiskIsOne(price, price - Stop(base));
  }
}
