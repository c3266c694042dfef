/**
 * train_ai.py: the daily features' column checks, the forward-up labels and
 * the collection of per-symbol frames with the "no data" guard. Downloads,
 * indicator values and the model fitting are left out; the computed rows
 * of each download are an input.
 */
module TrainAi {
  import opened Wrappers
  import Numeric
  import opened Frames
  import opened ColumnMatch

  /** swing_horizon_days' default. */
  const DefaultHorizon: nat := 10

  /** What fetch1d returns: column labels (already normalised by it when non-empty) and a row count. */
  datatype RawFrame = RawFrame(columns: ColumnIndex, rowCount: nat)

  /** One row of the daily features after NaN and infinite rows are dropped: the close and the other columns. */
  datatype DailyRow = DailyRow(close: real, features: seq<real>)

  /** make_daily_features' result: the input itself (when empty), or the feature rows. */
  datatype Daily = Unchanged(raw: RawFrame) | Features(rows: seq<DailyRow>)

  /**
   * make_daily_features: an empty frame is returned as it is; otherwise
   * close, high and low must resolve (a KeyError otherwise) and the feature
   * rows are those computed from them.
   */
  function MakeDailyFeatures(raw: RawFrame, computed: seq<DailyRow>): (r: Result<Daily, KeyError>)
    ensures raw.rowCount == 0 ==> r == Ok(Unchanged(raw))
    ensures raw.rowCount > 0 && r.Ok? ==> r.value == Features(computed)
    ensures r.Err? <==> raw.rowCount > 0 && PriceSeriesError(NormCols(raw.columns)).Some?
  {
    if raw.rowCount == 0 then Ok(Unchanged(raw))
    else
      match PriceSeriesError(NormCols(raw.columns))
      case Some(e) => Err(e)
      case None => Ok(Features(computed))
  }

  /** A frame appended to `frames`: the features, their labels and the ticker column. */
  datatype Labelled = Labelled(ticker: string, rows: seq<DailyRow>, labels: seq<int>)

  /** One symbol's download: the call or the feature code raised, or the frame and its computed feature rows. */
  datatype Download = Raised | Downloaded(raw: RawFrame, computed: seq<DailyRow>)

  /** The body of main's try block for one symbol: the labelled frame, or nothing (continue or a caught exception). */
  function Process(sym: string, dl: Download, horizon: nat): Option<Labelled> {
    if dl.Raised? || dl.raw.rowCount == 0 then None
    else
      match MakeDailyFeatures(dl.raw, dl.computed)
      case Err(_) => None
      case Ok(Unchanged(_)) => None
      case Ok(Features(rows)) => Some(Labelled(sym, rows, ForwardUpLabels(Numeric.ColumnOf(rows, (b: DailyRow) => b.close), horizon)))
  }

  /**
   * A symbol gives a frame exactly when its download succeeded with rows and
   * its prices resolved; the frame carries the symbol, its feature rows and
   * one label per row, 1 where the close h rows later is higher (for
   * positive closes) and 0 in the last h rows.
   */
  lemma ProcessSpec(sym: string, dl: Download, horizon: nat)
    ensures Process(sym, dl, horizon).Some? <==>
      dl.Downloaded? && dl.raw.rowCount > 0 && PriceSeriesError(NormCols(dl.raw.columns)).None?
    ensures Process(sym, dl, horizon).Some? ==>
      var f := Process(sym, dl, horizon).value;
      && f.ticker == sym && f.rows == dl.computed && |f.labels| == |f.rows|
      && (forall i :: 0 <= i < |f.rows| && i + horizon >= |f.rows| ==> f.labels[i] == 0)
      && ((forall k :: 0 <= k < |f.rows| ==> f.rows[k].close > 0.0) ==>
            forall i :: 0 <= i < |f.rows| ==>
              (f.labels[i] == 1 <==> i + horizon < |f.rows| && f.rows[i + horizon].close > f.rows[i].close))
  {
    if Process(sym, dl, horizon).Some? {
      var f := Process(sym, dl, horizon).value;
      var closes := Numeric.ColumnOf(f.rows, (b: DailyRow) => b.close);
      forall i | 0 <= i < |f.rows| && i + horizon >= |f.rows| ensures f.labels[i] == 0 {
        ForwardUpTail(closes, horizon, i);
      }
      if forall k :: 0 <= k < |f.rows| ==> f.rows[k].close > 0.0 {
        forall i | 0 <= i < |f.rows|
          ensures f.labels[i] == 1 <==> i + horizon < |f.rows| && f.rows[i + horizon].close > f.rows[i].close
        {
          ForwardUpMeaning(closes, horizon, i);
        }
      }
    }
  }

  /** The frames main collects, in symbol order. */
  function Collected(syms: seq<string>, fetch: string -> Download, horizon: nat): seq<Labelled> {
    if syms == [] then []
    else
      var n := |syms| - 1;
      var f := Process(syms[n], fetch(syms[n]), horizon);
      Collected(syms[..n], fetch, horizon) + (if f.Some? then [f.value] else [])
  }

  /** The guard ends the run when nothing was collected. */
  datatype TrainError = NoDataToTrainOn

  /** What main hands to the concatenation and the fit, or the RuntimeError. */
  function TrainingFrames(syms: seq<string>, fetch: string -> Download, horizon: nat): Result<seq<Labelled>, TrainError> {
    var frames := Collected(syms, fetch, horizon);
    if frames == [] then Err(NoDataToTrainOn) else Ok(frames)
  }

  /**
   * One frame per symbol that processed cleanly, in order, each for its own
   * symbol; nothing is collected exactly when every symbol raised, came back
   * empty or lacked a price column.
   */
  lemma CollectedSpec(syms: seq<string>, fetch: string -> Download, horizon: nat)
    ensures |Collected(syms, fetch, horizon)| <= |syms|
    ensures forall f :: f in Collected(syms, fetch, horizon) ==> f.ticker in syms && Process(f.ticker, fetch(f.ticker), horizon) == Some(f)
    ensures Collected(syms, fetch, horizon) == [] <==> forall k :: 0 <= k < |syms| ==> Process(syms[k], fetch(syms[k]), horizon).None?
  {
    CollectedFrames(syms, fetch, horizon);
    CollectedEmptyIff(syms, fetch, horizon);
  }

  lemma {:induction false} CollectedFrames(syms: seq<string>, fetch: string -> Download, horizon: nat)
    ensures |Collected(syms, fetch, horizon)| <= |syms|
    ensures forall f :: f in Collected(syms, fetch, horizon) ==> f.ticker in syms && Process(f.ticker, fetch(f.ticker), horizon) == Some(f)
  {
    if syms != [] {
      var n := |syms| - 1;
      var init := syms[..n];
      CollectedFrames(init, fetch, horizon);
      forall f | f in Collected(init, fetch, horizon) ensures f.ticker in syms {
        var k :| 0 <= k < |init| && init[k] == f.ticker;
        assert syms[k] == f.ticker;
      }
    }
  }

  lemma {:induction false} CollectedEmptyIff(syms: seq<string>, fetch: string -> Download, horizon: nat)
    ensures Collected(syms, fetch, horizon) == [] <==> forall k :: 0 <= k < |syms| ==> Process(syms[k], fetch(syms[k]), horizon).None?
  {
    if syms != [] {
      var n := |syms| - 1;
      var init := syms[..n];
      CollectedEmptyIff(init, fetch, horizon);
      var last := Process(syms[n], fetch(syms[n]), horizon);
      var more := if last.Some? then [last.value] else [];
      assert Collected(syms, fetch, horizon) == Collected(init, fetch, horizon) + more;
      assert |Collected(syms, fetch, horizon)| == |Collected(init, fetch, horizon)| + |more|;
      assert forall k :: 0 <= k < n ==> syms[k] == init[k];
    }
  }

  /**
   * The RuntimeError is raised exactly when no symbol gave a frame; a symbol
   * whose features are all dropped still gives an (empty) frame, so the
   * guard does not fire for it.
   */
  lemma NoDataIff(syms: seq<string>, fetch: string -> Download, horizon: nat)
    ensures TrainingFrames(syms, fetch, horizon).Err? <==>
      forall k :: 0 <= k < |syms| ==> Process(syms[k], fetch(syms[k]), horizon).None?
    ensures (exists k :: 0 <= k < |syms| && fetch(syms[k]).Downloaded? && fetch(syms[k]).raw.rowCount > 0
              && fetch(syms[k]).computed == [] && PriceSeriesError(NormCols(fetch(syms[k]).raw.columns)).None?)
      ==> TrainingFrames(syms, fetch, horizon).Ok?
  {
    CollectedSpec(syms, fetch, horizon);
    if exists k :: 0 <= k < |syms| && fetch(syms[k]).Downloaded? && fetch(syms[k]).raw.rowCount > 0
        && fetch(syms[k]).computed == [] && PriceSeriesError(NormCols(fetch(syms[k]).raw.columns)).None? {
      var k :| 0 <= k < |syms| && fetch(syms[k]).Downloaded? && fetch(syms[k]).raw.rowCount > 0
        && fetch(syms[k]).computed == [] && PriceSeriesError(NormCols(fetch(syms[k]).raw.columns)).None?;
      ProcessSpec(syms[k], fetch(syms[k]), horizon);
    }
  }

  /** main up to the guard: the loop over the symbols, then the RuntimeError when `frames` is empty. */
  method RunScript(syms: seq<string>, fetch: string -> Download, horizon: nat) returns (r: Result<seq<Labelled>, TrainError>)
    ensures r == TrainingFrames(syms, fetch, horizon)
  {
    var frames: seq<Labelled> := [];
    for i := 0 to |syms|
      invariant frames == Collected(syms[..i], fetch, horizon)
    {
      assert syms[..i + 1][..i] == syms[..i];
      var s := syms[i];
      var dl := fetch(s);
      if dl.Raised? {
        continue;
      }
      if dl.raw.rowCount == 0 {
        continue;
      }
      var feats := MakeDailyFeatures(dl.raw, dl.computed);
      if feats.Err? || feats.value.Unchanged? {
        continue;
      }
      var rows := feats.value.rows;
      frames := frames + [Labelled(s, rows, ForwardUpLabels(Numeric.ColumnOf(rows, (b: DailyRow) => b.close), horizon))];
    }
    assert syms[..|syms|] == syms;
    if frames == [] {
      return Err(NoDataToTrainOn);
    }
    r := Ok(frames);
  }
}
