/**
 * strategies/orb_ema.py: the opening range of each session, the
 * break-and-retest flag against a level, and the trailing stop clipped at
 * the close. Series are modelled row by row; NaN levels are left out.
 */
module OrbEma {
  import opened Numeric
  import Featurize

  type Bar = Featurize.Bar

  /** Bar i is the first bar of its date. */
  predicate FirstOfDate(bars: seq<Bar>, i: nat)
    requires i < |bars|
  {
    forall j :: 0 <= j < i ==> bars[j].date != bars[i].date
  }

  /** One row of opening_range: the position of the session's first bar and its high and low. */
  datatype OrbRow = OrbRow(pos: nat, orbHigh: real, orbLow: real)

  /** opening_range: groupby('date').head(1), in bar order, renamed to orb_high / orb_low. */
  function OpeningRange(bars: seq<Bar>): seq<OrbRow> {
    if bars == [] then []
    else
      var i := |bars| - 1;
      var init := bars[..i];
      OpeningRange(init) + (if FirstOfDate(bars, i) then [OrbRow(i, bars[i].high, bars[i].low)] else [])
  }

  /**
   * Each row is the first bar of its date, with that bar's high and low; the
   * rows are in bar order; and every date's first bar has a row.
   */
  lemma {:induction false} OpeningRangeSpec(bars: seq<Bar>)
    ensures forall r :: r in OpeningRange(bars) ==>
      r.pos < |bars| && FirstOfDate(bars, r.pos) && r.orbHigh == bars[r.pos].high && r.orbLow == bars[r.pos].low
    ensures forall a, b :: 0 <= a < b < |OpeningRange(bars)| ==> OpeningRange(bars)[a].pos < OpeningRange(bars)[b].pos
    ensures forall i :: 0 <= i < |bars| && FirstOfDate(bars, i) ==> exists r :: r in OpeningRange(bars) && r.pos == i
  {
    if bars != [] {
      var i := |bars| - 1;
      var init := bars[..i];
      OpeningRangeSpec(init);
      assert forall k :: 0 <= k < i ==> bars[k] == init[k];
      forall r | r in OpeningRange(init) ensures r.pos < i && FirstOfDate(bars, r.pos) {
        assert FirstOfDate(init, r.pos);
      }
      forall k | 0 <= k < i && FirstOfDate(bars, k) ensures exists r :: r in OpeningRange(init) && r.pos == k {
        assert FirstOfDate(init, k);
      }
    }
  }

  /** Different rows belong to different dates: one row per distinct date. */
  lemma OneRowPerDate(bars: seq<Bar>, a: nat, b: nat)
    requires a < b < |OpeningRange(bars)|
    ensures var r := OpeningRange(bars);
      r[a].pos < |bars| && r[b].pos < |bars| && bars[r[a].pos].date != bars[r[b].pos].date
  {
    OpeningRangeSpec(bars);
    var r := OpeningRange(bars);
    assert r[a] in r && r[b] in r;
  }

  /** The opening range agrees with make_features' orb_high / orb_low for every bar of the date. */
  lemma OpeningRangeAgreesWithFeatures(bars: seq<Bar>, r: OrbRow, i: nat)
    requires r in OpeningRange(bars) && i < |bars|
    requires r.pos < |bars| && bars[i].date == bars[r.pos].date
    ensures Featurize.OrbFeatures(bars)[i].orbHigh == r.orbHigh
    ensures Featurize.OrbFeatures(bars)[i].orbLow == r.orbLow
  {
    OpeningRangeSpec(bars);
    var s := Featurize.SessionStart(bars, i);
    assert FirstOfDate(bars, r.pos);
    assert s == r.pos;
  }

  /** The columns break_and_retest reads on one row. */
  datatype LevelBar = LevelBar(close: real, level: real, low: real)

  /** Series.shift(1).fillna(False) on a boolean series. */
  function ShiftFalse(s: seq<bool>): (r: seq<bool>)
    ensures |r| == |s|
    ensures |r| > 0 ==> !r[0]
    ensures forall i :: 0 < i < |s| ==> r[i] == s[i - 1]
  {
    if s == [] then [] else [false] + s[..|s| - 1]
  }

  /** break_and_retest: the previous close broke above the level and this low sits in the level's band. */
  function BreakAndRetest(rows: seq<LevelBar>, retestTolPct: real): seq<bool> {
    var brokeUp := seq(|rows|, i requires 0 <= i < |rows| => rows[i].close > rows[i].level);
    var retest := seq(|rows|, i requires 0 <= i < |rows| =>
      var tolHi := rows[i].level * (1.0 + retestTolPct / 100.0);
      var tolLo := rows[i].level * (1.0 - retestTolPct / 100.0);
      rows[i].low <= tolHi && rows[i].low >= tolLo);
    var prev := ShiftFalse(brokeUp);
    seq(|rows|, i requires 0 <= i < |rows| => prev[i] && retest[i])
  }

  /**
   * The flags line up with the rows; the first is False; a flag is True iff
   * the previous close was above its level and the low lies in
   * [level*(1 - tol/100), level*(1 + tol/100)]; for a non-negative level and
   * tolerance that band is |low - level| <= level*tol/100.
   */
  lemma BreakAndRetestSpec(rows: seq<LevelBar>, tol: real, i: nat)
    requires i < |rows|
    ensures |BreakAndRetest(rows, tol)| == |rows|
    ensures i == 0 ==> !BreakAndRetest(rows, tol)[i]
    ensures BreakAndRetest(rows, tol)[i] <==>
      i > 0 && rows[i - 1].close > rows[i - 1].level
      && rows[i].level * (1.0 - tol / 100.0) <= rows[i].low <= rows[i].level * (1.0 + tol / 100.0)
    ensures rows[i].level >= 0.0 && tol >= 0.0 ==>
      (BreakAndRetest(rows, tol)[i] <==>
        i > 0 && rows[i - 1].close > rows[i - 1].level && Abs(rows[i].low - rows[i].level) <= rows[i].level * tol / 100.0)
  {
  }

  /** The columns trailing_stop_series reads on one row. */
  datatype StopBar = StopBar(ema: real, atr: real, close: real)

  /** The unclipped stop, ema - atr*mult. */
  function BaseStop(row: StopBar, atrMult: real): real {
    row.ema - row.atr * atrMult
  }

  /** trailing_stop_series: the base stop clipped from above at the close. */
  function TrailingStop(rows: seq<StopBar>, atrMult: real): (r: seq<real>)
    ensures |r| == |rows|
    ensures forall i :: 0 <= i < |rows| ==> r[i] <= rows[i].close
  {
    seq(|rows|, i requires 0 <= i < |rows| => Min(BaseStop(rows[i], atrMult), rows[i].close))
  }

  /** Where the base stop is at or below the close the stop is the base; elsewhere it is the close. */
  lemma TrailingStopCases(rows: seq<StopBar>, atrMult: real, i: nat)
    requires i < |rows|
    ensures var base := BaseStop(rows[i], atrMult);
      && (base <= rows[i].close ==> TrailingStop(rows, atrMult)[i] == base)
      && (base > rows[i].close ==> TrailingStop(rows, atrMult)[i] == rows[i].close)
  {
  }
}
