/**
 * ai/featurize.py: column normalization, column lookup, the required-column
 * check of make_features, its opening-range (ORB) flags, and the
 * forward-return label. Indicator values (returns, EMA, RSI, ATR) are not
 * modelled.
 */
module Featurize {
  import opened Wrappers
  import opened Text
  import opened Frames
  import opened ColumnMatch

  /** Positions i, from `from` on, whose name does not occur again later: duplicated(keep='last') is false there. */
  function KeptFrom(s: seq<string>, from: nat): (r: seq<nat>)
    requires from <= |s|
    ensures forall k :: 0 <= k < |r| ==> from <= r[k] < |s| && s[r[k]] !in s[r[k] + 1..]
    ensures forall k, l :: 0 <= k < l < |r| ==> r[k] < r[l]
    ensures forall j :: from <= j < |s| && s[j] !in s[j + 1..] ==> j in r
    decreases |s| - from
  {
    if from == |s| then []
    else if s[from] in s[from + 1..] then KeptFrom(s, from + 1)
    else [from] + KeptFrom(s, from + 1)
  }

  /** Column labels after the join and strip-lower steps, before de-duplication. */
  function Lowered(c: ColumnIndex): (r: seq<string>)
    ensures |r| == Width(c)
  {
    seq(Width(c), i requires 0 <= i < Width(c) => Lower(Strip(Joined(c, i))))
  }

  /** The columns _normalize keeps: their names, and where each came from. */
  datatype Normalized = Normalized(names: seq<string>, source: seq<nat>)

  /** _normalize(df) */
  function Normalize(c: ColumnIndex): (r: Normalized)
    ensures |r.names| == |r.source|
  {
    var flat := Lowered(c);
    var kept := KeptFrom(flat, 0);
    Normalized(seq(|kept|, k requires 0 <= k < |kept| => flat[kept[k]]), kept)
  }

  lemma {:induction false} LastOccurrence(s: seq<string>, j: nat) returns (j': nat)
    requires j < |s|
    ensures j <= j' < |s| && s[j'] == s[j] && s[j'] !in s[j' + 1..]
    decreases |s| - j
  {
    if s[j] in s[j + 1..] {
      var m :| j + 1 <= m < |s| && s[m] == s[j] by {
        var t :| 0 <= t < |s[j + 1..]| && s[j + 1..][t] == s[j];
        assert s[j + 1 + t] == s[j];
      }
      j' := LastOccurrence(s, m);
    } else {
      j' := j;
    }
  }

  /** Names taken at kept positions are pairwise different. */
  lemma KeptUnique(s: seq<string>, k: nat, l: nat)
    requires var r := KeptFrom(s, 0); k < l < |r|
    ensures var r := KeptFrom(s, 0); s[r[k]] != s[r[l]]
  {
    var r := KeptFrom(s, 0);
    var a, b := r[k], r[l];
    assert s[a + 1..][b - a - 1] == s[b];
  }

  /** Every name of s occurs at some kept position. */
  lemma KeptComplete(s: seq<string>, j: nat)
    requires j < |s|
    ensures exists k :: 0 <= k < |KeptFrom(s, 0)| && s[KeptFrom(s, 0)[k]] == s[j]
  {
    var j' := LastOccurrence(s, j);
    var r := KeptFrom(s, 0);
    assert j' in r;
  }

  /** A kept position is the last occurrence of its name. */
  lemma KeptIsLast(s: seq<string>, k: nat, j: nat)
    requires var r := KeptFrom(s, 0); k < |r| && r[k] < j < |s|
    ensures s[j] != s[KeptFrom(s, 0)[k]]
  {
    var a := KeptFrom(s, 0)[k];
    assert s[a + 1..][j - a - 1] == s[j];
  }

  /**
   * After _normalize: names are the stripped, lower-cased labels, unique,
   * each kept column is the last occurrence of its name, order is preserved,
   * and every name of the input survives.
   */
  lemma NormalizeSpec(c: ColumnIndex)
    ensures var r := Normalize(c);
      && (forall k :: 0 <= k < |r.source| ==> r.source[k] < Width(c) && r.names[k] == Lowered(c)[r.source[k]])
      && (forall k, l :: 0 <= k < l < |r.names| ==> r.names[k] != r.names[l])
      && (forall k, l :: 0 <= k < l < |r.source| ==> r.source[k] < r.source[l])
      && (forall k, j :: 0 <= k < |r.source| && r.source[k] < j < Width(c) ==> Lowered(c)[j] != r.names[k])
      && (forall j :: 0 <= j < Width(c) ==> Lowered(c)[j] in r.names)
  {
    NormalizeUnique(c);
    NormalizeKeepsLast(c);
    NormalizeComplete(c);
  }

  lemma NormalizeUnique(c: ColumnIndex)
    ensures var r := Normalize(c);
      forall k, l :: 0 <= k < l < |r.names| ==> r.names[k] != r.names[l]
  {
    var r := Normalize(c);
    forall k, l | 0 <= k < l < |r.names| ensures r.names[k] != r.names[l] {
      KeptUnique(Lowered(c), k, l);
    }
  }

  lemma NormalizeKeepsLast(c: ColumnIndex)
    ensures var r := Normalize(c);
      forall k, j :: 0 <= k < |r.source| && r.source[k] < j < Width(c) ==> Lowered(c)[j] != r.names[k]
  {
    var r := Normalize(c);
    forall k, j | 0 <= k < |r.source| && r.source[k] < j < Width(c) ensures Lowered(c)[j] != r.names[k] {
      KeptIsLast(Lowered(c), k, j);
    }
  }

  lemma NormalizeComplete(c: ColumnIndex)
    ensures var r := Normalize(c);
      forall j :: 0 <= j < Width(c) ==> Lowered(c)[j] in r.names
  {
    var flat := Lowered(c);
    var r := Normalize(c);
    forall j | 0 <= j < Width(c) ensures flat[j] in r.names {
      KeptComplete(flat, j);
      var k :| 0 <= k < |r.source| && flat[r.source[k]] == flat[j];
      assert r.names[k] == flat[j];
    }
  }

  /** _series: df[name] with a duplicated name is a frame, of which the last column is taken. */
  function SeriesOf(names: seq<string>, name: string): (r: Option<nat>)
    ensures r.Some? ==> (r.value < |names| && names[r.value] == name &&
      forall j :: r.value < j < |names| ==> names[j] != name)
    ensures r.None? <==> name !in names
  {
    if names == [] then None
    else if names[|names| - 1] == name then Some(|names| - 1)
    else
      var r := SeriesOf(names[..|names| - 1], name);
      assert names == names[..|names| - 1] + [names[|names| - 1]];
      r
  }

  /** With unique names (as after _normalize) _series changes nothing: it is the column itself. */
  lemma SeriesOfUnique(names: seq<string>, j: nat)
    requires j < |names| && forall k, l :: 0 <= k < l < |names| ==> names[k] != names[l]
    ensures SeriesOf(names, names[j]) == Some(j)
  {
  }

  datatype FeatureError = EmptyFrame | RequiredColumnsMissing(have: seq<string>)

  /** Where make_features takes close, high and low from (positions in the normalized frame). */
  datatype Ohlc = Ohlc(close: nat, high: nat, low: nat)

  const CloseCandidates: seq<string> := ["close", "adj close", "adj_close", "adjclose"]

  /**
   * The checks of make_features: an empty frame and an unresolvable
   * close, high or low column raise ValueError.
   */
  method MakeFeatures(columns: ColumnIndex, rowCount: nat) returns (r: Result<Ohlc, FeatureError>)
    ensures rowCount == 0 ==> r == Err(EmptyFrame)
    ensures rowCount > 0 ==> var names := Normalize(columns).names; var cols := LowerAll(names);
      && (r.Err? <==> Resolve(cols, CloseCandidates).None? || Resolve(cols, ["high"]).None? || Resolve(cols, ["low"]).None?)
      && (r.Ok? ==> (Some(r.value.close) == Resolve(cols, CloseCandidates)
                 && Some(r.value.high) == Resolve(cols, ["high"])
                 && Some(r.value.low) == Resolve(cols, ["low"])))
      && (r.Err? ==> r.error == RequiredColumnsMissing(names))
  {
    if rowCount == 0 {
      return Err(EmptyFrame);
    }
    var names := Normalize(columns).names;
    var c := FindCol(names, CloseCandidates);
    var h := FindCol(names, ["high"]);
    var l := FindCol(names, ["low"]);
    if c.None? || h.None? || l.None? {
      return Err(RequiredColumnsMissing(names));
    }
    return Ok(Ohlc(c.value, h.value, l.value));
  }

  /** One 15-minute bar: its session date and the resolved high, low and close. */
  datatype Bar = Bar(date: int, high: real, low: real, close: real)

  /** The first bar of bar i's date (groupby('_d').transform('first')). */
  function SessionStart(bars: seq<Bar>, i: nat): (r: nat)
    requires i < |bars|
    ensures r <= i && bars[r].date == bars[i].date
    ensures forall j :: 0 <= j < r ==> bars[j].date != bars[i].date
  {
    if exists j :: 0 <= j < i && bars[j].date == bars[i].date then
      var j :| 0 <= j < i && bars[j].date == bars[i].date;
      SessionStartBelow(bars, i, j)
    else i
  }

  function SessionStartBelow(bars: seq<Bar>, i: nat, j: nat): (r: nat)
    requires j < i < |bars| && bars[j].date == bars[i].date
    ensures r <= j && bars[r].date == bars[i].date
    ensures forall k :: 0 <= k < r ==> bars[k].date != bars[i].date
    decreases j
  {
    if exists k :: 0 <= k < j && bars[k].date == bars[i].date then
      var k :| 0 <= k < j && bars[k].date == bars[i].date;
      SessionStartBelow(bars, i, k)
    else j
  }

  datatype OrbFeature = OrbFeature(orbHigh: real, orbLow: real, brkOrbHigh: int, rtOrbHigh: int)

  /** The ORB columns of make_features, row by row. */
  function OrbFeatures(bars: seq<Bar>): (r: seq<OrbFeature>)
    ensures |r| == |bars|
  {
    seq(|bars|, i requires 0 <= i < |bars| =>
      var first := bars[SessionStart(bars, i)];
      var oh := first.high;
      var tol := oh * 0.0025;
      OrbFeature(oh, first.low,
        if bars[i].close > oh then 1 else 0,
        if bars[i].low <= oh + tol && bars[i].low >= oh - tol then 1 else 0))
  }

  /**
   * orb_high and orb_low come from the first bar of the same date; the
   * breakout flag is 1 iff close > orb_high; the retest flag is 1 iff low lies
   * within 0.25% of a non-negative orb_high.
   */
  lemma OrbFeaturesSpec(bars: seq<Bar>, i: nat)
    requires i < |bars|
    ensures var f := OrbFeatures(bars)[i];
      && (exists j :: 0 <= j <= i && bars[j].date == bars[i].date
            && (forall k :: 0 <= k < j ==> bars[k].date != bars[i].date)
            && f.orbHigh == bars[j].high && f.orbLow == bars[j].low)
      && (f.brkOrbHigh == 1 <==> bars[i].close > f.orbHigh)
      && f.brkOrbHigh in {0, 1} && f.rtOrbHigh in {0, 1}
      && (f.orbHigh >= 0.0 ==>
            (f.rtOrbHigh == 1 <==>
              -0.0025 * f.orbHigh <= bars[i].low - f.orbHigh <= 0.0025 * f.orbHigh))
  {
    var j := SessionStart(bars, i);
    assert OrbFeatures(bars)[i].orbHigh == bars[j].high;
  }

  /** An ORB value depends only on the date: bars of one date share it. */
  lemma OrbSameSession(bars: seq<Bar>, i: nat, j: nat)
    requires i < |bars| && j < |bars| && bars[i].date == bars[j].date
    ensures OrbFeatures(bars)[i].orbHigh == OrbFeatures(bars)[j].orbHigh
    ensures OrbFeatures(bars)[i].orbLow == OrbFeatures(bars)[j].orbLow
  {
    var a, b := SessionStart(bars, i), SessionStart(bars, j);
    assert bars[a].date == bars[j].date && bars[b].date == bars[i].date;
    assert a == b;
  }

  datatype LabelError = NoCloseColumn

  /**
   * label_forward_returns: normalize, find the close column (ValueError when
   * absent), then label 1 where the return horizon bars ahead is positive.
   * tp_r and sl_r are accepted and never used. `data` holds the input's
   * columns in order.
   */
  method LabelForwardReturns(columns: ColumnIndex, data: seq<seq<real>>, horizonBars: nat, tpR: real, slR: real)
    returns (r: Result<seq<int>, LabelError>)
    requires |data| == Width(columns)
    ensures var n := Normalize(columns);
      match Resolve(LowerAll(n.names), CloseCandidates)
      case None => r == Err(NoCloseColumn)
      case Some(k) => k < |n.source| && n.source[k] < |data| && r == Ok(ForwardUpLabels(data[n.source[k]], horizonBars))
  {
    var n := Normalize(columns);
    NormalizeSpec(columns);
    var c := FindCol(n.names, CloseCandidates);
    if c.None? {
      return Err(NoCloseColumn);
    }
    r := Ok(ForwardUpLabels(data[n.source[c.value]], horizonBars));
  }
}
