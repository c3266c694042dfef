/**
 * generate_signals.py: the opening-range breakout idea for today's 15-minute
 * bars, the collection of ideas over the equity and crypto lists, and the
 * mock fallback that keeps the payload from being empty. The download, the
 * EMA values, today's date and the clock are inputs; prices are not rounded.
 */
module GenerateSignals {
  import opened Wrappers
  import opened Numeric
  import opened Sorting
  import Featurize

  type Bar = Featurize.Bar

  const EquityTickers: seq<string> :=
    ["SPY", "QQQ", "NVDA", "AAPL", "MSFT", "META", "TSLA", "AMD", "AMZN", "GOOGL", "NFLX", "MU", "SMCI", "AVGO"]
  const CryptoTickers: seq<string> :=
    ["BTC-USD", "ETH-USD", "SOL-USD", "XRP-USD", "DOGE-USD", "ADA-USD", "AVAX-USD", "LINK-USD", "LTC-USD", "DOT-USD"]

  /** ORB_BARS: the first 90 minutes, six 15-minute bars. */
  const OrbBars: nat := 6
  /** RR_DEFAULT */
  const RrDefault: real := 2.0

  /** An intraday idea, the dictionary orb_signal_for_today or the fallback builds. */
  datatype Signal = Signal(
    symbol: string, kind: string, strategy: string,
    entry: real, stop: real, rr: real, target: real, reason: string)

  /** The bars of one date, in order (df[df.index.date == today]). */
  function BarsOn(bars: seq<Bar>, today: int): seq<Bar> {
    Filter(bars, (b: Bar) => b.date == today)
  }

  /**
   * orb_signal_for_today: no idea with fewer than 7 bars today; otherwise a
   * breakout idea iff the last bar closes above the high of the first six
   * and EMA10 is above EMA20 at the last bar of the whole download.
   */
  function OrbSignalForToday(bars: seq<Bar>, symbol: string, today: int, ema10Last: real, ema20Last: real): Option<Signal> {
    var day := BarsOn(bars, today);
    if |day| < OrbBars + 1 then None
    else
      var first := day[..OrbBars];
      var orbHigh := MaxOf(ColumnOf(first, (b: Bar) => b.high));
      var orbLow := MinOf(ColumnOf(first, (b: Bar) => b.low));
      var last := day[|day| - 1];
      var bullTrend := ema10Last > ema20Last;
      if last.close > orbHigh && bullTrend then
        var entry := orbHigh;
        var stop := orbLow;
        var rr := RrDefault;
        var risk := Max(entry - stop, 0.0);
        Some(Signal(symbol, "intraday", "ORB/EMA 15m", entry, stop, rr, entry + rr * risk,
                    "ORB breakout confirmed with EMA10>EMA20."))
      else None
  }

  /**
   * The idea's shape: it needs 7 bars today, exists exactly when the last
   * close beats the opening high and EMA10 > EMA20; entry and stop are the
   * opening high and low, the risk is non-negative and the target 2R above entry.
   */
  lemma OrbSignalSpec(bars: seq<Bar>, symbol: string, today: int, e10: real, e20: real)
    ensures var day := BarsOn(bars, today);
      var s := OrbSignalForToday(bars, symbol, today, e10, e20);
      && (|day| < 7 ==> s.None?)
      && (|day| >= 7 ==>
        (s.Some? <==> day[|day| - 1].close > MaxOf(ColumnOf(day[..6], (b: Bar) => b.high)) && e10 > e20))
      && (s.Some? ==>
        && s.value.symbol == symbol
        && s.value.entry == MaxOf(ColumnOf(day[..6], (b: Bar) => b.high)) && s.value.stop == MinOf(ColumnOf(day[..6], (b: Bar) => b.low))
        && (forall k :: 0 <= k < 6 ==> day[k].low >= s.value.stop && day[k].high <= s.value.entry)
        && s.value.rr == 2.0
        && s.value.target == s.value.entry + 2.0 * Max(s.value.entry - s.value.stop, 0.0)
        && s.value.target >= s.value.entry
        && (s.value.entry >= s.value.stop ==> s.value.target - s.value.entry == 2.0 * (s.value.entry - s.value.stop)))
  {
  }

  /** What one ticker's download gave: nothing (the download raised), or its bars and last EMA values. */
  datatype Fetched = Fetched(bars: seq<Bar>, ema10Last: real, ema20Last: real)

  /** The ideas of a ticker list, in list order; a failed download gives none. */
  function Ideas(tickers: seq<string>, fetched: string -> Option<Fetched>, today: int): seq<Signal> {
    if tickers == [] then []
    else
      Ideas(tickers[..|tickers| - 1], fetched, today) + IdeaOf(tickers[|tickers| - 1], fetched, today)
  }

  /** One ticker's contribution: its idea, if its download succeeded and gave one. */
  function IdeaOf(t: string, fetched: string -> Option<Fetched>, today: int): seq<Signal> {
    var f := fetched(t);
    var idea := if f.None? then None else OrbSignalForToday(f.value.bars, t, today, f.value.ema10Last, f.value.ema20Last);
    if idea.Some? then [idea.value] else []
  }

  lemma {:induction false} IdeasAppend(a: seq<string>, b: seq<string>, fetched: string -> Option<Fetched>, today: int)
    ensures Ideas(a + b, fetched, today) == Ideas(a, fetched, today) + Ideas(b, fetched, today)
  {
    if b == [] {
      assert a + b == a;
    } else {
      var b' := b[..|b| - 1];
      assert (a + b)[..|a + b| - 1] == a + b';
      assert (a + b)[|a + b| - 1] == b[|b| - 1];
      IdeasAppend(a, b', fetched, today);
    }
  }

  /** At most one idea per ticker, each for its own ticker. */
  lemma {:induction false} IdeasBound(tickers: seq<string>, fetched: string -> Option<Fetched>, today: int)
    ensures |Ideas(tickers, fetched, today)| <= |tickers|
    ensures forall s :: s in Ideas(tickers, fetched, today) ==> s.symbol in tickers
  {
    if tickers != [] {
      var init := tickers[..|tickers| - 1];
      IdeasBound(init, fetched, today);
      forall s | s in Ideas(init, fetched, today) ensures s.symbol in tickers {
        var k :| 0 <= k < |init| && init[k] == s.symbol;
        assert tickers[k] == s.symbol;
      }
    }
  }

  /** The fallback rows. */
  const MockSignals: seq<Signal> := [
    Signal("SPY", "intraday", "ORB/EMA 15m", 505.20, 502.80, 2.0, 509.60, "Fallback sample."),
    Signal("BTC-USD", "intraday", "ORB/EMA 15m", 64250.0, 63600.0, 3.0, 66150.0, "Fallback sample.")]

  /** The payload dictionary, updated in place by ensure_not_empty. */
  class Payload {
    var asof: string
    var source: string
    var count: int
    var signals: seq<Signal>
    var note: Option<string>

    /** count matches the signals. */
    predicate Consistent()
      reads this
    {
      count == |signals|
    }

    constructor (asof: string, ideas: seq<Signal>)
      ensures this.asof == asof && source == "yfinance" && count == |ideas| && signals == ideas && note == None
      ensures Consistent()
    {
      this.asof := asof;
      source := "yfinance";
      count := |ideas|;
      signals := ideas;
      note := None;
    }

    /** ensure_not_empty: a payload with signals is kept; otherwise the two mock rows replace them. */
    method EnsureNotEmpty()
      modifies this
      ensures old(count) > 0 ==> count == old(count) && signals == old(signals) && note == old(note)
      ensures old(count) <= 0 ==> signals == MockSignals && count == 2 && note == Some("fallback_mock_used")
      ensures asof == old(asof) && source == old(source)
      ensures count >= 1
      ensures old(Consistent()) ==> Consistent()
    {
      if count > 0 {
        return;
      }
      signals := MockSignals;
      count := |MockSignals|;
      note := Some("fallback_mock_used");
    }
  }

  lemma IdeasStep(prior: seq<Signal>, tickers: seq<string>, i: nat, fetched: string -> Option<Fetched>, today: int)
    requires i < |tickers|
    ensures prior + Ideas(tickers[..i + 1], fetched, today) == (prior + Ideas(tickers[..i], fetched, today)) + IdeaOf(tickers[i], fetched, today)
  {
    var init, t := tickers[..i], tickers[i];
    assert tickers[..i + 1] == init + [t];
    assert (init + [t])[..|init|] == init;
    assert Ideas(init + [t], fetched, today) == Ideas(init, fetched, today) + IdeaOf(t, fetched, today);
  }

  /** The for-loop of build_signals over one ticker list. */
  method CollectIdeas(tickers: seq<string>, fetched: string -> Option<Fetched>, today: int, prior: seq<Signal>) returns (ideas: seq<Signal>)
    ensures ideas == prior + Ideas(tickers, fetched, today)
  {
    ideas := prior;
    for i := 0 to |tickers|
      invariant ideas == prior + Ideas(tickers[..i], fetched, today)
    {
      IdeasStep(prior, tickers, i, fetched, today);
      ideas := ideas + IdeaOf(tickers[i], fetched, today);
    }
    assert tickers[..|tickers|] == tickers;
  }

  /** build_signals: the equities' ideas, then the crypto ones; count is the number collected. */
  method BuildSignals(fetched: string -> Option<Fetched>, today: int, asof: string) returns (p: Payload)
    ensures fresh(p)
    ensures p.signals == Ideas(EquityTickers + CryptoTickers, fetched, today)
    ensures p.count == |p.signals| && p.asof == asof && p.source == "yfinance" && p.note == None
  {
    var ideas := CollectIdeas(EquityTickers, fetched, today, []);
    ideas := CollectIdeas(CryptoTickers, fetched, today, ideas);
    IdeasAppend(EquityTickers, CryptoTickers, fetched, today);
    p := new Payload(asof, ideas);
  }

  /** The script's main: the payload written is never empty. */
  method RunScript(fetched: string -> Option<Fetched>, today: int, asof: string) returns (p: Payload)
    ensures fresh(p) && p.count >= 1 && p.Consistent()
    ensures var ideas := Ideas(EquityTickers + CryptoTickers, fetched, today);
      (ideas != [] ==> p.signals == ideas && p.note == None) &&
      (ideas == [] ==> p.signals == MockSignals && p.note == Some("fallback_mock_used"))
  {
    p := BuildSignals(fetched, today, asof);
    p.EnsureNotEmpty();
  }
}
