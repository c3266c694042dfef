/**
 * link_swing_options.py: attach to every swing signal the two best option
 * records of its symbol, preferring calls for long swings and puts otherwise.
 * Reading and writing the JSON files is left to the caller.
 */
module LinkSwingOptions {
  import opened Wrappers
  import opened Text
  import opened Numeric
  import opened Sorting
  import RunSwing

  /**
   * An option record of options.json. A key field (underlying, symbol,
   * root) that is missing, null or empty is "", since all three are falsy
   * in the source; `optType` is o.get("type", ""), with a missing type as "";
   * the numeric fields are absent or a number. A null type or numeric field
   * raises in the source and is not represented.
   */
  datatype OptionRecord = OptionRecord(
    underlying: string, symbol: string, root: string, optType: string,
    delta: Option<real>, dteDays: Option<real>, spread: Option<real>)

  /** closer to 0.65 delta is better */
  function DeltaTerm(delta: real): real {
    1.0 - Abs(Abs(delta) - 0.65)
  }

  /** nearer expiry is better, up to 30 days */
  function DteTerm(dte: real): real {
    1.0 - Min(dte, 30.0) / 30.0
  }

  /** tighter spread is better, up to 0.4 */
  function SpreadTerm(spread: real): real {
    1.0 - Min(spread, 0.4) / 0.4
  }

  /** score_option, with the defaults delta 0, dte 30 and spread 0.2 for missing fields. */
  function ScoreOption(o: OptionRecord): real {
    var delta := Abs(o.delta.GetOr(0.0));
    var dte := o.dteDays.GetOr(30.0);
    var spread := o.spread.GetOr(0.2);
    0.5 * DeltaTerm(delta) + 0.3 * DteTerm(dte) + 0.2 * SpreadTerm(spread)
  }

  /** Only |delta| matters: a PUT at -d scores as a CALL at +d. */
  lemma ScoreSymmetricInDelta(o: OptionRecord, d: real)
    ensures ScoreOption(o.(optType := "PUT", delta := Some(-d))) == ScoreOption(o.(optType := "CALL", delta := Some(d)))
  {
  }

  /** For non-negative dte and spread both terms lie in [0, 1], and vanish past 30 days and 0.4. */
  lemma TermsInUnitInterval(dte: real, spread: real)
    requires dte >= 0.0 && spread >= 0.0
    ensures 0.0 <= DteTerm(dte) <= 1.0 && 0.0 <= SpreadTerm(spread) <= 1.0
    ensures dte >= 30.0 ==> DteTerm(dte) == 0.0
    ensures spread >= 0.4 ==> SpreadTerm(spread) == 0.0
  {
  }

  /**
   * With non-negative dte and spread the score is at most 1.0, reached
   * exactly at |delta| = 0.65, dte 0 and spread 0.
   */
  lemma ScorePeak(o: OptionRecord)
    requires o.dteDays.GetOr(30.0) >= 0.0 && o.spread.GetOr(0.2) >= 0.0
    ensures ScoreOption(o) <= 1.0
    ensures ScoreOption(o) == 1.0 <==>
      Abs(o.delta.GetOr(0.0)) == 0.65 && o.dteDays.GetOr(30.0) == 0.0 && o.spread.GetOr(0.2) == 0.0
  {
  }

  /** A record with no dte gets a dte term of 0; one with no fields at all scores 0.275. */
  lemma MissingFieldDefaults(o: OptionRecord)
    ensures o.dteDays.None? ==> DteTerm(o.dteDays.GetOr(30.0)) == 0.0
    ensures o.delta.None? && o.dteDays.None? && o.spread.None? ==> ScoreOption(o) == 0.275
  {
  }

  /** o.get("underlying") or o.get("symbol") or o.get("root"), upper-cased; None drops the record. */
  function SymbolKey(o: OptionRecord): Option<string> {
    if o.underlying != "" then Some(Upper(o.underlying))
    else if o.symbol != "" then Some(Upper(o.symbol))
    else if o.root != "" then Some(Upper(o.root))
    else None
  }

  /** The options of one (upper-cased) symbol, in input order. */
  function Group(opts: seq<OptionRecord>, sym: string): seq<OptionRecord> {
    Filter(opts, (o: OptionRecord) => SymbolKey(o) == Some(sym))
  }

  /** by_sym: built with setdefault(...).append in one pass over the options. */
  method IndexBySymbol(opts: seq<OptionRecord>) returns (bySym: map<string, seq<OptionRecord>>)
    ensures forall k :: k in bySym <==> Group(opts, k) != []
    ensures forall k :: k in bySym ==> bySym[k] == Group(opts, k)
  {
    bySym := map[];
    for i := 0 to |opts|
      invariant forall k :: k in bySym <==> Group(opts[..i], k) != []
      invariant forall k :: k in bySym ==> bySym[k] == Group(opts[..i], k)
    {
      var o := opts[i];
      assert opts[..i + 1] == opts[..i] + [o];
      forall k ensures Group(opts[..i + 1], k) == Group(opts[..i], k) + (if SymbolKey(o) == Some(k) then [o] else []) {
        FilterAppend(opts[..i], o, o' => SymbolKey(o') == Some(k));
      }
      var key := SymbolKey(o);
      if key.None? {
        continue;
      }
      var sym := key.value;
      bySym := bySym[sym := (if sym in bySym then bySym[sym] else []) + [o]];
    }
    assert opts[..|opts|] == opts;
  }

  /** The "symbol" entry of a swing: absent, present but null or not a string, or a string. */
  datatype SymbolField = NoKey | NotAString | Str(value: string)

  /**
   * A swing signal: its symbol entry, its direction if the key is present,
   * and the rest of its string fields. A null direction is present and not
   * "LONG", so it is written Some("") here and chooses puts, as in the source.
   */
  datatype Swing = Swing(symbol: SymbolField, direction: Option<string>, fields: map<string, string>)

  /**
   * s["symbol"].upper() raises KeyError for a swing without the key and
   * AttributeError for a null or non-string one; `at` is the swing's index.
   */
  datatype LinkError = KeyError(at: nat) | AttributeError(at: nat)

  /** The output row: the swing with best_options added. */
  datatype LinkedRow = LinkedRow(swing: Swing, bestOptions: seq<OptionRecord>)

  /** "CALL" for direction "LONG" (the default), "PUT" for anything else. */
  function WantedSide(s: Swing): string {
    if s.direction.GetOr("LONG") == "LONG" then "CALL" else "PUT"
  }

  function OfSide(cands: seq<OptionRecord>, side: string): seq<OptionRecord> {
    Filter(cands, (o: OptionRecord) => Upper(o.optType) == side)
  }

  /** The candidates on the wanted side, or all of them when there are none. */
  function Pool(cands: seq<OptionRecord>, side: string): seq<OptionRecord> {
    var filt := OfSide(cands, side);
    if filt == [] then cands else filt
  }

  /** The best two of the pool by score, best first (stable on ties). */
  function Choose(cands: seq<OptionRecord>, side: string): seq<OptionRecord> {
    Take(SortDesc(Pool(cands, side), ScoreOption), 2)
  }

  /** best_options for one swing that carries a string symbol. */
  function BestFor(s: Swing, opts: seq<OptionRecord>): seq<OptionRecord>
    requires s.symbol.Str?
  {
    var cands := Group(opts, Upper(s.symbol.value));
    if cands == [] then [] else Choose(cands, WantedSide(s))
  }

  /**
   * In the fallback case the source sorts the dictionary's own list in
   * place, so later swings of the same symbol see it sorted. That changes
   * nothing: a stably sorted list yields the same choice as the original.
   */
  lemma SortedCandidatesChooseAlike(cands: seq<OptionRecord>, side: string)
    ensures var sorted := SortDesc(cands, ScoreOption);
      (sorted == [] <==> cands == []) &&
      (OfSide(sorted, side) == [] <==> OfSide(cands, side) == []) &&
      Choose(sorted, side) == Choose(cands, side)
  {
    var key := ScoreOption;
    var sorted := SortDesc(cands, key);
    var p := (o: OptionRecord) => Upper(o.optType) == side;
    FilterSortCommute(cands, key, p);
    var filt := OfSide(cands, side);
    assert OfSide(sorted, side) == SortDesc(filt, key);
    SortDescSorted(filt, key);
    SortDescOfSorted(SortDesc(filt, key), key);
    SortDescSorted(cands, key);
    SortDescOfSorted(sorted, key);
  }

  /** The list by_sym holds for a symbol is its group, or the group after the fallback's in-place sort. */
  lemma StoredListChoosesAlike(cands: seq<OptionRecord>, group: seq<OptionRecord>, side: string)
    requires cands == group || cands == SortDesc(group, ScoreOption)
    ensures (cands == [] <==> group == [])
    ensures (OfSide(cands, side) == [] <==> OfSide(group, side) == [])
    ensures Choose(cands, side) == Choose(group, side)
    ensures SortDesc(cands, ScoreOption) == SortDesc(group, ScoreOption)
  {
    SortedCandidatesChooseAlike(group, side);
    SortDescSorted(group, ScoreOption);
    SortDescOfSorted(SortDesc(group, ScoreOption), ScoreOption);
  }

  /** Every list by_sym holds is its symbol's group, possibly sorted. */
  ghost predicate Stored(bySym: map<string, seq<OptionRecord>>, opts: seq<OptionRecord>) {
    && (forall k :: k in bySym <==> Group(opts, k) != [])
    && (forall k :: k in bySym ==>
        bySym[k] == Group(opts, k) || bySym[k] == SortDesc(Group(opts, k), ScoreOption))
  }

  lemma StoredAfterResort(bySym: map<string, seq<OptionRecord>>, opts: seq<OptionRecord>, sym: string)
    requires Stored(bySym, opts) && sym in bySym
    ensures Stored(bySym[sym := SortDesc(Group(opts, sym), ScoreOption)], opts)
  {
  }

  /** Every swing carries a string symbol. */
  predicate AllKeyed(swings: seq<Swing>) {
    forall i :: 0 <= i < |swings| ==> swings[i].symbol.Str?
  }

  /**
   * main's loop as a specification: the rows of the swings in order, or the
   * error of the first swing whose symbol cannot be upper-cased, in which
   * case main ends before anything is written.
   */
  function Linked(swings: seq<Swing>, opts: seq<OptionRecord>): Result<seq<LinkedRow>, LinkError>
    decreases |swings|
  {
    if swings == [] then Ok([])
    else
      var n := |swings| - 1;
      var prior := Linked(swings[..n], opts);
      if prior.Err? then prior
      else match swings[n].symbol
        case NoKey => Err(KeyError(n))
        case NotAString => Err(AttributeError(n))
        case Str(_) => Ok(prior.value + [LinkedRow(swings[n], BestFor(swings[n], opts))])
  }

  /**
   * The run fails iff some swing has no string symbol; the error names the
   * first such swing and says which of the two it is. Otherwise there is one
   * row per swing, in order, with its best_options.
   */
  lemma LinkedSpec(swings: seq<Swing>, opts: seq<OptionRecord>)
    ensures Linked(swings, opts).Err? <==> !AllKeyed(swings)
    ensures Linked(swings, opts).Err? ==> var k := Linked(swings, opts).error.at;
      && k < |swings| && !swings[k].symbol.Str? && AllKeyed(swings[..k])
      && (Linked(swings, opts).error.KeyError? <==> swings[k].symbol.NoKey?)
    ensures Linked(swings, opts).Ok? ==> var rows := Linked(swings, opts).value;
      && |rows| == |swings|
      && forall i :: 0 <= i < |swings| ==> rows[i] == LinkedRow(swings[i], BestFor(swings[i], opts))
  {
    LinkedErr(swings, opts);
    LinkedOk(swings, opts);
  }

  lemma {:induction false} LinkedErr(swings: seq<Swing>, opts: seq<OptionRecord>)
    ensures Linked(swings, opts).Err? ==> var k := Linked(swings, opts).error.at;
      && k < |swings| && !swings[k].symbol.Str? && AllKeyed(swings[..k])
      && (Linked(swings, opts).error.KeyError? <==> swings[k].symbol.NoKey?)
    ensures AllKeyed(swings) ==> Linked(swings, opts).Ok?
  {
    if swings != [] {
      var n := |swings| - 1;
      var pre := swings[..n];
      LinkedErr(pre, opts);
      var p := Linked(pre, opts);
      if p.Err? {
        var k := p.error.at;
        assert Linked(swings, opts) == p;
        assert pre[k] == swings[k];
        assert pre[..k] == swings[..k];
      } else {
        LinkedOk(pre, opts);
        assert AllKeyed(pre);
      }
    }
  }

  lemma {:induction false} LinkedOk(swings: seq<Swing>, opts: seq<OptionRecord>)
    ensures Linked(swings, opts).Ok? ==> var rows := Linked(swings, opts).value;
      && |rows| == |swings| && AllKeyed(swings)
      && forall i :: 0 <= i < |swings| ==> rows[i] == LinkedRow(swings[i], BestFor(swings[i], opts))
  {
    if swings != [] && Linked(swings, opts).Ok? {
      var n := |swings| - 1;
      var pre := swings[..n];
      LinkedOk(pre, opts);
      var p := Linked(pre, opts);
      assert p.Ok?;
      assert swings[n].symbol.Str?;
      var rows := Linked(swings, opts).value;
      assert rows == p.value + [LinkedRow(swings[n], BestFor(swings[n], opts))];
      forall i | 0 <= i < |swings|
        ensures swings[i].symbol.Str? && rows[i] == LinkedRow(swings[i], BestFor(swings[i], opts))
      {
        if i < n {
          assert pre[i] == swings[i];
        }
      }
    }
  }

  /** Once a prefix of the swings fails, the whole run fails with that error. */
  lemma {:induction false} LinkedErrSticks(swings: seq<Swing>, opts: seq<OptionRecord>, k: nat)
    requires k <= |swings| && Linked(swings[..k], opts).Err?
    ensures Linked(swings, opts) == Linked(swings[..k], opts)
    decreases |swings|
  {
    if k < |swings| {
      var n := |swings| - 1;
      var pre := swings[..n];
      assert pre[..k] == swings[..k];
      LinkedErrSticks(pre, opts, k);
      assert Linked(pre, opts).Err?;
      assert Linked(swings, opts) == Linked(pre, opts);
    } else {
      assert swings[..k] == swings;
    }
  }

  /** One iteration of main's loop, given the list by_sym holds for the swing's symbol. */
  method LinkOne(s: Swing, cands: seq<OptionRecord>) returns (best: seq<OptionRecord>, resorted: Option<seq<OptionRecord>>)
    requires s.symbol.Str?
    ensures cands == [] ==> best == [] && resorted.None?
    ensures cands != [] ==> best == Choose(cands, WantedSide(s))
    ensures resorted.Some? ==> resorted.value == SortDesc(cands, ScoreOption)
  {
    resorted := None;
    if cands == [] {
      return [], None;
    }
    var side := WantedSide(s);
    var filt := OfSide(cands, side);
    if filt == [] {
      // fallback to any: this list is the dictionary's own, sorted in place
      filt := cands;
      resorted := Some(SortDesc(filt, ScoreOption));
    }
    var sorted := SortDesc(filt, ScoreOption);
    best := Take(sorted, 2);
  }

  /**
   * main's loop over the swings, with by_sym updated by the in-place sort of
   * the fallback case. A swing whose symbol cannot be upper-cased ends the
   * run with its error, and then no row is written.
   */
  method Link(swings: seq<Swing>, opts: seq<OptionRecord>) returns (out: Result<seq<LinkedRow>, LinkError>)
    ensures out == Linked(swings, opts)
    ensures out.Err? <==> !AllKeyed(swings)
    ensures out.Err? ==> out.error.at < |swings| && !swings[out.error.at].symbol.Str? && AllKeyed(swings[..out.error.at])
    ensures out.Ok? ==> (|out.value| == |swings| &&
      forall i :: 0 <= i < |swings| ==> out.value[i] == LinkedRow(swings[i], BestFor(swings[i], opts)))
  {
    var bySym := IndexBySymbol(opts);
    var rows := [];
    for i := 0 to |swings|
      invariant Linked(swings[..i], opts) == Ok(rows)
      invariant Stored(bySym, opts)
    {
      var s := swings[i];
      assert swings[..i + 1][..i] == swings[..i];
      if !s.symbol.Str? {
        out := if s.symbol.NoKey? then Err(KeyError(i)) else Err(AttributeError(i));
        assert Linked(swings[..i + 1], opts) == out;
        LinkedErrSticks(swings, opts, i + 1);
        LinkedSpec(swings, opts);
        return;
      }
      var sym := Upper(s.symbol.value);
      var cands := if sym in bySym then bySym[sym] else [];
      ghost var group := Group(opts, sym);
      assert cands == group || cands == SortDesc(group, ScoreOption);
      StoredListChoosesAlike(cands, group, WantedSide(s));
      var best, resorted := LinkOne(s, cands);
      if resorted.Some? {
        assert sym in bySym;
        StoredAfterResort(bySym, opts, sym);
        assert resorted.value == SortDesc(group, ScoreOption);
        bySym := bySym[sym := resorted.value];
      }
      assert best == BestFor(s, opts);
      rows := rows + [LinkedRow(s, best)];
    }
    assert swings[..|swings|] == swings;
    out := Ok(rows);
    LinkedSpec(swings, opts);
  }

  /**
   * main: a missing swing file yields []; a missing options file counts as
   * no options; otherwise the linked rows, or the error that ends main.
   */
  method LinkFiles(swingFile: Option<seq<Swing>>, optFile: Option<seq<OptionRecord>>) returns (out: Result<seq<LinkedRow>, LinkError>)
    ensures swingFile.None? ==> out == Ok([])
    ensures swingFile.Some? ==> out == Linked(swingFile.value, optFile.GetOr([]))
    ensures swingFile.Some? ==> (out.Err? <==> !AllKeyed(swingFile.value))
    ensures swingFile.Some? && out.Ok? ==> (|out.value| == |swingFile.value| &&
      forall i :: 0 <= i < |out.value| ==> out.value[i] == LinkedRow(swingFile.value[i], BestFor(swingFile.value[i], optFile.GetOr([]))))
  {
    if swingFile.None? {
      return Ok([]);
    }
    out := Link(swingFile.value, optFile.GetOr([]));
  }

  /**
   * A row of run_swing.py's feed as this script reads it: the symbol sits
   * under "ticker", there is no "symbol" and no "direction" key; the
   * numeric fields are not represented.
   */
  function FeedRow(sig: RunSwing.SwingSignal): Swing {
    Swing(NoKey, None, map["ticker" := sig.ticker, "timeframe" := "1d-swing", "strategy" := "EMA trend + retest"])
  }

  function Feed(sigs: seq<RunSwing.SwingSignal>): seq<Swing> {
    seq(|sigs|, i requires 0 <= i < |sigs| => FeedRow(sigs[i]))
  }

  /** As written: any non-empty feed of run_swing.py ends main with a KeyError at its first row. */
  lemma FeedRaisesAsWritten(sigs: seq<RunSwing.SwingSignal>, opts: seq<OptionRecord>)
    requires sigs != []
    ensures Linked(Feed(sigs), opts) == Err(KeyError(0))
  {
    var f := Feed(sigs);
    LinkedSpec(f, opts);
    assert f[..1] == [f[0]];
    assert f[..1][..0] == [];
    LinkedErrSticks(f, opts, 1);
  }

  /** The evidently intended key: "symbol" when present, else "ticker". */
  function WithTicker(s: Swing): Swing {
    if s.symbol.NoKey? && "ticker" in s.fields then s.(symbol := Str(s.fields["ticker"])) else s
  }

  /** The corrected linker: main's loop over the swings read with WithTicker. */
  function LinkedFixed(swings: seq<Swing>, opts: seq<OptionRecord>): Result<seq<LinkedRow>, LinkError> {
    Linked(seq(|swings|, i requires 0 <= i < |swings| => WithTicker(swings[i])), opts)
  }

  /**
   * Corrected: the feed of run_swing.py links, one row per signal in order,
   * each with the best options of its ticker.
   */
  lemma FeedLinksWhenFixed(sigs: seq<RunSwing.SwingSignal>, opts: seq<OptionRecord>)
    ensures LinkedFixed(Feed(sigs), opts).Ok?
    ensures var rows := LinkedFixed(Feed(sigs), opts).value;
      && |rows| == |sigs|
      && forall i :: 0 <= i < |sigs| ==>
        rows[i].swing.symbol == Str(sigs[i].ticker) &&
        rows[i].bestOptions == BestFor(WithTicker(FeedRow(sigs[i])), opts)
  {
    var f := Feed(sigs);
    var g := seq(|f|, i requires 0 <= i < |f| => WithTicker(f[i]));
    forall i | 0 <= i < |sigs|
      ensures g[i] == WithTicker(FeedRow(sigs[i])) && g[i].symbol == Str(sigs[i].ticker)
    {
    }
    assert AllKeyed(g);
    LinkedErr(g, opts);
    LinkedOk(g, opts);
  }

  /** Records without any of underlying, symbol or root never reach a swing. */
  lemma KeylessRecordsDropped(opts: seq<OptionRecord>, s: Swing, o: OptionRecord)
    requires s.symbol.Str? && SymbolKey(o).None?
    ensures o !in BestFor(s, opts)
  {
    var cands := Group(opts, Upper(s.symbol.value));
    if cands != [] {
      var side := WantedSide(s);
      var pool := Pool(cands, side);
      assert o !in cands;
      assert o !in pool;
      var sorted := SortDesc(pool, ScoreOption);
      assert multiset(sorted)[o] == multiset(pool)[o] == 0;
      assert o !in sorted;
      assert Take(sorted, 2) == sorted[..|Take(sorted, 2)|];
    }
  }

  /** A swing whose symbol has no options gets best_options = []. */
  lemma NoCandidatesNoOptions(opts: seq<OptionRecord>, s: Swing)
    requires s.symbol.Str?
    requires forall o :: o in opts ==> SymbolKey(o) != Some(Upper(s.symbol.value))
    ensures BestFor(s, opts) == []
  {
    FilterKeepsAll(opts, o => SymbolKey(o) == Some(Upper(s.symbol.value)));
  }

  /** Choose keeps at most two records of the pool, best first, dominating the rest of the pool. */
  lemma ChooseSpec(cands: seq<OptionRecord>, side: string)
    ensures var best := Choose(cands, side);
      var pool := Pool(cands, side);
      && |best| == (if |pool| <= 2 then |pool| else 2)
      && (forall i, j :: 0 <= i < j < |best| ==> ScoreOption(best[i]) >= ScoreOption(best[j]))
      && (forall b :: b in best ==> b in pool)
      && (forall x, b :: x in pool && x !in best && b in best ==> ScoreOption(b) >= ScoreOption(x))
  {
    TakeDominates(Pool(cands, side), ScoreOption, 2);
  }

  /** The pool is the wanted side when that side has candidates, else all candidates. */
  lemma PoolSpec(cands: seq<OptionRecord>, side: string)
    ensures forall x :: x in Pool(cands, side) ==> x in cands
    ensures OfSide(cands, side) != [] ==> forall x :: x in Pool(cands, side) ==> Upper(x.optType) == side
    ensures OfSide(cands, side) == [] ==> Pool(cands, side) == cands
  {
  }

  /**
   * best_options: at most two records of the swing's symbol, in non-increasing
   * score order, all on the wanted side whenever some candidate is, and
   * no candidate of the pool that was left out scores above a chosen one.
   */
  lemma BestForSpec(s: Swing, opts: seq<OptionRecord>)
    requires s.symbol.Str?
    ensures var best := BestFor(s, opts);
      var cands := Group(opts, Upper(s.symbol.value));
      var side := WantedSide(s);
      && |best| == (if |Pool(cands, side)| <= 2 then |Pool(cands, side)| else 2)
      && (forall i, j :: 0 <= i < j < |best| ==> ScoreOption(best[i]) >= ScoreOption(best[j]))
      && (forall b :: b in best ==> b in cands && SymbolKey(b) == Some(Upper(s.symbol.value)))
      && (OfSide(cands, side) != [] ==> forall b :: b in best ==> Upper(b.optType) == side)
      && (forall x, b :: x in Pool(cands, side) && x !in best && b in best ==> ScoreOption(b) >= ScoreOption(x))
  {
    var cands := Group(opts, Upper(s.symbol.value));
    var side := WantedSide(s);
    ChooseSpec(cands, side);
    PoolSpec(cands, side);
    if cands == [] {
      assert Pool(cands, side) == [];
    }
  }
}
