/**
 * options_picker.py: for every underlying of a fixed list, build a synthetic
 * four-leg option chain around its last price and keep the best two legs by
 * score. The price lookup and the clock are parameters; the JSON and CSV
 * writes are left to the caller.
 */
module OptionsPicker {
  import opened Wrappers
  import opened Numeric
  import opened Sorting
  import Text
  import LinkSwingOptions

  /** UNDR, in the order main visits it. */
  const Underlyings: seq<string> :=
    ["SPY", "QQQ", "NVDA", "AAPL", "MSFT", "META", "TSLA", "AMD", "AMZN", "GOOGL", "NFLX", "MU", "SMCI", "AVGO"]

  /** One synthetic option leg, the dictionary make_pick builds. */
  datatype Pick = Pick(
    underlying: string, optType: string, dteDays: real, delta: real,
    mark: real, spread: real, asof: string)

  /** make_pick: the underlying's price is accepted and not stored; asof is the clock's reading. */
  function MakePick(sym: string, side: string, undPrice: real, dteDays: real, delta: real,
                    premium: real, spread: real, asof: string): (p: Pick)
    ensures p.underlying == sym && p.optType == side && p.dteDays == dteDays
    ensures p.delta == delta && p.mark == premium && p.spread == spread && p.asof == asof
  {
    Pick(sym, side, dteDays, delta, premium, spread, asof)
  }

  /** The leg does not depend on the underlying's price passed to make_pick. */
  lemma MakePickIgnoresPrice(sym: string, side: string, u1: real, u2: real, dteDays: real,
                             delta: real, premium: real, spread: real, asof: string)
    ensures MakePick(sym, side, u1, dteDays, delta, premium, spread, asof)
         == MakePick(sym, side, u2, dteDays, delta, premium, spread, asof)
  {
  }

  /** score: the same three terms as the linker's score, on fields that are always present. */
  function Score(p: Pick): real {
    0.5 * (1.0 - Abs(Abs(p.delta) - 0.65))
      + 0.3 * (1.0 - Min(p.dteDays, 30.0) / 30.0)
      + 0.2 * (1.0 - Min(p.spread, 0.4) / 0.4)
  }

  /** The record the linker reads back from options.json for a pick. */
  function AsRecord(p: Pick): LinkSwingOptions.OptionRecord {
    LinkSwingOptions.OptionRecord(p.underlying, "", "", p.optType, Some(p.delta), Some(p.dteDays), Some(p.spread))
  }

  /** The picker and the linker rank a leg alike. */
  lemma ScoreAgreesWithLinker(p: Pick)
    ensures Score(p) == LinkSwingOptions.ScoreOption(AsRecord(p))
    ensures LinkSwingOptions.SymbolKey(AsRecord(p)) == (if p.underlying == "" then None else Some(Text.Upper(p.underlying)))
  {
  }

  /** With non-negative dte and spread the score is at most 1.0. */
  lemma ScoreAtMostOne(p: Pick)
    requires p.dteDays >= 0.0 && p.spread >= 0.0
    ensures Score(p) <= 1.0
  {
    ScoreAgreesWithLinker(p);
    LinkSwingOptions.ScorePeak(AsRecord(p));
  }

  /** The crude at-the-money premium guess. */
  function AtmPremium(price: real): (a: real)
    ensures a >= 0.5 && a >= 0.03 * price
    ensures a == 0.5 || a == 0.03 * price
  {
    Max(0.5, 0.03 * price)
  }

  /**
   * synthetic_chain: no legs without a price; otherwise two calls and two
   * puts at 14 days, deltas 0.70, 0.60, -0.60, -0.70.
   */
  function SyntheticChain(sym: string, price: Option<real>, asof: string): seq<Pick> {
    if price.None? then []
    else
      var p := price.value;
      var dte := 14.0;
      var atm := AtmPremium(p);
      [ MakePick(sym, "CALL", p, dte, 0.70, atm * 1.1, 0.05 * atm, asof),
        MakePick(sym, "CALL", p, dte, 0.60, atm * 0.9, 0.06 * atm, asof),
        MakePick(sym, "PUT", p, dte, -0.60, atm * 1.0, 0.06 * atm, asof),
        MakePick(sym, "PUT", p, dte, -0.70, atm * 1.2, 0.05 * atm, asof) ]
  }

  /** The shape of the chain, leg by leg. */
  lemma ChainShape(sym: string, price: Option<real>, asof: string)
    ensures var c := SyntheticChain(sym, price, asof);
      && (price.None? <==> c == [])
      && (price.Some? ==>
        var atm := Max(0.5, 0.03 * price.value);
        && |c| == 4
        && c[0].optType == "CALL" && c[1].optType == "CALL" && c[2].optType == "PUT" && c[3].optType == "PUT"
        && c[0].delta == 0.70 && c[1].delta == 0.60 && c[2].delta == -0.60 && c[3].delta == -0.70
        && c[0].mark == 1.1 * atm && c[1].mark == 0.9 * atm && c[2].mark == atm && c[3].mark == 1.2 * atm
        && c[0].spread == 0.05 * atm && c[1].spread == 0.06 * atm
        && c[2].spread == 0.06 * atm && c[3].spread == 0.05 * atm
        && atm >= 0.5
        && (forall k :: 0 <= k < 4 ==> c[k].underlying == sym && c[k].dteDays == 14.0 && c[k].asof == asof))
  {
  }

  /**
   * The chain is mirrored: each put has the delta of a call negated and the
   * same spread, so the two sides rank alike and the 0.70 legs outscore the
   * 0.60 legs exactly when their tighter spread is worth more than the delta
   * gap, that is while 0.05·atm < 0.4.
   */
  lemma ChainMirrored(sym: string, price: real, asof: string)
    ensures var c := SyntheticChain(sym, Some(price), asof);
      && Score(c[3]) == Score(c[0]) && Score(c[2]) == Score(c[1])
      && (Score(c[0]) > Score(c[1]) <==> 0.05 * AtmPremium(price) < 0.4)
  {
    var atm := AtmPremium(price);
    var c := SyntheticChain(sym, Some(price), asof);
    assert Abs(Abs(c[0].delta) - 0.65) == 0.05 && Abs(Abs(c[1].delta) - 0.65) == 0.05;
  }

  /** What main keeps for one underlying: nothing without a chain, else the best two legs. */
  function Block(sym: string, price: Option<real>, asof: string): seq<Pick> {
    var chain := SyntheticChain(sym, price, asof);
    if chain == [] then [] else Take(SortDesc(chain, Score), 2)
  }

  /**
   * An underlying contributes 0 legs (no price) or exactly 2, all of its own,
   * best first, and no discarded leg of its chain scores above a kept one.
   */
  lemma BlockSpec(sym: string, price: Option<real>, asof: string)
    ensures var b := Block(sym, price, asof);
      var chain := SyntheticChain(sym, price, asof);
      && (price.None? <==> b == [])
      && (price.Some? ==> |b| == 2)
      && (forall x :: x in b ==> x in chain && x.underlying == sym)
      && (|b| == 2 ==> Score(b[0]) >= Score(b[1]))
      && (forall x, y :: x in chain && x !in b && y in b ==> Score(y) >= Score(x))
  {
    ChainOwn(sym, price, asof);
    if price.Some? {
      BestTwo(SyntheticChain(sym, price, asof), sym);
    }
  }

  /** The best two of a four-leg chain of one underlying. */
  lemma BestTwo(chain: seq<Pick>, sym: string)
    requires |chain| == 4 && forall x :: x in chain ==> x.underlying == sym
    ensures var b := Take(SortDesc(chain, Score), 2);
      && |b| == 2
      && (forall x :: x in b ==> x in chain && x.underlying == sym)
      && Score(b[0]) >= Score(b[1])
      && (forall x, y :: x in chain && x !in b && y in b ==> Score(y) >= Score(x))
  {
    TakeDominates(chain, Score, 2);
  }

  lemma ChainOwn(sym: string, price: Option<real>, asof: string)
    ensures var c := SyntheticChain(sym, price, asof);
      && |c| == (if price.None? then 0 else 4)
      && forall x :: x in c ==> x.underlying == sym
  {
  }

  /**
   * The two legs kept in exact arithmetic: the 0.70 call and the -0.70 put
   * while their spread 0.05*atm lies below the 0.4 cap, otherwise (all four
   * legs tie) the first two calls, because the sort is stable.
   */
  lemma BlockLegs(sym: string, price: real, asof: string)
    ensures var c := SyntheticChain(sym, Some(price), asof);
      Block(sym, Some(price), asof) == if AtmPremium(price) < 8.0 then [c[0], c[3]] else [c[0], c[1]]
  {
    var c := SyntheticChain(sym, Some(price), asof);
    LegScores(sym, price, asof);
    ChainShape(sym, Some(price), asof);
    var l0, l1, l2, l3 := c[0], c[1], c[2], c[3];
    assert c == [l0, l1, l2, l3];
    TopTwoOfFour(l0, l1, l2, l3, Score);
  }

  lemma TopTwoOfFour<T>(a: T, b: T, c: T, d: T, key: T -> real)
    requires key(a) == key(d) && key(b) == key(c) && key(a) >= key(b)
    ensures Take(SortDesc([a, b, c, d], key), 2) == if key(a) > key(b) then [a, d] else [a, b]
  {
    var r := SortDesc([a, b, c, d], key);
    SortFour(a, b, c, d, key);
    TakeTwo(r);
  }

  lemma TakeTwo<T>(s: seq<T>)
    requires |s| >= 2
    ensures Take(s, 2) == [s[0], s[1]]
  {
  }

  /** The outer legs score alike, the inner legs alike, and the outer ones higher until the spread cap. */
  lemma LegScores(sym: string, price: real, asof: string)
    ensures var c := SyntheticChain(sym, Some(price), asof);
      && Score(c[0]) == Score(c[3]) && Score(c[1]) == Score(c[2])
      && (AtmPremium(price) < 8.0 <==> Score(c[0]) > Score(c[1]))
      && (AtmPremium(price) >= 8.0 <==> Score(c[0]) == Score(c[1]))
  {
  }

  /** The stable descending sort of four legs paired as (a, d) and (b, c). */
  lemma SortFour<T>(a: T, b: T, c: T, d: T, key: T -> real)
    requires key(a) == key(d) && key(b) == key(c) && key(a) >= key(b)
    ensures key(a) > key(b) ==> SortDesc([a, b, c, d], key) == [a, d, b, c]
    ensures key(a) == key(b) ==> SortDesc([a, b, c, d], key) == [a, b, c, d]
  {
    FourAsConses(a, b, c, d);
    if key(a) > key(b) {
      SortFourSplit(a, b, c, d, key);
    } else {
      SortFourTied(a, b, c, d, key);
    }
  }

  lemma FourAsConses<T>(a: T, b: T, c: T, d: T)
    ensures [a, b, c, d] == [a] + ([b] + ([c] + [d]))
    ensures [a, d, b, c] == [a] + ([d] + ([b] + [c]))
    ensures [d] == [d] + []
  {
  }

  lemma SortFourSplit<T>(a: T, b: T, c: T, d: T, key: T -> real)
    requires key(a) == key(d) && key(b) == key(c) && key(a) > key(b)
    ensures SortDesc([a] + ([b] + ([c] + [d])), key) == [a] + ([d] + ([b] + [c]))
  {
    SortDescCons(d, [], key);
    InsertHead(d, [], key);
    SortDescCons(c, [d], key);
    InsertPast(c, d, [], key);
    InsertHead(c, [], key);
    SortDescCons(b, [c] + [d], key);
    InsertPast(b, d, [c], key);
    InsertHead(b, [c], key);
    SortDescCons(a, [b] + ([c] + [d]), key);
    InsertHead(a, [d] + ([b] + [c]), key);
  }

  lemma SortFourTied<T>(a: T, b: T, c: T, d: T, key: T -> real)
    requires key(a) == key(d) && key(b) == key(c) && key(a) == key(b)
    ensures SortDesc([a] + ([b] + ([c] + [d])), key) == [a] + ([b] + ([c] + [d]))
  {
    SortDescCons(d, [], key);
    InsertHead(d, [], key);
    SortDescCons(c, [d], key);
    InsertHead(c, [d], key);
    SortDescCons(b, [c] + [d], key);
    InsertHead(b, [c] + [d], key);
    SortDescCons(a, [b] + ([c] + [d]), key);
    InsertHead(a, [b] + ([c] + [d]), key);
  }

  /** main's output for the underlyings visited so far, in their order. */
  function Picks(syms: seq<string>, price: string -> Option<real>, asof: string): seq<Pick> {
    if syms == [] then []
    else Picks(syms[..|syms| - 1], price, asof) + Block(syms[|syms| - 1], price(syms[|syms| - 1]), asof)
  }

  /** Every underlying with a price contributes two legs; the others none. */
  function Priced(syms: seq<string>, price: string -> Option<real>): nat {
    if syms == [] then 0
    else Priced(syms[..|syms| - 1], price) + (if price(syms[|syms| - 1]).Some? then 1 else 0)
  }

  lemma {:induction false} PicksCount(syms: seq<string>, price: string -> Option<real>, asof: string)
    ensures |Picks(syms, price, asof)| == 2 * Priced(syms, price)
    ensures forall x :: x in Picks(syms, price, asof) ==> x.underlying in syms
  {
    if syms != [] {
      var init := syms[..|syms| - 1];
      var last := syms[|syms| - 1];
      PicksCount(init, price, asof);
      BlockSpec(last, price(last), asof);
      forall x | x in Picks(syms, price, asof) ensures x.underlying in syms {
        if x in Picks(init, price, asof) {
          var k :| 0 <= k < |init| && init[k] == x.underlying;
          assert syms[k] == x.underlying;
        }
      }
    }
  }

  lemma PicksStep(syms: seq<string>, i: nat, price: string -> Option<real>, asof: string)
    requires i < |syms|
    ensures Picks(syms[..i + 1], price, asof) == Picks(syms[..i], price, asof) + Block(syms[i], price(syms[i]), asof)
  {
    assert syms[..i + 1][..i] == syms[..i];
  }

  /** main's loop: out.extend(best) for every underlying whose chain is not empty. */
  method PickAll(price: string -> Option<real>, asof: string) returns (out: seq<Pick>)
    ensures out == Picks(Underlyings, price, asof)
  {
    var syms := Underlyings;
    out := [];
    for i := 0 to |syms|
      invariant out == Picks(syms[..i], price, asof)
    {
      PicksStep(syms, i, price, asof);
      var sym := syms[i];
      var chain := SyntheticChain(sym, price(sym), asof);
      if chain == [] {
        assert out + [] == out;
        continue;
      }
      var sorted := SortDesc(chain, Score);
      var best := Take(sorted, 2);
      out := out + best;
    }
    assert syms[..|syms|] == syms;
  }
}
