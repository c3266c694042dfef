/**
 * The config.yaml values the scripts read, and load_cfg's `explode` of the
 * symbol lists (the same nested function in generate_signals.backup.py and
 * run_swing.backup.py). Parsing YAML is left to the caller.
 */
module YamlConfig {
  import opened Wrappers
  import opened Text

  /**
   * A value yaml.safe_load returns: a string, a list, a mapping (its keys in
   * insertion order, which is what iterating it yields), a `!!set` (its
   * elements in the order iteration visits them), `!!binary` bytes (iterated
   * as that many integers), or anything else that cannot be iterated
   * (numbers, booleans, null, timestamps).
   */
  datatype Yaml =
    | YStr(str: string)
    | YList(items: seq<Yaml>)
    | YMap(keys: seq<Yaml>)
    | YSet(elems: seq<Yaml>)
    | YBytes(size: nat)
    | YOther

  datatype ConfigError = NotIterable(key: string)

  /** Which symbol list a symbol comes from: "symbols_equity" or "symbols_crypto". */
  datatype Kind = Equity | Crypto

  /** explode: a list passes through, a string is split on "-" and each piece stripped, anything else gives []. */
  function Explode(x: Yaml): (r: seq<Yaml>)
    ensures x.YList? ==> r == x.items
    ensures !x.YList? && !x.YStr? ==> r == []
    ensures x.YStr? ==> |r| >= 1 && forall k :: 0 <= k < |r| ==> r[k].YStr?
  {
    match x
    case YList(items) => items
    case YStr(s) => StripEach(Split(s, '-'))
    case _ => []
  }

  /** [s.strip() for s in pieces] */
  function StripEach(pieces: seq<string>): (r: seq<Yaml>)
    ensures |r| == |pieces|
    ensures forall k :: 0 <= k < |r| ==> r[k] == YStr(Strip(pieces[k]))
  {
    if pieces == [] then [] else [YStr(Strip(pieces[0]))] + StripEach(pieces[1..])
  }

  /** A string with k hyphens explodes into k + 1 stripped pieces free of hyphens' neighbours' spaces. */
  lemma ExplodeString(s: string)
    ensures |Explode(YStr(s))| == Count(s, '-') + 1
    ensures forall k :: 0 <= k < |Explode(YStr(s))| ==>
      Explode(YStr(s))[k] == YStr(Strip(Split(s, '-')[k]))
    ensures forall k :: 0 <= k < |Explode(YStr(s))| ==> '-' !in Explode(YStr(s))[k].str
  {
    SplitCount(s, '-');
    SplitPiecesHaveNoSeparator(s, '-');
    var pieces := Split(s, '-');
    forall k | 0 <= k < |pieces| ensures '-' !in Strip(pieces[k]) {
      StripKeepsOut(pieces[k], '-');
    }
  }

  /** The lines of cfg.get(key, []) that the comprehension iterates over, or the TypeError of iterating. */
  function Lines(cfg: map<string, Yaml>, key: string): (r: Result<seq<Yaml>, ConfigError>)
    ensures key !in cfg ==> r == Ok([])
    ensures r.Err? <==> key in cfg && cfg[key].YOther?
    ensures key in cfg && cfg[key].YList? ==> r == Ok(cfg[key].items)
    ensures key in cfg && cfg[key].YMap? ==> r == Ok(cfg[key].keys)
    ensures key in cfg && cfg[key].YSet? ==> r == Ok(cfg[key].elems)
    ensures key in cfg && cfg[key].YStr? ==>
      (r.Ok? && |r.value| == |cfg[key].str| && forall i :: 0 <= i < |r.value| ==> r.value[i] == YStr([cfg[key].str[i]]))
    ensures key in cfg && cfg[key].YBytes? ==>
      (r.Ok? && |r.value| == cfg[key].size && forall i :: 0 <= i < |r.value| ==> r.value[i].YOther?)
  {
    if key !in cfg then Ok([])
    else match cfg[key]
      case YList(items) => Ok(items)
      // iterating a string yields its characters
      case YStr(s) => Ok(seq(|s|, i requires 0 <= i < |s| => YStr([s[i]])))
      // iterating a mapping yields its keys
      case YMap(keys) => Ok(keys)
      case YSet(elems) => Ok(elems)
      // iterating bytes yields integers
      case YBytes(n) => Ok(seq(n, i => YOther))
      case YOther => Err(NotIterable(key))
  }

  /** [s for line in lines for s in explode(line)] */
  function Flatten(lines: seq<Yaml>): seq<Yaml> {
    if lines == [] then [] else Explode(lines[0]) + Flatten(lines[1..])
  }

  /** The pieces come out in line order: flattening distributes over concatenation. */
  lemma {:induction false} FlattenAppend(a: seq<Yaml>, b: seq<Yaml>)
    ensures Flatten(a + b) == Flatten(a) + Flatten(b)
  {
    if a == [] {
      assert a + b == b;
    } else {
      assert (a + b)[0] == a[0];
      assert (a + b)[1..] == a[1..] + b;
      FlattenAppend(a[1..], b);
    }
  }

  /** A list of plain strings with no hyphen and no surrounding space comes through unchanged but boxed. */
  lemma {:induction false} FlattenPlainStrings(lines: seq<Yaml>)
    requires forall k :: 0 <= k < |lines| ==> lines[k].YStr? && Count(lines[k].str, '-') == 0
    ensures |Flatten(lines)| == |lines|
    ensures forall k :: 0 <= k < |lines| ==> Flatten(lines)[k] == YStr(Strip(lines[k].str))
  {
    if lines != [] {
      var s := lines[0].str;
      NoSeparatorSplit(s, '-');
      assert Explode(lines[0]) == [YStr(Strip(s))];
      FlattenPlainStrings(lines[1..]);
      assert Flatten(lines) == [YStr(Strip(s))] + Flatten(lines[1..]);
    }
  }

  lemma {:induction false} NoSeparatorSplit(s: string, sep: char)
    requires Count(s, sep) == 0
    ensures Split(s, sep) == [s]
  {
    if s != [] {
      NoSeparatorSplit(s[1..], sep);
      assert s == [s[0]] + s[1..];
    }
  }

  /** load_cfg: both symbol lists are replaced by their exploded lines; every other key is kept. */
  function LoadCfg(cfg: map<string, Yaml>): (r: Result<map<string, Yaml>, ConfigError>)
    ensures r.Err? <==> Lines(cfg, "symbols_equity").Err? || Lines(cfg, "symbols_crypto").Err?
    ensures r.Ok? ==>
      && r.value.Keys == cfg.Keys + {"symbols_equity", "symbols_crypto"}
      && r.value["symbols_equity"] == YList(Flatten(Lines(cfg, "symbols_equity").value))
      && r.value["symbols_crypto"] == YList(Flatten(Lines(cfg, "symbols_crypto").value))
      && (forall k :: k in cfg && k != "symbols_equity" && k != "symbols_crypto" ==> r.value[k] == cfg[k])
  {
    var eq := Lines(cfg, "symbols_equity");
    if eq.Err? then Err(eq.error)
    else
      var cfg1 := cfg["symbols_equity" := YList(Flatten(eq.value))];
      var cr := Lines(cfg1, "symbols_crypto");
      if cr.Err? then Err(cr.error)
      else Ok(cfg1["symbols_crypto" := YList(Flatten(cr.value))])
  }

  /**
   * A symbol list written as a mapping (`symbols_equity: {AAPL: 1, MSFT: 2}`)
   * is iterated by its keys, so plain keys become the symbol list in order.
   */
  lemma MappingListsKeys(cfg: map<string, Yaml>)
    requires "symbols_equity" in cfg && cfg["symbols_equity"].YMap?
    requires forall k :: 0 <= k < |cfg["symbols_equity"].keys| ==>
      var key := cfg["symbols_equity"].keys[k]; key.YStr? && Count(key.str, '-') == 0 && Trimmed(key.str)
    requires Lines(cfg, "symbols_crypto").Ok?
    ensures LoadCfg(cfg).Ok? && LoadCfg(cfg).value["symbols_equity"] == YList(cfg["symbols_equity"].keys)
  {
    var keys := cfg["symbols_equity"].keys;
    FlattenPlainStrings(keys);
    assert Flatten(keys) == keys;
    var cfg1 := cfg["symbols_equity" := YList(Flatten(keys))];
    assert Lines(cfg1, "symbols_crypto") == Lines(cfg, "symbols_crypto");
  }

  /** A ticker written "BASE-QUOTE" in a symbol list, e.g. "BTC-USD", becomes the two symbols BASE and QUOTE. */
  lemma HyphenatedTickerSplits(base: string, quote: string)
    requires Count(base, '-') == 0 && Count(quote, '-') == 0
    requires Trimmed(base) && Trimmed(quote)
    ensures Flatten([YStr(base + "-" + quote)]) == [YStr(base), YStr(quote)]
  {
    var line := base + "-" + quote;
    SplitPair(base, quote);
    ExplodeTwo(line, base, quote);
    assert [YStr(line)][1..] == [];
  }

  lemma SplitPair(base: string, quote: string)
    requires Count(base, '-') == 0 && Count(quote, '-') == 0
    ensures Split(base + "-" + quote, '-') == [base, quote]
  {
    SplitAtFirst(base, '-', quote);
    NoSeparatorSplit(quote, '-');
    assert base + "-" + quote == base + ['-'] + quote;
    assert [base] + [quote] == [base, quote];
  }

  lemma ExplodeTwo(line: string, base: string, quote: string)
    requires Split(line, '-') == [base, quote]
    requires Trimmed(base) && Trimmed(quote)
    ensures Explode(YStr(line)) == [YStr(base), YStr(quote)]
  {
    assert Explode(YStr(line)) == StripEach([base, quote]);
    var e := StripEach([base, quote]);
    assert e == [e[0], e[1]];
    assert e == [YStr(Strip(base)), YStr(Strip(quote))];
  }

  lemma {:induction false} SplitAtFirst(a: string, sep: char, t: string)
    requires Count(a, sep) == 0
    ensures Split(a + [sep] + t, sep) == [a] + Split(t, sep)
  {
    if a == [] {
      assert a + [sep] + t == [sep] + t;
      assert ([sep] + t)[1..] == t;
    } else {
      SplitAtFirst(a[1..], sep, t);
      assert (a + [sep] + t)[1..] == a[1..] + [sep] + t;
      assert a == [a[0]] + a[1..];
    }
  }
}
