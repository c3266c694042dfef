/**
 * Column resolution shared by _find_col (ai/featurize.py) and _get_series
 * (run_swing.py, identical in train_ai.py): for each candidate in order,
 * lower-cased, take the first column whose lower-cased name equals it, else
 * the first whose name passes the fuzzy test, else go on to the next candidate.
 */
module ColumnMatch {
  import opened Wrappers
  import opened Text

  /** The test of the inner loop: `c == f"{key}_spy" or c.endswith(f"_{key}") or c.startswith(f"{key}_") or key in c`. */
  predicate Fuzzy(c: string, key: string) {
    c == key + "_spy" || EndsWith(c, "_" + key) || StartsWith(c, key + "_") || Contains(c, key)
  }

  /** The three named suffix/prefix tests add nothing to the plain substring test. */
  lemma FuzzyIsContains(c: string, key: string)
    ensures Fuzzy(c, key) <==> Contains(c, key)
  {
    if c == key + "_spy" {
      assert c[..|key|] == key;
      StartsWithContains(c, key);
    } else if EndsWith(c, "_" + key) {
      assert c[|c| - |key|..] == (c[|c| - |key| - 1..])[1..];
      assert EndsWith(c, key);
      EndsWithContains(c, key);
    } else if StartsWith(c, key + "_") {
      assert c[..|key|] == (c[..|key| + 1])[..|key|];
      assert StartsWith(c, key);
      StartsWithContains(c, key);
    }
  }

  /** [str(c).lower() for c in df.columns] */
  function LowerAll(names: seq<string>): (r: seq<string>)
    ensures |r| == |names|
  {
    seq(|names|, i requires 0 <= i < |names| => Lower(names[i]))
  }

  /** list.index: the first position holding key, searching from position i. */
  function IndexFrom(cols: seq<string>, key: string, i: nat): Option<nat>
    decreases |cols| - i
  {
    if i >= |cols| then None
    else if cols[i] == key then Some(i)
    else IndexFrom(cols, key, i + 1)
  }

  /** The first position, from i on, whose name passes the fuzzy test. */
  function FuzzyFrom(cols: seq<string>, key: string, i: nat): Option<nat>
    decreases |cols| - i
  {
    if i >= |cols| then None
    else if Fuzzy(cols[i], key) then Some(i)
    else FuzzyFrom(cols, key, i + 1)
  }

  /** The resolution rule over already lower-cased names. */
  function Resolve(cols: seq<string>, candidates: seq<string>): Option<nat>
  {
    if candidates == [] then None
    else
      var key := Lower(candidates[0]);
      if key in cols then IndexFrom(cols, key, 0)
      else
        match FuzzyFrom(cols, key, 0)
        case Some(i) => Some(i)
        case None => Resolve(cols, candidates[1..])
  }

  /** No column name contains key. */
  ghost predicate NoMatch(cols: seq<string>, key: string) {
    forall j :: 0 <= j < |cols| ==> !Contains(cols[j], key)
  }

  lemma {:induction false} IndexFromFound(cols: seq<string>, key: string, i: nat)
    requires i <= |cols| && key in cols[i..]
    ensures IndexFrom(cols, key, i).Some?
    ensures var j := IndexFrom(cols, key, i).value;
      i <= j < |cols| && cols[j] == key && forall j' :: i <= j' < j ==> cols[j'] != key
    decreases |cols| - i
  {
    if cols[i] != key {
      assert key in cols[i + 1..] by {
        var k :| i <= k < |cols| && cols[k] == key;
        assert cols[i + 1..][k - i - 1] == key;
      }
      IndexFromFound(cols, key, i + 1);
    }
  }

  lemma {:induction false} FuzzyFromSpec(cols: seq<string>, key: string, i: nat)
    requires i <= |cols|
    ensures FuzzyFrom(cols, key, i).None? <==> forall j :: i <= j < |cols| ==> !Contains(cols[j], key)
    ensures FuzzyFrom(cols, key, i).Some? ==>
      var j := FuzzyFrom(cols, key, i).value;
      i <= j < |cols| && Contains(cols[j], key) && forall j' :: i <= j' < j ==> !Contains(cols[j'], key)
    decreases |cols| - i
  {
    if i < |cols| {
      FuzzyIsContains(cols[i], key);
      FuzzyFromSpec(cols, key, i + 1);
    }
  }

  /** Resolution fails exactly when no column contains any candidate. */
  lemma {:induction false} ResolveNoneIff(cols: seq<string>, candidates: seq<string>)
    ensures Resolve(cols, candidates).None? <==>
      forall k :: 0 <= k < |candidates| ==> NoMatch(cols, Lower(candidates[k]))
  {
    if candidates != [] {
      var key := Lower(candidates[0]);
      FuzzyFromSpec(cols, key, 0);
      ResolveNoneIff(cols, candidates[1..]);
      if key in cols {
        IndexFromFound(cols, key, 0);
        var j := IndexFrom(cols, key, 0).value;
        ContainsAt(cols[j], key, 0);
      } else if FuzzyFrom(cols, key, 0).None? {
        forall k | 0 <= k < |candidates[1..]| ensures candidates[1..][k] == candidates[k + 1] { }
      }
    }
  }

  /**
   * What a successful resolution returns: a column containing candidate k,
   * no earlier candidate matching anything, and the first exact match for
   * candidate k when there is one, else its first fuzzy match.
   */
  lemma {:induction false} ResolveFound(cols: seq<string>, candidates: seq<string>)
    requires Resolve(cols, candidates).Some?
    ensures var j := Resolve(cols, candidates).value;
      j < |cols| && exists k :: 0 <= k < |candidates| && ResolvedBy(cols, candidates, j, k)
  {
    var key := Lower(candidates[0]);
    var j := Resolve(cols, candidates).value;
    FuzzyFromSpec(cols, key, 0);
    if key in cols {
      IndexFromFound(cols, key, 0);
      ContainsAt(cols[j], key, 0);
      assert ResolvedBy(cols, candidates, j, 0);
    } else if FuzzyFrom(cols, key, 0).Some? {
      assert ResolvedBy(cols, candidates, j, 0);
    } else {
      var rest := candidates[1..];
      ResolveFound(cols, rest);
      var k :| 0 <= k < |rest| && ResolvedBy(cols, rest, j, k);
      assert candidates[k + 1] == rest[k];
      forall k' | 0 <= k' < k + 1 ensures NoMatch(cols, Lower(candidates[k'])) {
        if k' > 0 {
          assert candidates[k'] == rest[k' - 1];
        }
      }
      assert ResolvedBy(cols, candidates, j, k + 1);
    }
  }

  /**
   * Column j is what candidate k resolves to: no earlier candidate matches
   * any column, j's name contains the key, and j is the first exact match
   * when there is one, else the first fuzzy match.
   */
  ghost predicate ResolvedBy(cols: seq<string>, candidates: seq<string>, j: nat, k: nat)
    requires j < |cols| && k < |candidates|
  {
    var key := Lower(candidates[k]);
    && (forall k' :: 0 <= k' < k ==> NoMatch(cols, Lower(candidates[k'])))
    && Contains(cols[j], key)
    && (key in cols ==> cols[j] == key && forall j' :: 0 <= j' < j ==> cols[j'] != key)
    && (key !in cols ==> forall j' :: 0 <= j' < j ==> !Contains(cols[j'], key))
  }

  /** For one candidate, an exact match wins over an earlier fuzzy one. */
  lemma ExactBeforeFuzzy(cols: seq<string>, candidates: seq<string>)
    requires candidates != [] && Lower(candidates[0]) in cols
    ensures Resolve(cols, candidates).Some?
    ensures var j := Resolve(cols, candidates).value;
      j < |cols| && cols[j] == Lower(candidates[0]) &&
      forall j' :: 0 <= j' < j ==> cols[j'] != Lower(candidates[0])
  {
    IndexFromFound(cols, Lower(candidates[0]), 0);
  }

  /** Candidates are tried in order: a fuzzy match of the first beats an exact match of a later one. */
  lemma EarlierCandidateWins(cols: seq<string>, candidates: seq<string>, j0: nat)
    requires candidates != [] && j0 < |cols| && Contains(cols[j0], Lower(candidates[0]))
    ensures Resolve(cols, candidates).Some? && Resolve(cols, candidates).value < |cols|
    ensures Contains(cols[Resolve(cols, candidates).value], Lower(candidates[0]))
  {
    var key := Lower(candidates[0]);
    FuzzyFromSpec(cols, key, 0);
    if key in cols {
      IndexFromFound(cols, key, 0);
      ContainsAt(cols[IndexFrom(cols, key, 0).value], key, 0);
    }
  }

  /** The first candidate present among the names, at its first position (pick in generate_signals.backup.py, the volume search of avg_vol_ok in run_swing.py). */
  function FirstPresent(cols: seq<string>, candidates: seq<string>): (r: Option<nat>)
    ensures r.Some? ==> r.value < |cols|
  {
    if candidates == [] then None
    else if candidates[0] in cols then
      IndexFromFound(cols, candidates[0], 0);
      IndexFrom(cols, candidates[0], 0)
    else FirstPresent(cols, candidates[1..])
  }

  /**
   * Nothing is picked iff no candidate is a column; otherwise the picked
   * column is the first occurrence of the earliest candidate present.
   */
  lemma {:induction false} FirstPresentSpec(cols: seq<string>, candidates: seq<string>)
    ensures FirstPresent(cols, candidates).None? <==> forall k :: 0 <= k < |candidates| ==> candidates[k] !in cols
    ensures FirstPresent(cols, candidates).Some? ==>
      var j := FirstPresent(cols, candidates).value;
      exists k :: 0 <= k < |candidates| && cols[j] == candidates[k]
        && (forall k' :: 0 <= k' < k ==> candidates[k'] !in cols)
        && (forall j' :: 0 <= j' < j ==> cols[j'] != candidates[k])
  {
    if candidates != [] {
      if candidates[0] in cols {
        IndexFromFound(cols, candidates[0], 0);
      } else {
        FirstPresentSpec(cols, candidates[1..]);
        var rest := candidates[1..];
        if FirstPresent(cols, rest).Some? {
          var j := FirstPresent(cols, rest).value;
          var k :| 0 <= k < |rest| && cols[j] == rest[k]
            && (forall k' :: 0 <= k' < k ==> rest[k'] !in cols)
            && (forall j' :: 0 <= j' < j ==> cols[j'] != rest[k]);
          assert cols[j] == candidates[k + 1];
        }
      }
    }
  }

  /** _find_col(df, candidates): the nested search with early return, as a loop. */
  method FindCol(names: seq<string>, candidates: seq<string>) returns (r: Option<nat>)
    ensures r == Resolve(LowerAll(names), candidates)
    ensures r.Some? ==> r.value < |names|
  {
    var cols := LowerAll(names);
    var n := 0;
    while n < |candidates|
      invariant 0 <= n <= |candidates|
      invariant Resolve(cols, candidates) == Resolve(cols, candidates[n..])
    {
      assert candidates[n..][1..] == candidates[n + 1..];
      var key := Lower(candidates[n]);
      if key in cols {
        r := IndexFrom(cols, key, 0);
        IndexFromFound(cols, key, 0);
        return;
      }
      var i: nat := 0;
      while i < |cols|
        invariant i <= |cols|
        invariant FuzzyFrom(cols, key, 0) == FuzzyFrom(cols, key, i)
      {
        if Fuzzy(cols[i], key) {
          return Some(i);
        }
        i := i + 1;
      }
      n := n + 1;
    }
    return None;
  }

  datatype KeyError = MissingAnyOf(candidates: seq<string>, columns: seq<string>)

  /** _get_series(df, candidates): the same search, raising KeyError when nothing matches. */
  method GetSeries(names: seq<string>, candidates: seq<string>) returns (r: Result<nat, KeyError>)
    ensures r.Ok? <==> Resolve(LowerAll(names), candidates).Some?
    ensures r.Ok? ==> r.value < |names| && Some(r.value) == Resolve(LowerAll(names), candidates)
    ensures r.Err? ==> r.error == MissingAnyOf(candidates, names)
  {
    var found := FindCol(names, candidates);
    match found
    case Some(i) => r := Ok(i);
    case None => r := Err(MissingAnyOf(candidates, names));
  }

  function PriceCloseCandidates(): seq<string> {
    ["close", "adj close", "adj_close", "adjclose"]
  }

  /**
   * The first KeyError of the three _get_series calls that enrich
   * (run_swing.py) and make_daily_features (train_ai.py) make, for close,
   * high and low in that order; None when all three resolve.
   */
  function PriceSeriesError(names: seq<string>): Option<KeyError> {
    var cols := LowerAll(names);
    if Resolve(cols, PriceCloseCandidates()).None? then Some(MissingAnyOf(PriceCloseCandidates(), names))
    else if Resolve(cols, ["high"]).None? then Some(MissingAnyOf(["high"], names))
    else if Resolve(cols, ["low"]).None? then Some(MissingAnyOf(["low"], names))
    else None
  }

  /** The calls raise exactly when no name contains any close variant, or none contains "high", or none contains "low". */
  lemma PriceSeriesErrorIff(names: seq<string>)
    ensures var cols := LowerAll(names);
      PriceSeriesError(names).Some? <==> (
        || (forall k :: 0 <= k < 4 ==> NoMatch(cols, Lower(PriceCloseCandidates()[k])))
        || NoMatch(cols, Lower("high")) || NoMatch(cols, Lower("low")))
    ensures PriceSeriesError(names).Some? ==> PriceSeriesError(names).value.columns == names
  {
    var cols := LowerAll(names);
    ResolveNoneIff(cols, PriceCloseCandidates());
    ResolveNoneIff(cols, ["high"]);
    ResolveNoneIff(cols, ["low"]);
  }
}
