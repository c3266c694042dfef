/**
 * common.py: the retry loop of `download` with its back-off delays, the
 * column flattening and the required-column and empty-frame checks. Each
 * yfinance call is an input (`fetch(i)` is what the i-th attempt returns);
 * time.sleep is modelled by the list of delays it would be called with.
 */
module Common {
  import opened Wrappers
  import opened Text
  import opened Sorting
  import opened Frames

  function Pow2(i: nat): nat {
    if i == 0 then 1 else 2 * Pow2(i - 1)
  }

  /** _sleep_backoff: min(2 ** i, 8) seconds. */
  function Backoff(i: nat): nat {
    var p := Pow2(i);
    if p < 8 then p else 8
  }

  lemma BackoffValues()
    ensures Backoff(0) == 1 && Backoff(1) == 2 && Backoff(2) == 4 && Backoff(3) == 8 && Backoff(4) == 8
  {
  }

  lemma {:induction false} Pow2Monotone(i: nat, j: nat)
    requires i <= j
    ensures 1 <= Pow2(i) <= Pow2(j)
  {
    if i < j {
      Pow2Monotone(i, j - 1);
    } else if i > 0 {
      Pow2Monotone(i - 1, i - 1);
    }
  }

  /** The delay is between 1 and 8 seconds, never decreases, and is 8 from the fourth try on. */
  lemma BackoffBoundedMonotone(i: nat, j: nat)
    requires i <= j
    ensures 1 <= Backoff(i) <= Backoff(j) <= 8
    ensures i >= 3 ==> Backoff(i) == 8
  {
    Pow2Monotone(i, j);
    if i >= 3 {
      Pow2Monotone(3, i);
    }
  }

  /** What one yfinance call gives: an exception, or a frame with its column labels and rows. */
  datatype Attempt = Raised(message: string) | Got(columns: ColumnIndex, rows: seq<seq<Cell>>)

  /** Why an attempt was rejected: each is an exception the loop catches. */
  datatype Failure =
    | FetchError(message: string)
    | EmptyTuple                     // c[0] of an empty label tuple
    | MissingColumns(got: seq<string>)
    | EmptyFrame

  datatype Frame = Frame(names: seq<string>, rows: seq<seq<Cell>>)

  /** Multi-level labels keep their first level, flat labels stay; both are lower-cased. */
  function FlatNames(c: ColumnIndex): (r: Option<seq<string>>)
    ensures r.None? <==> c.Multi? && exists k :: 0 <= k < |c.tuples| && c.tuples[k] == []
    ensures r.Some? ==> |r.value| == Width(c)
    ensures r.Some? && c.Flat? ==> forall k :: 0 <= k < |c.names| ==> r.value[k] == Lower(c.names[k])
    ensures r.Some? && c.Multi? ==> forall k :: 0 <= k < |c.tuples| ==> r.value[k] == Lower(c.tuples[k][0])
  {
    match c
    case Flat(names) => Some(seq(|names|, k requires 0 <= k < |names| => Lower(names[k])))
    case Multi(tuples) =>
      if exists k :: 0 <= k < |tuples| && tuples[k] == [] then None
      else Some(seq(|tuples|, k requires 0 <= k < |tuples| => Lower(tuples[k][0])))
  }

  const Need: set<string> := {"open", "high", "low", "close"}

  function Names(names: seq<string>): set<string> {
    set k | k in names
  }

  /** A row dropna(subset=[open, high, low, close]) keeps: every such column has a value. */
  predicate Complete(names: seq<string>, row: seq<Cell>) {
    forall k :: 0 <= k < |names| && names[k] in Need ==> k < |row| && row[k].Some?
  }

  /** One pass of the try block: flatten, check the columns, drop incomplete rows, reject an empty frame. */
  function Process(a: Attempt): Result<Frame, Failure> {
    match a
    case Raised(m) => Err(FetchError(m))
    case Got(columns, rows) =>
      var flat := FlatNames(columns);
      if flat.None? then Err(EmptyTuple)
      else
        var names := flat.value;
        if !(Need <= Names(names)) then Err(MissingColumns(names))
        else
          var kept := Filter(rows, row => Complete(names, row));
          if |kept| == 0 then Err(EmptyFrame) else Ok(Frame(names, kept))
  }

  /**
   * A passing attempt is a download whose flattened names include the four
   * price columns and whose kept rows, all complete and taken from the
   * download, are not empty; with the names in place it passes exactly when
   * some row is complete.
   */
  lemma ProcessSpec(a: Attempt)
    ensures var r := Process(a);
      && (r.Ok? ==> a.Got? && FlatNames(a.columns) == Some(r.value.names))
      && (r.Ok? ==> Need <= Names(r.value.names) && |r.value.rows| > 0)
      && (r.Ok? ==> forall row :: row in r.value.rows ==> row in a.rows && Complete(r.value.names, row))
      && (a.Got? && FlatNames(a.columns).Some? && Need <= Names(FlatNames(a.columns).value) ==>
            (r.Ok? <==> exists row :: row in a.rows && Complete(FlatNames(a.columns).value, row)))
  {
    if a.Got? && FlatNames(a.columns).Some? {
      FilterKeepsComplete(a.rows, FlatNames(a.columns).value);
    }
  }

  lemma FilterKeepsComplete(rows: seq<seq<Cell>>, names: seq<string>)
    ensures (exists row :: row in rows && Complete(names, row)) <==> Filter(rows, row => Complete(names, row)) != []
  {
    var p := (row: seq<Cell>) => Complete(names, row);
    FilterKeepsAll(rows, p);
  }

  /** The delays slept after the first n failures. */
  function Delays(n: nat): (r: seq<nat>)
    ensures |r| == n && forall j :: 0 <= j < n ==> r[j] == Backoff(j)
  {
    if n == 0 then [] else Delays(n - 1) + [Backoff(n - 1)]
  }

  datatype DownloadError = DownloadFailed(lastFailure: Option<Failure>)

  /**
   * download: at most `tries` attempts; the first one that passes is returned
   * and none after it is made; every failed attempt, the last included, is
   * followed by a back-off; after `tries` failures the last failure is reported.
   */
  method Download(fetch: nat -> Attempt, tries: int) returns (r: Result<Frame, DownloadError>, attempts: nat, delays: seq<nat>)
    ensures attempts <= (if tries < 0 then 0 else tries)
    ensures forall j :: 0 <= j < attempts && (r.Err? || j < attempts - 1) ==> Process(fetch(j)).Err?
    ensures r.Ok? ==> attempts >= 1 && Process(fetch(attempts - 1)) == Ok(r.value)
    ensures r.Ok? ==> delays == Delays(attempts - 1)
    ensures r.Err? ==> attempts == (if tries < 0 then 0 else tries) && delays == Delays(attempts)
    ensures r.Err? ==> r.error.lastFailure == (if attempts == 0 then None else Some(Process(fetch(attempts - 1)).error))
  {
    var lastExc: Option<Failure> := None;
    delays := [];
    attempts := 0;
    var i := 0;
    while i < tries
      invariant if tries < 0 then i == 0 else i <= tries
      invariant attempts == i && delays == Delays(i)
      invariant forall j :: 0 <= j < i ==> Process(fetch(j)).Err?
      invariant lastExc == (if i == 0 then None else Some(Process(fetch(i - 1)).error))
      decreases tries - i
    {
      attempts := attempts + 1;
      var outcome := Process(fetch(i));
      if outcome.Ok? {
        return Ok(outcome.value), attempts, delays;
      }
      lastExc := Some(outcome.error);
      delays := delays + [Backoff(i)];
      i := i + 1;
    }
    r := Err(DownloadFailed(lastExc));
  }

  /** A frame download returns has the four price columns, at least one row, and no gap in them. */
  lemma DownloadedFrameShape(a: Attempt)
    requires Process(a).Ok?
    ensures var f := Process(a).value;
      && "open" in f.names && "high" in f.names && "low" in f.names && "close" in f.names
      && |f.rows| >= 1
      && forall row: seq<Cell>, k :: row in f.rows && 0 <= k < |f.names| && f.names[k] in Need ==> k < |row| && row[k].Some?
  {
    ProcessSpec(a);
    var f := Process(a).value;
    assert "open" in Names(f.names) && "high" in Names(f.names);
    assert "low" in Names(f.names) && "close" in Names(f.names);
  }
}
