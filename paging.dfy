/**
 * The provider-independent rules of a digital-library adapter
 * (src/qal/digital_library.py and the draft in src/scrape_acad_library):
 * the pagination cursor, the exhaustion test, the batch estimates, the
 * translation of symbolic query options and the request-map merge.
 */
module Paging {
  import opened Wrappers

  /** The adapter fields that pagination reads and writes. */
  datatype Cursor = Cursor(start: int, pageSize: int, total: int, error: bool)

  /** `results_total` before the provider has reported a count. */
  const UnknownTotal: int := -1

  /** `estimate_batches` when no positive total is known. */
  const UnknownBatches: int := 1000

  /** The three states of the adapter state machine. */
  datatype Phase = Active | Exhausted | Errored

  /** The state an adapter is in, read off its cursor. */
  function PhaseOf(c: Cursor): Phase {
    if c.error then Errored
    else if c.total != UnknownTotal && c.start >= c.total then Exhausted
    else Active
  }

  /** `has_results`: an error ends the query, an unknown total means keep going, else `start < total`. */
  predicate HasResults(c: Cursor) {
    if c.error then false
    else if c.total == UnknownTotal then true
    else c.start < c.total
  }

  /** `has_results` holds exactly in the Active phase. */
  lemma HasResultsIsActive(c: Cursor)
    ensures HasResults(c) <==> PhaseOf(c) == Active
  {
  }

  /**
   * With a 1-based `start`, `n` records fetched put `start` at `1 + n`; a
   * known positive total then counts as exhausted once `n` reaches
   * `total - 1`, whatever the page size.
   */
  lemma ExhaustedOneRecordEarly(total: int, pageSize: int, n: int)
    requires total > 0 && n >= 0
    ensures HasResults(Cursor(1 + n, pageSize, total, false)) <==> n < total - 1
  {
  }

  /** Floor division `a // b` of Python, for a nonzero divisor. */
  function FloorDiv(a: int, b: int): (q: int)
    requires b != 0
    ensures b > 0 ==> q * b <= a < q * b + b
    ensures b < 0 ==> q * b + b < a <= q * b
  {
    if b > 0 then a / b else (-a) / (-b)
  }

  /** `math.ceil(a / b)` taken exactly (the float detour is not modelled). */
  function CeilDiv(a: int, b: int): (q: int)
    requires b != 0
    ensures b > 0 ==> q * b - b < a <= q * b
    ensures b < 0 ==> q * b <= a < q * b - b
  {
    -FloorDiv(-a, b)
  }

  /** `estimate_batches`; None stands for the ZeroDivisionError of a zero page size. */
  function EstimateBatches(c: Cursor): (r: Option<int>)
    ensures c.total <= 0 ==> r == Some(UnknownBatches)
    ensures r.None? <==> c.total > 0 && c.pageSize == 0
    ensures c.total > 0 && c.pageSize > 0 ==>
              r.Some? && (r.value - 1) * c.pageSize < c.total <= r.value * c.pageSize
  {
    if c.total > 0 then
      if c.pageSize == 0 then None else Some(CeilDiv(c.total, c.pageSize))
    else
      Some(UnknownBatches)
  }

  /** `estimate_batches_left`: batches in all, minus the batches `start` already covers, unclamped. */
  function EstimateBatchesLeft(c: Cursor): (r: Option<int>)
    ensures r.None? <==> c.pageSize == 0
    ensures r.Some? ==> EstimateBatches(c).Some? && r.value == EstimateBatches(c).value - CeilDiv(c.start, c.pageSize)
  {
    if c.pageSize == 0 then None
    else
      match EstimateBatches(c)
      case None => None
      case Some(n) => Some(n - CeilDiv(c.start, c.pageSize))
  }

  /** Ceiling division by a positive divisor is monotone in the dividend. */
  lemma CeilDivMonotone(a: int, a': int, b: int)
    requires b > 0 && a <= a'
    ensures CeilDiv(a, b) <= CeilDiv(a', b)
  {
    var q, q' := CeilDiv(a, b), CeilDiv(a', b);
    var d := q - 1 - q';
    assert d * b == q * b - b - q' * b;
    assert d * b < 0;
    if d >= 0 {
      MulNonNegative(d, b);
    }
  }

  lemma MulNonNegative(x: int, y: int)
    requires x >= 0 && y >= 0
    ensures x * y >= 0
  {
  }

  /**
   * Once `start` has reached a known positive total, the estimate of
   * batches left is zero or negative: nothing clamps it at zero.
   */
  lemma {:induction false} NoBatchesLeftWhenExhausted(c: Cursor)
    requires c.pageSize > 0 && c.total > 0 && c.start >= c.total
    ensures EstimateBatchesLeft(c).Some? && EstimateBatchesLeft(c).value <= 0
  {
    CeilDivMonotone(c.total, c.start, c.pageSize);
  }

  /** One entry of `query_option_information`: (is-a-key, description, native name). */
  datatype OptionInfo = OptionInfo(isKey: bool, description: string, native: string)

  /** The exceptions that setting a query option can raise. */
  datatype QueryError =
    | UnknownQueryParameter(name: string)
      /** The default delegation hook: it refers to a variable that is not in scope, so it raises. */
    | DelegationFailed(name: string)

  /** What `set_query_option` does with a symbolic name: the native key it writes, or the exception. */
  function Translate(table: map<string, OptionInfo>, name: string): (r: Outcome<QueryError>)
    ensures r.Pass? <==> name in table && table[name].isKey
    ensures r == Fail(UnknownQueryParameter(name)) <==> name !in table
  {
    if name in table && table[name].isKey then Pass
    else if name in table then Fail(DelegationFailed(name))
    else Fail(UnknownQueryParameter(name))
  }

  /** `query_data` after `set_query_option(name, value)`, when it succeeds. */
  function SetQueryData(table: map<string, OptionInfo>, queryData: map<string, string>, name: string, value: string): (r: map<string, string>)
    requires Translate(table, name).Pass?
    ensures r.Keys == queryData.Keys + {table[name].native}
    ensures r[table[name].native] == value
    ensures forall k :: k in queryData && k != table[name].native ==> r[k] == queryData[k]
  {
    queryData[table[name].native := value]
  }

  /**
   * `set_query_options`: apply the pairs in order; stop at the first that
   * raises, keeping what the earlier ones wrote.
   */
  function ApplyQuery(table: map<string, OptionInfo>, queryData: map<string, string>, query: seq<(string, string)>): (r: (map<string, string>, Outcome<QueryError>))
    decreases |query|
  {
    if query == [] then (queryData, Pass)
    else
      match Translate(table, query[0].0)
      case Fail(e) => (queryData, Fail(e))
      case Pass => ApplyQuery(table, SetQueryData(table, queryData, query[0].0, query[0].1), query[1..])
  }

  /** ApplyQuery fails exactly when some name in the query cannot be translated. */
  lemma {:induction false} ApplyQueryFailsIffSomeNameFails(table: map<string, OptionInfo>, queryData: map<string, string>, query: seq<(string, string)>)
    ensures ApplyQuery(table, queryData, query).1.Pass? <==>
              forall i :: 0 <= i < |query| ==> Translate(table, query[i].0).Pass?
    ensures ApplyQuery(table, queryData, query).1.Fail? ==>
              exists i :: 0 <= i < |query| && ApplyQuery(table, queryData, query).1 == Translate(table, query[i].0)
    decreases |query|
  {
    if query != [] && Translate(table, query[0].0).Pass? {
      var rest := SetQueryData(table, queryData, query[0].0, query[0].1);
      ApplyQueryFailsIffSomeNameFails(table, rest, query[1..]);
      if ApplyQuery(table, queryData, query).1.Fail? {
        var j :| 0 <= j < |query[1..]| && ApplyQuery(table, rest, query[1..]).1 == Translate(table, query[1..][j].0);
        assert query[1..][j] == query[j + 1];
      }
      assert forall i :: 0 <= i < |query[1..]| ==> query[1..][i] == query[i + 1];
    }
  }

  /**
   * `set_query_options` stops at the first name that raises: it raises that
   * name's error, and `query_data` holds what the names before it wrote.
   */
  lemma {:induction false} ApplyQueryStopsAtFirst(table: map<string, OptionInfo>, queryData: map<string, string>, query: seq<(string, string)>, k: nat)
    requires k < |query| && Translate(table, query[k].0).Fail?
    requires forall i :: 0 <= i < k ==> Translate(table, query[i].0).Pass?
    ensures ApplyQuery(table, queryData, query) == (ApplyQuery(table, queryData, query[..k]).0, Translate(table, query[k].0))
    decreases k
  {
    if k == 0 {
      assert query[..k] == [];
    } else {
      var rest := SetQueryData(table, queryData, query[0].0, query[0].1);
      assert query[1..][k - 1] == query[k];
      assert forall i :: 0 <= i < k - 1 ==> query[1..][i] == query[i + 1];
      ApplyQueryStopsAtFirst(table, rest, query[1..], k - 1);
      assert query[..k][0] == query[0];
      assert query[..k][1..] == query[1..][..k - 1];
    }
  }

  /** Only native names written by translated options appear in `query_data`; the others are kept. */
  lemma {:induction false} ApplyQueryOnlyWritesNativeNames(table: map<string, OptionInfo>, queryData: map<string, string>, query: seq<(string, string)>, k: string)
    requires k in queryData
    requires forall i :: 0 <= i < |query| && query[i].0 in table ==> table[query[i].0].native != k
    ensures k in ApplyQuery(table, queryData, query).0
    ensures ApplyQuery(table, queryData, query).0[k] == queryData[k]
    decreases |query|
  {
    if query != [] && Translate(table, query[0].0).Pass? {
      assert forall i :: 0 <= i < |query[1..]| ==> query[1..][i] == query[i + 1];
      ApplyQueryOnlyWritesNativeNames(table, SetQueryData(table, queryData, query[0].0, query[0].1), query[1..], k);
    }
  }

  /** A request value: the request dictionaries hold integers, strings and `None`. */
  datatype Value = Int(i: int) | Str(s: string) | Null

  /** A Python `None`-able string as a request value. */
  function OptionValue(s: Option<string>): Value {
    if s.Some? then Str(s.value) else Null
  }

  /** `query_data` as request values. */
  function QueryValues(queryData: map<string, string>): (r: map<string, Value>)
    ensures r.Keys == queryData.Keys
    ensures forall k :: k in r ==> r[k] == Str(queryData[k])
  {
    map k | k in queryData :: Str(queryData[k])
  }

  /** `d = fixed; d.update(overrides)`: every override wins, every other fixed entry stays. */
  function Merge<K, V>(fixed: map<K, V>, overrides: map<K, V>): (r: map<K, V>)
    ensures r.Keys == fixed.Keys + overrides.Keys
    ensures forall k :: k in overrides ==> r[k] == overrides[k]
    ensures forall k :: k in fixed && k !in overrides ==> r[k] == fixed[k]
  {
    fixed + overrides
  }

  /** What `process_results` leaves behind: its return value, or an exception raised after some fields moved. */
  datatype Processed<T> = Returned(cursor: Cursor, items: seq<T>) | Raised(cursor: Cursor)
  {
    function Cur(): Cursor {
      match this
      case Returned(c, _) => c
      case Raised(c) => c
    }
  }

  /**
   * One call of `batch` given what `process_results` would do
   * (None: the request itself failed). No request when there are no
   * results; any exception sets `error` and yields nothing.
   */
  function AfterBatch<T>(c: Cursor, p: Option<Processed<T>>): (r: (Cursor, seq<T>))
    ensures !HasResults(c) ==> r == (c, [])
    ensures HasResults(c) && (p.None? || p.value.Raised?) ==> r.0.error && r.1 == []
    ensures c.error ==> r.0.error
  {
    if !HasResults(c) then (c, [])
    else
      match p
      case None => (c.(error := true), [])
      case Some(Raised(c')) => (c'.(error := true), [])
      case Some(Returned(c', items)) => (c', items)
  }

  /**
   * The `run` loop: while results are expected and the environment still
   * has a response to give, do one batch with the next response. The
   * third component counts the responses used.
   */
  function Drive<F, T>(c: Cursor, fs: seq<F>, step: (Cursor, F) -> Option<Processed<T>>): (r: (Cursor, seq<T>, nat))
    ensures r.2 <= |fs|
    ensures r.2 == |fs| || !HasResults(r.0)
    ensures !HasResults(c) ==> r == (c, [], 0)
    decreases |fs|
  {
    if fs == [] || !HasResults(c) then (c, [], 0)
    else
      var b := AfterBatch(c, step(c, fs[0]));
      var d := Drive(b.0, fs[1..], step);
      (d.0, b.1 + d.1, d.2 + 1)
  }

  /**
   * The run loop's invariant: after `used` responses the cursor is `c` and the
   * items are `items`, and finishing the run from there gives the whole run.
   */
  ghost predicate Driven<F, T>(c0: Cursor, fs: seq<F>, step: (Cursor, F) -> Option<Processed<T>>, used: nat,
                               items: seq<T>, c: Cursor)
  {
    used <= |fs|
    && Drive(c0, fs, step) == (var d := Drive(c, fs[used..], step); (d.0, items + d.1, used + d.2))
  }

  /** The run loop's invariant holds before the first batch. */
  lemma DriveStart<F, T>(c: Cursor, fs: seq<F>, step: (Cursor, F) -> Option<Processed<T>>)
    ensures Driven(c, fs, step, 0, [], c)
  {
    assert fs[0..] == fs;
    var d := Drive(c, fs, step);
    assert [] + d.1 == d.1;
  }

  /** One more batch keeps the run loop's invariant. */
  lemma DriveAdvance<F, T>(c0: Cursor, fs: seq<F>, step: (Cursor, F) -> Option<Processed<T>>, used: nat,
                           items: seq<T>, before: Cursor, after: Cursor, more: seq<T>)
    requires used < |fs| && HasResults(before)
    requires Driven(c0, fs, step, used, items, before)
    requires (after, more) == AfterBatch(before, step(before, fs[used]))
    ensures Driven(c0, fs, step, used + 1, items + more, after)
  {
    assert fs[used..][0] == fs[used] && fs[used..][1..] == fs[used + 1..];
    var rest := Drive(after, fs[used + 1..], step);
    assert Drive(before, fs[used..], step) == (rest.0, more + rest.1, rest.2 + 1);
    assert items + (more + rest.1) == (items + more) + rest.1;
  }

  /** When the loop stops, what it has gathered is the whole run. */
  lemma DriveStop<F, T>(c0: Cursor, fs: seq<F>, step: (Cursor, F) -> Option<Processed<T>>, used: nat,
                        items: seq<T>, c: Cursor)
    requires Driven(c0, fs, step, used, items, c)
    requires used == |fs| || !HasResults(c)
    ensures Drive(c0, fs, step) == (c, items, used)
  {
    assert fs[used..] == [] || !HasResults(c);
    assert items + [] == items;
  }

  /** A batch that returns nothing and leaves the cursor where it was uses up every response and never ends the run. */
  lemma {:induction false} DriveStalls<F, T>(c: Cursor, fs: seq<F>, step: (Cursor, F) -> Option<Processed<T>>)
    requires HasResults(c)
    requires forall i :: 0 <= i < |fs| ==> step(c, fs[i]) == Some(Returned(c, []))
    ensures Drive(c, fs, step) == (c, [], |fs|)
    decreases |fs|
  {
    if fs != [] {
      assert step(c, fs[0]) == Some(Returned(c, []));
      assert forall i :: 0 <= i < |fs[1..]| ==> fs[1..][i] == fs[i + 1];
      DriveStalls(c, fs[1..], step);
      assert AfterBatch(c, step(c, fs[0])) == (c, []);
      var empty: seq<T> := [];
      assert empty + empty == empty;
    }
  }

  /** Every item of a run comes from a batch that returned normally; an error ends the run. */
  lemma {:induction false} DriveErrorEndsRun<F, T>(c: Cursor, fs: seq<F>, step: (Cursor, F) -> Option<Processed<T>>)
    requires HasResults(c) && fs != []
    requires step(c, fs[0]).None? || step(c, fs[0]).value.Raised?
    ensures Drive(c, fs, step).0.error && Drive(c, fs, step).1 == [] && Drive(c, fs, step).2 == 1
  {
    var b := AfterBatch(c, step(c, fs[0]));
    assert b.0.error && b.1 == [];
  }

  /**
   * Every response gives a page that returns normally, reports `total` and
   * advances `start` by exactly the number of records it returns.
   */
  ghost predicate Counting<F(!new), T>(step: (Cursor, F) -> Option<Processed<T>>, total: int) {
    forall c: Cursor, f: F :: step(c, f).Some? && step(c, f).value.Returned?
      && step(c, f).value.cursor == c.(total := total, start := c.start + |step(c, f).value.items|)
  }

  /**
   * When each page advances `start` by the records it returns, a run moves
   * `start` by exactly the records it yields, never sets `error`, and stops
   * before its responses run out only at `start >= total`.
   */
  lemma {:induction false} DriveCountsRecords<F(!new), T>(c: Cursor, fs: seq<F>, step: (Cursor, F) -> Option<Processed<T>>, total: int)
    requires Counting(step, total) && !c.error && (c.total == UnknownTotal || c.total == total)
    ensures Drive(c, fs, step).0.start == c.start + |Drive(c, fs, step).1|
    ensures !Drive(c, fs, step).0.error
    ensures Drive(c, fs, step).2 < |fs| ==> Drive(c, fs, step).0.start >= total
    decreases |fs|
  {
    if fs != [] && HasResults(c) {
      var p := step(c, fs[0]).value;
      assert AfterBatch(c, step(c, fs[0])) == (p.cursor, p.items);
      DriveCountsRecords(p.cursor, fs[1..], step, total);
    }
  }

  /** From a cursor with a known total, pages of one record each yield the records from `start` up to `total`. */
  lemma {:induction false} OneRecordPages<F(!new), T>(c: Cursor, fs: seq<F>, step: (Cursor, F) -> Option<Processed<T>>, total: int)
    requires Counting(step, total) && (forall c': Cursor, f: F :: |step(c', f).value.items| == 1)
    requires total > 0 && !c.error && c.total == total && |fs| >= total - c.start
    ensures |Drive(c, fs, step).1| == if c.start < total then total - c.start else 0
    decreases |fs|
  {
    if c.start < total {
      var p := step(c, fs[0]).value;
      assert |p.items| == 1 && p.cursor.start == c.start + 1;
      assert AfterBatch(c, step(c, fs[0])) == (p.cursor, p.items);
      OneRecordPages(p.cursor, fs[1..], step, total);
      assert Drive(c, fs, step).1 == p.items + Drive(p.cursor, fs[1..], step).1;
    }
  }

  /**
   * A fresh 1-based query against a provider holding `total >= 2` records,
   * fetched one record per page, ends with `total - 1` records: the last
   * one is never requested. (With `total == 1` the first request, sent
   * before any total is known, yields the one record.)
   */
  lemma RunStopsOneRecordShort<F(!new), T>(pageSize: int, fs: seq<F>, step: (Cursor, F) -> Option<Processed<T>>, total: int)
    requires Counting(step, total) && (forall c': Cursor, f: F :: |step(c', f).value.items| == 1)
    requires total > 0 && |fs| >= total
    ensures |Drive(Cursor(1, pageSize, UnknownTotal, false), fs, step).1| == if total >= 2 then total - 1 else 1
  {
    var c := Cursor(1, pageSize, UnknownTotal, false);
    var p := step(c, fs[0]).value;
    assert |p.items| == 1 && p.cursor == c.(total := total, start := 2);
    assert AfterBatch(c, step(c, fs[0])) == (p.cursor, p.items);
    OneRecordPages(p.cursor, fs[1..], step, total);
  }
}
