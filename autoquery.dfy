/**
 * The batch orchestrator (src/qal/autoquery.py): a plan of sites and
 * queries, a status grid with one cell per (site, query), the sweep that
 * asks each active cell for one more page, and the two main loops.
 */
module AutoQuery {
  import opened Wrappers
  import opened Types
  import opened Paging
  import opened Library
  import Registry
  import Store

  /** One entry of the plan's `sites`; the optional keys are None when absent. */
  datatype Site = Site(
    name: string,
    key: Option<string>,
    enabled: bool,
    start: Option<int>,
    pageSize: Option<int>,
    options: Option<map<string, string>>)

  datatype Plan = Plan(sites: seq<Site>, queries: seq<Query>)

  /** One entry of `statuses`: the empty dict, or the three fields a page writes back. */
  datatype CellStatus = Empty | Saved(total: int, start: int, pageSize: int)

  /** The status file's contents. */
  datatype Status = Status(
    statuses: seq<seq<CellStatus>>,
    hasResults: seq<seq<bool>>,
    incomplete: int,
    batches: seq<seq<int>>,
    maxBatches: Option<int>)

  /** The ways the program dies. */
  datatype Crash =
      /** Seeding reads `plan['sites'][i]` with a query index. */
    | SeedIndexError
      /** A status file whose grids do not match the plan. */
    | MalformedStatus
      /** `make_api` returned None for the site's name. */
    | UnknownSite(name: string)
      /** `set_query_options` raised. */
    | QueryRejected(error: QueryError)
      /** A raw Springer Nature record has no `identifier` attribute. */
    | RawRecordItem
      /** `estimate_batches_left` divided by a zero page size. */
    | ZeroPageSize

  /** The three grids have `rows` rows of `cols` cells each. */
  predicate Shaped(st: Status, rows: nat, cols: nat) {
    |st.statuses| == rows && |st.hasResults| == rows && |st.batches| == rows
    && forall r :: 0 <= r < rows ==> |st.statuses[r]| == cols && |st.hasResults[r]| == cols && |st.batches[r]| == cols
  }

  /** Cell (y, x) of a grid, or `d` outside it. */
  function At<T>(grid: seq<seq<T>>, y: nat, x: nat, d: T): T {
    if y < |grid| && x < |grid[y]| then grid[y][x] else d
  }

  /** Cell (y, x) is the same in both statuses. */
  predicate SameCell(a: Status, b: Status, y: nat, x: nat) {
    At(a.statuses, y, x, Empty) == At(b.statuses, y, x, Empty)
    && At(a.hasResults, y, x, false) == At(b.hasResults, y, x, false)
    && At(a.batches, y, x, 0) == At(b.batches, y, x, 0)
  }

  /** Apart from row `j`'s flagged cells, `a` and `b` agree on every cell. */
  predicate RowKept(a: Status, b: Status, rows: nat, cols: nat, j: nat)
    requires Shaped(b, rows, cols)
  {
    forall y, x :: (0 <= y < rows && 0 <= x < cols && (y != j || !b.hasResults[y][x])) ==> SameCell(a, b, y, x)
  }

  /**
   * `a` and `b` agree on every cell of the sites from `j` on, and on every
   * cell before them that a sweep leaves alone: a disabled site's, or one
   * whose flag in `b` is false.
   */
  predicate KeptFrom(a: Status, b: Status, sites: seq<Site>, cols: nat, j: nat)
    requires Shaped(b, |sites|, cols)
  {
    forall y, x :: (0 <= y < |sites| && 0 <= x < cols && (y >= j || !sites[y].enabled || !b.hasResults[y][x]))
      ==> SameCell(a, b, y, x)
  }

  /** Every cell in `cells` holds a saved cursor in `st`. */
  predicate SavedOn(st: Status, cells: seq<(nat, nat)>) {
    forall a :: a in cells ==> At(st.statuses, a.0, a.1, Empty).Saved?
  }

  /**
   * One more query of row `j`: when the visit of cell (j, i) changed no
   * other cell, the cells still as they were in `s0` are those left of the
   * row's flagged cells before `i + 1`.
   */
  lemma RowKeptStep(s0: Status, prev: Status, now: Status, rows: nat, cols: nat, j: nat, i: nat)
    requires Shaped(s0, rows, cols) && j < rows && i < cols
    requires forall y, x :: (0 <= y < rows && 0 <= x < cols && (y != j || x >= i || !s0.hasResults[y][x]))
               ==> SameCell(prev, s0, y, x)
    requires forall y, x :: (y != j || x != i || !At(prev.hasResults, j, i, false)) ==> SameCell(now, prev, y, x)
    ensures forall y, x :: (0 <= y < rows && 0 <= x < cols && (y != j || x >= i + 1 || !s0.hasResults[y][x]))
              ==> SameCell(now, s0, y, x)
  {
    forall y, x | 0 <= y < rows && 0 <= x < cols && (y != j || x >= i + 1 || !s0.hasResults[y][x])
      ensures SameCell(now, s0, y, x)
    {
      assert SameCell(prev, s0, y, x);
      assert SameCell(prev, s0, j, i);
      assert SameCell(now, prev, y, x);
    }
  }

  /** One more query of row `j`: the schedule gains the cell exactly when its flag is set. */
  lemma RowScheduleSnoc(j: nat, row: seq<bool>, i: nat)
    requires i < |row|
    ensures RowSchedule(j, row[..i + 1]) == RowSchedule(j, row[..i]) + (if row[i] then [(j, i)] else [])
  {
    assert row[..i + 1][..i] == row[..i];
  }

  /** The row's schedule up to query `k` is a prefix of the whole row's. */
  lemma {:induction false} RowSchedulePrefix(j: nat, row: seq<bool>, k: nat)
    requires k <= |row|
    ensures RowSchedule(j, row[..k]) <= RowSchedule(j, row)
    decreases |row| - k
  {
    if k < |row| {
      RowSchedulePrefix(j, row, k + 1);
      RowScheduleSnoc(j, row, k);
    } else {
      assert row[..k] == row;
    }
  }

  /** The sweep's schedule over the first `n` sites is a prefix of its schedule over the first `m`. */
  lemma {:induction false} SchedulePrefix(sites: seq<Site>, flags: seq<seq<bool>>, n: nat, m: nat)
    requires n <= m <= |sites| && m <= |flags|
    ensures Schedule(sites, flags, n) <= Schedule(sites, flags, m)
    decreases m - n
  {
    if n < m {
      SchedulePrefix(sites, flags, n + 1, m);
    }
  }

  /** The cells of row `j` saved before query `i` stay saved when its visit left them alone and saved the new one. */
  lemma RowSavedStep(prev: Status, now: Status, j: nat, row: seq<bool>, i: nat)
    requires i < |row| && SavedOn(prev, RowSchedule(j, row[..i]))
    requires forall x :: 0 <= x < i ==> SameCell(now, prev, j, x)
    requires row[i] ==> At(now.statuses, j, i, Empty).Saved?
    ensures SavedOn(now, RowSchedule(j, row[..i + 1]))
  {
    RowScheduleSnoc(j, row, i);
    forall a | a in RowSchedule(j, row[..i])
      ensures At(now.statuses, a.0, a.1, Empty).Saved?
    {
      assert SameCell(now, prev, j, a.1);
    }
  }

  /**
   * One more site of a sweep: the cells saved by the earlier sites stay
   * saved when the site's row changed only its own flagged cells and saved
   * them, or changed nothing.
   */
  lemma SweepSavedStep(prev: Status, now: Status, s0: Status, sites: seq<Site>, cols: nat, j: nat)
    requires Shaped(s0, |sites|, cols) && Shaped(prev, |sites|, cols) && j < |sites|
    requires SavedOn(prev, Schedule(sites, s0.hasResults, j))
    requires !sites[j].enabled ==> now == prev
    requires sites[j].enabled ==> RowKept(now, prev, |sites|, cols, j) && SavedOn(now, RowSchedule(j, s0.hasResults[j]))
    ensures SavedOn(now, Schedule(sites, s0.hasResults, j + 1))
  {
    var row := if sites[j].enabled then RowSchedule(j, s0.hasResults[j]) else [];
    assert Schedule(sites, s0.hasResults, j + 1) == Schedule(sites, s0.hasResults, j) + row;
    forall a | a in Schedule(sites, s0.hasResults, j + 1)
      ensures At(now.statuses, a.0, a.1, Empty).Saved?
    {
      if a in Schedule(sites, s0.hasResults, j) {
        if sites[j].enabled {
          assert SameCell(now, prev, a.0, a.1);
        }
      } else {
        assert a in row;
      }
    }
  }

  /** Site `j`'s row still holds the flags of `b` when the sites from `j` on are kept. */
  lemma KeptRowFlags(a: Status, b: Status, sites: seq<Site>, cols: nat, j: nat)
    requires Shaped(a, |sites|, cols) && Shaped(b, |sites|, cols) && j < |sites|
    requires KeptFrom(a, b, sites, cols, j)
    ensures a.hasResults[j] == b.hasResults[j]
  {
    forall x | 0 <= x < cols
      ensures a.hasResults[j][x] == b.hasResults[j][x]
    {
      assert SameCell(a, b, j, x);
    }
  }

  lemma KeptFromStep(prev: Status, now: Status, s0: Status, sites: seq<Site>, cols: nat, j: nat)
    requires Shaped(s0, |sites|, cols) && Shaped(prev, |sites|, cols) && j < |sites|
    requires KeptFrom(prev, s0, sites, cols, j)
    requires now == prev || (sites[j].enabled && RowKept(now, prev, |sites|, cols, j))
    ensures KeptFrom(now, s0, sites, cols, j + 1)
  {
    forall y, x | 0 <= y < |sites| && 0 <= x < cols && (y >= j + 1 || !sites[y].enabled || !s0.hasResults[y][x])
      ensures SameCell(now, s0, y, x)
    {
      assert SameCell(prev, s0, y, x);
      if now != prev {
        assert SameCell(now, prev, y, x);
      }
    }
  }

  function CountRow(row: seq<bool>): nat
    decreases |row|
  {
    if row == [] then 0 else CountRow(row[..|row| - 1]) + (if row[|row| - 1] then 1 else 0)
  }

  /** The number of true flags in the grid. */
  function CountTrue(grid: seq<seq<bool>>): nat
    decreases |grid|
  {
    if grid == [] then 0 else CountTrue(grid[..|grid| - 1]) + CountRow(grid[|grid| - 1])
  }

  /** `incomplete` counts exactly the true `has_results` flags. */
  predicate Counted(st: Status) {
    st.incomplete == CountTrue(st.hasResults)
  }

  lemma {:induction false} CountRowUpdate(row: seq<bool>, i: nat, b: bool)
    requires i < |row|
    ensures CountRow(row[i := b]) == CountRow(row) - (if row[i] then 1 else 0) + (if b then 1 else 0)
    decreases |row|
  {
    var n := |row|;
    if i == n - 1 {
      assert row[i := b][..n - 1] == row[..n - 1];
    } else {
      assert row[i := b][..n - 1] == row[..n - 1][i := b];
      CountRowUpdate(row[..n - 1], i, b);
    }
  }

  lemma {:induction false} CountTrueUpdate(grid: seq<seq<bool>>, j: nat, row: seq<bool>)
    requires j < |grid|
    ensures CountTrue(grid[j := row]) == CountTrue(grid) - CountRow(grid[j]) + CountRow(row)
    decreases |grid|
  {
    var n := |grid|;
    if j == n - 1 {
      assert grid[j := row][..n - 1] == grid[..n - 1];
    } else {
      assert grid[j := row][..n - 1] == grid[..n - 1][j := row];
      CountTrueUpdate(grid[..n - 1], j, row);
    }
  }

  lemma {:induction false} CountRowPositive(row: seq<bool>, i: nat)
    requires i < |row| && row[i]
    ensures CountRow(row) > 0
    decreases |row|
  {
    if i < |row| - 1 {
      assert row[..|row| - 1][i] == row[i];
      CountRowPositive(row[..|row| - 1], i);
    }
  }

  /** A single true flag keeps the count above zero. */
  lemma {:induction false} CountTruePositive(grid: seq<seq<bool>>, j: nat, i: nat)
    requires j < |grid| && i < |grid[j]| && grid[j][i]
    ensures CountTrue(grid) > 0
    decreases |grid|
  {
    if j == |grid| - 1 {
      CountRowPositive(grid[j], i);
    } else {
      assert grid[..|grid| - 1][j] == grid[j];
      CountTruePositive(grid[..|grid| - 1], j, i);
    }
  }

  lemma {:induction false} CountRepeatedRow(n: nat, row: seq<bool>)
    ensures CountTrue(Repeat(row, n)) == n * CountRow(row)
    decreases n
  {
    if n > 0 {
      RepeatSnoc(row, n - 1);
      assert Repeat(row, n)[..n - 1] == Repeat(row, n - 1);
      CountRepeatedRow(n - 1, row);
    }
  }

  /** `n` copies of `x`. */
  function Repeat<T>(x: T, n: nat): (r: seq<T>)
    ensures |r| == n && forall k :: 0 <= k < n ==> r[k] == x
  {
    seq(n, _ => x)
  }

  lemma RepeatSnoc<T>(x: T, n: nat)
    ensures Repeat(x, n + 1) == Repeat(x, n) + [x]
  {
    assert forall k :: 0 <= k < n + 1 ==> Repeat(x, n + 1)[k] == (Repeat(x, n) + [x])[k];
  }

  /** The seeded flag row: cell i reads the enabled flag of site i, not of the row's site. */
  function FlagRow(sites: seq<Site>, cols: nat): (row: seq<bool>)
    ensures |row| == cols && forall i :: 0 <= i < cols && i < |sites| ==> row[i] == sites[i].enabled
  {
    seq(cols, i requires 0 <= i < cols => i < |sites| && sites[i].enabled)
  }

  lemma FlagRowSnoc(sites: seq<Site>, i: nat)
    requires i < |sites|
    ensures FlagRow(sites, i + 1) == FlagRow(sites, i) + [sites[i].enabled]
  {
    assert forall k :: 0 <= k < i + 1 ==> FlagRow(sites, i + 1)[k] == (FlagRow(sites, i) + [sites[i].enabled])[k];
  }

  /**
   * The seeded status, or None for the IndexError: every cell empty with
   * ten batches, `max_batches` ten, and `incomplete` started at
   * sites × queries with one subtracted per false flag.
   */
  function SeedSpec(plan: Plan): (r: Option<Status>)
    ensures r.None? <==> 0 < |plan.sites| < |plan.queries|
    ensures r.Some? ==>
              Shaped(r.value, |plan.sites|, |plan.queries|) && r.value.maxBatches == Some(10)
              && forall j, i :: 0 <= j < |plan.sites| && 0 <= i < |plan.queries| ==>
                   r.value.statuses[j][i] == Empty && r.value.batches[j][i] == 10
                   && r.value.hasResults[j][i] == plan.sites[i].enabled
  {
    var rows, cols := |plan.sites|, |plan.queries|;
    if rows == 0 then Some(Status([], [], 0, [], Some(10)))
    else if cols > rows then None
    else
      var row := FlagRow(plan.sites, cols);
      Some(Status(Repeat(Repeat(Empty, cols), rows), Repeat(row, rows),
                  rows * cols - rows * (cols - CountRow(row)), Repeat(Repeat(10, cols), rows), Some(10)))
  }

  lemma MulSucc(a: int, b: int)
    ensures (a + 1) * b == a * b + b
  {
  }

  lemma MulDistributes(a: int, b: int, c: int)
    ensures a * b - a * (b - c) == a * c
  {
  }

  /**
   * A seeded status is counted, and a disabled site's row in it carries
   * the flag of every enabled site whose index is also a query's.
   */
  lemma SeedStalls(plan: Plan)
    requires SeedSpec(plan).Some?
    ensures Counted(SeedSpec(plan).value)
    ensures (exists j, i :: 0 <= j < |plan.sites| && 0 <= i < |plan.queries| && i < |plan.sites|
                            && !plan.sites[j].enabled && plan.sites[i].enabled)
            ==> exists j, i :: 0 <= j < |plan.sites| && 0 <= i < |plan.queries|
                               && !plan.sites[j].enabled && SeedSpec(plan).value.hasResults[j][i]
  {
    SeedCounted(plan);
    if exists j, i :: 0 <= j < |plan.sites| && 0 <= i < |plan.queries| && i < |plan.sites|
                      && !plan.sites[j].enabled && plan.sites[i].enabled {
      var j, i :| 0 <= j < |plan.sites| && 0 <= i < |plan.queries| && i < |plan.sites|
                  && !plan.sites[j].enabled && plan.sites[i].enabled;
      assert SeedSpec(plan).value.hasResults[j][i];
    }
  }

  /** After seeding, `incomplete` is the number of true flags. */
  lemma SeedCounted(plan: Plan)
    requires SeedSpec(plan).Some?
    ensures Counted(SeedSpec(plan).value)
  {
    var rows, cols := |plan.sites|, |plan.queries|;
    if rows > 0 {
      var row := FlagRow(plan.sites, cols);
      var st := SeedSpec(plan).value;
      assert st.hasResults == Repeat(row, rows);
      CountRepeatedRow(rows, row);
      MulDistributes(rows, cols, CountRow(row));
    }
  }

  /**
   * The seeding mix-up on a small plan: with one enabled and one disabled
   * site and two queries, the disabled site's row gets a true flag, so it
   * counts as incomplete although no sweep ever visits it.
   */
  lemma SeedMixUpExample(a: Site, b: Site, q1: Query, q2: Query)
    requires a.enabled && !b.enabled
    ensures SeedSpec(Plan([a, b], [q1, q2])).Some?
    ensures SeedSpec(Plan([a, b], [q1, q2])).value.hasResults[1] == [true, false]
    ensures SeedSpec(Plan([a, b], [q1, q2])).value.incomplete == 2
  {
    var row := FlagRow([a, b], 2);
    assert row == [true, false];
    assert row[..1] == [true] && [true][..0] == [];
    assert CountRow(row) == 1;
  }

  /** `restore_query_status`: an empty cell leaves the adapter alone; a saved one overrides its three fields. */
  function Restore(cell: CellStatus, c: Cursor): Cursor {
    match cell
    case Empty => c
    case Saved(total, start, pageSize) => c.(start := start, pageSize := pageSize, total := total)
  }

  /** The three fields the sweep writes back. */
  function CellOf(c: Cursor): CellStatus {
    Saved(c.total, c.start, c.pageSize)
  }

  /** The cursor `make_api_object` gives an adapter: the plan's start and page size over the defaults. */
  function InitialCursor(site: Site, p: Provider): Cursor {
    Cursor(if site.start.Some? then site.start.value else 1,
           if site.pageSize.Some? then site.pageSize.value else DefaultPageSizeOf(p),
           UnknownTotal, false)
  }

  /** A saved cell overrides whatever the plan says about start and page size. */
  lemma RestoreOverridesPlan(cell: CellStatus, s1: Site, s2: Site, p: Provider)
    requires cell.Saved?
    ensures Restore(cell, InitialCursor(s1, p)) == Restore(cell, InitialCursor(s2, p))
    ensures CellOf(Restore(cell, InitialCursor(s1, p))) == cell
  {
  }

  /** A written-back cell restores to the cursor it was written from, `error` aside. */
  lemma WriteBackRoundTrip(c: Cursor, other: Cursor)
    ensures Restore(CellOf(c), other) == c.(error := other.error)
  {
  }

  /** `max_runs` computes a maximum and discards it: the function returns None. */
  function MaxRuns(batches: seq<seq<int>>): (r: Option<int>)
    ensures r.None?
  {
    None
  }

  /**
   * The write-back after a page: the cell's three fields and flag from the
   * adapter, its batch estimate, `max_batches` from `max_runs`, and one
   * fewer incomplete cell when the flag is now false.
   */
  function CellUpdate(st: Status, rows: nat, cols: nat, j: nat, i: nat, c: Cursor, left: int): (r: Status)
    requires Shaped(st, rows, cols) && j < rows && i < cols
    ensures Shaped(r, rows, cols)
    ensures forall r', c' :: 0 <= r' < rows && 0 <= c' < cols && (r' != j || c' != i) ==> SameCell(r, st, r', c')
    ensures r.statuses[j][i] == CellOf(c) && r.hasResults[j][i] == HasResults(c) && r.batches[j][i] == left
    ensures r.maxBatches.None?
    ensures r.incomplete == if HasResults(c) then st.incomplete else st.incomplete - 1
  {
    var flags := st.hasResults[j := st.hasResults[j][i := HasResults(c)]];
    var batches := st.batches[j := st.batches[j][i := left]];
    Status(st.statuses[j := st.statuses[j][i := CellOf(c)]], flags,
           if HasResults(c) then st.incomplete else st.incomplete - 1,
           batches, MaxRuns(batches))
  }

  /** Processing a cell whose flag was true keeps `incomplete` equal to the number of true flags. */
  lemma CellUpdateKeepsCount(st: Status, rows: nat, cols: nat, j: nat, i: nat, c: Cursor, left: int)
    requires Shaped(st, rows, cols) && j < rows && i < cols
    requires st.hasResults[j][i] && Counted(st)
    ensures Counted(CellUpdate(st, rows, cols, j, i, c, left))
  {
    CountRowUpdate(st.hasResults[j], i, HasResults(c));
    CountTrueUpdate(st.hasResults, j, st.hasResults[j][i := HasResults(c)]);
  }

  /** The cells of one row a sweep processes, in query order. */
  function RowSchedule(j: nat, row: seq<bool>): (s: seq<(nat, nat)>)
    ensures forall a :: a in s ==> a.0 == j && a.1 < |row|
    decreases |row|
  {
    if row == [] then []
    else RowSchedule(j, row[..|row| - 1]) + (if row[|row| - 1] then [(j, |row| - 1)] else [])
  }

  /** The cells a sweep processes among the first `n` sites: enabled sites only, site-major. */
  function Schedule(sites: seq<Site>, flags: seq<seq<bool>>, n: nat): (s: seq<(nat, nat)>)
    requires n <= |sites| && n <= |flags|
    ensures forall a :: a in s ==> a.0 < n && a.1 < |flags[a.0]|
    decreases n
  {
    if n == 0 then []
    else Schedule(sites, flags, n - 1) + (if sites[n - 1].enabled then RowSchedule(n - 1, flags[n - 1]) else [])
  }

  /** Cell (a) comes before cell (b) in site-major order. */
  predicate Before(a: (nat, nat), b: (nat, nat)) {
    a.0 < b.0 || (a.0 == b.0 && a.1 < b.1)
  }

  lemma {:induction false} RowScheduleCells(j: nat, row: seq<bool>)
    ensures forall a :: a in RowSchedule(j, row) <==> a.0 == j && a.1 < |row| && row[a.1]
    ensures forall x, y :: 0 <= x < y < |RowSchedule(j, row)| ==> Before(RowSchedule(j, row)[x], RowSchedule(j, row)[y])
    decreases |row|
  {
    if row != [] {
      var init := row[..|row| - 1];
      RowScheduleCells(j, init);
      assert forall k :: 0 <= k < |init| ==> init[k] == row[k];
    }
  }

  /** Cells in strictly increasing site-major order. */
  predicate Ordered(s: seq<(nat, nat)>) {
    forall x, y :: 0 <= x < y < |s| ==> Before(s[x], s[y])
  }

  /** Two ordered runs, every cell of the first before every cell of the second, make an ordered run. */
  lemma ConcatOrdered(s: seq<(nat, nat)>, t: seq<(nat, nat)>)
    requires Ordered(s) && Ordered(t)
    requires forall a, b :: a in s && b in t ==> Before(a, b)
    ensures Ordered(s + t)
  {
    forall x, y | 0 <= x < y < |s + t|
      ensures Before((s + t)[x], (s + t)[y])
    {
      if y < |s| {
        assert (s + t)[x] == s[x] && (s + t)[y] == s[y];
      } else if x < |s| {
        assert (s + t)[x] == s[x] && (s + t)[y] == t[y - |s|];
        assert s[x] in s && t[y - |s|] in t;
      } else {
        assert (s + t)[x] == t[x - |s|] && (s + t)[y] == t[y - |s|];
      }
    }
  }

  /** The cells a sweep over the first `n` sites processes are those of enabled sites whose flag is true. */
  lemma {:induction false} ScheduleMembers(sites: seq<Site>, flags: seq<seq<bool>>, n: nat)
    requires n <= |sites| && n <= |flags|
    ensures forall a :: a in Schedule(sites, flags, n) <==>
              a.0 < n && sites[a.0].enabled && a.1 < |flags[a.0]| && flags[a.0][a.1]
    decreases n
  {
    if n > 0 {
      ScheduleMembers(sites, flags, n - 1);
      RowScheduleCells(n - 1, flags[n - 1]);
    }
  }

  /** A sweep over the first `n` sites visits its cells site by site, queries in order. */
  /** Every cell of the sites before `j` comes before every cell of site `j`. */
  lemma EarlierSitesFirst(s: seq<(nat, nat)>, t: seq<(nat, nat)>, j: nat)
    requires forall a :: a in s ==> a.0 < j
    requires forall b :: b in t ==> b.0 == j
    ensures forall a, b :: a in s && b in t ==> Before(a, b)
  {
  }

  lemma {:induction false} ScheduleOrdered(sites: seq<Site>, flags: seq<seq<bool>>, n: nat)
    requires n <= |sites| && n <= |flags|
    ensures Ordered(Schedule(sites, flags, n))
    decreases n
  {
    if n > 0 {
      var s, t := Schedule(sites, flags, n - 1), if sites[n - 1].enabled then RowSchedule(n - 1, flags[n - 1]) else [];
      ScheduleOrdered(sites, flags, n - 1);
      RowScheduleCells(n - 1, flags[n - 1]);
      EarlierSitesFirst(s, t, n - 1);
      ConcatOrdered(s, t);
    }
  }

  /**
   * A sweep processes exactly the cells of enabled sites whose flag is
   * true, each once, sites in plan order and queries in plan order within
   * a site.
   */
  lemma ScheduleCells(sites: seq<Site>, flags: seq<seq<bool>>, n: nat)
    requires n <= |sites| && n <= |flags|
    ensures forall a :: a in Schedule(sites, flags, n) <==>
              a.0 < n && sites[a.0].enabled && a.1 < |flags[a.0]| && flags[a.0][a.1]
    ensures forall x, y :: 0 <= x < y < |Schedule(sites, flags, n)| ==>
              Before(Schedule(sites, flags, n)[x], Schedule(sites, flags, n)[y])
  {
    ScheduleMembers(sites, flags, n);
    ScheduleOrdered(sites, flags, n);
  }

  /** The publication records among the items. */
  function Ids(items: seq<Item>): set<string> {
    set k | 0 <= k < |items| && items[k].Pub? :: items[k].bib.identifier
  }

  lemma IdsSnoc(items: seq<Item>, k: nat)
    requires k < |items|
    ensures Ids(items[..k + 1]) == Ids(items[..k]) + (if items[k].Pub? then {items[k].bib.identifier} else {})
  {
    assert forall m :: 0 <= m < k ==> items[..k + 1][m] == items[..k][m];
    assert items[..k + 1][k] == items[k];
  }

  /** The store's contents after a page's items are added in order under the site's name and the query. */
  function AddAll(m: map<string, Store.Stored>, items: seq<Item>, source: string, query: Query): map<string, Store.Stored>
    decreases |items|
  {
    if items == [] then m
    else
      var rest := AddAll(m, items[..|items| - 1], source, query);
      var last := items[|items| - 1];
      if last.Pub? then Store.Added(rest, last.bib, map[], Some(source), Some(query)) else rest
  }

  lemma AddAllSnoc(m: map<string, Store.Stored>, items: seq<Item>, k: nat, source: string, query: Query)
    requires k < |items| && items[k].Pub?
    ensures AddAll(m, items[..k + 1], source, query) == Store.Added(AddAll(m, items[..k], source, query), items[k].bib, map[], Some(source), Some(query))
  {
    assert items[..k + 1][..k] == items[..k];
  }

  /** The number of publications among the items with identifier `id`. */
  function Count(items: seq<Item>, id: string): nat
    decreases |items|
  {
    if items == [] then 0
    else Count(items[..|items| - 1], id) + (if items[|items| - 1].Pub? && items[|items| - 1].bib.identifier == id then 1 else 0)
  }

  /** The queries recorded for `id` under `source`; none when either is missing. */
  function TermsOf(m: map<string, Store.Stored>, id: string, source: string): seq<Query> {
    if id in m && source in m[id].searchTerms then m[id].searchTerms[source] else []
  }

  /** Adding a page keeps every identifier and adds exactly the page's. */
  lemma {:induction false} AddAllKeys(m: map<string, Store.Stored>, items: seq<Item>, source: string, query: Query)
    ensures AddAll(m, items, source, query).Keys == m.Keys + Ids(items)
    decreases |items|
  {
    if items != [] {
      var n := |items| - 1;
      AddAllKeys(m, items[..n], source, query);
      IdsSnoc(items, n);
      assert items[..n + 1] == items;
    }
  }

  /** A record already in the store is never replaced by a page's publication. */
  lemma {:induction false} AddAllKeepsStored(m: map<string, Store.Stored>, items: seq<Item>, source: string, query: Query)
    ensures forall k :: k in m ==> k in AddAll(m, items, source, query) && AddAll(m, items, source, query)[k].bib == m[k].bib
    decreases |items|
  {
    if items != [] {
      AddAllKeepsStored(m, items[..|items| - 1], source, query);
    }
  }

  /**
   * The first record seen for an identifier is the one kept: a new
   * identifier keeps the page's first publication that carries it.
   */
  lemma {:induction false} AddAllFirstWins(m: map<string, Store.Stored>, items: seq<Item>, source: string, query: Query, f: nat)
    requires f < |items| && items[f].Pub?
    requires items[f].bib.identifier !in m && items[f].bib.identifier !in Ids(items[..f])
    ensures items[f].bib.identifier in AddAll(m, items, source, query)
    ensures AddAll(m, items, source, query)[items[f].bib.identifier].bib == items[f].bib
    decreases |items|
  {
    var n := |items| - 1;
    if f < n {
      assert items[..n][..f] == items[..f] && items[..n][f] == items[f];
      AddAllFirstWins(m, items[..n], source, query, f);
    } else {
      AddAllKeys(m, items[..n], source, query);
      assert items[..f] == items[..n];
    }
  }

  /**
   * Provenance is appended once per publication: an identifier that `n`
   * of the page's publications carry gains the query `n` times under the
   * site's name, and its other sources keep their lists.
   */
  lemma {:induction false} AddAllProvenance(m: map<string, Store.Stored>, items: seq<Item>, source: string, query: Query, id: string, other: string)
    requires other != source
    ensures TermsOf(AddAll(m, items, source, query), id, source) == TermsOf(m, id, source) + Repeat(query, Count(items, id))
    ensures TermsOf(AddAll(m, items, source, query), id, other) == TermsOf(m, id, other)
    decreases |items|
  {
    if items != [] {
      var n := |items| - 1;
      AddAllProvenance(m, items[..n], source, query, id, other);
      RepeatSnoc(query, Count(items[..n], id));
    }
  }

  /**
   * What the orchestrator has done so far, as a value: the status, the
   * requests sent, the statuses written, the store's contents and the
   * number of times the store was saved.
   */
  datatype World = World(status: Status, requests: nat, written: seq<Status>, contents: map<string, Store.Stored>, saves: nat)

  /** Where processing some cells ends: a world, or the crash that ends the program. */
  datatype RunResult = Reached(world: World) | Crashed(crash: Crash)

  /**
   * The cells processed one after another from world `w`, each by `step`
   * from the world the previous one reached; the first crash ends the run.
   */
  function RunCells(step: (World, nat, nat) -> RunResult, w: World, cells: seq<(nat, nat)>): (r: RunResult)
    ensures cells == [] ==> r == Reached(w)
    decreases |cells|
  {
    if cells == [] then Reached(w)
    else
      var prev := RunCells(step, w, cells[..|cells| - 1]);
      if prev.Crashed? then prev else step(prev.world, cells[|cells| - 1].0, cells[|cells| - 1].1)
  }

  /** The cells one sweep processes, given the flags it starts with: none when the flags have too few rows. */
  function SweepCells(sites: seq<Site>, flags: seq<seq<bool>>): seq<(nat, nat)> {
    if |sites| <= |flags| then Schedule(sites, flags, |sites|) else []
  }

  /** One sweep from `w`: the cells that `w`'s flags schedule, run one after another by `step`. */
  function Sweeper(step: (World, nat, nat) -> RunResult, sites: seq<Site>): World -> RunResult {
    (w: World) => RunCells(step, w, SweepCells(sites, w.status.hasResults))
  }

  /**
   * `sweep` is one sweep on every world. The equation is used only where
   * the run of a sweep's cells is in sight, so that reasoning about whole
   * runs of sweeps does not expand each sweep's schedule.
   */
  ghost predicate SweepIs(sweep: World -> RunResult, step: (World, nat, nat) -> RunResult, sites: seq<Site>) {
    forall w: World {:trigger RunCells(step, w, SweepCells(sites, w.status.hasResults))} ::
      sweep(w) == RunCells(step, w, SweepCells(sites, w.status.hasResults))
  }

  lemma SweeperIs(step: (World, nat, nat) -> RunResult, sites: seq<Site>)
    ensures SweepIs(Sweeper(step, sites), step, sites)
  {
  }

  /** `n` sweeps from `w`; the first crash ends them. */
  function Sweeps(sweep: World -> RunResult, w: World, n: nat): RunResult
    decreases n
  {
    if n == 0 then Reached(w)
    else
      var prev := Sweeps(sweep, w, n - 1);
      if prev.Crashed? then prev else sweep(prev.world)
  }

  /** Sweeps from `w` while some cell is incomplete, at most `fuel` of them; the first crash ends them. */
  function SweepsUntilDone(sweep: World -> RunResult, w: World, fuel: nat): RunResult
    decreases fuel
  {
    if fuel == 0 || w.status.incomplete <= 0 then Reached(w)
    else
      var next := sweep(w);
      if next.Crashed? then next else SweepsUntilDone(sweep, next.world, fuel - 1)
  }

  /** Once a sweep crashes, more sweeps give the same crash. */
  lemma {:induction false} SweepsCrashed(sweep: World -> RunResult, w: World, n: nat, m: nat)
    requires n <= m && Sweeps(sweep, w, n).Crashed?
    ensures Sweeps(sweep, w, m) == Sweeps(sweep, w, n)
    decreases m
  {
    if n < m {
      SweepsCrashed(sweep, w, n, m - 1);
    }
  }

  /** One more cell after a run that reached `v`: the run's outcome is that cell's step from `v`. */
  lemma RunCellsSnoc(step: (World, nat, nat) -> RunResult, w: World, cells: seq<(nat, nat)>, v: World, c: (nat, nat))
    requires RunCells(step, w, cells) == Reached(v)
    ensures RunCells(step, w, cells + [c]) == step(v, c.0, c.1)
  {
    assert (cells + [c])[..|cells|] == cells;
  }

  /** A run over `s` and then `t` is the run over `t` from where the run over `s` ended, unless that crashed. */
  lemma {:induction false} RunCellsAppend(step: (World, nat, nat) -> RunResult, w: World, s: seq<(nat, nat)>, t: seq<(nat, nat)>)
    ensures RunCells(step, w, s + t) ==
              if RunCells(step, w, s).Crashed? then RunCells(step, w, s) else RunCells(step, RunCells(step, w, s).world, t)
    decreases |t|
  {
    if t == [] {
      assert s + t == s;
    } else {
      var n := |t| - 1;
      RunCellsAppend(step, w, s, t[..n]);
      assert (s + t)[..|s + t| - 1] == s + t[..n];
    }
  }

  /** Once a run crashes, running more cells after it gives the same crash. */
  lemma {:induction false} RunCellsCrashed(step: (World, nat, nat) -> RunResult, w: World, s: seq<(nat, nat)>, t: seq<(nat, nat)>)
    requires s <= t && RunCells(step, w, s).Crashed?
    ensures RunCells(step, w, t) == RunCells(step, w, s)
    decreases |t|
  {
    if t != s {
      var n := |t| - 1;
      assert s <= t[..n];
      RunCellsCrashed(step, w, s, t[..n]);
    }
  }

  /** A crash within the first `i + 1` queries of a row is the crash of the whole row. */
  lemma RowCrashed(step: (World, nat, nat) -> RunResult, w: World, j: nat, row: seq<bool>, i: nat)
    requires i < |row| && RunCells(step, w, RowSchedule(j, row[..i + 1])).Crashed?
    ensures RunCells(step, w, RowSchedule(j, row)) == RunCells(step, w, RowSchedule(j, row[..i + 1]))
  {
    RowSchedulePrefix(j, row, i + 1);
    assert row[..|row|] == row;
    RunCellsCrashed(step, w, RowSchedule(j, row[..i + 1]), RowSchedule(j, row));
  }

  /** One more site of a sweep: its row's cells run from where the earlier sites' cells ended. */
  lemma ScheduleRun(step: (World, nat, nat) -> RunResult, w: World, sites: seq<Site>, flags: seq<seq<bool>>, j: nat, v: World)
    requires j < |sites| && j < |flags| && RunCells(step, w, Schedule(sites, flags, j)) == Reached(v)
    ensures RunCells(step, w, Schedule(sites, flags, j + 1))
            == if sites[j].enabled then RunCells(step, v, RowSchedule(j, flags[j])) else Reached(v)
  {
    if sites[j].enabled {
      RunCellsAppend(step, w, Schedule(sites, flags, j), RowSchedule(j, flags[j]));
    } else {
      assert Schedule(sites, flags, j + 1) == Schedule(sites, flags, j);
    }
  }

  /** An enabled site's row extends a trace that ends with the earlier sites' schedule to the next site's. */
  lemma TraceStep(t0: seq<(nat, nat)>, sites: seq<Site>, flags: seq<seq<bool>>, j: nat)
    requires j < |sites| && j < |flags| && sites[j].enabled
    ensures (t0 + Schedule(sites, flags, j)) + RowSchedule(j, flags[j]) == t0 + Schedule(sites, flags, j + 1)
  {
  }

  /** A crash among the first `j + 1` sites is the crash of the whole sweep. */
  lemma SweepCrashed(step: (World, nat, nat) -> RunResult, w: World, sites: seq<Site>, flags: seq<seq<bool>>, j: nat)
    requires j < |sites| <= |flags| && RunCells(step, w, Schedule(sites, flags, j + 1)).Crashed?
    ensures RunCells(step, w, SweepCells(sites, flags)) == RunCells(step, w, Schedule(sites, flags, j + 1))
  {
    SchedulePrefix(sites, flags, j + 1, |sites|);
    RunCellsCrashed(step, w, Schedule(sites, flags, j + 1), Schedule(sites, flags, |sites|));
  }

  /** The orchestrator's state: the plan, the status it keeps and writes, and the objects it drives. */
  class Orchestrator {
    const plan: Plan
    const registry: Registry.Registry
    /** The registry's two tables, which nothing changes once the package is loaded. */
    ghost const apis: map<string, Provider>
    ghost const envVarNames: map<string, string>
    const environ: map<string, string>
    const venues: Registry.Venues
    const store: Store.ResultsStore
    /** The network: the response to the n-th request sent, given the request. */
    const network: (nat, Request) -> Fetched
    /** Whether the status file was missing or empty, so that the status must be seeded. */
    const needsSeed: bool
    var status: Status
    /** Requests sent so far. */
    var requests: nat
    /** Every status written to the status file, in order. */
    var written: seq<Status>
    /** The cells processed so far, in order. */
    ghost var trace: seq<(nat, nat)>
    /** The sweeps started so far. */
    ghost var sweeps: nat

    ghost predicate Valid()
      reads this, store
    {
      store.Valid() && store.saviness == 1 && Shaped(status, |plan.sites|, |plan.queries|)
    }

    /** The registry still holds the tables the specification reads. */
    ghost predicate Synced()
      reads registry
    {
      registry.apis == apis && registry.envVarNames == envVarNames
    }

    /** The state after the plan and status files are read and the store is opened. */
    constructor (plan: Plan, loaded: Option<Status>, registry: Registry.Registry, environ: map<string, string>,
                 venues: Registry.Venues, store: Store.ResultsStore, network: (nat, Request) -> Fetched)
      ensures this.plan == plan && this.registry == registry && this.environ == environ && this.venues == venues
      ensures this.store == store && this.network == network && Synced()
      ensures needsSeed == loaded.None? && (loaded.Some? ==> status == loaded.value)
      ensures requests == 0 && written == [] && trace == [] && sweeps == 0
    {
      this.plan := plan;
      this.registry := registry;
      apis := registry.apis;
      envVarNames := registry.envVarNames;
      this.environ := environ;
      this.venues := venues;
      this.store := store;
      this.network := network;
      needsSeed := loaded.None?;
      status := if loaded.Some? then loaded.value else Status([], [], 0, [], None);
      requests := 0;
      written := [];
      trace := [];
      sweeps := 0;
    }

    /**
     * The inner seeding loop for one site's row: an empty cell, a flag read
     * from the site whose index is the query's, and ten batches per query;
     * `dropped` counts the false flags. The flag read fails once the query
     * index passes the last site.
     */
    method SeedRow(cols: nat) returns (r: Outcome<Crash>, row: seq<CellStatus>, flagRow: seq<bool>, batchRow: seq<int>, dropped: int)
      ensures r.Pass? <==> cols <= |plan.sites|
      ensures r.Fail? ==> r.error == SeedIndexError
      ensures r.Pass? ==>
                row == Repeat(Empty, cols) && batchRow == Repeat(10, cols)
                && flagRow == FlagRow(plan.sites, cols) && dropped == cols - CountRow(flagRow)
    {
      row, flagRow, batchRow, dropped := [], [], [], 0;
      var i := 0;
      while i < cols
        invariant 0 <= i <= cols && i <= |plan.sites|
        invariant row == Repeat(Empty, i) && batchRow == Repeat(10, i)
        invariant flagRow == FlagRow(plan.sites, i) && dropped == i - CountRow(flagRow)
      {
        RepeatSnoc(Empty, i);
        row := row + [Empty];
        if i >= |plan.sites| {
          return Fail(SeedIndexError), row, flagRow, batchRow, dropped;
        }
        FlagRowSnoc(plan.sites, i);
        assert (flagRow + [plan.sites[i].enabled])[..i] == flagRow;
        if plan.sites[i].enabled {
          flagRow := flagRow + [true];
        } else {
          flagRow := flagRow + [false];
          dropped := dropped + 1;
        }
        RepeatSnoc(10, i);
        batchRow := batchRow + [10];
        i := i + 1;
      }
      r := Pass;
    }

    /** The seeding loops. */
    method Seed() returns (r: Outcome<Crash>)
      modifies this
      ensures r.Pass? <==> SeedSpec(plan).Some?
      ensures r.Pass? ==> status == SeedSpec(plan).value
      ensures r.Fail? ==> r.error == SeedIndexError && status == old(status)
      ensures written == old(written) && requests == old(requests) && trace == old(trace) && sweeps == old(sweeps)
    {
      var rows, cols := |plan.sites|, |plan.queries|;
      var statuses: seq<seq<CellStatus>> := [];
      var flags: seq<seq<bool>> := [];
      var batches: seq<seq<int>> := [];
      var incomplete := rows * cols;
      ghost var falses := cols - CountRow(FlagRow(plan.sites, cols));
      var j := 0;
      while j < rows
        invariant 0 <= j <= rows && unchanged(this)
        invariant j > 0 ==> cols <= rows
        invariant statuses == Repeat(Repeat(Empty, cols), j) && batches == Repeat(Repeat(10, cols), j)
        invariant flags == Repeat(FlagRow(plan.sites, cols), j)
        invariant incomplete == rows * cols - j * falses
      {
        var row, flagRow, batchRow, dropped;
        r, row, flagRow, batchRow, dropped := SeedRow(cols);
        if r.Fail? {
          return;
        }
        incomplete := incomplete - dropped;
        MulSucc(j, falses);
        RepeatSnoc(Repeat(Empty, cols), j);
        RepeatSnoc(Repeat(10, cols), j);
        RepeatSnoc(FlagRow(plan.sites, cols), j);
        statuses := statuses + [row];
        flags := flags + [flagRow];
        batches := batches + [batchRow];
        j := j + 1;
      }
      status := Status(statuses, flags, incomplete, batches, Some(10));
      r := Pass;
    }

    /** Seed the status when the file had none, refuse a status that does not fit the plan, and write it. */
    method Prepare() returns (r: Outcome<Crash>)
      requires store.Valid() && store.saviness == 1
      modifies this
      ensures r.Pass? ==> Valid() && written == old(written) + [status]
      ensures r.Fail? ==> written == old(written)
      ensures needsSeed ==> (r.Pass? <==> SeedSpec(plan).Some?) && (r.Pass? ==> status == SeedSpec(plan).value)
      ensures !needsSeed ==> (r.Pass? <==> Shaped(old(status), |plan.sites|, |plan.queries|)) && status == old(status)
      ensures requests == old(requests) && trace == old(trace) && sweeps == old(sweeps)
    {
      if needsSeed {
        r := Seed();
        if r.Fail? {
          return;
        }
      } else if !Shaped(status, |plan.sites|, |plan.queries|) {
        return Fail(MalformedStatus);
      } else {
        r := Pass;
      }
      written := written + [status];
    }

    /** `make_api_object`: the registry's adapter for the site, with the plan's start, page size and options. */
    method MakeApiObject(site: Site) returns (api: DigitalLibrary?)
      requires Synced()
      ensures api == null <==> site.name !in apis
      ensures api != null ==>
                fresh(api) && api.Valid() && api.provider == apis[site.name]
                && api.apiKey == Registry.EnvKey(envVarNames, site.name, site.key, environ)
                && api.sanitize == Registry.CleanerOf(venues, api.provider)
                && api.State() == InitialCursor(site, api.provider) && api.queryData == map[]
                && api.options == if site.options.Some? then Merge(map[], site.options.value) else map[]
    {
      api := registry.MakeApi(site.name, registry.GetEnvVar(site.name, site.key, environ), venues);
      if api == null {
        return;
      }
      if site.start.Some? {
        api.start := site.start.value;
      }
      if site.pageSize.Some? {
        api.pageSize := site.pageSize.value;
      }
      if site.options.Some? {
        api.SetOptions(site.options.value);
      }
    }

    /**
     * The loop over a page's items: each publication goes into the store
     * under the site's name and the query; a raw Springer Nature record
     * has no identifier and ends the program.
     */
    method AddItems(items: seq<Item>, source: string, query: Query) returns (r: Outcome<Crash>)
      requires store.Valid() && store.saviness == 1
      modifies store, store.Repr
      ensures store.Valid()
      ensures old(store.Repr) <= store.Repr && fresh(store.Repr - old(store.Repr))
      ensures r.Pass? <==> forall k :: 0 <= k < |items| ==> items[k].Pub?
      ensures r.Fail? ==> r.error == RawRecordItem
      ensures r.Pass? ==> store.data.Keys == old(store.data.Keys) + Ids(items)
      ensures r.Pass? ==> store.Contents() == AddAll(old(store.Contents()), items, source, query)
                          && store.saves == old(store.saves) + |items|
    {
      var k := 0;
      while k < |items|
        invariant 0 <= k <= |items|
        invariant store.Valid()
        invariant old(store.Repr) <= store.Repr && fresh(store.Repr - old(store.Repr))
        invariant forall m :: 0 <= m < k ==> items[m].Pub?
        invariant store.Contents() == AddAll(old(store.Contents()), items[..k], source, query)
        invariant store.saves == old(store.saves) + k
      {
        if items[k].Raw? {
          return Fail(RawRecordItem);
        }
        AddPublication(items[k].bib, source, query);
        AddAllSnoc(old(store.Contents()), items, k, source, query);
        k := k + 1;
      }
      assert items[..k] == items;
      AddAllKeys(old(store.Contents()), items, source, query);
      r := Pass;
    }

    /** `results.add_item` for one page item: the store holds one more addition and has saved once more. */
    method AddPublication(bib: Bib, source: string, query: Query)
      requires store.Valid() && store.saviness == 1
      modifies store, store.Repr
      ensures store.Valid()
      ensures old(store.Repr) <= store.Repr && fresh(store.Repr - old(store.Repr))
      ensures store.Contents() == Store.Added(old(store.Contents()), bib, map[], Some(source), Some(query))
      ensures store.saves == old(store.saves) + 1
    {
      var pub := new Publication(bib);
      var _ := store.AddItem(pub, Some(source), Some(query));
    }

    /**
     * What one cell's page does to the adapter's cursor: `before` is the
     * cell restored over the site's initial cursor, and `after` is that
     * cursor moved by the `n`-th response to the request it builds.
     */
    ghost predicate Paged(j: nat, i: nat, cell: CellStatus, n: nat, before: Cursor, after: Cursor)
      requires j < |plan.sites| && i < |plan.queries|
    {
      plan.sites[j].name in apis
      && before == Restore(cell, InitialCursor(plan.sites[j], apis[plan.sites[j].name]))
      && after == PageOutcome(j, i, cell, n).0
    }

    /** The cursor and items of one cell's page, when its site is registered. */
    ghost function PageOutcome(j: nat, i: nat, cell: CellStatus, n: nat): (Cursor, seq<Item>)
      requires j < |plan.sites| && i < |plan.queries| && plan.sites[j].name in apis
    {
      var site := plan.sites[j];
      var p := apis[site.name];
      var before := Restore(cell, InitialCursor(site, p));
      var qd := ApplyQuery(OptionTableOf(p), map[], plan.queries[i]).0;
      AfterBatch(before, StepFn(p, Registry.CleanerOf(venues, p))(before,
                 network(n, RequestOf(p, before, Registry.EnvKey(envVarNames, site.name, site.key, environ), qd))))
    }

    ghost function PageItems(j: nat, i: nat, cell: CellStatus, n: nat): seq<Item>
      requires j < |plan.sites| && i < |plan.queries| && plan.sites[j].name in apis
    {
      PageOutcome(j, i, cell, n).1
    }

    /** The orchestrator's state as a value. */
    ghost function Snapshot(): World
      reads this`status, this`requests, this`written, store, store.data.Values
    {
      World(status, requests, written, store.Contents(), store.saves)
    }

    /**
     * One flagged cell of a sweep. It crashes when the site is unknown or
     * the query is rejected; otherwise the adapter restored from the cell
     * fetches the page that `PageOutcome` gives, and the cell is written
     * back from it.
     */
    ghost function CellStep(w: World, j: nat, i: nat): (r: RunResult)
      requires j < |plan.sites| && i < |plan.queries| && Shaped(w.status, |plan.sites|, |plan.queries|)
      ensures r.Reached? ==> Shaped(r.world.status, |plan.sites|, |plan.queries|)
    {
      var site := plan.sites[j];
      if site.name !in apis then Crashed(UnknownSite(site.name))
      else
        var q := ApplyQuery(OptionTableOf(apis[site.name]), map[], plan.queries[i]).1;
        if q.Fail? then Crashed(QueryRejected(q.error))
        else
          var cell := w.status.statuses[j][i];
          WrittenBack(w, j, i, Restore(cell, InitialCursor(site, apis[site.name])),
                      PageOutcome(j, i, cell, w.requests).0, PageItems(j, i, cell, w.requests))
    }

    /**
     * The write-back of a fetched page, from the cursor before it and the
     * cursor and items after it. It crashes on a raw record or a zero page
     * size. Otherwise the cell is written back from the page's cursor, one
     * more request counts when results were expected, the new status is
     * written, the page's publications go into the store, and the store
     * saves once per item.
     */
    ghost function WrittenBack(w: World, j: nat, i: nat, before: Cursor, page: Cursor, items: seq<Item>): (r: RunResult)
      requires j < |plan.sites| && i < |plan.queries| && Shaped(w.status, |plan.sites|, |plan.queries|)
      ensures r.Reached? ==> Shaped(r.world.status, |plan.sites|, |plan.queries|)
    {
      var left := EstimateBatchesLeft(page);
      if exists k :: 0 <= k < |items| && items[k].Raw? then Crashed(RawRecordItem)
      else if left.None? then Crashed(ZeroPageSize)
      else
        var st := CellUpdate(w.status, |plan.sites|, |plan.queries|, j, i, page, left.value);
        Reached(World(st, w.requests + (if HasResults(before) then 1 else 0), w.written + [st],
                      AddAll(w.contents, items, plan.sites[j].name, plan.queries[i]), w.saves + |items|))
    }

    /**
     * The adapter for one cell, before its page: `make_api_object`, the
     * query's options, and the cell's saved cursor fields.
     */
    method Configure(j: nat, i: nat) returns (api: DigitalLibrary?, q: Outcome<QueryError>)
      requires j < |plan.sites| && i < |plan.queries| && j < |status.statuses| && i < |status.statuses[j]| && Synced()
      ensures api == null <==> plan.sites[j].name !in apis
      ensures api != null ==>
                fresh(api) && api.provider == apis[plan.sites[j].name]
                && api.apiKey == Registry.EnvKey(envVarNames, plan.sites[j].name, plan.sites[j].key, environ)
                && api.sanitize == Registry.CleanerOf(venues, api.provider)
                && (api.queryData, q) == ApplyQuery(OptionTableOf(api.provider), map[], plan.queries[i])
                && api.State() == Restore(status.statuses[j][i], InitialCursor(plan.sites[j], api.provider))
    {
      q := Pass;
      api := MakeApiObject(plan.sites[j]);
      if api == null {
        return;
      }
      q := api.SetQueryOptions(plan.queries[i]);
      match status.statuses[j][i] {
        case Empty =>
        case Saved(total, start, pageSize) =>
          api.start := start;
          api.pageSize := pageSize;
          api.resultsTotal := total;
      }
    }

    /**
     * The adapter's part of one cell: configure it and fetch one page.
     * `before` and `after` are its cursor around the page; a request is
     * sent only when results were expected.
     */
    method FetchPage(j: nat, i: nat, ghost w: World) returns (r: Outcome<Crash>, ghost before: Cursor, after: Cursor, items: seq<Item>)
      requires j < |plan.sites| && i < |plan.queries| && Shaped(status, |plan.sites|, |plan.queries|)
      requires w == Snapshot() && Synced()
      modifies this`requests, this`trace
      ensures trace == old(trace) + [(j, i)]
      ensures r.Fail? ==> requests == old(requests)
      ensures r.Fail? && r.error.UnknownSite? ==> plan.sites[j].name !in apis && r.error.name == plan.sites[j].name
      ensures r.Fail? ==> r.error.UnknownSite? || r.error.QueryRejected?
      ensures r.Fail? && r.error.QueryRejected? ==>
                plan.sites[j].name in apis
                && ApplyQuery(OptionTableOf(apis[plan.sites[j].name]), map[], plan.queries[i]).1 == Fail(r.error.error)
      ensures r.Pass? ==>
                requests == old(requests) + (if HasResults(before) then 1 else 0)
                && Paged(j, i, status.statuses[j][i], old(requests), before, after)
                && items == PageItems(j, i, status.statuses[j][i], old(requests))
                && ApplyQuery(OptionTableOf(apis[plan.sites[j].name]), map[], plan.queries[i]).1.Pass?
      ensures CellStep(w, j, i) == if r.Pass? then WrittenBack(w, j, i, before, after, items) else Crashed(r.error)
      ensures unchanged(store) && unchanged(store.data.Values)
    {
      trace := trace + [(j, i)];
      before, after, items := InitialCursor(plan.sites[j], IeeeXplore), InitialCursor(plan.sites[j], IeeeXplore), [];
      var api, q := Configure(j, i);
      if api == null {
        r := Fail(UnknownSite(plan.sites[j].name));
        CellStepFetchFails(w, j, i, r.error);
        return;
      }
      if q.Fail? {
        r := Fail(QueryRejected(q.error));
        CellStepFetchFails(w, j, i, r.error);
        return;
      }
      before, after, items := Fetch(api, j, i);
      r := Pass;
      CellStepAfterFetch(w, j, i, before, after, items);
    }

    /**
     * The request and batch of a configured adapter: the `requests`-th
     * response to its request moves its cursor from `before` to `after`.
     */
    method Fetch(api: DigitalLibrary, j: nat, i: nat) returns (ghost before: Cursor, after: Cursor, items: seq<Item>)
      requires j < |plan.sites| && i < |plan.queries| && Shaped(status, |plan.sites|, |plan.queries|)
      requires plan.sites[j].name in apis && api.provider == apis[plan.sites[j].name]
      requires api.apiKey == Registry.EnvKey(envVarNames, plan.sites[j].name, plan.sites[j].key, environ)
      requires api.sanitize == Registry.CleanerOf(venues, api.provider)
      requires api.queryData == ApplyQuery(OptionTableOf(api.provider), map[], plan.queries[i]).0
      requires api.State() == Restore(status.statuses[j][i], InitialCursor(plan.sites[j], api.provider))
      modifies this`requests, api
      ensures requests == old(requests) + (if HasResults(before) then 1 else 0)
      ensures Paged(j, i, status.statuses[j][i], old(requests), before, after)
      ensures items == PageItems(j, i, status.statuses[j][i], old(requests))
    {
      before := api.State();
      var f := network(requests, api.MakeRequest());
      if api.HasResults() {
        requests := requests + 1;
      }
      items := api.Batch(f);
      after := api.State();
    }

    /**
     * The orchestrator's part of one cell after its page: the items go into
     * the store, then the cell is written back with the adapter's cursor
     * and batch estimate, and the status is written out.
     */
    method WriteBack(j: nat, i: nat, page: Cursor, items: seq<Item>, ghost w: World, ghost before: Cursor) returns (r: Outcome<Crash>)
      requires Valid() && j < |plan.sites| && i < |plan.queries|
      requires w.status == status && w.written == written && w.contents == store.Contents() && w.saves == store.saves
      requires requests == w.requests + (if HasResults(before) then 1 else 0)
      modifies this`status, this`written, store, store.Repr
      ensures Valid()
      ensures old(store.Repr) <= store.Repr && fresh(store.Repr - old(store.Repr))
      ensures r.Fail? ==> status == old(status) && written == old(written)
      ensures r.Fail? ==> r.error == RawRecordItem || (r.error == ZeroPageSize && EstimateBatchesLeft(page).None?)
      ensures r.Fail? ==> (r.error == RawRecordItem <==> exists k :: 0 <= k < |items| && items[k].Raw?)
      ensures r.Pass? ==>
                EstimateBatchesLeft(page).Some?
                && status == CellUpdate(old(status), |plan.sites|, |plan.queries|, j, i, page, EstimateBatchesLeft(page).value)
                && written == old(written) + [status]
      ensures r.Pass? ==>
                (forall k :: 0 <= k < |items| ==> items[k].Pub?)
                && store.Contents() == AddAll(old(store.Contents()), items, plan.sites[j].name, plan.queries[i])
                && store.saves == old(store.saves) + |items|
      ensures WrittenBack(w, j, i, before, page, items) == if r.Pass? then Reached(Snapshot()) else Crashed(r.error)
      ensures old(status).hasResults[j][i] && Counted(old(status)) ==> Counted(status)
    {
      r := AddItems(items, plan.sites[j].name, plan.queries[i]);
      if r.Fail? {
        WrittenBackFails(w, j, i, before, page, items, r.error);
        return;
      }
      var estimate := EstimateBatchesLeft(page);
      if estimate.None? {
        r := Fail(ZeroPageSize);
        WrittenBackFails(w, j, i, before, page, items, r.error);
        return;
      }
      SetCell(j, i, page, estimate.value);
      WrittenBackReached(w, Snapshot(), j, i, before, page, items);
    }

    /** The cell's new status, appended to the statuses written out. */
    method SetCell(j: nat, i: nat, c: Cursor, left: int)
      requires j < |plan.sites| && i < |plan.queries| && Shaped(status, |plan.sites|, |plan.queries|)
      modifies this`status, this`written
      ensures status == CellUpdate(old(status), |plan.sites|, |plan.queries|, j, i, c, left)
      ensures written == old(written) + [status]
      ensures old(status).hasResults[j][i] && Counted(old(status)) ==> Counted(status)
    {
      if status.hasResults[j][i] && Counted(status) {
        CellUpdateKeepsCount(status, |plan.sites|, |plan.queries|, j, i, c, left);
      }
      status := CellUpdate(status, |plan.sites|, |plan.queries|, j, i, c, left);
      written := written + [status];
    }

    /**
     * One cell of a sweep: fetch one page, store its items and write the
     * cell back with the adapter's cursor and batch estimate.
     */
    method ProcessCell(j: nat, i: nat) returns (r: Outcome<Crash>, ghost before: Cursor, ghost after: Cursor)
      requires Valid() && Synced() && j < |plan.sites| && i < |plan.queries|
      modifies this, store, store.Repr
      ensures Valid()
      ensures old(store.Repr) <= store.Repr && fresh(store.Repr - old(store.Repr))
      ensures trace == old(trace) + [(j, i)] && sweeps == old(sweeps)
      ensures r.Fail? ==> status == old(status) && written == old(written)
      ensures old(status).hasResults[j][i] && Counted(old(status)) ==> Counted(status)
      ensures r.Pass? ==>
                EstimateBatchesLeft(after).Some?
                && status == CellUpdate(old(status), |plan.sites|, |plan.queries|, j, i, after, EstimateBatchesLeft(after).value)
                && written == old(written) + [status]
      ensures r.Pass? ==>
                requests == old(requests) + (if HasResults(before) then 1 else 0)
                && plan.sites[j].name in apis
                && before == Restore(old(status).statuses[j][i], InitialCursor(plan.sites[j], apis[plan.sites[j].name]))
      ensures r.Pass? ==> Paged(j, i, old(status).statuses[j][i], old(requests), before, after)
      ensures CellStep(old(Snapshot()), j, i) == if r.Pass? then Reached(Snapshot()) else Crashed(r.error)
    {
      ghost var w := Snapshot();
      var page, items;
      r, before, page, items := FetchPage(j, i, w);
      after := page;
      if r.Pass? {
        r := WriteBack(j, i, page, items, w, before);
      }
    }

    /** Once the page is fetched, `CellStep` is the write-back's outcome on it. */
    lemma CellStepAfterFetch(w: World, j: nat, i: nat, before: Cursor, page: Cursor, items: seq<Item>)
      requires j < |plan.sites| && i < |plan.queries| && Shaped(w.status, |plan.sites|, |plan.queries|)
      requires Paged(j, i, w.status.statuses[j][i], w.requests, before, page)
      requires items == PageItems(j, i, w.status.statuses[j][i], w.requests)
      requires ApplyQuery(OptionTableOf(apis[plan.sites[j].name]), map[], plan.queries[i]).1.Pass?
      ensures CellStep(w, j, i) == WrittenBack(w, j, i, before, page, items)
    {
    }

    /** A page of publications with a usable page size is written back into the world the method reaches. */
    lemma WrittenBackReached(w: World, w': World, j: nat, i: nat, before: Cursor, page: Cursor, items: seq<Item>)
      requires j < |plan.sites| && i < |plan.queries| && Shaped(w.status, |plan.sites|, |plan.queries|)
      requires (forall k :: 0 <= k < |items| ==> items[k].Pub?) && EstimateBatchesLeft(page).Some?
      requires w'.status == CellUpdate(w.status, |plan.sites|, |plan.queries|, j, i, page, EstimateBatchesLeft(page).value)
      requires w'.requests == w.requests + (if HasResults(before) then 1 else 0) && w'.written == w.written + [w'.status]
      requires w'.contents == AddAll(w.contents, items, plan.sites[j].name, plan.queries[i]) && w'.saves == w.saves + |items|
      ensures WrittenBack(w, j, i, before, page, items) == Reached(w')
    {
    }

    /** A page that holds a raw record, or comes with a zero page size, is the crash the write-back gives. */
    lemma WrittenBackFails(w: World, j: nat, i: nat, before: Cursor, page: Cursor, items: seq<Item>, e: Crash)
      requires j < |plan.sites| && i < |plan.queries| && Shaped(w.status, |plan.sites|, |plan.queries|)
      requires e == RawRecordItem || (e == ZeroPageSize && EstimateBatchesLeft(page).None?)
      requires e == RawRecordItem <==> exists k :: 0 <= k < |items| && items[k].Raw?
      ensures WrittenBack(w, j, i, before, page, items) == Crashed(e)
    {
    }

    /** A fetch that fails on an unknown site or a rejected query is the crash `CellStep` gives. */
    lemma CellStepFetchFails(w: World, j: nat, i: nat, e: Crash)
      requires j < |plan.sites| && i < |plan.queries| && Shaped(w.status, |plan.sites|, |plan.queries|)
      requires (e.UnknownSite? && plan.sites[j].name !in apis && e.name == plan.sites[j].name)
               || (e.QueryRejected? && plan.sites[j].name in apis
                   && ApplyQuery(OptionTableOf(apis[plan.sites[j].name]), map[], plan.queries[i]).1 == Fail(e.error))
      ensures CellStep(w, j, i) == Crashed(e)
    {
    }

    /**
     * `step` is the specification of one flagged cell on every world and
     * cell of the grid. The equation is used only where a `CellStep` term
     * is in sight, so that reasoning about whole runs of cells does not
     * expand each cell's page.
     */
    ghost predicate StepIs(step: (World, nat, nat) -> RunResult) {
      forall w: World, j: nat, i: nat {:trigger CellStep(w, j, i)} ::
        j < |plan.sites| && i < |plan.queries| && Shaped(w.status, |plan.sites|, |plan.queries|)
        ==> step(w, j, i) == CellStep(w, j, i)
    }

    /** `CellStep` on the cells of the grid, as a value; a cell outside it is a malformed status. */
    ghost function Stepper(): (World, nat, nat) -> RunResult {
      (w: World, j: nat, i: nat) =>
        if j < |plan.sites| && i < |plan.queries| && Shaped(w.status, |plan.sites|, |plan.queries|) then CellStep(w, j, i)
        else Crashed(MalformedStatus)
    }

    lemma StepperIs()
      ensures StepIs(Stepper())
    {
    }

    /** One query of an enabled site: the cell is processed when its flag is true, and left alone otherwise. */
    method VisitCell(j: nat, i: nat) returns (r: Outcome<Crash>)
      requires Valid() && Synced() && j < |plan.sites| && i < |plan.queries|
      modifies this, store, store.Repr
      ensures Valid() && sweeps == old(sweeps)
      ensures old(store.Repr) <= store.Repr && fresh(store.Repr - old(store.Repr))
      ensures r.Pass? ==> trace == old(trace) + (if old(status).hasResults[j][i] then [(j, i)] else [])
      ensures forall y, x :: (y != j || x != i || !old(status).hasResults[j][i]) ==> SameCell(status, old(status), y, x)
      ensures Counted(old(status)) ==> Counted(status)
      ensures old(status).hasResults[j][i] ==>
                CellStep(old(Snapshot()), j, i) == if r.Pass? then Reached(Snapshot()) else Crashed(r.error)
      ensures !old(status).hasResults[j][i] ==> r.Pass? && Snapshot() == old(Snapshot())
      ensures r.Pass? ==> |written| == |old(written)| + (if old(status).hasResults[j][i] then 1 else 0)
      ensures r.Pass? && old(status).hasResults[j][i] ==> At(status.statuses, j, i, Empty).Saved?
    {
      r := Pass;
      if status.hasResults[j][i] {
        ghost var before, after;
        r, before, after := ProcessCell(j, i);
      }
    }

    /**
     * Query `i` of row `j` within `SweepRow`, `s0` being the status the row
     * started from: the cell is visited, the cells not yet reached stay as
     * in `s0`, and the cells the row has processed so far stay saved.
     */
    method RowStep(j: nat, i: nat, ghost s0: Status, ghost t0: seq<(nat, nat)>, ghost n0: nat,
                   ghost step: (World, nat, nat) -> RunResult, ghost w0: World) returns (r: Outcome<Crash>)
      requires Valid() && Synced() && j < |plan.sites| && i < |plan.queries| && Shaped(s0, |plan.sites|, |plan.queries|)
      requires StepIs(step) && RunCells(step, w0, RowSchedule(j, s0.hasResults[j][..i])) == Reached(Snapshot())
      requires trace == t0 + RowSchedule(j, s0.hasResults[j][..i])
      requires |written| == n0 + |RowSchedule(j, s0.hasResults[j][..i])|
      requires forall y, x :: (0 <= y < |plan.sites| && 0 <= x < |plan.queries| && (y != j || x >= i || !s0.hasResults[y][x]))
                 ==> SameCell(status, s0, y, x)
      requires SavedOn(status, RowSchedule(j, s0.hasResults[j][..i]))
      modifies this, store, store.Repr
      ensures Valid() && sweeps == old(sweeps)
      ensures old(store.Repr) <= store.Repr && fresh(store.Repr - old(store.Repr))
      ensures forall y, x :: (0 <= y < |plan.sites| && 0 <= x < |plan.queries| && (y != j || x >= i + 1 || !s0.hasResults[y][x]))
                ==> SameCell(status, s0, y, x)
      ensures Counted(old(status)) ==> Counted(status)
      ensures r.Pass? ==> trace == t0 + RowSchedule(j, s0.hasResults[j][..i + 1])
      ensures r.Pass? ==> |written| == n0 + |RowSchedule(j, s0.hasResults[j][..i + 1])|
      ensures r.Pass? ==> SavedOn(status, RowSchedule(j, s0.hasResults[j][..i + 1]))
      ensures RunCells(step, w0, RowSchedule(j, s0.hasResults[j][..i + 1])) == if r.Pass? then Reached(Snapshot()) else Crashed(r.error)
      ensures r.Fail? ==> RunCells(step, w0, RowSchedule(j, s0.hasResults[j])) == Crashed(r.error)
    {
      RowScheduleSnoc(j, s0.hasResults[j], i);
      assert SameCell(status, s0, j, i);
      ghost var prev := status;
      ghost var v := Snapshot();
      r := VisitCell(j, i);
      RowKeptStep(s0, prev, status, |plan.sites|, |plan.queries|, j, i);
      if r.Pass? {
        RowSavedStep(prev, status, j, s0.hasResults[j], i);
      }
      if s0.hasResults[j][i] {
        RunCellsSnoc(step, w0, RowSchedule(j, s0.hasResults[j][..i]), v, (j, i));
        if r.Fail? {
          RowCrashed(step, w0, j, s0.hasResults[j], i);
        }
      } else {
        assert RowSchedule(j, s0.hasResults[j][..i + 1]) == RowSchedule(j, s0.hasResults[j][..i]);
      }
    }

    /** One enabled site's row of a sweep: the queries in plan order. */
    method SweepRow(j: nat, ghost step: (World, nat, nat) -> RunResult) returns (r: Outcome<Crash>)
      requires Valid() && Synced() && j < |plan.sites| && plan.sites[j].enabled && StepIs(step)
      modifies this, store, store.Repr
      ensures Valid() && sweeps == old(sweeps)
      ensures old(store.Repr) <= store.Repr && fresh(store.Repr - old(store.Repr))
      ensures r.Pass? ==> trace == old(trace) + RowSchedule(j, old(status).hasResults[j])
      ensures RowKept(status, old(status), |plan.sites|, |plan.queries|, j)
      ensures Counted(old(status)) ==> Counted(status)
      ensures r.Pass? ==> |written| == |old(written)| + |RowSchedule(j, old(status).hasResults[j])|
      ensures r.Pass? ==> SavedOn(status, RowSchedule(j, old(status).hasResults[j]))
      ensures RunCells(step, old(Snapshot()), RowSchedule(j, old(status).hasResults[j])) == if r.Pass? then Reached(Snapshot()) else Crashed(r.error)
    {
      ghost var s0 := status;
      ghost var w0 := Snapshot();
      var rows, cols := |plan.sites|, |plan.queries|;
      var i := 0;
      assert s0.hasResults[j][..0] == [];
      while i < cols
        invariant 0 <= i <= cols
        invariant Valid() && sweeps == old(sweeps)
        invariant old(store.Repr) <= store.Repr && fresh(store.Repr - old(store.Repr))
        invariant trace == old(trace) + RowSchedule(j, s0.hasResults[j][..i])
        invariant |written| == |old(written)| + |RowSchedule(j, s0.hasResults[j][..i])|
        invariant SavedOn(status, RowSchedule(j, s0.hasResults[j][..i]))
        invariant forall y, x :: (0 <= y < rows && 0 <= x < cols && (y != j || x >= i || !s0.hasResults[y][x]))
                    ==> SameCell(status, s0, y, x)
        invariant Counted(s0) ==> Counted(status)
        invariant RunCells(step, w0, RowSchedule(j, s0.hasResults[j][..i])) == Reached(Snapshot())
      {
        r := RowStep(j, i, s0, old(trace), |old(written)|, step, w0);
        if r.Fail? {
          return;
        }
        i := i + 1;
      }
      assert s0.hasResults[j][..cols] == s0.hasResults[j];
      r := Pass;
    }

    /**
     * Site `j` within `Sweep`, `s0` being the status the sweep started
     * from: an enabled site's row is swept and a disabled site is skipped;
     * the sites not yet reached stay as in `s0`.
     */
    method SweepSite(j: nat, ghost s0: Status, ghost t0: seq<(nat, nat)>, ghost n0: nat,
                     ghost step: (World, nat, nat) -> RunResult, ghost w0: World) returns (r: Outcome<Crash>)
      requires Valid() && Synced() && j < |plan.sites| && Shaped(s0, |plan.sites|, |plan.queries|) && StepIs(step)
      requires trace == t0 + Schedule(plan.sites, s0.hasResults, j)
      requires KeptFrom(status, s0, plan.sites, |plan.queries|, j)
      requires |written| == n0 + |Schedule(plan.sites, s0.hasResults, j)|
      requires SavedOn(status, Schedule(plan.sites, s0.hasResults, j))
      requires RunCells(step, w0, Schedule(plan.sites, s0.hasResults, j)) == Reached(Snapshot())
      modifies this, store, store.Repr
      ensures Valid() && sweeps == old(sweeps)
      ensures old(store.Repr) <= store.Repr && fresh(store.Repr - old(store.Repr))
      ensures KeptFrom(status, s0, plan.sites, |plan.queries|, j + 1)
      ensures Counted(old(status)) ==> Counted(status)
      ensures r.Pass? ==> trace == t0 + Schedule(plan.sites, s0.hasResults, j + 1)
      ensures r.Pass? ==> |written| == n0 + |Schedule(plan.sites, s0.hasResults, j + 1)|
      ensures r.Pass? ==> SavedOn(status, Schedule(plan.sites, s0.hasResults, j + 1))
      ensures r.Pass? ==> RunCells(step, w0, Schedule(plan.sites, s0.hasResults, j + 1)) == Reached(Snapshot())
      ensures r.Fail? ==> RunCells(step, w0, SweepCells(plan.sites, s0.hasResults)) == Crashed(r.error)
    {
      ghost var prev := status;
      ghost var v := Snapshot();
      r := Pass;
      if plan.sites[j].enabled {
        KeptRowFlags(prev, s0, plan.sites, |plan.queries|, j);
        r := SweepRow(j, step);
        if r.Pass? {
          TraceStep(t0, plan.sites, s0.hasResults, j);
        }
      }
      ScheduleRun(step, w0, plan.sites, s0.hasResults, j, v);
      KeptFromStep(prev, status, s0, plan.sites, |plan.queries|, j);
      if r.Fail? {
        SweepCrashed(step, w0, plan.sites, s0.hasResults, j);
        return;
      }
      SweepSavedStep(prev, status, s0, plan.sites, |plan.queries|, j);
    }

    /**
     * `batch_across`: the enabled sites in plan order and, for each, the
     * queries in plan order; a cell is processed when its flag is true.
     */
    method Sweep(ghost step: (World, nat, nat) -> RunResult) returns (r: Outcome<Crash>)
      requires Valid() && Synced() && StepIs(step)
      modifies this, store, store.Repr
      ensures Valid() && sweeps == old(sweeps) + 1
      ensures old(store.Repr) <= store.Repr && fresh(store.Repr - old(store.Repr))
      ensures r.Pass? ==> trace == old(trace) + Schedule(plan.sites, old(status).hasResults, |plan.sites|)
      ensures KeptFrom(status, old(status), plan.sites, |plan.queries|, |plan.sites|)
      ensures Counted(old(status)) ==> Counted(status)
      ensures r.Pass? ==> |written| == |old(written)| + |Schedule(plan.sites, old(status).hasResults, |plan.sites|)|
      ensures r.Pass? ==> SavedOn(status, Schedule(plan.sites, old(status).hasResults, |plan.sites|))
      ensures RunCells(step, old(Snapshot()), SweepCells(plan.sites, old(status).hasResults))
              == if r.Pass? then Reached(Snapshot()) else Crashed(r.error)
    {
      ghost var s0 := status;
      ghost var t0 := trace;
      ghost var w0 := Snapshot();
      sweeps := sweeps + 1;
      r := Pass;
      var rows := |plan.sites|;
      var j := 0;
      while j < rows
        invariant 0 <= j <= rows
        invariant Valid() && sweeps == old(sweeps) + 1
        invariant old(store.Repr) <= store.Repr && fresh(store.Repr - old(store.Repr))
        invariant trace == t0 + Schedule(plan.sites, s0.hasResults, j)
        invariant KeptFrom(status, s0, plan.sites, |plan.queries|, j)
        invariant Counted(s0) ==> Counted(status)
        invariant |written| == |old(written)| + |Schedule(plan.sites, s0.hasResults, j)|
        invariant SavedOn(status, Schedule(plan.sites, s0.hasResults, j))
        invariant RunCells(step, w0, Schedule(plan.sites, s0.hasResults, j)) == Reached(Snapshot())
      {
        r := SweepSite(j, s0, t0, |old(written)|, step, w0);
        if r.Fail? {
          return;
        }
        j := j + 1;
      }
      r := Pass;
    }

    /** `--number-batches N` with N > 0: exactly N sweeps, unless one crashes. */
    method RunFixed(rounds: nat, ghost step: (World, nat, nat) -> RunResult, ghost sweep: World -> RunResult)
      returns (r: Outcome<Crash>)
      requires Valid() && Synced() && StepIs(step) && SweepIs(sweep, step, plan.sites)
      modifies this, store, store.Repr
      ensures Valid()
      ensures old(store.Repr) <= store.Repr && fresh(store.Repr - old(store.Repr))
      ensures r.Pass? ==> sweeps == old(sweeps) + rounds
      ensures Sweeps(sweep, old(Snapshot()), rounds) == if r.Pass? then Reached(Snapshot()) else Crashed(r.error)
      ensures forall j, i :: (0 <= j < |plan.sites| && 0 <= i < |plan.queries| && !plan.sites[j].enabled)
                ==> SameCell(status, old(status), j, i)
      ensures Counted(old(status)) ==> Counted(status)
    {
      ghost var w0 := Snapshot();
      var k := 0;
      while k < rounds
        invariant 0 <= k <= rounds
        invariant Valid() && sweeps == old(sweeps) + k
        invariant old(store.Repr) <= store.Repr && fresh(store.Repr - old(store.Repr))
        invariant forall j, i :: (0 <= j < |plan.sites| && 0 <= i < |plan.queries| && !plan.sites[j].enabled)
                    ==> SameCell(status, old(status), j, i)
        invariant Counted(old(status)) ==> Counted(status)
        invariant Sweeps(sweep, w0, k) == Reached(Snapshot())
      {
        ghost var prev := status;
        ghost var v := Snapshot();
        r := Sweep(step);
        forall j, i | 0 <= j < |plan.sites| && 0 <= i < |plan.queries| && !plan.sites[j].enabled
          ensures SameCell(status, old(status), j, i)
        {
          assert SameCell(prev, old(status), j, i);
          assert SameCell(status, prev, j, i);
        }
        if r.Fail? {
          SweepsCrashed(sweep, w0, k + 1, rounds);
          return;
        }
        k := k + 1;
      }
      r := Pass;
    }

    /**
     * Without `--number-batches`: sweep while `incomplete` is positive.
     * `fuel` bounds the number of sweeps; `finished` says the loop ended
     * because `incomplete` reached zero. A disabled site's cell that is
     * flagged keeps a counted status from ever finishing.
     */
    method RunToCompletion(fuel: nat, ghost step: (World, nat, nat) -> RunResult, ghost sweep: World -> RunResult)
      returns (r: Outcome<Crash>, finished: bool)
      requires Valid() && Synced() && StepIs(step) && SweepIs(sweep, step, plan.sites)
      modifies this, store, store.Repr
      ensures Valid()
      ensures old(store.Repr) <= store.Repr && fresh(store.Repr - old(store.Repr))
      ensures finished <==> r.Pass? && status.incomplete <= 0
      ensures r.Pass? && !finished ==> sweeps == old(sweeps) + fuel
      ensures sweeps <= old(sweeps) + fuel
      ensures SweepsUntilDone(sweep, old(Snapshot()), fuel) == if r.Pass? then Reached(Snapshot()) else Crashed(r.error)
      ensures Counted(old(status)) ==> Counted(status)
      ensures Counted(old(status))
              && (exists j, i :: 0 <= j < |plan.sites| && 0 <= i < |plan.queries|
                                 && !plan.sites[j].enabled && old(status).hasResults[j][i])
              ==> !finished
    {
      ghost var s0 := status;
      ghost var w0 := Snapshot();
      var k := 0;
      r := Pass;
      while status.incomplete > 0 && k < fuel
        invariant 0 <= k <= fuel && r.Pass?
        invariant Valid() && sweeps == old(sweeps) + k
        invariant old(store.Repr) <= store.Repr && fresh(store.Repr - old(store.Repr))
        invariant forall j, i :: (0 <= j < |plan.sites| && 0 <= i < |plan.queries| && !plan.sites[j].enabled)
                    ==> SameCell(status, s0, j, i)
        invariant Counted(s0) ==> Counted(status)
        invariant SweepsUntilDone(sweep, w0, fuel) == SweepsUntilDone(sweep, Snapshot(), fuel - k)
        decreases fuel - k
      {
        ghost var prev := status;
        ghost var v := Snapshot();
        r := Sweep(step);
        forall j, i | 0 <= j < |plan.sites| && 0 <= i < |plan.queries| && !plan.sites[j].enabled
          ensures SameCell(status, s0, j, i)
        {
          assert SameCell(prev, s0, j, i);
          assert SameCell(status, prev, j, i);
        }
        if r.Fail? {
          return r, false;
        }
        k := k + 1;
      }
      finished := status.incomplete <= 0;
      if Counted(s0) && exists j, i :: 0 <= j < |plan.sites| && 0 <= i < |plan.queries|
                                        && !plan.sites[j].enabled && s0.hasResults[j][i] {
        var j, i :| 0 <= j < |plan.sites| && 0 <= i < |plan.queries| && !plan.sites[j].enabled && s0.hasResults[j][i];
        assert SameCell(status, s0, j, i);
        CountTruePositive(status.hasResults, j, i);
      }
    }

    /** `--number-batches N`: N sweeps when N > 0, and otherwise the loop until nothing is incomplete. */
    method RunBatches(batches: int, fuel: nat, ghost step: (World, nat, nat) -> RunResult, ghost sweep: World -> RunResult)
      returns (r: Outcome<Crash>, finished: bool)
      requires Valid() && Synced() && StepIs(step) && SweepIs(sweep, step, plan.sites)
      modifies this, store, store.Repr
      ensures Valid()
      ensures old(store.Repr) <= store.Repr && fresh(store.Repr - old(store.Repr))
      ensures batches > 0 ==>
                Sweeps(sweep, old(Snapshot()), batches) == if r.Pass? then Reached(Snapshot()) else Crashed(r.error)
      ensures batches <= 0 ==>
                SweepsUntilDone(sweep, old(Snapshot()), fuel) == if r.Pass? then Reached(Snapshot()) else Crashed(r.error)
      ensures r.Pass? && batches > 0 ==> sweeps == old(sweeps) + batches
      ensures finished ==> batches <= 0 && r.Pass? && status.incomplete <= 0
      ensures Counted(old(status)) ==> Counted(status)
      ensures Counted(old(status))
              && (exists j, i :: 0 <= j < |plan.sites| && 0 <= i < |plan.queries|
                                 && !plan.sites[j].enabled && old(status).hasResults[j][i])
              ==> !finished
    {
      finished := false;
      if batches > 0 {
        r := RunFixed(batches, step, sweep);
      } else {
        r, finished := RunToCompletion(fuel, step, sweep);
      }
    }

    /** `Prepare`, and the world the sweeps start from when it passes. */
    method Start() returns (r: Outcome<Crash>, ghost ready: RunResult)
      requires store.Valid() && store.saviness == 1
      modifies this
      ensures r.Pass? <==> ready.Reached?
      ensures ready.Crashed? ==> r == Fail(ready.crash)
      ensures ready.Reached? ==>
                ready.world == World(ready.world.status, old(requests), old(written) + [ready.world.status],
                                     old(store.Contents()), old(store.saves))
                && (needsSeed ==> SeedSpec(plan) == Some(ready.world.status))
                && (!needsSeed ==> ready.world.status == old(status))
      ensures r.Pass? ==> Valid() && ready.world == Snapshot() && sweeps == old(sweeps)
      ensures r.Pass? && needsSeed ==> Counted(status)
      ensures r.Pass? && needsSeed && (exists j, i :: 0 <= j < |plan.sites| && 0 <= i < |plan.queries| && i < |plan.sites|
                                                     && !plan.sites[j].enabled && plan.sites[i].enabled)
              ==> exists j, i :: 0 <= j < |plan.sites| && 0 <= i < |plan.queries|
                                 && !plan.sites[j].enabled && status.hasResults[j][i]
    {
      r := Prepare();
      if r.Fail? {
        ready := Crashed(r.error);
        return;
      }
      ready := Reached(Snapshot());
      if needsSeed {
        SeedStalls(plan);
      }
    }

    /**
     * The program after its files are read: prepare and write the status,
     * then either `batches` sweeps or the loop until nothing is incomplete.
     * A seeded status stays counted; and when some disabled site's row
     * picks up an enabled site's flag, the unbounded loop never finishes.
     */
    method RunProgram(batches: int, fuel: nat)
      returns (r: Outcome<Crash>, finished: bool, ghost step: (World, nat, nat) -> RunResult,
               ghost sweep: World -> RunResult, ghost ready: RunResult)
      requires store.Valid() && store.saviness == 1 && Synced()
      modifies this, store, store.Repr
      ensures old(store.Repr) <= store.Repr && fresh(store.Repr - old(store.Repr))
      ensures StepIs(step) && sweep == Sweeper(step, plan.sites)
      ensures ready.Crashed? ==> r == Fail(ready.crash)
      ensures ready.Reached? ==>
                ready.world == World(ready.world.status, old(requests), old(written) + [ready.world.status],
                                     old(store.Contents()), old(store.saves))
                && (needsSeed ==> SeedSpec(plan) == Some(ready.world.status))
                && (!needsSeed ==> ready.world.status == old(status))
      ensures ready.Reached? && batches > 0 ==>
                Sweeps(sweep, ready.world, batches) == if r.Pass? then Reached(Snapshot()) else Crashed(r.error)
      ensures ready.Reached? && batches <= 0 ==>
                SweepsUntilDone(sweep, ready.world, fuel) == if r.Pass? then Reached(Snapshot()) else Crashed(r.error)
      ensures r.Pass? ==> Valid()
      ensures r.Pass? && batches > 0 ==> sweeps == old(sweeps) + batches
      ensures finished ==> batches <= 0 && r.Pass? && status.incomplete <= 0
      ensures r.Pass? && needsSeed ==> Counted(status)
      ensures needsSeed && (exists j, i :: 0 <= j < |plan.sites| && 0 <= i < |plan.queries| && i < |plan.sites|
                                          && !plan.sites[j].enabled && plan.sites[i].enabled)
              ==> !finished
    {
      finished := false;
      step := Stepper();
      StepperIs();
      sweep := Sweeper(step, plan.sites);
      SweeperIs(step, plan.sites);
      r, ready := Start();
      if r.Pass? {
        r, finished := RunBatches(batches, fuel, step, sweep);
      }
    }
  }
}
