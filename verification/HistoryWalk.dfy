/**
 Paging through the runs that have ended (server/app/api.py: list_run_history,
 sync_snapshot, _runs_after_cursor).  A request returns one page and the cursor of the
 next; rows may come and go between requests.  The notification history is paged by the
 same code over another table and is not modelled.
 */
module HistoryWalk {
  import opened Wrappers
  import opened Events
  import opened Sequences

  const SYNC_SNAPSHOT_LIMIT: nat := 200

  /** What a cursor points at: the sort key of the last run of a page. */
  datatype Position = Position(time: int, id: Uuid)

  function At(run: Run): Position {
    Position(run.updatedAt, run.id)
  }

  /** `ORDER BY updated_at DESC, id DESC` */
  predicate Newer(a: Position, b: Position) {
    a.time > b.time || (a.time == b.time && a.id > b.id)
  }

  datatype Filter = Filter(workspaceId: string, machineId: Option<string>)

  predicate Matches(run: Run, f: Filter) {
    && run.workspaceId == f.workspaceId && IsTerminal(run.status)
    && (f.machineId.Some? ==> run.machineId == f.machineId.value)
  }

  predicate AfterCursor(run: Run, cursor: Option<Position>) {
    cursor.Some? ==> Newer(cursor.value, At(run))
  }

  /** The rows that a query selects. */
  function Selected(rows: seq<Run>, f: Filter, cursor: Option<Position>): seq<Run> {
    if rows == [] then []
    else
      var n := |rows| - 1;
      Selected(rows[..n], f, cursor) + if Matches(rows[n], f) && AfterCursor(rows[n], cursor) then [rows[n]] else []
  }

  function Insert(runs: seq<Run>, run: Run): seq<Run> {
    if runs == [] || Newer(At(runs[|runs| - 1]), At(run)) then runs + [run]
    else Insert(runs[..|runs| - 1], run) + [runs[|runs| - 1]]
  }

  function NewestFirst(runs: seq<Run>): seq<Run> {
    if runs == [] then [] else Insert(NewestFirst(runs[..|runs| - 1]), runs[|runs| - 1])
  }

  function Found(rows: seq<Run>, f: Filter, cursor: Option<Position>): seq<Run> {
    NewestFirst(Selected(rows, f, cursor))
  }

  datatype Page = Page(items: seq<Run>, next: Option<Position>)

  function Take(runs: seq<Run>, n: nat): seq<Run> {
    if |runs| <= n then runs else runs[..n]
  }

  /** `list_run_history` */
  function PageAt(rows: seq<Run>, f: Filter, cursor: Option<Position>, limit: nat): Page {
    var fetched := Take(Found(rows, f, cursor), limit + 1);
    var items := Take(fetched, limit);
    Page(items, if |fetched| > limit && items != [] then Some(At(items[|items| - 1])) else None)
  }

  /** The terminal runs of `sync_snapshot`, with the cursor of the history behind them. */
  function Window(rows: seq<Run>, workspaceId: string): Page {
    var f := Filter(workspaceId, None);
    var runs := Take(Found(rows, f, None), SYNC_SNAPSHOT_LIMIT);
    if runs == [] then Page([], None)
    else
      var oldest := At(runs[|runs| - 1]);
      Page(runs, if Selected(rows, f, Some(oldest)) != [] then Some(oldest) else None)
  }

  predicate UniqueRuns(rows: seq<Run>) {
    forall j, k :: 0 <= j < k < |rows| ==> rows[j].id != rows[k].id
  }

  /** Strictly from newer to older. */
  predicate Descending(runs: seq<Run>) {
    forall j, k :: 0 <= j < k < |runs| ==> Newer(At(runs[j]), At(runs[k]))
  }

  // Sorting.

  lemma {:induction false} InsertDescends(runs: seq<Run>, run: Run)
    requires Descending(runs) && forall i :: 0 <= i < |runs| ==> runs[i].id != run.id
    ensures Descending(Insert(runs, run))
    ensures multiset(Insert(runs, run)) == multiset(runs) + multiset{run}
    decreases |runs|
  {
    if runs == [] || Newer(At(runs[|runs| - 1]), At(run)) {
      DescendingSnoc(runs, run);
    } else {
      var n := |runs| - 1;
      InitAndLast(runs);
      InsertDescends(runs[..n], run);
      var inserted := Insert(runs[..n], run);
      forall i | 0 <= i < |inserted| ensures Newer(At(inserted[i]), At(runs[n])) {
        assert inserted[i] in multiset(inserted);
        assert inserted[i] == run || inserted[i] in multiset(runs[..n]);
      }
      DescendingSnoc(inserted, runs[n]);
    }
  }

  lemma DescendingSnoc(runs: seq<Run>, run: Run)
    requires Descending(runs) && (runs != [] ==> Newer(At(runs[|runs| - 1]), At(run)))
    ensures Descending(runs + [run])
  {
    var more := runs + [run];
    forall j, k | 0 <= j < k < |more| ensures Newer(At(more[j]), At(more[k])) {
      assert j < |runs| - 1 ==> Newer(At(runs[j]), At(runs[|runs| - 1]));
    }
  }

  lemma {:induction false} NewestFirstSorts(runs: seq<Run>)
    requires UniqueRuns(runs)
    ensures Descending(NewestFirst(runs)) && multiset(NewestFirst(runs)) == multiset(runs)
    decreases |runs|
  {
    if runs != [] {
      var n := |runs| - 1;
      InitAndLast(runs);
      NewestFirstSorts(runs[..n]);
      var sorted := NewestFirst(runs[..n]);
      forall i | 0 <= i < |sorted| ensures sorted[i].id != runs[n].id {
        assert sorted[i] in multiset(sorted);
        assert sorted[i] in runs[..n];
      }
      InsertDescends(sorted, runs[n]);
    }
  }

  lemma {:induction false} SelectedAre(rows: seq<Run>, f: Filter, cursor: Option<Position>)
    requires UniqueRuns(rows)
    ensures forall r :: r in Selected(rows, f, cursor) <==> r in rows && Matches(r, f) && AfterCursor(r, cursor)
    ensures UniqueRuns(Selected(rows, f, cursor))
    decreases |rows|
  {
    if rows != [] {
      var n := |rows| - 1;
      InitAndLast(rows);
      SelectedAre(rows[..n], f, cursor);
      var init := Selected(rows[..n], f, cursor);
      forall i | 0 <= i < |init| ensures init[i].id != rows[n].id {
        assert init[i] in rows[..n];
      }
    }
  }

  /** A query finds exactly the matching rows behind the cursor, newest first. */
  lemma {:induction false} FoundAre(rows: seq<Run>, f: Filter, cursor: Option<Position>)
    requires UniqueRuns(rows)
    ensures Descending(Found(rows, f, cursor))
    ensures forall r :: r in Found(rows, f, cursor) <==> r in rows && Matches(r, f) && AfterCursor(r, cursor)
  {
    var selected := Selected(rows, f, cursor);
    SelectedAre(rows, f, cursor);
    NewestFirstSorts(selected);
    forall r ensures r in NewestFirst(selected) <==> r in selected {
      assert r in NewestFirst(selected) <==> r in multiset(NewestFirst(selected));
      assert r in selected <==> r in multiset(selected);
    }
  }

  // Pages.

  /** A page is the newest part of what is behind its cursor, and its next cursor is where it stops. */
  predicate PageOf(page: Page, rows: seq<Run>, f: Filter, cursor: Option<Position>) {
    && Descending(page.items)
    && (forall r :: r in page.items ==> r in rows && Matches(r, f) && AfterCursor(r, cursor))
    && (page.next.Some? ==> page.items != [] && page.next.value == At(page.items[|page.items| - 1]))
    && (forall r :: r in rows && Matches(r, f) && AfterCursor(r, cursor) ==>
          r in page.items || (page.next.Some? && Newer(page.next.value, At(r))))
  }

  lemma {:induction false} PrefixIsPage(found: seq<Run>, rows: seq<Run>, f: Filter, cursor: Option<Position>, n: nat)
    requires Descending(found) && forall r :: r in found <==> r in rows && Matches(r, f) && AfterCursor(r, cursor)
    requires 0 < n < |found|
    ensures PageOf(Page(found[..n], Some(At(found[n - 1]))), rows, f, cursor)
  {
    forall r | r in found ensures r in found[..n] || Newer(At(found[n - 1]), At(r)) {
      var k :| 0 <= k < |found| && found[k] == r;
      if k < n { assert found[..n][k] == r; }
    }
  }

  lemma {:induction false} TakeMore(found: seq<Run>, limit: nat)
    ensures Take(Take(found, limit + 1), limit) == Take(found, limit)
    ensures |Take(found, limit + 1)| > limit <==> |found| > limit
  {
    if |found| > limit {
      assert Take(found, limit + 1)[..limit] == found[..limit];
    }
  }

  lemma {:induction false} PageAtIsPage(rows: seq<Run>, f: Filter, cursor: Option<Position>, limit: nat)
    requires UniqueRuns(rows) && limit >= 1
    ensures PageOf(PageAt(rows, f, cursor, limit), rows, f, cursor)
    ensures PageAt(rows, f, cursor, limit).next.None? <==> |Found(rows, f, cursor)| <= limit
    ensures |PageAt(rows, f, cursor, limit).items| <= limit
  {
    var found := Found(rows, f, cursor);
    FoundAre(rows, f, cursor);
    TakeMore(found, limit);
    if |found| > limit {
      PrefixIsPage(found, rows, f, cursor, limit);
    } else {
      AllIsPage(found, rows, f, cursor);
    }
  }

  lemma AllIsPage(found: seq<Run>, rows: seq<Run>, f: Filter, cursor: Option<Position>)
    requires Descending(found) && forall r :: r in found <==> r in rows && Matches(r, f) && AfterCursor(r, cursor)
    ensures PageOf(Page(found, None), rows, f, cursor)
  {
  }

  /** The window of a snapshot is a first page of its length. */
  lemma {:induction false} WindowIsPage(rows: seq<Run>, workspaceId: string)
    requires UniqueRuns(rows)
    ensures Window(rows, workspaceId) == PageAt(rows, Filter(workspaceId, None), None, SYNC_SNAPSHOT_LIMIT)
  {
    var f := Filter(workspaceId, None);
    var found := Found(rows, f, None);
    FoundAre(rows, f, None);
    if found != [] {
      var runs := Take(found, SYNC_SNAPSHOT_LIMIT);
      var oldest := At(runs[|runs| - 1]);
      SelectedAre(rows, f, Some(oldest));
      TakeMore(found, SYNC_SNAPSHOT_LIMIT);
      if |found| > SYNC_SNAPSHOT_LIMIT {
        assert Newer(oldest, At(found[SYNC_SNAPSHOT_LIMIT]));
        assert found[SYNC_SNAPSHOT_LIMIT] in found;
        assert found[SYNC_SNAPSHOT_LIMIT] in Selected(rows, f, Some(oldest));
      } else {
        NoneBehindLast(found);
        var behind := Selected(rows, f, Some(oldest));
        assert forall r :: r in behind ==> r in found;
        EmptyUnlessMember(behind);
      }
    }
  }

  lemma EmptyUnlessMember(runs: seq<Run>)
    ensures runs == [] || exists r :: r in runs
  {
    assert runs != [] ==> runs[0] in runs;
  }

  lemma NoneBehindLast(runs: seq<Run>)
    requires Descending(runs) && runs != []
    ensures forall r :: r in runs ==> !Newer(At(runs[|runs| - 1]), At(r))
  {
    forall k | 0 <= k < |runs| ensures !Newer(At(runs[|runs| - 1]), At(runs[k])) {
      assert k < |runs| - 1 ==> Newer(At(runs[k]), At(runs[|runs| - 1]));
    }
  }

  // Walks.

  /** What a client collects that follows the cursors, one table for each request. */
  function Walk(tables: seq<seq<Run>>, f: Filter, cursor: Option<Position>, limit: nat): seq<Run>
    decreases |tables|
  {
    if tables == [] then []
    else
      var page := PageAt(tables[0], f, cursor, limit);
      page.items + if page.next.Some? then Walk(tables[1..], f, page.next, limit) else []
  }

  /** The walk gets to a page without a next cursor. */
  predicate Finishes(tables: seq<seq<Run>>, f: Filter, cursor: Option<Position>, limit: nat)
    decreases |tables|
  {
    tables != [] &&
    var page := PageAt(tables[0], f, cursor, limit);
    page.next.Some? ==> Finishes(tables[1..], f, page.next, limit)
  }

  predicate Tables(tables: seq<seq<Run>>) {
    forall i :: 0 <= i < |tables| ==> UniqueRuns(tables[i])
  }

  lemma {:induction false} DescendingConcat(a: seq<Run>, b: seq<Run>)
    requires Descending(a) && Descending(b)
    requires a != [] ==> forall i :: 0 <= i < |b| ==> Newer(At(a[|a| - 1]), At(b[i]))
    ensures Descending(a + b)
  {
    var all := a + b;
    forall j, k | 0 <= j < k < |all| ensures Newer(At(all[j]), At(all[k])) {
      if j < |a| <= k {
        assert all[k] == b[k - |a|];
        assert j < |a| - 1 ==> Newer(At(a[j]), At(a[|a| - 1]));
      }
    }
  }

  lemma {:induction false} WalkDescends(tables: seq<seq<Run>>, f: Filter, cursor: Option<Position>, limit: nat)
    requires Tables(tables) && limit >= 1
    ensures Descending(Walk(tables, f, cursor, limit))
    ensures forall r :: r in Walk(tables, f, cursor, limit) ==> AfterCursor(r, cursor)
    decreases |tables|
  {
    if tables != [] {
      var page := PageAt(tables[0], f, cursor, limit);
      PageAtIsPage(tables[0], f, cursor, limit);
      if page.next.Some? {
        assert forall i :: 0 <= i < |tables[1..]| ==> tables[1..][i] == tables[i + 1];
        WalkDescends(tables[1..], f, page.next, limit);
        var rest := Walk(tables[1..], f, page.next, limit);
        forall i | 0 <= i < |rest| ensures Newer(page.next.value, At(rest[i])) {
          assert rest[i] in rest;
        }
        DescendingConcat(page.items, rest);
        var last := page.items[|page.items| - 1];
        assert last in page.items;
        forall r | r in rest ensures AfterCursor(r, cursor) {
          assert AfterCursor(last, cursor);
        }
      } else {
        assert page.items + [] == page.items;
      }
    }
  }

  /** The run at a position is among the rows; what else its row says may change. */
  predicate Listed(rows: seq<Run>, f: Filter, p: Position) {
    exists i :: 0 <= i < |rows| && Matches(rows[i], f) && At(rows[i]) == p
  }

  predicate Shown(runs: seq<Run>, p: Position) {
    exists i :: 0 <= i < |runs| && At(runs[i]) == p
  }

  predicate Behind(p: Position, cursor: Option<Position>) {
    cursor.Some? ==> Newer(cursor.value, p)
  }

  lemma ShownIn(runs: seq<Run>, more: seq<Run>, p: Position)
    requires Shown(runs, p)
    ensures Shown(runs + more, p) && Shown(more + runs, p)
  {
    var i :| 0 <= i < |runs| && At(runs[i]) == p;
    assert (runs + more)[i] == runs[i] && (more + runs)[|more| + i] == runs[i];
  }

  /** A listed run is on the page, or behind its next cursor. */
  lemma {:induction false} PageShows(page: Page, rows: seq<Run>, f: Filter, cursor: Option<Position>, p: Position)
    requires PageOf(page, rows, f, cursor) && Listed(rows, f, p) && Behind(p, cursor)
    ensures Shown(page.items, p) || (page.next.Some? && Behind(p, page.next))
  {
    var i :| 0 <= i < |rows| && Matches(rows[i], f) && At(rows[i]) == p;
    assert rows[i] in rows;
    if rows[i] in page.items {
      var k :| 0 <= k < |page.items| && page.items[k] == rows[i];
    }
  }

  lemma {:induction false} WalkCovers(tables: seq<seq<Run>>, f: Filter, cursor: Option<Position>, limit: nat, p: Position)
    requires Tables(tables) && limit >= 1 && Finishes(tables, f, cursor, limit)
    requires Behind(p, cursor) && forall i :: 0 <= i < |tables| ==> Listed(tables[i], f, p)
    ensures Shown(Walk(tables, f, cursor, limit), p)
    decreases |tables|
  {
    var page := PageAt(tables[0], f, cursor, limit);
    PageAtIsPage(tables[0], f, cursor, limit);
    PageShows(page, tables[0], f, cursor, p);
    if Shown(page.items, p) {
      ShownIn(page.items, if page.next.Some? then Walk(tables[1..], f, page.next, limit) else [], p);
    } else {
      assert forall i :: 0 <= i < |tables[1..]| ==> tables[1..][i] == tables[i + 1];
      WalkCovers(tables[1..], f, page.next, limit, p);
      ShownIn(Walk(tables[1..], f, page.next, limit), page.items, p);
    }
  }

  /** How often the run at a position appears. */
  function Times(runs: seq<Run>, p: Position): nat {
    if runs == [] then 0 else Times(runs[..|runs| - 1], p) + if At(runs[|runs| - 1]) == p then 1 else 0
  }

  lemma {:induction false} DescendingOnce(runs: seq<Run>, p: Position)
    requires Descending(runs)
    ensures Times(runs, p) == if Shown(runs, p) then 1 else 0
    decreases |runs|
  {
    if runs != [] {
      var n := |runs| - 1;
      DescendingOnce(runs[..n], p);
      if Shown(runs[..n], p) {
        var i :| 0 <= i < n && At(runs[..n][i]) == p;
        assert At(runs[i]) == p;
      }
      if Shown(runs, p) && At(runs[n]) != p {
        var i :| 0 <= i < |runs| && At(runs[i]) == p;
        assert At(runs[..n][i]) == p;
      }
    }
  }

  /**
   Following the cursors to the end returns the runs from newer to older, and each run
   that was in the table all along exactly once, whatever came and went in between.
   */
  lemma {:induction false} WalkIsExact(tables: seq<seq<Run>>, f: Filter, limit: nat, p: Position)
    requires Tables(tables) && limit >= 1 && Finishes(tables, f, None, limit)
    requires forall i :: 0 <= i < |tables| ==> Listed(tables[i], f, p)
    ensures Descending(Walk(tables, f, None, limit))
    ensures Times(Walk(tables, f, None, limit), p) == 1
  {
    WalkDescends(tables, f, None, limit);
    WalkCovers(tables, f, None, limit, p);
    DescendingOnce(Walk(tables, f, None, limit), p);
  }

  /** What follows a page. */
  function Rest(page: Page, tables: seq<seq<Run>>, f: Filter, limit: nat): seq<Run> {
    if page.next.Some? then Walk(tables, f, page.next, limit) else []
  }

  /** The runs of a snapshot and of the walk from its cursor. */
  function WindowAndWalk(rows: seq<Run>, tables: seq<seq<Run>>, workspaceId: string, limit: nat): seq<Run> {
    var window := Window(rows, workspaceId);
    window.items + Rest(window, tables, Filter(workspaceId, None), limit)
  }

  /** A snapshot and the walk from its cursor together are exact as well. */
  lemma {:induction false} WindowAndWalkAreExact(rows: seq<Run>, tables: seq<seq<Run>>, workspaceId: string, limit: nat, p: Position)
    requires UniqueRuns(rows) && Tables(tables) && limit >= 1
    requires Window(rows, workspaceId).next.Some? ==>
               Finishes(tables, Filter(workspaceId, None), Window(rows, workspaceId).next, limit)
    requires Listed(rows, Filter(workspaceId, None), p) && forall i :: 0 <= i < |tables| ==> Listed(tables[i], Filter(workspaceId, None), p)
    ensures Descending(WindowAndWalk(rows, tables, workspaceId, limit))
    ensures Times(WindowAndWalk(rows, tables, workspaceId, limit), p) == 1
  {
    var f, window := Filter(workspaceId, None), Window(rows, workspaceId);
    WindowIsPage(rows, workspaceId);
    PageAtIsPage(rows, f, None, SYNC_SNAPSHOT_LIMIT);
    PageThenWalk(window, rows, tables, f, limit, p);
  }

  lemma {:induction false} RestDescends(page: Page, rows: seq<Run>, tables: seq<seq<Run>>, f: Filter, limit: nat)
    requires PageOf(page, rows, f, None) && Tables(tables) && limit >= 1
    ensures Descending(page.items + Rest(page, tables, f, limit))
  {
    var rest := Rest(page, tables, f, limit);
    if page.next.Some? {
      WalkDescends(tables, f, page.next, limit);
      forall i | 0 <= i < |rest| ensures Newer(page.next.value, At(rest[i])) {
        assert rest[i] in rest;
      }
    }
    DescendingConcat(page.items, rest);
  }

  lemma {:induction false} PageThenWalk(page: Page, rows: seq<Run>, tables: seq<seq<Run>>, f: Filter, limit: nat, p: Position)
    requires PageOf(page, rows, f, None) && Tables(tables) && limit >= 1
    requires page.next.Some? ==> Finishes(tables, f, page.next, limit)
    requires Listed(rows, f, p) && forall i :: 0 <= i < |tables| ==> Listed(tables[i], f, p)
    ensures var all := page.items + Rest(page, tables, f, limit); Descending(all) && Times(all, p) == 1
  {
    var rest := Rest(page, tables, f, limit);
    PageShows(page, rows, f, None, p);
    if Shown(page.items, p) {
      ShownIn(page.items, rest, p);
    } else {
      WalkCovers(tables, f, page.next, limit, p);
      ShownIn(rest, page.items, p);
    }
    RestDescends(page, rows, tables, f, limit);
    DescendingOnce(page.items + rest, p);
  }

  /** On a table that does not change, the walk ends after at most as many pages as there are rows. */
  lemma {:induction false} WalkEnds(rows: seq<Run>, tables: seq<seq<Run>>, f: Filter, cursor: Option<Position>, limit: nat)
    requires UniqueRuns(rows) && limit >= 1 && forall i :: 0 <= i < |tables| ==> tables[i] == rows
    requires |tables| > |Found(rows, f, cursor)|
    ensures Finishes(tables, f, cursor, limit)
    decreases |tables|
  {
    var page := PageAt(rows, f, cursor, limit);
    PageAtIsPage(rows, f, cursor, limit);
    if page.next.Some? {
      FewerBehind(rows, f, cursor, page.next.value);
      assert forall i :: 0 <= i < |tables[1..]| ==> tables[1..][i] == tables[i + 1];
      WalkEnds(rows, tables[1..], f, page.next, limit);
    }
  }

  lemma {:induction false} FewerBehind(rows: seq<Run>, f: Filter, cursor: Option<Position>, next: Position)
    requires UniqueRuns(rows)
    requires exists r :: r in Found(rows, f, cursor) && At(r) == next
    ensures |Found(rows, f, Some(next))| < |Found(rows, f, cursor)|
  {
    var all, behind := Found(rows, f, cursor), Found(rows, f, Some(next));
    FoundAre(rows, f, cursor);
    FoundAre(rows, f, Some(next));
    var r :| r in all && At(r) == next;
    var a, b := set x | x in all, set x | x in behind;
    DistinctCount(all);
    DistinctCount(behind);
    assert forall x :: x in behind ==> AfterCursor(x, cursor) by { assert AfterCursor(r, cursor); }
    assert b <= a - {r};
    SubsetSize(b, a - {r});
  }

  lemma {:induction false} DistinctCount(runs: seq<Run>)
    requires Descending(runs)
    ensures |set x | x in runs| == |runs|
    decreases |runs|
  {
    if runs != [] {
      var n := |runs| - 1;
      InitAndLast(runs);
      DistinctCount(runs[..n]);
      assert (set x | x in runs) == (set x | x in runs[..n]) + {runs[n]};
      assert runs[n] !in runs[..n];
    }
  }

  // What the answers say, in the columns of the runs.

  /** A run that has ended, in the workspace, on the machine if one is asked for. */
  predicate IsWanted(r: Run, workspaceId: string, machineId: Option<string>) {
    && r.workspaceId == workspaceId && r.status in {SUCCEEDED, FAILED, CANCELLED, LOST}
    && (machineId == None || r.machineId == machineId.value)
  }

  /** Later updates come first, and of those at the same time the greater ids. */
  predicate InOrder(runs: seq<Run>) {
    forall j, k :: 0 <= j < k < |runs| ==>
      runs[j].updatedAt > runs[k].updatedAt || (runs[j].updatedAt == runs[k].updatedAt && runs[j].id > runs[k].id)
  }

  predicate IsIn(r: Run, tables: seq<seq<Run>>) {
    exists i :: 0 <= i < |tables| && r in tables[i]
  }

  lemma {:induction false} WalkReturns(tables: seq<seq<Run>>, f: Filter, cursor: Option<Position>, limit: nat, r: Run)
    requires Tables(tables) && limit >= 1 && r in Walk(tables, f, cursor, limit)
    ensures IsIn(r, tables) && IsWanted(r, f.workspaceId, f.machineId)
    decreases |tables|
  {
    var page := PageAt(tables[0], f, cursor, limit);
    PageAtIsPage(tables[0], f, cursor, limit);
    if r !in page.items {
      assert forall i :: 0 <= i < |tables[1..]| ==> tables[1..][i] == tables[i + 1];
      WalkReturns(tables[1..], f, page.next, limit, r);
      var i :| 0 <= i < |tables[1..]| && r in tables[1..][i];
      assert r in tables[i + 1];
    }
  }

  /** A run that has lasted through all requests with the same sort key. */
  predicate Lasts(tables: seq<seq<Run>>, workspaceId: string, machineId: Option<string>, time: int, id: Uuid) {
    forall i :: 0 <= i < |tables| ==>
      exists k :: 0 <= k < |tables[i]| && IsWanted(tables[i][k], workspaceId, machineId) && tables[i][k].updatedAt == time && tables[i][k].id == id
  }

  /**
   Paging to the end returns, latest first, nothing but wanted runs that were there at one
   of the requests, and every wanted run that was there at all of them.
   */
  lemma {:induction false} PagingTells(tables: seq<seq<Run>>, workspaceId: string, machineId: Option<string>, limit: nat, time: int, id: Uuid)
    requires Tables(tables) && limit >= 1 && Finishes(tables, Filter(workspaceId, machineId), None, limit)
    ensures var all := Walk(tables, Filter(workspaceId, machineId), None, limit);
            && InOrder(all)
            && (forall r :: r in all ==> IsIn(r, tables) && IsWanted(r, workspaceId, machineId))
            && (Lasts(tables, workspaceId, machineId, time, id) ==> exists k :: 0 <= k < |all| && all[k].updatedAt == time && all[k].id == id)
  {
    var f := Filter(workspaceId, machineId);
    var all := Walk(tables, f, None, limit);
    WalkDescends(tables, f, None, limit);
    forall r | r in all ensures IsIn(r, tables) && IsWanted(r, workspaceId, machineId) {
      WalkReturns(tables, f, None, limit, r);
    }
    if Lasts(tables, workspaceId, machineId, time, id) {
      forall i | 0 <= i < |tables| ensures Listed(tables[i], f, Position(time, id)) {
        var k :| 0 <= k < |tables[i]| && IsWanted(tables[i][k], workspaceId, machineId) && tables[i][k].updatedAt == time && tables[i][k].id == id;
        assert Matches(tables[i][k], f) && At(tables[i][k]) == Position(time, id);
      }
      WalkCovers(tables, f, None, limit, Position(time, id));
      var k :| 0 <= k < |all| && At(all[k]) == Position(time, id);
    }
  }

  /** One page is as long as allowed if there is more, and has a next cursor exactly then. */
  lemma {:induction false} PageTells(rows: seq<Run>, workspaceId: string, machineId: Option<string>, limit: nat)
    requires UniqueRuns(rows) && limit >= 1
    ensures var page := PageAt(rows, Filter(workspaceId, machineId), None, limit);
            && InOrder(page.items) && |page.items| <= limit
            && (forall r :: r in page.items ==> r in rows && IsWanted(r, workspaceId, machineId))
            && (page.next.Some? ==> |page.items| == limit)
            && (page.next.Some? <==> exists r :: r in rows && IsWanted(r, workspaceId, machineId) && r !in page.items)
  {
    var f := Filter(workspaceId, machineId);
    var page, found := PageAt(rows, f, None, limit), Found(rows, f, None);
    PageAtIsPage(rows, f, None, limit);
    FoundAre(rows, f, None);
    TakeMore(found, limit);
    forall r ensures r in found <==> r in rows && IsWanted(r, workspaceId, machineId) {
      assert r in found <==> r in rows && Matches(r, f) && AfterCursor(r, None);
    }
    if page.next.Some? {
      var r := found[limit];
      assert page.items == found[..limit];
      assert forall k :: 0 <= k < limit ==> Newer(At(found[k]), At(r));
      assert r in found && r !in page.items;
    }
  }
}
