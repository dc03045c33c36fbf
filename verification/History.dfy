// Reading the append-only history: the whole of it, or one newest-first page at a time.
module History {
  import opened Contracts
  import opened Filtering
  import opened Options
  import opened Tables

  datatype Filters = Filters(
    runnerId: Option<string>, repository: Option<string>, workflowRunId: Option<int>, outcome: Option<string>,
    receivedAfter: Option<int>, receivedBefore: Option<int>)

  function JobOf(body: Body): Option<Job> {
    if body.RunnerHeartbeat? || body.RunnerOffline? then None else Some(body.job)
  }

  predicate Wanted<T(==)>(filter: Option<T>, actual: Option<T>) {
    filter.Some? ==> actual == filter
  }

  predicate Matches(row: EventRow, f: Filters) {
    var job := JobOf(row.event.body);
    && Wanted(f.runnerId, Some(row.event.runnerId))
    && Wanted(f.repository, if job.Some? then Some(job.value.key.repository) else None)
    && Wanted(f.workflowRunId, if job.Some? then Some(job.value.key.workflowRunId) else None)
    && Wanted(f.outcome, if row.event.body.JobFinished? then Some(row.event.body.outcome) else None)
    && (f.receivedAfter.Some? ==> row.receivedAt >= f.receivedAfter.value)
    && (f.receivedBefore.Some? ==> row.receivedAt <= f.receivedBefore.value)
  }

  function Reversed(rows: seq<EventRow>): seq<EventRow> {
    if rows == [] then [] else [rows[|rows| - 1]] + Reversed(rows[..|rows| - 1])
  }

  function MatchesAll(f: Filters): EventRow -> bool {
    (row: EventRow) => Matches(row, f)
  }

  function NotExcluded(excluded: set<string>): EventRow -> bool {
    (row: EventRow) => EventType(row.event.body) !in excluded
  }

  // What paging walks through: the filtered history without the excluded types, newest first.
  function NewestFirst(rows: seq<EventRow>, f: Filters, excluded: set<string>): seq<EventRow> {
    Reversed(Filtered(Filtered(rows, MatchesAll(f)), NotExcluded(excluded)))
  }

  lemma NewestFirstStep(rows: seq<EventRow>, f: Filters, excluded: set<string>)
    requires rows != []
    ensures var last, rest := rows[|rows| - 1], NewestFirst(rows[..|rows| - 1], f, excluded);
            NewestFirst(rows, f, excluded) ==
            if Matches(last, f) && EventType(last.event.body) !in excluded then [last] + rest else rest
  {
    var init, last := rows[..|rows| - 1], rows[|rows| - 1];
    var matching := Filtered(init, MatchesAll(f));
    var stripped := Filtered(matching, NotExcluded(excluded));
    if Matches(last, f) {
      assert (matching + [last])[..|matching|] == matching;
      if EventType(last.event.body) !in excluded {
        assert (stripped + [last])[..|stripped|] == stripped;
      } else {
        assert stripped + [] == stripped;
      }
    } else {
      assert matching + [] == matching;
    }
  }

  // ---------- which rows that is ----------

  // What a caller asks for, column by column: the window is closed at both ends, and only events
  // about a job can have a repository or a run, and only finished ones an outcome.
  predicate Asked(f: Filters, row: EventRow) {
    var body := row.event.body;
    && (f.receivedAfter.Some? ==> f.receivedAfter.value <= row.receivedAt)
    && (f.receivedBefore.Some? ==> row.receivedAt <= f.receivedBefore.value)
    && (f.runnerId.Some? ==> row.event.runnerId == f.runnerId.value)
    && (f.repository.Some? ==>
          && body != RunnerHeartbeat && body != RunnerOffline
          && body.job.key.repository == f.repository.value)
    && (f.workflowRunId.Some? ==>
          && body != RunnerHeartbeat && body != RunnerOffline
          && body.job.key.workflowRunId == f.workflowRunId.value)
    && (f.outcome.Some? ==> body.JobFinished? && body.outcome == f.outcome.value)
  }

  // A history query answers with exactly the rows that were asked for, each once for each of its
  // places, in the order of the table.
  lemma HistoryPlaces(rows: seq<EventRow>, f: Filters, k: nat)
    ensures Ascending(Places(rows, MatchesAll(f)))
    ensures Picks(Filtered(rows, MatchesAll(f)), rows, Places(rows, MatchesAll(f)))
    ensures k in Places(rows, MatchesAll(f)) <==> k < |rows| && Asked(f, rows[k])
  {
    FilteredPlaces(rows, MatchesAll(f));
    MatchingPlaces(rows, f, k);
  }

  lemma MatchingPlaces(rows: seq<EventRow>, f: Filters, k: nat)
    ensures k in Places(rows, MatchesAll(f)) <==> k < |rows| && Asked(f, rows[k])
  {
    PlacesAre(rows, MatchesAll(f), k);
    if k < |rows| {
      MatchesWhatIsAsked(rows[k], f);
    }
  }

  lemma MatchesWhatIsAsked(row: EventRow, f: Filters)
    ensures Matches(row, f) <==> Asked(f, row)
  {
  }

  lemma {:induction false} ReversedRows(rows: seq<EventRow>)
    ensures |Reversed(rows)| == |rows|
    ensures forall i :: 0 <= i < |rows| ==> Reversed(rows)[i] == rows[|rows| - 1 - i]
  {
    if rows != [] {
      ReversedRows(rows[..|rows| - 1]);
    }
  }

  function Pageable(f: Filters, excluded: set<string>): EventRow -> bool {
    (row: EventRow) => Asked(f, row) && EventType(row.event.body) !in excluded
  }

  function Backwards(places: seq<nat>): (back: seq<nat>)
    ensures |back| == |places|
    ensures forall i :: 0 <= i < |places| ==> back[i] == places[|places| - 1 - i]
  {
    seq(|places|, i requires 0 <= i < |places| => places[|places| - 1 - i])
  }

  lemma BackwardsPicks(items: seq<EventRow>, rows: seq<EventRow>, places: seq<nat>)
    requires Ascending(places) && Picks(items, rows, places)
    ensures Descending(Backwards(places)) && Picks(Reversed(items), rows, Backwards(places))
  {
    ReversedRows(items);
  }

  lemma BackwardsHolds(places: seq<nat>, k: nat)
    ensures k in Backwards(places) <==> k in places
  {
    if k in places {
      var i :| 0 <= i < |places| && places[i] == k;
      assert Backwards(places)[|places| - 1 - i] == k;
    }
  }

  // And paging walks through exactly the rows asked for of types that are not excluded, the last
  // of the table first.
  lemma NewestFirstPlaces(rows: seq<EventRow>, f: Filters, excluded: set<string>, k: nat)
    ensures Descending(Backwards(Places(rows, Pageable(f, excluded))))
    ensures Picks(NewestFirst(rows, f, excluded), rows, Backwards(Places(rows, Pageable(f, excluded))))
    ensures k in Backwards(Places(rows, Pageable(f, excluded)))
       <==> k < |rows| && Asked(f, rows[k]) && EventType(rows[k].event.body) !in excluded
  {
    var p := Pageable(f, excluded);
    FilteredPlaces(rows, p);
    FilteredTwice(rows, f, excluded);
    BackwardsPicks(Filtered(rows, p), rows, Places(rows, p));
    PageablePlaces(rows, f, excluded, k);
  }

  lemma PageablePlaces(rows: seq<EventRow>, f: Filters, excluded: set<string>, k: nat)
    ensures k in Backwards(Places(rows, Pageable(f, excluded)))
       <==> k < |rows| && Asked(f, rows[k]) && EventType(rows[k].event.body) !in excluded
  {
    BackwardsHolds(Places(rows, Pageable(f, excluded)), k);
    PlacesAre(rows, Pageable(f, excluded), k);
  }

  lemma {:induction false} FilteredTwice(rows: seq<EventRow>, f: Filters, excluded: set<string>)
    ensures Filtered(Filtered(rows, MatchesAll(f)), NotExcluded(excluded)) == Filtered(rows, Pageable(f, excluded))
  {
    if rows != [] {
      var init, last := rows[..|rows| - 1], rows[|rows| - 1];
      FilteredTwice(init, f, excluded);
      var matching := Filtered(init, MatchesAll(f));
      assert Matches(last, f) <==> Asked(f, last);
      if Matches(last, f) {
        assert (matching + [last])[..|matching|] == matching;
      } else {
        assert matching + [] == matching;
      }
    }
  }

  lemma NewestFirstRows(rows: seq<EventRow>, f: Filters, excluded: set<string>, items: seq<EventRow>)
    requires forall row :: row in items ==> row in NewestFirst(rows, f, excluded)
    ensures forall row :: row in items ==> row in rows && Asked(f, row) && EventType(row.event.body) !in excluded
  {
    FilteredTwice(rows, f, excluded);
    var kept := Filtered(rows, Pageable(f, excluded));
    ReversedRows(kept);
    forall row | row in items ensures row in rows && Asked(f, row) && EventType(row.event.body) !in excluded {
      var i :| 0 <= i < |kept| && Reversed(kept)[i] == row;
      assert row == kept[|kept| - 1 - i];
      FilteredRows(rows, Pageable(f, excluded), row);
    }
  }

  // Without filters the whole table is read.
  lemma {:induction false} NothingAskedIsEverything(rows: seq<EventRow>)
    ensures Filtered(rows, MatchesAll(Filters(None, None, None, None, None, None))) == rows
  {
    if rows != [] {
      NothingAskedIsEverything(rows[..|rows| - 1]);
    }
  }

  function Window(f: Filters, low: int, high: int): Filters {
    f.(receivedAfter := Some(low), receivedBefore := Some(high))
  }

  // Two adjacent windows together hold exactly the rows of the window over both.
  lemma WindowsJoin(rows: seq<EventRow>, f: Filters, low: int, middle: int, high: int, row: EventRow)
    requires low <= middle + 1 <= high + 1
    ensures Times(Filtered(rows, MatchesAll(Window(f, low, high))), row)
         == Times(Filtered(rows, MatchesAll(Window(f, low, middle))), row)
            + Times(Filtered(rows, MatchesAll(Window(f, middle + 1, high))), row)
  {
    FilteredTimes(rows, MatchesAll(Window(f, low, high)), row);
    FilteredTimes(rows, MatchesAll(Window(f, low, middle)), row);
    FilteredTimes(rows, MatchesAll(Window(f, middle + 1, high)), row);
  }

  method ReadHistory(rows: seq<EventRow>, f: Filters) returns (items: seq<EventRow>)
    ensures items == Filtered(rows, MatchesAll(f))
    ensures forall row :: row in items <==> row in rows && Asked(f, row)
  {
    items := [];
    var i := 0;
    while i < |rows|
      invariant 0 <= i <= |rows|
      invariant items == Filtered(rows[..i], MatchesAll(f))
    {
      assert rows[..i + 1][..i] == rows[..i];
      if Matches(rows[i], f) {
        items := items + [rows[i]];
      }
      i := i + 1;
    }
    assert rows[..i] == rows;
    forall row ensures row in items <==> row in rows && Asked(f, row) {
      FilteredRows(rows, MatchesAll(f), row);
    }
  }

  // s[low:high] as Python slices it, for bounds that are not negative
  function Slice<T>(s: seq<T>, low: nat, high: nat): seq<T> {
    if low >= |s| || high <= low then [] else if high >= |s| then s[low..] else s[low..high]
  }

  datatype PageResult = Page(items: seq<EventRow>, hasNext: bool) | InvalidPagination

  lemma CollectedSlice(seen: seq<EventRow>, rest: seq<EventRow>, offset: nat, limit: nat)
    requires limit > 0 && |seen| == offset + limit
    ensures Slice(seen + rest, offset, offset + limit) == seen[offset..]
  {
  }

  lemma WholeSlice(seen: seq<EventRow>, offset: nat, limit: nat)
    requires |seen| < offset + limit
    ensures Slice(seen, offset, offset + limit) == if |seen| > offset then seen[offset..] else []
  {
  }

  // Having seen some matches, the scan has skipped up to offset of them and kept the others.
  predicate Scanned(seen: seq<EventRow>, matched: nat, results: seq<EventRow>, offset: nat) {
    && matched == (if |seen| < offset then |seen| else offset)
    && results == (if |seen| > offset then seen[offset..] else [])
  }

  lemma ScannedOneMore(seen: seq<EventRow>, matched: nat, results: seq<EventRow>, offset: nat, row: EventRow)
    requires Scanned(seen, matched, results, offset)
    ensures matched < offset ==> Scanned(seen + [row], matched + 1, results, offset)
    ensures matched >= offset ==> Scanned(seen + [row], matched, results + [row], offset)
  {
  }

  lemma NextMatch(rows: seq<EventRow>, i: nat, f: Filters, excluded: set<string>, seen: seq<EventRow>)
    requires i < |rows|
    ensures var all := seen + NewestFirst(rows[..i + 1], f, excluded);
            if Matches(rows[i], f) && EventType(rows[i].event.body) !in excluded
            then all == seen + [rows[i]] + NewestFirst(rows[..i], f, excluded)
            else all == seen + NewestFirst(rows[..i], f, excluded)
  {
    var upto := rows[..i + 1];
    assert upto[..i] == rows[..i];
    NewestFirstStep(upto, f, excluded);
  }

  // Skips offset matches and collects up to limit more, newest first.
  method Scan(rows: seq<EventRow>, f: Filters, excluded: set<string>, offset: nat, limit: nat)
    returns (results: seq<EventRow>)
    requires limit > 0
    ensures results == Slice(NewestFirst(rows, f, excluded), offset, offset + limit)
  {
    var matched := 0;
    results := [];
    ghost var all := NewestFirst(rows, f, excluded);
    ghost var seen: seq<EventRow> := [];
    var i := |rows|;
    assert rows[..i] == rows;
    while i > 0
      invariant 0 <= i <= |rows| && all == seen + NewestFirst(rows[..i], f, excluded)
      invariant Scanned(seen, matched, results, offset) && |results| < limit
    {
      i := i - 1;
      var row := rows[i];
      NextMatch(rows, i, f, excluded, seen);
      if EventType(row.event.body) in excluded || !Matches(row, f) {
        continue;
      }
      ScannedOneMore(seen, matched, results, offset, row);
      seen := seen + [row];
      if matched < offset {
        matched := matched + 1;
        continue;
      }
      results := results + [row];
      if |results| >= limit {
        CollectedSlice(seen, NewestFirst(rows[..i], f, excluded), offset, limit);
        return;
      }
    }
    assert all == seen;
    WholeSlice(seen, offset, limit);
  }

  // One page, read without going through more rows than it takes: the scan looks one match
  // past the page to learn whether there is a next one.
  method HistoryPage(rows: seq<EventRow>, f: Filters, page: int, pageSize: int, excluded: set<string>)
    returns (result: PageResult)
    ensures result.InvalidPagination? <==> page < 1 || pageSize < 1
    ensures result.Page? ==>
              var all := NewestFirst(rows, f, excluded);
              && result.items == Slice(all, (page - 1) * pageSize, page * pageSize)
              && (result.hasNext <==> |all| > page * pageSize)
    ensures result.Page? ==> |result.items| <= pageSize
    ensures result.Page? ==> forall row :: row in result.items ==>
                                             && row in rows && Asked(f, row)
                                             && EventType(row.event.body) !in excluded
  {
    if page < 1 || pageSize < 1 {
      return InvalidPagination;
    }
    var offset: nat := (page - 1) * pageSize;
    assert page * pageSize == offset + pageSize;
    var results := Scan(rows, f, excluded, offset, pageSize + 1);
    var hasNext := |results| > pageSize;
    result := Page(if |results| > pageSize then results[..pageSize] else results, hasNext);
    NewestFirstRows(rows, f, excluded, result.items);
  }

  // ---------- pages tile the result ----------

  function Pages(all: seq<EventRow>, n: nat, pageSize: nat): seq<EventRow> {
    if n == 0 then [] else Pages(all, n - 1, pageSize) + Slice(all, (n - 1) * pageSize, n * pageSize)
  }

  // The first n pages, put together, are the first n * pageSize matches without gap or overlap.
  lemma {:induction false} PagesTile(all: seq<EventRow>, n: nat, pageSize: nat)
    requires pageSize > 0
    ensures Pages(all, n, pageSize) == Slice(all, 0, n * pageSize)
  {
    if n > 0 {
      PagesTile(all, n - 1, pageSize);
      assert n * pageSize == (n - 1) * pageSize + pageSize;
    }
  }

  // So when the last of them announces no further page, together they are everything.
  lemma LastPageCompletes(all: seq<EventRow>, n: nat, pageSize: nat)
    requires pageSize > 0 && n > 0
    requires |all| <= n * pageSize
    ensures Pages(all, n, pageSize) == all
  {
    PagesTile(all, n, pageSize);
  }
}
