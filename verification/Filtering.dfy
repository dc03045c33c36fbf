// The rows of a table that have a property: which they are, where they stand, how often.
module Filtering {
  import opened Tables

  function Filtered(rows: seq<EventRow>, p: EventRow -> bool): seq<EventRow> {
    if rows == [] then []
    else Filtered(rows[..|rows| - 1], p) + (if p(rows[|rows| - 1]) then [rows[|rows| - 1]] else [])
  }

  // The rows at these places of a table.
  ghost predicate Picks(items: seq<EventRow>, rows: seq<EventRow>, places: seq<nat>) {
    && |items| == |places|
    && forall i :: 0 <= i < |places| ==> places[i] < |rows| && items[i] == rows[places[i]]
  }

  ghost predicate Ascending(places: seq<nat>) {
    forall i, j :: 0 <= i < j < |places| ==> places[i] < places[j]
  }

  ghost predicate Descending(places: seq<nat>) {
    forall i, j :: 0 <= i < j < |places| ==> places[i] > places[j]
  }

  // The places of the rows with a property.
  function Places(rows: seq<EventRow>, p: EventRow -> bool): seq<nat> {
    if rows == [] then []
    else
      var n: nat := |rows| - 1;
      Places(rows[..n], p) + (if p(rows[n]) then [n] else [])
  }

  lemma {:induction false} PlacesAre(rows: seq<EventRow>, p: EventRow -> bool, k: nat)
    ensures k in Places(rows, p) <==> k < |rows| && p(rows[k])
  {
    if rows != [] {
      PlacesAre(rows[..|rows| - 1], p, k);
    }
  }

  // Filtering keeps the rows at those places, in order.
  lemma {:induction false} FilteredPlaces(rows: seq<EventRow>, p: EventRow -> bool)
    ensures Ascending(Places(rows, p)) && Picks(Filtered(rows, p), rows, Places(rows, p))
  {
    if rows != [] {
      var n := |rows| - 1;
      FilteredPlaces(rows[..n], p);
      PicksFromPrefix(Filtered(rows[..n], p), rows, n, Places(rows[..n], p));
      if p(rows[n]) {
        PicksOneMore(Filtered(rows[..n], p), rows, n, Places(rows[..n], p));
      } else {
        assert Filtered(rows[..n], p) + [] == Filtered(rows[..n], p);
        assert Places(rows[..n], p) + [] == Places(rows[..n], p);
      }
    }
  }

  lemma PicksOneMore(items: seq<EventRow>, rows: seq<EventRow>, n: nat, places: seq<nat>)
    requires n < |rows| && Ascending(places) && Picks(items, rows, places)
    requires forall i :: 0 <= i < |places| ==> places[i] < n
    ensures Ascending(places + [n]) && Picks(items + [rows[n]], rows, places + [n])
  {
  }

  lemma PicksFromPrefix(items: seq<EventRow>, rows: seq<EventRow>, n: nat, places: seq<nat>)
    requires n <= |rows| && Picks(items, rows[..n], places)
    ensures Picks(items, rows, places) && forall i :: 0 <= i < |places| ==> places[i] < n
  {
  }

  lemma {:induction false} FilteredRows(rows: seq<EventRow>, p: EventRow -> bool, row: EventRow)
    ensures row in Filtered(rows, p) <==> row in rows && p(row)
  {
    if rows != [] {
      var n := |rows| - 1;
      assert rows == rows[..n] + [rows[n]];
      FilteredRows(rows[..n], p, row);
    }
  }

  function Times(items: seq<EventRow>, row: EventRow): nat {
    multiset(items)[row]
  }

  lemma {:induction false} FilteredTimes(rows: seq<EventRow>, p: EventRow -> bool, row: EventRow)
    ensures Times(Filtered(rows, p), row) == if p(row) then Times(rows, row) else 0
  {
    if rows != [] {
      var n := |rows| - 1;
      assert rows == rows[..n] + [rows[n]];
      FilteredTimes(rows[..n], p, row);
    }
  }
}
