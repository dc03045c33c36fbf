// What retention removes from the event table.
module Retention {
  import opened Filtering
  import opened Monitor
  import opened Tables

  function ReceivedSince(moment: int): EventRow -> bool {
    (row: EventRow) => row.receivedAt >= moment
  }

  // Seven days are 604 800 000 000 microseconds.
  lemma {:induction false} UnexpiredIsFiltered(rows: seq<EventRow>, now: int)
    ensures Unexpired(rows, now) == Filtered(rows, ReceivedSince(now - 604_800_000_000))
    ensures AnyExpired(rows, now) <==> exists i :: 0 <= i < |rows| && rows[i].receivedAt < now - 604_800_000_000
  {
    if rows != [] {
      UnexpiredIsFiltered(rows[..|rows| - 1], now);
    }
  }

  lemma {:induction false} AllSinceKeepsAll(rows: seq<EventRow>, moment: int)
    requires forall i :: 0 <= i < |rows| ==> rows[i].receivedAt >= moment
    ensures Filtered(rows, ReceivedSince(moment)) == rows
  {
    if rows != [] {
      AllSinceKeepsAll(rows[..|rows| - 1], moment);
    }
  }

  // A prune leaves exactly the rows of the last seven days, in their order; the history counts as
  // complete from then on only if that was all of it.
  lemma PruneKeepsSevenDays(t: Tables, now: int)
    ensures Prune(t, now).events == Filtered(t.events, ReceivedSince(now - 604_800_000_000))
    ensures Prune(t, now).views == t.views && Prune(t, now).incidents == t.incidents
    ensures Prune(t, now).complete <==> t.complete && Prune(t, now).events == t.events
  {
    UnexpiredIsFiltered(t.events, now);
    if !AnyExpired(t.events, now) {
      AllSinceKeepsAll(t.events, now - 604_800_000_000);
    } else {
      var i :| 0 <= i < |t.events| && t.events[i].receivedAt < now - 604_800_000_000;
      FilteredRows(t.events, ReceivedSince(now - 604_800_000_000), t.events[i]);
    }
  }

  lemma PruneKeepsRow(t: Tables, now: int, row: EventRow)
    ensures row in Prune(t, now).events <==> row in t.events && row.receivedAt >= now - 604_800_000_000
  {
    PruneKeepsSevenDays(t, now);
    FilteredRows(t.events, ReceivedSince(now - 604_800_000_000), row);
  }

  // The places of the rows that stay, in ascending order.
  lemma PruneKeepsPlaces(t: Tables, now: int, k: nat)
    ensures var places := Places(t.events, ReceivedSince(now - 604_800_000_000));
            && Ascending(places) && Picks(Prune(t, now).events, t.events, places)
            && (k in places <==> k < |t.events| && t.events[k].receivedAt >= now - 604_800_000_000)
  {
    PruneKeepsSevenDays(t, now);
    FilteredPlaces(t.events, ReceivedSince(now - 604_800_000_000));
    PlacesAre(t.events, ReceivedSince(now - 604_800_000_000), k);
  }

  // Within seven days of the oldest row nothing is removed.
  lemma FreshTableStays(t: Tables, now: int)
    requires forall i :: 0 <= i < |t.events| ==> now - t.events[i].receivedAt <= 604_800_000_000
    ensures Prune(t, now) == t
  {
    UnexpiredIsFiltered(t.events, now);
  }

  lemma {:induction false} FilteredSinceLater(rows: seq<EventRow>, m1: int, m2: int)
    requires m1 <= m2
    ensures Filtered(Filtered(rows, ReceivedSince(m1)), ReceivedSince(m2)) == Filtered(rows, ReceivedSince(m2))
  {
    if rows != [] {
      var n := |rows| - 1;
      var init := Filtered(rows[..n], ReceivedSince(m1));
      FilteredSinceLater(rows[..n], m1, m2);
      if rows[n].receivedAt >= m1 {
        assert (init + [rows[n]])[..|init|] == init;
      } else {
        assert init + [] == init;
      }
    }
  }

  // An earlier prune is absorbed by a later one.
  lemma PruneAbsorbs(t: Tables, t1: int, t2: int)
    requires t1 <= t2
    ensures Prune(Prune(t, t1), t2) == Prune(t, t2)
  {
    var once := Prune(t, t1);
    PruneKeepsSevenDays(t, t1);
    PruneKeepsSevenDays(t, t2);
    PruneKeepsSevenDays(once, t2);
    FilteredSinceLater(t.events, t1 - 604_800_000_000, t2 - 604_800_000_000);
    FilteredShrinks(t.events, ReceivedSince(t1 - 604_800_000_000));
    FilteredShrinks(once.events, ReceivedSince(t2 - 604_800_000_000));
  }

  lemma {:induction false} FilteredShrinks(rows: seq<EventRow>, p: EventRow -> bool)
    ensures |Filtered(rows, p)| <= |rows|
    ensures |Filtered(rows, p)| == |rows| ==> Filtered(rows, p) == rows
  {
    if rows != [] {
      FilteredShrinks(rows[..|rows| - 1], p);
    }
  }
}
