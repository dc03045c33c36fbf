// When the heartbeat loop fires.
module HeartbeatSchedule {
  import opened Options

  // What one pass of the loop meets with: stop requests at its four checks, how long the
  // network keeps it waiting, by how much the timed wait overshoots, how long the heartbeat
  // takes, and whether an exception escapes from it.
  datatype Cycle = Cycle(
    stopRequested: bool, network: Option<real>, stopInWait: bool, overshoot: real, stopAfterWait: bool,
    duration: real, raises: bool)
  {
    predicate Stops() {
      stopRequested || network == None || stopInWait || stopAfterWait
    }

    predicate Valid() {
      (network.Some? ==> network.value >= 0.0) && overshoot >= 0.0 && duration >= 0.0
    }
  }

  // One heartbeat: the slot it was due for, when it began and when it was over.
  datatype Beat = Beat(slot: nat, at: real, over: real)

  function Due(start: real, interval: int, slot: nat): real {
    start + slot as real * interval as real
  }

  // The first grid point after the heartbeat's own that is still to come when it is over.
  ghost predicate FollowsAt(start: real, interval: int, beat: Beat, slot: nat) {
    && beat.slot < slot && Due(start, interval, slot) > beat.over
    && forall k: nat {:trigger Due(start, interval, k)} :: beat.slot < k < slot ==> Due(start, interval, k) <= beat.over
  }

  ghost predicate OnTime(start: real, interval: int, beats: seq<Beat>) {
    && (forall m :: 0 <= m < |beats| ==> Due(start, interval, beats[m].slot) <= beats[m].at <= beats[m].over)
    && (beats != [] ==> beats[0].slot == 0)
    && (forall m :: 0 < m < |beats| ==> FollowsAt(start, interval, beats[m - 1], beats[m].slot))
  }

  lemma DueGrows(start: real, interval: int, j: nat, k: nat)
    requires interval >= 1
    ensures j <= k ==> Due(start, interval, j) <= Due(start, interval, k)
    ensures Due(start, interval, j + 1) == Due(start, interval, j) + interval as real
  {
    if j <= k {
      assert (k as real - j as real) * interval as real >= 0.0;
    }
  }

  lemma {:induction false} SlotsIncrease(start: real, interval: int, beats: seq<Beat>, m: nat, n: nat)
    requires OnTime(start, interval, beats) && m < n < |beats|
    ensures beats[m].slot < beats[n].slot
  {
    assert FollowsAt(start, interval, beats[n - 1], beats[n].slot);
    if m < n - 1 {
      SlotsIncrease(start, interval, beats, m, n - 1);
    }
  }

  // Slot k lasts from its due time to the next.
  ghost predicate InSlot(start: real, interval: int, t: real, k: nat) {
    Due(start, interval, k) <= t < Due(start, interval, k + 1)
  }

  // However long heartbeats and network waits last, no slot sees two of them begin.
  lemma NoSlotTwice(start: real, interval: int, beats: seq<Beat>, m: nat, n: nat, k: nat)
    requires interval >= 1 && OnTime(start, interval, beats) && m < n < |beats|
    ensures !(InSlot(start, interval, beats[m].at, k) && InSlot(start, interval, beats[n].at, k))
  {
    var next := beats[m + 1].slot;
    assert FollowsAt(start, interval, beats[m], next);
    if m + 1 < n {
      SlotsIncrease(start, interval, beats, m + 1, n);
    }
    DueGrows(start, interval, next, beats[n].slot);
    if next <= k {
      DueGrows(start, interval, next, k);
    } else {
      DueGrows(start, interval, k + 1, next);
    }
  }

  class HeartbeatLoop {
    const interval: int
    var now: real
    ghost var beats: seq<Beat>

    constructor (interval: int, now: real)
      requires 1 <= interval <= 86400
      ensures this.interval == interval && this.now == now && beats == []
    {
      this.interval, this.now, beats := interval, now, [];
    }

    // Sends one heartbeat, which takes a while.
    method Emit(ghost slot: nat, duration: real)
      requires duration >= 0.0
      modifies `now, `beats
      ensures now == old(now) + duration
      ensures beats == old(beats) + [Beat(slot, old(now), now)]
    {
      ghost var at := now;
      now := now + duration;
      beats := beats + [Beat(slot, at, now)];
    }

    // Moves the due time past the clock, from grid point to grid point.
    method CatchUp(due: real, ghost start: real, ghost beat: Beat) returns (nextDue: real, ghost slot: nat)
      requires interval >= 1 && beat.over == now && due == Due(start, interval, beat.slot)
      ensures FollowsAt(start, interval, beat, slot) && nextDue == Due(start, interval, slot)
    {
      DueGrows(start, interval, beat.slot, beat.slot);
      nextDue := due + interval as real;
      slot := beat.slot + 1;
      while nextDue <= now
        invariant beat.slot < slot && nextDue == Due(start, interval, slot)
        invariant forall k: nat {:trigger Due(start, interval, k)} :: beat.slot < k < slot ==>
                                                                        Due(start, interval, k) <= now
        decreases now - nextDue
      {
        DueGrows(start, interval, slot, slot);
        nextDue := nextDue + interval as real;
        slot := slot + 1;
      }
    }

    // Waits for the network, at the start, or for the due time and then the network.
    method Await(due: Option<real>, cycle: Cycle) returns (go: bool, start: real)
      requires cycle.Valid()
      modifies `now
      ensures !go ==> cycle.Stops()
      ensures go ==> cycle.network.Some?
      ensures go && due == None ==> start == now == old(now) + cycle.network.value
      ensures go && due.Some? ==>
                start == due.value
                && now == (if due.value > old(now) then due.value + cycle.overshoot else old(now)) + cycle.network.value
    {
      go, start := false, now;
      if cycle.stopRequested {
        return;
      }
      if due == None {
        if cycle.network == None {
          return;
        }
        now := now + cycle.network.value;
        start := now;
      } else {
        start := due.value;
      }
      var delay := start - now;
      if delay > 0.0 {
        if cycle.stopInWait {
          return;
        }
        now := now + delay + cycle.overshoot;
      }
      if cycle.stopAfterWait {
        return;
      }
      if due.Some? {
        if cycle.network == None {
          return;
        }
        now := now + cycle.network.value;
      }
      go := true;
    }

    // Runs until a stop is requested, an exception escapes, or the cycles are used up.
    method Run(cycles: seq<Cycle>) returns (escaped: bool, ghost start: real)
      requires interval >= 1 && beats == [] && forall i :: 0 <= i < |cycles| ==> cycles[i].Valid()
      modifies this
      ensures OnTime(start, interval, beats) && |beats| <= |cycles|
      ensures beats != [] ==> beats[0].at == start
      // one heartbeat for each cycle up to the first stop request or escaping exception
      ensures escaped ==> beats != [] && cycles[|beats| - 1].raises
      ensures !escaped ==> |beats| == |cycles| || cycles[|beats|].Stops()
      ensures forall m :: 0 <= m < |beats| && cycles[m].raises ==> escaped && m == |beats| - 1
      // lateness is that of the heartbeat's own wait and never adds up
      ensures OwnLateness(start, interval, beats, cycles)
    {
      escaped := false;
      var nextDue: Option<real> := None;
      ghost var slot: nat := 0;
      start := now;
      var i := 0;
      while i < |cycles|
        invariant 0 <= i <= |cycles| && |beats| == i && (nextDue == None <==> i == 0)
        invariant OnTime(start, interval, beats) && OwnLateness(start, interval, beats, cycles)
        invariant forall m :: 0 <= m < i ==> !cycles[m].raises
        invariant i > 0 ==> nextDue == Some(Due(start, interval, slot)) && beats[0].at == start
        invariant i > 0 ==> beats[i - 1].over == now && FollowsAt(start, interval, beats[i - 1], slot)
      {
        var go, due := Await(nextDue, cycles[i]);
        if !go {
          return;
        }
        if i == 0 {
          start, slot := due, 0;
        }
        ghost var before := beats;
        Emit(slot, cycles[i].duration);
        BeatOneMore(start, interval, before, cycles, beats[i]);
        if cycles[i].raises {
          escaped := true;
          return;
        }
        due, slot := CatchUp(due, start, beats[i]);
        nextDue := Some(due);
        i := i + 1;
      }
    }
  }

  ghost predicate OwnLateness(start: real, interval: int, beats: seq<Beat>, cycles: seq<Cycle>) {
    && |beats| <= |cycles|
    && forall m :: 0 < m < |beats| ==>
                     cycles[m].network.Some?
                     && beats[m].at
                        == Due(start, interval, beats[m].slot) + cycles[m].overshoot + cycles[m].network.value
  }

  lemma BeatOneMore(start: real, interval: int, beats: seq<Beat>, cycles: seq<Cycle>, beat: Beat)
    requires |beats| < |cycles| && Due(start, interval, beat.slot) <= beat.at <= beat.over
    requires beats == [] ==> beat.slot == 0
    requires beats != [] ==>
               && OnTime(start, interval, beats) && OwnLateness(start, interval, beats, cycles)
               && FollowsAt(start, interval, beats[|beats| - 1], beat.slot) && cycles[|beats|].network.Some?
               && beat.at == Due(start, interval, beat.slot) + cycles[|beats|].overshoot + cycles[|beats|].network.value
    ensures OnTime(start, interval, beats + [beat]) && OwnLateness(start, interval, beats + [beat], cycles)
  {
  }
}
