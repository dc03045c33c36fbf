// The heartbeat producer: sequence numbers that survive crashes, and a drift-free schedule.
module Heartbeat {
  import opened Contracts
  import opened Delivery
  import opened Monitor
  import opened Options
  import opened OutboxFiles
  import Queries
  import opened Replay
  import opened Tables

  // ---------- persisted producer state ----------

  datatype HeartbeatState = HeartbeatState(epoch: string, next: int)

  // The state file: absent, not a readable JSON object, or an object with these fields, of
  // which a foreign one may lack some.
  datatype StateFile =
    | Missing
    | Illegible
    | Fields(runnerId: Option<string>, producerId: Option<string>, epoch: string, next: Option<int>)

  datatype LoadResult = Loaded(state: HeartbeatState) | IdentityMismatch | Unwritable | Uncaught | Stopping

  // How one heartbeat ends: not sent for a reason that is reported, by an exception that nobody
  // catches, by the end of the process, or handed to delivery.
  datatype Emission =
    | CredentialFailed
    | StateFailed(mismatch: bool)
    | Raised
    | Halted
    | Attempted(result: DeliveryResult)

  ghost predicate SentInOrder(sent: seq<Event>) {
    forall i, j :: 0 <= i < j < |sent| && sent[i].producerEpoch == sent[j].producerEpoch ==>
                     sent[i].sequence < sent[j].sequence
  }

  // No heartbeat of the epoch has reached that sequence.
  ghost predicate Ahead(epoch: string, next: int, sent: seq<Event>) {
    forall i :: 0 <= i < |sent| && sent[i].producerEpoch == epoch ==> sent[i].sequence < next
  }

  predicate Usable(file: StateFile) {
    file.Fields? && IsIdentifier(file.epoch) && file.next.Some? && file.next.value >= 1
  }

  // Loading it cannot lead to a pair that was used before.
  ghost predicate SafeFile(file: StateFile, sent: seq<Event>) {
    Usable(file) ==> Ahead(file.epoch, file.next.value, sent)
  }

  // A heartbeat is not given up on before three calls or five seconds.
  predicate NotEarly(result: DeliveryResult, elapsed: real) {
    result.reason in {Some(TemporaryNetworkFailure), Some(TemporaryHttpFailure)} ==>
      result.attempts == 3 || elapsed >= 5.0
  }

  class HeartbeatProducer {
    const runnerId: string
    const producerId: string
    var state: Option<HeartbeatState>
    var lastSuccessAt: Option<string>
    var file: StateFile
    ghost var sent: seq<Event>  // every heartbeat handed to delivery, over all restarts

    ghost predicate Valid()
      reads this
    {
      && SentInOrder(sent)
      && SafeFile(file, sent)
      && (state.Some? ==> state.value.next >= 1 && Ahead(state.value.epoch, state.value.next, sent))
      && forall i :: 0 <= i < |sent| ==> OwnHeartbeat(sent[i])
    }

    predicate OwnHeartbeat(e: Event) {
      e.runnerId == runnerId && e.producerId == producerId && e.body.RunnerHeartbeat?
    }

    constructor (runnerId: string, producerId: string)
      ensures Valid() && sent == [] && this.runnerId == runnerId && this.producerId == producerId
    {
      this.runnerId, this.producerId := runnerId, producerId;
      state, lastSuccessAt, file, sent := None, None, Missing, [];
    }

    // The process starts over: only the file remains.
    method Restart()
      requires Valid()
      modifies `state, `lastSuccessAt
      ensures Valid() && state == None
    {
      state, lastSuccessAt := None, None;
    }

    // Something else removes, damages or replaces the file, but not by an older state.
    method Tampered(content: StateFile)
      requires Valid() && SafeFile(content, sent)
      modifies `file
      ensures Valid() && file == content
    {
      file := content;
    }

    // Creating the directory, and clearing away the temporary file, may raise past the handler.
    method Save(next: HeartbeatState, fault: Fault) returns (outcome: Outcome)
      modifies `file
      ensures outcome == OutcomeOf(if fault == RaiseFileNotFound then RaiseOsError else fault)
      ensures outcome == Done ==> file == StateOf(next)
      ensures outcome == Failed || outcome == Escaped ==> file == old(file)
      ensures file == old(file) || file == StateOf(next)
    {
      if fault == NoFault || fault == StopAfter {
        file := StateOf(next);
      }
      outcome := OutcomeOf(if fault == RaiseFileNotFound then RaiseOsError else fault);
    }

    function StateOf(s: HeartbeatState): StateFile {
      Fields(Some(runnerId), Some(producerId), s.epoch, Some(s.next))
    }

    // The stored state when it is this producer's, otherwise a new epoch.
    method Load(freshEpoch: string, look: Lookup, fault: Fault) returns (result: LoadResult)
      requires Valid() && Ahead(freshEpoch, 1, sent)
      modifies `file
      ensures Valid()
      ensures result.Loaded? ==> result.state.next >= 1 && Ahead(result.state.epoch, result.state.next, sent)
      ensures result.Loaded? ==> file == StateOf(result.state) || (file == old(file) && Usable(file))
      ensures result == IdentityMismatch <==> look == Clear && old(Foreign())
      ensures result == IdentityMismatch <==>
              && look == Clear && old(file).Fields?
              && (old(file).runnerId !in {None, Some(runnerId)} || old(file).producerId !in {None, Some(producerId)})
      ensures result == Uncaught ==> look == Raising || fault == RaiseUncaught
      ensures fault == NoFault && look != Raising && result != IdentityMismatch ==> result.Loaded?
      // a file of this producer with a well-formed epoch and a positive number is taken up
      ensures look == Clear && old(file).Fields?
              && old(file).runnerId in {None, Some(runnerId)} && old(file).producerId in {None, Some(producerId)}
              && IsIdentifier(old(file).epoch) && old(file).next.Some? && old(file).next.value >= 1 ==>
                result == Loaded(HeartbeatState(old(file).epoch, old(file).next.value))
    {
      if look == Raising {
        return Uncaught;
      }
      var raw := if look == Clear || file == Missing then file else Illegible;
      if raw.Fields? {
        if raw.runnerId.Some? && raw.runnerId.value != runnerId {
          return IdentityMismatch;
        }
        if raw.producerId.Some? && raw.producerId.value != producerId {
          return IdentityMismatch;
        }
        if IsIdentifier(raw.epoch) && raw.next.Some? && raw.next.value >= 1 {
          return Loaded(HeartbeatState(raw.epoch, raw.next.value));
        }
      }
      var initial := HeartbeatState(freshEpoch, 1);
      var outcome := Save(initial, fault);
      match outcome {
        case Done => return Loaded(initial);
        case Stopped => return Stopping;
        case Escaped => return Uncaught;
        case _ => return Unwritable;
      }
    }

    predicate Foreign()
      reads this
    {
      && file.Fields?
      && ((file.runnerId.Some? && file.runnerId.value != runnerId)
          || (file.producerId.Some? && file.producerId.value != producerId))
    }

    // Saves the following number first, then hands out this one.
    method Reserve(current: HeartbeatState, fault: Fault) returns (outcome: Outcome)
      requires Valid() && current.next >= 1 && Ahead(current.epoch, current.next, sent)
      modifies `file
      ensures Valid() && outcome != FileMissing
      ensures fault == NoFault ==> outcome == Done
      ensures outcome == Done ==> file == StateOf(HeartbeatState(current.epoch, current.next + 1))
      ensures outcome == Escaped ==> fault == RaiseUncaught
      ensures outcome == Failed || outcome == Escaped ==> file == old(file)
    {
      outcome := Save(HeartbeatState(current.epoch, current.next + 1), fault);
    }

    // Nothing keeps the producer from the next number.
    ghost predicate Unhindered(look: Lookup, loadFault: Fault, reserveFault: Fault)
      reads this
    {
      loadFault == NoFault && reserveFault == NoFault && Loadable(look)
    }

    predicate Loadable(look: Lookup)
      reads this
    {
      state.Some? || (look != Raising && !(look == Clear && Foreign()))
    }

    // The number before the next one is taken, on file too, and has not been used.
    ghost predicate Numbered()
      reads this
    {
      && state.Some? && state.value.next >= 2 && file == StateOf(state.value)
      && Ahead(state.value.epoch, state.value.next - 1, sent)
    }

    // Makes sure that there is a state, loading it after a restart.
    method EnsureState(freshEpoch: string, look: Lookup, fault: Fault) returns (failure: Option<Emission>)
      requires Valid() && Ahead(freshEpoch, 1, sent)
      modifies `state, `file
      ensures Valid() && (failure == None ==> state.Some?)
      ensures old(state).Some? ==> failure == None && state == old(state) && file == old(file)
      ensures failure.Some? ==> !failure.value.Attempted? && (fault != NoFault || !old(Loadable(look)))
      ensures failure == Some(Raised) ==> look == Raising || fault == RaiseUncaught
    {
      if state.Some? {
        return None;
      }
      var loaded := Load(freshEpoch, look, fault);
      match loaded {
        case Loaded(found) => state := Some(found); return None;
        case IdentityMismatch => return Some(StateFailed(true));
        case Unwritable => return Some(StateFailed(false));
        case Uncaught => return Some(Raised);
        case Stopping => return Some(Halted);
      }
    }

    // Takes the next number for good.
    method TakeNumber(freshEpoch: string, look: Lookup, loadFault: Fault, reserveFault: Fault)
      returns (failure: Option<Emission>)
      requires Valid() && Ahead(freshEpoch, 1, sent)
      modifies `state, `file
      ensures Valid() && (failure.Some? ==> !failure.value.Attempted?)
      ensures old(Unhindered(look, loadFault, reserveFault)) ==> failure == None
      ensures failure == Some(Raised) ==> look == Raising || loadFault == RaiseUncaught || reserveFault == RaiseUncaught
      ensures failure == None ==>
                && Numbered()
                && (old(state).Some? ==>
                      state.value == HeartbeatState(old(state).value.epoch, old(state).value.next + 1))
    {
      failure := EnsureState(freshEpoch, look, loadFault);
      if failure.Some? {
        return;
      }
      var outcome := Advance(reserveFault);
      if outcome != Done {
        failure := Some(if outcome == Stopped then Halted else if outcome == Escaped then Raised
                        else StateFailed(false));
      }
    }

    method Advance(fault: Fault) returns (outcome: Outcome)
      requires Valid() && state.Some?
      modifies `state, `file
      ensures Valid() && (fault == NoFault ==> outcome == Done) && (outcome == Escaped ==> fault == RaiseUncaught)
      ensures outcome == Done ==>
                Numbered() && state == Some(HeartbeatState(old(state).value.epoch, old(state).value.next + 1))
    {
      var current := state.value;
      outcome := Reserve(current, fault);
      if outcome == Done {
        state := Some(HeartbeatState(current.epoch, current.next + 1));
      }
    }

    // One heartbeat: its number is taken before delivery begins.
    method EmitOnce(
      link: Link, credential: bool, id: string, occurredAt: string, freshEpoch: string, look: Lookup,
      loadFault: Fault, reserveFault: Fault)
      returns (emission: Emission)
      requires Valid() && link.Valid() && Ahead(freshEpoch, 1, sent)
      modifies this, link, link.store, link.store.db
      ensures Valid() && link.Valid() && old(link.confirmed) <= link.confirmed
      ensures credential && old(Unhindered(look, loadFault, reserveFault)) ==> emission.Attempted?
      ensures emission == Raised ==> look == Raising || loadFault == RaiseUncaught || reserveFault == RaiseUncaught
      ensures !emission.Attempted? ==>
                sent == old(sent) && lastSuccessAt == old(lastSuccessAt)
                && link.store.actions == old(link.store.actions)
      ensures emission.Attempted? ==>
                && state.Some? && file == StateOf(state.value)
                && sent == old(sent) + [Beat(id, occurredAt, state.value.epoch, state.value.next - 1)]
                && (old(state).Some? ==>
                      state.value == HeartbeatState(old(state).value.epoch, old(state).value.next + 1))
                && (emission.result.delivered ==> id in link.confirmed)
                && lastSuccessAt == (if emission.result.delivered then Some(occurredAt) else old(lastSuccessAt))
                && NotEarly(emission.result, link.now - old(link.now))
                && OnlyArrivals(old(link.store.actions), link.store.actions, {sent[|old(sent)|]})
    {
      if !credential {
        return CredentialFailed;
      }
      var failure := TakeNumber(freshEpoch, look, loadFault, reserveFault);
      if failure.Some? {
        return failure.value;
      }
      var result := Send(link, Beat(id, occurredAt, state.value.epoch, state.value.next - 1));
      emission := Attempted(result);
    }

    // Hands the heartbeat that has just got its number to delivery.
    method Send(link: Link, e: Event) returns (result: DeliveryResult)
      requires Valid() && link.Valid() && Numbered() && OwnHeartbeat(e)
      requires e.producerEpoch == state.value.epoch && e.sequence == state.value.next - 1
      modifies `sent, `lastSuccessAt, link, link.store, link.store.db
      ensures Valid() && link.Valid() && sent == old(sent) + [e] && old(link.confirmed) <= link.confirmed
      ensures result.delivered ==> e.id in link.confirmed
      ensures lastSuccessAt == if result.delivered then Some(e.occurredAt) else old(lastSuccessAt)
      ensures NotEarly(result, link.now - old(link.now))
      ensures OnlyArrivals(old(link.store.actions), link.store.actions, {e})
    {
      SendingKeepsOrder(sent, e);
      sent := sent + [e];
      result := DeliverEvent(link, e, MAX_DELIVERY_SECONDS);
      if result.delivered {
        lastSuccessAt := Some(e.occurredAt);
      }
    }

    function Beat(id: string, occurredAt: string, epoch: string, sequence: int): Event {
      Event(id, runnerId, producerId, epoch, sequence, occurredAt, RunnerHeartbeat)
    }
  }

  lemma SendingKeepsOrder(sent: seq<Event>, e: Event)
    requires SentInOrder(sent) && Ahead(e.producerEpoch, e.sequence, sent)
    ensures SentInOrder(sent + [e]) && Ahead(e.producerEpoch, e.sequence + 1, sent + [e])
  {
  }

  // ---------- the store applies them ----------

  predicate IsArrival(a: Action, runnerId: string, producerId: string) {
    a.DoIngest? && a.e.runnerId == runnerId && a.e.producerId == producerId
  }

  // The arrivals from a producer are among the sent events, in sending order; an event may
  // arrive several times in a row, or not at all.  order[i] is the number of the event in actions[i].
  ghost predicate ArriveInOrder(
    actions: seq<Action>, sent: seq<Event>, order: seq<nat>, runnerId: string, producerId: string) {
    && |order| == |actions|
    && (forall i :: 0 <= i < |actions| && IsArrival(actions[i], runnerId, producerId) ==>
                      order[i] < |sent| && actions[i].e == sent[order[i]])
    && (forall i, j :: 0 <= i < j < |actions| && IsArrival(actions[i], runnerId, producerId)
                       && IsArrival(actions[j], runnerId, producerId) ==>
                         order[i] <= order[j])
  }

  function Padded(order: seq<nat>, n: nat, number: nat): seq<nat> {
    if n <= |order| then order else order + seq(n - |order|, _ => number)
  }

  // Nobody else's actions, and one more own event, leave the arrivals in order.
  lemma OthersKeepOrder(
    before: seq<Action>, now: seq<Action>, sent: seq<Event>, order: seq<nat>, runnerId: string, producerId: string)
    requires ArriveInOrder(before, sent, order, runnerId, producerId)
    requires |before| <= |now| && now[..|before|] == before
    requires forall i :: |before| <= i < |now| ==> !IsArrival(now[i], runnerId, producerId)
    ensures ArriveInOrder(now, sent, Padded(order, |now|, 0), runnerId, producerId)
  {
    var order' := Padded(order, |now|, 0);
    forall i | 0 <= i < |before| ensures now[i] == before[i] && order'[i] == order[i] {
      assert now[i] == now[..|before|][i];
    }
  }

  lemma OwnKeepsOrder(
    before: seq<Action>, now: seq<Action>, sent: seq<Event>, e: Event, order: seq<nat>, runnerId: string,
    producerId: string)
    requires ArriveInOrder(before, sent, order, runnerId, producerId) && OnlyArrivals(before, now, {e})
    ensures ArriveInOrder(now, sent + [e], Padded(order, |now|, |sent|), runnerId, producerId)
  {
    var order' := Padded(order, |now|, |sent|);
    forall i | 0 <= i < |before| ensures now[i] == before[i] && order'[i] == order[i] {
      assert now[i] == now[..|before|][i];
    }
  }

  // Each logged event of a producer is one that arrived.
  lemma {:induction false} LoggedHasArrived(worlds: seq<World>, actions: seq<Action>, i: nat, m: nat)
    requires IsRun(worlds, actions) && i <= |actions| && m < |worlds[i].log|
    ensures exists j :: 0 <= j < i && actions[j].DoIngest? && actions[j].e == worlds[i].log[m].event
  {
    var before := worlds[i - 1];
    assert worlds[i - 1 + 1] == Next(before, actions[i - 1]);
    if m < |before.log| {
      LoggedHasArrived(worlds, actions, i - 1, m);
      NextKeepsLog(before, actions[i - 1]);
      assert worlds[i].log[..|before.log|][m] == before.log[m];
    }
  }

  // An id that no event has brought so far.
  ghost predicate IsNew(id: string, actions: seq<Action>) {
    forall j :: 0 <= j < |actions| && actions[j].DoIngest? ==> actions[j].e.id != id
  }

  lemma RecordedIsNotNew(worlds: seq<World>, actions: seq<Action>, i: nat, id: string)
    requires IsRun(worlds, actions) && i <= |actions| && Recorded(worlds[i].db.events, id)
    ensures !IsNew(id, actions[..i])
  {
    var w := worlds[i];
    var k :| 0 <= k < |w.db.events| && w.db.events[k].event.id == id;
    RunKeepsInv(worlds, actions, i);
    Invariants.KeptRowIsLogged(w.log, w.kept, w.db.events[k]);
    var m :| 0 <= m < |w.log| && w.log[m] == w.db.events[k];
    LoggedHasArrived(worlds, actions, i, m);
    var j :| 0 <= j < i && actions[j].DoIngest? && actions[j].e == w.log[m].event;
    assert actions[..i][j].e.id == id;
  }

  // A heartbeat that arrives for the first time is always applied, whatever other events,
  // refreshes, replays and prunes the store has seen.
  lemma FirstArrivalIsApplied(
    worlds: seq<World>, actions: seq<Action>, sent: seq<Event>, order: seq<nat>, runnerId: string,
    producerId: string, i: nat)
    requires IsRun(worlds, actions) && i < |actions| && IsArrival(actions[i], runnerId, producerId)
    requires SentInOrder(sent) && ArriveInOrder(actions, sent, order, runnerId, producerId)
    requires actions[i].e.body.RunnerHeartbeat? && !Recorded(worlds[i].db.events, actions[i].e.id)
    requires forall j :: 0 <= j < i && IsArrival(actions[j], runnerId, producerId) ==> order[j] != order[i]
    ensures worlds[i + 1].log == worlds[i].log + [EventRow(actions[i].e, actions[i].receivedAt, true)]
  {
    var w, e := worlds[i], actions[i].e;
    RunKeepsInv(worlds, actions, i);
    Queries.RowsAreQueries(w);
    if Stream(e) in w.db.views.watermarks {
      var m :| 0 <= m < |w.log| && Queries.InStream(w.log[m], Stream(e))
               && w.log[m].event.sequence == w.db.views.watermarks[Stream(e)];
      LoggedHasArrived(worlds, actions, i, m);
      var j :| 0 <= j < i && actions[j].DoIngest? && actions[j].e == w.log[m].event;
      assert IsArrival(actions[j], runnerId, producerId);
      assert sent[order[j]].producerEpoch == sent[order[i]].producerEpoch;
    }
    assert Projection.Accepts(w.db.views, e);
  }
}
