// A runner's outbox and heartbeat producer, their link and the monitor's store together:
// delivery at least once, effect once.
module EndToEnd {
  import opened Contracts
  import opened Delivery
  import opened Heartbeat
  import opened Invariants
  import opened Monitor
  import opened MonitorStore
  import opened Options
  import opened Outbox
  import opened OutboxCalls
  import opened OutboxCapacity
  import opened OutboxDrains
  import opened OutboxFiles
  import opened OutboxPass
  import OutboxRuns
  import opened Safety
  import opened Tables

  // No pending file is of the producer's own events.
  ghost predicate NoneOwn(pending: Directory, runnerId: string, producerId: string) {
    forall id :: id in pending && pending[id].Queued? ==>
                   !FromProducer(pending[id].envelope.event, runnerId, producerId)
  }

  // Whatever pending file is new is of this event.
  ghost predicate NoneElse(e: Event, pending: Directory, pending': Directory) {
    forall id :: id in pending' && pending'[id].Queued? ==>
                   pending'[id].envelope.event == e || (id in pending && pending[id] == pending'[id])
  }

  predicate FromProducer(e: Event, runnerId: string, producerId: string) {
    e.runnerId == runnerId && e.producerId == producerId
  }

  class Deployment {
    const outbox: DurableOutbox
    const link: Link
    const producer: HeartbeatProducer
    ghost var first: OutboxRuns.Stage
    ghost var steps: seq<OutboxRuns.Step>  // what the outbox has done
    ghost var alone: bool                  // nobody else has used the producer's ids
    ghost var order: seq<nat>              // the number of the heartbeat that each action of the store brought

    ghost predicate Valid()
      reads this, outbox, outbox.disk, link, link.store, link.store.db, producer
    {
      && outbox.Valid() && link.Valid() && producer.Valid()
      // what was acknowledged was confirmed by the store, which has logged it
      && Confirmed(outbox.acknowledged, link.confirmed)
      && OutboxRuns.InSeries(first, steps) && OutboxRuns.Last(first, steps) == Stage()
      && (alone ==> HeartbeatsInOrder())
    }

    ghost function Stage(): OutboxRuns.Stage
      reads outbox.disk
    {
      OutboxRuns.Stage(outbox.disk.pending, outbox.disk.deadLetter)
    }

    ghost predicate HeartbeatsInOrder()
      reads this, outbox.disk, link.store, producer
    {
      && ArriveInOrder(link.store.actions, producer.sent, order, producer.runnerId, producer.producerId)
      && NoneOwn(outbox.disk.pending, producer.runnerId, producer.producerId)
    }

    constructor (outbox: DurableOutbox, link: Link, producer: HeartbeatProducer)
      requires outbox.Valid() && link.Valid() && producer.Valid() && outbox.acknowledged == {}
      ensures Valid() && this.outbox == outbox && this.link == link && this.producer == producer && steps == []
      ensures alone <==>
              link.store.actions == [] && NoneOwn(outbox.disk.pending, producer.runnerId, producer.producerId)
    {
      this.outbox, this.link, this.producer := outbox, link, producer;
      first, steps := OutboxRuns.Stage(outbox.disk.pending, outbox.disk.deadLetter), [];
      alone := link.store.actions == [] && NoneOwn(outbox.disk.pending, producer.runnerId, producer.producerId);
      order := [];
    }

    // The history of the outbox grows by one step.
    ghost method Record(s: OutboxRuns.Step)
      requires OutboxRuns.InSeries(first, steps) && OutboxRuns.Lawful(s) && s.from == OutboxRuns.Last(first, steps)
      modifies `steps
      ensures OutboxRuns.InSeries(first, steps) && OutboxRuns.Last(first, steps) == s.to && steps == old(steps) + [s]
    {
      OutboxRuns.SeriesOneMore(first, steps, s);
      steps := steps + [s];
    }

    // ---------- at the runner ----------

    method Enqueue(e: Event, stamp: Option<string>, look: Lookup, statFails: bool, sight: Sight)
      returns (result: EnqueueResult, stopped: bool)
      requires Valid()
      modifies outbox`accepted, outbox.disk`pending, outbox.disk`faults, `steps, `alone
      ensures Valid()
      ensures result == EventQueued ==> e in outbox.accepted
      ensures Roomy(sight) ==> old(KeepsCapacity()) ==> KeepsCapacity()
      ensures alone <==> old(alone) && !FromProducer(e, producer.runnerId, producer.producerId)
    {
      ghost var from := Stage();
      result, stopped := Queue(e, stamp, look, statFails, sight);
      Record(OutboxRuns.EnqueueStep(e, from, Stage()));
      alone := alone && !FromProducer(e, producer.runnerId, producer.producerId);
    }

    method Queue(e: Event, stamp: Option<string>, look: Lookup, statFails: bool, sight: Sight)
      returns (result: EnqueueResult, stopped: bool)
      requires outbox.Valid()
      modifies outbox`accepted, outbox.disk`pending, outbox.disk`faults
      ensures outbox.Valid() && (result == EventQueued ==> e in outbox.accepted)
      ensures OutboxRuns.Lawful(OutboxRuns.EnqueueStep(e, old(Stage()), Stage()))
      ensures Roomy(sight) ==> old(KeepsCapacity()) ==> KeepsCapacity()
      ensures NoneElse(e, old(outbox.disk.pending), outbox.disk.pending)
    {
      ghost var pending := outbox.disk.pending;
      ghost var decision;
      result, stopped, decision := outbox.Enqueue(e, stamp, look, statFails, sight);
      EnqueueMeans(decision, e, stamp, look, statFails, outbox.limits, sight, pending, outbox.disk.deadLetter,
                   outbox.disk.pending);
    }

    // One drain of the outbox.
    method Drain(sight: Sight, fates: map<string, CallFate>, bounded: bool)
      returns (result: DrainResult, stopped: bool, ghost run: Run)
      requires Valid()
      modifies outbox`acknowledged, outbox`removed, outbox`offered, outbox.disk, link, link.store, link.store.db,
               `steps, `order
      ensures Valid()
      ensures Ran(sight, fates, outbox.limits, run) && result == run.Reported() && stopped == run.Stopped()
      ensures run.before == old(outbox.Standing(link)) && run.after == outbox.Standing(link)
      ensures old(KeepsCapacity()) ==> KeepsCapacity()
      ensures bounded ==> link.now - old(link.now) <= outbox.limits.maxDrainSeconds + SHORTEST_TIMEOUT
    {
      result, stopped, run := Flush(sight, fates, bounded);
      Account(sight, fates, run);
    }

    // What a drain adds to the histories.
    ghost method Account(sight: Sight, fates: map<string, CallFate>, run: Run)
      requires outbox.Valid() && link.Valid() && producer.Valid() && Confirmed(outbox.acknowledged, link.confirmed)
      requires Ran(sight, fates, outbox.limits, run) && run.after == outbox.Standing(link)
      requires OutboxRuns.InSeries(first, steps) && OutboxRuns.Last(first, steps) == StageBefore(run)
      requires OutboxRuns.Lawful(OutboxRuns.DrainStep(sight, Called(run), StageBefore(run), Stage()))
      requires alone ==>
                 && ArriveInOrder(run.before.actions, producer.sent, order, producer.runnerId, producer.producerId)
                 && NoneOwn(run.before.pending, producer.runnerId, producer.producerId)
      modifies `steps, `order
      ensures Valid() && steps == old(steps) + [OutboxRuns.DrainStep(sight, Called(run), StageBefore(run), Stage())]
    {
      Record(OutboxRuns.DrainStep(sight, Called(run), StageBefore(run), Stage()));
      if alone {
        DrainKeepsOrder(sight, fates, outbox.limits, run, producer.sent, order, producer.runnerId, producer.producerId);
        order := Padded(order, |link.store.actions|, 0);
      }
    }

    method Flush(sight: Sight, fates: map<string, CallFate>, bounded: bool)
      returns (result: DrainResult, stopped: bool, ghost run: Run)
      requires outbox.Valid() && link.Valid() && Confirmed(outbox.acknowledged, link.confirmed)
      modifies outbox`acknowledged, outbox`removed, outbox`offered, outbox.disk, link, link.store, link.store.db
      ensures outbox.Valid() && link.Valid() && Confirmed(outbox.acknowledged, link.confirmed)
      ensures Ran(sight, fates, outbox.limits, run) && result == run.Reported() && stopped == run.Stopped()
      ensures run.before == old(outbox.Standing(link)) && run.after == outbox.Standing(link)
      ensures OutboxRuns.Lawful(OutboxRuns.DrainStep(sight, Called(run), old(Stage()), Stage()))
      ensures old(KeepsCapacity()) ==> KeepsCapacity()
      ensures bounded ==> link.now - old(link.now) <= outbox.limits.maxDrainSeconds + SHORTEST_TIMEOUT
    {
      result, stopped, run := outbox.Drain(link, sight, fates, bounded);
      DrainMeans(sight, fates, outbox.limits, run);
    }

    // The heartbeat service first flushes the outbox, each event with the full delivery budget,
    // and then sends its own heartbeat.
    method Beat(
      sight: Sight, fates: map<string, CallFate>, credential: bool, id: string, occurredAt: string,
      freshEpoch: string, look: Lookup, loadFault: Fault, reserveFault: Fault)
      returns (emission: Emission)
      requires Valid() && Ahead(freshEpoch, 1, producer.sent)
      modifies outbox`acknowledged, outbox`removed, outbox`offered, outbox.disk, link, link.store, link.store.db,
               producer, `steps, `order
      ensures Valid() && |old(producer.sent)| <= |producer.sent| <= |old(producer.sent)| + 1
      ensures emission.Attempted? && emission.result.delivered ==> id in link.confirmed
      ensures old(KeepsCapacity()) ==> KeepsCapacity()
    {
      if !credential {
        return CredentialFailed;
      }
      var flushed, stopped;
      ghost var run;
      flushed, stopped, run := Drain(sight, fates, false);
      if stopped {
        return Emission.Halted;
      }
      emission := Emit(id, occurredAt, freshEpoch, look, loadFault, reserveFault);
    }

    method Emit(id: string, occurredAt: string, freshEpoch: string, look: Lookup, loadFault: Fault, reserveFault: Fault)
      returns (emission: Emission)
      requires Valid() && Ahead(freshEpoch, 1, producer.sent)
      modifies link, link.store, link.store.db, producer, `order
      ensures Valid() && |old(producer.sent)| <= |producer.sent| <= |old(producer.sent)| + 1
      ensures emission.Attempted? && emission.result.delivered ==> id in link.confirmed
    {
      ghost var confirmed, sent, actions := link.confirmed, producer.sent, link.store.actions;
      emission := producer.EmitOnce(link, true, id, occurredAt, freshEpoch, look, loadFault, reserveFault);
      StillConfirmed(outbox.acknowledged, outbox.acknowledged, confirmed, link.confirmed);
      if alone && emission.Attempted? {
        OwnKeepsOrder(actions, link.store.actions, sent, producer.sent[|sent|], order, producer.runnerId,
                      producer.producerId);
        order := Padded(order, |link.store.actions|, |sent|);
      }
    }

    // ---------- what goes on at the monitor meanwhile ----------

    method IngestElsewhere(e: Event, receivedAt: int, databaseFails: bool) returns (result: IngestResult)
      requires Valid()
      modifies link.store, link.store.db, `alone, `order
      ensures Valid()
      ensures alone <==> old(alone) && !FromProducer(e, producer.runnerId, producer.producerId)
    {
      ghost var world, actions := link.store.Current(), link.store.actions;
      result := link.store.Ingest(e, receivedAt, databaseFails);
      NextKeepsRecorded(world, DoIngest(e, receivedAt), link.confirmed);
      alone := alone && !FromProducer(e, producer.runnerId, producer.producerId);
      Others(actions);
    }

    method Refresh(now: int, databaseFails: bool)
      requires Valid()
      modifies link.store, link.store.db, `order
      ensures Valid()
    {
      ghost var world, actions := link.store.Current(), link.store.actions;
      var _ := link.store.RefreshLiveness(now, databaseFails);
      NextKeepsRecorded(world, DoRefresh(now), link.confirmed);
      Others(actions);
    }

    method Replay(databaseFails: bool)
      requires Valid()
      modifies link.store, link.store.db, `order
      ensures Valid()
    {
      ghost var world, actions := link.store.Current(), link.store.actions;
      var ok;
      ghost var listed;
      ok, listed := link.store.Replay(databaseFails);
      NextKeepsRecorded(world, DoReplay(listed), link.confirmed);
      Others(actions);
    }

    method Prune(now: int, databaseFails: bool)
      requires Valid()
      modifies link.store, link.store.db, `order
      ensures Valid()
    {
      ghost var world, actions := link.store.Current(), link.store.actions;
      var _ := link.store.PruneHistory(now, databaseFails);
      NextKeepsRecorded(world, DoPrune(now), link.confirmed);
      Others(actions);
    }

    // The store has done something that is not the producer's.
    ghost method Others(before: seq<Action>)
      requires |before| <= |link.store.actions| && link.store.actions[..|before|] == before
      requires alone ==>
                 && ArriveInOrder(before, producer.sent, order, producer.runnerId, producer.producerId)
                 && NoneOwn(outbox.disk.pending, producer.runnerId, producer.producerId)
                 && forall i :: |before| <= i < |link.store.actions| ==>
                                  !IsArrival(link.store.actions[i], producer.runnerId, producer.producerId)
      modifies `order
      ensures alone ==> HeartbeatsInOrder()
    {
      if alone {
        OthersKeepOrder(before, link.store.actions, producer.sent, order, producer.runnerId, producer.producerId);
        order := Padded(order, |link.store.actions|, 0);
      }
    }

    ghost predicate KeepsCapacity()
      reads outbox.disk
    {
      WithinCapacity(outbox.disk.pending, outbox.disk.deadLetter, outbox.limits, LENGTH)
    }
  }

  // ---------- what an enqueue comes to ----------

  lemma EnqueueMeans(
    decision: Decision, e: Event, stamp: Option<string>, look: Lookup, statFails: bool, limits: Limits, sight: Sight,
    pending: Directory, dead: Directory, pending': Directory)
    requires Decided(decision, e, stamp, look, statFails, limits, sight, pending, dead)
    requires pending' == pending || (decision.Write? && pending' == pending[e.id := Queued(decision.envelope)])
    ensures OutboxRuns.Lawful(OutboxRuns.EnqueueStep(e, OutboxRuns.Stage(pending, dead),
                                                     OutboxRuns.Stage(pending', dead)))
    ensures NoneElse(e, pending, pending')
    ensures Roomy(sight) && WithinCapacity(pending, dead, limits, LENGTH) ==>
              WithinCapacity(pending', dead, limits, LENGTH)
  {
    if Roomy(sight) {
      EnqueueKeepsCapacity(decision, e, stamp, look, statFails, limits, sight, pending, dead, pending');
    }
  }

  // ---------- what a drain comes to ----------

  function StageBefore(run: Run): OutboxRuns.Stage {
    OutboxRuns.Stage(run.before.pending, run.before.deadLetter)
  }

  function Called(run: Run): seq<Event>
    requires |run.made| <= |run.listed|
  {
    Events(run.listed[..|run.made|])
  }

  lemma DrainMeans(sight: Sight, fates: map<string, CallFate>, limits: Limits, run: Run)
    requires Ran(sight, fates, limits, run)
    ensures OutboxRuns.Lawful(OutboxRuns.DrainStep(
                                sight, Called(run), StageBefore(run),
                                OutboxRuns.Stage(run.after.pending, run.after.deadLetter)))
    ensures Confirmed(run.before.acknowledged, run.before.confirmed) ==>
              Confirmed(run.after.acknowledged, run.after.confirmed)
    ensures WithinCapacity(run.before.pending, run.before.deadLetter, limits, LENGTH) ==>
              WithinCapacity(run.after.pending, run.after.deadLetter, limits, LENGTH)
  {
    DrainComesTo(sight, fates, limits, run);
    if WithinCapacity(run.before.pending, run.before.deadLetter, limits, LENGTH) {
      DrainStaysWithin(run.before.pending, run.before.deadLetter, run.after.pending, run.after.deadLetter, limits,
                       LENGTH);
    }
  }

  lemma DrainKeepsOrder(
    sight: Sight, fates: map<string, CallFate>, limits: Limits, run: Run, sent: seq<Event>, order: seq<nat>,
    runnerId: string, producerId: string)
    requires Ran(sight, fates, limits, run)
    requires NoneOwn(run.before.pending, runnerId, producerId)
    requires ArriveInOrder(run.before.actions, sent, order, runnerId, producerId)
    ensures ArriveInOrder(run.after.actions, sent, Padded(order, |run.after.actions|, 0), runnerId, producerId)
    ensures NoneOwn(run.after.pending, runnerId, producerId)
  {
    DrainComesTo(sight, fates, limits, run);
    OthersArrive(run.listed, |run.made|, run.before, run.after, runnerId, producerId);
    OthersKeepOrder(run.before.actions, run.after.actions, sent, order, runnerId, producerId);
  }

  lemma OthersArrive(listed: seq<Envelope>, called: nat, p: State, p': State, runnerId: string, producerId: string)
    requires called <= |listed| && StillListed(listed, 0, p.pending) && NoneOwn(p.pending, runnerId, producerId)
    requires OnlyArrivals(p.actions, p'.actions, Set(Events(listed[..called])))
    ensures forall i :: |p.actions| <= i < |p'.actions| ==> !IsArrival(p'.actions[i], runnerId, producerId)
  {
    forall i | |p.actions| <= i < |p'.actions| ensures !IsArrival(p'.actions[i], runnerId, producerId) {
      var e := p'.actions[i].e;
      var j :| 0 <= j < called && Events(listed[..called])[j] == e;
      assert IsFileOf(p.pending, listed[j]);
    }
  }

  // When no file step fails, the monitor answers with success, and the answers take less than the
  // time budget, each deliverable event that the count budget reaches is off the pending directory
  // and in the store's log.
  lemma SmoothDrainIsLogged(d: Deployment, sight: Sight, fates: map<string, CallFate>, run: Run, j: nat)
    requires d.Valid() && Ran(sight, fates, d.outbox.limits, run) && run.after == d.outbox.Standing(d.link)
    requires DrainSmooth(sight, fates, d.outbox.limits, run.before)
    requires j < |run.listed| && j < d.outbox.limits.maxDrainEvents
    ensures Names(run.listed) == Deliverable(run.before.pending, run.before.deadLetter, sight)
    ensures run.listed[j].event.id !in d.outbox.disk.pending
            && Recorded(d.link.store.Current().log, run.listed[j].event.id)
  {
    SmoothDrainDelivers(sight, fates, d.outbox.limits, run);
  }

  // And as many such drains as the number of events asks for leave nothing deliverable: every
  // event that was is in the store's log.
  lemma SmoothDrainsAreLogged(d: Deployment, sight: Sight, fates: map<string, CallFate>, runs: seq<Run>, id: string)
    requires d.Valid() && Successive(runs, sight, fates, d.outbox.limits)
    requires AnswersAll(sight, fates, d.outbox.limits, runs[0].before)
    requires runs[|runs| - 1].after == d.outbox.Standing(d.link)
    requires |Deliverable(runs[0].before.pending, runs[0].before.deadLetter, sight)|
          <= |runs| * d.outbox.limits.maxDrainEvents
    ensures Deliverable(d.outbox.disk.pending, d.outbox.disk.deadLetter, sight) == {}
    ensures id in Deliverable(runs[0].before.pending, runs[0].before.deadLetter, sight) ==>
              id !in d.outbox.disk.pending && Recorded(d.link.store.Current().log, id)
  {
    SmoothDrainsConfirm(runs, sight, fates, d.outbox.limits, d.outbox.Standing(d.link), id);
  }

  predicate Roomy(sight: Sight) {
    sight.pendingListed && sight.deadListed
  }

  ghost predicate Confirmed(events: set<Event>, ids: set<string>) {
    forall e :: e in events ==> e.id in ids
  }

  lemma StillConfirmed(before: set<Event>, now: set<Event>, confirmedBefore: set<string>, confirmed: set<string>)
    requires Confirmed(before, confirmedBefore) && confirmedBefore <= confirmed
             && NewlyAcknowledged(before, now, confirmed)
    ensures Confirmed(now, confirmed)
  {
  }

  // What a deployment that keeps its capacity holds on disk, at any moment.
  lemma DiskStaysBounded(d: Deployment)
    requires d.KeepsCapacity()
    ensures var pending, dead, limits := d.outbox.disk.pending, d.outbox.disk.deadLetter, d.outbox.limits;
            && |pending.Keys + dead.Keys| <= limits.maxEvents
            && Bytes(Once(pending, dead), LENGTH) <= limits.maxBytes + limits.maxEvents * LONGEST_REASON_FIELD
  {
    LengthMeasures();
    CapacityBound(d.outbox.disk.pending, d.outbox.disk.deadLetter, d.outbox.limits, LENGTH, LONGEST_REASON_FIELD);
  }

  // At any moment, whatever failed on the way: an accepted event is still held by the outbox or
  // its id is in the store's log, and one removed from pending as delivered is in the log.
  lemma DeliveredAtLeastOnce(d: Deployment, e: Event)
    requires d.Valid()
    ensures e in d.outbox.accepted ==>
              Held(d.outbox.disk.pending, d.outbox.disk.deadLetter, e) || Recorded(d.link.store.Current().log, e.id)
    ensures e in d.outbox.removed ==> Recorded(d.link.store.Current().log, e.id)
  {
    if e in d.outbox.removed || (e in d.outbox.accepted && e in d.outbox.acknowledged) {
      assert e in d.outbox.acknowledged;
    }
  }

  // The log has the event itself when nothing else ever arrived under its id.
  lemma DeliveredAsSent(d: Deployment, e: Event)
    requires d.Valid() && e in d.outbox.removed
    requires forall i :: 0 <= i < |d.link.store.actions| && d.link.store.actions[i].DoIngest?
                         && d.link.store.actions[i].e.id == e.id ==>
                           d.link.store.actions[i].e == e
    ensures exists m :: 0 <= m < |d.link.store.Current().log| && d.link.store.Current().log[m].event == e
  {
    DeliveredAtLeastOnce(d, e);
    var worlds, actions := d.link.store.worlds, d.link.store.actions;
    var log := d.link.store.Current().log;
    var m :| 0 <= m < |log| && log[m].event.id == e.id;
    LoggedHasArrived(worlds, actions, |actions|, m);
  }

  // And while nothing is pruned, the log holds each id once and the store is exactly what it
  // would be had every event arrived only at its first arrival.
  lemma EffectOnce(d: Deployment)
    requires d.Valid() && forall i :: 0 <= i < |d.link.store.actions| ==> !d.link.store.actions[i].DoPrune?
    ensures DistinctIds(d.link.store.Current().log)
    ensures d.link.store.Current() == After(FirstArrivals(d.link.store.actions))
  {
    var worlds, actions := d.link.store.worlds, d.link.store.actions;
    LogHoldsEachIdOnce(worlds, actions, |actions|);
    RunPassesAfter(worlds, actions, |actions|);
    assert actions[..|actions|] == actions;
    OnlyFirstArrivalsCount(actions);
  }

  // While nobody else uses the producer's ids, each of its heartbeats whose event id is new to the
  // store is applied, whatever failures, retries, drains, refreshes, replays and prunes came before.
  lemma HeartbeatsAreApplied(d: Deployment, i: nat)
    requires d.Valid() && d.alone && i < |d.link.store.actions|
    requires IsArrival(d.link.store.actions[i], d.producer.runnerId, d.producer.producerId)
    requires IsNew(d.link.store.actions[i].e.id, d.link.store.actions[..i])
    ensures d.link.store.worlds[i + 1].log
         == d.link.store.worlds[i].log
            + [EventRow(d.link.store.actions[i].e, d.link.store.actions[i].receivedAt, true)]
  {
    var worlds, actions, order := d.link.store.worlds, d.link.store.actions, d.order;
    assert d.producer.OwnHeartbeat(d.producer.sent[order[i]]);
    if Recorded(worlds[i].db.events, actions[i].e.id) {
      RecordedIsNotNew(worlds, actions, i, actions[i].e.id);
    }
    forall j | 0 <= j < i && IsArrival(actions[j], d.producer.runnerId, d.producer.producerId)
      ensures order[j] != order[i] {
      assert actions[..i][j] == actions[j];
    }
    FirstArrivalIsApplied(worlds, actions, d.producer.sent, order, d.producer.runnerId, d.producer.producerId, i);
  }

  // No two heartbeats ever carry the same epoch and number.
  lemma NoPairTwice(d: Deployment, i: nat, j: nat)
    requires d.Valid() && i < j < |d.producer.sent|
    ensures d.producer.sent[i].producerEpoch != d.producer.sent[j].producerEpoch
            || d.producer.sent[i].sequence != d.producer.sent[j].sequence
  {
  }

  // Once an id has a valid dead letter, no later step of the deployment writes a pending file of
  // it, and no later drain that can list and read the dead letter offers it.
  lemma BuriedStaysBuried(d: Deployment, i: nat, j: nat, id: string)
    requires d.Valid() && i <= j < |d.steps|
    requires id in d.steps[i].from.deadLetter && ReadsAs(id, d.steps[i].from.deadLetter[id], true)
    ensures id in d.steps[j].to.pending ==> id in d.steps[j].from.pending
    ensures d.steps[j].DrainStep? && d.steps[j].sight.deadListed && id !in d.steps[j].sight.deadUnreadable ==>
              id !in Ids(d.steps[j].offered)
    ensures OutboxRuns.StaysBuried(id, d.steps[i].from, d.Stage())
  {
    OutboxRuns.DeadLettersAreFinal(d.first, d.steps, i, j, id);
    OutboxRuns.DeadLettersAreFinal(d.first, d.steps, i, |d.steps| - 1, id);
  }

  // But one that cannot be listed stops nothing: this drain calls the monitor with an event
  // whose valid dead letter is on disk, and leaves the dead letter there.
  method UnlistedDeadLetterIsOffered()
    returns (outbox: DurableOutbox, link: Link, e: Event, ghost sight: Sight, ghost run: Run)
    ensures fresh(outbox) && fresh(link) && Ran(sight, map[], outbox.limits, run) && run.after == outbox.Standing(link)
    ensures !sight.deadListed && InDeadLetter(run.before.deadLetter, e)
    ensures run.before.offered == [] && run.after.offered == [e]
    ensures InDeadLetter(run.after.deadLetter, e)
  {
    outbox, link, e := DeadLetterBesidePending();
    var unlisted := Sight(true, false, {}, {});
    var result, stopped;
    result, stopped, run := outbox.Drain(link, unlisted, map[], true);
    sight := unlisted;
    LoneDrain(sight, outbox.limits, run, e);
  }

  method DeadLetterBesidePending() returns (outbox: DurableOutbox, link: Link, e: Event)
    ensures fresh(outbox) && fresh(outbox.disk) && fresh(link) && fresh(link.store) && fresh(link.store.db)
    ensures outbox.Valid() && link.Valid() && outbox.disk.faults == [] && outbox.offered == []
    ensures outbox.disk.pending.Keys == {e.id} && InPending(outbox.disk.pending, e)
            && InDeadLetter(outbox.disk.deadLetter, e)
  {
    e := Event("e", "r", "p", "q", 1, "t", RunnerHeartbeat);
    var disk := new Disk(map["e" := Queued(Envelope("t", e))],
                         map["e" := DeadLetter(Envelope("t", e), RejectedHttpResponse)], []);
    outbox := new DurableOutbox(disk, Limits(1, 1, 1, 1.0));
    var store := new Store();
    link := new Link(store, 0.0, []);
  }

  // A drain that lists one event, with no fault on the way, calls the monitor with it.
  lemma LoneDrain(sight: Sight, limits: Limits, run: Run, e: Event)
    requires Ran(sight, map[], limits, run) && limits.Valid() && run.before.faultless && run.before.offered == []
    requires e.id in run.before.pending && run.before.pending[e.id].Queued?
             && run.before.pending[e.id].envelope.event == e
    requires Deliverable(run.before.pending, run.before.deadLetter, sight) == {e.id}
    ensures run.after.offered == [e]
    ensures forall id :: id in run.before.deadLetter ==>
                           id in run.after.deadLetter && run.after.deadLetter[id] == run.before.deadLetter[id]
  {
    LoneList(sight, limits, run, e);
    DrainComesTo(sight, map[], limits, run);
    assert Events(run.listed[..1]) == [e];
  }

  lemma LoneList(sight: Sight, limits: Limits, run: Run, e: Event)
    requires Ran(sight, map[], limits, run) && limits.Valid() && run.before.faultless
    requires e.id in run.before.pending && run.before.pending[e.id].Queued?
             && run.before.pending[e.id].envelope.event == e
    requires Deliverable(run.before.pending, run.before.deadLetter, sight) == {e.id}
    ensures |run.listed| == 1 && |run.made| == 1 && run.listed[0].event == e
  {
    DrainComesTo(sight, map[], limits, run);
    CountNames(run.listed);
    assert run.listed[0].event.id in Names(run.listed);
    assert IsFileOf(run.before.pending, run.listed[0]);
  }
}
