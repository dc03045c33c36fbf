// The durable outbox: enqueueing, reconciling, draining and dead-lettering.
module Outbox {
  import opened Contracts
  import opened Delivery
  import opened Options
  import opened OutboxCalls
  import opened OutboxCapacity
  import opened OutboxDrains
  import opened OutboxFiles
  import opened OutboxPass

  datatype EnqueueResult =
    | EventQueued
    | Duplicate
    | Conflict
    | Rejected(why: string)

  // ---------- safe keeping ----------

  // An event is held while it is pending with no dead letter in its way, or dead-lettered.
  predicate Held(pending: Directory, dead: Directory, e: Event) {
    InDeadLetter(dead, e) || (InPending(pending, e) && e.id !in dead)
  }

  // What an enqueue finds under the event's id, the pending file first, is this event.
  predicate Stores(pending: Directory, dead: Directory, e: Event) {
    InPending(pending, e) || (e.id !in pending && InDeadLetter(dead, e))
  }

  predicate Unknown(pending: Directory, dead: Directory, id: string) {
    id !in pending && id !in dead
  }

  // An enqueue may go ahead: a valid event, not stored yet, with a timestamp and room for its file.
  ghost predicate Writable(
    e: Event, stamp: Option<string>, look: Lookup, statFails: bool, limits: Limits, sight: Sight, pending: Directory,
    dead: Directory) {
    && Contracts.Valid(e) && look != Raising && Unknown(pending, dead, e.id) && stamp.Some? && !statFails
    && Room(pending, dead, limits, sight, LENGTH(Queued(Envelope(stamp.value, e))), LENGTH)
  }

  ghost predicate AllHeld(accepted: set<Event>, acknowledged: set<Event>, pending: Directory, dead: Directory) {
    forall e :: e in accepted && e !in acknowledged ==> Held(pending, dead, e)
  }

  lemma QueueingKeepsHeld(
    accepted: set<Event>, acknowledged: set<Event>, pending: Directory, dead: Directory, x: Envelope)
    requires AllHeld(accepted, acknowledged, pending, dead) && Contracts.Valid(x.event)
    requires x.event.id !in pending && x.event.id !in dead
    ensures AllHeld(accepted, acknowledged, pending[x.event.id := Queued(x)], dead)
    ensures AllHeld(accepted + {x.event}, acknowledged, pending[x.event.id := Queued(x)], dead)
    ensures InPending(pending[x.event.id := Queued(x)], x.event)
  {
  }

  class DurableOutbox {
    const disk: Disk
    const limits: Limits
    ghost var accepted: set<Event>      // enqueue returned queued
    ghost var acknowledged: set<Event>  // a deliver call returned delivered
    ghost var removed: set<Event>       // removed from pending as delivered
    ghost var offered: seq<Event>       // every deliver call made, in order

    // Nothing is lost: what was accepted is held, with its content, until it is acknowledged.
    ghost predicate Valid()
      reads this, disk
    {
      && limits.Valid()
      && removed <= acknowledged
      && AllHeld(accepted, acknowledged, disk.pending, disk.deadLetter)
    }

    constructor (disk: Disk, limits: Limits)
      requires limits.Valid()
      ensures Valid() && this.disk == disk && this.limits == limits
      ensures accepted == {} && acknowledged == {} && removed == {} && offered == []
    {
      this.disk, this.limits := disk, limits;
      accepted, acknowledged, removed, offered := {}, {}, {}, [];
    }

    // ---------- enqueueing ----------

    // What is already stored under an id, looking at the pending file first.
    method ExistingEvent(id: string, look: Lookup) returns (existing: Existing)
      requires look != Raising
      ensures existing == Absent <==> Unknown(disk.pending, disk.deadLetter, id)
      ensures existing.Stored? ==>
                look == Clear && existing.event.id == id && Stores(disk.pending, disk.deadLetter, existing.event)
      ensures existing == Illegible && look == Clear ==>
                if id in disk.pending then !ReadsAs(id, disk.pending[id], false)
                else id in disk.deadLetter && !ReadsAs(id, disk.deadLetter[id], true)
    {
      if id in disk.pending {
        var envelope := if look == Clear then ReadEnvelope(id, disk.pending[id], false) else None;
        return if envelope == None then Illegible else Stored(envelope.value.event);
      }
      if id in disk.deadLetter {
        var envelope := if look == Clear then ReadEnvelope(id, disk.deadLetter[id], true) else None;
        return if envelope == None then Illegible else Stored(envelope.value.event);
      }
      existing := Absent;
    }

    // Sums up the files of one listing.
    method DirectoryUsage(files: Directory) returns (count: nat, bytes: nat)
      ensures count == |files| && bytes == Bytes(files, LENGTH)
    {
      count, bytes := 0, 0;
      var left := files;
      while left != map[]
        invariant left.Keys <= files.Keys && count + |left| == |files|
        invariant bytes + Bytes(left, LENGTH) == Bytes(files, LENGTH)
        decreases |left|
      {
        var id :| id in left;
        BytesWithout(left, id, LENGTH);
        count, bytes := count + 1, bytes + FileLength(left[id]);
        left := left - {id};
      }
    }

    // The capacity check, over what its listings show.
    method HasRoom(length: nat, sight: Sight) returns (room: bool)
      ensures room <==> Room(disk.pending, disk.deadLetter, limits, sight, length, LENGTH)
    {
      var pendingCount, pendingBytes := DirectoryUsage(if sight.pendingListed then disk.pending else map[]);
      var deadCount, deadBytes := DirectoryUsage(if sight.deadListed then disk.deadLetter else map[]);
      room := pendingCount + deadCount < limits.maxEvents && pendingBytes + deadBytes + length <= limits.maxBytes;
    }

    method Persist(x: Envelope) returns (result: EnqueueResult, stopped: bool)
      requires Valid() && Contracts.Valid(x.event) && x.event.id !in disk.pending && x.event.id !in disk.deadLetter
      modifies `accepted, disk`pending, disk`faults
      ensures Valid()
      ensures result == EventQueued ==>
                !stopped && accepted == old(accepted) + {x.event} && InPending(disk.pending, x.event)
      ensures result != EventQueued ==>
                && result == Rejected("outbox_storage_unavailable") && accepted == old(accepted)
                && (!stopped ==> disk.pending == old(disk.pending))
      ensures disk.pending == old(disk.pending) || disk.pending == old(disk.pending)[x.event.id := Queued(x)]
      ensures old(disk.faults) == [] ==> result == EventQueued
    {
      QueueingKeepsHeld(accepted, acknowledged, disk.pending, disk.deadLetter, x);
      var outcome := disk.ReplacePending(x.event.id, Queued(x));
      if outcome == Done {
        accepted := accepted + {x.event};
      }
      result := if outcome == Done then EventQueued else Rejected("outbox_storage_unavailable");
      stopped := outcome == Stopped;
    }

    // Whether an event is to be written, and if not why not.
    method Decide(e: Event, stamp: Option<string>, look: Lookup, statFails: bool, sight: Sight)
      returns (decision: Decision)
      ensures Decided(decision, e, stamp, look, statFails, limits, sight, disk.pending, disk.deadLetter)
    {
      if !Contracts.Valid(e) {
        return Refuse(Rejected("invalid_event"));
      }
      if look == Raising {
        return Refuse(Rejected("outbox_storage_unavailable"));
      }
      var existing := ExistingEvent(e.id, look);
      if existing != Absent {
        return Refuse(if existing == Stored(e) then Duplicate else Conflict);
      }
      if stamp == None {
        return Refuse(Rejected("outbox_invalid_timestamp"));
      }
      var envelope := Envelope(stamp.value, e);
      if statFails {
        return Refuse(Rejected("outbox_storage_unavailable"));
      }
      var room := HasRoom(FileLength(Queued(envelope)), sight);
      decision := if room then Write(envelope) else Refuse(Rejected("outbox_capacity_exceeded"));
    }

    // Persists a valid event that is not stored yet, when the check sees room for it; nothing
    // keeps such an event out but a failing file step.
    method Enqueue(e: Event, stamp: Option<string>, look: Lookup, statFails: bool, sight: Sight)
      returns (result: EnqueueResult, stopped: bool, ghost decision: Decision)
      requires Valid()
      modifies `accepted, disk`pending, disk`faults
      ensures Valid() && Decided(decision, e, stamp, look, statFails, limits, sight, old(disk.pending), disk.deadLetter)
      ensures decision.Refuse? ==>
                result == decision.result && !stopped && disk.pending == old(disk.pending) && accepted == old(accepted)
      ensures decision.Write? ==>
                disk.pending == old(disk.pending)
                || disk.pending == old(disk.pending)[e.id := Queued(decision.envelope)]
      ensures result == EventQueued ==> !stopped && accepted == old(accepted) + {e} && InPending(disk.pending, e)
      ensures decision.Write? && result != EventQueued ==>
                && result == Rejected("outbox_storage_unavailable") && accepted == old(accepted)
                && (!stopped ==> disk.pending == old(disk.pending))
      ensures decision.Write? && old(disk.faults) == [] ==> result == EventQueued
    {
      var decided := Decide(e, stamp, look, statFails, sight);
      decision := decided;
      if decided.Refuse? {
        return decided.result, false, decided;
      }
      result, stopped := Persist(decided.envelope);
    }

    // One pending file: removed when its dead letter is known, otherwise read.
    method Consider(id: string, sight: Sight, deadLetterIds: set<string>) returns (seen: Seen)
      requires Valid() && id in disk.pending && deadLetterIds == DeadLetterIds(disk.deadLetter, sight)
      modifies disk`pending, disk`faults
      ensures Valid()
      ensures disk.pending == old(disk.pending) || (id in deadLetterIds && disk.pending == old(disk.pending) - {id})
      ensures disk.FilesVanish() ==> old(disk.FilesVanish())
      ensures old(disk.faults) == [] ==> seen != Halted && disk.faults == []
      ensures seen.ValidFile? <==> id !in deadLetterIds && Readable(old(disk.pending), id, sight)
      ensures seen.ValidFile? ==> IsFileOf(disk.pending, seen.envelope) && seen.envelope.event.id == id
      ensures seen == CorruptFile <==> id !in deadLetterIds && !Readable(old(disk.pending), id, sight)
    {
      if id in deadLetterIds {
        var outcome := disk.UnlinkPending(id);
        return if outcome == Stopped then Halted else Reconciled;
      }
      var envelope := if id in sight.pendingUnreadable then None else ReadEnvelope(id, disk.pending[id], false);
      seen := if envelope == None then CorruptFile else ValidFile(envelope.value);
    }

    // What holds once a pass over the pending directory has gone through the considered files.
    ghost predicate Passing(
      valid: seq<Envelope>, corrupt: nat, considered: set<string>, left: set<string>, from: Reading, sight: Sight)
      reads this, disk
    {
      && Valid() && Divided(considered, left, from.all) && considered !! left
      && (forall id :: id in left ==> id in disk.pending)
      && (disk.FilesVanish() ==> from.filesVanish) && (from.faultless ==> disk.faults == [])
      && Pass(valid, corrupt, considered, from.pending, disk.pending, disk.deadLetter, sight)
    }

    method ConsiderNext(
      id: string, sight: Sight, deadLetterIds: set<string>, valid: seq<Envelope>, corrupt: nat,
      ghost considered: set<string>, ghost left: set<string>, ghost from: Reading)
      returns (valid': seq<Envelope>, corrupt': nat, halted: bool)
      requires Passing(valid, corrupt, considered, left, from, sight)
      requires id in left && deadLetterIds == DeadLetterIds(disk.deadLetter, sight)
      modifies disk`pending, disk`faults
      ensures Passing(valid', corrupt', considered + {id}, left - {id}, from, sight) && (from.faultless ==> !halted)
    {
      TakeOne(considered, left, from.all, id);
      ghost var now := disk.pending;
      var seen := Consider(id, sight, deadLetterIds);
      PassOneMore(valid, corrupt, considered, from.pending, now, disk.pending, disk.deadLetter, sight, id, seen);
      halted := seen == Halted;
      valid' := if seen.ValidFile? then Inserted(valid, seen.envelope) else valid;
      corrupt' := if seen == CorruptFile then corrupt + 1 else corrupt;
    }

    // The valid pending envelopes in delivery order, after removing those whose dead letter
    // is known; files that do not read are counted and left alone.
    method PendingEvents(sight: Sight)
      returns (valid: seq<Envelope>, corrupt: nat, stopped: bool, ghost considered: set<string>)
      requires Valid()
      modifies disk`pending, disk`faults
      ensures Valid()
      ensures Pass(valid, corrupt, considered, old(disk.pending), disk.pending, disk.deadLetter, sight)
      ensures !stopped ==> considered == ListedPending(old(disk.pending), sight)
      ensures forall i, j :: 0 <= i < j < |valid| ==> InTurn(valid[i], valid[j])
      ensures disk.FilesVanish() ==> old(disk.FilesVanish())
      ensures old(disk.faults) == [] ==> !stopped && disk.faults == []
    {
      var deadLetterIds := DeadLetterIds(disk.deadLetter, sight);
      valid, corrupt, stopped, considered := [], 0, false, {};
      var left := if sight.pendingListed then disk.pending.Keys else {};
      ghost var from := Reading(left, disk.pending, disk.FilesVanish(), disk.faults == []);
      while left != {}
        invariant Passing(valid, corrupt, considered, left, from, sight) && !stopped
      {
        var id :| id in left;
        valid, corrupt, stopped := ConsiderNext(id, sight, deadLetterIds, valid, corrupt, considered, left, from);
        left := left - {id};
        considered := considered + {id};
        if stopped {
          SortedMeans(valid);
          return;
        }
      }
      SortedMeans(valid);
      AllTaken(considered, from.all);
    }

    // ---------- dead letters ----------

    // Files a dead letter and takes the pending file away; the look at the dead letter's place
    // and the clearing away of a temporary file may raise past every handler.
    method MoveToDeadLetter(x: Envelope, reason: Reason, sight: Sight) returns (verdict: Verdict)
      requires Valid() && IsFileOf(disk.pending, x)
               && reason in {RejectedHttpResponse, TransportFailure, DeliveryFailed}
      modifies disk
      ensures Valid()
      ensures disk.pending == old(disk.pending) || disk.pending == old(disk.pending) - {x.event.id}
      ensures disk.deadLetter == old(disk.deadLetter)
              || (x.event.id !in old(disk.deadLetter)
                  && disk.deadLetter == old(disk.deadLetter)[x.event.id := DeadLetter(x, reason)])
      ensures x.event.id !in disk.pending ==> InDeadLetter(disk.deadLetter, x.event)
      ensures verdict in {WasDeadLettered, WasRetained, Uncaught, ProcessStopped}
      ensures verdict == WasDeadLettered ==> x.event.id !in disk.pending || old(disk.FilesVanish())
      ensures verdict == WasRetained || verdict == Uncaught ==> x.event.id in disk.pending
      ensures old(disk.faults) == [] ==>
                && disk.faults == [] && verdict in {WasDeadLettered, WasRetained}
                && (verdict == WasRetained ==> x.event.id in old(disk.deadLetter))
      // beside a dead letter, the file goes exactly if that one reads, and says the same
      ensures old(disk.faults) == [] && x.event.id in old(disk.deadLetter) ==>
                (verdict == WasDeadLettered <==>
                 && x.event.id !in sight.deadUnreadable && InDeadLetter(old(disk.deadLetter), x.event)
                 && old(disk.deadLetter)[x.event.id].reason == reason)
      ensures disk.FilesVanish() ==> old(disk.FilesVanish())
    {
      var id := x.event.id;
      var outcome := disk.Inspect();
      if outcome != Done {
        return VerdictOf(outcome);
      }
      if id in disk.deadLetter {
        var existing := if id in sight.deadUnreadable then None else ReadEnvelope(id, disk.deadLetter[id], true);
        if existing == None {
          return WasRetained;
        }
        if existing.value.event != x.event || disk.deadLetter[id].reason != reason {
          return WasRetained;
        }
        outcome := disk.UnlinkPending(id);
        return VerdictOf(outcome);
      }
      outcome := disk.ReplaceDeadLetter(id, DeadLetter(x, reason));
      if outcome == Done {
        outcome := disk.UnlinkPending(id);
      }
      verdict := VerdictOf(outcome);
    }

    // ---------- draining ----------

    // The agent's deliver callback: an event gets what is left of the drain's time, or, for
    // the heartbeat service, the full delivery budget.
    method Deliver(link: Link, e: Event, startedAt: real, bounded: bool) returns (result: DeliveryResult)
      requires link.Valid() && startedAt <= link.now && limits.Valid()
      modifies link, link.store, link.store.db
      ensures link.Valid() && old(link.now) <= link.now
      ensures link.confirmed == if result.delivered then old(link.confirmed) + {e.id} else old(link.confirmed)
      ensures bounded && old(link.now) - startedAt <= limits.maxDrainSeconds ==>
                link.now - startedAt <= limits.maxDrainSeconds + SHORTEST_TIMEOUT
      ensures OnlyArrivals(old(link.store.actions), link.store.actions, {e})
      // in time, the result is what the replies make of it
      ensures Contracts.Valid(e) && old(link.now) - startedAt < limits.maxDrainSeconds ==>
                Heard(result, old(link.fates), link.fates, link.now - old(link.now))
      // and it is not given up on early
      ensures Contracts.Valid(e) && old(link.now) - startedAt < limits.maxDrainSeconds
              && result.reason in {Some(TemporaryNetworkFailure), Some(TemporaryHttpFailure)} ==>
                || result.attempts == 3 || link.now - old(link.now) >= 5.0
                || (bounded && link.now - startedAt >= limits.maxDrainSeconds)
    {
      var remaining := limits.maxDrainSeconds - (link.now - startedAt);
      if bounded && remaining <= 0.0 {
        return DeliveryResult(false, 0, Some(TemporaryNetworkFailure), None);
      }
      result := DeliverEvent(link, e, if bounded then remaining else MAX_DELIVERY_SECONDS);
    }

    // A call of the deliver callback, which may also raise, or never come back.
    method CallBack(link: Link, e: Event, startedAt: real, fate: CallFate, bounded: bool)
      returns (answer: Option<DeliveryResult>)
      requires link.Valid() && startedAt <= link.now < startedAt + limits.maxDrainSeconds && limits.Valid()
               && Contracts.Valid(e)
      modifies link, link.store, link.store.db
      ensures link.Valid() && old(link.now) <= link.now && old(link.confirmed) <= link.confirmed
      ensures answer.Some? <==> fate == Returns
      ensures answer.Some? && answer.value.delivered ==> e.id in link.confirmed
      ensures answer.Some? ==> Heard(answer.value, old(link.fates), link.fates, link.now - old(link.now))
      ensures bounded ==> link.now - startedAt <= limits.maxDrainSeconds + SHORTEST_TIMEOUT
      ensures OnlyArrivals(old(link.store.actions), link.store.actions, {e})
    {
      if fate == Raises {
        return None;
      }
      var result := Deliver(link, e, startedAt, bounded);
      answer := if fate == Returns then Some(result) else None;
    }

    // What becomes of the file of an event whose delivery has answered.
    method Settle(x: Envelope, answer: DeliveryResult, late: bool, sight: Sight) returns (verdict: Verdict)
      requires Valid() && IsFileOf(disk.pending, x) && (answer.delivered ==> x.event in acknowledged)
      modifies `removed, disk
      ensures Valid()
      ensures disk.pending == old(disk.pending) || disk.pending == old(disk.pending) - {x.event.id}
      ensures disk.deadLetter == old(disk.deadLetter)
              || (!answer.delivered && x.event.id !in old(disk.deadLetter)
                  && SafeDeliveryReason(answer.reason) in {RejectedHttpResponse, TransportFailure, DeliveryFailed}
                  && disk.deadLetter
                     == old(disk.deadLetter)[x.event.id := DeadLetter(x, SafeDeliveryReason(answer.reason))])
      ensures removed == old(removed) || removed == old(removed) + {x.event}
      ensures Settled(verdict, x, disk.pending, disk.deadLetter, removed, old(disk.FilesVanish()))
      ensures verdict == WasGone || disk.FilesVanish() ==> old(disk.FilesVanish())
      ensures Suits(verdict, answer, late, old(disk.faults) == [], x.event.id in old(disk.deadLetter))
      ensures old(disk.faults) == [] ==> disk.faults == [] && verdict != Uncaught && verdict != ProcessStopped
    {
      if late {
        return WasRetained;
      }
      if answer.delivered {
        var outcome := disk.UnlinkPending(x.event.id);
        if x.event.id !in disk.pending {
          removed := removed + {x.event};
        }
        match outcome {
          case Done => return WasDelivered;
          case FileMissing => return WasGone;
          case Failed => return WasRetained;
          case Stopped => return ProcessStopped;
        }
      }
      var reason := SafeDeliveryReason(answer.reason);
      if Retryable(reason) {
        return WasRetained;
      }
      verdict := MoveToDeadLetter(x, reason, sight);
    }

    ghost function Standing(link: Link): State
      reads this, disk, link, link.store
    {
      State(link.now, disk.pending, disk.deadLetter, removed, offered, acknowledged, link.confirmed, link.fates,
            link.store.actions, disk.FilesVanish(), disk.faults == [])
    }

    // Delivers one event and settles its file.
    method DrainOne(link: Link, x: Envelope, startedAt: real, sight: Sight, fate: CallFate, bounded: bool)
      returns (verdict: Verdict, ghost call: Call)
      requires Valid() && link.Valid() && IsFileOf(disk.pending, x)
      requires startedAt <= link.now < startedAt + limits.maxDrainSeconds
      modifies `acknowledged, `removed, `offered, disk, link, link.store, link.store.db
      ensures Valid() && link.Valid() && CallDoes(x, call, startedAt, limits.maxDrainSeconds)
      ensures call.fate == fate && call.verdict == verdict
      ensures call.before == old(Standing(link)) && call.after == Standing(link)
      ensures bounded ==> link.now - startedAt <= limits.maxDrainSeconds + SHORTEST_TIMEOUT
    {
      ghost var before := Standing(link);
      var answer := Offer(link, x, startedAt, fate, bounded);
      ghost var answered := Standing(link);
      if answer == None {
        verdict := if fate == Raises then WasRetained else ProcessStopped;
      } else {
        verdict := Settle(x, answer.value, link.now - startedAt >= limits.maxDrainSeconds, sight);
      }
      call := Call(fate, answer, verdict, before, Standing(link));
      CallSettles(x, call, answered, startedAt, limits.maxDrainSeconds);
    }

    // Offers one event to the monitor, and remembers what came of it.
    method Offer(link: Link, x: Envelope, startedAt: real, fate: CallFate, bounded: bool)
      returns (answer: Option<DeliveryResult>)
      requires Valid() && link.Valid() && IsFileOf(disk.pending, x)
      requires startedAt <= link.now < startedAt + limits.maxDrainSeconds
      modifies `acknowledged, `offered, link, link.store, link.store.db
      ensures Valid() && link.Valid()
      ensures Answered(x.event, fate, answer, old(Standing(link)), Standing(link))
      ensures bounded ==> link.now - startedAt <= limits.maxDrainSeconds + SHORTEST_TIMEOUT
    {
      offered := offered + [x.event];
      answer := CallBack(link, x.event, startedAt, fate, bounded);
      if answer.Some? && answer.value.delivered {
        acknowledged := acknowledged + {x.event};
      }
    }

    // What holds while a drain makes its calls.
    ghost predicate Draining(
      link: Link, listed: seq<Envelope>, made: seq<Call>, fates: map<string, CallFate>, bounded: bool, start: State)
      reads this, disk, link, link.store, link.store.db
    {
      && Valid() && link.Valid()
      && Trace(listed, made, fates, start, limits.maxDrainSeconds, Standing(link))
      && start.now <= link.now && (bounded ==> link.now - start.now <= limits.maxDrainSeconds + SHORTEST_TIMEOUT)
    }

    method DrainNext(
      link: Link, listed: seq<Envelope>, ghost made: seq<Call>, x: Envelope, startedAt: real, sight: Sight,
      fates: map<string, CallFate>, bounded: bool, ghost start: State)
      returns (verdict: Verdict, ghost call: Call)
      requires Draining(link, listed, made, fates, bounded, start) && startedAt == start.now
      requires |made| < |listed| && x == listed[|made|] && NoRepeats(listed) && StillListed(listed, 0, start.pending)
      requires link.now - startedAt < limits.maxDrainSeconds
      modifies `acknowledged, `removed, `offered, disk, link, link.store, link.store.db
      ensures Draining(link, listed, made + [call], fates, bounded, start) && call.verdict == verdict
    {
      ghost var now := Standing(link);
      NextOnFile(listed, made, fates, start, limits.maxDrainSeconds, now);
      verdict, call := DrainOne(link, x, startedAt, sight, FateOf(fates, x.event.id), bounded);
      TraceOneMore(listed, made, call, fates, start, limits.maxDrainSeconds, now);
    }

    // Goes through the listed envelopes within the count and time budget.
    method DrainListed(
      link: Link, listed: seq<Envelope>, startedAt: real, sight: Sight, fates: map<string, CallFate>, bounded: bool,
      ghost start: State)
      returns (delivered: nat, retained: nat, deadLettered: nat, ending: Ending, ghost made: seq<Call>)
      requires Draining(link, listed, [], fates, bounded, start) && startedAt == start.now
      requires NoRepeats(listed) && StillListed(listed, 0, start.pending)
      modifies `acknowledged, `removed, `offered, disk, link, link.store, link.store.db
      ensures Draining(link, listed, made, fates, bounded, start) && |made| <= limits.maxDrainEvents
      ensures Ends(ending, delivered, retained - (|listed| - |made|), deadLettered, made)
      ensures ending == Completed ==> Exhausted(|made|, |listed|, link.now - startedAt)
    {
      delivered, retained, deadLettered, ending, made := 0, 0, 0, Completed, [];
      var index := 0;
      while index < |listed| && ending == Completed
        invariant 0 <= index <= |listed| && |made| == index <= limits.maxDrainEvents
        invariant Draining(link, listed, made, fates, bounded, start)
        invariant Ends(ending, delivered, retained, deadLettered, made)
      {
        if index >= limits.maxDrainEvents || link.now - startedAt >= limits.maxDrainSeconds {
          retained := retained + |listed| - index;
          return;
        }
        var verdict;
        ghost var call;
        verdict, call := DrainNext(link, listed, made, listed[index], startedAt, sight, fates, bounded, start);
        EndsOneMore(delivered, retained, deadLettered, made, call);
        made, index := made + [call], index + 1;
        match verdict {
          case WasDelivered => delivered := delivered + 1;
          case WasGone =>
          case WasRetained => retained := retained + 1;
          case WasDeadLettered => deadLettered := deadLettered + 1;
          case Uncaught => ending := Aborted;
          case ProcessStopped => ending := Interrupted;
        }
      }
      retained := retained + |listed| - index;
    }

    // A drain stops calling only at the end of its list or of its budget.
    predicate Exhausted(calls: nat, listed: nat, elapsed: real) {
      calls == listed || calls == limits.maxDrainEvents || elapsed >= limits.maxDrainSeconds
    }

    // Lists what is to be delivered.
    method BeginDrain(link: Link, sight: Sight)
      returns (listed: seq<Envelope>, corrupt: nat, halted: bool, ghost start: State)
      requires Valid() && link.Valid()
      modifies disk`pending, disk`faults
      ensures Valid() && link.Valid() && start == Standing(link)
      ensures Begun(sight, old(Standing(link)), start, listed)
      ensures !halted ==>
                && Names(listed) == Deliverable(old(disk.pending), disk.deadLetter, sight)
                && corrupt == |Corrupt(old(disk.pending), disk.deadLetter, sight)|
      ensures old(disk.faults) == [] ==> !halted
    {
      ghost var considered;
      listed, corrupt, halted, considered := PendingEvents(sight);
      start := Standing(link);
    }

    // The calls of a drain, all under the lock.
    method DrainLocked(link: Link, sight: Sight, fates: map<string, CallFate>, bounded: bool)
      returns (delivered: nat, retained: nat, deadLettered: nat, corrupt: nat, ending: Ending, ghost run: Run)
      requires Valid() && link.Valid()
      modifies `acknowledged, `removed, `offered, disk, link, link.store, link.store.db
      ensures Valid() && link.Valid() && old(link.now) <= link.now
      ensures bounded ==> link.now - old(link.now) <= limits.maxDrainSeconds + SHORTEST_TIMEOUT
      ensures run.before == old(Standing(link)) && run.after == Standing(link)
      ensures Ran(sight, fates, limits, run)
      ensures run.ending == ending && run.result == DrainResult(delivered, retained, deadLettered, corrupt)
      ensures ending != Interrupted ==> corrupt == |Corrupt(old(disk.pending), old(disk.deadLetter), sight)|
    {
      var startedAt := link.now;
      ghost var before := Standing(link);
      var listed, halted;
      ghost var start, made;
      listed, corrupt, halted, start := BeginDrain(link, sight);
      delivered, retained, deadLettered, ending, made := 0, 0, 0, Interrupted, [];
      if !halted {
        delivered, retained, deadLettered, ending, made :=
          DrainListed(link, listed, startedAt, sight, fates, bounded, start);
      }
      run := Run(before, start, Standing(link), listed, made, ending,
                 DrainResult(delivered, retained, deadLettered, corrupt));
    }

    // Delivers pending events within the count and time budget, in order, each at most once; an
    // error that escapes from the calls is reported as a drain of nothing.
    method Drain(link: Link, sight: Sight, fates: map<string, CallFate>, bounded: bool)
      returns (result: DrainResult, stopped: bool, ghost run: Run)
      requires Valid() && link.Valid()
      modifies `acknowledged, `removed, `offered, disk, link, link.store, link.store.db
      ensures Valid() && link.Valid() && old(link.now) <= link.now
      ensures bounded ==> link.now - old(link.now) <= limits.maxDrainSeconds + SHORTEST_TIMEOUT
      ensures run.before == old(Standing(link)) && run.after == Standing(link)
      ensures Ran(sight, fates, limits, run) && result == run.Reported() && stopped == run.Stopped()
      ensures run.ending == Completed ==> result.corrupt == |Corrupt(old(disk.pending), old(disk.deadLetter), sight)|
    {
      var delivered, retained, deadLettered, corrupt, ending;
      delivered, retained, deadLettered, corrupt, ending, run := DrainLocked(link, sight, fates, bounded);
      result := if ending == Completed then DrainResult(delivered, retained, deadLettered, corrupt) else NOTHING;
      stopped := ending == Interrupted;
    }
  }

  datatype Decision = Write(envelope: Envelope) | Refuse(result: EnqueueResult)

  // It is a duplicate exactly if this very event is stored legibly under its id, a conflict
  // exactly if something else is, and it is to be written exactly if it may go ahead.
  ghost predicate Decided(
    decision: Decision, e: Event, stamp: Option<string>, look: Lookup, statFails: bool, limits: Limits, sight: Sight,
    pending: Directory, dead: Directory) {
    && (decision.Write? <==> Writable(e, stamp, look, statFails, limits, sight, pending, dead))
    && (decision.Write? ==> decision.envelope == Envelope(stamp.value, e))
    && (decision == Refuse(Duplicate) <==> Contracts.Valid(e) && look == Clear && Stores(pending, dead, e))
    && (decision == Refuse(Conflict) <==>
        && Contracts.Valid(e) && look != Raising && !Unknown(pending, dead, e.id)
        && !(look == Clear && Stores(pending, dead, e)))
    && decision != Refuse(EventQueued)
    // and otherwise it says what keeps it out, the first of these
    && (!Contracts.Valid(e) <==> decision == Refuse(Rejected("invalid_event")))
    && (Contracts.Valid(e) && look != Raising && Unknown(pending, dead, e.id) && stamp == None
        <==> decision == Refuse(Rejected("outbox_invalid_timestamp")))
    && (Contracts.Valid(e) && (look == Raising || (Unknown(pending, dead, e.id) && stamp.Some? && statFails))
        <==> decision == Refuse(Rejected("outbox_storage_unavailable")))
    && (|| decision.Write? || decision == Refuse(Duplicate) || decision == Refuse(Conflict)
        || !Contracts.Valid(e) || look == Raising || stamp == None || statFails
        || decision == Refuse(Rejected("outbox_capacity_exceeded")))
  }

  // Right after an enqueue that wrote, with both listings in order, the limits hold; and the
  // capacity of whole runs is kept.
  lemma EnqueueKeepsCapacity(
    decision: Decision, e: Event, stamp: Option<string>, look: Lookup, statFails: bool, limits: Limits, sight: Sight,
    pending: Directory,
    dead: Directory, pending': Directory)
    requires Decided(decision, e, stamp, look, statFails, limits, sight, pending, dead)
    requires pending' == pending || (decision.Write? && pending' == pending[e.id := Queued(decision.envelope)])
    requires sight.pendingListed && sight.deadListed
    ensures pending' != pending ==>
              |pending'| + |dead| <= limits.maxEvents
              && Bytes(pending', LENGTH) + Bytes(dead, LENGTH) <= limits.maxBytes
    ensures WithinCapacity(pending, dead, limits, LENGTH) ==> WithinCapacity(pending', dead, limits, LENGTH)
  {
    if pending' != pending {
      QueuedKeepsCapacity(pending, dead, limits, sight, e.id, Envelope(stamp.value, e));
    }
  }

  lemma QueuedKeepsCapacity(
    pending: Directory, dead: Directory, limits: Limits, sight: Sight, id: string, envelope: Envelope)
    requires Room(pending, dead, limits, sight, LENGTH(Queued(envelope)), LENGTH) && id !in pending && id !in dead
    requires sight.pendingListed && sight.deadListed
    ensures var pending' := pending[id := Queued(envelope)];
            && |pending'| + |dead| <= limits.maxEvents
            && Bytes(pending', LENGTH) + Bytes(dead, LENGTH) <= limits.maxBytes
            && (WithinCapacity(pending, dead, limits, LENGTH) ==> WithinCapacity(pending', dead, limits, LENGTH))
  {
    BytesWith(pending, id, Queued(envelope), LENGTH);
    if WithinCapacity(pending, dead, limits, LENGTH) {
      LengthMeasures();
      EnqueueStaysWithin(pending, dead, limits, sight, id, envelope, LENGTH, LONGEST_REASON_FIELD);
    }
  }

  datatype Existing = Absent | Illegible | Stored(event: Event)
}
