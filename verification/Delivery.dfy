// Sending one event over an unreliable link, with bounded retries and a bounded duration.
module Delivery {
  import opened Contracts
  import opened Invariants
  import opened Monitor
  import opened MonitorStore
  import opened Options
  import opened Tables

  const MAX_RETRIES := 2
  const MAX_DELIVERY_SECONDS := 5.0
  const SHORTEST_TIMEOUT := 0.001

  datatype Reason =
    | TemporaryNetworkFailure
    | TemporaryHttpFailure
    | RejectedHttpResponse
    | TransportFailure
    | DeliveryFailed
    | InvalidEventReason

  datatype DeliveryResult = DeliveryResult(delivered: bool, attempts: nat, reason: Option<Reason>,
                                           httpStatus: Option<int>)

  // What one transport call meets with: how long it takes, whether the request gets through
  // to the store, and what comes back.
  datatype Reply = Status(code: int) | NetworkError | OtherError
  datatype Request = RequestLost | RequestArrives(receivedAt: int, databaseFails: bool)
  datatype Fate = Fate(duration: real, request: Request, reply: Reply)

  predicate Success(reply: Reply) {
    reply.Status? && 200 <= reply.code < 300
  }

  function Least(x: real, y: real): real {
    if x <= y then x else y
  }

  function Greatest(x: real, y: real): real {
    if x >= y then x else y
  }

  // A success is only answered when the store has committed; otherwise the caller gets the
  // reply the network made of it.
  function ReplyTo(fate: Fate): Reply {
    if Success(fate.reply)
       && !(fate.request.RequestArrives? && !fate.request.databaseFails) then NetworkError else fate.reply
  }

  // The fates are met one call at a time; a call past the end of them times out.
  function ReplyAt(fates: seq<Fate>, i: nat): Reply {
    if i < |fates| then ReplyTo(fates[i]) else NetworkError
  }

  // A call lasts as long as its fate says, within its timeout.
  function SpentAt(fates: seq<Fate>, i: nat, timeout: real): real {
    if i < |fates| then Greatest(0.0, Least(fates[i].duration, timeout)) else timeout
  }

  // The longest it can last whatever its timeout.
  function PatienceAt(fates: seq<Fate>, i: nat): real {
    if i < |fates| then Greatest(0.0, fates[i].duration) else 0.0
  }

  function FatesFrom(fates: seq<Fate>, n: nat): seq<Fate> {
    if n <= |fates| then fates[n..] else []
  }

  lemma FatesStep(fates: seq<Fate>, n: nat)
    ensures ReplyAt(FatesFrom(fates, n), 0) == ReplyAt(fates, n)
    ensures PatienceAt(FatesFrom(fates, n), 0) == PatienceAt(fates, n)
    ensures forall timeout :: SpentAt(FatesFrom(fates, n), 0, timeout) == SpentAt(fates, n, timeout)
    ensures FatesFrom(FatesFrom(fates, n), 1) == FatesFrom(fates, n + 1)
  {
  }

  // All that has happened to the store is the arrival of these events.
  ghost predicate OnlyArrivals(before: seq<Action>, now: seq<Action>, events: set<Event>) {
    && |before| <= |now| && now[..|before|] == before
    && forall i :: |before| <= i < |now| ==> now[i].DoIngest? && now[i].e in events
  }

  lemma ArrivalsAddUp(before: seq<Action>, middle: seq<Action>, now: seq<Action>, events: set<Event>, more: set<Event>)
    requires OnlyArrivals(before, middle, events) && OnlyArrivals(middle, now, more)
    ensures OnlyArrivals(before, now, events + more)
  {
    assert now[..|before|] == now[..|middle|][..|before|];
    forall i | |before| <= i < |now| ensures now[i].DoIngest? && now[i].e in events + more {
      assert i < |middle| ==> now[i] == now[..|middle|][i];
    }
  }

  // Whatever the store has logged stays logged.
  lemma NextKeepsLog(w: World, a: Action)
    ensures |w.log| <= |Next(w, a).log| && Next(w, a).log[..|w.log|] == w.log
  {
  }

  lemma RecordedPrefix(log: seq<EventRow>, longer: seq<EventRow>, id: string)
    requires |log| <= |longer| && longer[..|log|] == log && Recorded(log, id)
    ensures Recorded(longer, id)
  {
    var i :| 0 <= i < |log| && log[i].event.id == id;
    assert longer[..|log|][i].event.id == id;
  }

  // After a successful ingest the id is logged: the log has just grown by it, or the table
  // already holds it.
  lemma IngestedIsLogged(w: World, e: Event, receivedAt: int)
    requires FollowsLog(w)
    ensures Recorded(Next(w, DoIngest(e, receivedAt)).log, e.id)
  {
    if Recorded(w.db.events, e.id) {
      var i :| 0 <= i < |w.db.events| && w.db.events[i].event.id == e.id;
      KeptRowIsLogged(w.log, w.kept, w.db.events[i]);
    } else {
      assert Next(w, DoIngest(e, receivedAt)).log[|w.log|].event.id == e.id;
    }
  }

  // The link to the monitor, its clock, and the fates awaiting the calls made on it.
  class Link {
    const store: Store
    var now: real
    var fates: seq<Fate>
    ghost var calls: nat
    ghost var slept: real
    ghost var confirmed: set<string>  // ids of the events that were answered with success

    // Whatever was confirmed is in the log of the store.
    ghost predicate Valid()
      reads this, store, store.db
    {
      && store.Valid()
      && forall id :: id in confirmed ==> Recorded(store.Current().log, id)
    }

    constructor (store: Store, now: real, fates: seq<Fate>)
      requires store.Valid()
      ensures Valid() && this.store == store && this.now == now && this.fates == fates
      ensures calls == 0 && slept == 0.0 && confirmed == {}
    {
      this.store, this.now, this.fates, calls, slept, confirmed := store, now, fates, 0, 0.0, {};
    }

    method Sleep(seconds: real)
      requires Valid() && seconds >= 0.0
      modifies `now, `slept
      ensures Valid() && now == old(now) + seconds && slept == old(slept) + seconds
    {
      now, slept := now + seconds, slept + seconds;
    }

    // The request reaches the store, which commits it unless its database fails.
    method Arrive(e: Event, request: Request) returns (committed: bool)
      requires Valid() && Contracts.Valid(e) && request.RequestArrives?
      modifies store, store.db
      ensures Valid()
      ensures committed <==> !request.databaseFails
      ensures committed ==> Recorded(store.Current().log, e.id)
      ensures OnlyArrivals(old(store.actions), store.actions, {e})
    {
      ghost var worlds, actions := store.worlds, store.actions;
      var result := store.Ingest(e, request.receivedAt, request.databaseFails);
      committed := result.Ingested?;
      if committed {
        CommittedIsLogged(worlds, actions, e, request.receivedAt, confirmed);
      }
    }

    // One call lasts at most its timeout; a 2xx reply comes only after the store committed.
    method Transport(e: Event, timeout: real) returns (reply: Reply)
      requires Valid() && timeout >= 0.0 && Contracts.Valid(e)
      modifies this, store, store.db
      ensures Valid() && slept == old(slept)
      ensures now == old(now) + SpentAt(old(fates), 0, timeout)
      ensures calls == old(calls) + 1
      ensures reply == ReplyAt(old(fates), 0) && fates == FatesFrom(old(fates), 1)
      ensures OnlyArrivals(old(store.actions), store.actions, {e})
      ensures confirmed == if Success(reply) then old(confirmed) + {e.id} else old(confirmed)
    {
      calls := calls + 1;
      var fate := if fates == [] then Fate(timeout, RequestLost, NetworkError) else fates[0];
      fates := if fates == [] then [] else fates[1..];
      now := now + Greatest(0.0, Least(fate.duration, timeout));
      var committed := false;
      if fate.request.RequestArrives? {
        committed := Arrive(e, fate.request);
      }
      reply := if Success(fate.reply) && !committed then NetworkError else fate.reply;
      if Success(reply) {
        confirmed := confirmed + {e.id};
      }
    }
  }

  lemma CommittedIsLogged(worlds: seq<World>, actions: seq<Action>, e: Event, receivedAt: int, confirmed: set<string>)
    requires IsRun(worlds, actions)
    requires forall id :: id in confirmed ==> Recorded(worlds[|actions|].log, id)
    ensures var w' := Next(worlds[|actions|], DoIngest(e, receivedAt));
            Recorded(w'.log, e.id) && forall id :: id in confirmed ==> Recorded(w'.log, id)
  {
    Replay.RunKeepsInv(worlds, actions, |actions|);
    IngestedIsLogged(worlds[|actions|], e, receivedAt);
    NextKeepsRecorded(worlds[|actions|], DoIngest(e, receivedAt), confirmed);
  }

  lemma NextKeepsRecorded(w: World, a: Action, ids: set<string>)
    requires forall id :: id in ids ==> Recorded(w.log, id)
    ensures forall id :: id in ids ==> Recorded(Next(w, a).log, id)
  {
    NextKeepsLog(w, a);
    forall id | id in ids ensures Recorded(Next(w, a).log, id) {
      RecordedPrefix(w.log, Next(w, a).log, id);
    }
  }

  // A refusal that a later attempt may not meet.
  predicate Temporary(code: int) {
    code == 429 || 500 <= code < 600
  }

  predicate Retryable(reason: Reason) {
    reason == TemporaryNetworkFailure || reason == TemporaryHttpFailure
  }

  predicate Transient(reply: Reply) {
    reply == NetworkError || (reply.Status? && Temporary(reply.code))
  }

  // The result names the last answer: a refusal is temporary when its status is 429 or 5xx.
  predicate Answers(result: DeliveryResult, reply: Reply) {
    match reply
    case NetworkError => result.reason == Some(TemporaryNetworkFailure)
    case OtherError => result.reason == Some(TransportFailure)
    case Status(code) =>
      && result.httpStatus == Some(code)
      && result.reason == if Success(reply) then None
                          else if code == 429 || 500 <= code < 600 then Some(TemporaryHttpFailure)
                          else Some(RejectedHttpResponse)
  }

  // What a delivery starts from.
  datatype Departure = Departure(
    at: real, budget: real, calls: nat, slept: real, confirmed: set<string>, fates: seq<Fate>, actions: seq<Action>)

  // What holds after a number of attempts that all met a transient reply.
  ghost predicate Retrying(link: Link, e: Event, from: Departure, attempts: nat)
    reads link, link.store, link.store.db
  {
    && link.Valid() && link.confirmed == from.confirmed
    && link.calls == from.calls + attempts && link.fates == FatesFrom(from.fates, attempts)
    && (forall i: nat :: i < attempts ==> Transient(ReplyAt(from.fates, i)))
    && from.at <= link.now <= from.at + from.budget && (attempts == 0 ==> link.now == from.at)
    && Rested(link.slept - from.slept, attempts, link.now < from.at + from.budget)
    && OnlyArrivals(from.actions, link.store.actions, {e})
  }

  // The sleeps after so many calls, the last of them cut short when it uses up the time.
  predicate Rested(slept: real, calls: nat, timeLeft: bool) {
    && SleepLimit(calls - if calls > 0 then 1 else 0) <= slept <= SleepLimit(calls)
    && (timeLeft ==> slept == SleepLimit(calls))
  }

  function SleepLimit(attempts: nat): real {
    if attempts == 0 then 0.0 else if attempts == 1 then 1.0 else 3.0
  }

  // At most three transport calls and three seconds of sleep, all within the delivery
  // budget but for one shortest timeout; the result is that of the last reply, earlier ones
  // having been transient, and nothing transient is given up on before calls or time run out.
  method DeliverEvent(link: Link, e: Event, maxDurationSeconds: real) returns (result: DeliveryResult)
    requires link.Valid()
    modifies link, link.store, link.store.db
    ensures link.Valid()
    ensures result.attempts <= MAX_RETRIES + 1 && link.calls == old(link.calls) + result.attempts
    // a second of sleep before the second call, and two before the third
    ensures 0.0 <= link.slept - old(link.slept) <= 3.0
    ensures result.attempts <= 1 ==> link.slept - old(link.slept) <= 1.0
    ensures result.attempts == 2 ==> link.slept - old(link.slept) >= 1.0
    ensures result.attempts == 3 ==> link.slept - old(link.slept) == 3.0
    ensures 0.0 <= link.now - old(link.now)
    ensures link.now - old(link.now) <= Greatest(0.0, Least(MAX_DELIVERY_SECONDS, maxDurationSeconds))
                                        + SHORTEST_TIMEOUT
    ensures link.now - old(link.now) <= 5.001
    ensures maxDurationSeconds > 0.0 ==> link.now - old(link.now) <= maxDurationSeconds + 0.001
    ensures maxDurationSeconds <= 0.0 ==> link.now == old(link.now)
    ensures link.confirmed == if result.delivered then old(link.confirmed) + {e.id} else old(link.confirmed)
    ensures result.delivered <==> result.reason == None
    ensures result.delivered <==> result.httpStatus.Some? && 200 <= result.httpStatus.value < 300
    ensures result.reason == Some(InvalidEventReason) <==> !Contracts.Valid(e)
    ensures result.attempts == 0 <==> !Contracts.Valid(e) || maxDurationSeconds <= 0.0
    ensures result.attempts == 0 ==> result.reason in {Some(InvalidEventReason), Some(TemporaryNetworkFailure)}
    ensures result.attempts == 0 ==> link.fates == old(link.fates)
    ensures result.attempts > 0 ==> Heard(result, old(link.fates), link.fates, link.now - old(link.now))
    ensures result.attempts > 0 ==> ReadsLastReply(result, ReplyAt(old(link.fates), result.attempts - 1))
    ensures result.attempts > 0 ==> StopsAtFinalReply(result, old(link.fates))
    ensures result.reason in {Some(TemporaryNetworkFailure), Some(TemporaryHttpFailure)} ==>
              result.attempts == 3 || link.now - old(link.now) >= 5.0 || link.now - old(link.now) >= maxDurationSeconds
    ensures OnlyArrivals(old(link.store.actions), link.store.actions, {e})
  {
    if !Contracts.Valid(e) {
      return DeliveryResult(false, 0, Some(InvalidEventReason), None);
    }
    var startedAt := link.now;
    var budget := Least(MAX_DELIVERY_SECONDS, maxDurationSeconds);
    if budget <= 0.0 {
      return DeliveryResult(false, 0, Some(TemporaryNetworkFailure), None);
    }
    ghost var from :=
      Departure(link.now, budget, link.calls, link.slept, link.confirmed, link.fates, link.store.actions);
    var attempts, again := 0, true;
    result := DeliveryResult(false, 0, Some(TemporaryNetworkFailure), None);
    while again
      invariant if again then attempts <= MAX_RETRIES && Retrying(link, e, from, attempts)
                              && Pending(result, attempts, from)
                else Finished(link, e, from, result)
      decreases again, MAX_RETRIES - attempts
    {
      result, again := TryOnce(link, e, startedAt, budget, attempts, result, from);
      attempts := if again then attempts + 1 else attempts;
    }
    HeardInNumbers(result, from.fates, link.fates, link.now - from.at);
  }

  // What the result says of the last status met.
  predicate ReadsLastReply(result: DeliveryResult, reply: Reply) {
    && (reply == NetworkError ==> result.reason == Some(TemporaryNetworkFailure))
    && (reply == OtherError ==> result.reason == Some(TransportFailure))
    && (reply.Status? ==>
          && result.httpStatus == Some(reply.code)
          && (result.delivered <==> 200 <= reply.code < 300)
          && (result.reason == Some(TemporaryHttpFailure) <==> reply.code == 429 || 500 <= reply.code < 600)
          && (result.reason == Some(RejectedHttpResponse) <==>
              !(200 <= reply.code < 300) && reply.code != 429 && !(500 <= reply.code < 600)))
  }

  // Only a lost connection, a 429 or a 5xx is followed by another call.
  ghost predicate StopsAtFinalReply(result: DeliveryResult, fates: seq<Fate>) {
    forall i: nat :: i + 1 < result.attempts ==>
                       ReplyAt(fates, i) == NetworkError
                       || (ReplyAt(fates, i).Status?
                           && (ReplyAt(fates, i).code == 429 || 500 <= ReplyAt(fates, i).code < 600))
  }

  // So a first reply that refuses for good, such as a 400 or a 401, is the only one, and its refusal
  // is the result.
  lemma RefusedAtOnce(result: DeliveryResult, fates: seq<Fate>, fates': seq<Fate>, elapsed: real)
    requires Heard(result, fates, fates', elapsed) && ReplyAt(fates, 0).Status?
    requires var code := ReplyAt(fates, 0).code; !(200 <= code < 300) && code != 429 && !(500 <= code < 600)
    ensures result == DeliveryResult(false, 1, Some(RejectedHttpResponse), Some(ReplyAt(fates, 0).code))
  {
    HeardInNumbers(result, fates, fates', elapsed);
  }

  lemma HeardInNumbers(result: DeliveryResult, fates: seq<Fate>, fates': seq<Fate>, elapsed: real)
    requires Heard(result, fates, fates', elapsed)
    ensures ReadsLastReply(result, ReplyAt(fates, result.attempts - 1)) && StopsAtFinalReply(result, fates)
  {
  }

  // One round of the loop: a call, unless the time has run out, and a sleep before the next.
  method TryOnce(
    link: Link, e: Event, startedAt: real, budget: real, attempts: nat, sofar: DeliveryResult, ghost from: Departure)
    returns (result: DeliveryResult, again: bool)
    requires Contracts.Valid(e) && Retrying(link, e, from, attempts) && Pending(sofar, attempts, from)
    requires attempts <= MAX_RETRIES && startedAt == from.at && budget == from.budget > 0.0
    modifies link, link.store, link.store.db
    ensures again ==>
              attempts < MAX_RETRIES && Retrying(link, e, from, attempts + 1) && Pending(result, attempts + 1, from)
    ensures !again ==> Finished(link, e, from, result)
  {
    var remaining := budget - (link.now - startedAt);
    if attempts > 0 && remaining <= 0.0 {
      return sofar, false;
    }
    var reply := AttemptOnce(link, e, Greatest(SHORTEST_TIMEOUT, remaining), from, attempts);
    result := ResultOf(reply, attempts + 1, sofar.httpStatus);
    if !Transient(reply) || attempts + 1 > MAX_RETRIES {
      return result, false;
    }
    remaining := budget - (link.now - startedAt);
    if remaining <= 0.0 {
      return result, false;
    }
    link.Sleep(Least(if attempts == 0 then 1.0 else 2.0, remaining));
    again := true;
  }

  // What a delivery that made at least one call has heard: its result is that of the last reply,
  // earlier ones were transient, and an immediate success takes no longer than its call.
  ghost predicate Heard(result: DeliveryResult, fates: seq<Fate>, fates': seq<Fate>, elapsed: real) {
    && 0 < result.attempts <= MAX_RETRIES + 1 && fates' == FatesFrom(fates, result.attempts)
    && Answers(result, ReplyAt(fates, result.attempts - 1)) && Consistent(result)
    && (forall i: nat :: i + 1 < result.attempts ==> Transient(ReplyAt(fates, i)))
    && (Success(ReplyAt(fates, 0)) ==> elapsed <= PatienceAt(fates, 0))
  }

  // A first reply that is final is the only one, and the result is its result.
  lemma FinalReplyIsHeard(result: DeliveryResult, fates: seq<Fate>, fates': seq<Fate>, elapsed: real)
    requires Heard(result, fates, fates', elapsed) && !Transient(ReplyAt(fates, 0))
    ensures result.attempts == 1 && fates' == FatesFrom(fates, 1) && Answers(result, ReplyAt(fates, 0))
    ensures result.delivered <==> Success(ReplyAt(fates, 0))
  {
  }

  // How a delivery that made at least one call ends.
  ghost predicate Finished(link: Link, e: Event, from: Departure, result: DeliveryResult)
    reads link, link.store, link.store.db
  {
    && link.Valid() && 0 < result.attempts <= MAX_RETRIES + 1
    && link.confirmed == (if result.delivered then from.confirmed + {e.id} else from.confirmed)
    && link.calls == from.calls + result.attempts
    && Heard(result, from.fates, link.fates, link.now - from.at)
    && from.at <= link.now <= from.at + from.budget + SHORTEST_TIMEOUT
    && SleepLimit(result.attempts - 1) <= link.slept - from.slept <= SleepLimit(result.attempts)
    && (result.attempts == 3 ==> link.slept - from.slept == 3.0)
    && (result.reason.Some? && Retryable(result.reason.value) ==>
          result.attempts == MAX_RETRIES + 1 || link.now - from.at >= from.budget)
    && OnlyArrivals(from.actions, link.store.actions, {e})
  }

  // Delivered means no reason and a success status.
  predicate Consistent(result: DeliveryResult) {
    && (result.delivered <==> result.reason == None)
    && (result.delivered <==> result.httpStatus.Some? && 200 <= result.httpStatus.value < 300)
    && result.reason != Some(InvalidEventReason)
  }

  // What a reply makes of a delivery; the last status seen is kept.
  function ResultOf(reply: Reply, attempts: nat, status: Option<int>): (result: DeliveryResult)
    ensures result.attempts == attempts && Answers(result, reply)
    ensures result.delivered <==> Success(reply)
    ensures Transient(reply) ==> result.reason.Some? && Retryable(result.reason.value)
    ensures !(status.Some? && 200 <= status.value < 300) ==> Consistent(result)
  {
    match reply
    case NetworkError => DeliveryResult(false, attempts, Some(TemporaryNetworkFailure), status)
    case OtherError => DeliveryResult(false, attempts, Some(TransportFailure), status)
    case Status(code) =>
      if 200 <= code < 300 then DeliveryResult(true, attempts, None, Some(code))
      else DeliveryResult(false, attempts,
                          Some(if Temporary(code) then TemporaryHttpFailure else RejectedHttpResponse), Some(code))
  }

  // What a delivery would give up with.
  ghost predicate Pending(sofar: DeliveryResult, attempts: nat, from: Departure) {
    && sofar.attempts == attempts && sofar.reason.Some? && Retryable(sofar.reason.value) && Consistent(sofar)
    && (attempts > 0 ==> Answers(sofar, ReplyAt(from.fates, attempts - 1)))
  }

  method AttemptOnce(link: Link, e: Event, timeout: real, ghost from: Departure, ghost attempts: nat)
    returns (reply: Reply)
    requires Contracts.Valid(e) && Retrying(link, e, from, attempts)
    requires timeout == Greatest(SHORTEST_TIMEOUT, from.at + from.budget - link.now)
    modifies link, link.store, link.store.db
    ensures link.Valid() && reply == ReplyAt(from.fates, attempts)
    ensures link.confirmed == if Success(reply) then from.confirmed + {e.id} else from.confirmed
    ensures link.calls == from.calls + attempts + 1 && link.fates == FatesFrom(from.fates, attempts + 1)
    ensures link.now == old(link.now) + SpentAt(from.fates, attempts, timeout)
    ensures old(link.now) <= link.now <= from.at + from.budget + SHORTEST_TIMEOUT
    ensures link.slept == old(link.slept)
    ensures OnlyArrivals(from.actions, link.store.actions, {e})
  {
    FatesStep(from.fates, attempts);
    ghost var before := link.store.actions;
    reply := link.Transport(e, timeout);
    ArrivalsAddUp(from.actions, before, link.store.actions, {e}, {e});
  }
}
