// The deliver calls of a drain: what each answered, and what became of its event.
module OutboxCalls {
  import opened Contracts
  import opened Delivery
  import opened Monitor
  import opened Options
  import opened OutboxCapacity
  import opened OutboxFiles
  import opened OutboxPass

  datatype DrainResult = DrainResult(delivered: nat, retained: nat, deadLettered: nat, corrupt: nat)

  const NOTHING := DrainResult(0, 0, 0, 0)

  // How a deliver call ends: normally, by raising, or not at all because the process stops.
  datatype CallFate = Returns | Raises | NeverReturns

  // What becomes of an event; uncaught is an exception that ends the drain.
  datatype Verdict = WasDelivered | WasGone | WasRetained | WasDeadLettered | Uncaught | ProcessStopped

  // The values that a drain changes.
  datatype State = State(
    now: real, pending: Directory, deadLetter: Directory, removed: set<Event>, offered: seq<Event>,
    acknowledged: set<Event>,
    confirmed: set<string>, fates: seq<Fate>, actions: seq<Action>, filesVanish: bool, faultless: bool)

  // One deliver call, with what it found and what it left behind.
  datatype Call = Call(fate: CallFate, result: Option<DeliveryResult>, verdict: Verdict, before: State, after: State)

  // Reasons outside the known vocabulary are filed as a failed delivery.
  function SafeDeliveryReason(reason: Option<Reason>): (r: Reason)
    ensures r != InvalidEventReason
  {
    if reason == None || reason.value == InvalidEventReason then DeliveryFailed else reason.value
  }

  // How a dead-letter move ends in each of its file steps.
  function VerdictOf(outcome: Outcome): Verdict {
    match outcome
    case Done | FileMissing => WasDeadLettered
    case Failed => WasRetained
    case Escaped => Uncaught
    case Stopped => ProcessStopped
  }

  function FateOf(fates: map<string, CallFate>, id: string): CallFate {
    if id in fates then fates[id] else Returns
  }

  ghost predicate AllReturn(fates: map<string, CallFate>) {
    forall id :: id in fates ==> fates[id] == Returns
  }

  // The deliver callback answers each time, and the first n calls over the link succeed.
  ghost predicate Answering(replies: seq<Fate>, fates: map<string, CallFate>, n: nat) {
    AllReturn(fates) && forall k: nat :: k < n ==> Success(ReplyAt(replies, k))
  }

  // Late answers and temporary failures keep an event, other failures dead-letter it, and only
  // a delivery removes it for good; without file faults nothing gets in the way of that.
  predicate Suits(verdict: Verdict, result: DeliveryResult, late: bool, faultless: bool, buried: bool) {
    if late then verdict == WasRetained
    else if result.delivered then
      verdict != WasDeadLettered && verdict != Uncaught && (faultless ==> verdict == WasDelivered)
    else if Retryable(SafeDeliveryReason(result.reason)) then verdict == WasRetained
    else verdict != WasDelivered && verdict != WasGone && (faultless && !buried ==> verdict == WasDeadLettered)
  }

  // What a verdict says of an envelope, unless files vanish: delivered ones are off the pending
  // directory, dead-lettered ones are there with their content, retained ones still pending.
  ghost predicate Settled(
    verdict: Verdict, x: Envelope, pending: Directory, dead: Directory, removed: set<Event>, filesVanish: bool) {
    match verdict
    case WasDelivered | WasGone => x.event.id !in pending && x.event in removed
    case WasDeadLettered => filesVanish || (x.event.id !in pending && InDeadLetter(dead, x.event))
    case WasRetained | Uncaught => x.event.id in pending
    case ProcessStopped => true
  }

  ghost predicate AllSettled(
    listed: seq<Envelope>, made: seq<Call>, pending: Directory, dead: Directory, removed: set<Event>,
    filesVanish: bool) {
    && |made| <= |listed|
    && forall j :: 0 <= j < |made| ==> Settled(made[j].verdict, listed[j], pending, dead, removed, filesVanish)
  }

  function Verdicts(made: seq<Call>): seq<Verdict> {
    seq(|made|, i requires 0 <= i < |made| => made[i].verdict)
  }

  // The counters of a drain; an event whose file vanished after delivery is in none of them.
  ghost predicate Counted(delivered: int, retained: int, deadLettered: int, verdicts: seq<Verdict>) {
    && delivered == multiset(verdicts)[WasDelivered]
    && retained == multiset(verdicts)[WasRetained]
    && deadLettered == multiset(verdicts)[WasDeadLettered]
    && ProcessStopped !in verdicts && Uncaught !in verdicts
  }

  lemma VerdictsOneMore(made: seq<Call>, call: Call)
    ensures Verdicts(made + [call]) == Verdicts(made) + [call.verdict]
  {
  }

  lemma CountedOneMore(delivered: int, retained: int, deadLettered: int, made: seq<Call>, call: Call)
    requires Counted(delivered, retained, deadLettered, Verdicts(made))
    ensures call.verdict != ProcessStopped && call.verdict != Uncaught ==>
              Counted(if call.verdict == WasDelivered then delivered + 1 else delivered,
                      if call.verdict == WasRetained then retained + 1 else retained,
                      if call.verdict == WasDeadLettered then deadLettered + 1
                      else deadLettered, Verdicts(made + [call]))
  {
    VerdictsOneMore(made, call);
  }

  lemma {:induction false} VerdictsAddUp(verdicts: seq<Verdict>)
    ensures multiset(verdicts)[WasDelivered] + multiset(verdicts)[WasGone] + multiset(verdicts)[WasRetained]
            + multiset(verdicts)[WasDeadLettered] + multiset(verdicts)[Uncaught]
            + multiset(verdicts)[ProcessStopped] == |verdicts|
  {
    if verdicts != [] {
      VerdictsAddUp(verdicts[1..]);
      assert verdicts == [verdicts[0]] + verdicts[1..];
      match verdicts[0] {
        case WasDelivered =>
        case WasGone =>
        case WasRetained =>
        case WasDeadLettered =>
        case Uncaught =>
        case ProcessStopped =>
      }
    }
  }

  // So the counters add up to everything that was called, but for vanished files.
  lemma CountersAddUp(delivered: int, retained: int, deadLettered: int, made: seq<Call>)
    requires Counted(delivered, retained, deadLettered, Verdicts(made))
    ensures delivered + retained + deadLettered + multiset(Verdicts(made))[WasGone] == |made|
  {
    VerdictsAddUp(Verdicts(made));
  }

  lemma OthersStaySettled(
    listed: seq<Envelope>, made: seq<Call>, before: Directory, now: Directory, deadBefore: Directory,
    dead: Directory, removedBefore: set<Event>, removed: set<Event>, call: Call, filesVanish: bool)
    requires |made| < |listed| && NoRepeats(listed)
    requires AllSettled(listed, made, before, deadBefore, removedBefore, filesVanish)
    requires Settled(call.verdict, listed[|made|], now, dead, removed, filesVanish)
    requires now == before || now == before - {listed[|made|].event.id}
    requires (forall id :: id in deadBefore ==> id in dead && dead[id] == deadBefore[id]) && removedBefore <= removed
    ensures AllSettled(listed, made + [call], now, dead, removed, filesVanish)
  {
    forall j | 0 <= j < |made| ensures Settled(made[j].verdict, listed[j], now, dead, removed, filesVanish) {
      assert Settled(made[j].verdict, listed[j], before, deadBefore, removedBefore, filesVanish);
    }
  }

  // Whatever was acknowledged in between was confirmed over the link.
  ghost predicate NewlyAcknowledged(before: set<Event>, now: set<Event>, confirmed: set<string>) {
    before <= now && forall e :: e in now && e !in before ==> e.id in confirmed
  }

  function Set(events: seq<Event>): set<Event> {
    set e | e in events
  }

  // ---------- what one call does ----------

  // Its verdict fits what it returned, the files bear the verdict out, and it is remembered.
  ghost predicate CallDoes(x: Envelope, call: Call, startedAt: real, maxDrainSeconds: real) {
    && CallFits(call, x.event.id in call.before.deadLetter, startedAt, maxDrainSeconds)
    && CallFiles(x, call, call.before, call.after)
    && CallRecord(x, call, call.before, call.after)
  }

  predicate CallFits(call: Call, buried: bool, startedAt: real, maxDrainSeconds: real) {
    && startedAt <= call.before.now <= call.after.now && call.before.now - startedAt < maxDrainSeconds
    && (call.result.Some? <==> call.fate == Returns)
    && (call.fate == Raises ==> call.verdict == WasRetained)
    && (call.fate == NeverReturns ==> call.verdict == ProcessStopped)
    && (call.result.Some? ==>
          Suits(call.verdict, call.result.value, call.after.now - startedAt >= maxDrainSeconds,
                call.before.faultless, buried))
    && (call.before.faultless && call.fate == Returns ==> call.verdict != Uncaught && call.verdict != ProcessStopped)
  }

  ghost predicate CallFiles(x: Envelope, call: Call, p: State, p': State) {
    && Settled(call.verdict, x, p'.pending, p'.deadLetter, p'.removed, p.filesVanish)
    && (p'.pending == p.pending || p'.pending == p.pending - {x.event.id})
    && (p'.deadLetter == p.deadLetter
        || (call.result.Some? && !call.result.value.delivered
            && p'.deadLetter
               == p.deadLetter[x.event.id := DeadLetter(x, SafeDeliveryReason(call.result.value.reason))]))
    && Shrinks(p.pending, p.deadLetter, p'.pending, p'.deadLetter)
    && (p'.removed == p.removed || p'.removed == p.removed + {x.event})
    && (call.verdict == WasGone || p'.filesVanish ==> p.filesVanish)
    && (p.faultless ==> p'.faultless && !p.filesVanish)
  }

  ghost predicate CallRecord(x: Envelope, call: Call, p: State, p': State) {
    && p'.offered == p.offered + [x.event]
    && p.confirmed <= p'.confirmed
    && (if call.result.Some? && call.result.value.delivered then
          p'.acknowledged == p.acknowledged + {x.event} && x.event.id in p'.confirmed
        else p'.acknowledged == p.acknowledged)
    // the result is what the replies make of it
    && (call.result.Some? ==> Heard(call.result.value, p.fates, p'.fates, p'.now - p.now))
    && OnlyArrivals(p.actions, p'.actions, {x.event})
  }

  // What the callback changes.
  ghost predicate Answered(e: Event, fate: CallFate, answer: Option<DeliveryResult>, p: State, p': State) {
    && p' == p.(now := p'.now, offered := p.offered + [e], confirmed := p'.confirmed, acknowledged := p'.acknowledged,
             fates := p'.fates, actions := p'.actions)
    && p.now <= p'.now && p.confirmed <= p'.confirmed
    && (answer.Some? <==> fate == Returns)
    && (if answer.Some? && answer.value.delivered then
          p'.acknowledged == p.acknowledged + {e} && e.id in p'.confirmed
        else p'.acknowledged == p.acknowledged)
    && (answer.Some? ==> Heard(answer.value, p.fates, p'.fates, p'.now - p.now))
    && OnlyArrivals(p.actions, p'.actions, {e})
  }

  // What the settling of the file changes.
  ghost predicate FileSettles(x: Envelope, answer: DeliveryResult, late: bool, verdict: Verdict, p: State, p': State) {
    && p' == p.(pending := p'.pending, deadLetter := p'.deadLetter, removed := p'.removed,
             filesVanish := p'.filesVanish, faultless := p'.faultless)
    && (p'.pending == p.pending || p'.pending == p.pending - {x.event.id})
    && (p'.deadLetter == p.deadLetter
        || (!answer.delivered && x.event.id !in p.deadLetter
            && SafeDeliveryReason(answer.reason) in {RejectedHttpResponse, TransportFailure, DeliveryFailed}
            && p'.deadLetter == p.deadLetter[x.event.id := DeadLetter(x, SafeDeliveryReason(answer.reason))]))
    && (p'.removed == p.removed || p'.removed == p.removed + {x.event})
    && Settled(verdict, x, p'.pending, p'.deadLetter, p'.removed, p.filesVanish)
    && (verdict == WasGone || p'.filesVanish ==> p.filesVanish)
    && Suits(verdict, answer, late, p.faultless, x.event.id in p.deadLetter)
    && (p.faultless ==> p'.faultless && !p.filesVanish && verdict != Uncaught && verdict != ProcessStopped)
  }

  // Together they make the call.
  lemma CallSettles(x: Envelope, call: Call, answered: State, startedAt: real, maxDrainSeconds: real)
    requires startedAt <= call.before.now < startedAt + maxDrainSeconds && IsFileOf(call.before.pending, x)
    requires Answered(x.event, call.fate, call.result, call.before, answered)
    requires call.before.faultless ==> !call.before.filesVanish
    requires if call.result.Some? then
               FileSettles(x, call.result.value, answered.now - startedAt >= maxDrainSeconds, call.verdict, answered,
                           call.after)
             else
               call.after == answered && call.verdict == if call.fate == Raises then WasRetained else ProcessStopped
    ensures CallDoes(x, call, startedAt, maxDrainSeconds)
  {
  }

  // The verdict of a call that comes back in time, with no file fault and no dead letter in the
  // way, from the replies alone: transient ones up to the last, which decides.
  lemma CallFollowsReplies(x: Envelope, call: Call, startedAt: real, maxDrainSeconds: real)
    requires CallDoes(x, call, startedAt, maxDrainSeconds) && call.fate == Returns
    requires call.before.faultless && x.event.id !in call.before.deadLetter
             && call.after.now - startedAt < maxDrainSeconds
    ensures call.result.Some? && 0 < call.result.value.attempts <= MAX_RETRIES + 1
    ensures var n := call.result.value.attempts;
            && (forall i: nat :: i + 1 < n ==> Transient(ReplyAt(call.before.fates, i)))
            && Follows(x, call.verdict, ReplyAt(call.before.fates, n - 1), call.after)
    ensures !Transient(ReplyAt(call.before.fates, 0)) ==>
              Follows(x, call.verdict, ReplyAt(call.before.fates, 0), call.after)
    ensures (forall i: nat :: i <= MAX_RETRIES ==> Transient(ReplyAt(call.before.fates, i))) ==>
              call.verdict == WasRetained
  {
    var n := call.result.value.attempts;
    var last := ReplyAt(call.before.fates, n - 1);
    assert Answers(call.result.value, last);
    if !Transient(ReplyAt(call.before.fates, 0)) {
      FinalReplyIsHeard(call.result.value, call.before.fates, call.after.fates, call.after.now - call.before.now);
    }
  }

  // A success removes the event, a transient reply keeps it pending, and any other files it as a
  // dead letter with the reason that the reply gave.
  ghost predicate Follows(x: Envelope, verdict: Verdict, reply: Reply, p: State) {
    var id := x.event.id;
    if Success(reply) then verdict == WasDelivered && id !in p.pending
    else if Transient(reply) then verdict == WasRetained && id in p.pending
    else
      && verdict == WasDeadLettered && id !in p.pending && id in p.deadLetter
      && p.deadLetter[id] == DeadLetter(x, if reply == OtherError then TransportFailure else RejectedHttpResponse)
  }

  // ---------- a series of calls ----------

  function Reached(start: State, made: seq<Call>): State {
    if made == [] then start else made[|made| - 1].after
  }

  // The calls were made on the first of the listed envelopes, one after the other.
  ghost predicate Trace(
    listed: seq<Envelope>, made: seq<Call>, fates: map<string, CallFate>, start: State, maxDrainSeconds: real,
    now: State) {
    && |made| <= |listed| && now == Reached(start, made)
    && forall i {:trigger made[..i]} :: 0 <= i < |made| ==>
                                          Made(listed[i], made[i], Reached(start, made[..i]), fates, start.now,
                                               maxDrainSeconds)
  }

  // One call of the series, which begins where the one before it has ended.
  ghost predicate Made(
    x: Envelope, call: Call, before: State, fates: map<string, CallFate>, startedAt: real, maxDrainSeconds: real) {
    call.before == before && call.fate == FateOf(fates, x.event.id) && CallDoes(x, call, startedAt, maxDrainSeconds)
  }

  lemma TraceOneMore(
    listed: seq<Envelope>, made: seq<Call>, call: Call, fates: map<string, CallFate>, start: State,
    maxDrainSeconds: real, now: State)
    requires Trace(listed, made, fates, start, maxDrainSeconds, now) && |made| < |listed|
    requires call.before == now && call.fate == FateOf(fates, listed[|made|].event.id)
    requires CallDoes(listed[|made|], call, start.now, maxDrainSeconds)
    ensures Trace(listed, made + [call], fates, start, maxDrainSeconds, call.after)
  {
    var more := made + [call];
    assert more[..|made|] == made;
    forall i | 0 <= i < |more|
      ensures Made(listed[i], more[i], Reached(start, more[..i]), fates, start.now, maxDrainSeconds) {
      assert i < |made| ==> more[i] == made[i] && more[..i] == made[..i];
    }
  }

  lemma TraceUpTo(
    listed: seq<Envelope>, made: seq<Call>, fates: map<string, CallFate>, start: State, maxDrainSeconds: real,
    now: State, n: nat)
    requires Trace(listed, made, fates, start, maxDrainSeconds, now) && n < |made|
    ensures Trace(listed, made[..n], fates, start, maxDrainSeconds, made[n].before)
  {
    var init := made[..n];
    forall i | 0 <= i < n
      ensures Made(listed[i], init[i], Reached(start, init[..i]), fates, start.now, maxDrainSeconds) {
      assert init[i] == made[i] && init[..i] == made[..i];
    }
  }

  lemma TracePrefix(
    listed: seq<Envelope>, made: seq<Call>, fates: map<string, CallFate>, start: State, maxDrainSeconds: real,
    now: State)
    requires Trace(listed, made, fates, start, maxDrainSeconds, now) && made != []
    ensures var n := |made| - 1;
            Trace(listed, made[..n], fates, start, maxDrainSeconds, made[n].before) && made[n].after == now
  {
    TraceUpTo(listed, made, fates, start, maxDrainSeconds, now, |made| - 1);
  }

  // Time only goes on.
  ghost predicate InTime(made: seq<Call>, start: State, now: State) {
    start.now <= now.now && forall i :: 0 <= i < |made| ==> made[i].after.now <= now.now
  }

  lemma {:induction false} TimesOfTrace(
    listed: seq<Envelope>, made: seq<Call>, fates: map<string, CallFate>, start: State, maxDrainSeconds: real,
    now: State)
    requires Trace(listed, made, fates, start, maxDrainSeconds, now)
    ensures InTime(made, start, now)
  {
    if made != [] {
      var n := |made| - 1;
      var init, call := made[..n], made[n];
      TracePrefix(listed, made, fates, start, maxDrainSeconds, now);
      TimesOfTrace(listed, init, fates, start, maxDrainSeconds, call.before);
      TimesOneMore(init, call, start);
      WithLast(made);
    }
  }

  lemma TimesOneMore(made: seq<Call>, call: Call, start: State)
    requires InTime(made, start, call.before) && call.before.now <= call.after.now
    ensures InTime(made + [call], start, call.after)
  {
  }

  // A pass over the pending directory removes only files whose dead letter it sees.
  ghost predicate Passed(sight: Sight, p: State, p': State) {
    && p' == p.(pending := p'.pending, filesVanish := p'.filesVanish, faultless := p'.faultless)
    && (forall id :: id in p'.pending ==> id in p.pending && p'.pending[id] == p.pending[id])
    && (forall id :: id in p.pending && id !in p'.pending ==> id in DeadLetterIds(p.deadLetter, sight))
    && (p'.filesVanish ==> p.filesVanish) && (p.faultless ==> p'.faultless)
  }

  // What has become of the files.
  ghost predicate FilesAfter(listed: seq<Envelope>, made: seq<Call>, from: State, p: State) {
    && StillListed(listed, |made|, p.pending)
    && AllSettled(listed, made, p.pending, p.deadLetter, p.removed, from.filesVanish)
    && Shrinks(from.pending, from.deadLetter, p.pending, p.deadLetter)
    && (WasGone in Verdicts(made) || p.filesVanish ==> from.filesVanish)
    && (from.faultless ==> p.faultless)
  }

  // What is remembered.
  ghost predicate RecordAfter(called: seq<Envelope>, from: State, p: State) {
    && p.offered == from.offered + Events(called)
    && NewlyAcknowledged(from.acknowledged, p.acknowledged, p.confirmed) && from.confirmed <= p.confirmed
    && OnlyArrivals(from.actions, p.actions, Set(Events(called)))
  }

  lemma {:induction false} FilesOfTrace(
    listed: seq<Envelope>, made: seq<Call>, fates: map<string, CallFate>, start: State, maxDrainSeconds: real,
    now: State)
    requires Trace(listed, made, fates, start, maxDrainSeconds, now)
    requires NoRepeats(listed) && StillListed(listed, 0, start.pending)
    ensures FilesAfter(listed, made, start, now)
  {
    if made != [] {
      var n := |made| - 1;
      var init, call := made[..n], made[n];
      TracePrefix(listed, made, fates, start, maxDrainSeconds, now);
      FilesOfTrace(listed, init, fates, start, maxDrainSeconds, call.before);
      FilesOneMore(listed, init, call, start);
      WithLast(made);
    }
  }

  // So the next of the list is on file, and no time has been lost.
  lemma NextOnFile(
    listed: seq<Envelope>, made: seq<Call>, fates: map<string, CallFate>, start: State, maxDrainSeconds: real,
    now: State)
    requires Trace(listed, made, fates, start, maxDrainSeconds, now) && |made| < |listed|
    requires NoRepeats(listed) && StillListed(listed, 0, start.pending)
    ensures IsFileOf(now.pending, listed[|made|]) && start.now <= now.now
  {
    FilesOfTrace(listed, made, fates, start, maxDrainSeconds, now);
    TimesOfTrace(listed, made, fates, start, maxDrainSeconds, now);
  }

  lemma FilesOneMore(listed: seq<Envelope>, made: seq<Call>, call: Call, from: State)
    requires FilesAfter(listed, made, from, call.before) && |made| < |listed| && NoRepeats(listed)
    requires CallFiles(listed[|made|], call, call.before, call.after)
    ensures FilesAfter(listed, made + [call], from, call.after)
  {
    var p, p' := call.before, call.after;
    OthersStay(listed, |made|, p.pending, p'.pending);
    SettledVanishing(call.verdict, listed[|made|], p', p.filesVanish, from.filesVanish);
    OthersStaySettled(
      listed, made, p.pending, p'.pending, p.deadLetter, p'.deadLetter, p.removed, p'.removed, call, from.filesVanish);
    ShrinksTransitive(from.pending, from.deadLetter, p.pending, p.deadLetter, p'.pending, p'.deadLetter);
    VerdictsOneMore(made, call);
  }

  lemma SettledVanishing(verdict: Verdict, x: Envelope, p: State, filesVanish: bool, vanishing: bool)
    requires Settled(verdict, x, p.pending, p.deadLetter, p.removed, filesVanish) && (filesVanish ==> vanishing)
    ensures Settled(verdict, x, p.pending, p.deadLetter, p.removed, vanishing)
  {
  }

  lemma {:induction false} RecordOfTrace(
    listed: seq<Envelope>, made: seq<Call>, fates: map<string, CallFate>, start: State, maxDrainSeconds: real,
    now: State)
    requires Trace(listed, made, fates, start, maxDrainSeconds, now)
    ensures RecordAfter(listed[..|made|], start, now)
  {
    if made == [] {
      assert listed[..0] == [];
    } else {
      var n := |made| - 1;
      TracePrefix(listed, made, fates, start, maxDrainSeconds, now);
      RecordOfTrace(listed, made[..n], fates, start, maxDrainSeconds, made[n].before);
      RecordOneMore(listed, n, made[n], start);
    }
  }

  lemma RecordOneMore(listed: seq<Envelope>, index: nat, call: Call, from: State)
    requires index < |listed| && RecordAfter(listed[..index], from, call.before)
    requires CallRecord(listed[index], call, call.before, call.after)
    ensures RecordAfter(listed[..index + 1], from, call.after)
  {
    var x := listed[index];
    AcknowledgedOneMore(from.acknowledged, call.before, call.after, x.event);
    EventsOneMore(listed, index);
    SetOneMore(Events(listed[..index]), x.event);
    ArrivalsAddUp(from.actions, call.before.actions, call.after.actions, Set(Events(listed[..index])), {x.event});
  }

  // ---------- calls that all succeed ----------

  // The time that the first n calls may take, whatever their timeouts.
  function Span(fates: seq<Fate>, n: nat): real {
    if n == 0 then 0.0 else Span(fates, n - 1) + PatienceAt(fates, n - 1)
  }

  lemma {:induction false} SpanGrows(fates: seq<Fate>, m: nat, n: nat)
    requires m <= n
    ensures Span(fates, m) <= Span(fates, n)
  {
    if m < n {
      SpanGrows(fates, m, n - 1);
    }
  }

  // After calls that were all delivered.
  ghost predicate AllDelivered(listed: seq<Envelope>, made: seq<Call>, start: State, now: State) {
    && |made| <= |listed|
    && now.faultless && now.deadLetter == start.deadLetter
    && now.fates == FatesFrom(start.fates, |made|) && now.now - start.now <= Span(start.fates, |made|)
    && forall j :: 0 <= j < |made| ==> made[j].verdict == WasDelivered && listed[j].event.id in now.confirmed
  }

  // When every call is answered with success, no file step fails and the answers come in time,
  // each event that was called is delivered.
  lemma {:induction false} SmoothCallsDeliver(
    listed: seq<Envelope>, made: seq<Call>, fates: map<string, CallFate>, start: State, maxDrainSeconds: real,
    now: State)
    requires Trace(listed, made, fates, start, maxDrainSeconds, now)
    requires Answering(start.fates, fates, |made|) && start.faultless && Span(start.fates, |made|) < maxDrainSeconds
    ensures AllDelivered(listed, made, start, now)
  {
    if made != [] {
      var n := |made| - 1;
      var init, call := made[..n], made[n];
      TracePrefix(listed, made, fates, start, maxDrainSeconds, now);
      SpanGrows(start.fates, n, n + 1);
      SmoothCallsDeliver(listed, init, fates, start, maxDrainSeconds, call.before);
      FatesStep(start.fates, n);
      DeliveredOneMore(listed, init, call, start, maxDrainSeconds);
      WithLast(made);
    }
  }

  lemma DeliveredOneMore(listed: seq<Envelope>, made: seq<Call>, call: Call, start: State, maxDrainSeconds: real)
    requires AllDelivered(listed, made, start, call.before) && |made| < |listed|
    requires CallDoes(listed[|made|], call, start.now, maxDrainSeconds) && call.fate == Returns
    requires Success(ReplyAt(call.before.fates, 0)) && Span(start.fates, |made| + 1) < maxDrainSeconds
    ensures AllDelivered(listed, made + [call], start, call.after)
  {
    FatesStep(start.fates, |made|);
    FinalReplyIsHeard(call.result.value, call.before.fates, call.after.fates, call.after.now - call.before.now);
  }

  lemma WithLast<T>(s: seq<T>)
    requires s != []
    ensures s == s[..|s| - 1] + [s[|s| - 1]]
  {
  }

  lemma AcknowledgedOneMore(before: set<Event>, p: State, p': State, e: Event)
    requires NewlyAcknowledged(before, p.acknowledged, p.confirmed) && p.confirmed <= p'.confirmed
    requires p'.acknowledged == p.acknowledged || (p'.acknowledged == p.acknowledged + {e} && e.id in p'.confirmed)
    ensures NewlyAcknowledged(before, p'.acknowledged, p'.confirmed)
  {
  }

  lemma SetOneMore(events: seq<Event>, e: Event)
    ensures Set(events + [e]) == Set(events) + {e}
  {
  }
}
