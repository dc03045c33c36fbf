// Whole drains: what they report, and what they come to.
module OutboxDrains {
  import opened Delivery
  import opened OutboxCalls
  import opened OutboxCapacity
  import opened OutboxFiles
  import opened OutboxPass
  import opened TextOrder

  // ---------- the report of a drain ----------

  datatype Ending = Completed | Aborted | Interrupted

  // The result counts the verdicts, and what was not called as retained; after an uncaught
  // error it is all zeros, whatever was delivered before.
  ghost predicate Reports(result: DrainResult, stopped: bool, listed: nat, made: seq<Call>) {
    && (!stopped && Uncaught !in Verdicts(made) ==>
          Counted(result.delivered, result.retained - (listed - |made|), result.deadLettered, Verdicts(made)))
    && (Uncaught in Verdicts(made) ==> result == NOTHING)
    // so it accounts for everything listed exactly when no file vanished and nothing was uncaught
    && (!stopped ==>
          (result.delivered + result.retained + result.deadLettered == listed
           <==> WasGone !in Verdicts(made) && Uncaught !in Verdicts(made)))
  }

  // How the calls so far have ended: counted, or cut short by the last of them.
  ghost predicate Ends(ending: Ending, delivered: int, retained: int, deadLettered: int, made: seq<Call>) {
    match ending
    case Completed => Counted(delivered, retained, deadLettered, Verdicts(made))
    case Aborted => Uncaught in Verdicts(made)
    case Interrupted => ProcessStopped in Verdicts(made)
  }

  lemma EndsOneMore(delivered: int, retained: int, deadLettered: int, made: seq<Call>, call: Call)
    requires Ends(Completed, delivered, retained, deadLettered, made)
    ensures Ends(if call.verdict == Uncaught then Aborted
                 else if call.verdict == ProcessStopped then Interrupted
                 else Completed,
                 if call.verdict == WasDelivered then delivered + 1 else delivered,
                 if call.verdict == WasRetained then retained + 1 else retained,
                 if call.verdict == WasDeadLettered then deadLettered + 1 else deadLettered, made + [call])
  {
    CountedOneMore(delivered, retained, deadLettered, made, call);
    VerdictsOneMore(made, call);
    assert (Verdicts(made) + [call.verdict])[|made|] == call.verdict;
  }

  lemma EndsReport(
    delivered: nat, retained: nat, deadLettered: nat, corrupt: nat, listed: nat, made: seq<Call>, ending: Ending)
    requires |made| <= listed
    requires ending != Interrupted || made != [] ==>
               Ends(ending, delivered, retained - (listed - |made|), deadLettered, made)
    ensures Reports(if ending == Completed then DrainResult(delivered, retained, deadLettered, corrupt) else NOTHING,
                    ending == Interrupted, listed, made)
    ensures ending == Completed ==> Uncaught !in Verdicts(made)
    ensures ending == Aborted ==> Uncaught in Verdicts(made)
    ensures ending == Interrupted && made != [] ==> ProcessStopped in Verdicts(made)
  {
    if ending == Completed {
      CountersAddUp(delivered, retained - (listed - |made|), deadLettered, made);
    }
    if ending == Aborted {
      var i :| 0 <= i < |Verdicts(made)| && Verdicts(made)[i] == Uncaught;
    }
  }

  // ---------- how a drain goes ----------

  // A whole drain: the states before it, after its pass over the pending directory, and after it.
  datatype Run = Run(
    before: State, start: State, after: State, listed: seq<Envelope>, made: seq<Call>, ending: Ending,
    result: DrainResult)
  {
    predicate Stopped() {
      ending == Interrupted
    }

    function Elapsed(): real {
      after.now - before.now
    }

    function Reported(): DrainResult {
      if ending == Completed then result else NOTHING
    }
  }

  // What a drain begins with: a sorted list of files.
  ghost predicate Begun(sight: Sight, before: State, start: State, listed: seq<Envelope>) {
    Passed(sight, before, start) && Sorted(listed) && NoRepeats(listed) && StillListed(listed, 0, start.pending)
  }

  // How the calls under the lock have gone: on the list of what can be read and has no known
  // dead letter, in order, until the list or the budget is used up or something breaks it off.
  ghost predicate Ran(sight: Sight, fates: map<string, CallFate>, limits: Limits, run: Run) {
    && Trace(run.listed, run.made, fates, run.start, limits.maxDrainSeconds, run.after)
    && Begun(sight, run.before, run.start, run.listed)
    && (run.made != [] || !run.Stopped() ==>
          Names(run.listed) == Deliverable(run.before.pending, run.before.deadLetter, sight))
    && |run.made| <= |run.listed| && |run.made| <= limits.maxDrainEvents
    && (run.ending == Completed ==>
          |run.made| == |run.listed| || |run.made| == limits.maxDrainEvents || run.Elapsed() >= limits.maxDrainSeconds)
    && (run.made != [] || !run.Stopped() ==>
          Ends(run.ending, run.result.delivered, run.result.retained - (|run.listed| - |run.made|),
               run.result.deadLettered, run.made))
    && (run.made == [] && run.before.faultless ==> !run.Stopped())
  }

  // What every drain reports.
  lemma DrainReports(sight: Sight, fates: map<string, CallFate>, limits: Limits, run: Run)
    requires Ran(sight, fates, limits, run)
    ensures Reports(run.Reported(), run.Stopped(), |run.listed|, run.made)
    ensures run.ending == Completed ==> Uncaught !in Verdicts(run.made)
    ensures run.ending == Aborted ==> Uncaught in Verdicts(run.made)
    ensures run.Stopped() && run.made != [] ==> ProcessStopped in Verdicts(run.made)
  {
    var r := run.result;
    EndsReport(r.delivered, r.retained, r.deadLettered, r.corrupt, |run.listed|, run.made, run.ending);
  }

  // ---------- what a drain comes to ----------

  // What is called: a prefix of the sorted list of what could be read and has no known dead letter.
  ghost predicate DrainLists(sight: Sight, run: Run) {
    var deliverable := Deliverable(run.before.pending, run.before.deadLetter, sight);
    && |run.made| <= |run.listed| && StillListed(run.listed, 0, run.before.pending)
    && Ids(Events(run.listed[..|run.made|])) <= deliverable
    && (|run.made| == |run.listed| && (run.made != [] || !run.Stopped()) ==>
          Ids(Events(run.listed[..|run.made|])) == deliverable)
  }

  // The list stands in dictionary order of the times, and of the ids queued at the same time.
  lemma ListedInTurn(sight: Sight, fates: map<string, CallFate>, limits: Limits, run: Run, i: nat, j: nat)
    requires Ran(sight, fates, limits, run) && i < j < |run.listed|
    ensures InTurn(run.listed[i], run.listed[j]) && run.listed[i].event.id != run.listed[j].event.id
  {
    BeforeMeans(run.listed[i], run.listed[j]);
  }

  // Where the list has a deliverable event.
  lemma PlaceOf(sight: Sight, fates: map<string, CallFate>, limits: Limits, run: Run, id: string) returns (i: nat)
    requires Ran(sight, fates, limits, run) && run.made != []
    requires id in Deliverable(run.before.pending, run.before.deadLetter, sight)
    ensures i < |run.listed| && run.listed[i] == run.before.pending[id].envelope
  {
    RunLists(sight, fates, limits, run);
    assert id in Names(run.listed);
    var x :| x in run.listed && x.event.id == id;
    i :| 0 <= i < |run.listed| && run.listed[i] == x;
    assert IsFileOf(run.before.pending, run.listed[i]);
  }

  lemma EarlierComesFirst(x: Envelope, y: Envelope)
    requires Earlier(x.queuedAt, y.queuedAt)
    ensures x != y && !InTurn(y, x)
  {
    EarlierIsStrict(x.queuedAt, y.queuedAt);
  }

  // Oldest first: no event is called while one that the drain could deliver, and that was queued
  // strictly earlier, has not been called before it.
  lemma OldestFirst(sight: Sight, fates: map<string, CallFate>, limits: Limits, run: Run, j: nat, id: string)
    requires Ran(sight, fates, limits, run) && j < |run.made|
    requires id in Deliverable(run.before.pending, run.before.deadLetter, sight)
    requires Earlier(run.before.pending[id].envelope.queuedAt, run.listed[j].queuedAt)
    ensures exists i :: 0 <= i < j && run.listed[i] == run.before.pending[id].envelope
    ensures run.after.offered == run.before.offered + Events(run.listed[..|run.made|])
  {
    var i := PlaceOf(sight, fates, limits, run, id);
    EarlierComesFirst(run.listed[i], run.listed[j]);
    if j < i {
      ListedInTurn(sight, fates, limits, run, j, i);
    }
    RecordOfTrace(run.listed, run.made, fates, run.start, limits.maxDrainSeconds, run.after);
  }

  // How it is called: each verdict fits the answer, and the drain only stops at the end of its
  // list or of its budget, by an uncaught error, or with the process.
  ghost predicate DrainCalls(fates: map<string, CallFate>, limits: Limits, run: Run) {
    && |run.made| <= |run.listed|
    && (forall i :: 0 <= i < |run.made| ==>
                      && run.made[i].fate == FateOf(fates, run.listed[i].event.id)
                      && CallDoes(run.listed[i], run.made[i], run.before.now, limits.maxDrainSeconds))
    && 0.0 <= run.Elapsed() && (run.made == [] ==> run.Elapsed() == 0.0)
    && (!run.Stopped() && Uncaught !in Verdicts(run.made) ==>
          |run.made| == |run.listed| || |run.made| == limits.maxDrainEvents || run.Elapsed() >= limits.maxDrainSeconds)
    && (run.Stopped() && run.before.faultless ==> ProcessStopped in Verdicts(run.made))
  }

  // What becomes of the files.
  ghost predicate DrainSettles(run: Run) {
    && Shrinks(run.before.pending, run.before.deadLetter, run.after.pending, run.after.deadLetter)
    && StillListed(run.listed, |run.made|, run.after.pending)
    && AllSettled(run.listed, run.made, run.after.pending, run.after.deadLetter, run.after.removed,
                  run.before.filesVanish)
    && (WasGone in Verdicts(run.made) ==> run.before.filesVanish)
    && (run.before.faultless ==> run.after.faultless)
  }

  lemma DrainComesTo(sight: Sight, fates: map<string, CallFate>, limits: Limits, run: Run)
    requires Ran(sight, fates, limits, run)
    ensures DrainLists(sight, run)
    ensures DrainCalls(fates, limits, run)
    ensures DrainSettles(run)
    ensures RecordAfter(run.listed[..|run.made|], run.before, run.after)
  {
    RunLists(sight, fates, limits, run);
    RunCalls(sight, fates, limits, run);
    RunSettles(sight, fates, limits, run);
    RecordOfTrace(run.listed, run.made, fates, run.start, limits.maxDrainSeconds, run.after);
  }

  lemma RunLists(sight: Sight, fates: map<string, CallFate>, limits: Limits, run: Run)
    requires Ran(sight, fates, limits, run)
    ensures DrainLists(sight, run)
  {
    forall j | 0 <= j < |run.listed| ensures IsFileOf(run.before.pending, run.listed[j]) {
      assert IsFileOf(run.start.pending, run.listed[j]);
    }
    if run.made == [] {
      assert Events(run.listed[..0]) == [];
    } else {
      PrefixNames(run.listed, |run.made|);
    }
    if |run.made| == |run.listed| {
      assert run.listed[..|run.made|] == run.listed;
      NamesAreIds(run.listed);
    }
  }

  lemma RunCalls(sight: Sight, fates: map<string, CallFate>, limits: Limits, run: Run)
    requires Ran(sight, fates, limits, run)
    ensures DrainCalls(fates, limits, run)
  {
    DrainReports(sight, fates, limits, run);
    TimesOfTrace(run.listed, run.made, fates, run.start, limits.maxDrainSeconds, run.after);
    forall i | 0 <= i < |run.made|
      ensures run.made[i].fate == FateOf(fates, run.listed[i].event.id)
      ensures CallDoes(run.listed[i], run.made[i], run.before.now, limits.maxDrainSeconds)
    {
      assert Made(run.listed[i], run.made[i], Reached(run.start, run.made[..i]), fates, run.start.now,
                  limits.maxDrainSeconds);
    }
  }

  lemma RunSettles(sight: Sight, fates: map<string, CallFate>, limits: Limits, run: Run)
    requires Ran(sight, fates, limits, run)
    ensures DrainSettles(run)
  {
    var p, start, p' := run.before, run.start, run.after;
    FilesOfTrace(run.listed, run.made, fates, start, limits.maxDrainSeconds, p');
    ShrinksTransitive(p.pending, p.deadLetter, start.pending, start.deadLetter, p'.pending, p'.deadLetter);
    SettledBefore(run.listed, run.made, p', start.filesVanish, p.filesVanish);
  }

  lemma SettledBefore(listed: seq<Envelope>, made: seq<Call>, p: State, filesVanish: bool, vanishing: bool)
    requires AllSettled(listed, made, p.pending, p.deadLetter, p.removed, filesVanish) && (filesVanish ==> vanishing)
    ensures AllSettled(listed, made, p.pending, p.deadLetter, p.removed, vanishing)
  {
    forall j | 0 <= j < |made|
      ensures Settled(made[j].verdict, listed[j], p.pending, p.deadLetter, p.removed, vanishing) {
      SettledVanishing(made[j].verdict, listed[j], p, filesVanish, vanishing);
    }
  }

  // ---------- what the replies decide ----------

  // With no file fault and a callback that returns, the replies decide what becomes of each event
  // that had no dead letter: it met transient ones up to the last of its attempts, and that reply
  // removed it, left it pending, or filed it as a dead letter; but one whose answer came after the
  // drain's time stays pending whatever the answer.
  lemma DrainFollowsReplies(sight: Sight, fates: map<string, CallFate>, limits: Limits, run: Run, j: nat)
    requires Ran(sight, fates, limits, run) && run.before.faultless && AllReturn(fates) && j < |run.made|
    requires run.listed[j].event.id !in run.before.deadLetter
    ensures if run.made[j].after.now - run.before.now < limits.maxDrainSeconds
            then RepliesDecide(run.listed[j], run.made[j], run.before.fates, Attempts(run.made[..j]), run.after)
            else run.made[j].verdict == WasRetained && run.listed[j].event.id in run.after.pending
  {
    var x, call, start, met := run.listed[j], run.made[j], run.start, Attempts(run.made[..j]);
    CallInOrder(run.listed, run.made, fates, start, limits.maxDrainSeconds, run.after, j);
    FilesStayOnTrace(run.listed, run.made, fates, start, limits.maxDrainSeconds, run.after);
    if call.after.now - start.now < limits.maxDrainSeconds {
      CallDecides(x, call, start, limits.maxDrainSeconds, met);
      StillDecided(x, call, start.fates, met, call.after, run.after);
    } else {
      LateIsRetained(x, call, start, limits.maxDrainSeconds);
    }
  }

  lemma LateIsRetained(x: Envelope, call: Call, start: State, maxDrainSeconds: real)
    requires CallDoes(x, call, start.now, maxDrainSeconds) && call.fate == Returns
    requires call.after.now - start.now >= maxDrainSeconds
    ensures call.verdict == WasRetained && x.event.id in call.after.pending
  {
  }

  // In numbers: three lost connections, 429s or 5xx leave an event pending; a first reply of any
  // other status but 2xx, such as 400 or 401, dead-letters it as rejected; a 2xx removes it.
  lemma StatusesDecide(sight: Sight, fates: map<string, CallFate>, limits: Limits, run: Run, j: nat)
    requires Ran(sight, fates, limits, run) && run.before.faultless && AllReturn(fates) && j < |run.made|
    requires run.listed[j].event.id !in run.before.deadLetter
    requires run.made[j].after.now - run.before.now < limits.maxDrainSeconds
    ensures ThreeTransient(run.before.fates, Attempts(run.made[..j])) ==>
              run.made[j].verdict == WasRetained && run.listed[j].event.id in run.after.pending
    ensures FirstDecides(run.listed[j], run.made[j].verdict,
                         ReplyAt(run.before.fates, Attempts(run.made[..j])), run.after)
  {
    DrainFollowsReplies(sight, fates, limits, run, j);
    StatusesFollow(run.listed[j], run.made[j], run.before.fates, Attempts(run.made[..j]), run.after);
  }

  ghost predicate ThreeTransient(replies: seq<Fate>, met: nat) {
    forall i: nat :: met <= i < met + 3 ==>
                       || ReplyAt(replies, i) == NetworkError
                       || (ReplyAt(replies, i).Status?
                           && (ReplyAt(replies, i).code == 429 || 500 <= ReplyAt(replies, i).code < 600))
  }

  ghost predicate FirstDecides(x: Envelope, verdict: Verdict, first: Reply, p: State) {
    var id := x.event.id;
    && (first.Status? && 200 <= first.code < 300 ==> verdict == WasDelivered && id !in p.pending)
    && (first.Status? && !(200 <= first.code < 300) && first.code != 429 && !(500 <= first.code < 600) ==>
          && verdict == WasDeadLettered && id !in p.pending
          && id in p.deadLetter && p.deadLetter[id] == DeadLetter(x, RejectedHttpResponse))
    && (first == OtherError ==>
          && verdict == WasDeadLettered && id !in p.pending
          && id in p.deadLetter && p.deadLetter[id] == DeadLetter(x, TransportFailure))
  }

  lemma StatusesFollow(x: Envelope, call: Call, replies: seq<Fate>, met: nat, p: State)
    requires RepliesDecide(x, call, replies, met, p)
    ensures ThreeTransient(replies, met) ==> call.verdict == WasRetained && x.event.id in p.pending
    ensures FirstDecides(x, call.verdict, ReplyAt(replies, met), p)
  {
    var last := call.result.value.attempts - 1;
    assert Follows(x, call.verdict, ReplyAt(replies, met + last), p);
    assert last > 0 ==> Transient(ReplyAt(replies, met));
  }

  // A call that comes after so many replies meets transient ones up to its last, which decides.
  ghost predicate RepliesDecide(x: Envelope, call: Call, replies: seq<Fate>, met: nat, p: State) {
    && call.result.Some? && 0 < call.result.value.attempts <= MAX_RETRIES + 1
    && (forall i: nat :: met <= i < met + call.result.value.attempts - 1 ==> Transient(ReplyAt(replies, i)))
    && Follows(x, call.verdict, ReplyAt(replies, met + call.result.value.attempts - 1), p)
  }

  lemma CallDecides(x: Envelope, call: Call, start: State, maxDrainSeconds: real, met: nat)
    requires CallDoes(x, call, start.now, maxDrainSeconds) && call.fate == Returns && call.before.faultless
    requires x.event.id !in call.before.deadLetter && call.after.now - start.now < maxDrainSeconds
    requires call.before.fates == FatesFrom(start.fates, met)
    ensures RepliesDecide(x, call, start.fates, met, call.after)
  {
    CallFollowsReplies(x, call, start.now, maxDrainSeconds);
    FatesAddUp(start.fates, met, 0);
    forall i: nat | met <= i < met + call.result.value.attempts - 1 ensures Transient(ReplyAt(start.fates, i)) {
      assert Transient(ReplyAt(call.before.fates, i - met));
    }
  }

  lemma StillDecided(x: Envelope, call: Call, replies: seq<Fate>, met: nat, p: State, p': State)
    requires RepliesDecide(x, call, replies, met, p) && SameFiles(x.event.id, p, p')
    ensures RepliesDecide(x, call, replies, met, p')
  {
  }

  lemma CallInOrder(
    listed: seq<Envelope>, made: seq<Call>, fates: map<string, CallFate>, start: State, maxDrainSeconds: real,
    now: State, j: nat)
    requires Trace(listed, made, fates, start, maxDrainSeconds, now) && NoRepeats(listed)
             && StillListed(listed, 0, start.pending)
    requires start.faultless && AllReturn(fates) && j < |made| && listed[j].event.id !in start.deadLetter
    ensures CallDoes(listed[j], made[j], start.now, maxDrainSeconds) && made[j].fate == Returns
    ensures made[j].before.faultless && listed[j].event.id !in made[j].before.deadLetter
    ensures made[j].before.fates == FatesFrom(start.fates, Attempts(made[..j]))
  {
    TraceUpTo(listed, made, fates, start, maxDrainSeconds, now, j);
    FilesOfTrace(listed, made[..j], fates, start, maxDrainSeconds, made[j].before);
    FilesStayOnTrace(listed, made[..j], fates, start, maxDrainSeconds, made[j].before);
    RepliesMet(listed, made[..j], fates, start, maxDrainSeconds, made[j].before);
  }

  // How many replies some calls met.
  function Attempts(made: seq<Call>): nat {
    if made == [] then 0 else
    var call := made[|made| - 1];
    Attempts(made[..|made| - 1]) + if call.result.Some? then call.result.value.attempts else 0
  }

  lemma {:induction false} RepliesMet(
    listed: seq<Envelope>, made: seq<Call>, fates: map<string, CallFate>, start: State, maxDrainSeconds: real,
    now: State)
    requires Trace(listed, made, fates, start, maxDrainSeconds, now) && AllReturn(fates)
    ensures now.fates == FatesFrom(start.fates, Attempts(made))
  {
    if made != [] {
      var n := |made| - 1;
      TracePrefix(listed, made, fates, start, maxDrainSeconds, now);
      RepliesMet(listed, made[..n], fates, start, maxDrainSeconds, made[n].before);
      RepliesOneMore(listed[n], made[n], start, Attempts(made[..n]), maxDrainSeconds);
    }
  }

  lemma RepliesOneMore(x: Envelope, call: Call, start: State, met: nat, maxDrainSeconds: real)
    requires CallDoes(x, call, start.now, maxDrainSeconds) && call.fate == Returns
    requires call.before.fates == FatesFrom(start.fates, met)
    ensures call.result.Some? && call.after.fates == FatesFrom(start.fates, met + call.result.value.attempts)
  {
    FatesAddUp(start.fates, met, call.result.value.attempts);
  }

  ghost predicate SameFiles(id: string, p: State, p': State) {
    && (id in p.pending <==> id in p'.pending)
    && (id in p.deadLetter ==> id in p'.deadLetter && p'.deadLetter[id] == p.deadLetter[id])
  }

  // Each call leaves the files of the events before it alone, and dead-letters none of those after it.
  ghost predicate FilesStay(listed: seq<Envelope>, made: seq<Call>, start: State, now: State) {
    && |made| <= |listed|
    && (forall j :: 0 <= j < |made| ==> SameFiles(listed[j].event.id, made[j].after, now))
    && forall j :: |made| <= j < |listed| && listed[j].event.id in now.deadLetter ==>
                     listed[j].event.id in start.deadLetter
  }

  lemma {:induction false} FilesStayOnTrace(
    listed: seq<Envelope>, made: seq<Call>, fates: map<string, CallFate>, start: State, maxDrainSeconds: real,
    now: State)
    requires Trace(listed, made, fates, start, maxDrainSeconds, now) && NoRepeats(listed)
    ensures FilesStay(listed, made, start, now)
  {
    if made != [] {
      var n := |made| - 1;
      TracePrefix(listed, made, fates, start, maxDrainSeconds, now);
      FilesStayOnTrace(listed, made[..n], fates, start, maxDrainSeconds, made[n].before);
      FilesStayOneMore(listed, made[..n], made[n], start);
      WithLast(made);
    }
  }

  lemma FilesStayOneMore(listed: seq<Envelope>, made: seq<Call>, call: Call, start: State)
    requires FilesStay(listed, made, start, call.before) && |made| < |listed| && NoRepeats(listed)
    requires CallFiles(listed[|made|], call, call.before, call.after)
    ensures FilesStay(listed, made + [call], start, call.after)
  {
    forall j | 0 <= j < |made| ensures SameFiles(listed[j].event.id, made[j].after, call.after) {
      assert SameFiles(listed[j].event.id, made[j].after, call.before);
    }
  }

  // ---------- drains that nothing disturbs ----------

  function Smaller(a: int, b: int): int {
    if a <= b then a else b
  }

  // No file step fails, the monitor answers each event that the count budget reaches with
  // success, and the answers take less than the time budget.
  ghost predicate DrainSmooth(sight: Sight, fates: map<string, CallFate>, limits: Limits, p: State) {
    var n := Smaller(|Deliverable(p.pending, p.deadLetter, sight)|, limits.maxDrainEvents);
    && p.faultless && limits.Valid()
    && Answering(p.fates, fates, n) && Span(p.fates, n) < limits.maxDrainSeconds
  }

  // Then the first of the list are delivered, and the rest is what is left to deliver.
  ghost predicate DrainDelivers(sight: Sight, run: Run, n: nat) {
    && n <= |run.listed|
    && run.after.faultless && run.after.fates == FatesFrom(run.before.fates, n)
    && run.after.deadLetter == run.before.deadLetter
    && (forall id :: id in run.after.pending ==>
                       id in run.before.pending && run.after.pending[id] == run.before.pending[id])
    && (forall j :: 0 <= j < n ==>
                      run.listed[j].event.id in run.after.confirmed && run.listed[j].event.id !in run.after.pending)
    && Deliverable(run.after.pending, run.after.deadLetter, sight) == Names(run.listed[n..])
    && run.before.confirmed <= run.after.confirmed
  }

  lemma SmoothDrainDelivers(sight: Sight, fates: map<string, CallFate>, limits: Limits, run: Run)
    requires Ran(sight, fates, limits, run) && DrainSmooth(sight, fates, limits, run.before)
    ensures Names(run.listed) == Deliverable(run.before.pending, run.before.deadLetter, sight)
    ensures |run.listed| == |Names(run.listed)|
    ensures DrainDelivers(sight, run, Smaller(|run.listed|, limits.maxDrainEvents))
  {
    SmoothDrainCompletes(sight, fates, limits, run);
    var n := |run.made|;
    SmoothCallsComplete(sight, fates, limits, run);
    DrainComesTo(sight, fates, limits, run);
    forall j | 0 <= j < n ensures run.listed[j].event.id !in run.after.pending {
      assert Settled(run.made[j].verdict, run.listed[j], run.after.pending, run.after.deadLetter, run.after.removed,
                     run.before.filesVanish);
    }
    RestDeliverable(sight, run, n);
  }

  lemma SmoothDrainCompletes(sight: Sight, fates: map<string, CallFate>, limits: Limits, run: Run)
    requires Ran(sight, fates, limits, run) && DrainSmooth(sight, fates, limits, run.before)
    ensures Names(run.listed) == Deliverable(run.before.pending, run.before.deadLetter, sight)
    ensures |run.listed| == |Names(run.listed)| && |run.made| == Smaller(|run.listed|, limits.maxDrainEvents)
    ensures Answering(run.start.fates, fates, |run.made|) && Span(run.start.fates, |run.made|) < limits.maxDrainSeconds
  {
    CountNames(run.listed);
    assert run.made == [] ==> !run.Stopped();
    assert Names(run.listed) == Deliverable(run.before.pending, run.before.deadLetter, sight);
    SpanGrows(run.start.fates, |run.made|, Smaller(|run.listed|, limits.maxDrainEvents));
    SmoothCallsComplete(sight, fates, limits, run);
  }

  lemma SmoothCallsComplete(sight: Sight, fates: map<string, CallFate>, limits: Limits, run: Run)
    requires Ran(sight, fates, limits, run) && run.before.faultless
    requires Answering(run.start.fates, fates, |run.made|) && Span(run.start.fates, |run.made|) < limits.maxDrainSeconds
    ensures run.ending == Completed && run.Elapsed() < limits.maxDrainSeconds
    ensures AllDelivered(run.listed, run.made, run.start, run.after)
  {
    SmoothCallsDeliver(run.listed, run.made, fates, run.start, limits.maxDrainSeconds, run.after);
    NoneStops(run.listed, run.made, run.start, run.after);
    DrainReports(sight, fates, limits, run);
  }

  lemma NoneStops(listed: seq<Envelope>, made: seq<Call>, start: State, now: State)
    requires AllDelivered(listed, made, start, now)
    ensures Uncaught !in Verdicts(made) && ProcessStopped !in Verdicts(made)
  {
    assert forall i :: 0 <= i < |made| ==> Verdicts(made)[i] == WasDelivered;
  }

  lemma RestDeliverable(sight: Sight, run: Run, n: nat)
    requires n <= |run.listed| && NoRepeats(run.listed)
    requires Names(run.listed) == Deliverable(run.before.pending, run.before.deadLetter, sight)
    requires run.after.deadLetter == run.before.deadLetter
    requires forall id :: id in run.after.pending ==>
                            id in run.before.pending && run.after.pending[id] == run.before.pending[id]
    requires StillListed(run.listed, n, run.after.pending)
    requires forall j :: 0 <= j < n ==> run.listed[j].event.id !in run.after.pending
    ensures Deliverable(run.after.pending, run.after.deadLetter, sight) == Names(run.listed[n..])
  {
    var now := Deliverable(run.after.pending, run.after.deadLetter, sight);
    var was := Deliverable(run.before.pending, run.before.deadLetter, sight);
    forall id | id in now ensures id in Names(run.listed[n..]) {
      assert id in was;
      var x :| x in run.listed && x.event.id == id;
      var j :| 0 <= j < |run.listed| && run.listed[j] == x;
      assert run.listed[n..][j - n] == x;
    }
    forall id | id in Names(run.listed[n..]) ensures id in now {
      var x :| x in run.listed[n..] && x.event.id == id;
      var j :| 0 <= j < |run.listed[n..]| && run.listed[n..][j] == x;
      assert run.listed[n + j] == x && IsFileOf(run.after.pending, x);
      assert id in was;
    }
  }

  // ---------- a series of such drains ----------

  // Drains with nothing but time between them.
  ghost predicate Successive(runs: seq<Run>, sight: Sight, fates: map<string, CallFate>, limits: Limits) {
    && runs != []
    && (forall i :: 0 <= i < |runs| ==> Ran(sight, fates, limits, runs[i]))
    && forall i, j :: 0 <= i < |runs| && 0 <= j < |runs| && j == i + 1 ==> Resumes(runs[i], runs[j])
  }

  predicate Resumes(run: Run, next: Run) {
    next.before == run.after.(now := next.before.now, actions := next.before.actions)
  }

  // The time that the next batch may take.
  function SpanOf(fates: seq<Fate>, left: nat, limits: Limits): real
    requires limits.Valid()
  {
    Span(fates, Smaller(left, limits.maxDrainEvents))
  }

  // No file step fails, and the monitor answers every deliverable event with success, and each
  // batch of them within the time budget.
  ghost predicate AnswersAll(sight: Sight, fates: map<string, CallFate>, limits: Limits, p: State) {
    var n := |Deliverable(p.pending, p.deadLetter, sight)|;
    && p.faultless && limits.Valid() && Answering(p.fates, fates, n)
    && forall done: nat :: done <= n ==>
                             SpanOf(FatesFrom(p.fates, done), n - done, limits) < limits.maxDrainSeconds
  }

  function Done(i: nat, batch: nat, total: nat): (done: nat)
    ensures done <= total
  {
    if i == 0 then 0 else Smaller(Done(i - 1, batch, total) + batch, total)
  }

  lemma {:induction false} DoneIsMany(i: nat, batch: nat, total: nat)
    ensures Done(i, batch, total) == Smaller(i * batch, total)
  {
    if i > 0 {
      DoneIsMany(i - 1, batch, total);
      assert i * batch == (i - 1) * batch + batch;
    }
  }

  // What holds once the first so many of a list are delivered.
  ghost predicate DeliveredUpTo(listed: seq<Envelope>, done: nat, first: State, p: State) {
    && done <= |listed|
    && p.faultless && p.fates == FatesFrom(first.fates, done) && p.deadLetter == first.deadLetter
    && (forall id :: id in p.pending ==> id in first.pending && p.pending[id] == first.pending[id])
    && forall j :: 0 <= j < done ==> listed[j].event.id in p.confirmed && listed[j].event.id !in p.pending
  }

  // A drain of the series begins with the first so many delivered, and lists the rest.
  ghost predicate GoesOn(
    listed: seq<Envelope>, done: nat, sight: Sight, fates: map<string, CallFate>, limits: Limits, first: State,
    run: Run) {
    && DeliveredUpTo(listed, done, first, run.before)
    && DrainSmooth(sight, fates, limits, run.before)
    && run.listed == listed[done..]
  }

  ghost predicate FirstList(listed: seq<Envelope>, sight: Sight, first: State) {
    && Sorted(listed) && NoRepeats(listed) && StillListed(listed, 0, first.pending)
    && Names(listed) == Deliverable(first.pending, first.deadLetter, sight) && |listed| == |Names(listed)|
  }

  lemma FirstGoesOn(sight: Sight, fates: map<string, CallFate>, limits: Limits, run: Run)
    requires Ran(sight, fates, limits, run) && AnswersAll(sight, fates, limits, run.before)
    ensures FirstList(run.listed, sight, run.before) && GoesOn(run.listed, 0, sight, fates, limits, run.before, run)
  {
    FirstIsSmooth(sight, fates, limits, run.before);
    SmoothDrainCompletes(sight, fates, limits, run);
    RunLists(sight, fates, limits, run);
    assert run.listed[0..] == run.listed;
  }

  lemma FirstIsSmooth(sight: Sight, fates: map<string, CallFate>, limits: Limits, p: State)
    requires AnswersAll(sight, fates, limits, p)
    ensures DrainSmooth(sight, fates, limits, p) && FatesFrom(p.fates, 0) == p.fates
  {
    var n := |Deliverable(p.pending, p.deadLetter, sight)|;
    assert FatesFrom(p.fates, 0) == p.fates;
    assert SpanOf(FatesFrom(p.fates, 0), n - 0, limits) < limits.maxDrainSeconds;
  }

  lemma NextGoesOn(
    listed: seq<Envelope>, had: nat, done: nat, sight: Sight, fates: map<string, CallFate>, limits: Limits,
    first: State, run: Run,
    next: Run)
    requires limits.Valid() && done == Smaller(had + limits.maxDrainEvents, |listed|)
    requires FirstList(listed, sight, first) && AnswersAll(sight, fates, limits, first)
    requires GoesOn(listed, had, sight, fates, limits, first, run)
    requires Ran(sight, fates, limits, run) && Ran(sight, fates, limits, next)
    requires Resumes(run, next)
    ensures GoesOn(listed, done, sight, fates, limits, first, next)
  {
    SmoothDrainDelivers(sight, fates, limits, run);
    BatchDelivered(listed, had, done, sight, limits, first, run);
    StillSmooth(listed, done, sight, fates, limits, first, next.before);
    ListsRest(listed, done, sight, fates, limits, first, next);
  }

  lemma ListsRest(
    listed: seq<Envelope>, done: nat, sight: Sight, fates: map<string, CallFate>, limits: Limits, first: State,
    run: Run)
    requires FirstList(listed, sight, first) && DeliveredUpTo(listed, done, first, run.before)
    requires Ran(sight, fates, limits, run) && DrainSmooth(sight, fates, limits, run.before)
    requires Deliverable(run.before.pending, run.before.deadLetter, sight) == Names(listed[done..])
    ensures run.listed == listed[done..]
  {
    SmoothDrainCompletes(sight, fates, limits, run);
    SameList(listed, done, first.pending, run.listed, run.start.pending);
  }

  // What holds at first and goes on from each to the next holds at last.
  lemma {:induction false} AlongSeries<T>(runs: seq<T>, follows: (T, T) -> bool, holds: (nat, T) -> bool)
    requires runs != [] && holds(0, runs[0])
    requires forall i :: 0 < i < |runs| ==> follows(runs[i - 1], runs[i])
    requires forall i: nat, r, r' :: holds(i, r) && follows(r, r') ==> holds(i + 1, r')
    ensures holds(|runs| - 1, runs[|runs| - 1])
  {
    var n := |runs| - 1;
    if n > 0 {
      AlongSeries(runs[..n], follows, holds);
      assert follows(runs[n - 1], runs[n]);
    }
  }

  ghost function FollowsIn(sight: Sight, fates: map<string, CallFate>, limits: Limits): (Run, Run) -> bool {
    (run: Run, next: Run) => Resumes(run, next) && Ran(sight, fates, limits, next)
  }

  ghost function HoldsIn(
    sight: Sight, fates: map<string, CallFate>, limits: Limits, first: State, listed: seq<Envelope>): (nat, Run) -> bool
    requires limits.Valid()
  {
    (i: nat, run: Run) =>
      && Ran(sight, fates, limits, run)
      && GoesOn(listed, Done(i, limits.maxDrainEvents, |listed|), sight, fates, limits, first, run)
  }

  lemma NextHolds(
    sight: Sight, fates: map<string, CallFate>, limits: Limits, first: State, listed: seq<Envelope>, i: nat,
    run: Run, next: Run)
    requires FirstList(listed, sight, first) && AnswersAll(sight, fates, limits, first)
    requires HoldsIn(sight, fates, limits, first, listed)(i, run) && FollowsIn(sight, fates, limits)(run, next)
    ensures HoldsIn(sight, fates, limits, first, listed)(i + 1, next)
  {
    NextGoesOn(listed, Done(i, limits.maxDrainEvents, |listed|), Done(i + 1, limits.maxDrainEvents, |listed|),
               sight, fates, limits, first, run, next);
  }

  lemma FirstHolds(sight: Sight, fates: map<string, CallFate>, limits: Limits, run: Run)
    requires Ran(sight, fates, limits, run) && AnswersAll(sight, fates, limits, run.before)
    ensures FirstList(run.listed, sight, run.before) && HoldsIn(sight, fates, limits, run.before, run.listed)(0, run)
  {
    FirstGoesOn(sight, fates, limits, run);
  }

  lemma SeriesFollows(runs: seq<Run>, sight: Sight, fates: map<string, CallFate>, limits: Limits)
    requires Successive(runs, sight, fates, limits)
    ensures Ran(sight, fates, limits, runs[0])
    ensures forall i :: 0 < i < |runs| ==> FollowsIn(sight, fates, limits)(runs[i - 1], runs[i])
  {
    forall i | 0 < i < |runs| ensures FollowsIn(sight, fates, limits)(runs[i - 1], runs[i]) {
      assert Resumes(runs[i - 1], runs[i]) && Ran(sight, fates, limits, runs[i]);
    }
  }

  // Each drain of the series goes on in the order of the first one's list, where the last left off.
  lemma SmoothDrainsGoOn(
    runs: seq<Run>, sight: Sight, fates: map<string, CallFate>, limits: Limits, first: State, listed: seq<Envelope>)
    requires Successive(runs, sight, fates, limits) && AnswersAll(sight, fates, limits, first)
    requires first == runs[0].before && listed == runs[0].listed
    ensures FirstList(listed, sight, first)
    ensures HoldsIn(sight, fates, limits, first, listed)(|runs| - 1, runs[|runs| - 1])
  {
    var follows, holds := FollowsIn(sight, fates, limits), HoldsIn(sight, fates, limits, first, listed);
    SeriesFollows(runs, sight, fates, limits);
    FirstHolds(sight, fates, limits, runs[0]);
    forall i: nat, run, next | holds(i, run) && follows(run, next) ensures holds(i + 1, next) {
      NextHolds(sight, fates, limits, first, listed, i, run, next);
    }
    AlongSeries(runs, follows, holds);
  }

  ghost predicate DeliversUpTo(listed: seq<Envelope>, done: nat, sight: Sight, first: State, p: State) {
    && DeliveredUpTo(listed, done, first, p)
    && Deliverable(p.pending, p.deadLetter, sight) == Names(listed[done..])
  }

  // One drain delivers the next batch.
  lemma BatchDelivered(listed: seq<Envelope>, had: nat, done: nat, sight: Sight, limits: Limits, first: State, run: Run)
    requires limits.Valid() && DeliveredUpTo(listed, had, first, run.before) && run.listed == listed[had..]
    requires DrainDelivers(sight, run, Smaller(|run.listed|, limits.maxDrainEvents))
    requires done == Smaller(had + limits.maxDrainEvents, |listed|)
    ensures DeliversUpTo(listed, done, sight, first, run.after)
  {
    var n := Smaller(|run.listed|, limits.maxDrainEvents);
    FatesAddUp(first.fates, had, n);
    assert listed[had..][n..] == listed[had + n..];
    forall j | 0 <= j < had + n
      ensures listed[j].event.id in run.after.confirmed && listed[j].event.id !in run.after.pending
    {
      if j >= had {
        assert run.listed[j - had] == listed[j];
      }
    }
  }

  lemma FatesAddUp(fates: seq<Fate>, n: nat, m: nat)
    ensures FatesFrom(FatesFrom(fates, n), m) == FatesFrom(fates, n + m)
    ensures forall k: nat :: ReplyAt(FatesFrom(fates, n), k) == ReplyAt(fates, n + k)
  {
  }

  lemma StillSmooth(
    listed: seq<Envelope>, done: nat, sight: Sight, fates: map<string, CallFate>, limits: Limits, first: State,
    p: State)
    requires AnswersAll(sight, fates, limits, first) && DeliveredUpTo(listed, done, first, p) && NoRepeats(listed)
    requires |listed| == |Deliverable(first.pending, first.deadLetter, sight)|
    requires Deliverable(p.pending, p.deadLetter, sight) == Names(listed[done..])
    ensures DrainSmooth(sight, fates, limits, p)
  {
    CountNames(listed[done..]);
    FatesAddUp(first.fates, done, 0);
    forall k: nat | k < |listed| - done ensures Success(ReplyAt(p.fates, k)) {
      assert Success(ReplyAt(first.fates, done + k));
    }
  }

  // Sorting gives the rest of the list back.
  lemma SameList(listed: seq<Envelope>, done: nat, pending: Directory, rest: seq<Envelope>, now: Directory)
    requires done <= |listed| && Sorted(listed) && NoRepeats(listed) && StillListed(listed, 0, pending)
    requires Sorted(rest) && NoRepeats(rest) && StillListed(rest, 0, now)
    requires forall id :: id in now ==> id in pending && now[id] == pending[id]
    requires Names(rest) == Names(listed[done..])
    ensures rest == listed[done..]
  {
    forall j | 0 <= j < |rest| ensures IsFileOf(pending, rest[j]) {
      assert IsFileOf(now, rest[j]);
    }
    var tail := listed[done..];
    forall j | 0 <= j < |tail| ensures IsFileOf(pending, tail[j]) {
      assert tail[j] == listed[done + j];
    }
    SortedIsUnique(rest, tail, pending);
  }

  // The files of a directory, sorted.
  ghost predicate SortedFiles(s: seq<Envelope>, pending: Directory) {
    Sorted(s) && NoRepeats(s) && StillListed(s, 0, pending)
  }

  lemma TailOfSorted(s: seq<Envelope>, pending: Directory)
    requires SortedFiles(s, pending) && s != []
    ensures SortedFiles(s[1..], pending) && Names(s[1..]) == Names(s) - {s[0].event.id} && s == [s[0]] + s[1..]
  {
    var tail := s[1..];
    assert s == [s[0]] + tail;
    NamesOfFirst(s[0], tail);
    forall j | 0 <= j < |tail| ensures IsFileOf(pending, tail[j]) {
      assert IsFileOf(pending, s[j + 1]);
    }
  }

  lemma {:induction false} SortedIsUnique(s: seq<Envelope>, t: seq<Envelope>, pending: Directory)
    requires SortedFiles(s, pending) && SortedFiles(t, pending) && Names(s) == Names(t)
    ensures s == t
  {
    CountNames(s);
    CountNames(t);
    if s != [] {
      FirstIsFirst(s, t, pending);
      TailOfSorted(s, pending);
      TailOfSorted(t, pending);
      SortedIsUnique(s[1..], t[1..], pending);
    }
  }

  // Where the k-th envelope of s stands in t.
  lemma FileAt(s: seq<Envelope>, t: seq<Envelope>, k: nat, pending: Directory) returns (i: nat)
    requires k < |s| && StillListed(s, 0, pending) && StillListed(t, 0, pending) && Names(s) == Names(t)
    ensures i < |t| && t[i] == s[k]
  {
    assert s[k].event.id in Names(s);
    var x :| x in t && x.event.id == s[k].event.id;
    i :| 0 <= i < |t| && t[i] == x;
    assert IsFileOf(pending, s[k]) && IsFileOf(pending, t[i]);
  }

  lemma FirstIsFirst(s: seq<Envelope>, t: seq<Envelope>, pending: Directory)
    requires SortedFiles(s, pending) && SortedFiles(t, pending) && Names(s) == Names(t) && s != [] && t != []
    ensures s[0] == t[0]
  {
    var i := FileAt(s, t, 0, pending);
    var j := FileAt(t, s, 0, pending);
    if i > 0 && j > 0 {
      assert Before(t[0], t[i]) && Before(s[0], s[j]);
      StringLeTotal(s[0].queuedAt, t[0].queuedAt);
      StringLeTotal(s[0].event.id, t[0].event.id);
    }
  }

  // So as many drains as it takes empty the list, in its order: after each, the events up to
  // there are confirmed and off the pending directory, and the others are what is deliverable.
  lemma SmoothDrainsDeliver(
    runs: seq<Run>, sight: Sight, fates: map<string, CallFate>, limits: Limits, first: State, listed: seq<Envelope>,
    done: nat,
    last: Run)
    requires Successive(runs, sight, fates, limits) && AnswersAll(sight, fates, limits, first)
    requires first == runs[0].before && listed == runs[0].listed && last == runs[|runs| - 1]
    requires done == Done(|runs|, limits.maxDrainEvents, |listed|)
    ensures FirstList(listed, sight, first) && DeliversUpTo(listed, done, sight, first, last.after)
  {
    var had := Done(|runs| - 1, limits.maxDrainEvents, |listed|);
    SmoothDrainsGoOn(runs, sight, fates, limits, first, listed);
    LastDelivers(listed, had, done, sight, fates, limits, first, last);
  }

  lemma LastDelivers(
    listed: seq<Envelope>, had: nat, done: nat, sight: Sight, fates: map<string, CallFate>, limits: Limits,
    first: State, run: Run)
    requires GoesOn(listed, had, sight, fates, limits, first, run) && Ran(sight, fates, limits, run)
    requires done == Smaller(had + limits.maxDrainEvents, |listed|)
    ensures DeliversUpTo(listed, done, sight, first, run.after)
  {
    SmoothDrainDelivers(sight, fates, limits, run);
    BatchDelivered(listed, had, done, sight, limits, first, run);
  }

  // That is, the first |runs| * maxDrainEvents of them, and all when there are no more.
  lemma SmoothDrainsEmpty(runs: seq<Run>, sight: Sight, fates: map<string, CallFate>, limits: Limits)
    requires Successive(runs, sight, fates, limits) && AnswersAll(sight, fates, limits, runs[0].before)
    requires |runs[0].listed| <= |runs| * limits.maxDrainEvents
    ensures var listed, last := runs[0].listed, runs[|runs| - 1].after;
            && Names(listed) == Deliverable(runs[0].before.pending, runs[0].before.deadLetter, sight)
            && (forall x :: x in listed ==> x.event.id in last.confirmed && x.event.id !in last.pending)
            && Deliverable(last.pending, last.deadLetter, sight) == {}
  {
    var first, listed, last := runs[0].before, runs[0].listed, runs[|runs| - 1];
    var done := Done(|runs|, limits.maxDrainEvents, |listed|);
    SmoothDrainsDeliver(runs, sight, fates, limits, first, listed, done, last);
    DoneIsMany(|runs|, limits.maxDrainEvents, |listed|);
    assert listed[|listed|..] == [];
  }

  // So every id that was deliverable is confirmed in the end.
  lemma SmoothDrainsConfirm(
    runs: seq<Run>, sight: Sight, fates: map<string, CallFate>, limits: Limits, last: State, id: string)
    requires Successive(runs, sight, fates, limits) && AnswersAll(sight, fates, limits, runs[0].before)
    requires last == runs[|runs| - 1].after
    requires |Deliverable(runs[0].before.pending, runs[0].before.deadLetter, sight)| <= |runs| * limits.maxDrainEvents
    ensures Deliverable(last.pending, last.deadLetter, sight) == {}
    ensures id in Deliverable(runs[0].before.pending, runs[0].before.deadLetter, sight) ==>
              id !in last.pending && id in last.confirmed
  {
    FirstHolds(sight, fates, limits, runs[0]);
    SmoothDrainsEmpty(runs, sight, fates, limits);
  }
}
