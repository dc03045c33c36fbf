// Installing a release: stage, switch, check, and roll back whatever fails.
module Deploy {
  import opened Options
  import opened Releases

  // What a probe or a service command answers; an exception counts as a failure, and the
  // process may also end in the middle of it.
  datatype Answer = Passes | Fails | Halts

  // While a check runs, somebody may prune release directories.
  datatype Check = Check(name: string, answer: Answer, pruned: set<string>)

  datatype Service = Service(stop: Answer, start: Answer)

  datatype DeployResult =
    | Returned(success: bool, rolledBack: bool, restored: Option<string>, reason: string)
    | Escaped(error: Error)
    | Halted

  function Refused(restored: Option<string>, reason: string): DeployResult {
    Returned(false, false, restored, reason)
  }

  function RolledBack(restored: Option<string>, reason: string): DeployResult {
    Returned(false, true, restored, reason)
  }

  function Interruption(outcome: Outcome): DeployResult
    requires outcome != Done
  {
    if outcome == Stopped then Halted else Escaped(outcome.error)
  }

  // What is pruned by the end of the first check that does not pass.
  function Pruned(checks: seq<Check>): set<string> {
    if checks == [] then {}
    else if checks[0].answer != Passes then checks[0].pruned
    else checks[0].pruned + Pruned(checks[1..])
  }

  // The first answer that is not a pass.
  function ChecksAnswer(checks: seq<Check>): Answer {
    if checks == [] then Passes
    else if checks[0].answer != Passes then checks[0].answer
    else ChecksAnswer(checks[1..])
  }

  // What is said of the first failing check.
  function Complaint(checks: seq<Check>): string {
    if checks == [] then ""
    else if checks[0].answer != Passes then checks[0].name + "_failed"
    else Complaint(checks[1..])
  }

  // What is found once the new release is active.
  function Aftermath(checks: seq<Check>, service: Option<Service>): Answer {
    if ChecksAnswer(checks) != Passes || service == None then ChecksAnswer(checks) else service.value.start
  }

  // The first failing check decides, and the service's start only if there is none.
  ghost predicate AllPass(checks: seq<Check>) {
    forall i :: 0 <= i < |checks| ==> checks[i].answer == Passes
  }

  ghost predicate FailsFirst(checks: seq<Check>, i: nat) {
    i < |checks| && checks[i].answer == Fails && forall j :: 0 <= j < i ==> checks[j].answer == Passes
  }

  lemma {:induction false} ChecksAnswerMeans(checks: seq<Check>)
    ensures ChecksAnswer(checks) == Passes <==> AllPass(checks)
    ensures ChecksAnswer(checks) == Fails <==> exists i: nat :: FailsFirst(checks, i)
    ensures forall i: nat :: FailsFirst(checks, i) ==> Complaint(checks) == checks[i].name + "_failed"
  {
    if checks != [] && checks[0].answer == Passes {
      var rest := checks[1..];
      ChecksAnswerMeans(rest);
      forall i: nat ensures FailsFirst(rest, i) <==> FailsFirst(checks, i + 1) {
        if FailsFirst(rest, i) {
          forall j | 0 <= j < i + 1 ensures checks[j].answer == Passes {
            assert j > 0 ==> rest[j - 1] == checks[j];
          }
        }
        if FailsFirst(checks, i + 1) {
          forall j | 0 <= j < i ensures rest[j].answer == Passes {
            assert rest[j] == checks[j + 1];
          }
        }
      }
      assert AllPass(checks) <==> AllPass(rest) by {
        if AllPass(rest) {
          forall j | 0 <= j < |checks| ensures checks[j].answer == Passes {
            assert j > 0 ==> rest[j - 1] == checks[j];
          }
        }
      }
      if i: nat :| FailsFirst(checks, i) {
        assert i > 0 && FailsFirst(rest, i - 1);
      }
    } else if checks != [] {
      assert checks[0].answer == Fails ==> FailsFirst(checks, 0);
    }
  }

  lemma AftermathMeans(checks: seq<Check>, service: Option<Service>)
    ensures Aftermath(checks, service) == Passes <==>
            AllPass(checks) && (service.Some? ==> service.value.start == Passes)
    ensures Aftermath(checks, service) == Fails <==>
            || (exists i: nat :: FailsFirst(checks, i))
            || (AllPass(checks) && service.Some? && service.value.start == Fails)
  {
    ChecksAnswerMeans(checks);
  }

  // ---------- rolling back ----------

  // Where a rollback points: at the previous revision, or nowhere when it has no directory.
  function Target(previous: Option<string>, releases: map<string, Tree>): Option<string> {
    if previous.Some? && previous.value in releases then previous else None
  }

  // Whether a rollback moves the pointer: the previous revision must be a valid one, and the
  // file operations must get as far as the replacement or the removal.
  predicate RollsBack(previous: Option<string>, releases: map<string, Tree>, faults: seq<Fault>) {
    if previous.Some? && !ValidRevision(previous.value) then false
    else if Target(previous, releases).Some? then Switches(previous.value, releases, faults)
    else Clears(faults)
  }

  function RollbackOutcome(previous: Option<string>, releases: map<string, Tree>, faults: seq<Fault>): Outcome {
    if previous.Some? && !ValidRevision(previous.value) then Raised(InvalidRevision)
    else if Target(previous, releases).Some? then
      Sooner(OutcomeOf(At(faults, 0)), Sooner(OutcomeOf(At(faults, 1)), OutcomeOf(At(faults, 2))))
    else if Clears(faults) && At(faults, 0) != StopAfter then Done
    else OutcomeOf(At(faults, 0))
  }

  // A rollback that is not done interrupts the deployment.
  predicate Rolled(result: DeployResult, outcome: Outcome) {
    if outcome == Done then result.Returned? && !result.success else result == Interruption(outcome)
  }

  // A failed deployment that returns leaves the pointer on the previous revision, or, when
  // its directory is gone, on none; the result says which.
  ghost predicate FailedSafely(
    result: DeployResult, before: Option<string>, pointer: Option<string>, releases: map<string, Tree>) {
    && result.Returned? && !result.success
    && Current(pointer) == result.restored
    && (result.restored == Current(before)
        || (result.restored == None && result.reason == "rollback_target_missing"
            && Current(before).value !in releases))
  }

  method FailureReason(error: Error) returns (reason: string)
    ensures reason != "rollback_target_missing"
    ensures error == FileNotFound ==> reason == "source_unavailable"
    ensures error == OsError ==> reason == "install_root_unwritable"
    ensures error != FileNotFound && error != OsError ==> reason == "deployment_failed"
  {
    match error {
      case FileNotFound => return "source_unavailable";
      case OsError => return "install_root_unwritable";
      case _ => return "deployment_failed";
    }
  }

  // After a failed check: back to the previous release, or to none without one.
  method RollbackAfterFailure(layout: ReleaseLayout, previous: Option<string>, reason: string)
    returns (result: DeployResult)
    requires reason != "rollback_target_missing" && (previous.Some? ==> Current(previous) == previous)
    modifies layout`pointer, layout`faults
    ensures var undone := RollsBack(previous, layout.releases, old(layout.faults));
            layout.pointer == if undone then Target(previous, layout.releases) else old(layout.pointer)
    ensures result.Returned? ==> FailedSafely(result, previous, layout.pointer, layout.releases) && result.rolledBack
    ensures result.Returned? ==> result.reason == reason || result.reason == "rollback_target_missing"
    ensures Rolled(result, RollbackOutcome(previous, layout.releases, old(layout.faults)))
  {
    if previous == None {
      var outcome := layout.Deactivate();
      return if outcome == Done then RolledBack(None, reason) else Interruption(outcome);
    }
    if !ValidRevision(previous.value) {
      return Escaped(InvalidRevision);
    }
    if previous.value !in layout.releases {
      var outcome := layout.Deactivate();
      return if outcome == Done then RolledBack(None, "rollback_target_missing") else Interruption(outcome);
    }
    var outcome := layout.Activate(previous.value);
    result := if outcome == Done then RolledBack(previous, reason) else Interruption(outcome);
  }

  // After a failure to stage or to activate, when the pointer has not moved yet: however this
  // ends, the previous revision stays the current one.
  method UndoUnfinished(layout: ReleaseLayout, previous: Option<string>, reason: string) returns (result: DeployResult)
    requires Current(layout.pointer) == previous
    modifies layout`pointer, layout`faults
    ensures Current(layout.pointer) == previous
    ensures result.Returned? ==> result == Returned(false, previous.Some?, previous, reason)
  {
    CurrentReadsBack(layout.pointer);
    var outcome := Done;
    if previous == None {
      outcome := layout.Deactivate();
    } else if !ValidRevision(previous.value) {
      return Escaped(InvalidRevision);
    } else if previous.value in layout.releases {
      outcome := layout.Activate(previous.value);
    }
    result := if outcome == Done then Returned(false, previous.Some?, previous, reason) else Interruption(outcome);
  }

  // Runs the checks in order up to the first that does not pass.
  method RunChecks(layout: ReleaseLayout, checks: seq<Check>) returns (answer: Answer, reason: string)
    modifies layout`releases
    ensures layout.releases == old(layout.releases) - Pruned(checks)
    ensures answer == ChecksAnswer(checks)
    ensures answer == Fails ==>
              && reason == Complaint(checks)
              && exists i :: 0 <= i < |checks| && checks[i].answer == Fails && reason == checks[i].name + "_failed"
  {
    reason := "";
    var i := 0;
    ghost var before := layout.releases;
    while i < |checks|
      invariant 0 <= i <= |checks| && ChecksAnswer(checks) == ChecksAnswer(checks[i..])
      invariant Complaint(checks) == Complaint(checks[i..])
      invariant layout.releases - Pruned(checks[i..]) == before - Pruned(checks)
    {
      PruneOneMore(layout.releases, checks[i..]);
      layout.releases := layout.releases - checks[i].pruned;
      if checks[i].answer != Passes {
        return checks[i].answer, checks[i].name + "_failed";
      }
      assert checks[i..][1..] == checks[i + 1..];
      i := i + 1;
    }
    answer := Passes;
  }

  lemma PruneOneMore(releases: map<string, Tree>, checks: seq<Check>)
    requires checks != []
    ensures checks[0].answer != Passes ==> releases - checks[0].pruned == releases - Pruned(checks)
    ensures checks[0].answer == Passes ==>
              releases - checks[0].pruned - Pruned(checks[1..]) == releases - Pruned(checks)
  {
  }

  lemma SuffixedDiffers(name: string, suffix: string, other: string)
    requires |suffix| > 0 && |other| > 0 && suffix[|suffix| - 1] != other[|other| - 1]
    ensures name + suffix != other
  {
    assert (name + suffix)[|name + suffix| - 1] == suffix[|suffix| - 1];
  }

  lemma SuffixedNames(checks: seq<Check>)
    ensures forall i :: 0 <= i < |checks| ==> checks[i].name + "_failed" != "rollback_target_missing"
  {
    forall i | 0 <= i < |checks| ensures checks[i].name + "_failed" != "rollback_target_missing" {
      SuffixedDiffers(checks[i].name, "_failed", "rollback_target_missing");
    }
  }

  // ---------- one deployment ----------

  datatype Moment = Moment(pointer: Option<string>, releases: map<string, Tree>)

  // What a deployment is given, and what it will meet with.
  datatype Order = Order(
    revision: string, processId: string, source: Option<Tree>, preflightFailures: seq<string>,
    preflightPassed: bool, checks: seq<Check>, service: Option<Service>, faults: seq<Fault>)

  // One deployment, however it ended.
  datatype Attempt = Attempt(order: Order, before: Moment, after: Moment, result: DeployResult)
  {
    function Touched(): set<string> {
      {order.revision, Staging(order.revision, order.processId)} + Pruned(order.checks)
    }

    // Whether it moves the pointer to its revision, and whether it then moves it back.
    ghost predicate Switched() {
      WillSwitch(order, before)
    }

    ghost predicate Undone() {
      WillUndo(order, before)
    }
  }

  // A deployment moves the pointer when its revision is valid, the preflight passed, the service
  // stopped, there is a source, and no operation fails up to the replacement.
  ghost predicate WillSwitch(order: Order, before: Moment) {
    var steps := Steps(order.revision, order.processId, before.releases);
    && ValidRevision(order.revision) && order.preflightPassed
    && (order.service.Some? ==> order.service.value.stop == Passes) && order.source.Some?
    && Smooth(order.faults, steps + 2) && At(order.faults, steps + 2) in {NoFault, StopAfter}
  }

  // It gets to a conclusion when the process survives the replacement.
  ghost predicate WillConclude(order: Order, before: Moment) {
    WillSwitch(order, before)
    && At(order.faults, Steps(order.revision, order.processId, before.releases) + 2) == NoFault
  }

  // The faults that are then left, and the releases that the checks leave.
  function FaultsLeft(order: Order, before: Moment): seq<Fault> {
    From(order.faults, Steps(order.revision, order.processId, before.releases) + 3)
  }

  function Remaining(order: Order, before: Moment): map<string, Tree> {
    WithTree(before.releases, order.revision, order.source) - Pruned(order.checks)
  }

  // It moves the pointer back when a check or the start fails, and the rollback does not.
  ghost predicate WillUndo(order: Order, before: Moment) {
    && WillConclude(order, before) && Aftermath(order.checks, order.service) == Fails
    && RollsBack(Current(before.pointer), Remaining(order, before), FaultsLeft(order, before))
  }

  // A failed preflight or a service that does not stop ends a deployment before it begins.
  predicate TurnsBack(order: Order, before: Moment, result: DeployResult) {
    if !order.preflightPassed then
      result == Returned(false, false, Current(before.pointer),
                         if order.preflightFailures != [] then order.preflightFailures[0] else "preflight_failed")
    else if order.service.Some? && order.service.value.stop == Fails then
      result == Returned(false, false, Current(before.pointer), "service_stop_failed")
    else order.service.Some? && order.service.value.stop == Halts ==> result == Halted
  }

  ghost predicate Lawful(a: Attempt) {
    && OnlyTouches(a.before.releases, a.after.releases, a.Touched())
    // the pointer
    && (!a.Switched() ==> Current(a.after.pointer) == Current(a.before.pointer))
    && (a.Switched() && !a.Undone() ==> a.after.pointer == Some(a.order.revision))
    && (a.Undone() ==> a.after.pointer == Target(Current(a.before.pointer), Remaining(a.order, a.before)))
    // the result
    && (a.result.Returned? && a.result.success ==> a.result == Returned(true, false, None, ""))
    && (a.result.Returned? && a.result.success <==>
        WillConclude(a.order, a.before) && Aftermath(a.order.checks, a.order.service) == Passes)
    && (a.result.Returned? && !a.result.success ==>
          && (a.Switched() ==> a.Undone())
          && FailedSafely(a.result, a.before.pointer, a.after.pointer, a.after.releases))
    && (WillConclude(a.order, a.before) && Aftermath(a.order.checks, a.order.service) == Fails ==>
          Rolled(a.result,
                 RollbackOutcome(Current(a.before.pointer), Remaining(a.order, a.before),
                                 FaultsLeft(a.order, a.before))))
    && (a.result.Escaped? ==> !a.Undone())
    // the reason
    && (ValidRevision(a.order.revision) ==> TurnsBack(a.order, a.before, a.result))
    && (WillConclude(a.order, a.before) && a.result.Returned? && !a.result.success
        && a.result.reason != "rollback_target_missing" ==>
          a.result.reason == if ChecksAnswer(a.order.checks) == Fails then Complaint(a.order.checks)
          else "service_start_failed")
    && (!ValidRevision(a.order.revision) ==>
          a.result == Escaped(InvalidRevision) && a.after.pointer == a.before.pointer)
  }

  // Every normal return leaves the new revision active exactly when it reports success, and
  // otherwise the previous one, or none; no other release is touched, however it ends.
  method DeployRelease(
    layout: ReleaseLayout, revision: string, source: Option<Tree>, preflightFailures: seq<string>,
    preflightPassed: bool,
    checks: seq<Check>, service: Option<Service>)
    returns (result: DeployResult)
    modifies layout
    ensures Lawful(Attempt(
                     Order(revision, layout.processId, source, preflightFailures, preflightPassed, checks, service,
                           old(layout.faults)),
                     Moment(old(layout.pointer), old(layout.releases)), Moment(layout.pointer, layout.releases),
                     result))
  {
    if !ValidRevision(revision) {
      result := Escaped(InvalidRevision);
      return;
    }
    var previous := layout.CurrentRevision();
    CurrentReadsBack(layout.pointer);
    if !preflightPassed {
      result := Refused(previous, if preflightFailures != [] then preflightFailures[0] else "preflight_failed");
      return;
    }
    if service.Some? && service.value.stop != Passes {
      result := if service.value.stop == Halts then Halted else Refused(previous, "service_stop_failed");
      return;
    }
    ghost var order :=
      Order(revision, layout.processId, source, preflightFailures, preflightPassed, checks, service, layout.faults);
    ghost var before := Moment(layout.pointer, layout.releases);
    var outcome := StageAndActivate(layout, revision, source);
    if outcome == Stopped {
      result := Halted;
      return;
    }
    if outcome.Raised? {
      var reason := FailureReason(outcome.error);
      result := UndoUnfinished(layout, previous, reason);
      return;
    }
    SameRollback(order, before, layout.releases - Pruned(checks));
    result := Conclude(layout, previous, checks, service);
  }

  // A rollback looks for the previous revision only.
  lemma SameRollback(order: Order, before: Moment, releases: map<string, Tree>)
    requires order.source.Some? && order.revision in WithTree(before.releases, order.revision, order.source)
    requires order.revision in releases <==> order.revision !in Pruned(order.checks)
    requires OnlyTouches(before.releases - Pruned(order.checks), releases,
                         {order.revision, Staging(order.revision, order.processId)})
    ensures var previous, faults := Current(before.pointer), FaultsLeft(order, before);
            && RollsBack(previous, releases, faults) == RollsBack(previous, Remaining(order, before), faults)
            && (RollsBack(previous, releases, faults) ==>
                  Target(previous, releases) == Target(previous, Remaining(order, before)))
            && RollbackOutcome(previous, releases, faults)
               == RollbackOutcome(previous, Remaining(order, before), faults)
  {
    StagingIsNoRevision(order.revision, order.processId);
  }

  method StageAndActivate(layout: ReleaseLayout, revision: string, source: Option<Tree>) returns (outcome: Outcome)
    requires ValidRevision(revision)
    modifies layout
    ensures OnlyTouches(old(layout.releases), layout.releases, {revision, layout.StagingName(revision)})
    ensures var faults, steps := old(layout.faults), old(layout.StageSteps(revision));
            var switched := source.Some? && Smooth(faults, steps + 2) && At(faults, steps + 2) in {NoFault, StopAfter};
            && layout.pointer == (if switched then Some(revision) else old(layout.pointer))
            && (outcome == Done <==> switched && At(faults, steps + 2) == NoFault)
            && (outcome == Done ==> layout.faults == From(faults, steps + 3) && revision in layout.releases)
            && (outcome.Raised? ==> !switched)
  {
    ghost var faults, steps := layout.faults, layout.StageSteps(revision);
    SmoothParts(faults, steps, 2);
    SmoothParts(faults, steps, 3);
    FromFrom(faults, steps, 0);
    FromFrom(faults, steps, 1);
    FromFrom(faults, steps, 2);
    SmoothTwo(From(faults, steps));
    outcome := layout.StageRelease(revision, source);
    if outcome == Done {
      outcome := layout.Activate(revision);
    }
  }

  // Checks the release that has just become active, starts the service, and rolls back a failure.
  method Conclude(layout: ReleaseLayout, previous: Option<string>, checks: seq<Check>, service: Option<Service>)
    returns (result: DeployResult)
    requires previous.Some? ==> Current(previous) == previous
    modifies layout
    ensures layout.releases == old(layout.releases) - Pruned(checks)
    ensures var undone := Aftermath(checks, service) == Fails
                          && RollsBack(previous, layout.releases, old(layout.faults));
            && layout.pointer == (if undone then Target(previous, layout.releases) else old(layout.pointer))
            && (result.Returned? && !result.success ==>
                  undone && FailedSafely(result, previous, layout.pointer, layout.releases))
            && (result.Escaped? ==> !undone)
    ensures result.Returned? && result.success <==> Aftermath(checks, service) == Passes
    ensures result.Returned? && result.success ==> result == Returned(true, false, None, "")
    ensures result.Returned? && !result.success && result.reason != "rollback_target_missing" ==>
              result.reason == if ChecksAnswer(checks) == Fails then Complaint(checks) else "service_start_failed"
    ensures Aftermath(checks, service) == Fails ==>
              Rolled(result, RollbackOutcome(previous, layout.releases, old(layout.faults)))
  {
    var answer, reason := RunChecks(layout, checks);
    if answer == Fails {
      SuffixedNames(checks);
    } else if answer == Passes && service.Some? {
      answer, reason := service.value.start, "service_start_failed";
    }
    match answer {
      case Passes =>
        result := Returned(true, false, None, "");
      case Halts =>
        result := Halted;
      case Fails =>
        result := RollbackAfterFailure(layout, previous, reason);
    }
  }

  lemma SmoothTwo(faults: seq<Fault>)
    ensures Smooth(faults, 2) <==> At(faults, 0) == NoFault && At(faults, 1) == NoFault
  {
    assert Smooth(faults, 2) ==> At(faults, 0) == NoFault && At(faults, 1) == NoFault;
  }

  // ---------- one deployment of a revision that is not the active one ----------

  // However it ends, the new revision is the current one exactly when the pointer is to be moved
  // to it and not to be moved back, both of which are decided by the order and the layout it
  // finds; a result of success implies it, a failure that returns excludes it, and an escaping
  // exception or the end of the process does not; a final line feed is lost.
  lemma ActiveExactlyIfKept(a: Attempt)
    requires Lawful(a) && Current(a.before.pointer) != Some(a.order.revision)
    ensures Current(a.after.pointer) == Some(a.order.revision) <==>
            WillSwitch(a.order, a.before) && !WillUndo(a.order, a.before) && !EndsInNewline(a.order.revision)
    ensures a.result.Returned? ==> (a.Switched() && !a.Undone() <==> a.result.success)
    ensures a.result.Returned? && a.result.success ==>
              && AllPass(a.order.checks)
              && (a.order.service.Some? ==>
                    a.order.service.value.stop == Passes && a.order.service.value.start == Passes)
    ensures a.result.Returned? && !a.result.success ==>
              Current(a.after.pointer) == Current(a.before.pointer) || Current(a.after.pointer) == None
  {
    CurrentReadsBack(a.before.pointer);
    AftermathMeans(a.order.checks, a.order.service);
    if a.Switched() {
      RevisionReadsBack(a.order.revision);
    }
  }

  // ---------- a series of deployments ----------

  // The deployments run on one layout, one after the other.
  class Installer {
    const layout: ReleaseLayout
    ghost var first: Moment
    ghost var attempts: seq<Attempt>

    ghost predicate Valid()
      reads this, layout
    {
      && InSeries(first, attempts)
      && Last(first, attempts) == Moment(layout.pointer, layout.releases)
    }

    constructor (layout: ReleaseLayout)
      ensures Valid() && this.layout == layout && attempts == [] && first == Moment(layout.pointer, layout.releases)
    {
      this.layout, first, attempts := layout, Moment(layout.pointer, layout.releases), [];
    }

    // One install or update command.
    method Install(
      revision: string, source: Option<Tree>, preflightFailures: seq<string>, preflightPassed: bool, checks: seq<Check>,
      service: Option<Service>)
      returns (result: DeployResult)
      requires Valid()
      modifies this, layout
      ensures Valid() && first == old(first)
      ensures |attempts| == |old(attempts)| + 1 && attempts[..|old(attempts)|] == old(attempts)
      ensures var a := attempts[|old(attempts)|];
              && a.order == Order(revision, layout.processId, source, preflightFailures, preflightPassed, checks,
                                  service, old(layout.faults))
              && a.result == result
    {
      ghost var before := Moment(layout.pointer, layout.releases);
      ghost var order :=
        Order(revision, layout.processId, source, preflightFailures, preflightPassed, checks, service, layout.faults);
      result := DeployRelease(layout, revision, source, preflightFailures, preflightPassed, checks, service);
      SeriesOneMore(first, attempts, Attempt(order, before, Moment(layout.pointer, layout.releases), result));
      attempts := attempts + [Attempt(order, before, Moment(layout.pointer, layout.releases), result)];
    }
  }

  ghost function Last(first: Moment, attempts: seq<Attempt>): Moment {
    if attempts == [] then first else attempts[|attempts| - 1].after
  }

  ghost predicate InSeries(first: Moment, attempts: seq<Attempt>) {
    forall i {:trigger attempts[..i]} :: 0 <= i < |attempts| ==>
                                           Lawful(attempts[i]) && attempts[i].before == Last(first, attempts[..i])
  }

  lemma SeriesOneMore(first: Moment, attempts: seq<Attempt>, a: Attempt)
    requires InSeries(first, attempts) && Lawful(a) && a.before == Last(first, attempts)
    ensures InSeries(first, attempts + [a]) && Last(first, attempts + [a]) == a.after
  {
    var more := attempts + [a];
    assert more[..|attempts|] == attempts;
    forall i | 0 <= i < |attempts| ensures more[i] == attempts[i] && more[..i] == attempts[..i] {
    }
  }

  // A deployment that leaves its revision in the pointer, and one that takes this revision out.
  ghost predicate Leaves(a: Attempt, revision: string) {
    a.Switched() && !a.Undone() && Current(Some(a.order.revision)) == Some(revision)
  }

  ghost predicate TakesOut(a: Attempt, revision: string) {
    && a.Switched()
    && if a.Undone() then Target(Current(a.before.pointer), Remaining(a.order, a.before)) == None
       else Current(Some(a.order.revision)) != Some(revision)
  }

  ghost predicate NotTakenOut(attempts: seq<Attempt>, revision: string, low: nat, high: nat)
    requires high <= |attempts|
  {
    forall k :: low <= k < high ==> !TakesOut(attempts[k], revision)
  }

  ghost predicate Never(happens: nat -> bool, low: nat, high: nat) {
    forall k: nat :: low <= k < high ==> !happens(k)
  }

  // Each step makes it so, or keeps it so unless it unmakes it.
  predicate GoesAt(active: nat -> bool, leaves: nat -> bool, takesOut: nat -> bool, k: nat) {
    active(k + 1) <==> leaves(k) || (active(k) && !takesOut(k))
  }

  ghost predicate GoesBy(active: nat -> bool, leaves: nat -> bool, takesOut: nat -> bool, n: nat) {
    forall k: nat :: k < n ==> GoesAt(active, leaves, takesOut, k)
  }

  // What is not so at first is so after n steps exactly when some step made it so and none since
  // has unmade it.
  lemma {:induction false} LastWord(active: nat -> bool, leaves: nat -> bool, takesOut: nat -> bool, n: nat)
    requires !active(0)
    requires GoesBy(active, leaves, takesOut, n)
    ensures active(n) <==> exists j: nat :: j < n && leaves(j) && Never(takesOut, j + 1, n)
  {
    if n > 0 {
      var last := n - 1;
      LastWord(active, leaves, takesOut, last);
      assert GoesAt(active, leaves, takesOut, last);
      if active(last) && !takesOut(last) {
        var j: nat :| j < last && leaves(j) && Never(takesOut, j + 1, last);
        assert Never(takesOut, j + 1, n);
      }
      if leaves(last) {
        assert Never(takesOut, last + 1, n);
      }
      if j: nat :| j < last && leaves(j) && Never(takesOut, j + 1, n) {
        assert Never(takesOut, j + 1, last);
      }
    }
  }

  // A revision that was not active at first is active after n deployments exactly when one of
  // them left it in the pointer, by succeeding, by an exception out of its rollback or by the
  // end of the process, and none since has taken it out.
  lemma ActiveExactlyIfLeft(first: Moment, attempts: seq<Attempt>, revision: string, n: nat)
    requires InSeries(first, attempts) && n <= |attempts| && Current(first.pointer) != Some(revision)
    ensures Current(Last(first, attempts[..n]).pointer) == Some(revision) <==>
            exists j :: 0 <= j < n && Leaves(attempts[j], revision) && NotTakenOut(attempts, revision, j + 1, n)
  {
    StepsOfSeries(first, attempts, revision, n);
    LastWord(ActiveAt(first, attempts, revision), LeavesAt(attempts, revision), TakesOutAt(attempts, revision), n);
    LeftSomewhere(attempts, revision, n);
  }

  lemma StepsOfSeries(first: Moment, attempts: seq<Attempt>, revision: string, n: nat)
    requires InSeries(first, attempts) && n <= |attempts|
    ensures GoesBy(ActiveAt(first, attempts, revision), LeavesAt(attempts, revision), TakesOutAt(attempts, revision), n)
  {
    var active := ActiveAt(first, attempts, revision);
    var leaves, takesOut := LeavesAt(attempts, revision), TakesOutAt(attempts, revision);
    forall k: nat | k < n ensures GoesAt(active, leaves, takesOut, k) {
      StepOfSeries(first, attempts, revision, k);
    }
  }

  lemma LeftSomewhere(attempts: seq<Attempt>, revision: string, n: nat)
    requires n <= |attempts|
    ensures (exists j: nat ::
               j < n && LeavesAt(attempts, revision)(j) && Never(TakesOutAt(attempts, revision), j + 1, n))
            <==>
            exists j :: 0 <= j < n && Leaves(attempts[j], revision) && NotTakenOut(attempts, revision, j + 1, n)
  {
    var leaves, takesOut := LeavesAt(attempts, revision), TakesOutAt(attempts, revision);
    if j: nat :| j < n && leaves(j) && Never(takesOut, j + 1, n) {
      LeftAt(attempts, revision, n, j);
    }
    if j :| 0 <= j < n && Leaves(attempts[j], revision) && NotTakenOut(attempts, revision, j + 1, n) {
      LeftAt(attempts, revision, n, j);
    }
  }

  ghost function ActiveAt(first: Moment, attempts: seq<Attempt>, revision: string): nat -> bool {
    (k: nat) => k <= |attempts| && Current(Last(first, attempts[..k]).pointer) == Some(revision)
  }

  ghost function LeavesAt(attempts: seq<Attempt>, revision: string): nat -> bool {
    (k: nat) => k < |attempts| && Leaves(attempts[k], revision)
  }

  ghost function TakesOutAt(attempts: seq<Attempt>, revision: string): nat -> bool {
    (k: nat) => k < |attempts| && TakesOut(attempts[k], revision)
  }

  lemma LeftAt(attempts: seq<Attempt>, revision: string, n: nat, j: nat)
    requires j < n <= |attempts|
    ensures LeavesAt(attempts, revision)(j) <==> Leaves(attempts[j], revision)
    ensures Never(TakesOutAt(attempts, revision), j + 1, n) <==> NotTakenOut(attempts, revision, j + 1, n)
  {
    var takesOut := TakesOutAt(attempts, revision);
    if NotTakenOut(attempts, revision, j + 1, n) {
      forall k: nat | j + 1 <= k < n ensures !takesOut(k) {
        assert !TakesOut(attempts[k], revision);
      }
    }
    if Never(takesOut, j + 1, n) {
      forall k | j + 1 <= k < n ensures !TakesOut(attempts[k], revision) {
        assert !takesOut(k);
      }
    }
  }

  lemma StepOfSeries(first: Moment, attempts: seq<Attempt>, revision: string, k: nat)
    requires InSeries(first, attempts) && k < |attempts|
    ensures GoesAt(ActiveAt(first, attempts, revision), LeavesAt(attempts, revision), TakesOutAt(attempts, revision), k)
  {
    assert attempts[..k + 1][k] == attempts[k] && attempts[k].before == Last(first, attempts[..k]);
    StepLeavesOrKeeps(attempts[k], revision);
  }

  lemma StepLeavesOrKeeps(a: Attempt, revision: string)
    requires Lawful(a)
    ensures Current(a.after.pointer) == Some(revision) <==>
            Leaves(a, revision) || (Current(a.before.pointer) == Some(revision) && !TakesOut(a, revision))
  {
    CurrentReadsBack(a.before.pointer);
  }

  function Touched(attempts: seq<Attempt>): set<string> {
    if attempts == [] then {} else Touched(attempts[..|attempts| - 1]) + attempts[|attempts| - 1].Touched()
  }

  // And however they end, only the deployed revisions, their staging directories and what
  // others pruned are ever touched.
  lemma {:induction false} OtherReleasesUntouched(first: Moment, attempts: seq<Attempt>, n: nat)
    requires InSeries(first, attempts) && n <= |attempts|
    ensures OnlyTouches(first.releases, Last(first, attempts[..n]).releases, Touched(attempts[..n]))
  {
    if n > 0 {
      OtherReleasesUntouched(first, attempts, n - 1);
      assert attempts[..n][..n - 1] == attempts[..n - 1] && attempts[..n][n - 1] == attempts[n - 1];
      assert Lawful(attempts[n - 1]);
    }
  }

  lemma ReturnedFailureKeepsOrClears(a: Attempt)
    requires Lawful(a) && a.result.Returned? && !a.result.success
    ensures Current(a.after.pointer) == Current(a.before.pointer)
            || (Current(a.after.pointer) == None && Current(a.before.pointer).value !in a.after.releases)
  {
  }

  // So deployments that all return without success never make a revision active.
  lemma {:induction false} ReturnedFailuresNeverActivate(first: Moment, attempts: seq<Attempt>, n: nat)
    requires InSeries(first, attempts) && n <= |attempts|
    requires forall j :: 0 <= j < n ==> attempts[j].result.Returned? && !attempts[j].result.success
    ensures Current(Last(first, attempts[..n]).pointer) in {Current(first.pointer), None}
  {
    if n > 0 {
      ReturnedFailuresNeverActivate(first, attempts, n - 1);
      assert attempts[..n][n - 1] == attempts[n - 1];
      ReturnedFailureKeepsOrClears(attempts[n - 1]);
    }
  }

  lemma ReturnedFailureKeepsActive(a: Attempt, active: string)
    requires Lawful(a) && a.result.Returned? && !a.result.success && active !in a.Touched()
    requires Current(a.before.pointer) == Some(active) && active in a.before.releases
    ensures Current(a.after.pointer) == Some(active) && active in a.after.releases
  {
    ReturnedFailureKeepsOrClears(a);
  }

  // And what was active at first stays so, unless others have removed its directory.
  lemma {:induction false} ReturnedFailuresKeepActive(first: Moment, attempts: seq<Attempt>, active: string, n: nat)
    requires InSeries(first, attempts) && n <= |attempts|
    requires forall j :: 0 <= j < n ==> attempts[j].result.Returned? && !attempts[j].result.success
    requires Current(first.pointer) == Some(active) && active in first.releases
    requires forall j :: 0 <= j < n ==> active !in attempts[j].Touched()
    ensures Current(Last(first, attempts[..n]).pointer) == Some(active) && active in Last(first, attempts[..n]).releases
  {
    if n > 0 {
      ReturnedFailuresKeepActive(first, attempts, active, n - 1);
      assert attempts[..n][n - 1] == attempts[n - 1];
      ReturnedFailureKeepsActive(attempts[n - 1], active);
    }
  }

  // ---------- a rollback that fails ----------

  // "new" is activated over "old", its check fails, and so does the first file operation of
  // the rollback: the exception leaves "new" active.
  method FailedRollbackKeepsRevision() returns (layout: ReleaseLayout, ghost a: Attempt)
    ensures fresh(layout) && Lawful(a) && a.after == Moment(layout.pointer, layout.releases)
    ensures Current(a.before.pointer) == Some("old") && a.order.revision == "new"
    ensures Aftermath(a.order.checks, a.order.service) == Fails && a.Switched() && !a.Undone()
    ensures a.result == Escaped(OsError) && Current(a.after.pointer) == Some("new")
  {
    var script := [NoFault, NoFault, NoFault, NoFault, NoFault, NoFault, Raising(OsError, None)];
    layout := new ReleaseLayout("1", map["old" := map[]], Some("old"), script);
    OldAndNew();
    var checks := [Check("smoke_test", Fails, {})];
    ghost var order := Order("new", "1", Some(map[]), [], true, checks, None, script);
    ghost var before := Moment(layout.pointer, layout.releases);
    FailedRollback(order, before);
    var result := DeployRelease(layout, "new", Some(map[]), [], true, checks, None);
    a := Attempt(order, before, Moment(layout.pointer, layout.releases), result);
    RevisionReadsBack("new");
  }

  lemma FailedRollback(order: Order, before: Moment)
    requires order.revision == "new" && order.processId == "1" && order.source == Some(map[]) && order.preflightPassed
    requires order.checks == [Check("smoke_test", Fails, {})] && order.service == None
    requires order.faults == [NoFault, NoFault, NoFault, NoFault, NoFault, NoFault, Raising(OsError, None)]
    requires before == Moment(Some("old"), map["old" := map[]])
    ensures WillConclude(order, before) && Aftermath(order.checks, order.service) == Fails
    ensures !WillUndo(order, before)
    ensures RollbackOutcome(Current(before.pointer), Remaining(order, before), FaultsLeft(order, before))
         == Raised(OsError)
  {
    OldAndNew();
    assert Steps("new", "1", before.releases) == 3;
    assert FaultsLeft(order, before) == [Raising(OsError, None)];
    assert Pruned(order.checks) == {} && "old" in Remaining(order, before);
  }

  lemma OldAndNew()
    ensures ValidRevision("old") && ValidRevision("new")
    ensures Current(Some("old")) == Some("old") && Current(Some("new")) == Some("new")
  {
    RevisionReadsBack("old");
    RevisionReadsBack("new");
  }
}
