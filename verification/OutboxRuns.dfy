// The outbox over whole runs of enqueues and drains.
module OutboxRuns {
  import opened Contracts
  import opened OutboxCapacity
  import opened OutboxFiles
  import opened OutboxPass

  datatype Stage = Stage(pending: Directory, deadLetter: Directory)

  datatype Step =
    | EnqueueStep(e: Event, from: Stage, to: Stage)
    | DrainStep(sight: Sight, offered: seq<Event>, from: Stage, to: Stage)

  // An enqueue adds at most one file, of its own event, whose id has none; a drain only shrinks,
  // and offers nothing whose dead letter it sees.
  ghost predicate Lawful(s: Step) {
    match s
    case EnqueueStep(e, from, to) =>
      && to.deadLetter == from.deadLetter
      && (to.pending == from.pending
          || (e.id !in from.pending && e.id !in from.deadLetter && Adds(e, from.pending, to.pending)))
    case DrainStep(sight, offered, from, to) =>
      && Shrinks(from.pending, from.deadLetter, to.pending, to.deadLetter)
      && Ids(offered) !! DeadLetterIds(from.deadLetter, sight)
  }

  ghost predicate Adds(e: Event, before: Directory, now: Directory) {
    && e.id in now && now[e.id].Queued? && now[e.id].envelope.event == e
    && now == before[e.id := now[e.id]]
  }

  ghost function Last(first: Stage, steps: seq<Step>): Stage {
    if steps == [] then first else steps[|steps| - 1].to
  }

  ghost predicate InSeries(first: Stage, steps: seq<Step>) {
    forall i {:trigger steps[..i]} :: 0 <= i < |steps| ==> Lawful(steps[i]) && steps[i].from == Last(first, steps[..i])
  }

  lemma SeriesOneMore(first: Stage, steps: seq<Step>, s: Step)
    requires InSeries(first, steps) && Lawful(s) && s.from == Last(first, steps)
    ensures InSeries(first, steps + [s]) && Last(first, steps + [s]) == s.to
  {
    var more := steps + [s];
    assert more[..|steps|] == steps;
    forall i | 0 <= i < |steps| ensures more[i] == steps[i] && more[..i] == steps[..i] {
    }
  }

  lemma StepOfSeries(first: Stage, steps: seq<Step>, i: nat)
    requires InSeries(first, steps) && i < |steps|
    ensures Lawful(steps[i]) && steps[i].from == if i == 0 then first else steps[i - 1].to
  {
    assert i > 0 ==> steps[..i][i - 1] == steps[i - 1];
    assert steps[i].from == Last(first, steps[..i]);
  }

  // The id has its dead letter still, and no pending file that it did not have.
  ghost predicate StaysBuried(id: string, from: Stage, to: Stage) {
    && id in from.deadLetter && id in to.deadLetter && to.deadLetter[id] == from.deadLetter[id]
    && (id in to.pending ==> id in from.pending && to.pending[id] == from.pending[id])
  }

  lemma StepKeepsBuried(s: Step, id: string)
    requires Lawful(s) && id in s.from.deadLetter
    ensures StaysBuried(id, s.from, s.to)
  {
  }

  lemma {:induction false} DeadLettersPersist(first: Stage, steps: seq<Step>, i: nat, j: nat, id: string)
    requires InSeries(first, steps) && i <= j < |steps| && id in steps[i].from.deadLetter
    ensures StaysBuried(id, steps[i].from, steps[j].from)
  {
    if i < j {
      DeadLettersPersist(first, steps, i, j - 1, id);
      StepOfSeries(first, steps, j - 1);
      StepOfSeries(first, steps, j);
      StepKeepsBuried(steps[j - 1], id);
    }
  }

  // Once an id has a valid dead letter, it keeps it; no step, whatever its event, writes a pending
  // file of the id again, and no drain that can list and read the dead letter offers it.
  lemma DeadLettersAreFinal(first: Stage, steps: seq<Step>, i: nat, j: nat, id: string)
    requires InSeries(first, steps) && i <= j < |steps|
    requires id in steps[i].from.deadLetter && ReadsAs(id, steps[i].from.deadLetter[id], true)
    ensures StaysBuried(id, steps[i].from, steps[j].to) && StaysBuried(id, steps[j].from, steps[j].to)
    ensures steps[j].DrainStep? && steps[j].sight.deadListed && id !in steps[j].sight.deadUnreadable ==>
              id !in Ids(steps[j].offered)
  {
    DeadLettersPersist(first, steps, i, j, id);
    StepOfSeries(first, steps, j);
    StepKeepsBuried(steps[j], id);
    if steps[j].DrainStep? && steps[j].sight.deadListed && id !in steps[j].sight.deadUnreadable {
      assert id in DeadLetterIds(steps[j].from.deadLetter, steps[j].sight);
    }
  }
}
