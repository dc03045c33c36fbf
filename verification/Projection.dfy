// How one event advances the current-state views.
module Projection {
  import opened Contracts
  import opened Health
  import opened Options
  import opened ResourceIds
  import opened Tables

  // ---------- acceptance ----------

  predicate RunnerAccepts(v: Views, e: Event) {
    Stream(e) in v.watermarks ==> e.sequence > v.watermarks[Stream(e)]
  }

  predicate JobAccepts(v: Views, key: JobKey) {
    key in v.jobs ==> v.jobs[key].state != Finished
  }

  predicate OlderAttempt(v: Views, runnerId: string, key: JobKey) {
    && runnerId in v.runners
    && v.runners[runnerId].currentJob.Some?
    && var current := v.runners[runnerId].currentJob.value;
    && current.repository == key.repository
    && current.workflowRunId == key.workflowRunId
    && key.runAttempt < current.runAttempt
  }

  predicate Accepts(v: Views, e: Event) {
    && RunnerAccepts(v, e)
    && e.body.Projected()
    && (e.body.Lifecycle() ==> JobAccepts(v, e.body.job.key) && !OlderAttempt(v, e.runnerId, e.body.job.key))
  }

  // ---------- the rows an accepted event leaves behind ----------

  function Lookup<K, V>(m: map<K, V>, k: K): Option<V> {
    if k in m then Some(m[k]) else None
  }

  function OrElse<T>(x: Option<T>, y: Option<T>): Option<T> {
    if x.Some? then x else y
  }

  function RunnerAfter(prior: Option<RunnerRow>, e: Event, receivedAt: int): RunnerRow {
    var keptActivity := if prior.Some? then prior.value.activity else Idle;
    var keptHeartbeat := if prior.Some? then prior.value.lastHeartbeatAt else None;
    var keptOutcome := if prior.Some? then prior.value.lastJobOutcome else None;
    var keptJob := if prior.Some? then prior.value.currentJob else None;
    RunnerRow(
      e.producerId, e.producerEpoch, e.sequence,
      if e.body.RunnerOffline? then Offline else Online,
      if !e.body.Lifecycle() then keptActivity else if e.body.JobFinished? then Idle else Running,
      receivedAt,
      if e.body.RunnerHeartbeat? then Some(receivedAt) else keptHeartbeat,
      if e.body.JobFinished? then Some(e.body.outcome) else keptOutcome,
      e.id,
      if e.body.RunnerOffline? then Some(ExplicitShutdown) else None,
      if e.body.Lifecycle() then Some(e.body.job.key) else keptJob)
  }

  function JobAfter(e: Event, receivedAt: int): JobRow
    requires e.body.Lifecycle()
  {
    JobRow(
      e.runnerId, e.body.job.jobName, e.body.job.runUrl,
      if e.body.JobFinished? then Finished else InProgress,
      if e.body.JobFinished? then Some(e.body.outcome) else None,
      receivedAt, e.id, Online, receivedAt, None)
  }

  function Project(v: Views, e: Event, receivedAt: int): Views {
    if !Accepts(v, e) then v
    else Views(
           v.runners[e.runnerId := RunnerAfter(Lookup(v.runners, e.runnerId), e, receivedAt)],
           if e.body.Lifecycle() then v.jobs[e.body.job.key := JobAfter(e, receivedAt)] else v.jobs,
           v.watermarks[Stream(e) := e.sequence])
  }

  // A sign of life closes the runner's incidents, and the job's when a job sent it.
  function RecoveredBy(incidents: Incidents, e: Event, receivedAt: int): Incidents {
    if e.body.RunnerHeartbeat? then Recovered(incidents, RunnerResource, e.runnerId, receivedAt)
    else if e.body.Lifecycle() then
      Recovered(
        Recovered(incidents, RunnerResource, e.runnerId, receivedAt),
        JobResource, JobResourceId(e.body.job.key), receivedAt)
    else incidents
  }

  // ---------- the statements themselves ----------

  method AdvanceWatermark(db: Database, e: Event)
    modifies db`watermarks
    ensures db.watermarks == old(db.watermarks)[Stream(e) := e.sequence]
  {
    db.watermarks := db.watermarks[StreamKey(e.runnerId, e.producerId, e.producerEpoch) := e.sequence];
  }

  method UpsertRunner(
    db: Database, e: Event, receivedAt: int, liveness: Liveness, activity: Option<Activity>,
    heartbeatAt: Option<int>, terminalOutcome: Option<string>, offlineReason: Option<Condition>)
    modifies db`runnerState
    ensures e.runnerId in db.runnerState
    ensures db.runnerState == old(db.runnerState)[e.runnerId := db.runnerState[e.runnerId]]
    ensures var prior, row := Lookup(old(db.runnerState), e.runnerId), db.runnerState[e.runnerId];
            && row.producerId == e.producerId && row.producerEpoch == e.producerEpoch && row.sequence == e.sequence
            && row.liveness == liveness && row.offlineReason == offlineReason
            && row.lastReceivedAt == receivedAt && row.lastEventId == e.id
            && row.activity
               == (if activity.Some? then activity.value else if prior.Some? then prior.value.activity else Idle)
            && row.lastHeartbeatAt == OrElse(heartbeatAt, if prior.Some? then prior.value.lastHeartbeatAt else None)
            && row.lastJobOutcome == OrElse(terminalOutcome, if prior.Some? then prior.value.lastJobOutcome else None)
            && row.currentJob
               == (if IsJobEvent(e) then Some(e.body.job.key) else if prior.Some? then prior.value.currentJob else None)
  {
    var existing := Lookup(db.runnerState, e.runnerId);
    var priorActivity := if existing.Some? then existing.value.activity else Idle;
    var priorHeartbeat := if existing.Some? then existing.value.lastHeartbeatAt else None;
    var priorOutcome := if existing.Some? then existing.value.lastJobOutcome else None;
    var priorJob := if existing.Some? then existing.value.currentJob else None;
    var row := RunnerRow(
      e.producerId, e.producerEpoch, e.sequence, liveness,
      if activity.Some? then activity.value else priorActivity,
      receivedAt,
      if heartbeatAt.Some? then heartbeatAt else priorHeartbeat,
      if terminalOutcome.Some? then terminalOutcome else priorOutcome,
      e.id, offlineReason,
      if IsJobEvent(e) then Some(e.body.job.key) else priorJob);
    db.runnerState := db.runnerState[e.runnerId := row];
  }

  predicate IsJobEvent(e: Event) {
    !e.body.RunnerHeartbeat? && !e.body.RunnerOffline?
  }

  method UpsertJob(db: Database, e: Event, receivedAt: int, state: JobState, outcome: Option<string>)
    requires IsJobEvent(e)
    modifies db`jobState
    ensures db.jobState == old(db.jobState)[e.body.job.key :=
                           JobRow(e.runnerId, e.body.job.jobName, e.body.job.runUrl, state, outcome,
                                  receivedAt, e.id, Online, receivedAt, None)]
  {
    var job := e.body.job;
    if job.key !in db.jobState {
      db.jobState := db.jobState[job.key :=
      JobRow(e.runnerId, job.jobName, job.runUrl, state, outcome, receivedAt, e.id, Online, receivedAt, None)];
    } else {
      db.jobState := db.jobState[job.key := db.jobState[job.key].(
      runnerId := e.runnerId, jobName := job.jobName, runUrl := job.runUrl, state := state, outcome := outcome,
      lastReceivedAt := receivedAt, lastEventId := e.id, liveness := Online, lastHeartbeatAt := receivedAt,
      offlineReason := None)];
    }
  }

  // Takes an event into the views if the watermark of its stream and the row of its job admit it;
  // a late or repeated event leaves them alone.
  method ApplyEvent(db: Database, e: Event, receivedAt: int, manageIncidents: bool) returns (applied: bool)
    modifies db`runnerState, db`jobState, db`watermarks, db`incidents
    ensures applied == Accepts(old(db.Projections()), e)
    ensures db.Projections() == Project(old(db.Projections()), e, receivedAt)
    ensures db.incidents == if applied && manageIncidents then RecoveredBy(old(db.incidents), e, receivedAt)
                            else old(db.incidents)
  {
    if !RunnerAccepts(db.Projections(), e) {
      return false;
    }
    if e.body.JobStarted? || e.body.JobHeartbeat? || e.body.JobFinished? {
      if !JobAccepts(db.Projections(), e.body.job.key)
         || OlderAttempt(db.Projections(), e.runnerId, e.body.job.key) {
        return false;
      }
    }

    if e.body.RunnerHeartbeat? {
      UpsertRunner(db, e, receivedAt, Online, None, Some(receivedAt), None, None);
      if manageIncidents {
        RecoverResource(db, RunnerResource, e.runnerId, receivedAt);
      }
      AdvanceWatermark(db, e);
      return true;
    }
    if e.body.RunnerOffline? {
      UpsertRunner(db, e, receivedAt, Offline, None, None, None, Some(ExplicitShutdown));
      AdvanceWatermark(db, e);
      return true;
    }
    if !(e.body.JobStarted? || e.body.JobHeartbeat? || e.body.JobFinished?) {
      return false;
    }

    var finished := e.body.JobFinished?;
    var outcome := if finished then Some(e.body.outcome) else None;
    UpsertRunner(db, e, receivedAt, Online, Some(if finished then Idle else Running), None, outcome, None);
    UpsertJob(db, e, receivedAt, if finished then Finished else InProgress, outcome);
    if manageIncidents {
      RecoverResource(db, RunnerResource, e.runnerId, receivedAt);
      RecoverResource(db, JobResource, JobResourceId(e.body.job.key), receivedAt);
    }
    AdvanceWatermark(db, e);
    return true;
  }
}
