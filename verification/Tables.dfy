// The monitor's database: five tables and the history-completeness mark.  Timestamps are
// microseconds on the monitor's own clock.
module Tables {
  import opened Contracts
  import opened Options
  import opened ResourceIds

  datatype Liveness = Online | Offline
  datatype Activity = Idle | Running
  datatype JobState = InProgress | Finished
  datatype Condition = HeartbeatTimeout | ExplicitShutdown
  datatype ResourceKind = RunnerResource | JobResource

  // One row of the append-only events table.
  datatype EventRow = EventRow(event: Event, receivedAt: int, applied: bool)

  datatype RunnerRow = RunnerRow(
    producerId: string, producerEpoch: string, sequence: int, liveness: Liveness, activity: Activity,
    lastReceivedAt: int, lastHeartbeatAt: Option<int>, lastJobOutcome: Option<string>, lastEventId: string,
    offlineReason: Option<Condition>, currentJob: Option<JobKey>)

  datatype JobRow = JobRow(
    runnerId: string, jobName: string, runUrl: string, state: JobState, outcome: Option<string>,
    lastReceivedAt: int, lastEventId: string, liveness: Liveness, lastHeartbeatAt: int,
    offlineReason: Option<Condition>)

  datatype IncidentKey = IncidentKey(kind: ResourceKind, resourceId: string, condition: Condition)
  datatype Incident = Incident(active: bool, openedAt: int, closedAt: Option<int>, lastChangedAt: int)

  // One producer's numbering on one runner.
  datatype StreamKey = StreamKey(runnerId: string, producerId: string, producerEpoch: string)

  // The tables an event projects into, apart from incidents.
  datatype Views = Views(
    runners: map<string, RunnerRow>, jobs: map<JobKey, JobRow>, watermarks: map<StreamKey, int>)

  type Incidents = map<IncidentKey, Incident>

  datatype Tables = Tables(events: seq<EventRow>, views: Views, incidents: Incidents, complete: bool)

  const NO_VIEWS := Views(map[], map[], map[])
  const EMPTY := Tables([], NO_VIEWS, map[], true)

  function Stream(e: Event): StreamKey {
    StreamKey(e.runnerId, e.producerId, e.producerEpoch)
  }

  predicate Active(incidents: Incidents, key: IncidentKey) {
    key in incidents && incidents[key].active
  }

  // The connection: SQL statements update these fields in place.
  class Database {
    var events: seq<EventRow>
    var runnerState: map<string, RunnerRow>
    var jobState: map<JobKey, JobRow>
    var watermarks: map<StreamKey, int>
    var incidents: Incidents
    var historyComplete: bool

    function Projections(): Views
      reads this
    {
      Views(runnerState, jobState, watermarks)
    }

    function Contents(): Tables
      reads this
    {
      Tables(events, Projections(), incidents, historyComplete)
    }

    constructor ()
      ensures Contents() == EMPTY
    {
      events, runnerState, jobState, watermarks, incidents := [], map[], map[], map[], map[];
      historyComplete := true;
    }

    // A transaction that raises puts every table back to what it held at its start.
    method Rollback(saved: Tables)
      modifies this
      ensures Contents() == saved
    {
      events, incidents, historyComplete := saved.events, saved.incidents, saved.complete;
      runnerState, jobState, watermarks := saved.views.runners, saved.views.jobs, saved.views.watermarks;
    }
  }
}
