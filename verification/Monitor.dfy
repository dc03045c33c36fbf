// The monitor as a transition system over its database contents, together with the full
// log of everything it ever recorded (which retention may have pruned from the table).
module Monitor {
  import opened Contracts
  import opened Health
  import opened Options
  import opened Projection
  import opened ResourceIds
  import opened Tables

  const SECOND := 1_000_000
  const LIVENESS_TIMEOUT := 10 * 60 * SECOND
  const RETENTION := 7 * 24 * 60 * 60 * SECOND

  // ---------- ingest ----------

  predicate Recorded(rows: seq<EventRow>, id: string) {
    exists i | 0 <= i < |rows| :: rows[i].event.id == id
  }

  function ShutdownKey(runnerId: string): IncidentKey {
    IncidentKey(RunnerResource, runnerId, ExplicitShutdown)
  }

  function IngestIncidents(incidents: Incidents, e: Event, receivedAt: int): Incidents {
    var recovered := RecoveredBy(incidents, e, receivedAt);
    if e.body.RunnerOffline? then Opened(recovered, {ShutdownKey(e.runnerId)}, receivedAt) else recovered
  }

  function Ingest(t: Tables, e: Event, receivedAt: int): Tables {
    if Recorded(t.events, e.id) then t
    else
      var applied := Accepts(t.views, e);
      Tables(
        t.events + [EventRow(e, receivedAt, applied)],
        Project(t.views, e, receivedAt),
        if applied then IngestIncidents(t.incidents, e, receivedAt) else t.incidents,
        t.complete)
  }

  // ---------- liveness ----------

  predicate StaleRunner(row: RunnerRow, now: int) {
    row.liveness == Online && row.lastReceivedAt < now - LIVENESS_TIMEOUT
  }

  predicate StaleJob(row: JobRow, now: int) {
    row.state == InProgress && row.liveness == Online && row.lastHeartbeatAt < now - LIVENESS_TIMEOUT
  }

  function RunnerTimeoutKey(runnerId: string): IncidentKey {
    IncidentKey(RunnerResource, runnerId, HeartbeatTimeout)
  }

  function JobTimeoutKey(key: JobKey): IncidentKey {
    IncidentKey(JobResource, JobResourceId(key), HeartbeatTimeout)
  }

  function StaleRunners(v: Views, now: int): set<string> {
    set r | r in v.runners && StaleRunner(v.runners[r], now)
  }

  function StaleJobs(v: Views, now: int): set<JobKey> {
    set k | k in v.jobs && StaleJob(v.jobs[k], now)
  }

  function RunnersTimedOut(runners: map<string, RunnerRow>, stale: set<string>): map<string, RunnerRow> {
    map r | r in runners :: if r in stale then runners[r].(liveness := Offline, offlineReason := Some(HeartbeatTimeout))
                            else runners[r]
  }

  function JobsTimedOut(jobs: map<JobKey, JobRow>, stale: set<JobKey>): map<JobKey, JobRow> {
    map k | k in jobs :: if k in stale then jobs[k].(liveness := Offline, offlineReason := Some(HeartbeatTimeout))
                         else jobs[k]
  }

  function RunnerTimeoutKeys(runners: set<string>): set<IncidentKey> {
    set r | r in runners :: RunnerTimeoutKey(r)
  }

  function JobTimeoutKeys(jobs: set<JobKey>): set<IncidentKey> {
    set k | k in jobs :: JobTimeoutKey(k)
  }

  function TimeoutKeys(runners: set<string>, jobs: set<JobKey>): set<IncidentKey> {
    RunnerTimeoutKeys(runners) + JobTimeoutKeys(jobs)
  }

  function RefreshViews(v: Views, now: int): Views {
    v.(runners := RunnersTimedOut(v.runners, StaleRunners(v, now)), jobs := JobsTimedOut(v.jobs, StaleJobs(v, now)))
  }

  function Refresh(t: Tables, now: int): Tables {
    t.(views := RefreshViews(t.views, now),
    incidents := Opened(t.incidents, TimeoutKeys(StaleRunners(t.views, now), StaleJobs(t.views, now)), now))
  }

  // ---------- replay ----------

  // The views a series of recorded events projects into, from nothing.
  function Rebuild(rows: seq<EventRow>): Views {
    if rows == [] then NO_VIEWS
    else
      var last := rows[|rows| - 1];
      Project(Rebuild(rows[..|rows| - 1]), last.event, last.receivedAt)
  }

  function Reflagged(rows: seq<EventRow>): (r: seq<EventRow>)
    ensures |r| == |rows|
  {
    if rows == [] then []
    else
      var init, last := rows[..|rows| - 1], rows[|rows| - 1];
      Reflagged(init) + [last.(applied := Accepts(Rebuild(init), last.event))]
  }

  function OfflineRunners(v: Views): map<string, Option<Condition>> {
    map r | r in v.runners && v.runners[r].liveness == Offline :: v.runners[r].offlineReason
  }

  function OfflineJobs(v: Views): map<JobKey, Option<Condition>> {
    map k | k in v.jobs && v.jobs[k].liveness == Offline :: v.jobs[k].offlineReason
  }

  function RunnersOffline(
    runners: map<string, RunnerRow>, offline: map<string, Option<Condition>>): map<string, RunnerRow> {
    map r | r in runners :: if r in offline then runners[r].(liveness := Offline, offlineReason := offline[r])
                            else runners[r]
  }

  function JobsOffline(jobs: map<JobKey, JobRow>, offline: map<JobKey, Option<Condition>>): map<JobKey, JobRow> {
    map k | k in jobs :: if k in offline then jobs[k].(liveness := Offline, offlineReason := offline[k]) else jobs[k]
  }

  function RestoreIncident(v: Views, key: IncidentKey): Views {
    if key.kind == RunnerResource then
      v.(runners := RunnersOffline(v.runners, map[key.resourceId := Some(key.condition)]))
    else if key.condition == HeartbeatTimeout then
      var job := ParseJobResourceId(key.resourceId);
      if job.Some? then v.(jobs := JobsOffline(v.jobs, map[job.value := Some(HeartbeatTimeout)])) else v
    else v
  }

  function RestoreIncidents(v: Views, order: seq<IncidentKey>): Views {
    if order == [] then v
    else RestoreIncident(RestoreIncidents(v, order[..|order| - 1]), order[|order| - 1])
  }

  function ReplayViews(t: Tables, order: seq<IncidentKey>): Views {
    var rebuilt := Rebuild(t.events);
    RestoreIncidents(
      rebuilt.(runners := RunnersOffline(rebuilt.runners, OfflineRunners(t.views)),
      jobs := JobsOffline(rebuilt.jobs, OfflineJobs(t.views))),
      order)
  }

  // The database returns the active incidents in an order it does not promise.
  ghost predicate ListsActive(order: seq<IncidentKey>, incidents: Incidents) {
    forall k :: k in order <==> Active(incidents, k)
  }

  function Replay(t: Tables, order: seq<IncidentKey>): Tables {
    t.(events := Reflagged(t.events), views := ReplayViews(t, order))
  }

  predicate AllValid(rows: seq<EventRow>) {
    forall i :: 0 <= i < |rows| ==> Valid(rows[i].event)
  }

  // ---------- retention ----------

  predicate Expired(row: EventRow, now: int) {
    row.receivedAt < now - RETENTION
  }

  function Unexpired(rows: seq<EventRow>, now: int): seq<EventRow> {
    if rows == [] then []
    else
      var init, last := rows[..|rows| - 1], rows[|rows| - 1];
      Unexpired(init, now) + (if Expired(last, now) then [] else [last])
  }

  predicate AnyExpired(rows: seq<EventRow>, now: int) {
    exists i | 0 <= i < |rows| :: Expired(rows[i], now)
  }

  function Prune(t: Tables, now: int): Tables {
    if AnyExpired(t.events, now) then t.(events := Unexpired(t.events, now), complete := false) else t
  }

  // ---------- the transition system ----------

  // log holds every event ever recorded, in order; kept marks those still in the table.
  datatype World = World(db: Tables, log: seq<EventRow>, kept: seq<bool>)

  datatype Action =
    | DoIngest(e: Event, receivedAt: int)
    | DoRefresh(now: int)
    | DoReplay(order: seq<IncidentKey>)
    | DoPrune(now: int)

  const INITIAL := World(EMPTY, [], [])

  ghost predicate Enabled(w: World, a: Action) {
    match a
    case DoIngest(e, _) => Valid(e)
    case DoReplay(order) => ListsActive(order, w.db.incidents)
    case _ => true
  }

  // Replay refuses an incomplete history, and gives up on a row that no longer validates.
  predicate CanReplay(t: Tables) {
    t.complete && AllValid(t.events)
  }

  function Next(w: World, a: Action): World {
    match a
    case DoIngest(e, receivedAt) =>
      if Recorded(w.db.events, e.id) then w
      else World(Ingest(w.db, e, receivedAt), w.log + [EventRow(e, receivedAt, Accepts(w.db.views, e))], w.kept
                 + [true])
    case DoRefresh(now) => w.(db := Refresh(w.db, now))
    case DoReplay(order) => if CanReplay(w.db) then w.(db := Replay(w.db, order)) else w
    case DoPrune(now) => w.(db := Prune(w.db, now), kept := KeptAfter(w, now))
  }

  function KeptAfter(w: World, now: int): seq<bool> {
    seq(|w.kept|, i requires 0 <= i < |w.kept| => w.kept[i] && i < |w.log| && !Expired(w.log[i], now))
  }

  // A run is the series of worlds that a series of actions passes through.
  ghost predicate IsRun(worlds: seq<World>, actions: seq<Action>) {
    && |worlds| == |actions| + 1
    && worlds[0] == INITIAL
    && forall i :: 0 <= i < |actions| ==> Enabled(worlds[i], actions[i]) && worlds[i + 1] == Next(worlds[i], actions[i])
  }
}
