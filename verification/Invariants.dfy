// What every reachable world keeps: the views follow the log, liveness follows incidents.
module Invariants {
  import opened Contracts
  import opened Monitor
  import opened Options
  import opened Projection
  import opened ResourceIds
  import opened Tables

  // ---------- liveness is a separate layer ----------

  function RunnerCore(row: RunnerRow): RunnerRow {
    row.(liveness := Online, offlineReason := None)
  }

  function JobCore(row: JobRow): JobRow {
    row.(liveness := Online, offlineReason := None)
  }

  // Equal but for liveness and its reason.
  ghost predicate SameCore(v: Views, u: Views) {
    && v.runners.Keys == u.runners.Keys
    && v.jobs.Keys == u.jobs.Keys
    && v.watermarks == u.watermarks
    && (forall r :: r in v.runners ==> RunnerCore(v.runners[r]) == RunnerCore(u.runners[r]))
    && (forall k :: k in v.jobs ==> JobCore(v.jobs[k]) == JobCore(u.jobs[k]))
  }

  // Acceptance never looks at liveness.
  lemma AcceptsIgnoresLiveness(v: Views, u: Views, e: Event)
    requires SameCore(v, u)
    ensures Accepts(v, e) == Accepts(u, e)
  {
    if e.body.Lifecycle() {
      var key := e.body.job.key;
      assert key in v.jobs ==> JobCore(v.jobs[key]) == JobCore(u.jobs[key]);
      assert e.runnerId in v.runners ==> RunnerCore(v.runners[e.runnerId]) == RunnerCore(u.runners[e.runnerId]);
    }
  }

  lemma ProjectKeepsCore(v: Views, u: Views, e: Event, receivedAt: int)
    requires SameCore(v, u)
    ensures SameCore(Project(v, e, receivedAt), Project(u, e, receivedAt))
  {
    AcceptsIgnoresLiveness(v, u, e);
    assert e.runnerId in v.runners ==> RunnerCore(v.runners[e.runnerId]) == RunnerCore(u.runners[e.runnerId]);
  }

  // ---------- the log ----------

  function Kept(log: seq<EventRow>, kept: seq<bool>): seq<EventRow>
    requires |log| == |kept|
  {
    if log == [] then []
    else
      var n := |log| - 1;
      Kept(log[..n], kept[..n]) + (if kept[n] then [log[n]] else [])
  }

  // Every applied flag records whether the views rebuilt from the entries before it accept the event.
  ghost predicate Faithful(log: seq<EventRow>) {
    log != [] ==>
      var init, last := log[..|log| - 1], log[|log| - 1];
      Faithful(init) && last.applied == Accepts(Rebuild(init), last.event)
  }

  ghost predicate FollowsLog(w: World) {
    && |w.kept| == |w.log|
    && w.db.events == Kept(w.log, w.kept)
    && (w.db.complete ==> forall i :: 0 <= i < |w.kept| ==> w.kept[i])
    && AllValid(w.log)
    && Faithful(w.log)
    && SameCore(w.db.views, Rebuild(w.log))
  }

  ghost predicate DistinctIds(rows: seq<EventRow>) {
    forall i, j :: 0 <= i < j < |rows| ==> rows[i].event.id != rows[j].event.id
  }

  // ---------- liveness and incidents ----------

  ghost predicate RunnerAgrees(row: RunnerRow, r: string, incidents: Incidents) {
    && (row.liveness == Offline <==> Active(incidents, RunnerTimeoutKey(r)) || Active(incidents, ShutdownKey(r)))
    && (row.liveness == Online ==> row.offlineReason == None)
    && (row.liveness == Offline ==>
          row.offlineReason.Some? && Active(incidents, IncidentKey(RunnerResource, r, row.offlineReason.value)))
  }

  ghost predicate JobAgrees(row: JobRow, k: JobKey, incidents: Incidents) {
    && (row.liveness == Offline <==> Active(incidents, JobTimeoutKey(k)))
    && row.offlineReason == (if row.liveness == Offline then Some(HeartbeatTimeout) else None)
    && (row.state == Finished ==> row.liveness == Online)
  }

  // The resource of an incident exists, and a job incident is always a timeout.
  ghost predicate IncidentAgrees(key: IncidentKey, v: Views) {
    match key.kind
    case RunnerResource => key.resourceId in v.runners
    case JobResource =>
      var job := ParseJobResourceId(key.resourceId);
      key.condition == HeartbeatTimeout && job.Some? && job.value in v.jobs
      && JobResourceId(job.value) == key.resourceId
  }

  ghost predicate KeysParse(v: Views) {
    forall k :: k in v.jobs ==> ':' !in k.repository
  }

  ghost predicate LivenessAgrees(v: Views, incidents: Incidents) {
    && KeysParse(v)
    && (forall r :: r in v.runners ==> RunnerAgrees(v.runners[r], r, incidents))
    && (forall k :: k in v.jobs ==> JobAgrees(v.jobs[k], k, incidents))
    && (forall key :: Active(incidents, key) ==> IncidentAgrees(key, v))
  }

  // A rebuilt runner is offline only through an explicit shutdown, a rebuilt job never.
  ghost predicate RebuiltShape(v: Views) {
    && (forall r :: r in v.runners ==>
                      v.runners[r].offlineReason
                      == if v.runners[r].liveness == Offline then Some(ExplicitShutdown) else None)
    && (forall k :: k in v.jobs ==> JobCore(v.jobs[k]) == v.jobs[k])
  }

  // Whoever the log leaves offline is offline.
  ghost predicate OfflineAtLeast(v: Views, rebuilt: Views) {
    forall r :: r in rebuilt.runners && rebuilt.runners[r].liveness == Offline ==>
                  r in v.runners && v.runners[r].liveness == Offline
  }

  ghost predicate Inv(w: World) {
    && FollowsLog(w)
    && DistinctIds(w.db.events)
    && LivenessAgrees(w.db.views, w.db.incidents)
    && RebuiltShape(Rebuild(w.log))
    && OfflineAtLeast(w.db.views, Rebuild(w.log))
  }

  // ---------- ingest ----------

  lemma RebuildStep(log: seq<EventRow>, row: EventRow)
    ensures Rebuild(log + [row]) == Project(Rebuild(log), row.event, row.receivedAt)
  {
    assert (log + [row])[..|log|] == log;
  }

  lemma IngestFollowsLog(w: World, e: Event, receivedAt: int)
    requires FollowsLog(w) && Valid(e) && !Recorded(w.db.events, e.id)
    ensures FollowsLog(Next(w, DoIngest(e, receivedAt)))
  {
    var n := Next(w, DoIngest(e, receivedAt));
    var row := EventRow(e, receivedAt, Accepts(w.db.views, e));
    assert n.log[..|w.log|] == w.log && n.kept[..|w.kept|] == w.kept;
    AcceptsIgnoresLiveness(w.db.views, Rebuild(w.log), e);
    RebuildStep(w.log, row);
    ProjectKeepsCore(w.db.views, Rebuild(w.log), e, receivedAt);
  }

  lemma ProjectedShape(v: Views, e: Event, receivedAt: int)
    requires RebuiltShape(v)
    ensures RebuiltShape(Project(v, e, receivedAt))
  {
  }

  lemma ProjectedOffline(v: Views, u: Views, e: Event, receivedAt: int)
    requires SameCore(v, u) && OfflineAtLeast(v, u)
    ensures OfflineAtLeast(Project(v, e, receivedAt), Project(u, e, receivedAt))
  {
    AcceptsIgnoresLiveness(v, u, e);
  }

  // After an accepted event, what is active is what was active and not recovered, or just opened.
  lemma ActiveAfter(incidents: Incidents, e: Event, receivedAt: int, key: IncidentKey)
    requires e.body.Projected()
    ensures Active(IngestIncidents(incidents, e, receivedAt), key) <==>
            if e.body.RunnerOffline? then Active(incidents, key) || key == ShutdownKey(e.runnerId)
            else
              && Active(incidents, key)
              && !(key.kind == RunnerResource && key.resourceId == e.runnerId)
              && !(e.body.Lifecycle() && key.kind == JobResource && key.resourceId == JobResourceId(e.body.job.key))
  {
  }

  lemma IngestRunnersAgree(v: Views, incidents: Incidents, e: Event, receivedAt: int)
    requires LivenessAgrees(v, incidents) && Accepts(v, e)
    ensures var v', i' := Project(v, e, receivedAt), IngestIncidents(incidents, e, receivedAt);
            forall r :: r in v'.runners ==> RunnerAgrees(v'.runners[r], r, i')
  {
    var v', i' := Project(v, e, receivedAt), IngestIncidents(incidents, e, receivedAt);
    forall r | r in v'.runners ensures RunnerAgrees(v'.runners[r], r, i') {
      ActiveAfter(incidents, e, receivedAt, RunnerTimeoutKey(r));
      ActiveAfter(incidents, e, receivedAt, ShutdownKey(r));
    }
  }

  lemma IngestJobsAgree(v: Views, incidents: Incidents, e: Event, receivedAt: int)
    requires LivenessAgrees(v, incidents) && Valid(e) && Accepts(v, e)
    ensures var v', i' := Project(v, e, receivedAt), IngestIncidents(incidents, e, receivedAt);
            KeysParse(v') && forall k :: k in v'.jobs ==> JobAgrees(v'.jobs[k], k, i')
  {
    var v', i' := Project(v, e, receivedAt), IngestIncidents(incidents, e, receivedAt);
    if e.body.Lifecycle() {
      JobKeyHasNoSeparator(e);
    }
    forall k | k in v'.jobs ensures JobAgrees(v'.jobs[k], k, i') {
      ActiveAfter(incidents, e, receivedAt, JobTimeoutKey(k));
      if e.body.Lifecycle() && JobResourceId(k) == JobResourceId(e.body.job.key) {
        ResourceIdInjective(k, e.body.job.key);
      }
    }
  }

  lemma IngestLivenessAgrees(v: Views, incidents: Incidents, e: Event, receivedAt: int)
    requires LivenessAgrees(v, incidents) && Valid(e) && Accepts(v, e)
    ensures LivenessAgrees(Project(v, e, receivedAt), IngestIncidents(incidents, e, receivedAt))
  {
    IngestRunnersAgree(v, incidents, e, receivedAt);
    IngestJobsAgree(v, incidents, e, receivedAt);
    forall key | Active(IngestIncidents(incidents, e, receivedAt), key)
      ensures IncidentAgrees(key, Project(v, e, receivedAt))
    {
      ActiveAfter(incidents, e, receivedAt, key);
    }
  }

  lemma IngestKeepsInv(w: World, e: Event, receivedAt: int)
    requires Inv(w) && Valid(e)
    ensures Inv(Next(w, DoIngest(e, receivedAt)))
  {
    if !Recorded(w.db.events, e.id) {
      IngestFollowsLog(w, e, receivedAt);
      RebuildStep(w.log, EventRow(e, receivedAt, Accepts(w.db.views, e)));
      ProjectedShape(Rebuild(w.log), e, receivedAt);
      ProjectedOffline(w.db.views, Rebuild(w.log), e, receivedAt);
      if Accepts(w.db.views, e) {
        IngestLivenessAgrees(w.db.views, w.db.incidents, e, receivedAt);
      }
    }
  }

  // ---------- refresh ----------

  lemma RefreshKeepsCore(v: Views, u: Views, now: int)
    requires SameCore(v, u)
    ensures SameCore(RefreshViews(v, now), u)
  {
  }

  // A job's timeout key is opened exactly when that job is stale: ids do not collide.
  lemma TimeoutKeyOfJob(v: Views, now: int, k: JobKey)
    requires KeysParse(v) && k in v.jobs
    ensures JobTimeoutKey(k) in TimeoutKeys(StaleRunners(v, now), StaleJobs(v, now)) <==> StaleJob(v.jobs[k], now)
  {
    var stale := StaleJobs(v, now);
    if JobTimeoutKey(k) in TimeoutKeys(StaleRunners(v, now), stale) {
      var j :| j in stale && JobTimeoutKey(j) == JobTimeoutKey(k);
      ResourceIdInjective(j, k);
    }
  }

  lemma RefreshLivenessAgrees(t: Tables, now: int)
    requires LivenessAgrees(t.views, t.incidents)
    ensures LivenessAgrees(Refresh(t, now).views, Refresh(t, now).incidents)
  {
    var v, keys := t.views, TimeoutKeys(StaleRunners(t.views, now), StaleJobs(t.views, now));
    var t' := Refresh(t, now);
    assert forall key :: Active(t'.incidents, key) <==> Active(t.incidents, key) || key in keys;
    forall key | Active(t'.incidents, key) ensures IncidentAgrees(key, t'.views) {
      if key in keys && key.kind == JobResource {
        var j :| j in StaleJobs(v, now) && key == JobTimeoutKey(j);
        ParsePrintedId(j);
      }
    }
    forall r | r in t'.views.runners ensures RunnerAgrees(t'.views.runners[r], r, t'.incidents) {
      assert RunnerAgrees(v.runners[r], r, t.incidents);
      assert RunnerTimeoutKey(r) in keys <==> r in StaleRunners(v, now);
      assert ShutdownKey(r) !in keys;
    }
    forall k | k in t'.views.jobs ensures JobAgrees(t'.views.jobs[k], k, t'.incidents) {
      assert JobAgrees(v.jobs[k], k, t.incidents);
      TimeoutKeyOfJob(v, now, k);
    }
  }

  lemma RefreshKeepsInv(w: World, now: int)
    requires Inv(w)
    ensures Inv(Next(w, DoRefresh(now)))
  {
    RefreshKeepsCore(w.db.views, Rebuild(w.log), now);
    RefreshLivenessAgrees(w.db, now);
  }

  // ---------- retention ----------

  lemma {:induction false} PruneKept(log: seq<EventRow>, kept: seq<bool>, kept': seq<bool>, now: int)
    requires |log| == |kept| == |kept'|
    requires forall i :: 0 <= i < |log| ==> kept'[i] == (kept[i] && !Expired(log[i], now))
    ensures Unexpired(Kept(log, kept), now) == Kept(log, kept')
  {
    if log != [] {
      var n := |log| - 1;
      PruneKept(log[..n], kept[..n], kept'[..n], now);
      var rest := Kept(log[..n], kept[..n]);
      if kept[n] {
        assert (rest + [log[n]])[..|rest|] == rest;
      } else {
        assert Kept(log, kept) == rest;
      }
    }
  }

  lemma {:induction false} NothingExpired(rows: seq<EventRow>, now: int)
    requires forall i :: 0 <= i < |rows| ==> !Expired(rows[i], now)
    ensures Unexpired(rows, now) == rows
  {
    if rows != [] {
      var n := |rows| - 1;
      NothingExpired(rows[..n], now);
      assert rows == rows[..n] + [rows[n]];
    }
  }

  lemma {:induction false} UnexpiredDistinct(rows: seq<EventRow>, now: int)
    requires DistinctIds(rows)
    ensures DistinctIds(Unexpired(rows, now))
    ensures forall row :: row in Unexpired(rows, now) ==> row in rows
  {
    if rows != [] {
      var n := |rows| - 1;
      UnexpiredDistinct(rows[..n], now);
      var rest := Unexpired(rows[..n], now);
      forall i | 0 <= i < |rest| ensures rest[i].event.id != rows[n].event.id {
        assert rest[i] in rows[..n];
      }
    }
  }

  lemma {:induction false} KeptRowIsLogged(log: seq<EventRow>, kept: seq<bool>, row: EventRow)
    requires |log| == |kept| && row in Kept(log, kept)
    ensures exists i :: 0 <= i < |log| && kept[i] && log[i] == row
  {
    var n := |log| - 1;
    if kept[n] && log[n] == row {
    } else {
      KeptRowIsLogged(log[..n], kept[..n], row);
      var i :| 0 <= i < n && kept[..n][i] && log[..n][i] == row;
      assert kept[i] && log[i] == row;
    }
  }

  lemma {:induction false} LoggedRowIsKept(log: seq<EventRow>, kept: seq<bool>, i: nat)
    requires |log| == |kept| && i < |log| && kept[i]
    ensures log[i] in Kept(log, kept)
  {
    var n := |log| - 1;
    if i < n {
      LoggedRowIsKept(log[..n], kept[..n], i);
    }
  }

  lemma {:induction false} AllRowsKept(log: seq<EventRow>, kept: seq<bool>)
    requires |log| == |kept| && forall i :: 0 <= i < |kept| ==> kept[i]
    ensures Kept(log, kept) == log
  {
    if log != [] {
      var n := |log| - 1;
      AllRowsKept(log[..n], kept[..n]);
      assert log == log[..n] + [log[n]];
    }
  }

  lemma PruneKeepsInv(w: World, now: int)
    requires Inv(w)
    ensures Inv(Next(w, DoPrune(now)))
  {
    PruneKept(w.log, w.kept, KeptAfter(w, now), now);
    UnexpiredDistinct(w.db.events, now);
    if !AnyExpired(w.db.events, now) {
      NothingExpired(w.db.events, now);
      forall i | 0 <= i < |w.kept| ensures KeptAfter(w, now)[i] == w.kept[i] {
        if w.kept[i] {
          LoggedRowIsKept(w.log, w.kept, i);
          assert w.log[i] in w.db.events;
        }
      }
    }
  }
}
