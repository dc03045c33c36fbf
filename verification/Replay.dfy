// Replaying a complete history changes nothing.
module Replay {
  import opened Invariants
  import opened Monitor
  import opened Options
  import opened ResourceIds
  import opened Tables

  lemma {:induction false} FaithfulFlagsStand(log: seq<EventRow>)
    requires Faithful(log)
    ensures Reflagged(log) == log
  {
    if log != [] {
      FaithfulFlagsStand(log[..|log| - 1]);
    }
  }

  lemma CompleteHistoryIsTheLog(w: World)
    requires FollowsLog(w) && w.db.complete
    ensures w.db.events == w.log && CanReplay(w.db)
  {
    AllRowsKept(w.log, w.kept);
  }

  lemma OfflineRunnersRestore(v: Views, u: Views, incidents: Incidents)
    requires SameCore(v, u) && LivenessAgrees(v, incidents) && RebuiltShape(u) && OfflineAtLeast(v, u)
    ensures RunnersOffline(u.runners, OfflineRunners(v)) == v.runners
  {
    forall r | r in v.runners
      ensures RunnersOffline(u.runners, OfflineRunners(v))[r] == v.runners[r]
    {
      assert RunnerCore(v.runners[r]) == RunnerCore(u.runners[r]);
      assert RunnerAgrees(v.runners[r], r, incidents);
    }
  }

  lemma OfflineJobsRestore(v: Views, u: Views, incidents: Incidents)
    requires SameCore(v, u) && LivenessAgrees(v, incidents) && RebuiltShape(u)
    ensures JobsOffline(u.jobs, OfflineJobs(v)) == v.jobs
  {
    forall k | k in v.jobs
      ensures JobsOffline(u.jobs, OfflineJobs(v))[k] == v.jobs[k]
    {
      assert JobCore(v.jobs[k]) == JobCore(u.jobs[k]);
      assert JobAgrees(v.jobs[k], k, incidents);
    }
  }

  // Putting the old offline rows back onto the rebuilt views gives the views replay started from.
  lemma OfflineRowsRestore(w: World)
    requires Inv(w)
    ensures var rebuilt := Rebuild(w.log);
            && RunnersOffline(rebuilt.runners, OfflineRunners(w.db.views)) == w.db.views.runners
            && JobsOffline(rebuilt.jobs, OfflineJobs(w.db.views)) == w.db.views.jobs
            && rebuilt.watermarks == w.db.views.watermarks
  {
    OfflineRunnersRestore(w.db.views, Rebuild(w.log), w.db.incidents);
    OfflineJobsRestore(w.db.views, Rebuild(w.log), w.db.incidents);
  }

  // What restoring a list of incidents makes of a runner that is already offline.
  ghost predicate ReasonFrom(reason: Option<Condition>, was: Option<Condition>, r: string, order: seq<IncidentKey>) {
    if exists c :: IncidentKey(RunnerResource, r, c) in order
    then reason.Some? && IncidentKey(RunnerResource, r, reason.value) in order
    else reason == was
  }

  ghost predicate RestoredFrom(u: Views, v: Views, order: seq<IncidentKey>) {
    && u.jobs == v.jobs && u.watermarks == v.watermarks
    && u.runners.Keys == v.runners.Keys
    && forall r :: r in v.runners ==>
                     && u.runners[r] == v.runners[r].(offlineReason := u.runners[r].offlineReason)
                     && ReasonFrom(u.runners[r].offlineReason, v.runners[r].offlineReason, r, order)
  }

  // Restoring a job incident finds the job already offline for that reason.
  lemma RestoringJobIncident(u: Views, v: Views, incidents: Incidents, key: IncidentKey)
    requires LivenessAgrees(v, incidents) && u.jobs == v.jobs
    requires Active(incidents, key) && key.kind == JobResource
    ensures RestoreIncident(u, key) == u
  {
    assert IncidentAgrees(key, v);
    var job := ParseJobResourceId(key.resourceId).value;
    assert JobTimeoutKey(job) == key;
    assert JobAgrees(v.jobs[job], job, incidents);
    assert JobsOffline(u.jobs, map[job := Some(HeartbeatTimeout)]) == u.jobs;
  }

  lemma ReasonFromOneMore(
    reason: Option<Condition>, was: Option<Condition>, r: string, init: seq<IncidentKey>, key: IncidentKey)
    requires ReasonFrom(reason, was, r, init)
    ensures !(key.kind == RunnerResource && key.resourceId == r) ==> ReasonFrom(reason, was, r, init + [key])
    ensures key.kind == RunnerResource && key.resourceId == r ==> ReasonFrom(Some(key.condition), was, r, init + [key])
  {
    var order := init + [key];
    assert key in order;
    if key.kind == RunnerResource && key.resourceId == r {
      assert key == IncidentKey(RunnerResource, r, key.condition);
    } else {
      assert forall c :: IncidentKey(RunnerResource, r, c) in order <==> IncidentKey(RunnerResource, r, c) in init;
    }
  }

  lemma RestoringOneMore(u: Views, v: Views, incidents: Incidents, init: seq<IncidentKey>, key: IncidentKey)
    requires LivenessAgrees(v, incidents) && RestoredFrom(u, v, init) && Active(incidents, key)
    ensures RestoredFrom(RestoreIncident(u, key), v, init + [key])
  {
    var n := RestoreIncident(u, key);
    if key.kind == JobResource {
      RestoringJobIncident(u, v, incidents, key);
    }
    forall r | r in v.runners
      ensures n.runners[r] == v.runners[r].(offlineReason := n.runners[r].offlineReason)
      ensures ReasonFrom(n.runners[r].offlineReason, v.runners[r].offlineReason, r, init + [key])
    {
      ReasonFromOneMore(u.runners[r].offlineReason, v.runners[r].offlineReason, r, init, key);
      if key.kind == RunnerResource && key.resourceId == r {
        assert RunnerAgrees(v.runners[r], r, incidents);
        assert key.condition.HeartbeatTimeout? || key.condition.ExplicitShutdown?;
        assert key == RunnerTimeoutKey(r) || key == ShutdownKey(r);
      }
    }
  }

  lemma {:induction false} RestoringActiveIncidents(v: Views, incidents: Incidents, order: seq<IncidentKey>)
    requires LivenessAgrees(v, incidents)
    requires forall key :: key in order ==> Active(incidents, key)
    ensures RestoredFrom(RestoreIncidents(v, order), v, order)
  {
    if order != [] {
      var init, key := order[..|order| - 1], order[|order| - 1];
      RestoringActiveIncidents(v, incidents, init);
      assert order == init + [key];
      RestoringOneMore(RestoreIncidents(v, init), v, incidents, init, key);
    }
  }

  ghost predicate BothIncidents(incidents: Incidents, r: string) {
    Active(incidents, RunnerTimeoutKey(r)) && Active(incidents, ShutdownKey(r))
  }

  // Replay leaves everything as it was, save that a runner with both incidents active may
  // show either of the two conditions as its reason.
  ghost predicate SameButReasons(w: World, w': World) {
    && w'.log == w.log && w'.kept == w.kept
    && w'.db.events == w.db.events
    && w'.db.incidents == w.db.incidents
    && w'.db.complete == w.db.complete
    && w'.db.views.watermarks == w.db.views.watermarks
    && w'.db.views.jobs == w.db.views.jobs
    && w'.db.views.runners.Keys == w.db.views.runners.Keys
    && forall r :: r in w.db.views.runners ==>
                     var row, row' := w.db.views.runners[r], w'.db.views.runners[r];
                     && row' == row.(offlineReason := row'.offlineReason)
                     && (BothIncidents(w.db.incidents, r) ==>
                           row'.offlineReason in {Some(HeartbeatTimeout), Some(ExplicitShutdown)})
                     && (!BothIncidents(w.db.incidents, r) ==> row'.offlineReason == row.offlineReason)
  }

  lemma ReplayIsIdentity(w: World, order: seq<IncidentKey>)
    requires Inv(w) && w.db.complete && ListsActive(order, w.db.incidents)
    ensures CanReplay(w.db)
    ensures SameButReasons(w, Next(w, DoReplay(order)))
  {
    CompleteHistoryIsTheLog(w);
    FaithfulFlagsStand(w.log);
    OfflineRowsRestore(w);
    var v := w.db.views;
    assert v == Views(v.runners, v.jobs, v.watermarks);
    RestoringActiveIncidents(v, w.db.incidents, order);
    var u := ReplayViews(w.db, order);
    assert u == RestoreIncidents(v, order);
    forall r | r in v.runners
      ensures BothIncidents(w.db.incidents, r) ==>
                u.runners[r].offlineReason in {Some(HeartbeatTimeout), Some(ExplicitShutdown)}
      ensures !BothIncidents(w.db.incidents, r) ==> u.runners[r].offlineReason == v.runners[r].offlineReason
    {
      ReasonAfterReplay(u.runners[r].offlineReason, v.runners[r], r, w.db.incidents, order);
    }
  }

  lemma ReasonAfterReplay(
    reason: Option<Condition>, row: RunnerRow, r: string, incidents: Incidents, order: seq<IncidentKey>)
    requires ListsActive(order, incidents) && RunnerAgrees(row, r, incidents)
    requires ReasonFrom(reason, row.offlineReason, r, order)
    ensures BothIncidents(incidents, r) ==> reason in {Some(HeartbeatTimeout), Some(ExplicitShutdown)}
    ensures !BothIncidents(incidents, r) ==> reason == row.offlineReason
  {
    if c :| IncidentKey(RunnerResource, r, c) in order {
      assert c.HeartbeatTimeout? || c.ExplicitShutdown?;
      assert reason.value.HeartbeatTimeout? || reason.value.ExplicitShutdown?;
      assert Active(incidents, IncidentKey(RunnerResource, r, c));
      assert IncidentKey(RunnerResource, r, HeartbeatTimeout) == RunnerTimeoutKey(r);
      assert IncidentKey(RunnerResource, r, ExplicitShutdown) == ShutdownKey(r);
      assert Active(incidents, IncidentKey(RunnerResource, r, reason.value));
      assert row.liveness == Offline;
      assert row.offlineReason.value.HeartbeatTimeout? || row.offlineReason.value.ExplicitShutdown?;
    } else {
      assert RunnerTimeoutKey(r) !in order && ShutdownKey(r) !in order;
    }
  }

  lemma ReasonsKeepAgreement(w: World, w': World)
    requires LivenessAgrees(w.db.views, w.db.incidents) && SameButReasons(w, w')
    ensures LivenessAgrees(w'.db.views, w'.db.incidents)
  {
    forall r | r in w'.db.views.runners ensures RunnerAgrees(w'.db.views.runners[r], r, w'.db.incidents) {
      assert RunnerAgrees(w.db.views.runners[r], r, w.db.incidents);
      assert IncidentKey(RunnerResource, r, HeartbeatTimeout) == RunnerTimeoutKey(r);
      assert IncidentKey(RunnerResource, r, ExplicitShutdown) == ShutdownKey(r);
    }
    forall k | k in w'.db.views.jobs ensures JobAgrees(w'.db.views.jobs[k], k, w'.db.incidents) {
      assert JobAgrees(w.db.views.jobs[k], k, w.db.incidents);
    }
    forall key | Active(w'.db.incidents, key) ensures IncidentAgrees(key, w'.db.views) {
      assert IncidentAgrees(key, w.db.views);
    }
  }

  lemma ReasonsKeepCore(w: World, w': World)
    requires SameCore(w.db.views, Rebuild(w.log)) && OfflineAtLeast(w.db.views, Rebuild(w.log)) && SameButReasons(w, w')
    ensures SameCore(w'.db.views, Rebuild(w'.log)) && OfflineAtLeast(w'.db.views, Rebuild(w'.log))
  {
    forall r | r in w'.db.views.runners
      ensures RunnerCore(w'.db.views.runners[r]) == RunnerCore(Rebuild(w'.log).runners[r])
    {
      assert RunnerCore(w.db.views.runners[r]) == RunnerCore(Rebuild(w.log).runners[r]);
    }
  }

  lemma ReplayKeepsInv(w: World, order: seq<IncidentKey>)
    requires Inv(w) && ListsActive(order, w.db.incidents)
    ensures Inv(Next(w, DoReplay(order)))
  {
    if w.db.complete {
      ReplayIsIdentity(w, order);
      ReasonsKeepAgreement(w, Next(w, DoReplay(order)));
      ReasonsKeepCore(w, Next(w, DoReplay(order)));
    }
  }

  // ---------- every reachable world ----------

  lemma NextKeepsInv(w: World, a: Action)
    requires Inv(w) && Enabled(w, a)
    ensures Inv(Next(w, a))
  {
    match a
    case DoIngest(e, receivedAt) => IngestKeepsInv(w, e, receivedAt);
    case DoRefresh(now) => RefreshKeepsInv(w, now);
    case DoReplay(order) => ReplayKeepsInv(w, order);
    case DoPrune(now) => PruneKeepsInv(w, now);
  }

  lemma {:induction false} RunKeepsInv(worlds: seq<World>, actions: seq<Action>, i: nat)
    requires IsRun(worlds, actions) && i <= |actions|
    ensures Inv(worlds[i])
  {
    if i > 0 {
      RunKeepsInv(worlds, actions, i - 1);
      NextKeepsInv(worlds[i - 1], actions[i - 1]);
    }
  }

  // From any world of any run in which nothing was pruned, replay succeeds and changes nothing
  // but the choice between two active reasons.
  lemma ReplayIsIdentityInEveryRun(worlds: seq<World>, actions: seq<Action>, i: nat, order: seq<IncidentKey>)
    requires IsRun(worlds, actions) && i <= |actions|
    requires forall j :: 0 <= j < i ==> !actions[j].DoPrune?
    requires ListsActive(order, worlds[i].db.incidents)
    ensures CanReplay(worlds[i].db)
    ensures SameButReasons(worlds[i], Next(worlds[i], DoReplay(order)))
  {
    RunKeepsInv(worlds, actions, i);
    UnprunedStaysComplete(worlds, actions, i);
    ReplayIsIdentity(worlds[i], order);
  }

  lemma {:induction false} UnprunedStaysComplete(worlds: seq<World>, actions: seq<Action>, i: nat)
    requires IsRun(worlds, actions) && i <= |actions|
    requires forall j :: 0 <= j < i ==> !actions[j].DoPrune?
    ensures worlds[i].db.complete
  {
    if i > 0 {
      UnprunedStaysComplete(worlds, actions, i - 1);
      assert !actions[i - 1].DoPrune?;
    }
  }

  // In every world of every run a runner is offline exactly while one of its incidents is
  // active, a job exactly while its timeout is, and a finished job is online.
  lemma LivenessFollowsIncidents(worlds: seq<World>, actions: seq<Action>, i: nat)
    requires IsRun(worlds, actions) && i <= |actions|
    ensures var v, incidents := worlds[i].db.views, worlds[i].db.incidents;
            && (forall r :: r in v.runners ==>
                              (v.runners[r].liveness == Offline <==>
                               exists c :: Active(incidents, IncidentKey(RunnerResource, r, c))))
            && (forall k :: k in v.jobs ==>
                              (v.jobs[k].liveness == Offline <==>
                               Active(incidents, IncidentKey(JobResource, JobResourceId(k), HeartbeatTimeout))))
            && (forall k :: k in v.jobs && v.jobs[k].state == Finished ==> v.jobs[k].liveness == Online)
            && (forall key :: Active(incidents, key) ==> IncidentAgrees(key, v))
  {
    RunKeepsInv(worlds, actions, i);
    var v, incidents := worlds[i].db.views, worlds[i].db.incidents;
    forall r | r in v.runners
      ensures v.runners[r].liveness == Offline <==> exists c :: Active(incidents, IncidentKey(RunnerResource, r, c))
    {
      assert RunnerAgrees(v.runners[r], r, incidents);
      if c :| Active(incidents, IncidentKey(RunnerResource, r, c)) {
        assert c.HeartbeatTimeout? || c.ExplicitShutdown?;
        assert IncidentKey(RunnerResource, r, c) == RunnerTimeoutKey(r)
               || IncidentKey(RunnerResource, r, c) == ShutdownKey(r);
      }
    }
    forall k | k in v.jobs
      ensures v.jobs[k].liveness == Offline <==>
              Active(incidents, IncidentKey(JobResource, JobResourceId(k), HeartbeatTimeout))
      ensures v.jobs[k].state == Finished ==> v.jobs[k].liveness == Online
    {
      assert JobAgrees(v.jobs[k], k, incidents);
    }
  }
}
