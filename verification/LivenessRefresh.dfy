// Refreshing liveness: what is announced, and how refreshes compose.
module LivenessRefresh {
  import opened Health
  import opened Invariants
  import opened Monitor
  import opened ResourceIds
  import opened Tables

  // Every incident that opening these keys activates is announced once, and nothing else is.
  ghost predicate Announces(notices: seq<Notice>, incidents: Incidents, keys: set<IncidentKey>, now: int) {
    && (forall i, j :: 0 <= i < j < |notices| ==> notices[i].key != notices[j].key)
    && (forall i :: 0 <= i < |notices| ==>
                      && notices[i].incident == OpenedAt(now)
                      && notices[i].key in keys && !Active(incidents, notices[i].key))
    && (forall k :: k in keys && !Active(incidents, k) ==> exists i :: 0 <= i < |notices| && notices[i].key == k)
  }

  lemma AnnouncesOneMore(notices: seq<Notice>, incidents: Incidents, keys: set<IncidentKey>, key: IncidentKey, now: int)
    requires Announces(notices, incidents, keys, now)
    ensures var more := if Active(Opened(incidents, keys, now), key) then notices
                        else notices + [Notice(key, OpenedAt(now))];
            Announces(more, incidents, keys + {key}, now)
  {
    var more := if Active(Opened(incidents, keys, now), key) then notices else notices + [Notice(key, OpenedAt(now))];
    forall k | k in keys + {key} && !Active(incidents, k)
      ensures exists i :: 0 <= i < |more| && more[i].key == k
    {
      if k in keys {
        var i :| 0 <= i < |notices| && notices[i].key == k;
        assert more[i].key == k;
      } else {
        assert more[|notices|].key == k;
      }
    }
  }

  // ---------- one notice per row taken offline ----------

  lemma StaleKeysAreInactive(t: Tables, now: int, key: IncidentKey)
    requires LivenessAgrees(t.views, t.incidents)
    requires key in TimeoutKeys(StaleRunners(t.views, now), StaleJobs(t.views, now))
    ensures !Active(t.incidents, key)
  {
    if key.kind == RunnerResource {
      assert RunnerAgrees(t.views.runners[key.resourceId], key.resourceId, t.incidents);
    } else {
      var k :| k in StaleJobs(t.views, now) && key == JobTimeoutKey(k);
      assert JobAgrees(t.views.jobs[k], k, t.incidents);
    }
  }

  lemma {:induction false} CountRunnerKeys(runners: set<string>)
    ensures |RunnerTimeoutKeys(runners)| == |runners|
  {
    if r :| r in runners {
      CountRunnerKeys(runners - {r});
      assert RunnerTimeoutKeys(runners) == RunnerTimeoutKeys(runners - {r}) + {RunnerTimeoutKey(r)};
    }
  }

  lemma {:induction false} CountJobKeys(jobs: set<JobKey>)
    requires forall k :: k in jobs ==> ':' !in k.repository
    ensures |JobTimeoutKeys(jobs)| == |jobs|
  {
    if k :| k in jobs {
      CountJobKeys(jobs - {k});
      forall j | j in jobs - {k} ensures JobTimeoutKey(j) != JobTimeoutKey(k) {
        if JobTimeoutKey(j) == JobTimeoutKey(k) {
          ResourceIdInjective(j, k);
        }
      }
      assert JobTimeoutKeys(jobs) == JobTimeoutKeys(jobs - {k}) + {JobTimeoutKey(k)};
    }
  }

  lemma CountTimeoutKeys(runners: set<string>, jobs: set<JobKey>)
    requires forall k :: k in jobs ==> ':' !in k.repository
    ensures |TimeoutKeys(runners, jobs)| == |runners| + |jobs|
  {
    CountRunnerKeys(runners);
    CountJobKeys(jobs);
    assert RunnerTimeoutKeys(runners) !! JobTimeoutKeys(jobs);
  }

  lemma {:induction false} CountNotices(notices: seq<Notice>, keys: set<IncidentKey>)
    requires forall i, j :: 0 <= i < j < |notices| ==> notices[i].key != notices[j].key
    requires forall k :: k in keys <==> exists i :: 0 <= i < |notices| && notices[i].key == k
    ensures |notices| == |keys|
  {
    if notices == [] {
      assert keys == {};
    } else {
      var n := |notices| - 1;
      var init, last := notices[..n], notices[n].key;
      forall k ensures k in keys - {last} <==> exists i :: 0 <= i < n && init[i].key == k {
        if k in keys - {last} {
          var i :| 0 <= i < |notices| && notices[i].key == k;
          assert init[i].key == k;
        }
        if i :| 0 <= i < n && init[i].key == k {
          assert notices[i].key == k;
        }
      }
      CountNotices(init, keys - {last});
    }
  }

  // In a consistent database the notices stand one to one for the rows that went offline.
  lemma OneNoticePerFlip(t: Tables, now: int, notices: seq<Notice>)
    requires LivenessAgrees(t.views, t.incidents)
    requires Announces(notices, t.incidents, TimeoutKeys(StaleRunners(t.views, now), StaleJobs(t.views, now)), now)
    ensures |notices| == |StaleRunners(t.views, now)| + |StaleJobs(t.views, now)|
    ensures forall r :: r in StaleRunners(t.views, now) ==>
                          exists i :: 0 <= i < |notices| && notices[i].key == RunnerTimeoutKey(r)
    ensures forall k :: k in StaleJobs(t.views, now) ==>
                          exists i :: 0 <= i < |notices| && notices[i].key == JobTimeoutKey(k)
  {
    var runners, jobs := StaleRunners(t.views, now), StaleJobs(t.views, now);
    var keys := TimeoutKeys(runners, jobs);
    forall key | key in keys ensures !Active(t.incidents, key) {
      StaleKeysAreInactive(t, now, key);
    }
    CountNotices(notices, keys);
    CountTimeoutKeys(runners, jobs);
    assert forall r :: r in runners ==> RunnerTimeoutKey(r) in keys;
    assert forall k :: k in jobs ==> JobTimeoutKey(k) in keys;
  }

  // ---------- what a refresh leaves ----------

  // Nobody silent for more than ten minutes, 600 000 000 microseconds, stays online; the others and
  // every finished job are untouched.
  lemma RefreshSettles(v: Views, now: int)
    ensures var v' := RefreshViews(v, now);
            && v'.runners.Keys == v.runners.Keys && v'.jobs.Keys == v.jobs.Keys && v'.watermarks == v.watermarks
            && (forall r :: r in v'.runners && v'.runners[r].liveness == Online ==>
                              now - v'.runners[r].lastReceivedAt <= 600_000_000)
            && (forall k :: k in v'.jobs && v'.jobs[k].state == InProgress && v'.jobs[k].liveness == Online ==>
                              now - v'.jobs[k].lastHeartbeatAt <= 600_000_000)
            && (forall r :: r in v.runners && now - v.runners[r].lastReceivedAt <= 600_000_000 ==>
                              v'.runners[r] == v.runners[r])
            && (forall k :: k in v.jobs
                            && (v.jobs[k].state == Finished || now - v.jobs[k].lastHeartbeatAt <= 600_000_000) ==>
                              v'.jobs[k] == v.jobs[k])
  {
  }

  // An earlier refresh is absorbed by a later one.
  lemma RefreshAbsorbs(v: Views, t1: int, t2: int)
    requires t1 <= t2
    ensures RefreshViews(RefreshViews(v, t1), t2) == RefreshViews(v, t2)
  {
    RunnersAbsorb(v, t1, t2);
    JobsAbsorb(v, t1, t2);
  }

  lemma RunnersAbsorb(v: Views, t1: int, t2: int)
    requires t1 <= t2
    ensures RefreshViews(RefreshViews(v, t1), t2).runners == RefreshViews(v, t2).runners
  {
    var once, twice := RefreshViews(v, t2).runners, RefreshViews(RefreshViews(v, t1), t2).runners;
    assert forall r :: r in v.runners ==> twice[r] == once[r];
  }

  lemma JobsAbsorb(v: Views, t1: int, t2: int)
    requires t1 <= t2
    ensures RefreshViews(RefreshViews(v, t1), t2).jobs == RefreshViews(v, t2).jobs
  {
    var once, twice := RefreshViews(v, t2).jobs, RefreshViews(RefreshViews(v, t1), t2).jobs;
    assert forall k :: k in v.jobs ==> twice[k] == once[k];
  }
}
