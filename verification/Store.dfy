// The monitor's store.  Every method that returns normally takes one step of the
// transition system; a method whose transaction raises takes none.
module MonitorStore {
  import opened Contracts
  import opened Filtering
  import opened Health
  import opened LivenessRefresh
  import opened Monitor
  import opened Options
  import opened Projection
  import opened Replay
  import opened ResourceIds
  import opened Retention
  import opened Tables

  datatype IngestResult =
    | Ingested(eventId: string, duplicate: bool, projectionApplied: bool, watermark: Option<int>)
    | InvalidEvent
    | DatabaseError

  datatype RefreshResult = Refreshed(notices: seq<Notice>) | RefreshFailed

  // The active part of the incident table.
  function ActiveKeys(incidents: Incidents): set<IncidentKey> {
    set k | k in incidents && incidents[k].active
  }

  // Keys already handled by a loop over a map's rows.
  function Restrict<K, V>(m: map<K, V>, keys: set<K>): map<K, V> {
    map k | k in m && k in keys :: m[k]
  }

  // The notices after opening one more incident.
  function WithNotice(notices: seq<Notice>, incidents: Incidents, key: IncidentKey, now: int): seq<Notice> {
    if Active(incidents, key) then notices else notices + [Notice(key, OpenedAt(now))]
  }

  lemma TimedOutOneMore(
    notices: seq<Notice>, incidents: Incidents, keys: set<IncidentKey>, key: IncidentKey, more: set<IncidentKey>,
    now: int)
    requires Announces(notices, incidents, keys, now)
    requires more == keys + {key}
    ensures var sofar := Opened(incidents, keys, now);
            && Opened(sofar, {key}, now) == Opened(incidents, more, now)
            && Announces(WithNotice(notices, sofar, key, now), incidents, more, now)
  {
    OpenedOneMore(incidents, keys, key, now);
    AnnouncesOneMore(notices, incidents, keys, key, now);
  }

  lemma RunnerTimedOut(notices: seq<Notice>, incidents: Incidents, done: set<string>, r: string, now: int)
    requires Announces(notices, incidents, TimeoutKeys(done, {}), now)
    ensures var sofar, more := Opened(incidents, TimeoutKeys(done, {}), now), TimeoutKeys(done + {r}, {});
            && Opened(sofar, {RunnerTimeoutKey(r)}, now) == Opened(incidents, more, now)
            && Announces(WithNotice(notices, sofar, RunnerTimeoutKey(r), now), incidents, more, now)
    ensures forall runners ::
              RunnersTimedOut(RunnersTimedOut(runners, done), {r}) == RunnersTimedOut(runners, done + {r})
  {
    assert TimeoutKeys(done + {r}, {}) == TimeoutKeys(done, {}) + {RunnerTimeoutKey(r)};
    TimedOutOneMore(notices, incidents, TimeoutKeys(done, {}), RunnerTimeoutKey(r), TimeoutKeys(done + {r}, {}), now);
  }

  lemma JobTimedOut(
    notices: seq<Notice>, incidents: Incidents, runners: set<string>, done: set<JobKey>, k: JobKey, now: int)
    requires Announces(notices, incidents, TimeoutKeys(runners, done), now)
    ensures var sofar, more := Opened(incidents, TimeoutKeys(runners, done), now), TimeoutKeys(runners, done + {k});
            && Opened(sofar, {JobTimeoutKey(k)}, now) == Opened(incidents, more, now)
            && Announces(WithNotice(notices, sofar, JobTimeoutKey(k), now), incidents, more, now)
    ensures forall jobs :: JobsTimedOut(JobsTimedOut(jobs, done), {k}) == JobsTimedOut(jobs, done + {k})
  {
    assert TimeoutKeys(runners, done + {k}) == TimeoutKeys(runners, done) + {JobTimeoutKey(k)};
    TimedOutOneMore(notices, incidents, TimeoutKeys(runners, done), JobTimeoutKey(k),
                    TimeoutKeys(runners, done + {k}), now);
  }

  // The first i rows are replayed: flagged afresh in the table and projected into the views.
  ghost predicate HalfReplayed(rows: seq<EventRow>, i: nat, events: seq<EventRow>, views: Views) {
    && i <= |rows| && AllValid(rows[..i])
    && views == Rebuild(rows[..i])
    && events == Reflagged(rows[..i]) + rows[i..]
  }

  lemma ReplayedOneMore(rows: seq<EventRow>, i: nat, events: seq<EventRow>, views: Views)
    requires HalfReplayed(rows, i, events, views) && i < |rows|
    ensures |events| == |rows|
    ensures Contracts.Valid(rows[i].event) ==>
              HalfReplayed(rows, i + 1, events[i := rows[i].(applied := Accepts(views, rows[i].event))],
                           Project(views, rows[i].event, rows[i].receivedAt))
  {
    var init, flagged := Reflagged(rows[..i]), rows[i].(applied := Accepts(views, rows[i].event));
    assert rows[..i + 1][..i] == rows[..i];
    assert rows[i..] == [rows[i]] + rows[i + 1..];
    assert (init + rows[i..])[i := flagged] == init + [flagged] + rows[i + 1..];
    assert rows[..i + 1] == rows[..i] + [rows[i]];
  }

  lemma ReplayedAll(rows: seq<EventRow>, events: seq<EventRow>, views: Views)
    requires HalfReplayed(rows, |rows|, events, views)
    ensures AllValid(rows) && views == Rebuild(rows) && events == Reflagged(rows)
  {
    assert rows[..|rows|] == rows;
  }

  lemma KeptRows(t: Tables, now: int)
    ensures Prune(t, now).events == Filtered(t.events, ReceivedSince(now - 604_800_000_000))
    ensures forall row ::
              row in Prune(t, now).events <==> row in t.events && row.receivedAt >= now - 604_800_000_000
  {
    PruneKeepsSevenDays(t, now);
    forall row ensures row in Prune(t, now).events <==> row in t.events && row.receivedAt >= now - 604_800_000_000 {
      PruneKeepsRow(t, now, row);
    }
  }

  lemma {:induction false} UnexpiredShrinks(rows: seq<EventRow>, now: int)
    ensures |Unexpired(rows, now)| <= |rows|
    ensures |Unexpired(rows, now)| == |rows| <==> !AnyExpired(rows, now)
  {
    if rows != [] {
      var n := |rows| - 1;
      UnexpiredShrinks(rows[..n], now);
      if i :| 0 <= i < n && Expired(rows[i], now) {
        assert rows[..n][i] == rows[i];
      }
      if i :| 0 <= i < n && Expired(rows[..n][i], now) {
        assert Expired(rows[i], now);
      }
    }
  }

  // What the methods below use of the invariant of every run.
  lemma RunAnnouncesEachFlip(worlds: seq<World>, actions: seq<Action>, now: int, notices: seq<Notice>)
    requires IsRun(worlds, actions)
    requires var t := worlds[|actions|].db;
             Announces(notices, t.incidents, TimeoutKeys(StaleRunners(t.views, now), StaleJobs(t.views, now)), now)
    ensures var t := worlds[|actions|].db;
            |notices| == |StaleRunners(t.views, now)| + |StaleJobs(t.views, now)|
  {
    RunKeepsInv(worlds, actions, |actions|);
    OneNoticePerFlip(worlds[|actions|].db, now, notices);
  }

  lemma RunReplays(worlds: seq<World>, actions: seq<Action>, order: seq<IncidentKey>)
    requires IsRun(worlds, actions) && worlds[|actions|].db.complete
    ensures CanReplay(worlds[|actions|].db)
    ensures ListsActive(order, worlds[|actions|].db.incidents) ==>
              SameButReasons(worlds[|actions|], Next(worlds[|actions|], DoReplay(order)))
  {
    RunKeepsInv(worlds, actions, |actions|);
    CompleteHistoryIsTheLog(worlds[|actions|]);
    if ListsActive(order, worlds[|actions|].db.incidents) {
      ReplayIsIdentity(worlds[|actions|], order);
    }
  }

  class Store {
    const db: Database
    var degradedReasons: set<string>
    ghost var worlds: seq<World>
    ghost var actions: seq<Action>

    // The tables are those of the last world of a run.
    ghost predicate Valid()
      reads this, db
    {
      && IsRun(worlds, actions)
      && worlds[|actions|].db == db.Contents()
    }

    ghost function Current(): World
      requires Valid()
      reads this, db
    {
      worlds[|actions|]
    }

    // The run so far is the old one, with at most this action added.
    twostate predicate Steps(a: Action)
      requires old(Valid()) && Valid()
      reads this, db
    {
      && actions == old(actions) + [a]
      && worlds == old(worlds) + [Next(old(Current()), a)]
    }

    twostate predicate Stays()
      reads this, db
    {
      worlds == old(worlds) && actions == old(actions) && db.Contents() == old(db.Contents())
    }

    constructor ()
      ensures Valid() && fresh(db)
      ensures worlds == [INITIAL] && actions == [] && degradedReasons == {}
    {
      db := new Database();
      degradedReasons := {};
      worlds, actions := [INITIAL], [];
    }

    // The history of the store grows by one action.
    ghost method Record(world: World, a: Action)
      requires IsRun(worlds, actions) && worlds[|actions|] == world
      requires Enabled(world, a) && db.Contents() == Next(world, a).db
      modifies `worlds, `actions
      ensures Valid()
      ensures actions == old(actions) + [a] && worlds == old(worlds) + [Next(world, a)]
    {
      worlds, actions := worlds + [Next(world, a)], actions + [a];
    }

    // SELECT ... FROM events WHERE event_id = ?
    method SelectEvent(id: string) returns (row: Option<EventRow>)
      ensures row.Some? <==> Recorded(db.events, id)
      ensures row.Some? ==> row.value in db.events && row.value.event.id == id
    {
      var i := 0;
      while i < |db.events|
        invariant 0 <= i <= |db.events|
        invariant forall j :: 0 <= j < i ==> db.events[j].event.id != id
      {
        if db.events[i].event.id == id {
          return Some(db.events[i]);
        }
        i := i + 1;
      }
      row := None;
    }

    // The writes of one ingest transaction.
    method Append(e: Event, receivedAt: int) returns (applied: bool)
      requires !Recorded(db.events, e.id)
      modifies db
      ensures applied == Accepts(old(db.Projections()), e)
      ensures db.Contents() == Monitor.Ingest(old(db.Contents()), e, receivedAt)
    {
      ghost var rows := db.events;
      db.events := db.events + [EventRow(e, receivedAt, false)];
      applied := ApplyEvent(db, e, receivedAt, true);
      db.events := db.events[|db.events| - 1 := EventRow(e, receivedAt, applied)];
      assert db.events == rows + [EventRow(e, receivedAt, applied)];
      if applied && e.body.RunnerOffline? {
        var _ := OpenIncident(db, RunnerResource, e.runnerId, ExplicitShutdown, receivedAt);
      }
    }

    method Ingest(e: Event, receivedAt: int, databaseFails: bool) returns (result: IngestResult)
      requires Valid()
      modifies this, db
      ensures Valid() && degradedReasons == old(degradedReasons)
      ensures !Contracts.Valid(e) <==> result.InvalidEvent?
      ensures result.DatabaseError? <==> Contracts.Valid(e) && databaseFails
      ensures !result.Ingested? ==> Stays()
      ensures result.Ingested? ==>
                && Steps(DoIngest(e, receivedAt))
                && result.eventId == e.id
                && result.duplicate == Recorded(old(db.events), e.id)
                && (result.duplicate ==> EventFlag(old(db.events), e.id, result.projectionApplied))
                && (!result.duplicate ==> result.projectionApplied == Accepts(old(db.Projections()), e))
                && result.watermark == Lookup(db.watermarks, Stream(e))
    {
      if !Contracts.Valid(e) {
        return InvalidEvent;
      }
      var saved := db.Contents();
      ghost var world := Current();
      var duplicate := SelectEvent(e.id);
      if duplicate.Some? {
        if databaseFails {
          return DatabaseError;
        }
        Record(world, DoIngest(e, receivedAt));
        return Ingested(e.id, true, duplicate.value.applied, Lookup(db.watermarks, Stream(e)));
      }
      var applied := Append(e, receivedAt);
      if databaseFails {
        db.Rollback(saved);
        return DatabaseError;
      }
      Record(world, DoIngest(e, receivedAt));
      result := Ingested(e.id, false, applied, Lookup(db.watermarks, Stream(e)));
    }

    method TimeOutRunner(r: string, now: int, notices: seq<Notice>) returns (more: seq<Notice>)
      requires r in db.runnerState
      modifies db`runnerState, db`incidents
      ensures db.runnerState == RunnersTimedOut(old(db.runnerState), {r})
      ensures db.incidents == Opened(old(db.incidents), {RunnerTimeoutKey(r)}, now)
      ensures more == WithNotice(notices, old(db.incidents), RunnerTimeoutKey(r), now)
    {
      db.runnerState :=
        db.runnerState[r := db.runnerState[r].(liveness := Offline, offlineReason := Some(HeartbeatTimeout))];
      var created := OpenIncident(db, RunnerResource, r, HeartbeatTimeout, now);
      more := if created.Some? then notices + [created.value] else notices;
    }

    method TimeOutJob(k: JobKey, now: int, notices: seq<Notice>) returns (more: seq<Notice>)
      requires k in db.jobState
      modifies db`jobState, db`incidents
      ensures db.jobState == JobsTimedOut(old(db.jobState), {k})
      ensures db.incidents == Opened(old(db.incidents), {JobTimeoutKey(k)}, now)
      ensures more == WithNotice(notices, old(db.incidents), JobTimeoutKey(k), now)
    {
      db.jobState := db.jobState[k := db.jobState[k].(liveness := Offline, offlineReason := Some(HeartbeatTimeout))];
      var created := OpenIncident(db, JobResource, JobResourceId(k), HeartbeatTimeout, now);
      more := if created.Some? then notices + [created.value] else notices;
    }

    // Marks the silent runners offline, opening an incident for each.
    method TimeOutRunners(now: int) returns (notices: seq<Notice>, ghost stale: set<string>)
      modifies db`runnerState, db`incidents
      ensures stale == StaleRunners(old(db.Projections()), now)
      ensures db.runnerState == RunnersTimedOut(old(db.runnerState), stale)
      ensures db.incidents == Opened(old(db.incidents), TimeoutKeys(stale, {}), now)
      ensures Announces(notices, old(db.incidents), TimeoutKeys(stale, {}), now)
    {
      var staleRunners := set r | r in db.runnerState
                                  && db.runnerState[r].liveness == Online
                                  && db.runnerState[r].lastReceivedAt < now - LIVENESS_TIMEOUT;
      stale, notices := staleRunners, [];
      var left := staleRunners;
      while left != {}
        invariant left <= staleRunners
        invariant db.runnerState == RunnersTimedOut(old(db.runnerState), staleRunners - left)
        invariant db.incidents == Opened(old(db.incidents), TimeoutKeys(staleRunners - left, {}), now)
        invariant Announces(notices, old(db.incidents), TimeoutKeys(staleRunners - left, {}), now)
      {
        var r :| r in left;
        ghost var done := staleRunners - left;
        RunnerTimedOut(notices, old(db.incidents), done, r, now);
        left := left - {r};
        assert staleRunners - left == done + {r};
        notices := TimeOutRunner(r, now, notices);
      }
      assert staleRunners - left == staleRunners;
    }

    // The same for silent running jobs; what the runners announced is carried along.
    method TimeOutJobs(now: int, announced: seq<Notice>, ghost incidents: Incidents, ghost runners: set<string>)
      returns (notices: seq<Notice>, ghost stale: set<JobKey>)
      requires db.incidents == Opened(incidents, TimeoutKeys(runners, {}), now)
      requires Announces(announced, incidents, TimeoutKeys(runners, {}), now)
      modifies db`jobState, db`incidents
      ensures stale == StaleJobs(old(db.Projections()), now)
      ensures db.jobState == JobsTimedOut(old(db.jobState), stale)
      ensures db.incidents == Opened(incidents, TimeoutKeys(runners, stale), now)
      ensures Announces(notices, incidents, TimeoutKeys(runners, stale), now)
    {
      var staleJobs := set k | k in db.jobState
                               && db.jobState[k].state == InProgress
                               && db.jobState[k].liveness == Online
                               && db.jobState[k].lastHeartbeatAt < now - LIVENESS_TIMEOUT;
      stale, notices := staleJobs, announced;
      var left := staleJobs;
      assert staleJobs - left == {};
      while left != {}
        invariant left <= staleJobs
        invariant db.jobState == JobsTimedOut(old(db.jobState), staleJobs - left)
        invariant db.incidents == Opened(incidents, TimeoutKeys(runners, staleJobs - left), now)
        invariant Announces(notices, incidents, TimeoutKeys(runners, staleJobs - left), now)
      {
        var k :| k in left;
        ghost var done := staleJobs - left;
        JobTimedOut(notices, incidents, runners, done, k, now);
        left := left - {k};
        assert staleJobs - left == done + {k};
        notices := TimeOutJob(k, now, notices);
      }
      assert staleJobs - left == staleJobs;
    }

    // Announces one notice for every row it takes offline.
    method RefreshLiveness(now: int, databaseFails: bool) returns (result: RefreshResult)
      requires Valid()
      modifies this, db
      ensures Valid() && degradedReasons == old(degradedReasons)
      ensures result.RefreshFailed? <==> databaseFails
      ensures databaseFails ==> Stays()
      ensures !databaseFails ==>
                var v := old(db.Projections());
                && Steps(DoRefresh(now))
                && Announces(result.notices, old(db.incidents), TimeoutKeys(StaleRunners(v, now), StaleJobs(v, now)),
                             now)
                && |result.notices| == |StaleRunners(v, now)| + |StaleJobs(v, now)|
    {
      var saved := db.Contents();
      ghost var world := Current();
      var runnerNotices, staleRunners := TimeOutRunners(now);
      var notices, staleJobs := TimeOutJobs(now, runnerNotices, saved.incidents, staleRunners);
      if databaseFails {
        db.Rollback(saved);
        return RefreshFailed;
      }
      RunAnnouncesEachFlip(worlds, actions, now, notices);
      Record(world, DoRefresh(now));
      result := Refreshed(notices);
    }

    method ReplayRow(i: nat, row: EventRow, ghost before: Views)
      requires i < |db.events| && db.Projections() == before
      modifies db
      ensures db.incidents == old(db.incidents) && db.historyComplete == old(db.historyComplete)
      ensures db.Projections() == Project(before, row.event, row.receivedAt)
      ensures db.events == old(db.events)[i := row.(applied := Accepts(before, row.event))]
    {
      var applied := ApplyEvent(db, row.event, row.receivedAt, false);
      db.events := db.events[i := row.(applied := applied)];
    }

    // Rebuilds watermarks, rows and flags by applying every stored event again.
    method RebuildFromEvents() returns (rejected: bool)
      modifies db
      ensures db.incidents == old(db.incidents) && db.historyComplete == old(db.historyComplete)
      ensures rejected <==> !AllValid(old(db.events))
      ensures !rejected ==> db.Projections() == Rebuild(old(db.events)) && db.events == Reflagged(old(db.events))
    {
      var rows := db.events;
      db.runnerState, db.jobState, db.watermarks := map[], map[], map[];
      var i := 0;
      while i < |rows|
        invariant 0 <= i <= |rows|
        invariant db.incidents == old(db.incidents) && db.historyComplete == old(db.historyComplete)
        invariant HalfReplayed(rows, i, db.events, db.Projections())
      {
        ReplayedOneMore(rows, i, db.events, db.Projections());
        if !Contracts.Valid(rows[i].event) {
          return true;
        }
        ReplayRow(i, rows[i], db.Projections());
        i := i + 1;
      }
      ReplayedAll(rows, db.events, db.Projections());
      rejected := false;
    }

    // UPDATE runner_state SET liveness = 'offline' for the runners that were offline.
    method RestoreOfflineRunners(offline: map<string, Option<Condition>>)
      modifies db`runnerState
      ensures db.runnerState == RunnersOffline(old(db.runnerState), offline)
    {
      var left := offline.Keys;
      while left != {}
        invariant left <= offline.Keys
        invariant db.runnerState == RunnersOffline(old(db.runnerState), Restrict(offline, offline.Keys - left))
      {
        var r :| r in left;
        left := left - {r};
        if r in db.runnerState {
          db.runnerState := db.runnerState[r := db.runnerState[r].(liveness := Offline, offlineReason := offline[r])];
        }
      }
      assert Restrict(offline, offline.Keys - left) == offline;
    }

    // UPDATE job_state SET liveness = 'offline' for the jobs that were offline.
    method RestoreOfflineJobs(offline: map<JobKey, Option<Condition>>)
      modifies db`jobState
      ensures db.jobState == JobsOffline(old(db.jobState), offline)
    {
      var left := offline.Keys;
      while left != {}
        invariant left <= offline.Keys
        invariant db.jobState == JobsOffline(old(db.jobState), Restrict(offline, offline.Keys - left))
      {
        var k :| k in left;
        left := left - {k};
        if k in db.jobState {
          db.jobState := db.jobState[k := db.jobState[k].(liveness := Offline, offlineReason := offline[k])];
        }
      }
      assert Restrict(offline, offline.Keys - left) == offline;
    }

    // A rebuild knows nothing of silence: each resource that still has an active incident is
    // put back offline, with that incident's condition as its reason.
    method RestoreOfflineIncidentLiveness(active: set<IncidentKey>) returns (ghost order: seq<IncidentKey>)
      modifies db`runnerState, db`jobState
      ensures forall k :: k in order <==> k in active
      ensures db.Projections() == RestoreIncidents(old(db.Projections()), order)
    {
      order := [];
      var left := active;
      while left != {}
        invariant left <= active
        invariant forall k :: k in order <==> k in active - left
        invariant db.Projections() == RestoreIncidents(old(db.Projections()), order)
      {
        var key :| key in left;
        left := left - {key};
        ghost var before := db.Projections();
        if key.kind == RunnerResource {
          if key.resourceId in db.runnerState {
            db.runnerState := db.runnerState[key.resourceId :=
            db.runnerState[key.resourceId].(liveness := Offline, offlineReason := Some(key.condition))];
          }
        } else if key.condition == HeartbeatTimeout {
          var job := ParseJobResourceId(key.resourceId);
          if job.Some? && job.value in db.jobState {
            db.jobState := db.jobState[job.value :=
            db.jobState[job.value].(liveness := Offline, offlineReason := Some(HeartbeatTimeout))];
          }
        }
        UpdatedLikeRestore(before, key, db.Projections());
        assert (order + [key])[..|order|] == order;
        order := order + [key];
      }
    }

    // The statements of one replay transaction.
    method ReplayTransaction() returns (rejected: bool, ghost order: seq<IncidentKey>)
      modifies db
      ensures rejected <==> !AllValid(old(db.events))
      ensures !rejected ==>
                && ListsActive(order, old(db.incidents))
                && db.Contents() == Monitor.Replay(old(db.Contents()), order)
    {
      var offlineRunners := map r | r in db.runnerState
                                    && db.runnerState[r].liveness == Offline :: db.runnerState[r].offlineReason;
      var offlineJobs := map k | k in db.jobState && db.jobState[k].liveness == Offline :: db.jobState[k].offlineReason;
      var active := ActiveKeys(db.incidents);
      assert offlineRunners == OfflineRunners(db.Projections()) && offlineJobs == OfflineJobs(db.Projections());
      rejected := RebuildFromEvents();
      if rejected {
        order := [];
        return;
      }
      RestoreOfflineRunners(offlineRunners);
      RestoreOfflineJobs(offlineJobs);
      order := RestoreOfflineIncidentLiveness(active);
    }

    // Recomputes all views from the event table in one transaction; when any of it fails, the
    // tables stay as they were and the database is reported degraded.
    method Replay(databaseFails: bool) returns (ok: bool, ghost order: seq<IncidentKey>)
      requires Valid()
      modifies this, db
      ensures Valid()
      ensures ok <==> old(db.historyComplete) && !databaseFails
      ensures !ok ==> Stays()
      ensures ok ==>
                ListsActive(order, old(db.incidents)) && Steps(DoReplay(order))
                && SameButReasons(old(Current()), Current())
      ensures degradedReasons == if !old(db.historyComplete) then old(degradedReasons) + {"replay_incomplete_history"}
                                 else if databaseFails then old(degradedReasons) + {"replay_failed"}
                                 else old(degradedReasons) - {"replay_failed"} - {"replay_incomplete_history"}
    {
      if !db.historyComplete {
        degradedReasons := degradedReasons + {"replay_incomplete_history"};
        order := [];
        return false, order;
      }
      var saved := db.Contents();
      ghost var world := Current();
      var rejected;
      rejected, order := ReplayTransaction();
      RunReplays(worlds, actions, order);
      if rejected || databaseFails {
        db.Rollback(saved);
        degradedReasons := degradedReasons + {"replay_failed"};
        return false, order;
      }
      degradedReasons := degradedReasons - {"replay_failed"};
      degradedReasons := degradedReasons - {"replay_incomplete_history"};
      Record(world, DoReplay(order));
      ok := true;
    }

    // Goes through the event table for the rows that stay, and counts the others.
    method Sift(now: int) returns (remaining: seq<EventRow>, expired: nat)
      ensures remaining == Unexpired(db.events, now) && expired == |db.events| - |remaining|
      ensures expired == 0 <==> !AnyExpired(db.events, now)
    {
      var cutoff := now - RETENTION;
      remaining, expired := [], 0;
      var i := 0;
      while i < |db.events|
        invariant 0 <= i <= |db.events|
        invariant remaining == Unexpired(db.events[..i], now) && expired == i - |remaining|
      {
        assert db.events[..i + 1][..i] == db.events[..i];
        if db.events[i].receivedAt < cutoff {
          expired := expired + 1;
        } else {
          remaining := remaining + [db.events[i]];
        }
        i := i + 1;
      }
      assert db.events[..i] == db.events;
      UnexpiredShrinks(db.events, now);
    }

    // Drops the expired rows of the event table and nothing else, and remembers that some are gone.
    method PruneHistory(now: int, databaseFails: bool) returns (removed: nat)
      requires Valid()
      modifies this, db
      ensures Valid()
      ensures databaseFails ==> Stays() && removed == 0 && degradedReasons == old(degradedReasons) + {"cleanup_failed"}
      ensures !databaseFails ==>
                && Steps(DoPrune(now))
                && removed == |old(db.events)| - |db.events|
                && (db.historyComplete <==> old(db.historyComplete) && removed == 0)
                && degradedReasons == old(degradedReasons) - {"cleanup_failed"}
      // exactly the rows of the last seven days stay, in their order
      ensures !databaseFails ==>
                && db.events == Filtered(old(db.events), ReceivedSince(now - 604_800_000_000))
                && (forall row ::
                      row in db.events <==> row in old(db.events) && row.receivedAt >= now - 604_800_000_000)
    {
      var saved := db.Contents();
      ghost var world := Current();
      var remaining, expired := Sift(now);
      if expired > 0 {
        db.events := remaining;
        db.historyComplete := false;
      }
      if databaseFails {
        db.Rollback(saved);
        degradedReasons := degradedReasons + {"cleanup_failed"};
        return 0;
      }
      degradedReasons := degradedReasons - {"cleanup_failed"};
      KeptRows(saved, now);
      Record(world, DoPrune(now));
      removed := expired;
    }
  }

  lemma UpdatedLikeRestore(before: Views, key: IncidentKey, after: Views)
    requires after.watermarks == before.watermarks
    requires after.runners == if key.kind == RunnerResource && key.resourceId in before.runners
                              then before.runners[key.resourceId :=
                                   before.runners[key.resourceId].(liveness := Offline,
                                   offlineReason := Some(key.condition))]
                              else before.runners
    requires var job := ParseJobResourceId(key.resourceId);
             after.jobs == if key.kind == JobResource && key.condition == HeartbeatTimeout && job.Some?
                              && job.value in before.jobs
             then before.jobs[job.value :=
                  before.jobs[job.value].(liveness := Offline, offlineReason := Some(HeartbeatTimeout))]
             else before.jobs
    ensures after == RestoreIncident(before, key)
  {
    if key.kind == RunnerResource {
      assert after.runners == RunnersOffline(before.runners, map[key.resourceId := Some(key.condition)]);
    } else if key.condition == HeartbeatTimeout && ParseJobResourceId(key.resourceId).Some? {
      var job := ParseJobResourceId(key.resourceId).value;
      assert after.jobs == JobsOffline(before.jobs, map[job := Some(HeartbeatTimeout)]);
    }
  }

  ghost predicate EventFlag(rows: seq<EventRow>, id: string, applied: bool) {
    exists i :: 0 <= i < |rows| && rows[i].event.id == id && rows[i].applied == applied
  }
}
