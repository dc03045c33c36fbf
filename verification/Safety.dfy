// What holds along whole runs of the monitor.
module Safety {
  import opened Contracts
  import opened Invariants
  import opened Monitor
  import opened Options
  import opened Projection
  import opened Queries
  import opened Replay
  import opened ResourceIds
  import opened Tables

  // ---------- finished jobs are frozen ----------

  ghost predicate FinishedWith(w: World, k: JobKey, row: JobRow) {
    k in w.db.views.jobs && w.db.views.jobs[k] == row && row.state == Finished
  }

  // A finished job accepts nothing.
  lemma FinishedThroughIngest(v: Views, e: Event, receivedAt: int, k: JobKey)
    requires k in v.jobs && v.jobs[k].state == Finished
    ensures k in Project(v, e, receivedAt).jobs && Project(v, e, receivedAt).jobs[k] == v.jobs[k]
  {
  }

  lemma FinishedThroughRefresh(v: Views, now: int, k: JobKey)
    requires k in v.jobs && v.jobs[k].state == Finished
    ensures k in RefreshViews(v, now).jobs && RefreshViews(v, now).jobs[k] == v.jobs[k]
  {
  }

  lemma FinishedStepFrozen(w: World, a: Action, k: JobKey, row: JobRow)
    requires Inv(w) && Enabled(w, a) && FinishedWith(w, k, row)
    ensures FinishedWith(Next(w, a), k, row)
  {
    match a
    case DoIngest(e, receivedAt) => FinishedThroughIngest(w.db.views, e, receivedAt, k);
    case DoRefresh(now) => FinishedThroughRefresh(w.db.views, now, k);
    case DoReplay(order) =>
      if w.db.complete {
        ReplayIsIdentity(w, order);
      }
    case DoPrune(_) =>
  }

  lemma {:induction false} FinishedJobIsFrozen(worlds: seq<World>, actions: seq<Action>, i: nat, j: nat, k: JobKey)
    requires IsRun(worlds, actions) && i <= j <= |actions|
    requires k in worlds[i].db.views.jobs && worlds[i].db.views.jobs[k].state == Finished
    ensures FinishedWith(worlds[j], k, worlds[i].db.views.jobs[k])
  {
    if i < j {
      FinishedJobIsFrozen(worlds, actions, i, j - 1, k);
      RunKeepsInv(worlds, actions, j - 1);
      FinishedStepFrozen(worlds[j - 1], actions[j - 1], k, worlds[i].db.views.jobs[k]);
    }
  }

  // ---------- attempts never go back ----------

  ghost predicate OnRun(w: World, r: string, repository: string, workflowRunId: int) {
    && r in w.db.views.runners
    && w.db.views.runners[r].currentJob.Some?
    && w.db.views.runners[r].currentJob.value.repository == repository
    && w.db.views.runners[r].currentJob.value.workflowRunId == workflowRunId
  }

  ghost function Attempt(w: World, r: string): int {
    if r in w.db.views.runners && w.db.views.runners[r].currentJob.Some?
    then w.db.views.runners[r].currentJob.value.runAttempt else 0
  }

  lemma AttemptStep(w: World, a: Action, r: string, repository: string, workflowRunId: int)
    requires Inv(w) && Enabled(w, a)
    requires OnRun(w, r, repository, workflowRunId) && OnRun(Next(w, a), r, repository, workflowRunId)
    ensures Attempt(w, r) <= Attempt(Next(w, a), r)
  {
    match a
    case DoReplay(order) =>
      if w.db.complete {
        ReplayIsIdentity(w, order);
      }
    case _ =>
  }

  lemma AttemptStepInRun(
    worlds: seq<World>, actions: seq<Action>, j: nat, r: string, repository: string, workflowRunId: int)
    requires IsRun(worlds, actions) && j < |actions|
    requires OnRun(worlds[j], r, repository, workflowRunId) && OnRun(worlds[j + 1], r, repository, workflowRunId)
    ensures Attempt(worlds[j], r) <= Attempt(worlds[j + 1], r)
  {
    RunKeepsInv(worlds, actions, j);
    AttemptStep(worlds[j], actions[j], r, repository, workflowRunId);
  }

  lemma {:induction false} AttemptsChain(worlds: seq<World>, i: nat, j: nat, r: string)
    requires i <= j < |worlds|
    requires forall m :: i <= m < j ==> Attempt(worlds[m], r) <= Attempt(worlds[m + 1], r)
    ensures Attempt(worlds[i], r) <= Attempt(worlds[j], r)
  {
    if i < j {
      AttemptsChain(worlds, i, j - 1, r);
      assert Attempt(worlds[j - 1], r) <= Attempt(worlds[j - 1 + 1], r);
    }
  }

  lemma AttemptNeverDecreases(
    worlds: seq<World>, actions: seq<Action>, i: nat, j: nat, r: string, repository: string, workflowRunId: int)
    requires IsRun(worlds, actions) && i <= j <= |actions|
    requires forall m :: i <= m <= j ==> OnRun(worlds[m], r, repository, workflowRunId)
    ensures Attempt(worlds[i], r) <= Attempt(worlds[j], r)
  {
    forall m | i <= m < j ensures Attempt(worlds[m], r) <= Attempt(worlds[m + 1], r) {
      AttemptStepInRun(worlds, actions, m, r, repository, workflowRunId);
    }
    AttemptsChain(worlds, i, j, r);
  }

  // ---------- retention does not reopen the past ----------

  // Sending an applied event again, even after its row was pruned, is recorded but projects nothing.
  lemma ReingestChangesNothing(w: World, i: nat, receivedAt: int)
    requires Inv(w) && i < |w.log| && w.log[i].applied
    ensures var w' := Next(w, DoIngest(w.log[i].event, receivedAt));
            && w'.db.views == w.db.views && w'.db.incidents == w.db.incidents
            && (w' == w || w'.log == w.log + [EventRow(w.log[i].event, receivedAt, false)])
  {
    RowsAreQueries(w);
    var e := w.log[i].event;
    assert InStream(w.log[i], Stream(e));
  }

  // ---------- only first arrivals count ----------

  function After(actions: seq<Action>): World {
    if actions == [] then INITIAL
    else Next(After(actions[..|actions| - 1]), actions[|actions| - 1])
  }

  predicate Arrives(actions: seq<Action>, id: string) {
    exists i | 0 <= i < |actions| :: actions[i].DoIngest? && actions[i].e.id == id
  }

  // The same actions with every later arrival of an id left out.
  function FirstArrivals(actions: seq<Action>): seq<Action> {
    if actions == [] then []
    else
      var init, last := actions[..|actions| - 1], actions[|actions| - 1];
      if last.DoIngest? && Arrives(init, last.e.id) then FirstArrivals(init)
      else FirstArrivals(init) + [last]
  }

  lemma AfterOneMore(actions: seq<Action>, i: nat)
    requires i < |actions|
    ensures After(actions[..i + 1]) == Next(After(actions[..i]), actions[i])
  {
    assert actions[..i + 1][..i] == actions[..i];
  }

  lemma {:induction false} RunPassesAfter(worlds: seq<World>, actions: seq<Action>, i: nat)
    requires IsRun(worlds, actions) && i <= |actions|
    ensures worlds[i] == After(actions[..i])
  {
    if i > 0 {
      RunPassesAfter(worlds, actions, i - 1);
      AfterOneMore(actions, i - 1);
      assert worlds[i - 1 + 1] == Next(worlds[i - 1], actions[i - 1]);
    }
  }

  lemma {:induction false} ReplayKeepsIds(rows: seq<EventRow>)
    ensures forall i :: 0 <= i < |rows| ==> Reflagged(rows)[i].event == rows[i].event
  {
    if rows != [] {
      ReplayKeepsIds(rows[..|rows| - 1]);
    }
  }

  lemma {:induction false} ArrivedIsRecorded(actions: seq<Action>, id: string)
    requires forall i :: 0 <= i < |actions| ==> !actions[i].DoPrune?
    ensures Recorded(After(actions).db.events, id) <==> Arrives(actions, id)
  {
    if actions != [] {
      var n := |actions| - 1;
      var init, last := actions[..n], actions[n];
      ArrivedIsRecorded(init, id);
      var before, rows := After(init).db.events, After(actions).db.events;
      ReplayKeepsIds(before);
      assert Arrives(actions, id) <==> Arrives(init, id) || (last.DoIngest? && last.e.id == id) by {
        if i :| 0 <= i < |actions| && actions[i].DoIngest? && actions[i].e.id == id {
          assert i < n ==> init[i] == actions[i];
        }
        if i :| 0 <= i < n && init[i].DoIngest? && init[i].e.id == id {
          assert actions[i] == init[i];
        }
        assert actions[n] == last;
      }
      RecordedAfter(After(init), last, id);
    }
  }

  lemma RecordedAfter(w: World, a: Action, id: string)
    requires !a.DoPrune?
    ensures Recorded(Next(w, a).db.events, id) <==> Recorded(w.db.events, id) || (a.DoIngest? && a.e.id == id)
  {
    var rows, rows' := w.db.events, Next(w, a).db.events;
    ReplayKeepsIds(rows);
    if i :| 0 <= i < |rows| && rows[i].event.id == id {
      assert rows'[i].event.id == id;
    }
    if a.DoIngest? && !Recorded(rows, a.e.id) {
      assert rows'[|rows|].event == a.e;
    }
    if i :| 0 <= i < |rows'| && rows'[i].event.id == id {
      assert i < |rows| ==> rows[i].event.id == id;
    }
  }

  // Without pruning, a run ends exactly where it would have ended had each event arrived once.
  lemma {:induction false} OnlyFirstArrivalsCount(actions: seq<Action>)
    requires forall i :: 0 <= i < |actions| ==> !actions[i].DoPrune?
    ensures After(actions) == After(FirstArrivals(actions))
  {
    if actions != [] {
      var init, last := actions[..|actions| - 1], actions[|actions| - 1];
      OnlyFirstArrivalsCount(init);
      if last.DoIngest? && Arrives(init, last.e.id) {
        ArrivedIsRecorded(init, last.e.id);
      } else {
        var firsts := FirstArrivals(init);
        assert (firsts + [last])[..|firsts|] == firsts;
      }
    }
  }

  // Without pruning, the log holds each id at most once.
  lemma LogHoldsEachIdOnce(worlds: seq<World>, actions: seq<Action>, i: nat)
    requires IsRun(worlds, actions) && i <= |actions|
    requires forall j :: 0 <= j < i ==> !actions[j].DoPrune?
    ensures DistinctIds(worlds[i].log)
  {
    RunKeepsInv(worlds, actions, i);
    UnprunedStaysComplete(worlds, actions, i);
    CompleteHistoryIsTheLog(worlds[i]);
  }

  // What an applied event shows at once: a shutdown has the runner offline with an open incident;
  // any other event has it online with none open, and a job event its job as well.
  lemma AppliedEventShows(t: Tables, e: Event, receivedAt: int)
    requires !Recorded(t.events, e.id) && Accepts(t.views, e)
    ensures var t' := Ingest(t, e, receivedAt);
            && e.runnerId in t'.views.runners
            && var row := t'.views.runners[e.runnerId];
            && (e.body.RunnerOffline? ==>
                  && row.liveness == Offline && row.offlineReason == Some(ExplicitShutdown)
                  && Active(t'.incidents, IncidentKey(RunnerResource, e.runnerId, ExplicitShutdown)))
            && (!e.body.RunnerOffline? ==>
                  && row.liveness == Online && row.offlineReason == None
                  && forall c :: !Active(t'.incidents, IncidentKey(RunnerResource, e.runnerId, c)))
            && (e.body.JobStarted? || e.body.JobHeartbeat? || e.body.JobFinished? ==>
                  var key := e.body.job.key;
                  && key in t'.views.jobs && t'.views.jobs[key].liveness == Online
                  && forall c :: !Active(t'.incidents, IncidentKey(JobResource, JobResourceId(key), c)))
  {
  }
}
