// The current-state rows as declarative queries on the full log: each column is read off
// the last applied entry that speaks about it, and acceptance off the entries before it.
module Queries {
  import opened Contracts
  import opened Invariants
  import opened Monitor
  import opened Options
  import opened Projection
  import opened ResourceIds
  import opened Tables

  function Latest(log: seq<EventRow>, p: EventRow -> bool): Option<EventRow> {
    if log == [] then None
    else if p(log[|log| - 1]) then Some(log[|log| - 1])
    else Latest(log[..|log| - 1], p)
  }

  // Latest finds the last entry with the property, if there is one.
  lemma {:induction false} LatestIsLast(log: seq<EventRow>, p: EventRow -> bool)
    ensures Latest(log, p) == None <==> forall i :: 0 <= i < |log| ==> !p(log[i])
    ensures Latest(log, p).Some? ==>
              exists i :: 0 <= i < |log| && log[i] == Latest(log, p).value && p(log[i])
                          && forall j :: i < j < |log| ==> !p(log[j])
  {
    if log != [] {
      var n := |log| - 1;
      LatestIsLast(log[..n], p);
      if !p(log[n]) && Latest(log[..n], p).Some? {
        var i :| 0 <= i < n && log[..n][i] == Latest(log, p).value && p(log[..n][i])
                 && forall j :: i < j < n ==> !p(log[..n][j]);
        assert log[i] == Latest(log, p).value && forall j :: i < j < |log| ==> j == n || log[..n][j] == log[j];
      }
      if !p(log[n]) && forall i :: 0 <= i < n ==> !p(log[..n][i]) {
        assert forall i :: 0 <= i < n ==> log[..n][i] == log[i];
      }
    }
  }

  function AppliedTo(r: string): EventRow -> bool {
    (x: EventRow) => x.applied && x.event.runnerId == r
  }

  function JobEventOn(r: string): EventRow -> bool {
    (x: EventRow) =>
      && x.applied && x.event.runnerId == r
      && (x.event.body.JobStarted? || x.event.body.JobHeartbeat? || x.event.body.JobFinished?)
  }

  function HeartbeatOf(r: string): EventRow -> bool {
    (x: EventRow) => x.applied && x.event.runnerId == r && x.event.body.RunnerHeartbeat?
  }

  function FinishOn(r: string): EventRow -> bool {
    (x: EventRow) => x.applied && x.event.runnerId == r && x.event.body.JobFinished?
  }

  function AboutJob(k: JobKey): EventRow -> bool {
    (x: EventRow) =>
      && x.applied && (x.event.body.JobStarted? || x.event.body.JobHeartbeat? || x.event.body.JobFinished?)
      && x.event.body.job.key == k
  }

  function RunnerQuery(log: seq<EventRow>, r: string): Option<RunnerRow> {
    var last, job := Latest(log, AppliedTo(r)), Latest(log, JobEventOn(r));
    var beat, finish := Latest(log, HeartbeatOf(r)), Latest(log, FinishOn(r));
    if last == None then None
    else
      var e := last.value.event;
      Some(RunnerRow(
             e.producerId, e.producerEpoch, e.sequence, Online,
             if job.Some? && !job.value.event.body.JobFinished? then Running else Idle,
             last.value.receivedAt,
             if beat.Some? then Some(beat.value.receivedAt) else None,
             if finish.Some? && finish.value.event.body.JobFinished? then Some(finish.value.event.body.outcome)
             else None,
             e.id, None,
             if job.Some? && job.value.event.body.Lifecycle() then Some(job.value.event.body.job.key) else None))
  }

  function JobQuery(log: seq<EventRow>, k: JobKey): Option<JobRow> {
    var last := Latest(log, AboutJob(k));
    if last == None || last.value.event.body.RunnerHeartbeat? || last.value.event.body.RunnerOffline? then None
    else
      var e, at := last.value.event, last.value.receivedAt;
      Some(JobRow(
             e.runnerId, e.body.job.jobName, e.body.job.runUrl,
             if e.body.JobFinished? then Finished else InProgress,
             if e.body.JobFinished? then Some(e.body.outcome) else None,
             at, e.id, Online, at, None))
  }

  function CoreRunner(row: Option<RunnerRow>): Option<RunnerRow> {
    if row.Some? then Some(RunnerCore(row.value)) else None
  }

  function CoreJob(row: Option<JobRow>): Option<JobRow> {
    if row.Some? then Some(JobCore(row.value)) else None
  }

  // Whatever the narrower queries find is of their kind, and then the widest finds something.
  lemma {:induction false} LatestOfRunner(log: seq<EventRow>, r: string)
    ensures var job, finish := Latest(log, JobEventOn(r)), Latest(log, FinishOn(r));
            && (job.Some? ==> job.value.event.body.Lifecycle() && Latest(log, AppliedTo(r)).Some?)
            && (finish.Some? ==> finish.value.event.body.JobFinished? && Latest(log, AppliedTo(r)).Some?)
            && (Latest(log, HeartbeatOf(r)).Some? ==> Latest(log, AppliedTo(r)).Some?)
  {
    if log != [] {
      LatestOfRunner(log[..|log| - 1], r);
    }
  }

  lemma {:induction false} RebuiltRunnerIsQuery(log: seq<EventRow>, r: string)
    requires Faithful(log)
    ensures CoreRunner(Lookup(Rebuild(log).runners, r)) == RunnerQuery(log, r)
  {
    if log != [] {
      var init, last := log[..|log| - 1], log[|log| - 1];
      RebuiltRunnerIsQuery(init, r);
      LatestOfRunner(init, r);
      if last.applied && last.event.runnerId == r {
        var row := RunnerAfter(RunnerQuery(init, r), last.event, last.receivedAt);
        assert RunnerQuery(log, r) == Some(RunnerCore(row));
      }
    }
  }

  lemma {:induction false} RebuiltJobIsQuery(log: seq<EventRow>, k: JobKey)
    requires Faithful(log)
    ensures CoreJob(Lookup(Rebuild(log).jobs, k)) == JobQuery(log, k)
  {
    if log != [] {
      RebuiltJobIsQuery(log[..|log| - 1], k);
    }
  }

  // ---------- watermarks ----------

  predicate InStream(x: EventRow, s: StreamKey) {
    && x.applied
    && x.event.runnerId == s.runnerId && x.event.producerId == s.producerId && x.event.producerEpoch == s.producerEpoch
  }

  ghost predicate IsLargest(log: seq<EventRow>, s: StreamKey, w: int) {
    && (exists i :: 0 <= i < |log| && InStream(log[i], s) && log[i].event.sequence == w)
    && (forall i :: 0 <= i < |log| && InStream(log[i], s) ==> log[i].event.sequence <= w)
  }

  lemma {:induction false} WatermarkIsLargest(log: seq<EventRow>, s: StreamKey)
    requires Faithful(log)
    ensures s in Rebuild(log).watermarks <==> exists i :: 0 <= i < |log| && InStream(log[i], s)
    ensures s in Rebuild(log).watermarks ==> IsLargest(log, s, Rebuild(log).watermarks[s])
  {
    if log != [] {
      var n := |log| - 1;
      var init, last := log[..n], log[n];
      WatermarkIsLargest(init, s);
      assert forall i :: 0 <= i < n ==> init[i] == log[i];
      if s in Rebuild(init).watermarks {
        var i :| 0 <= i < n && InStream(init[i], s) && init[i].event.sequence == Rebuild(init).watermarks[s];
        assert InStream(log[i], s);
      }
      if InStream(last, s) {
        assert InStream(log[n], s);
      }
    }
  }

  // Applied sequences of a stream strictly increase along the log.
  lemma {:induction false} StreamsIncrease(log: seq<EventRow>, i: nat, j: nat)
    requires Faithful(log) && i < j < |log|
    requires log[i].applied && log[j].applied && Stream(log[i].event) == Stream(log[j].event)
    ensures log[i].event.sequence < log[j].event.sequence
    decreases |log|
  {
    var n := |log| - 1;
    if j < n {
      StreamsIncrease(log[..n], i, j);
    } else {
      var s := Stream(log[i].event);
      WatermarkIsLargest(log[..n], s);
      assert InStream(log[..n][i], s);
    }
  }

  // ---------- acceptance ----------

  // Whether an entry deserves to be applied, from the applied entries before it alone: it
  // advances its stream; and a job event neither follows its job's end nor belongs to an
  // older attempt of the workflow run the runner last worked on.
  ghost predicate Deserves(before: seq<EventRow>, e: Event) {
    && !e.body.JobProgress? && !e.body.JobFallback?
    && (forall i :: 0 <= i < |before| && InStream(before[i], StreamKey(e.runnerId, e.producerId, e.producerEpoch)) ==>
                      before[i].event.sequence < e.sequence)
    && (e.body.JobStarted? || e.body.JobHeartbeat? || e.body.JobFinished? ==>
          var key := e.body.job.key;
          var current := Latest(before, JobEventOn(e.runnerId));
          && (forall i :: 0 <= i < |before| && AboutJob(key)(before[i]) ==> !before[i].event.body.JobFinished?)
          && (current.Some? && current.value.event.body.Lifecycle() ==>
                var had := current.value.event.body.job.key;
                had.repository == key.repository && had.workflowRunId == key.workflowRunId ==>
                  had.runAttempt <= key.runAttempt))
  }

  // Once a job finished, no later entry about it is applied, so the latest one is the finish.
  lemma {:induction false} FinishIsLatest(log: seq<EventRow>, k: JobKey)
    requires Faithful(log)
    ensures (k in Rebuild(log).jobs && Rebuild(log).jobs[k].state == Finished) <==>
            exists i :: 0 <= i < |log| && AboutJob(k)(log[i]) && log[i].event.body.JobFinished?
  {
    if log != [] {
      var n := |log| - 1;
      FinishIsLatest(log[..n], k);
      if i :| 0 <= i < n && AboutJob(k)(log[..n][i]) && log[..n][i].event.body.JobFinished? {
        assert AboutJob(k)(log[i]);
      }
      if i :| 0 <= i < |log| && AboutJob(k)(log[i]) && log[i].event.body.JobFinished? {
        if i < n {
          assert AboutJob(k)(log[..n][i]);
        }
      }
    }
  }

  lemma AcceptanceIsDeclarative(before: seq<EventRow>, e: Event)
    requires Faithful(before)
    ensures Accepts(Rebuild(before), e) <==> Deserves(before, e)
  {
    WatermarkIsLargest(before, Stream(e));
    assert RunnerAccepts(Rebuild(before), e) <==>
           forall i :: 0 <= i < |before| && InStream(before[i], Stream(e)) ==> before[i].event.sequence < e.sequence;
    if e.body.Lifecycle() {
      FinishIsLatest(before, e.body.job.key);
      RebuiltRunnerIsQuery(before, e.runnerId);
      LatestOfRunner(before, e.runnerId);
    }
  }

  // ---------- every reachable world ----------

  ghost predicate AnswersQueries(w: World) {
    && (forall r :: CoreRunner(Lookup(w.db.views.runners, r)) == RunnerQuery(w.log, r))
    && (forall k :: CoreJob(Lookup(w.db.views.jobs, k)) == JobQuery(w.log, k))
    && (forall s :: s in w.db.views.watermarks ==> IsLargest(w.log, s, w.db.views.watermarks[s]))
    && (forall s :: s !in w.db.views.watermarks ==> forall i :: 0 <= i < |w.log| ==> !InStream(w.log[i], s))
  }

  // However refreshes, replays and pruning came between, the rows are what the queries answer.
  lemma RowsAreQueries(w: World)
    requires Inv(w)
    ensures AnswersQueries(w)
  {
    var v, u := w.db.views, Rebuild(w.log);
    forall r ensures CoreRunner(Lookup(v.runners, r)) == RunnerQuery(w.log, r) {
      RebuiltRunnerIsQuery(w.log, r);
      assert r in v.runners ==> RunnerCore(v.runners[r]) == RunnerCore(u.runners[r]);
    }
    forall k ensures CoreJob(Lookup(v.jobs, k)) == JobQuery(w.log, k) {
      RebuiltJobIsQuery(w.log, k);
      assert k in v.jobs ==> JobCore(v.jobs[k]) == JobCore(u.jobs[k]);
    }
    forall s
      ensures s in v.watermarks ==> IsLargest(w.log, s, v.watermarks[s])
      ensures s !in v.watermarks ==> forall i :: 0 <= i < |w.log| ==> !InStream(w.log[i], s)
    {
      WatermarkIsLargest(w.log, s);
    }
  }

  // The entry about a job that no later one speaks of.
  ghost predicate LastAbout(log: seq<EventRow>, k: JobKey, i: nat) {
    && i < |log| && AboutJob(k)(log[i])
    && forall j :: i < j < |log| ==> !AboutJob(k)(log[j])
  }

  // A row stands exactly when an applied job event spoke of the job, and it is what the last of
  // them said: its runner, name, link and id, when it was received, and its outcome if it is the end.
  ghost predicate IsLastEvent(log: seq<EventRow>, k: JobKey, row: Option<JobRow>) {
    && (row.Some? <==> exists i :: 0 <= i < |log| && AboutJob(k)(log[i]))
    && (row.Some? ==>
          exists i: nat :: LastAbout(log, k, i) && SaysOfJob(log[i].event, log[i].receivedAt, row.value))
  }

  lemma JobRowIsLastEvent(w: World, k: JobKey)
    requires Inv(w)
    ensures IsLastEvent(w.log, k, Lookup(w.db.views.jobs, k))
  {
    JobRowIsQuery(w, k);
    QueryIsLastEvent(w.log, k, Lookup(w.db.views.jobs, k));
  }

  lemma JobRowIsQuery(w: World, k: JobKey)
    requires Inv(w)
    ensures CoreJob(Lookup(w.db.views.jobs, k)) == JobQuery(w.log, k)
  {
    RowsAreQueries(w);
  }

  lemma QueryIsLastEvent(log: seq<EventRow>, k: JobKey, row: Option<JobRow>)
    requires CoreJob(row) == JobQuery(log, k)
    ensures IsLastEvent(log, k, row)
  {
    var last := Latest(log, AboutJob(k));
    LatestIsLast(log, AboutJob(k));
    if last.Some? {
      var i: nat :| i < |log| && log[i] == last.value && AboutJob(k)(log[i])
                    && forall j :: i < j < |log| ==> !AboutJob(k)(log[j]);
      assert LastAbout(log, k, i);
    }
  }

  predicate SaysOfJob(e: Event, at: int, row: JobRow) {
    && row.lastEventId == e.id && row.lastReceivedAt == at && row.lastHeartbeatAt == at
    && row.runnerId == e.runnerId
    && (e.body.JobStarted? || e.body.JobHeartbeat? || e.body.JobFinished?)
    && row.jobName == e.body.job.jobName && row.runUrl == e.body.job.runUrl
    && (row.state == Finished <==> e.body.JobFinished?)
    && (e.body.JobFinished? ==> row.outcome == Some(e.body.outcome))
    && (!e.body.JobFinished? ==> row.outcome == None)
  }

  lemma {:induction false} FlagsAreDeserved(log: seq<EventRow>, i: nat)
    requires Faithful(log) && i < |log|
    ensures log[i].applied <==> Deserves(log[..i], log[i].event)
    decreases |log|
  {
    var n := |log| - 1;
    if i < n {
      FlagsAreDeserved(log[..n], i);
      assert log[..n][..i] == log[..i];
    } else {
      AcceptanceIsDeclarative(log[..n], log[n].event);
    }
  }
}
