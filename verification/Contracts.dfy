// The typed schema-v1 event that persistence and delivery work on, and the facts about a
// validated event that the monitor relies on.
module Contracts {
  import opened ResourceIds

  datatype Job = Job(key: JobKey, jobName: string, runUrl: string)

  datatype Progress = Progress(
    stageId: string, stageKind: string, state: string, determinate: bool, total: int, completed: int,
    failed: int, pending: int, fallbackGroupCount: int, affectedTestCount: int, attempt: int)

  datatype Fallback = Fallback(
    targetStageId: string, reasonCode: string, completedGroups: int, totalGroups: int,
    fallbackGroupCount: int, affectedTestCount: int)

  datatype Body =
    | RunnerHeartbeat
    | RunnerOffline
    | JobStarted(job: Job)
    | JobHeartbeat(job: Job)
    | JobFinished(job: Job, outcome: string)
    | JobProgress(job: Job, progress: Progress)
    | JobFallback(job: Job, fallback: Fallback)
  {
    // The events that move a job through its life; progress and fallback reports do not.
    predicate Lifecycle() {
      JobStarted? || JobHeartbeat? || JobFinished?
    }

    predicate Projected() {
      RunnerHeartbeat? || RunnerOffline? || Lifecycle()
    }
  }

  function EventType(body: Body): string {
    match body
    case RunnerHeartbeat => "runner.heartbeat"
    case RunnerOffline => "runner.offline"
    case JobStarted(_) => "job.started"
    case JobHeartbeat(_) => "job.heartbeat"
    case JobFinished(_, _) => "job.finished"
    case JobProgress(_, _) => "job.progress"
    case JobFallback(_, _) => "job.fallback"
  }

  datatype Event = Event(
    id: string, runnerId: string, producerId: string, producerEpoch: string, sequence: int,
    occurredAt: string, body: Body)

  predicate Alphanumeric(c: char) {
    '0' <= c <= '9' || 'A' <= c <= 'Z' || 'a' <= c <= 'z'
  }

  // [A-Za-z0-9][A-Za-z0-9_.-]{0,max-1}
  predicate IsToken(s: string, max: nat) {
    && 0 < |s| <= max
    && Alphanumeric(s[0])
    && forall i :: 0 <= i < |s| ==> Alphanumeric(s[i]) || s[i] in "_.-"
  }

  predicate IsIdentifier(s: string) {
    IsToken(s, 64)
  }

  // owner/name, both tokens of at most a hundred characters
  predicate IsRepository(s: string) {
    exists cut | 0 <= cut < |s| :: s[cut] == '/' && IsToken(s[..cut], 100) && IsToken(s[cut + 1..], 100)
  }

  // [a-z][a-z0-9_]{0,63}
  predicate IsStageId(s: string) {
    && 0 < |s| <= 64
    && 'a' <= s[0] <= 'z'
    && forall i :: 0 <= i < |s| ==> 'a' <= s[i] <= 'z' || '0' <= s[i] <= '9' || s[i] == '_'
  }

  predicate Bounded(s: string, max: nat) {
    0 < |s| <= max
  }

  predicate ValidJob(job: Job) {
    && Bounded(job.key.repository, 201) && IsRepository(job.key.repository)
    && job.key.workflowRunId >= 1 && job.key.runAttempt >= 1 && job.key.jobId >= 1
    && Bounded(job.jobName, 200)
    && Bounded(job.runUrl, 256)
  }

  predicate ValidProgress(p: Progress) {
    && IsStageId(p.stageId) && IsStageId(p.stageKind)
    && p.state in {"running", "completed", "failed", "cancelled"}
    && p.total >= 0 && p.completed >= 0 && p.failed >= 0 && p.pending >= 0
    && p.fallbackGroupCount >= 0 && p.affectedTestCount >= 0 && p.attempt >= 1
  }

  predicate ValidFallback(f: Fallback) {
    && IsStageId(f.targetStageId) && IsStageId(f.reasonCode)
    && f.completedGroups >= 0 && f.totalGroups >= 0
    && f.fallbackGroupCount >= 0 && f.affectedTestCount >= 0
  }

  predicate ValidBody(body: Body) {
    match body
    case RunnerHeartbeat | RunnerOffline => true
    case JobStarted(job) => ValidJob(job)
    case JobHeartbeat(job) => ValidJob(job)
    case JobFinished(job, outcome) => ValidJob(job) && outcome in {"succeeded", "failed", "cancelled"}
    case JobProgress(job, progress) => ValidJob(job) && ValidProgress(progress)
    case JobFallback(job, fallback) => ValidJob(job) && ValidFallback(fallback)
  }

  predicate Valid(e: Event) {
    && Bounded(e.id, 36) && Bounded(e.runnerId, 36)
    && IsIdentifier(e.producerId) && IsIdentifier(e.producerEpoch)
    && e.sequence >= 1
    && Bounded(e.occurredAt, 35)
    && ValidBody(e.body)
  }

  // The repository pattern leaves no room for the separator of job resource ids.
  lemma RepositoryHasNoSeparator(s: string)
    requires IsRepository(s)
    ensures ':' !in s
  {
    var cut :| 0 <= cut < |s| && s[cut] == '/' && IsToken(s[..cut], 100) && IsToken(s[cut + 1..], 100);
    forall i | 0 <= i < |s| ensures s[i] != ':' {
      assert i < cut ==> s[i] == s[..cut][i];
      assert i > cut ==> s[i] == s[cut + 1..][i - cut - 1];
    }
  }

  lemma JobKeyHasNoSeparator(e: Event)
    requires Valid(e) && e.body.Lifecycle()
    ensures ':' !in e.body.job.key.repository
  {
    RepositoryHasNoSeparator(e.body.job.key.repository);
  }
}
