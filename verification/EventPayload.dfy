// Validating a JSON tree as a schema-v1 event, and the frozen form an event is kept in.
module EventPayload {
  import opened Contracts
  import opened Options
  import opened ResourceIds

  datatype Json =
    | Null
    | Truth(value: bool)
    | Number(n: int)
    | Text(text: string)
    | List(items: seq<Json>)
    | Object(fields: map<string, Json>)

  // The same tree made of tuples and read-only mappings.
  datatype Frozen =
    | Scalar(json: Json)
    | Tuple(elements: seq<Frozen>)
    | Proxy(entries: map<string, Frozen>)

  function Freeze(j: Json): Frozen {
    match j
    case List(items) => Tuple(seq(|items|, i requires 0 <= i < |items| => Freeze(items[i])))
    case Object(fields) => Proxy(map key | key in fields :: Freeze(fields[key]))
    case _ => Scalar(j)
  }

  function Thaw(f: Frozen): Json {
    match f
    case Tuple(elements) => List(seq(|elements|, i requires 0 <= i < |elements| => Thaw(elements[i])))
    case Proxy(entries) => Object(map key | key in entries :: Thaw(entries[key]))
    case Scalar(json) => json
  }

  // Thawing gives back what was frozen.
  lemma {:induction false} ThawUndoesFreeze(j: Json)
    ensures Thaw(Freeze(j)) == j
  {
    match j {
      case List(items) =>
        forall i | 0 <= i < |items| ensures Thaw(Freeze(items[i])) == items[i] {
          ThawUndoesFreeze(items[i]);
        }
      case Object(fields) =>
        forall key | key in fields ensures Thaw(Freeze(fields[key])) == fields[key] {
          ThawUndoesFreeze(fields[key]);
        }
      case _ =>
    }
  }

  // ---------- fields ----------

  type Fields = map<string, Json>

  predicate IsText(o: Fields, key: string) {
    key in o && o[key].Text?
  }

  predicate IsNumber(o: Fields, key: string) {
    key in o && o[key].Number?
  }

  const JOB_FIELDS := {"repository", "workflow_run_id", "run_attempt", "job_id", "job_name", "run_url"}
  const PROGRESS_FIELDS :=
    {"stage_id", "stage_kind", "state", "determinate", "total", "completed", "failed", "pending",
     "fallback_group_count", "affected_test_count", "attempt"}
  const FALLBACK_FIELDS :=
    {"target_stage_id", "reason_code", "completed_groups", "total_groups", "fallback_group_count",
     "affected_test_count"}
  const COMMON_FIELDS :=
    {"schema_version", "event_type", "event_id", "runner_id", "producer_id", "producer_epoch", "producer_sequence",
     "occurred_at"}

  // ---------- validation ----------

  function ReadJob(j: Json): Option<Job> {
    if !j.Object? || j.fields.Keys != JOB_FIELDS then None
    else
      var o := j.fields;
      if !IsText(o, "repository") || !IsNumber(o, "workflow_run_id") || !IsNumber(o, "run_attempt")
         || !IsNumber(o, "job_id")
         || !IsText(o, "job_name") || !IsText(o, "run_url") then None
      else
        var job := Job(
                     JobKey(o["repository"].text, o["workflow_run_id"].n, o["run_attempt"].n, o["job_id"].n),
                     o["job_name"].text, o["run_url"].text);
        if ValidJob(job) then Some(job) else None
  }

  function ReadProgress(j: Json): Option<Progress> {
    if !j.Object? || j.fields.Keys != PROGRESS_FIELDS then None
    else
      var o := j.fields;
      if !IsText(o, "stage_id") || !IsText(o, "stage_kind") || !IsText(o, "state") || !o["determinate"].Truth?
         || !IsNumber(o, "total") || !IsNumber(o, "completed") || !IsNumber(o, "failed") || !IsNumber(o, "pending")
         || !IsNumber(o, "fallback_group_count") || !IsNumber(o, "affected_test_count")
         || !IsNumber(o, "attempt") then None
      else
        var progress := Progress(
                          o["stage_id"].text, o["stage_kind"].text, o["state"].text, o["determinate"].value,
                          o["total"].n, o["completed"].n, o["failed"].n, o["pending"].n,
                          o["fallback_group_count"].n, o["affected_test_count"].n, o["attempt"].n);
        if ValidProgress(progress) then Some(progress) else None
  }

  function ReadFallback(j: Json): Option<Fallback> {
    if !j.Object? || j.fields.Keys != FALLBACK_FIELDS then None
    else
      var o := j.fields;
      if !IsText(o, "target_stage_id") || !IsText(o, "reason_code") || !IsNumber(o, "completed_groups")
         || !IsNumber(o, "total_groups") || !IsNumber(o, "fallback_group_count")
         || !IsNumber(o, "affected_test_count") then None
      else
        var fallback := Fallback(
                          o["target_stage_id"].text, o["reason_code"].text, o["completed_groups"].n,
                          o["total_groups"].n, o["fallback_group_count"].n, o["affected_test_count"].n);
        if ValidFallback(fallback) then Some(fallback) else None
  }

  // ---------- the tree of a typed value ----------

  function JobJson(job: Job): Json {
    Object(map[
             "repository" := Text(job.key.repository), "workflow_run_id" := Number(job.key.workflowRunId),
             "run_attempt" := Number(job.key.runAttempt), "job_id" := Number(job.key.jobId),
             "job_name" := Text(job.jobName), "run_url" := Text(job.runUrl)])
  }

  function ProgressJson(p: Progress): Json {
    Object(map[
             "stage_id" := Text(p.stageId), "stage_kind" := Text(p.stageKind), "state" := Text(p.state),
             "determinate" := Truth(p.determinate), "total" := Number(p.total), "completed" := Number(p.completed),
             "failed" := Number(p.failed), "pending" := Number(p.pending),
             "fallback_group_count" := Number(p.fallbackGroupCount),
             "affected_test_count" := Number(p.affectedTestCount), "attempt" := Number(p.attempt)])
  }

  function FallbackJson(f: Fallback): Json {
    Object(map[
             "target_stage_id" := Text(f.targetStageId), "reason_code" := Text(f.reasonCode),
             "completed_groups" := Number(f.completedGroups), "total_groups" := Number(f.totalGroups),
             "fallback_group_count" := Number(f.fallbackGroupCount),
             "affected_test_count" := Number(f.affectedTestCount)])
  }

  lemma JobReads(j: Json, job: Job)
    ensures ReadJob(j) == Some(job) <==> ValidJob(job) && j == JobJson(job)
  {
  }

  lemma FallbackReads(j: Json, f: Fallback)
    ensures ReadFallback(j) == Some(f) <==> ValidFallback(f) && j == FallbackJson(f)
  {
  }

  lemma ProgressReads(j: Json, p: Progress)
    ensures ReadProgress(j) == Some(p) <==> ValidProgress(p) && j == ProgressJson(p)
  {
  }

  // ---------- the envelope ----------

  datatype Verdict = Accepted(event: Event) | InvalidEvent | UnsupportedSchema

  function BodyKeys(eventType: string): set<string> {
    if eventType == "job.started" || eventType == "job.heartbeat" then {"job"}
    else if eventType == "job.finished" then {"job", "outcome"}
    else if eventType == "job.progress" then {"job", "progress"}
    else if eventType == "job.fallback" then {"job", "fallback"}
    else {}
  }

  function ReadJobBody(o: Fields, eventType: string, job: Job): Option<Body>
    requires o.Keys == COMMON_FIELDS + BodyKeys(eventType)
  {
    if eventType == "job.started" then Some(JobStarted(job))
    else if eventType == "job.heartbeat" then Some(JobHeartbeat(job))
    else if eventType == "job.finished" then
      if IsText(o, "outcome") then Some(JobFinished(job, o["outcome"].text)) else None
    else if eventType == "job.progress" then
      assert "progress" in BodyKeys(eventType);
      var progress := ReadProgress(o["progress"]);
      if progress.Some? then Some(JobProgress(job, progress.value)) else None
    else if eventType == "job.fallback" then
      assert "fallback" in BodyKeys(eventType);
      var fallback := ReadFallback(o["fallback"]);
      if fallback.Some? then Some(JobFallback(job, fallback.value)) else None
    else None
  }

  function ReadBody(o: Fields, eventType: string): Option<Body> {
    if o.Keys != COMMON_FIELDS + BodyKeys(eventType) then None
    else if eventType == "runner.heartbeat" then Some(RunnerHeartbeat)
    else if eventType == "runner.offline" then Some(RunnerOffline)
    else if "job" !in BodyKeys(eventType) then None
    else
      var job := ReadJob(o["job"]);
      if job == None then None else ReadJobBody(o, eventType, job.value)
  }

  function ReadEnvelope(o: Fields, body: Body): Option<Event> {
    if !IsText(o, "event_id") || !IsText(o, "runner_id") || !IsText(o, "producer_id")
       || !IsText(o, "producer_epoch") || !IsNumber(o, "producer_sequence") || !IsText(o, "occurred_at") then None
    else
      var e := Event(o["event_id"].text, o["runner_id"].text, o["producer_id"].text, o["producer_epoch"].text,
                     o["producer_sequence"].n, o["occurred_at"].text, body);
      if Valid(e) then Some(e) else None
  }

  function ReadEvent(o: Fields): Option<Event> {
    if !IsText(o, "event_type") then None
    else
      var body := ReadBody(o, o["event_type"].text);
      if body == None then None else ReadEnvelope(o, body.value)
  }

  function Validate(j: Json): Verdict {
    if !j.Object? then InvalidEvent
    else if !("schema_version" in j.fields && j.fields["schema_version"] == Number(1)) then UnsupportedSchema
    else
      var event := ReadEvent(j.fields);
      if event == None then InvalidEvent else Accepted(event.value)
  }

  function BodyFields(body: Body): Fields {
    match body
    case RunnerHeartbeat | RunnerOffline => map[]
    case JobStarted(job) => map["job" := JobJson(job)]
    case JobHeartbeat(job) => map["job" := JobJson(job)]
    case JobFinished(job, outcome) => map["job" := JobJson(job), "outcome" := Text(outcome)]
    case JobProgress(job, progress) => map["job" := JobJson(job), "progress" := ProgressJson(progress)]
    case JobFallback(job, fallback) => map["job" := JobJson(job), "fallback" := FallbackJson(fallback)]
  }

  function SubjectFields(e: Event): Fields {
    map["schema_version" := Number(1), "event_type" := Text(EventType(e.body)), "event_id" := Text(e.id),
        "runner_id" := Text(e.runnerId)]
  }

  function OriginFields(e: Event): Fields {
    map["producer_id" := Text(e.producerId), "producer_epoch" := Text(e.producerEpoch),
        "producer_sequence" := Number(e.sequence), "occurred_at" := Text(e.occurredAt)]
  }

  function CommonFields(e: Event): Fields {
    SubjectFields(e) + OriginFields(e)
  }

  function EventJson(e: Event): Json {
    Object(CommonFields(e) + BodyFields(e.body))
  }

  lemma BodyHasItsKeys(body: Body)
    ensures BodyFields(body).Keys == BodyKeys(EventType(body))
  {
  }

  // The object holds these fields, with these values.
  predicate Holds(o: Fields, fields: Fields) {
    forall key :: key in fields ==> key in o && o[key] == fields[key]
  }

  lemma JobBodyReads(o: Fields, body: Body, job: Job)
    requires body.JobStarted? || body.JobHeartbeat? || body.JobFinished?
    requires body.job == job && ValidJob(job) && o.Keys == COMMON_FIELDS + BodyKeys(EventType(body))
    ensures ReadBody(o, EventType(body)) == Some(body) <==> Holds(o, BodyFields(body))
  {
    JobReads(o["job"], job);
  }

  lemma ProgressBodyReads(o: Fields, job: Job, progress: Progress)
    requires ValidJob(job) && ValidProgress(progress) && o.Keys == COMMON_FIELDS + {"job", "progress"}
    ensures ReadBody(o, "job.progress") == Some(JobProgress(job, progress)) <==>
            o["job"] == JobJson(job) && o["progress"] == ProgressJson(progress)
  {
    JobReads(o["job"], job);
    ProgressReads(o["progress"], progress);
  }

  lemma FallbackBodyReads(o: Fields, job: Job, fallback: Fallback)
    requires ValidJob(job) && ValidFallback(fallback) && o.Keys == COMMON_FIELDS + {"job", "fallback"}
    ensures ReadBody(o, "job.fallback") == Some(JobFallback(job, fallback)) <==>
            o["job"] == JobJson(job) && o["fallback"] == FallbackJson(fallback)
  {
    JobReads(o["job"], job);
    FallbackReads(o["fallback"], fallback);
  }

  lemma TwoFields(o: Fields, key: string, value: Json, other: string, second: Json)
    requires key in o && other in o && key != other
    ensures Holds(o, map[key := value, other := second]) <==> o[key] == value && o[other] == second
  {
  }

  lemma BodyReads(o: Fields, body: Body)
    requires ValidBody(body) && o.Keys == COMMON_FIELDS + BodyKeys(EventType(body))
    ensures ReadBody(o, EventType(body)) == Some(body) <==> Holds(o, BodyFields(body))
  {
    match body {
      case RunnerHeartbeat | RunnerOffline =>
      case JobStarted(job) => JobBodyReads(o, body, job);
      case JobHeartbeat(job) => JobBodyReads(o, body, job);
      case JobFinished(job, _) => JobBodyReads(o, body, job);
      case JobProgress(job, progress) =>
        ProgressBodyReads(o, job, progress);
        TwoFields(o, "job", JobJson(job), "progress", ProgressJson(progress));
      case JobFallback(job, fallback) =>
        FallbackBodyReads(o, job, fallback);
        TwoFields(o, "job", JobJson(job), "fallback", FallbackJson(fallback));
    }
  }

  // What is read has the type it was read by.
  lemma BodyHasItsType(o: Fields, eventType: string)
    ensures ReadBody(o, eventType).Some? ==> EventType(ReadBody(o, eventType).value) == eventType
  {
  }

  predicate IsField(o: Fields, key: string, value: Json) {
    key in o && o[key] == value
  }

  predicate HoldsSubject(o: Fields, e: Event) {
    && IsField(o, "schema_version", Number(1)) && IsField(o, "event_type", Text(EventType(e.body)))
    && IsField(o, "event_id", Text(e.id)) && IsField(o, "runner_id", Text(e.runnerId))
  }

  predicate HoldsOrigin(o: Fields, e: Event) {
    && IsField(o, "producer_id", Text(e.producerId)) && IsField(o, "producer_epoch", Text(e.producerEpoch))
    && IsField(o, "producer_sequence", Number(e.sequence)) && IsField(o, "occurred_at", Text(e.occurredAt))
  }

  lemma SubjectOneByOne(o: Fields, e: Event)
    ensures Holds(o, SubjectFields(e)) <==> HoldsSubject(o, e)
  {
  }

  lemma OriginOneByOne(o: Fields, e: Event)
    ensures Holds(o, OriginFields(e)) <==> HoldsOrigin(o, e)
  {
  }

  lemma HoldsParts(o: Fields, a: Fields, b: Fields)
    requires a.Keys !! b.Keys
    ensures Holds(o, a + b) <==> Holds(o, a) && Holds(o, b)
  {
    if Holds(o, a + b) {
      forall key | key in a ensures key in o && o[key] == a[key] {
        assert key in a + b && (a + b)[key] == a[key];
      }
      forall key | key in b ensures key in o && o[key] == b[key] {
        assert key in a + b && (a + b)[key] == b[key];
      }
    }
  }

  lemma PartsAreApart(e: Event)
    ensures SubjectFields(e).Keys !! OriginFields(e).Keys
    ensures SubjectFields(e).Keys + OriginFields(e).Keys == COMMON_FIELDS
  {
  }

  lemma CommonOneByOne(o: Fields, e: Event)
    ensures Holds(o, CommonFields(e)) <==> HoldsSubject(o, e) && HoldsOrigin(o, e)
  {
    PartsAreApart(e);
    HoldsParts(o, SubjectFields(e), OriginFields(e));
    SubjectOneByOne(o, e);
    OriginOneByOne(o, e);
  }

  lemma EnvelopeReads(o: Fields, e: Event)
    requires Valid(e)
    ensures HoldsSubject(o, e) && HoldsOrigin(o, e) <==>
            IsField(o, "schema_version", Number(1)) && IsField(o, "event_type", Text(EventType(e.body)))
            && ReadEnvelope(o, e.body) == Some(e)
  {
  }

  lemma EventIsBodyAndEnvelope(o: Fields, e: Event)
    ensures ReadEvent(o) == Some(e) <==>
            IsField(o, "event_type", Text(EventType(e.body)))
            && ReadBody(o, EventType(e.body)) == Some(e.body) && ReadEnvelope(o, e.body) == Some(e)
  {
    if IsText(o, "event_type") {
      BodyHasItsType(o, o["event_type"].text);
    }
  }

  lemma EventReads(o: Fields, e: Event)
    requires Valid(e) && o.Keys == COMMON_FIELDS + BodyKeys(EventType(e.body))
    ensures (IsField(o, "schema_version", Number(1)) && ReadEvent(o) == Some(e)) <==>
            Holds(o, CommonFields(e)) && Holds(o, BodyFields(e.body))
  {
    EventIsBodyAndEnvelope(o, e);
    EnvelopeReads(o, e);
    CommonOneByOne(o, e);
    BodyReads(o, e.body);
  }

  lemma BothParts(o: Fields, common: Fields, more: Fields)
    requires common.Keys !! more.Keys
    ensures o == common + more <==> o.Keys == common.Keys + more.Keys && Holds(o, common) && Holds(o, more)
  {
    if o.Keys == common.Keys + more.Keys && Holds(o, common) && Holds(o, more) {
      assert o.Keys == (common + more).Keys;
      forall key | key in o ensures o[key] == (common + more)[key] {
        assert key in common || key in more;
      }
    }
  }

  lemma BodyKeysAreApart(eventType: string)
    ensures COMMON_FIELDS !! BodyKeys(eventType)
  {
  }

  lemma EventJsonKeys(e: Event)
    ensures CommonFields(e).Keys == COMMON_FIELDS && COMMON_FIELDS !! BodyFields(e.body).Keys
    ensures Holds(EventJson(e).fields, CommonFields(e)) && Holds(CommonFields(e), SubjectFields(e))
  {
    PartsAreApart(e);
    BodyHasItsKeys(e.body);
    BodyKeysAreApart(EventType(e.body));
  }

  lemma ReadEventHasItsKeys(o: Fields)
    ensures ReadEvent(o).Some? ==>
              Valid(ReadEvent(o).value) && o.Keys == COMMON_FIELDS + BodyKeys(EventType(ReadEvent(o).value.body))
  {
    if IsText(o, "event_type") {
      BodyHasItsType(o, o["event_type"].text);
    }
  }

  // Validation accepts exactly the trees of valid events, and reads each back whole: no field
  // is missing, added or lost.
  lemma AcceptsExactlyEvents(j: Json, e: Event)
    ensures Validate(j) == Accepted(e) <==> Valid(e) && j == EventJson(e)
  {
    BodyHasItsKeys(e.body);
    EventJsonKeys(e);
    if j.Object? {
      ReadEventHasItsKeys(j.fields);
      BothParts(j.fields, CommonFields(e), BodyFields(e.body));
      if Valid(e) && j.fields.Keys == COMMON_FIELDS + BodyKeys(EventType(e.body)) {
        EventReads(j.fields, e);
      }
    }
  }

  // So storing an accepted event frozen, thawing it and validating it again changes nothing.
  lemma StoredEventValidates(j: Json, e: Event)
    requires Validate(j) == Accepted(e)
    ensures Validate(Thaw(Freeze(j))) == Accepted(e) && Thaw(Freeze(j)) == EventJson(e)
  {
    ThawUndoesFreeze(j);
    AcceptsExactlyEvents(j, e);
  }
}
