// The closed schema of events as a table of rules, and validation as conformance to it.
module EventSchema {
  import opened Contracts
  import opened EventPayload
  import opened Options
  import opened ResourceIds

  // What a field may hold.
  datatype Rule =
    | Exactly(n: int)
    | AtLeast(least: int)
    | Flag
    | OneOf(words: set<string>)
    | UpTo(max: nat)     // a text that is not empty
    | Identifier         // a letter or digit, then at most 63 letters, digits, '_', '.' or '-'
    | StageName          // a small letter, then at most 63 small letters, digits or '_'
    | RepositoryName     // two identifiers of at most a hundred characters with a slash between
    | Holding(rules: map<string, Rule>)  // exactly these fields

  predicate Letter(c: char) {
    'a' <= c <= 'z' || 'A' <= c <= 'Z'
  }

  predicate Digit(c: char) {
    '0' <= c <= '9'
  }

  predicate Named(s: string, max: nat) {
    && 1 <= |s| <= max && (Letter(s[0]) || Digit(s[0]))
    && forall i :: 1 <= i < |s| ==> Letter(s[i]) || Digit(s[i]) || s[i] == '_' || s[i] == '.' || s[i] == '-'
  }

  predicate Obeys(j: Json, rule: Rule)
    decreases rule
  {
    match rule
    case Exactly(n) => j == Number(n)
    case AtLeast(least) => j.Number? && j.n >= least
    case Flag => j == Truth(true) || j == Truth(false)
    case OneOf(words) => j.Text? && j.text in words
    case UpTo(max) => j.Text? && 1 <= |j.text| <= max
    case Identifier => j.Text? && Named(j.text, 64)
    case StageName =>
      && j.Text? && 1 <= |j.text| <= 64 && 'a' <= j.text[0] <= 'z'
      && forall i :: 1 <= i < |j.text| ==> 'a' <= j.text[i] <= 'z' || Digit(j.text[i]) || j.text[i] == '_'
    case RepositoryName =>
      && j.Text?
      && exists cut: nat :: cut < |j.text| && j.text[cut] == '/'
                            && Named(j.text[..cut], 100) && Named(j.text[cut + 1..], 100)
    case Holding(rules) =>
      && j.Object? && j.fields.Keys == rules.Keys
      && forall key :: key in rules ==> Obeys(j.fields[key], rules[key])
  }

  const JOB :=
    map["repository" := RepositoryName, "workflow_run_id" := AtLeast(1), "run_attempt" := AtLeast(1),
        "job_id" := AtLeast(1), "job_name" := UpTo(200), "run_url" := UpTo(256)]
  const STATES := OneOf({"running", "completed", "failed", "cancelled"})
  const PROGRESS_STAGE :=
    map["stage_id" := StageName, "stage_kind" := StageName, "state" := STATES, "determinate" := Flag]
  const PROGRESS_COUNTS :=
    map["total" := AtLeast(0), "completed" := AtLeast(0), "failed" := AtLeast(0), "pending" := AtLeast(0),
        "fallback_group_count" := AtLeast(0), "affected_test_count" := AtLeast(0), "attempt" := AtLeast(1)]
  const PROGRESS := PROGRESS_STAGE + PROGRESS_COUNTS
  const FALLBACK :=
    map["target_stage_id" := StageName, "reason_code" := StageName, "completed_groups" := AtLeast(0),
        "total_groups" := AtLeast(0), "fallback_group_count" := AtLeast(0), "affected_test_count" := AtLeast(0)]
  const COMMON :=
    map["schema_version" := Exactly(1), "event_id" := UpTo(36), "runner_id" := UpTo(36),
        "producer_id" := Identifier, "producer_epoch" := Identifier, "producer_sequence" := AtLeast(1),
        "occurred_at" := UpTo(35)]

  // The further fields of each type of event.
  function RulesOf(eventType: string): Option<map<string, Rule>> {
    match eventType
    case "runner.heartbeat" => Some(map[])
    case "runner.offline" => Some(map[])
    case "job.started" => Some(map["job" := Holding(JOB)])
    case "job.heartbeat" => Some(map["job" := Holding(JOB)])
    case "job.finished" =>
      Some(map["job" := Holding(JOB), "outcome" := OneOf({"succeeded", "failed", "cancelled"})])
    case "job.progress" => Some(map["job" := Holding(JOB), "progress" := Holding(PROGRESS)])
    case "job.fallback" => Some(map["job" := Holding(JOB), "fallback" := Holding(FALLBACK)])
    case _ => None
  }

  predicate Conforms(j: Json) {
    && j.Object? && "event_type" in j.fields && j.fields["event_type"].Text?
    && var eventType := j.fields["event_type"].text;
    && RulesOf(eventType).Some?
    && Obeys(j, Holding(COMMON + map["event_type" := OneOf({eventType})] + RulesOf(eventType).value))
  }

  lemma TokenIsNamed(s: string, max: nat)
    ensures IsToken(s, max) <==> Named(s, max)
  {
    if Named(s, max) {
      forall i | 0 <= i < |s| ensures Alphanumeric(s[i]) || s[i] in "_.-" {
        assert s[i] in "_.-" <==> s[i] == '_' || s[i] == '.' || s[i] == '-';
      }
    }
    if IsToken(s, max) {
      forall i | 1 <= i < |s| ensures Letter(s[i]) || Digit(s[i]) || s[i] == '_' || s[i] == '.' || s[i] == '-' {
        assert Alphanumeric(s[i]) || s[i] in "_.-";
      }
    }
  }

  lemma RepositoryIsNamed(s: string)
    ensures Bounded(s, 201) && IsRepository(s) <==> Obeys(Text(s), RepositoryName)
  {
    if cut :| 0 <= cut < |s| && s[cut] == '/' && IsToken(s[..cut], 100) && IsToken(s[cut + 1..], 100) {
      TokenIsNamed(s[..cut], 100);
      TokenIsNamed(s[cut + 1..], 100);
    }
    if cut: nat :| cut < |s| && s[cut] == '/' && Named(s[..cut], 100) && Named(s[cut + 1..], 100) {
      TokenIsNamed(s[..cut], 100);
      TokenIsNamed(s[cut + 1..], 100);
      assert |s[..cut]| + 1 + |s[cut + 1..]| == |s|;
    }
  }

  lemma StageIsNamed(s: string)
    ensures IsStageId(s) <==> Obeys(Text(s), StageName)
  {
    if Obeys(Text(s), StageName) {
      forall i | 0 <= i < |s| ensures 'a' <= s[i] <= 'z' || '0' <= s[i] <= '9' || s[i] == '_' {
      }
    }
  }

  // ---------- rule by rule ----------

  predicate Has(o: Fields, key: string, rule: Rule) {
    key in o && Obeys(o[key], rule)
  }

  predicate Follow(o: Fields, rules: map<string, Rule>) {
    forall key :: key in rules ==> Has(o, key, rules[key])
  }

  lemma HoldingIsFollow(o: Fields, rules: map<string, Rule>)
    ensures Obeys(Object(o), Holding(rules)) <==> o.Keys == rules.Keys && Follow(o, rules)
  {
    if Obeys(Object(o), Holding(rules)) {
      forall key | key in rules ensures Has(o, key, rules[key]) {
      }
    }
    if o.Keys == rules.Keys && Follow(o, rules) {
      forall key | key in rules ensures Obeys(o[key], rules[key]) {
        assert Has(o, key, rules[key]);
      }
    }
  }

  lemma FollowWith(o: Fields, rules: map<string, Rule>, key: string, rule: Rule)
    requires key !in rules
    ensures Follow(o, rules[key := rule]) <==> Follow(o, rules) && Has(o, key, rule)
  {
    var more := rules[key := rule];
    if Follow(o, more) {
      assert Has(o, key, more[key]);
      forall other | other in rules ensures Has(o, other, rules[other]) {
        assert Has(o, other, more[other]);
      }
    }
  }

  lemma JobFollow(o: Fields)
    ensures Follow(o, JOB) <==>
            && Has(o, "repository", RepositoryName) && Has(o, "workflow_run_id", AtLeast(1))
            && Has(o, "run_attempt", AtLeast(1)) && Has(o, "job_id", AtLeast(1))
            && Has(o, "job_name", UpTo(200)) && Has(o, "run_url", UpTo(256))
  {
    var r0: map<string, Rule> := map[];
    var r1 := r0["repository" := RepositoryName];
    var r2 := r1["workflow_run_id" := AtLeast(1)];
    var r3 := r2["run_attempt" := AtLeast(1)];
    var r4 := r3["job_id" := AtLeast(1)];
    var r5 := r4["job_name" := UpTo(200)];
    var r6 := r5["run_url" := UpTo(256)];
    FollowWith(o, r0, "repository", RepositoryName);
    FollowWith(o, r1, "workflow_run_id", AtLeast(1));
    FollowWith(o, r2, "run_attempt", AtLeast(1));
    FollowWith(o, r3, "job_id", AtLeast(1));
    FollowWith(o, r4, "job_name", UpTo(200));
    FollowWith(o, r5, "run_url", UpTo(256));
    assert JOB == r6;
  }

  lemma StageFollow(o: Fields)
    ensures Follow(o, PROGRESS_STAGE) <==>
            && Has(o, "stage_id", StageName) && Has(o, "stage_kind", StageName)
            && Has(o, "state", STATES) && Has(o, "determinate", Flag)
  {
    var r0: map<string, Rule> := map[];
    var r1 := r0["stage_id" := StageName];
    var r2 := r1["stage_kind" := StageName];
    var r3 := r2["state" := STATES];
    var r4 := r3["determinate" := Flag];
    FollowWith(o, r0, "stage_id", StageName);
    FollowWith(o, r1, "stage_kind", StageName);
    FollowWith(o, r2, "state", STATES);
    FollowWith(o, r3, "determinate", Flag);
    assert PROGRESS_STAGE == r4;
  }

  lemma CountsFollow(o: Fields)
    ensures Follow(o, PROGRESS_COUNTS) <==>
            && Has(o, "total", AtLeast(0)) && Has(o, "completed", AtLeast(0))
            && Has(o, "failed", AtLeast(0)) && Has(o, "pending", AtLeast(0))
            && Has(o, "fallback_group_count", AtLeast(0)) && Has(o, "affected_test_count", AtLeast(0))
            && Has(o, "attempt", AtLeast(1))
  {
    var r0: map<string, Rule> := map[];
    var r1 := r0["total" := AtLeast(0)];
    var r2 := r1["completed" := AtLeast(0)];
    var r3 := r2["failed" := AtLeast(0)];
    var r4 := r3["pending" := AtLeast(0)];
    var r5 := r4["fallback_group_count" := AtLeast(0)];
    var r6 := r5["affected_test_count" := AtLeast(0)];
    var r7 := r6["attempt" := AtLeast(1)];
    FollowWith(o, r0, "total", AtLeast(0));
    FollowWith(o, r1, "completed", AtLeast(0));
    FollowWith(o, r2, "failed", AtLeast(0));
    FollowWith(o, r3, "pending", AtLeast(0));
    FollowWith(o, r4, "fallback_group_count", AtLeast(0));
    FollowWith(o, r5, "affected_test_count", AtLeast(0));
    FollowWith(o, r6, "attempt", AtLeast(1));
    assert PROGRESS_COUNTS == r7;
  }

  lemma ProgressApart()
    ensures PROGRESS_STAGE.Keys !! PROGRESS_COUNTS.Keys
  {
  }

  lemma FallbackFollow(o: Fields)
    ensures Follow(o, FALLBACK) <==>
            && Has(o, "target_stage_id", StageName) && Has(o, "reason_code", StageName)
            && Has(o, "completed_groups", AtLeast(0)) && Has(o, "total_groups", AtLeast(0))
            && Has(o, "fallback_group_count", AtLeast(0)) && Has(o, "affected_test_count", AtLeast(0))
  {
    var r0: map<string, Rule> := map[];
    var r1 := r0["target_stage_id" := StageName];
    var r2 := r1["reason_code" := StageName];
    var r3 := r2["completed_groups" := AtLeast(0)];
    var r4 := r3["total_groups" := AtLeast(0)];
    var r5 := r4["fallback_group_count" := AtLeast(0)];
    var r6 := r5["affected_test_count" := AtLeast(0)];
    FollowWith(o, r0, "target_stage_id", StageName);
    FollowWith(o, r1, "reason_code", StageName);
    FollowWith(o, r2, "completed_groups", AtLeast(0));
    FollowWith(o, r3, "total_groups", AtLeast(0));
    FollowWith(o, r4, "fallback_group_count", AtLeast(0));
    FollowWith(o, r5, "affected_test_count", AtLeast(0));
    assert FALLBACK == r6;
  }

  // ---------- reading is conforming ----------

  lemma JobKeys()
    ensures JOB.Keys == JOB_FIELDS
  {
  }

  lemma ProgressKeys()
    ensures PROGRESS.Keys == PROGRESS_FIELDS
  {
  }

  lemma FallbackKeys()
    ensures FALLBACK.Keys == FALLBACK_FIELDS
  {
  }

  predicate JobTyped(o: Fields) {
    && IsText(o, "repository") && IsNumber(o, "workflow_run_id") && IsNumber(o, "run_attempt")
    && IsNumber(o, "job_id") && IsText(o, "job_name") && IsText(o, "run_url")
  }

  function JobOf(o: Fields): Job
    requires JobTyped(o)
  {
    Job(JobKey(o["repository"].text, o["workflow_run_id"].n, o["run_attempt"].n, o["job_id"].n),
        o["job_name"].text, o["run_url"].text)
  }

  lemma JobIsRead(o: Fields)
    ensures ReadJob(Object(o)).Some? <==> o.Keys == JOB_FIELDS && JobTyped(o) && ValidJob(JobOf(o))
  {
  }

  lemma JobInRange(o: Fields)
    ensures Follow(o, JOB) <==> JobTyped(o) && ValidJob(JobOf(o))
  {
    JobFollow(o);
    if IsText(o, "repository") {
      RepositoryIsNamed(o["repository"].text);
    }
  }

  lemma JobConforms(j: Json)
    ensures ReadJob(j).Some? <==> Obeys(j, Holding(JOB))
  {
    if j.Object? {
      JobKeys();
      JobIsRead(j.fields);
      JobInRange(j.fields);
      HoldingIsFollow(j.fields, JOB);
    }
  }

  predicate ProgressTyped(o: Fields) {
    && IsText(o, "stage_id") && IsText(o, "stage_kind") && IsText(o, "state")
    && "determinate" in o && o["determinate"].Truth?
    && IsNumber(o, "total") && IsNumber(o, "completed") && IsNumber(o, "failed") && IsNumber(o, "pending")
    && IsNumber(o, "fallback_group_count") && IsNumber(o, "affected_test_count") && IsNumber(o, "attempt")
  }

  function ProgressOf(o: Fields): Progress
    requires ProgressTyped(o)
  {
    Progress(o["stage_id"].text, o["stage_kind"].text, o["state"].text, o["determinate"].value,
             o["total"].n, o["completed"].n, o["failed"].n, o["pending"].n,
             o["fallback_group_count"].n, o["affected_test_count"].n, o["attempt"].n)
  }

  lemma ProgressIsRead(o: Fields)
    ensures ReadProgress(Object(o)).Some? <==>
            o.Keys == PROGRESS_FIELDS && ProgressTyped(o) && ValidProgress(ProgressOf(o))
  {
  }

  lemma ProgressInRange(o: Fields)
    ensures Follow(o, PROGRESS) <==> ProgressTyped(o) && ValidProgress(ProgressOf(o))
  {
    StageFollow(o);
    CountsFollow(o);
    ProgressApart();
    FollowBoth(o, PROGRESS_STAGE, PROGRESS_COUNTS);
    if IsText(o, "stage_id") && IsText(o, "stage_kind") {
      StageIsNamed(o["stage_id"].text);
      StageIsNamed(o["stage_kind"].text);
    }
  }

  lemma ProgressConforms(j: Json)
    ensures ReadProgress(j).Some? <==> Obeys(j, Holding(PROGRESS))
  {
    if j.Object? {
      ProgressKeys();
      ProgressIsRead(j.fields);
      ProgressInRange(j.fields);
      HoldingIsFollow(j.fields, PROGRESS);
    }
  }

  lemma FallbackConforms(j: Json)
    ensures ReadFallback(j).Some? <==> Obeys(j, Holding(FALLBACK))
  {
    if j.Object? {
      var o := j.fields;
      HoldingIsFollow(o, FALLBACK);
      FallbackFollow(o);
      FallbackKeys();
      if IsText(o, "target_stage_id") && IsText(o, "reason_code") {
        StageIsNamed(o["target_stage_id"].text);
        StageIsNamed(o["reason_code"].text);
      }
    }
  }

  // ---------- the whole event ----------

  lemma FollowBoth(o: Fields, rules: map<string, Rule>, more: map<string, Rule>)
    requires rules.Keys !! more.Keys
    ensures Follow(o, rules + more) <==> Follow(o, rules) && Follow(o, more)
  {
    var all := rules + more;
    if Follow(o, all) {
      forall key | key in rules ensures Has(o, key, rules[key]) {
        assert Has(o, key, all[key]);
      }
      forall key | key in more ensures Has(o, key, more[key]) {
        assert Has(o, key, all[key]);
      }
    }
  }

  lemma CommonFollow(o: Fields)
    ensures Follow(o, COMMON) <==>
            && Has(o, "schema_version", Exactly(1)) && Has(o, "event_id", UpTo(36)) && Has(o, "runner_id", UpTo(36))
            && Has(o, "producer_id", Identifier) && Has(o, "producer_epoch", Identifier)
            && Has(o, "producer_sequence", AtLeast(1)) && Has(o, "occurred_at", UpTo(35))
  {
    var r0: map<string, Rule> := map[];
    var r1 := r0["schema_version" := Exactly(1)];
    var r2 := r1["event_id" := UpTo(36)];
    var r3 := r2["runner_id" := UpTo(36)];
    var r4 := r3["producer_id" := Identifier];
    var r5 := r4["producer_epoch" := Identifier];
    var r6 := r5["producer_sequence" := AtLeast(1)];
    var r7 := r6["occurred_at" := UpTo(35)];
    FollowWith(o, r0, "schema_version", Exactly(1));
    FollowWith(o, r1, "event_id", UpTo(36));
    FollowWith(o, r2, "runner_id", UpTo(36));
    FollowWith(o, r3, "producer_id", Identifier);
    FollowWith(o, r4, "producer_epoch", Identifier);
    FollowWith(o, r5, "producer_sequence", AtLeast(1));
    FollowWith(o, r6, "occurred_at", UpTo(35));
    assert COMMON == r7;
  }

  // With a valid body, the envelope is read exactly if the common fields are in order.
  lemma EnvelopeConforms(o: Fields, body: Body)
    requires Has(o, "schema_version", Exactly(1))
    ensures ReadEnvelope(o, body).Some? <==> Follow(o, COMMON) && ValidBody(body)
  {
    CommonFollow(o);
    if IsText(o, "producer_id") && IsText(o, "producer_epoch") {
      TokenIsNamed(o["producer_id"].text, 64);
      TokenIsNamed(o["producer_epoch"].text, 64);
    }
  }

  lemma OneFollow(o: Fields, key: string, rule: Rule)
    ensures Follow(o, map[key := rule]) <==> Has(o, key, rule)
  {
    FollowWith(o, map[], key, rule);
    assert map[key := rule] == map[][key := rule];
  }

  lemma TwoFollow(o: Fields, key: string, rule: Rule, other: string, second: Rule)
    requires key != other
    ensures Follow(o, map[key := rule, other := second]) <==> Has(o, key, rule) && Has(o, other, second)
  {
    OneFollow(o, key, rule);
    FollowWith(o, map[key := rule], other, second);
    assert map[key := rule, other := second] == map[key := rule][other := second];
  }

  ghost predicate BodyAccepted(o: Fields, eventType: string) {
    ReadBody(o, eventType).Some? && ValidBody(ReadBody(o, eventType).value)
  }

  lemma JobBodyConforms(o: Fields, eventType: string, job: Rule)
    requires eventType == "job.started" || eventType == "job.heartbeat"
    requires o.Keys == COMMON_FIELDS + BodyKeys(eventType) && "job" in o && "job" in BodyKeys(eventType)
    requires ReadJob(o["job"]).Some? <==> Obeys(o["job"], job)
    ensures BodyAccepted(o, eventType) <==> Has(o, "job", job)
  {
  }

  lemma FinishedBodyConforms(o: Fields, job: Rule)
    requires o.Keys == COMMON_FIELDS + BodyKeys("job.finished") && "job" in o && "outcome" in o
    requires "job" in BodyKeys("job.finished")
    requires ReadJob(o["job"]).Some? <==> Obeys(o["job"], job)
    ensures BodyAccepted(o, "job.finished") <==>
            Has(o, "job", job) && Has(o, "outcome", OneOf({"succeeded", "failed", "cancelled"}))
  {
  }

  lemma JobIsReadFirst(o: Fields, eventType: string)
    requires o.Keys == COMMON_FIELDS + BodyKeys(eventType) && "job" in o && "job" in BodyKeys(eventType)
    ensures var job := ReadJob(o["job"]);
            && (job == None ==> ReadBody(o, eventType) == None)
            && (job.Some? ==> ValidJob(job.value) && ReadBody(o, eventType) == ReadJobBody(o, eventType, job.value))
  {
  }

  lemma ProgressIsReadThen(o: Fields, job: Job)
    requires o.Keys == COMMON_FIELDS + BodyKeys("job.progress") && "progress" in o && ValidJob(job)
    ensures var body := ReadJobBody(o, "job.progress", job);
            && (ReadProgress(o["progress"]) == None ==> body == None)
            && (ReadProgress(o["progress"]).Some? ==> body.Some? && ValidBody(body.value))
  {
  }

  lemma FallbackIsReadThen(o: Fields, job: Job)
    requires o.Keys == COMMON_FIELDS + BodyKeys("job.fallback") && "fallback" in o && ValidJob(job)
    ensures var body := ReadJobBody(o, "job.fallback", job);
            && (ReadFallback(o["fallback"]) == None ==> body == None)
            && (ReadFallback(o["fallback"]).Some? ==> body.Some? && ValidBody(body.value))
  {
  }

  lemma ProgressBodyConforms(o: Fields, job: Rule, progress: Rule)
    requires o.Keys == COMMON_FIELDS + BodyKeys("job.progress") && "job" in o && "progress" in o
    requires "job" in BodyKeys("job.progress")
    requires ReadJob(o["job"]).Some? <==> Obeys(o["job"], job)
    requires ReadProgress(o["progress"]).Some? <==> Obeys(o["progress"], progress)
    ensures BodyAccepted(o, "job.progress") <==> Has(o, "job", job) && Has(o, "progress", progress)
  {
    JobIsReadFirst(o, "job.progress");
    if ReadJob(o["job"]).Some? {
      ProgressIsReadThen(o, ReadJob(o["job"]).value);
    }
  }

  lemma FallbackBodyConforms(o: Fields, job: Rule, fallback: Rule)
    requires o.Keys == COMMON_FIELDS + BodyKeys("job.fallback") && "job" in o && "fallback" in o
    requires "job" in BodyKeys("job.fallback")
    requires ReadJob(o["job"]).Some? <==> Obeys(o["job"], job)
    requires ReadFallback(o["fallback"]).Some? <==> Obeys(o["fallback"], fallback)
    ensures BodyAccepted(o, "job.fallback") <==> Has(o, "job", job) && Has(o, "fallback", fallback)
  {
    JobIsReadFirst(o, "job.fallback");
    if ReadJob(o["job"]).Some? {
      FallbackIsReadThen(o, ReadJob(o["job"]).value);
    }
  }

  lemma BodyConforms(o: Fields, eventType: string)
    requires o.Keys == COMMON_FIELDS + BodyKeys(eventType)
    ensures BodyAccepted(o, eventType) <==> RulesOf(eventType).Some? && Follow(o, RulesOf(eventType).value)
  {
    if "job" in o {
      JobConforms(o["job"]);
    }
    match eventType {
      case "runner.heartbeat" =>
      case "runner.offline" =>
      case "job.started" =>
        JobBodyConforms(o, eventType, Holding(JOB));
        OneFollow(o, "job", Holding(JOB));
      case "job.heartbeat" =>
        JobBodyConforms(o, eventType, Holding(JOB));
        OneFollow(o, "job", Holding(JOB));
      case "job.finished" =>
        FinishedBodyConforms(o, Holding(JOB));
        TwoFollow(o, "job", Holding(JOB), "outcome", OneOf({"succeeded", "failed", "cancelled"}));
      case "job.progress" =>
        ProgressConforms(o["progress"]);
        ProgressBodyConforms(o, Holding(JOB), Holding(PROGRESS));
        TwoFollow(o, "job", Holding(JOB), "progress", Holding(PROGRESS));
      case "job.fallback" =>
        FallbackConforms(o["fallback"]);
        FallbackBodyConforms(o, Holding(JOB), Holding(FALLBACK));
        TwoFollow(o, "job", Holding(JOB), "fallback", Holding(FALLBACK));
      case _ =>
    }
  }

  lemma CommonKeys()
    ensures COMMON.Keys + {"event_type"} == COMMON_FIELDS && "event_type" !in COMMON
  {
  }

  lemma RulesHaveKeys(eventType: string)
    requires RulesOf(eventType).Some?
    ensures RulesOf(eventType).value.Keys == BodyKeys(eventType)
    ensures BodyKeys(eventType) <= {"job", "outcome", "progress", "fallback"}
  {
  }

  lemma BodyKeysAreFurther()
    ensures COMMON_FIELDS !! {"job", "outcome", "progress", "fallback"}
  {
  }

  // All rules of a type of event together.
  lemma AllFollow(
    o: Fields, eventType: string, common: map<string, Rule>, head: set<string>, body: map<string, Rule>,
    further: set<string>)
    requires common.Keys + {"event_type"} == head && "event_type" !in common
    requires head !! further && body.Keys <= further
    requires "event_type" in o && o["event_type"] == Text(eventType)
    ensures var rules := common + map["event_type" := OneOf({eventType})] + body;
            && rules.Keys == head + body.Keys
            && (Follow(o, rules) <==> Follow(o, common) && Follow(o, body))
  {
    OneFollow(o, "event_type", OneOf({eventType}));
    ThreeFollow(o, common, map["event_type" := OneOf({eventType})], body);
  }

  lemma ThreeFollow(o: Fields, a: map<string, Rule>, b: map<string, Rule>, c: map<string, Rule>)
    requires a.Keys !! b.Keys && (a.Keys + b.Keys) !! c.Keys
    ensures (a + b + c).Keys == a.Keys + b.Keys + c.Keys
    ensures Follow(o, a + b + c) <==> Follow(o, a) && Follow(o, b) && Follow(o, c)
  {
    FollowBoth(o, a, b);
    FollowBoth(o, a + b, c);
  }

  lemma EventConforms(o: Fields, eventType: string)
    requires "event_type" in o && o["event_type"] == Text(eventType) && Has(o, "schema_version", Exactly(1))
    ensures ReadEvent(o).Some? <==>
            && o.Keys == COMMON_FIELDS + BodyKeys(eventType) && RulesOf(eventType).Some?
            && Follow(o, COMMON) && Follow(o, RulesOf(eventType).value)
  {
    if o.Keys == COMMON_FIELDS + BodyKeys(eventType) {
      BodyConforms(o, eventType);
      if ReadBody(o, eventType).Some? {
        EnvelopeConforms(o, ReadBody(o, eventType).value);
      }
    }
  }

  // Validation accepts exactly what conforms to the table.
  lemma AcceptsExactlyWhatConforms(j: Json)
    ensures Validate(j).Accepted? <==> Conforms(j)
  {
    if j.Object? && IsText(j.fields, "event_type") {
      var o, eventType := j.fields, j.fields["event_type"].text;
      CommonFollow(o);
      if RulesOf(eventType).Some? {
        CommonKeys();
        RulesHaveKeys(eventType);
        BodyKeysAreFurther();
        AllFollow(o, eventType, COMMON, COMMON_FIELDS, RulesOf(eventType).value,
                  {"job", "outcome", "progress", "fallback"});
        HoldingIsFollow(o, COMMON + map["event_type" := OneOf({eventType})] + RulesOf(eventType).value);
      }
      if Has(o, "schema_version", Exactly(1)) {
        EventConforms(o, eventType);
      }
    }
  }
}
