// The textual resource id of a job incident: "repository:run:attempt:job".  The store
// prints it when an incident is opened or recovered and parses it back after a replay.
module ResourceIds {
  import opened Options
  import opened Text

  // The stable key of one job attempt.
  datatype JobKey = JobKey(repository: string, workflowRunId: int, runAttempt: int, jobId: int)

  function PrintDigit(d: nat): (c: char)
    requires d < 10
    ensures c != ':' && c != '-'
  {
    d as char + '0'
  }

  function PrintNat(n: nat): (s: string)
    ensures |s| > 0 && ':' !in s && '-' !in s
  {
    if n < 10 then [PrintDigit(n)] else PrintNat(n / 10) + [PrintDigit(n % 10)]
  }

  function PrintInt(n: int): (s: string)
    ensures |s| > 0 && ':' !in s
  {
    if n < 0 then "-" + PrintNat(-n) else PrintNat(n)
  }

  predicate IsDigits(s: string) {
    |s| > 0 && forall i :: 0 <= i < |s| ==> '0' <= s[i] <= '9'
  }

  function ParseNat(s: string): nat
    requires IsDigits(s)
  {
    var last := s[|s| - 1] as int - '0' as int;
    if |s| == 1 then last else 10 * ParseNat(s[..|s| - 1]) + last
  }

  // Python's int() on the texts that PrintInt produces; None stands for its ValueError.
  function ParseInt(s: string): Option<int> {
    if IsDigits(s) then Some(ParseNat(s) as int)
    else if |s| > 1 && s[0] == '-' && IsDigits(s[1..]) then Some(-(ParseNat(s[1..]) as int))
    else None
  }

  lemma {:induction false} ParseNatInvertsPrint(n: nat)
    ensures IsDigits(PrintNat(n)) && ParseNat(PrintNat(n)) == n
  {
    if n >= 10 {
      ParseNatInvertsPrint(n / 10);
      var s := PrintNat(n);
      assert s[..|s| - 1] == PrintNat(n / 10);
    }
  }

  lemma MinusReads(digits: string, n: nat)
    requires IsDigits(digits) && ParseNat(digits) == n
    ensures ParseInt("-" + digits) == Some(-(n as int))
  {
    assert ("-" + digits)[0] == '-' && ("-" + digits)[1..] == digits;
  }

  lemma ParseIntInvertsPrint(n: int)
    ensures ParseInt(PrintInt(n)) == Some(n)
  {
    if n < 0 {
      ParseNatInvertsPrint(-n);
      MinusReads(PrintNat(-n), -n);
    } else {
      ParseNatInvertsPrint(n);
    }
  }

  function NumericSuffix(key: JobKey): string {
    PrintInt(key.workflowRunId) + ":" + (PrintInt(key.runAttempt) + ":" + PrintInt(key.jobId))
  }

  function JobResourceId(key: JobKey): string {
    key.repository + ":" + NumericSuffix(key)
  }

  // Four decimal texts around three colons.
  lemma ResourceIdReads()
    ensures JobResourceId(JobKey("octo/repo", 120, 3, 45)) == "octo/repo:120:3:45"
  {
    assert PrintNat(120) == PrintNat(12) + "0" && PrintNat(12) == "12" && PrintNat(45) == "45" && PrintNat(3) == "3";
  }

  function ParseJobResourceId(resourceId: string): Option<JobKey> {
    var parts := Split(resourceId, ':');
    if |parts| != 4 then None
    else
      var run, attempt, job := ParseInt(parts[1]), ParseInt(parts[2]), ParseInt(parts[3]);
      if run.Some? && attempt.Some? && job.Some?
      then Some(JobKey(parts[0], run.value, attempt.value, job.value))
      else None
  }

  lemma SplitSuffix(key: JobKey)
    ensures Split(NumericSuffix(key), ':')
         == [PrintInt(key.workflowRunId), PrintInt(key.runAttempt), PrintInt(key.jobId)]
  {
    SplitJoin(PrintInt(key.workflowRunId), ':', PrintInt(key.runAttempt) + ":" + PrintInt(key.jobId));
    SplitJoin(PrintInt(key.runAttempt), ':', PrintInt(key.jobId));
    SplitAtom(PrintInt(key.jobId), ':');
  }

  // A printed id parses back to its key exactly when the repository holds no separator,
  // which the repository pattern of the event contract guarantees.
  lemma ParsePrintedId(key: JobKey)
    ensures ':' !in key.repository <==> ParseJobResourceId(JobResourceId(key)) == Some(key)
  {
    SplitSuffix(key);
    if ':' in key.repository {
      SplitCount(key.repository, ':', NumericSuffix(key));
    } else {
      SplitJoin(key.repository, ':', NumericSuffix(key));
      ParseIntInvertsPrint(key.workflowRunId);
      ParseIntInvertsPrint(key.runAttempt);
      ParseIntInvertsPrint(key.jobId);
    }
  }

  // Two keys without a separator never share a resource id.
  lemma ResourceIdInjective(a: JobKey, b: JobKey)
    requires ':' !in a.repository && ':' !in b.repository
    requires JobResourceId(a) == JobResourceId(b)
    ensures a == b
  {
    ParsePrintedId(a);
    ParsePrintedId(b);
  }
}
