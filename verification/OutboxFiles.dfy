// The outbox on disk: one file per event in two directories, and the file steps that change
// them.  Any step may fail, and the process may stop at any step.
module OutboxFiles {
  import opened Contracts
  import opened Delivery
  import opened EventPayload
  import opened JsonText
  import opened Options
  import opened TextOrder

  datatype Envelope = Envelope(queuedAt: string, event: Event)

  // What a *.json file holds: an envelope, one with a dead-letter reason, or neither.
  datatype File =
    | Queued(envelope: Envelope)
    | DeadLetter(envelope: Envelope, reason: Reason)
    | Unusable(size: nat)

  type Directory = map<string, File>

  // A file's name must be the id of the valid event inside, and only a dead letter has a reason.
  predicate ReadsAs(stem: string, file: File, allowDeadLetter: bool) {
    && (if allowDeadLetter then file.DeadLetter? && file.reason != InvalidEventReason else file.Queued?)
    && file.envelope.event.id == stem
    && Valid(file.envelope.event)
  }

  function ReadEnvelope(stem: string, file: File, allowDeadLetter: bool): Option<Envelope> {
    if ReadsAs(stem, file, allowDeadLetter) then Some(file.envelope) else None
  }

  predicate InPending(pending: Directory, e: Event) {
    e.id in pending && ReadsAs(e.id, pending[e.id], false) && pending[e.id].envelope.event == e
  }

  predicate InDeadLetter(dead: Directory, e: Event) {
    e.id in dead && ReadsAs(e.id, dead[e.id], true) && dead[e.id].envelope.event == e
  }

  // ---------- what is written: compact, ASCII-only JSON with sorted names, and a line feed ----------

  function ReasonText(reason: Reason): string {
    match reason
    case TemporaryNetworkFailure => "temporary_network_failure"
    case TemporaryHttpFailure => "temporary_http_failure"
    case RejectedHttpResponse => "rejected_http_response"
    case TransportFailure => "transport_failure"
    case DeliveryFailed => "delivery_failed"
    case InvalidEventReason => "invalid_event"
  }

  function EnvelopeFields(envelope: Envelope): Fields {
    map["event" := EventJson(envelope.event), "queued_at" := Text(envelope.queuedAt)]
  }

  function FileText(fields: Fields): string {
    Print(Object(fields)) + "\n"
  }

  // What is written reads back: the same members, among them an event that validates as itself
  // exactly if it is valid.
  lemma FileReadsBack(envelope: Envelope)
    ensures ReadValue(FileText(EnvelopeFields(envelope))) == Some((Object(EnvelopeFields(envelope)), "\n"))
    ensures EnvelopeFields(envelope).Keys == {"event", "queued_at"}
    ensures EnvelopeFields(envelope)["queued_at"] == Text(envelope.queuedAt)
    ensures Validate(EnvelopeFields(envelope)["event"]) == Accepted(envelope.event) <==> Valid(envelope.event)
  {
    TreeReadsBack(Object(EnvelopeFields(envelope)), "\n");
    AcceptsExactlyEvents(EventJson(envelope.event), envelope.event);
  }

  function FileLength(file: File): nat {
    match file
    case Queued(envelope) => |FileText(EnvelopeFields(envelope))|
    case DeadLetter(envelope, reason) =>
      |FileText(EnvelopeFields(envelope)["dead_letter_reason" := Text(ReasonText(reason))])|
    case Unusable(size) => size
  }

  // ---------- file steps ----------

  // What the next file step meets with; the process may stop just before it or just after it.
  // An uncaught error is one that arises outside the step's own handlers: in a look at whether
  // a file exists, in creating a parent directory, or in clearing away a temporary file.
  datatype Fault = NoFault | RaiseFileNotFound | RaiseOsError | RaiseUncaught | StopBefore | StopAfter

  datatype Outcome = Done | FileMissing | Failed | Escaped | Stopped

  function OutcomeOf(fault: Fault): Outcome {
    match fault
    case NoFault => Done
    case RaiseFileNotFound => FileMissing
    case RaiseOsError => Failed
    case RaiseUncaught => Escaped
    case StopBefore | StopAfter => Stopped
  }

  // How looking up a file goes: it can be read, it cannot, or the look itself raises.
  datatype Lookup = Clear | Unreadable | Raising

  // A step changes its directory when it is done, perhaps when the process stops, else not.
  ghost predicate Stepped(outcome: Outcome, before: Directory, changed: Directory, after: Directory) {
    match outcome
    case Done => after == changed
    case Stopped => after == before || after == changed
    case _ => after == before
  }

  class Disk {
    var pending: Directory
    var deadLetter: Directory
    var faults: seq<Fault>

    constructor (pending: Directory, deadLetter: Directory, faults: seq<Fault>)
      ensures this.pending == pending && this.deadLetter == deadLetter && this.faults == faults
    {
      this.pending, this.deadLetter, this.faults := pending, deadLetter, faults;
    }

    // Whether some file is yet to vanish under the lock.
    ghost predicate FilesVanish()
      reads `faults
    {
      RaiseFileNotFound in faults
    }

    method NextFault() returns (fault: Fault)
      modifies `faults
      ensures fault == RaiseFileNotFound || FilesVanish() ==> old(FilesVanish())
      ensures old(faults) == [] ==> fault == NoFault && faults == []
    {
      fault := if faults == [] then NoFault else faults[0];
      faults := if faults == [] then [] else faults[1..];
    }

    // Writing a temporary file and renaming it over the target is one atomic step.
    method ReplacePending(id: string, file: File) returns (outcome: Outcome)
      modifies `pending, `faults
      ensures Stepped(outcome, old(pending), old(pending)[id := file], pending)
      ensures old(faults) == [] ==> outcome == Done && faults == []
      ensures FilesVanish() ==> old(FilesVanish())
    {
      var fault := NextFault();
      if fault == NoFault || fault == StopAfter {
        pending := pending[id := file];
      }
      outcome := OutcomeOf(fault);
    }

    method ReplaceDeadLetter(id: string, file: File) returns (outcome: Outcome)
      modifies `deadLetter, `faults
      ensures Stepped(outcome, old(deadLetter), old(deadLetter)[id := file], deadLetter)
      ensures old(faults) == [] ==> outcome == Done && faults == []
      ensures outcome == FileMissing || FilesVanish() ==> old(FilesVanish())
    {
      var fault := NextFault();
      if fault == NoFault || fault == StopAfter {
        deadLetter := deadLetter[id := file];
      }
      outcome := OutcomeOf(fault);
    }

    // A look at whether a file exists, which has no handler of its own.
    method Inspect() returns (outcome: Outcome)
      modifies `faults
      ensures outcome in {Done, Escaped, Stopped}
      ensures old(faults) == [] ==> outcome == Done && faults == []
      ensures FilesVanish() ==> old(FilesVanish())
    {
      var fault := NextFault();
      match fault {
        case NoFault | RaiseFileNotFound => outcome := Done;
        case RaiseOsError | RaiseUncaught => outcome := Escaped;
        case StopBefore | StopAfter => outcome := Stopped;
      }
    }

    // A file that is missing was already gone, or vanishes just now.
    method UnlinkPending(id: string) returns (outcome: Outcome)
      modifies `pending, `faults
      ensures outcome == Done ==> id in old(pending)
      ensures outcome == Done || outcome == FileMissing ==> pending == old(pending) - {id}
      ensures outcome == Stopped ==> pending == old(pending) || pending == old(pending) - {id}
      ensures outcome == Failed ==> pending == old(pending)
      ensures outcome != Escaped
      ensures old(faults) == [] ==> (outcome == Done || outcome == FileMissing) && faults == []
      ensures old(faults) == [] && id in old(pending) ==> outcome == Done
      ensures (outcome == FileMissing && id in old(pending)) || FilesVanish() ==> old(FilesVanish())
    {
      var fault := NextFault();
      if fault == StopBefore {
        outcome := Stopped;
      } else if id !in pending {
        outcome := if fault == StopAfter then Stopped else FileMissing;
      } else if fault != RaiseOsError && fault != RaiseUncaught {
        pending := pending - {id};
        outcome := OutcomeOf(fault);
      } else {
        outcome := Failed;
      }
    }
  }

  // ---------- the order of delivery ----------

  // Queued at an earlier text, or at the same with an id not later.
  ghost predicate InTurn(x: Envelope, y: Envelope) {
    || Earlier(x.queuedAt, y.queuedAt)
    || (x.queuedAt == y.queuedAt && (x.event.id == y.event.id || Earlier(x.event.id, y.event.id)))
  }

  lemma BeforeMeans(x: Envelope, y: Envelope)
    ensures Before(x, y) <==> InTurn(x, y)
  {
    StringLeMeans(x.queuedAt, y.queuedAt);
    StringLeMeans(x.event.id, y.event.id);
    EarlierDiffers(x.queuedAt);
  }

  // (queued_at, event_id) order
  predicate Before(x: Envelope, y: Envelope) {
    if x.queuedAt == y.queuedAt then StringLe(x.event.id, y.event.id) else StringLe(x.queuedAt, y.queuedAt)
  }

  lemma BeforeTotal(x: Envelope, y: Envelope)
    ensures Before(x, y) || Before(y, x)
  {
    StringLeTotal(x.queuedAt, y.queuedAt);
    StringLeTotal(x.event.id, y.event.id);
  }

  lemma BeforeTransitive(x: Envelope, y: Envelope, z: Envelope)
    requires Before(x, y) && Before(y, z)
    ensures Before(x, z)
  {
    StringLeTotal(x.queuedAt, y.queuedAt);
    StringLeTotal(y.queuedAt, z.queuedAt);
    if x.queuedAt == y.queuedAt == z.queuedAt {
      StringLeTransitive(x.event.id, y.event.id, z.event.id);
    } else {
      StringLeTransitive(x.queuedAt, y.queuedAt, z.queuedAt);
    }
  }

  ghost predicate Sorted(s: seq<Envelope>) {
    forall i, j :: 0 <= i < j < |s| ==> Before(s[i], s[j])
  }

  // Sorted means oldest first, and by id among those queued at the same time.
  lemma SortedMeans(s: seq<Envelope>)
    ensures Sorted(s) <==> forall i, j :: 0 <= i < j < |s| ==> InTurn(s[i], s[j])
  {
    forall i, j | 0 <= i < j < |s| ensures Before(s[i], s[j]) <==> InTurn(s[i], s[j]) {
      BeforeMeans(s[i], s[j]);
    }
  }

  // list.sort on the valid envelopes
  function Inserted(s: seq<Envelope>, x: Envelope): seq<Envelope> {
    if s == [] || Before(x, s[0]) then [x] + s else [s[0]] + Inserted(s[1..], x)
  }

  lemma {:induction false} InsertedKeepsOrder(s: seq<Envelope>, x: Envelope)
    requires Sorted(s)
    ensures Sorted(Inserted(s, x))
    ensures multiset(Inserted(s, x)) == multiset(s) + multiset{x}
  {
    if s == [] {
    } else if Before(x, s[0]) {
      forall j | 0 <= j < |s| ensures Before(x, s[j]) {
        if j > 0 {
          BeforeTransitive(x, s[0], s[j]);
        }
      }
    } else {
      BeforeTotal(x, s[0]);
      InsertedKeepsOrder(s[1..], x);
      var rest := Inserted(s[1..], x);
      assert s == [s[0]] + s[1..];
      forall j | 0 <= j < |rest| ensures Before(s[0], rest[j]) {
        assert rest[j] in multiset(rest);
        if rest[j] != x {
          assert rest[j] in multiset(s[1..]);
        }
      }
    }
  }
}
