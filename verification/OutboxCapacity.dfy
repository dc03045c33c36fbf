// How much the outbox may come to hold.
module OutboxCapacity {
  import opened Delivery
  import opened EventPayload
  import opened JsonText
  import opened OutboxFiles
  import opened Sums

  datatype Limits = Limits(maxEvents: int, maxBytes: int, maxDrainEvents: int, maxDrainSeconds: real)
  {
    predicate Valid() {
      maxEvents >= 1 && maxBytes >= 1 && maxDrainEvents >= 1 && maxDrainSeconds > 0.0
    }
  }

  // Which directory listings and file reads succeed during one operation.  A failed listing
  // looks like an empty directory.
  datatype Sight = Sight(pendingListed: bool, deadListed: bool, pendingUnreadable: set<string>,
                         deadUnreadable: set<string>)

  // Most of what follows holds for any measure of files.
  type Measure = File -> nat

  const LENGTH: Measure := FileLength

  function Lengths(files: Directory, m: Measure): map<string, nat> {
    map id | id in files :: m(files[id])
  }

  ghost function Bytes(files: Directory, m: Measure): nat {
    Total(Lengths(files, m))
  }

  lemma BytesWith(files: Directory, id: string, file: File, m: Measure)
    requires id !in files
    ensures Bytes(files[id := file], m) == Bytes(files, m) + m(file)
    ensures |files[id := file]| == |files| + 1
  {
    TotalWith(Lengths(files, m), id, m(file));
    assert Lengths(files[id := file], m) == Lengths(files, m)[id := m(file)];
  }

  lemma BytesWithout(files: Directory, id: string, m: Measure)
    requires id in files
    ensures Bytes(files, m) == m(files[id]) + Bytes(files - {id}, m)
    ensures |files| == |files - {id}| + 1
  {
    BytesWith(files - {id}, id, files[id], m);
    assert (files - {id})[id := files[id]] == files;
  }

  // ---------- what the capacity check sees ----------

  function VisibleCount(pending: Directory, dead: Directory, sight: Sight): nat {
    (if sight.pendingListed then |pending| else 0) + (if sight.deadListed then |dead| else 0)
  }

  ghost function VisibleBytes(pending: Directory, dead: Directory, sight: Sight, m: Measure): nat {
    (if sight.pendingListed then Bytes(pending, m) else 0) + (if sight.deadListed then Bytes(dead, m) else 0)
  }

  ghost predicate Room(pending: Directory, dead: Directory, limits: Limits, sight: Sight, length: nat, m: Measure) {
    VisibleCount(pending, dead, sight) < limits.maxEvents
    && VisibleBytes(pending, dead, sight, m) + length <= limits.maxBytes
  }

  // One more file of that length keeps both directories together within the limits.
  ghost predicate Fits(pending: Directory, dead: Directory, limits: Limits, length: nat, m: Measure) {
    |pending| + |dead| + 1 <= limits.maxEvents && Bytes(pending, m) + Bytes(dead, m) + length <= limits.maxBytes
  }

  // The check keeps the limits for every content of the directories exactly when both
  // listings succeed: a listing that fails hides files and lets the outbox overfill.
  lemma RoomMeansFitsExactlyWhenListed(limits: Limits, sight: Sight)
    requires limits.Valid()
    ensures sight.pendingListed && sight.deadListed <==>
            forall pending, dead, length :: Room(pending, dead, limits, sight, length, LENGTH) <==>
                                            Fits(pending, dead, limits, length, LENGTH)
  {
    if !sight.pendingListed || !sight.deadListed {
      var full: Directory := map["a" := Unusable(limits.maxBytes)];
      BytesWith(map[], "a", Unusable(limits.maxBytes), LENGTH);
      assert full == map[]["a" := Unusable(limits.maxBytes)];
      var pending: Directory := if sight.pendingListed then map[] else full;
      var dead: Directory := if sight.pendingListed then full else map[];
      assert Room(pending, dead, limits, sight, 1, LENGTH) && !Fits(pending, dead, limits, 1, LENGTH);
    }
  }

  // ---------- over whole runs ----------

  // A drain only removes pending files and files dead letters of what was pending.
  ghost predicate Shrinks(pending: Directory, dead: Directory, pending': Directory, dead': Directory) {
    && (forall id :: id in pending' ==> id in pending && pending'[id] == pending[id])
    && (forall id :: id in dead ==> id in dead' && dead'[id] == dead[id])
    && (forall id :: id in dead' && id !in dead ==>
                       id in pending && pending[id].Queued? && dead'[id].DeadLetter?
                       && dead'[id].envelope == pending[id].envelope
                       && dead'[id].reason in {RejectedHttpResponse, TransportFailure, DeliveryFailed})
  }

  lemma ShrinksTransitive(p0: Directory, d0: Directory, p1: Directory, d1: Directory, p2: Directory, d2: Directory)
    requires Shrinks(p0, d0, p1, d1) && Shrinks(p1, d1, p2, d2)
    ensures Shrinks(p0, d0, p2, d2)
  {
  }

  // Only the outbox's own files, and the same envelope where an id is in both directories.
  ghost predicate OwnFiles(pending: Directory, dead: Directory) {
    && (forall id :: id in pending ==> pending[id].Queued?)
    && (forall id :: id in dead ==>
                       && dead[id].DeadLetter?
                       && dead[id].reason in {RejectedHttpResponse, TransportFailure, DeliveryFailed})
    && (forall id :: id in pending && id in dead ==> pending[id].envelope == dead[id].envelope)
  }

  function WithoutReason(file: File): File {
    if file.DeadLetter? then Queued(file.envelope) else file
  }

  // Every id once, without its dead-letter reason, and with it.
  function Plain(pending: Directory, dead: Directory): Directory {
    map id | id in pending.Keys + dead.Keys :: if id in pending then pending[id] else WithoutReason(dead[id])
  }

  function Once(pending: Directory, dead: Directory): Directory {
    map id | id in pending.Keys + dead.Keys :: if id in dead then dead[id] else pending[id]
  }

  ghost predicate WithinCapacity(pending: Directory, dead: Directory, limits: Limits, m: Measure) {
    && OwnFiles(pending, dead)
    && |Plain(pending, dead)| <= limits.maxEvents
    && Bytes(Plain(pending, dead), m) <= limits.maxBytes
  }

  lemma SameCount(files: Directory, m: Measure)
    ensures |Lengths(files, m)| == |files|
  {
    assert Lengths(files, m).Keys == files.Keys;
    assert |files.Keys| == |files| && |Lengths(files, m).Keys| == |Lengths(files, m)|;
  }

  // A dead letter is its pending file and a reason.
  ghost predicate Measures(m: Measure, reasonField: nat) {
    && (forall envelope, reason :: m(Queued(envelope)) <= m(DeadLetter(envelope, reason)))
    && (forall envelope, reason :: reason in {RejectedHttpResponse, TransportFailure, DeliveryFailed} ==>
                                     m(DeadLetter(envelope, reason)) <= m(Queued(envelope)) + reasonField)
  }

  lemma BytesOfUnion(pending: Directory, dead: Directory, m: Measure, reasonField: nat)
    requires OwnFiles(pending, dead) && Measures(m, reasonField)
    ensures Bytes(Plain(pending, dead), m) <= Bytes(pending, m) + Bytes(dead, m)
    ensures |Plain(pending, dead)| <= |pending| + |dead|
  {
    var plain := Plain(pending, dead);
    forall id | id in plain && id !in pending ensures m(plain[id]) <= m(dead[id]) {
      assert m(Queued(dead[id].envelope)) <= m(DeadLetter(dead[id].envelope, dead[id].reason));
    }
    TotalOfUnion(Lengths(plain, m), Lengths(pending, m), Lengths(dead, m));
    SameCount(plain, m);
    SameCount(pending, m);
    SameCount(dead, m);
  }

  lemma EnqueueStaysWithin(
    pending: Directory, dead: Directory, limits: Limits, sight: Sight, id: string, envelope: Envelope, m: Measure,
    reasonField: nat)
    requires WithinCapacity(pending, dead, limits, m) && sight.pendingListed && sight.deadListed
    requires Room(pending, dead, limits, sight, m(Queued(envelope)), m) && Measures(m, reasonField)
    requires id !in pending && id !in dead
    ensures WithinCapacity(pending[id := Queued(envelope)], dead, limits, m)
  {
    var plain := Plain(pending, dead);
    BytesOfUnion(pending, dead, m, reasonField);
    BytesWith(plain, id, Queued(envelope), m);
    PlainWith(pending, dead, id, envelope);
    assert Plain(pending[id := Queued(envelope)], dead) == plain[id := Queued(envelope)];
  }

  lemma PlainWith(pending: Directory, dead: Directory, id: string, envelope: Envelope)
    requires OwnFiles(pending, dead) && id !in pending && id !in dead
    ensures OwnFiles(pending[id := Queued(envelope)], dead)
    ensures Plain(pending[id := Queued(envelope)], dead) == Plain(pending, dead)[id := Queued(envelope)]
  {
  }

  lemma DrainStaysWithin(
    pending: Directory, dead: Directory, pending': Directory, dead': Directory, limits: Limits, m: Measure)
    requires WithinCapacity(pending, dead, limits, m) && Shrinks(pending, dead, pending', dead')
    ensures WithinCapacity(pending', dead', limits, m)
  {
    ShrunkPlain(pending, dead, pending', dead');
    TotalOfPart(Lengths(Plain(pending', dead'), m), Lengths(Plain(pending, dead), m));
    SameCount(Plain(pending, dead), m);
    SameCount(Plain(pending', dead'), m);
  }

  lemma ShrunkPlain(pending: Directory, dead: Directory, pending': Directory, dead': Directory)
    requires OwnFiles(pending, dead) && Shrinks(pending, dead, pending', dead')
    ensures OwnFiles(pending', dead')
    ensures forall id :: id in Plain(pending', dead') ==>
                           id in Plain(pending, dead) && Plain(pending', dead')[id] == Plain(pending, dead)[id]
  {
  }

  // However many drains dead-letter and crash, distinct ids stay within the event limit, and
  // the bytes, counting an id once at its dead-letter size, within the byte limit plus one
  // longest reason field for each event.
  lemma CapacityBound(pending: Directory, dead: Directory, limits: Limits, m: Measure, reasonField: nat)
    requires WithinCapacity(pending, dead, limits, m) && Measures(m, reasonField)
    ensures |pending.Keys + dead.Keys| <= limits.maxEvents
    ensures Bytes(Once(pending, dead), m) <= limits.maxBytes + limits.maxEvents * reasonField
  {
    var plain, once := Plain(pending, dead), Once(pending, dead);
    assert plain.Keys == pending.Keys + dead.Keys && |plain.Keys| == |plain|;
    OnceBesidePlain(pending, dead, m, reasonField);
    TotalOfPart(Lengths(once, m), Raised(Lengths(plain, m), reasonField));
    TotalRaised(Lengths(plain, m), reasonField);
    SameCount(plain, m);
    ProductGrows(|plain|, limits.maxEvents, reasonField);
  }

  lemma ProductGrows(a: nat, b: int, c: nat)
    requires a <= b
    ensures a * c <= b * c
  {
  }

  lemma OnceBesidePlain(pending: Directory, dead: Directory, m: Measure, reasonField: nat)
    requires OwnFiles(pending, dead) && Measures(m, reasonField)
    ensures forall id :: id in Once(pending, dead) ==>
                           && id in Plain(pending, dead)
                           && m(Once(pending, dead)[id]) <= m(Plain(pending, dead)[id]) + reasonField
  {
    forall id | id in Once(pending, dead)
      ensures m(Once(pending, dead)[id]) <= m(Plain(pending, dead)[id]) + reasonField
    {
      if id in dead {
        assert m(DeadLetter(dead[id].envelope, dead[id].reason)) <= m(Queued(dead[id].envelope)) + reasonField;
      }
    }
  }

  // ---------- the measure the outbox uses ----------

  // The longest dead_letter_reason field any dead letter carries.
  const LONGEST_REASON_FIELD := 46

  lemma ReasonIsPlain(reason: Reason)
    requires reason in {RejectedHttpResponse, TransportFailure, DeliveryFailed}
    ensures Unescaped(ReasonText(reason)) && |ReasonText(reason)| <= 22
    ensures Unescaped("dead_letter_reason") && |"dead_letter_reason"| == 18
  {
  }

  lemma ReasonFieldBounded(reason: Reason)
    requires reason in {RejectedHttpResponse, TransportFailure, DeliveryFailed}
    ensures |Quoted("dead_letter_reason")| + |Quoted(ReasonText(reason))| + 2 <= LONGEST_REASON_FIELD
  {
    ReasonIsPlain(reason);
    UnescapedIsQuoted("dead_letter_reason");
    UnescapedIsQuoted(ReasonText(reason));
  }

  lemma HasNoReason(envelope: Envelope)
    ensures "event" in EnvelopeFields(envelope) && "dead_letter_reason" !in EnvelopeFields(envelope)
  {
  }

  lemma ReasonAdds(fields: Fields, reason: string)
    requires "event" in fields && "dead_letter_reason" !in fields
    ensures |FileText(fields["dead_letter_reason" := Text(reason)])|
         == |FileText(fields)| + |Quoted("dead_letter_reason")| + |Quoted(reason)| + 2
  {
    MemberAdds(fields, "dead_letter_reason", Text(reason));
  }

  // A dead letter is longer than its pending file by its reason field.
  lemma DeadLetterLength(envelope: Envelope, reason: Reason)
    ensures LENGTH(DeadLetter(envelope, reason))
         == LENGTH(Queued(envelope)) + |Quoted("dead_letter_reason")| + |Quoted(ReasonText(reason))| + 2
  {
    HasNoReason(envelope);
    ReasonAdds(EnvelopeFields(envelope), ReasonText(reason));
  }

  lemma LengthMeasures()
    ensures Measures(LENGTH, LONGEST_REASON_FIELD)
  {
    forall envelope, reason ensures LENGTH(Queued(envelope)) <= LENGTH(DeadLetter(envelope, reason)) {
      DeadLetterLength(envelope, reason);
    }
    forall envelope, reason | reason in {RejectedHttpResponse, TransportFailure, DeliveryFailed}
      ensures LENGTH(DeadLetter(envelope, reason)) <= LENGTH(Queued(envelope)) + LONGEST_REASON_FIELD
    {
      DeadLetterLength(envelope, reason);
      ReasonFieldBounded(reason);
    }
  }
}
