// What a drain sees of the two directories, and the pass that lists what it will deliver.
module OutboxPass {
  import opened Contracts
  import opened Delivery
  import opened OutboxCapacity
  import opened OutboxFiles

  function DeadLetterIds(dead: Directory, sight: Sight): set<string> {
    set id | id in dead && sight.deadListed && id !in sight.deadUnreadable && ReadsAs(id, dead[id], true)
  }

  function ListedPending(pending: Directory, sight: Sight): set<string> {
    if sight.pendingListed then pending.Keys else {}
  }

  predicate Readable(pending: Directory, id: string, sight: Sight)
    requires id in pending
  {
    id !in sight.pendingUnreadable && ReadsAs(id, pending[id], false)
  }

  // Among some ids: those a drain sets out to deliver, and those it reports as corrupt.
  function DeliverableAmong(ids: set<string>, pending: Directory, dead: Directory, sight: Sight): set<string> {
    set id | id in ids && id in pending && id !in DeadLetterIds(dead, sight) && Readable(pending, id, sight)
  }

  function CorruptAmong(ids: set<string>, pending: Directory, dead: Directory, sight: Sight): set<string> {
    set id | id in ids && id in pending && id !in DeadLetterIds(dead, sight) && !Readable(pending, id, sight)
  }

  function Deliverable(pending: Directory, dead: Directory, sight: Sight): set<string> {
    DeliverableAmong(ListedPending(pending, sight), pending, dead, sight)
  }

  function Corrupt(pending: Directory, dead: Directory, sight: Sight): set<string> {
    CorruptAmong(ListedPending(pending, sight), pending, dead, sight)
  }

  function Names(envelopes: seq<Envelope>): set<string> {
    set x | x in envelopes :: x.event.id
  }

  predicate NoRepeats(envelopes: seq<Envelope>) {
    forall i, j :: 0 <= i < j < |envelopes| ==> envelopes[i].event.id != envelopes[j].event.id
  }

  predicate IsFileOf(pending: Directory, x: Envelope) {
    x.event.id in pending && pending[x.event.id] == Queued(x) && Contracts.Valid(x.event)
  }

  ghost predicate AreFilesOf(envelopes: seq<Envelope>, pending: Directory) {
    forall i :: 0 <= i < |envelopes| ==> IsFileOf(pending, envelopes[i])
  }

  // Exactly the given ids, each once, each with its file's content.
  ghost predicate Lists(envelopes: seq<Envelope>, ids: set<string>, pending: Directory) {
    Names(envelopes) == ids && NoRepeats(envelopes) && AreFilesOf(envelopes, pending)
  }

  lemma NamesOfFirst(x: Envelope, s: seq<Envelope>)
    ensures Names([x] + s) == {x.event.id} + Names(s)
    ensures NoRepeats([x] + s) <==> NoRepeats(s) && x.event.id !in Names(s)
  {
    var all := [x] + s;
    if NoRepeats(all) {
      forall i, j | 0 <= i < j < |s| ensures s[i].event.id != s[j].event.id {
        assert all[i + 1].event.id != all[j + 1].event.id;
      }
      forall y | y in s ensures y.event.id != x.event.id {
        var i :| 0 <= i < |s| && s[i] == y;
        assert all[0].event.id != all[i + 1].event.id;
      }
    }
  }

  lemma {:induction false} InsertedNames(s: seq<Envelope>, x: Envelope)
    requires NoRepeats(s) && x.event.id !in Names(s)
    ensures Names(Inserted(s, x)) == Names(s) + {x.event.id}
    ensures NoRepeats(Inserted(s, x))
  {
    if s == [] || Before(x, s[0]) {
      NamesOfFirst(x, s);
    } else {
      assert s == [s[0]] + s[1..];
      NamesOfFirst(s[0], s[1..]);
      InsertedNames(s[1..], x);
      NamesOfFirst(s[0], Inserted(s[1..], x));
    }
  }

  lemma {:induction false} InsertedFiles(s: seq<Envelope>, x: Envelope, pending: Directory)
    requires AreFilesOf(s, pending) && IsFileOf(pending, x)
    ensures AreFilesOf(Inserted(s, x), pending)
  {
    if s != [] && !Before(x, s[0]) {
      assert IsFileOf(pending, s[0]);
      assert AreFilesOf(s[1..], pending) by {
        forall i | 0 <= i < |s[1..]| ensures IsFileOf(pending, s[1..][i]) {
          assert IsFileOf(pending, s[i + 1]);
        }
      }
      InsertedFiles(s[1..], x, pending);
    }
  }

  lemma ListedOneMore(s: seq<Envelope>, ids: set<string>, pending: Directory, x: Envelope)
    requires Sorted(s) && Lists(s, ids, pending) && IsFileOf(pending, x) && x.event.id !in ids
    ensures Sorted(Inserted(s, x)) && Lists(Inserted(s, x), ids + {x.event.id}, pending)
  {
    InsertedKeepsOrder(s, x);
    InsertedNames(s, x);
    InsertedFiles(s, x, pending);
  }

  // A file that is not listed can go without disturbing those that are.
  lemma NotListed(s: seq<Envelope>, ids: set<string>, pending: Directory, id: string)
    requires Lists(s, ids, pending) && id !in ids
    ensures Lists(s, ids, pending - {id})
  {
    forall i | 0 <= i < |s| ensures IsFileOf(pending - {id}, s[i]) {
      assert IsFileOf(pending, s[i]);
    }
  }

  // The ids are divided into those considered and those left.
  ghost predicate Divided(considered: set<string>, left: set<string>, all: set<string>) {
    forall id :: id in all <==> id in considered || id in left
  }

  lemma TakeOne(considered: set<string>, left: set<string>, all: set<string>, id: string)
    requires Divided(considered, left, all) && considered !! left && id in left
    ensures Divided(considered + {id}, left - {id}, all) && considered + {id} !! left - {id} && id !in considered
  {
  }

  lemma AllTaken(considered: set<string>, all: set<string>)
    requires Divided(considered, {}, all)
    ensures considered == all
  {
  }

  // How far a pass over the pending directory has come: the files it has considered are
  // removed, counted, or listed in order; the others are as they were.
  ghost predicate Pass(
    valid: seq<Envelope>, corrupt: nat, considered: set<string>, was: Directory, now: Directory, dead: Directory,
    sight: Sight) {
    && Sorted(valid)
    && Lists(valid, DeliverableAmong(considered, was, dead, sight), now)
    && corrupt == |CorruptAmong(considered, was, dead, sight)|
    && (forall id :: id in now ==> id in was && now[id] == was[id])
    && (forall id :: id in was && id !in now ==> id in considered && id in DeadLetterIds(dead, sight))
  }

  lemma PassOneMore(
    valid: seq<Envelope>, corrupt: nat, considered: set<string>, was: Directory, now: Directory, now': Directory,
    dead: Directory, sight: Sight, id: string, seen: Seen)
    requires Pass(valid, corrupt, considered, was, now, dead, sight) && id !in considered && id in was
    requires now' == now || (id in DeadLetterIds(dead, sight) && now' == now - {id})
    requires seen.ValidFile? <==> id !in DeadLetterIds(dead, sight) && Readable(was, id, sight)
    requires seen.ValidFile? ==> IsFileOf(now', seen.envelope) && seen.envelope.event.id == id
    requires seen == CorruptFile <==> id !in DeadLetterIds(dead, sight) && !Readable(was, id, sight)
    ensures Pass(if seen.ValidFile? then Inserted(valid, seen.envelope) else valid,
                 if seen == CorruptFile then corrupt + 1 else corrupt, considered + {id}, was, now', dead, sight)
  {
    var more := considered + {id};
    var had, has := DeliverableAmong(considered, was, dead, sight), DeliverableAmong(more, was, dead, sight);
    if seen.ValidFile? {
      assert has == had + {id};
    } else {
      assert has == had;
    }
    if seen == CorruptFile {
      assert CorruptAmong(more, was, dead, sight) == CorruptAmong(considered, was, dead, sight) + {id};
    } else {
      assert CorruptAmong(more, was, dead, sight) == CorruptAmong(considered, was, dead, sight);
    }
    if now' != now {
      NotListed(valid, had, now, id);
    }
    if seen.ValidFile? {
      ListedOneMore(valid, had, now', seen.envelope);
    }
  }

  // A valid dead letter keeps its id from being delivered exactly when it is seen: a dead
  // letter that cannot be listed or read stops nothing.
  lemma SeenDeadLetterStopsDelivery(pending: Directory, dead: Directory, sight: Sight, id: string)
    requires id in pending && sight.pendingListed && Readable(pending, id, sight)
    ensures id !in Deliverable(pending, dead, sight) <==>
            && sight.deadListed && id !in sight.deadUnreadable
            && id in dead && dead[id].DeadLetter? && dead[id].envelope.event.id == id
            && Contracts.Valid(dead[id].envelope.event)
            && dead[id].reason in {TemporaryNetworkFailure, TemporaryHttpFailure, RejectedHttpResponse,
                                   TransportFailure,
                                   DeliveryFailed}
  {
  }

  function Events(envelopes: seq<Envelope>): seq<Event> {
    seq(|envelopes|, i requires 0 <= i < |envelopes| => envelopes[i].event)
  }

  function Ids(events: seq<Event>): set<string> {
    set e | e in events :: e.id
  }

  lemma EventsOneMore(listed: seq<Envelope>, index: nat)
    requires index < |listed|
    ensures Events(listed[..index + 1]) == Events(listed[..index]) + [listed[index].event]
  {
  }

  lemma NamesAreIds(envelopes: seq<Envelope>)
    ensures Ids(Events(envelopes)) == Names(envelopes)
  {
    forall x | x in envelopes ensures x.event in Events(envelopes) {
      var i :| 0 <= i < |envelopes| && envelopes[i] == x;
      assert Events(envelopes)[i] == x.event;
    }
  }

  lemma PrefixNames(envelopes: seq<Envelope>, n: nat)
    requires n <= |envelopes|
    ensures Ids(Events(envelopes[..n])) <= Names(envelopes)
  {
    forall e | e in Events(envelopes[..n]) ensures e.id in Names(envelopes) {
      var i :| 0 <= i < n && Events(envelopes[..n])[i] == e;
    }
  }

  lemma {:induction false} CountNames(envelopes: seq<Envelope>)
    requires NoRepeats(envelopes)
    ensures |Names(envelopes)| == |envelopes|
  {
    if envelopes != [] {
      NamesOfFirst(envelopes[0], envelopes[1..]);
      assert envelopes == [envelopes[0]] + envelopes[1..];
      CountNames(envelopes[1..]);
    }
  }

  // The envelopes from the index on are on file.
  ghost predicate StillListed(listed: seq<Envelope>, index: nat, pending: Directory) {
    forall j :: index <= j < |listed| ==> IsFileOf(pending, listed[j])
  }

  lemma OthersStay(listed: seq<Envelope>, index: nat, before: Directory, now: Directory)
    requires index < |listed| && NoRepeats(listed) && StillListed(listed, index, before)
    requires now == before || now == before - {listed[index].event.id}
    ensures StillListed(listed, index + 1, now)
  {
    forall j | index < j < |listed| ensures IsFileOf(now, listed[j]) {
      assert IsFileOf(before, listed[j]);
    }
  }

  // What the pass makes of one pending file.
  datatype Seen = Halted | Reconciled | CorruptFile | ValidFile(envelope: Envelope)

  // What a pass over the pending directory starts from.
  datatype Reading = Reading(all: set<string>, pending: Directory, filesVanish: bool, faultless: bool)
}
