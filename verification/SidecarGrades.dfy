// What the grading records say, told by the calls that were made: which reply is
// behind each record, and which verdict it holds.

module SidecarGrades {
  import opened Wrappers
  import opened Sidecar
  import opened SidecarProofs
  import opened SidecarBudget

  /** What the last of an item's calls makes of its record. */
  ghost predicate LastTells(r: Record, last: Reply) {
    match r.status
    case Graded =>
      && last.Replied? && last.usage.model == JUDGE_MODEL
      && r.verdict == Some(last.verdict) && r.usage == Some(last.usage)
    case JudgeFailed =>
      || (last.CallError? && r.verdict == None && r.usage == last.billed)
      || (&& last.Replied? && last.usage.model != JUDGE_MODEL
          && r.verdict == Some(last.verdict) && r.usage == Some(last.usage))
    case CapacityRejected => last.Rejected? && r.verdict == None && r.usage == last.billed
    case _ => false
  }

  /** A record of an item for which exactly these calls were made: a failed answer
      was recorded without one, a marker has at most its own call in doubt, and
      every other record is told by the last call, after rejections only. */
  ghost predicate RecordTells(item: Item, r: Record, replies: seq<Reply>) {
    && r.itemId == item.id && r.input == item.input
    && (r.status == SourceFailure <==> item.failed)
    && (r.modelCalled <==> !item.failed)
    && (forall j :: 0 <= j < r.attempts - 1 ==> j < |replies| && replies[j].Rejected?)
    && match r.status
       case SourceFailure => replies == [] && r.attempts == 0 && r.verdict == None && r.usage == None
       case InFlight => r.attempts - 1 <= |replies| <= r.attempts && r.verdict == None && r.usage == None
       case _ => r.attempts == |replies| > 0 && LastTells(r, replies[|replies| - 1])
  }

  lemma ViewTells(item: Item, v: View)
    requires Consistent(item, v) && v.record.Some?
    ensures RecordTells(item, v.record.value, v.made)
  {
    var r := v.record.value;
    if !item.failed {
      assert Superseded(item, v, r.attempts - 1);
      assert forall j :: 0 <= j < r.attempts - 1 ==> v.made[j].Rejected?;
    }
  }

  /** In every state of every history, every record is told by the calls that were
      made for its item: a grade holds the verdict of the last one. */
  lemma RecordsAreReplies(h: seq<Machine>, k: nat, id: string)
    requires History(h) && k < |h| && id in h[k].disk.records
    ensures
      var m := h[k];
      && m.disk.identity.Some? && id in m.disk.identity.value.items
      && RecordTells(m.disk.identity.value.items[id], m.disk.records[id], MadeFor(m.made, id))
  {
    EveryStateIsKept(h, k);
    ViewTells(h[k].disk.identity.value.items[id], ViewOf(h[k], id));
  }

  /** Every archived attempt is told by the calls up to its own. */
  lemma ArchiveIsReplies(h: seq<Machine>, k: nat, id: string, n: nat)
    requires History(h) && k < |h| && n in ArchiveFor(h[k].disk, id)
    ensures
      var m := h[k];
      && m.disk.identity.Some? && id in m.disk.identity.value.items
      && 1 <= n <= |MadeFor(m.made, id)|
      && ArchiveFor(m.disk, id)[n].status == CapacityRejected
      && RecordTells(m.disk.identity.value.items[id], ArchiveFor(m.disk, id)[n], MadeFor(m.made, id)[..n])
  {
    EveryStateIsKept(h, k);
    var m := h[k];
    assert id in m.disk.records;
    ArchivedTells(m.disk.identity.value.items[id], ViewOf(m, id), n);
  }

  lemma ArchivedTells(item: Item, v: View, n: nat)
    requires Consistent(item, v) && n in v.archive
    ensures 1 <= n <= |v.made| && v.archive[n].status == CapacityRejected
    ensures RecordTells(item, v.archive[n], v.made[..n])
  {
    var r := v.record.value;
    assert Superseded(item, v, r.attempts - 1);
    assert n < r.attempts ==> v.made[n - 1].Rejected?;
    assert forall j :: 0 <= j < n - 1 ==> v.made[j].Rejected?;
  }

  // ---- the grades of one execution ----

  /** The item's record is a grade, with the verdict and the usage of this reply. */
  predicate GradedBy(records: map<string, Record>, id: string, reply: Reply) {
    && id in records
    && records[id].status == Graded
    && reply.Replied? && reply.usage.model == JUDGE_MODEL
    && records[id].verdict == Some(reply.verdict)
    && records[id].usage == Some(reply.usage)
  }

  predicate FailureKept(records: map<string, Record>, id: string) {
    id in records && records[id].status == SourceFailure && !records[id].modelCalled && records[id].verdict == None
  }

  /** Nothing but this item's record changed. */
  ghost predicate OthersSame(before: map<string, Record>, after: map<string, Record>, id: string) {
    forall x :: x != id ==> (x in before <==> x in after) && (x in before ==> after[x] == before[x])
  }

  /** The calls that the open items before number `k` of the order take. */
  ghost function CallsBefore(d: Disk, snapshot: Snapshot, k: nat): int
    requires snapshot.Valid() && k <= |snapshot.order|
  {
    CallsNeeded(OpenItems(d, snapshot, 0)) - CallsNeeded(OpenItems(d, snapshot, k))
  }

  /** What an execution that started from `d`, with reply number `first`, left of
      item number `k`: its record if it was closed, a recorded failure, or the
      grade of the reply in its turn. */
  ghost predicate ItemGraded(
      d: Disk, records: map<string, Record>, snapshot: Snapshot, replies: nat -> Reply, first: nat, k: nat)
    requires snapshot.Valid() && k < |snapshot.order|
  {
    var id := snapshot.order[k];
    if !Open(d, id) then id in records && records[id] == d.records[id]
    else if snapshot.items[id].failed then FailureKept(records, id)
    else CallsBefore(d, snapshot, k) >= 0 && GradedBy(records, id, replies(first + CallsBefore(d, snapshot, k)))
  }

  ghost predicate SameRecord(before: map<string, Record>, after: map<string, Record>, id: string) {
    (id in before <==> id in after) && (id in before ==> after[id] == before[id])
  }

  /** The first `n` items are graded, the others are as they were. */
  ghost predicate GradedSoFar(
      d: Disk, records: map<string, Record>, snapshot: Snapshot, replies: nat -> Reply, first: nat, n: nat)
    requires snapshot.Valid()
  {
    && (forall k :: 0 <= k < n && k < |snapshot.order| ==> ItemGraded(d, records, snapshot, replies, first, k))
    && (forall k :: n <= k < |snapshot.order| ==> SameRecord(d.records, records, snapshot.order[k]))
  }

  ghost function GradedUpTo(
      d: Disk, snapshot: Snapshot, replies: nat -> Reply, first: nat, n: nat): iset<map<string, Record>>
    requires snapshot.Valid()
  {
    iset records | GradedSoFar(d, records, snapshot, replies, first, n)
  }

  lemma {:induction false} CallsGoOn(d: Disk, snapshot: Snapshot, k: nat)
    requires snapshot.Valid() && k < |snapshot.order|
    ensures CallsBefore(d, snapshot, 0) == 0
    ensures
      var id := snapshot.order[k];
      CallsBefore(d, snapshot, k + 1) ==
        CallsBefore(d, snapshot, k) + if Open(d, id) && !snapshot.items[id].failed then 1 else 0
  {
    var rest := OpenItems(d, snapshot, k + 1);
    var item := snapshot.items[snapshot.order[k]];
    assert ([item] + rest)[1..] == rest;
  }

  lemma NothingGraded(d: Disk, e: Disk, snapshot: Snapshot, replies: nat -> Reply, first: nat)
    requires snapshot.Valid() && d.records == e.records
    ensures e.records in GradedUpTo(d, snapshot, replies, first, 0)
  {
  }

  lemma SameStart(
      d: Disk, e: Disk, records: map<string, Record>, snapshot: Snapshot, replies: nat -> Reply, first: nat)
    requires snapshot.Valid() && d.records == e.records
    requires records in GradedUpTo(e, snapshot, replies, first, |snapshot.order|)
    ensures records in GradedUpTo(d, snapshot, replies, first, |snapshot.order|)
  {
    forall k | 0 <= k < |snapshot.order| ensures ItemGraded(d, records, snapshot, replies, first, k) {
      assert ItemGraded(e, records, snapshot, replies, first, k);
      OpenItemsSame(d, e, snapshot, 0);
      OpenItemsSame(d, e, snapshot, k);
    }
  }

  /** What is still to come is open or closed as it was. */
  lemma StillOpen(
      d: Disk, e: Disk, snapshot: Snapshot, replies: nat -> Reply, first: nat, n: nat)
    requires snapshot.Valid() && n < |snapshot.order| && e.records in GradedUpTo(d, snapshot, replies, first, n)
    ensures Open(e, snapshot.order[n]) == Open(d, snapshot.order[n])
    ensures !Open(d, snapshot.order[n]) ==> e.records in GradedUpTo(d, snapshot, replies, first, n + 1)
  {
    var id := snapshot.order[n];
    assert SameRecord(d.records, e.records, id);
    if !Open(d, id) {
      assert ItemGraded(d, e.records, snapshot, replies, first, n);
    }
  }

  /** One more item graded, the others untouched. */
  lemma OneMoreGraded(
      d: Disk, before: map<string, Record>, after: map<string, Record>, snapshot: Snapshot, replies: nat -> Reply,
      first: nat, n: nat, calls: nat)
    requires snapshot.Valid() && n < |snapshot.order| && Open(d, snapshot.order[n])
    requires before in GradedUpTo(d, snapshot, replies, first, n) && OthersSame(before, after, snapshot.order[n])
    requires calls == first + CallsBefore(d, snapshot, n) && calls >= first
    requires
      var id := snapshot.order[n];
      if snapshot.items[id].failed then FailureKept(after, id) else GradedBy(after, id, replies(calls))
    ensures after in GradedUpTo(d, snapshot, replies, first, n + 1)
  {
    assert ItemGraded(d, after, snapshot, replies, first, n);
    forall k | 0 <= k < |snapshot.order| && k != n ensures SameRecord(before, after, snapshot.order[k]) {
      assert snapshot.order[k] != snapshot.order[n];
    }
    forall k | 0 <= k < n ensures ItemGraded(d, after, snapshot, replies, first, k) {
      assert ItemGraded(d, before, snapshot, replies, first, k);
      assert SameRecord(before, after, snapshot.order[k]);
    }
  }

  /** Once every item had its turn, none is open. */
  lemma AllClosed(d: Disk, e: Disk, snapshot: Snapshot, replies: nat -> Reply, first: nat)
    requires snapshot.Valid() && e.records in GradedUpTo(d, snapshot, replies, first, |snapshot.order|)
    ensures forall id :: id in snapshot.items ==> !Open(e, id)
  {
    forall id | id in snapshot.items ensures !Open(e, id) {
      var k :| 0 <= k < |snapshot.order| && snapshot.order[k] == id;
      assert ItemGraded(d, e.records, snapshot, replies, first, k);
    }
  }
}
