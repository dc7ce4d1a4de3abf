// The grading run itself: local totals, durable writes in order, and every
// exit. Each durable write is one action of the protocol, so whatever holds
// over every history of the protocol holds of every run.

module SidecarRun {
  import opened Wrappers
  import opened Sums
  import opened Sidecar
  import opened SidecarProofs
  import opened SidecarBudget
  import opened SidecarGrades

  /** The grading provider: its n-th call yields the n-th reply. */
  class Grader {
    const replies: nat -> Reply
    var calls: nat

    constructor (replies: nat -> Reply)
      ensures this.replies == replies && calls == 0
    {
      this.replies := replies;
      calls := 0;
    }

    method Grade() returns (reply: Reply)
      modifies this
      ensures reply == replies(old(calls)) && calls == old(calls) + 1
    {
      reply := replies(calls);
      calls := calls + 1;
    }
  }

  /** The output directory with its single writer. `now` is the protocol state
      it stands for, and `past` every state before it. */
  class Directory {
    var disk: Disk
    ghost var now: Machine
    ghost var past: seq<Machine>

    ghost function Trace(): seq<Machine>
      reads this
    {
      past + [now]
    }

    ghost predicate Valid()
      reads this
    {
      Trace() in Traces() && now.disk == disk
    }

    constructor ()
      ensures Valid() && now == NEW
    {
      disk := NEW.disk;
      now, past := NEW, [];
    }

    /** Atomically publishes one file, as one action of the protocol. */
    method Publish(d: Disk, ghost a: Action)
      requires Valid() && Enabled(now, a) && Apply(now, a).disk == d
      modifies this
      ensures Valid() && Trace() == old(Trace()) + [now]
      ensures disk == d && now == Apply(old(now), a)
    {
      past := past + [now];
      now := Apply(now, a);
      disk := d;
    }

    /** A step of the run that leaves every file alone. */
    ghost method Note(a: Action)
      requires Valid() && Enabled(now, a) && Apply(now, a).disk == disk
      modifies this`now, this`past
      ensures Valid() && Trace() == old(Trace()) + [now]
      ensures now == Apply(old(now), a)
    {
      past := past + [now];
      now := Apply(now, a);
    }
  }

  ghost function Traces(): iset<seq<Machine>> {
    iset h | History(h)
  }

  lemma TraceIsKept(past: seq<Machine>, m: Machine)
    requires past + [m] in Traces()
    ensures Kept(m)
  {
    EveryStateIsKept(past + [m], |past|);
  }

  /** Every record is told by the calls that were made for its item. */
  ghost predicate RecordsTell(m: Machine) {
    forall id :: id in m.disk.records ==>
      && m.disk.identity.Some? && id in m.disk.identity.value.items
      && RecordTells(m.disk.identity.value.items[id], m.disk.records[id], MadeFor(m.made, id))
  }

  /** The machines whose records tell what was called. */
  ghost function Telling(): iset<Machine> {
    iset m | RecordsTell(m)
  }

  lemma RecordsAlwaysTell(past: seq<Machine>, m: Machine)
    requires past + [m] in Traces()
    ensures m in Telling()
  {
    forall id | id in m.disk.records
      ensures
        && m.disk.identity.Some? && id in m.disk.identity.value.items
        && RecordTells(m.disk.identity.value.items[id], m.disk.records[id], MadeFor(m.made, id))
    {
      RecordsAreReplies(past + [m], |past|, id);
    }
  }

  /** How an execution comes back to the operator. */
  datatype Result =
    | Reported(report: Report)
    | Refused          // before any file changes
    | Stopped          // an exception after the directory was opened

  /** What one item leaves behind: whether the loop goes on, and the local totals. */
  datatype Progress = Progress(go: bool, calls: nat, spent: nat)

  /** The local totals agree with the protocol state. */
  ghost predicate Running(m: Machine, limits: Limits, p: Progress) {
    if p.go then m.proc == Up(limits, p.spent, Ready) && p.calls == TotalAttempts(m.disk)
    else m.proc.Down?
  }

  /** Replaces a marker by the outcome of its call. */
  method SettleCall(dir: Directory, item: Item, reply: Reply, attempts: nat, limits: Limits, calls: nat, spent: nat)
    returns (p: Progress)
    requires dir.Valid() && IsItem(dir.now, item) && dir.now.proc == Up(limits, spent, Called(item.id, reply))
    requires attempts == Prior(dir.disk, item.id) && calls == TotalAttempts(dir.disk)
    modifies dir
    ensures dir.Valid() && old(dir.Trace()) <= dir.Trace()
    ensures Running(dir.now, limits, p) && dir.disk.identity == old(dir.disk.identity)
    ensures forall id :: id != item.id ==> Open(dir.disk, id) == Open(old(dir.disk), id)
    ensures p.go ==> !Open(dir.disk, item.id)
    ensures OthersSame(old(dir.disk.records), dir.disk.records, item.id)
    ensures p.go ==> GradedBy(dir.disk.records, item.id, reply)
    ensures p.go <==> Grades(reply) && spent + CostOf(reply) <= limits.maxCost
    ensures p.go ==> p == Progress(true, calls, spent + CostOf(reply))
  {
    ghost var m := dir.now;
    SettleCounts(m, item);
    var r := Outcome(item, attempts, reply);
    if r.None? {
      dir.Note(Settle(item));
      return Progress(false, calls, spent);
    }
    dir.Publish(dir.disk.(records := dir.disk.records[item.id := r.value]), Settle(item));
    if r.value.status == CapacityRejected {
      return Progress(false, calls, spent);
    }
    var total := spent + CostOf(reply);
    p := Progress(r.value.status == Graded && total <= limits.maxCost, calls, total);
  }

  /** Marks an item, calls the provider once, and settles the outcome. */
  method CallOnce(dir: Directory, item: Item, limits: Limits, calls: nat, spent: nat, grader: Grader)
    returns (p: Progress)
    requires dir.Valid() && MayMark(dir.now, item)
    requires dir.now.proc.limits == limits && dir.now.proc.spent == spent && calls == TotalAttempts(dir.disk)
    modifies dir, grader
    ensures dir.Valid() && old(dir.Trace()) <= dir.Trace()
    ensures Running(dir.now, limits, p) && dir.disk.identity == old(dir.disk.identity)
    ensures forall id :: id != item.id ==> Open(dir.disk, id) == Open(old(dir.disk), id)
    ensures p.go ==> !Open(dir.disk, item.id)
    ensures grader.calls == old(grader.calls) + 1
    ensures OthersSame(old(dir.disk.records), dir.disk.records, item.id)
    ensures
      var reply := grader.replies(old(grader.calls));
      && (p.go ==> GradedBy(dir.disk.records, item.id, reply))
      && (p.go <==> Grades(reply) && spent + CostOf(reply) <= limits.maxCost)
      && (p.go ==> p == Progress(true, calls + 1, spent + CostOf(reply)))
  {
    var attempts := Prior(dir.disk, item.id) + 1;
    MarkCounts(dir.now, item);
    dir.Publish(dir.disk.(records := dir.disk.records[item.id := Marker(item, attempts)]), Mark(item));
    var reply := grader.Grade();
    dir.Note(Call(item, reply));
    p := SettleCall(dir, item, reply, attempts, limits, calls + 1, spent);
  }

  /** One open item: a failed answer is recorded without a call; any other is
      archived if it was rejected before, marked, called and settled. */
  method GradeItem(dir: Directory, item: Item, limits: Limits, calls: nat, spent: nat, grader: Grader)
    returns (p: Progress)
    requires dir.Valid() && IsItem(dir.now, item) && Running(dir.now, limits, Progress(true, calls, spent))
    requires Open(dir.disk, item.id) && (item.failed ==> item.id !in dir.disk.records)
    modifies dir, grader
    ensures dir.Valid() && old(dir.Trace()) <= dir.Trace()
    ensures Running(dir.now, limits, p) && dir.disk.identity == old(dir.disk.identity)
    ensures forall id :: id != item.id ==> Open(dir.disk, id) == Open(old(dir.disk), id)
    ensures p.go ==> !Open(dir.disk, item.id)
    ensures grader.calls == old(grader.calls) + if !item.failed && WithinBudget(calls, spent, limits) then 1 else 0
    ensures OthersSame(old(dir.disk.records), dir.disk.records, item.id)
    ensures p.go && item.failed ==> FailureKept(dir.disk.records, item.id)
    ensures p.go && !item.failed ==> GradedBy(dir.disk.records, item.id, grader.replies(old(grader.calls)))
    ensures
      var b, reply := Books(old(grader.calls), calls, spent), grader.replies(old(grader.calls));
      && (p.go <==> Passes(item, reply, limits, b))
      && (p.go ==> Books(grader.calls, p.calls, p.spent) == NextBooks(item, reply, b))
  {
    if item.failed {
      FailureCounts(dir.now, item);
      dir.Publish(dir.disk.(records := dir.disk.records[item.id := LocalFailure(item)]), RecordFailure(item));
      return Progress(spent <= limits.maxCost, calls, spent);
    }
    if calls >= limits.maxCalls || spent >= limits.maxCost {
      dir.Note(Crash);
      return Progress(false, calls, spent);
    }
    if item.id in dir.disk.records {
      var prior := dir.disk.records[item.id];
      var kept := ArchiveFor(dir.disk, item.id)[prior.attempts := prior];
      dir.Publish(dir.disk.(archive := dir.disk.archive[item.id := kept]), Archive(item));
    }
    p := CallOnce(dir, item, limits, calls, spent, grader);
  }

  lemma FailedIsNeverOpenAgain(past: seq<Machine>, m: Machine, item: Item)
    requires past + [m] in Traces() && IsItem(m, item) && item.failed && Open(m.disk, item.id)
    ensures item.id !in m.disk.records
  {
    TraceIsKept(past, m);
    assert Consistent(item, ViewOf(m, item.id));
  }

  lemma DiskIsTidy(past: seq<Machine>, m: Machine)
    requires past + [m] in Traces()
    ensures m.disk.identity.None? ==> m.disk == NEW.disk
    ensures m.disk.identity.Some? ==>
      m.disk.identity.value.Valid() && m.disk.records.Keys <= m.disk.identity.value.items.Keys
  {
    TraceIsKept(past, m);
  }

  method SumRecords(records: map<string, Record>) returns (calls: nat, spent: nat)
    ensures calls == Total(Attempts(records)) && spent == Total(Costs(records))
  {
    calls := SumValues(Attempts(records));
    spent := SumValues(Costs(records));
  }

  /** Item number `i` of the order, seen from where the execution started: skipped
      if it is closed, graded otherwise. */
  method GradeNext(
      dir: Directory, snapshot: Snapshot, i: nat, limits: Limits, p0: Progress, grader: Grader,
      ghost disk: Disk, ghost first: nat, ghost b: Books)
    returns (p: Progress)
    requires dir.Valid() && snapshot.Valid() && dir.disk.identity == Some(snapshot) && i < |snapshot.order|
    requires p0.go && Running(dir.now, limits, p0) && b == Books(grader.calls, p0.calls, p0.spent)
    requires dir.disk.records in GradedUpTo(disk, snapshot, grader.replies, first, i)
    requires grader.calls == first + CallsBefore(disk, snapshot, i) && grader.calls >= first
    modifies dir, grader
    ensures dir.Valid() && old(dir.Trace()) <= dir.Trace()
    ensures Running(dir.now, limits, p) && dir.disk.identity == Some(snapshot)
    ensures grader.calls >= old(grader.calls)
    ensures p.go ==> dir.disk.records in GradedUpTo(disk, snapshot, grader.replies, first, i + 1)
    ensures p.go ==> grader.calls == first + CallsBefore(disk, snapshot, i + 1)
    ensures
      var items, rest := OpenItems(disk, snapshot, i), OpenItems(disk, snapshot, i + 1);
      var next := Books(grader.calls, p.calls, p.spent);
      && (b in Through(items, grader.replies, limits) <==> p.go && next in Through(rest, grader.replies, limits))
      && (p.go ==> EndBooks(items, grader.replies, b) == EndBooks(rest, grader.replies, next))
  {
    var id := snapshot.order[i];
    StillOpen(disk, dir.disk, snapshot, grader.replies, first, i);
    CallsGoOn(disk, snapshot, i);
    NextOpenItem(disk, snapshot, i, grader.replies, limits, b);
    if !Open(dir.disk, id) {
      return p0;
    }
    var item := snapshot.items[id];
    if item.failed { FailedIsNeverOpenAgain(dir.past, dir.now, item); }
    ghost var before := dir.disk.records;
    p := GradeItem(dir, item, limits, p0.calls, p0.spent, grader);
    if p.go { OneMoreGraded(disk, before, dir.disk.records, snapshot, grader.replies, first, i, b.next); }
  }

  /** The loop over the items, in their frozen order. */
  method GradeAll(dir: Directory, snapshot: Snapshot, limits: Limits, calls: nat, spent: nat, grader: Grader)
    returns (p: Progress)
    requires dir.Valid() && snapshot.Valid() && dir.disk.identity == Some(snapshot)
    requires Running(dir.now, limits, Progress(true, calls, spent))
    modifies dir, grader
    ensures dir.Valid() && old(dir.Trace()) <= dir.Trace()
    ensures Running(dir.now, limits, p)
    ensures p.go ==> dir.disk.identity == Some(snapshot) && MayFinish(dir.now)
    ensures p.go ==>
      dir.disk.records in GradedUpTo(old(dir.disk), snapshot, grader.replies, old(grader.calls), |snapshot.order|)
    ensures
      var items, b := OpenItems(old(dir.disk), snapshot, 0), Books(old(grader.calls), calls, spent);
      && (p.go <==> b in Through(items, grader.replies, limits))
      && (p.go ==> Books(grader.calls, p.calls, p.spent) == EndBooks(items, grader.replies, b))
  {
    ghost var disk, replies, first := dir.disk, grader.replies, grader.calls;
    ghost var b, rest := Books(grader.calls, calls, spent), OpenItems(disk, snapshot, 0);
    ghost var through, end := b in Through(rest, replies, limits), EndBooks(rest, replies, b);
    p := Progress(true, calls, spent);
    NothingGraded(disk, disk, snapshot, replies, first);
    for i := 0 to |snapshot.order|
      invariant dir.Valid() && old(dir.Trace()) <= dir.Trace()
      invariant p.go && Running(dir.now, limits, p) && dir.disk.identity == Some(snapshot)
      invariant rest == OpenItems(disk, snapshot, i) && b == Books(grader.calls, p.calls, p.spent)
      invariant b in Through(rest, replies, limits) <==> through
      invariant EndBooks(rest, replies, b) == end
      invariant dir.disk.records in GradedUpTo(disk, snapshot, replies, first, i)
      invariant grader.calls == first + CallsBefore(disk, snapshot, i) && grader.calls >= first
    {
      p := GradeNext(dir, snapshot, i, limits, p, grader, disk, first, b);
      rest := OpenItems(disk, snapshot, i + 1);
      if !p.go {
        return;
      }
      b := Books(grader.calls, p.calls, p.spent);
    }
    ThroughNothing(replies, limits, b);
    AllClosed(disk, dir.disk, snapshot, replies, first);
  }

  /** The counts add up, the calls are those that were made, and the cost is
      what was charged, as far as no rejection was billed. */
  ghost predicate TrueReport(m: Machine, report: Report) {
    && report.saved == report.graded + report.sourceFailures + report.judgeFailures
    && CountsRecords(m.disk.records, report)
    && report.calls == TotalMade(m)
    && report.cost <= TrueCost(m)
    && (Unbilled(m.made) ==> report.cost == TrueCost(m))
  }

  /** Counts the settled directory and publishes the report. */
  method PublishReport(dir: Directory, snapshot: Snapshot, limits: Limits, p: Progress) returns (report: Report)
    requires dir.Valid() && p.go && Running(dir.now, limits, p)
    requires dir.disk.identity == Some(snapshot) && MayFinish(dir.now)
    modifies dir
    ensures dir.Valid() && old(dir.Trace()) <= dir.Trace() && dir.now.proc.Down?
    ensures dir.disk.report == Some(report) && report.saved == |snapshot.order|
    ensures dir.disk.records == old(dir.disk.records)
    ensures report.calls == p.calls && report.cost == p.spent
    ensures TrueReport(dir.now, report)
  {
    ReportIsExact(dir.Trace(), |dir.past|);
    report := ReportOf(dir.disk, |snapshot.order|, p.calls, p.spent);
    dir.Publish(dir.disk.(report := Some(report)), Finish);
  }

  /** Opens the directory and grades its open items. */
  method OpenAndGrade(dir: Directory, snapshot: Snapshot, limits: Limits, grader: Grader) returns (p: Progress)
    requires dir.Valid() && MayStart(dir.now, snapshot, limits)
    modifies dir, grader
    ensures dir.Valid() && old(dir.Trace()) <= dir.Trace()
    ensures Running(dir.now, limits, p)
    ensures p.go ==> dir.disk.identity == Some(snapshot) && MayFinish(dir.now)
    ensures p.go ==>
      dir.disk.records in GradedUpTo(old(dir.disk), snapshot, grader.replies, old(grader.calls), |snapshot.order|)
    ensures
      var items := OpenItems(old(dir.disk), snapshot, 0);
      var b := Books(old(grader.calls), TotalAttempts(old(dir.disk)), RecordedCost(old(dir.disk)));
      && (p.go <==> b in Through(items, grader.replies, limits))
      && (p.go ==> Books(grader.calls, p.calls, p.spent) == EndBooks(items, grader.replies, b))
  {
    DiskIsTidy(dir.past, dir.now);
    ghost var disk := dir.disk;
    var calls, spent := SumRecords(dir.disk.records);
    dir.Publish(dir.disk.(identity := Some(snapshot)), Start(snapshot, limits));
    OpenItemsSame(disk, dir.disk, snapshot, 0);
    ghost var begun, first := dir.disk, grader.calls;
    p := GradeAll(dir, snapshot, limits, calls, spent, grader);
    if p.go { SameStart(disk, begun, dir.disk.records, snapshot, grader.replies, first); }
  }

  /** What an execution that starts here reports, if it gets that far: the calls
      and the cost of the settled attempts, and those of the open items. */
  ghost predicate ReportsOn(
      report: Report, d: Disk, snapshot: Snapshot, replies: nat -> Reply, first: nat, last: nat)
    requires snapshot.Valid()
  {
    var n := CallsNeeded(OpenItems(d, snapshot, 0));
    && last == first + n
    && report.calls == TotalAttempts(d) + n
    && report.cost == RecordedCost(d) + Charges(replies, first, n)
  }

  /** The limits cover the open items, and every one of their calls leaves a
      grade. */
  ghost predicate MayReport(d: Disk, snapshot: Snapshot, replies: nat -> Reply, first: nat, limits: Limits)
    requires snapshot.Valid()
  {
    var items := OpenItems(d, snapshot, 0);
    items == [] || Covers(replies, limits, CallsNeeded(items), Books(first, TotalAttempts(d), RecordedCost(d)))
  }

  /** Grades the open items and, if every one got through, publishes the report. */
  method GradeAndReport(dir: Directory, snapshot: Snapshot, limits: Limits, grader: Grader) returns (result: Result)
    requires dir.Valid() && MayStart(dir.now, snapshot, limits)
    modifies dir, grader
    ensures dir.Valid() && old(dir.Trace()) <= dir.Trace() && dir.now.proc.Down? && !result.Refused?
    ensures result.Reported? <==> MayReport(old(dir.disk), snapshot, grader.replies, old(grader.calls), limits)
    ensures result.Reported? ==>
      && dir.disk.report == Some(result.report)
      && result.report.saved == |snapshot.order|
      && TrueReport(dir.now, result.report)
      && ReportsOn(result.report, old(dir.disk), snapshot, grader.replies, old(grader.calls), grader.calls)
      && dir.disk.records
         in GradedUpTo(old(dir.disk), snapshot, grader.replies, old(grader.calls), |snapshot.order|)
  {
    GetsThroughIff(
      OpenItems(dir.disk, snapshot, 0), grader.replies, limits,
      Books(grader.calls, TotalAttempts(dir.disk), RecordedCost(dir.disk)));
    var p := OpenAndGrade(dir, snapshot, limits, grader);
    if !p.go {
      return Stopped;
    }
    var report := PublishReport(dir, snapshot, limits, p);
    result := Reported(report);
  }

  lemma LetsInIs(past: seq<Machine>, m: Machine, snapshot: Snapshot, limits: Limits)
    requires past + [m] in Traces() && m.proc.Down? && snapshot.Valid()
    ensures MayStart(m, snapshot, limits) <==> LetsIn(m.disk, snapshot, limits)
  {
    StartsIff(past + [m], |past|, snapshot, limits);
  }

  /** Executes the grading of a frozen snapshot. An unsettled or unaccounted
      attempt, or another snapshot, is refused before anything changes. An
      execution that is not refused reports if and only if the limits cover its
      open items and every one of their calls leaves a grade. */
  method GradeSavedAnswers(dir: Directory, snapshot: Snapshot, limits: Limits, grader: Grader) returns (result: Result)
    requires dir.Valid() && dir.now.proc.Down? && snapshot.Valid()
    modifies dir, grader
    ensures dir.Valid() && old(dir.Trace()) <= dir.Trace() && dir.now.proc.Down?
    ensures result.Refused? <==> !LetsIn(old(dir.disk), snapshot, limits)
    ensures result.Refused? ==> dir.disk == old(dir.disk) && grader.calls == old(grader.calls)
    ensures !result.Refused? ==>
      (result.Reported? <==> MayReport(old(dir.disk), snapshot, grader.replies, old(grader.calls), limits))
    ensures result.Reported? ==>
      && dir.disk.report == Some(result.report)
      && result.report.saved == |snapshot.order|
      && TrueReport(dir.now, result.report)
      && ReportsOn(result.report, old(dir.disk), snapshot, grader.replies, old(grader.calls), grader.calls)
      && dir.disk.records
         in GradedUpTo(old(dir.disk), snapshot, grader.replies, old(grader.calls), |snapshot.order|)
    // However it ends, every record is told by the calls made for its item.
    ensures dir.now in Telling()
  {
    RecordsAlwaysTell(dir.past, dir.now);
    LetsInIs(dir.past, dir.now, snapshot, limits);
    if limits.maxCalls < 1 || limits.maxCost == 0 {
      return Refused;
    }
    if dir.disk.identity.Some? && dir.disk.identity.value != snapshot {
      return Refused;
    }
    if exists id :: id in dir.disk.records && !Loadable(dir.disk.records[id]) {
      return Refused;
    }
    if !RecordsMatch(dir.disk.records, snapshot) {
      return Refused;
    }
    result := GradeAndReport(dir, snapshot, limits, grader);
    RecordsAlwaysTell(dir.past, dir.now);
  }
}
