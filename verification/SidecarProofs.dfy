// What the grading protocol keeps over every history of executions and crashes.

module SidecarProofs {
  import opened Wrappers
  import opened Sums
  import opened Orders
  import opened Records
  import opened Sidecar

  // ---- histories ----

  ghost function NextStates(m: Machine): iset<Machine> {
    iset a | Enabled(m, a) :: Apply(m, a)
  }

  /** The states after each durable action or crash, from an empty directory. */
  ghost predicate History(h: seq<Machine>) {
    && |h| > 0
    && h[0] == NEW
    && forall i :: 0 < i < |h| ==> h[i] in NextStates(h[i - 1])
  }

  // ---- counting calls ----

  /** Attempts on disk run at most one ahead of the calls made, and only for a
      marker whose call is not known to have happened. */
  ghost predicate CallsCounted(m: Machine) {
    && TotalMade(m) <= TotalAttempts(m.disk) <= TotalMade(m) + 1
    && (TotalMade(m) < TotalAttempts(m.disk) ==>
          (m.proc.Up? ==> m.proc.stage.Marked?) && exists id :: id in m.disk.records && !Loadable(m.disk.records[id]))
    && (m.proc.Up? && m.proc.stage.Marked? ==> TotalMade(m) < TotalAttempts(m.disk))
  }

  /** No attempt beyond the largest call limit given so far, and no call once
      the running cost has reached its limit. */
  ghost predicate BudgetKept(m: Machine) {
    && TotalAttempts(m.disk) <= m.cap
    && (m.proc.Up? ==>
          && m.proc.limits.maxCalls <= m.cap
          && (m.proc.stage.Archived? ==> TotalAttempts(m.disk) < m.proc.limits.maxCalls)
          && (!m.proc.stage.Ready? ==> m.proc.spent < m.proc.limits.maxCost))
  }

  lemma PutAttempts(records: map<string, Record>, id: string, r: Record)
    ensures Total(Attempts(records[id := r])) + (if id in records then records[id].attempts else 0)
         == Total(Attempts(records)) + r.attempts
  {
    assert Attempts(records[id := r]) == Attempts(records)[id := r.attempts];
    TotalUpdate(Attempts(records), id, r.attempts);
  }

  lemma MakeCall(made: map<string, seq<Reply>>, id: string, reply: Reply)
    ensures Total(MadeCounts(made[id := MadeFor(made, id) + [reply]])) == Total(MadeCounts(made)) + 1
  {
    var more := MadeFor(made, id) + [reply];
    assert MadeCounts(made[id := more]) == MadeCounts(made)[id := |more|];
    TotalUpdate(MadeCounts(made), id, |more|);
  }

  lemma SettleCounts(m: Machine, item: Item)
    requires MaySettle(m, item)
    ensures TotalAttempts(DoSettle(m, item).disk) == TotalAttempts(m.disk) && DoSettle(m, item).made == m.made
  {
    var r := Outcome(item, Prior(m.disk, item.id), m.proc.stage.reply);
    if r.Some? { PutAttempts(m.disk.records, item.id, r.value); }
  }

  lemma MarkCounts(m: Machine, item: Item)
    requires MayMark(m, item)
    ensures TotalAttempts(DoMark(m, item).disk) == TotalAttempts(m.disk) + 1
  {
    PutAttempts(m.disk.records, item.id, Marker(item, Prior(m.disk, item.id) + 1));
  }

  lemma FailureCounts(m: Machine, item: Item)
    requires MayRecordFailure(m, item)
    ensures TotalAttempts(DoRecordFailure(m, item).disk) == TotalAttempts(m.disk)
  {
    PutAttempts(m.disk.records, item.id, LocalFailure(item));
  }

  /** Only a mark adds an attempt, and only a call makes a call. */
  lemma ActionCounts(m: Machine, a: Action)
    requires Enabled(m, a)
    ensures TotalAttempts(Apply(m, a).disk) == TotalAttempts(m.disk) + (if a.Mark? then 1 else 0)
    ensures TotalMade(Apply(m, a)) == TotalMade(m) + (if a.Call? then 1 else 0)
  {
    match a
    case Mark(item) => MarkCounts(m, item);
    case Settle(item) => SettleCounts(m, item);
    case RecordFailure(item) => FailureCounts(m, item);
    case Call(item, reply) => MakeCall(m.made, item.id, reply);
    case _ =>
  }

  lemma ActionKeepsCount(m: Machine, a: Action)
    requires CallsCounted(m) && Enabled(m, a)
    ensures CallsCounted(Apply(m, a))
  {
    ActionCounts(m, a);
    var t := Apply(m, a);
    if a.Mark? { assert !Loadable(t.disk.records[a.item.id]); }
    if a.Crash? && m.proc.Up? && m.proc.stage.Marked? { assert t.disk == m.disk; }
  }

  lemma ActionKeepsBudget(m: Machine, a: Action)
    requires BudgetKept(m) && Enabled(m, a)
    ensures BudgetKept(Apply(m, a))
  {
    ActionCounts(m, a);
  }

  // ---- counting money ----

  /** No capacity rejection was ever billed. */
  ghost predicate Unbilled(made: map<string, seq<Reply>>) {
    forall id, k :: id in made && 0 <= k < |made[id]| && made[id][k].Rejected? ==> CostOf(made[id][k]) == 0
  }

  /** What the archived, superseded attempts of an item cost. */
  function ArchivedCost(archive: map<nat, Record>, n: nat): nat {
    if n == 0 then 0
    else ArchivedCost(archive, n - 1) + (if n in archive then UsageCost(archive[n].usage) else 0)
  }

  function SupersededCosts(d: Disk): map<string, nat> {
    map id | id in d.records ::
      ArchivedCost(ArchiveFor(d, id), if d.records[id].attempts == 0 then 0 else d.records[id].attempts - 1)
  }

  ghost function SupersededCost(d: Disk): nat { Total(SupersededCosts(d)) }

  lemma {:induction false} SupersededCostIs(item: Item, v: View, n: nat)
    requires Superseded(item, v, n)
    ensures CostOfAll(v.made[..n]) == ArchivedCost(v.archive, n)
  {
    if n > 0 {
      assert v.made[n - 1].Rejected? && Some(v.archive[n]) == Outcome(item, n, v.made[n - 1]);
      assert v.made[..n][..n - 1] == v.made[..n - 1];
      SupersededCostIs(item, v, n - 1);
    }
  }

  /** One settled item: what its calls cost is in its record and its archive. */
  lemma ItemCost(item: Item, v: View)
    requires Consistent(item, v) && v.record.Some? && Loadable(v.record.value)
    ensures
      var r := v.record.value;
      CostOfAll(v.made) == UsageCost(r.usage) + ArchivedCost(v.archive, if r.attempts == 0 then 0 else r.attempts - 1)
  {
    var r := v.record.value;
    if r.status != SourceFailure {
      SupersededCostIs(item, v, r.attempts - 1);
      assert v.made[..|v.made| - 1] == v.made[..r.attempts - 1];
    }
  }

  lemma RecordedItemCost(m: Machine, id: string)
    requires Sound(m) && id in m.disk.records && Loadable(m.disk.records[id])
    ensures Costs(m.disk.records)[id] + SupersededCosts(m.disk)[id] == CostOfAll(MadeFor(m.made, id))
  {
    ItemCost(m.disk.identity.value.items[id], ViewOf(m, id));
  }

  /** With no attempt in doubt, what the provider charged is exactly what the
      records and the archived attempts hold. */
  lemma EveryChargeIsOnDisk(m: Machine)
    requires Sound(m) && Settled(m.disk.records, None)
    ensures TrueCost(m) == RecordedCost(m.disk) + SupersededCost(m.disk)
  {
    var recorded, superseded, made := Costs(m.disk.records), SupersededCosts(m.disk), MadeCosts(m.made);
    forall id | id in recorded ensures recorded[id] + superseded[id] == if id in made then made[id] else 0 {
      RecordedItemCost(m, id);
    }
    TotalPlus(recorded, superseded, made);
  }

  lemma {:induction false} UnbilledIsFree(replies: seq<Reply>)
    requires forall k :: 0 <= k < |replies| ==> replies[k].Rejected? && CostOf(replies[k]) == 0
    ensures CostOfAll(replies) == 0
  {
    if replies != [] { UnbilledIsFree(replies[..|replies| - 1]); }
  }

  lemma UnbilledView(item: Item, v: View)
    requires Consistent(item, v) && v.record.Some? && Loadable(v.record.value)
    requires forall k :: 0 <= k < |v.made| && v.made[k].Rejected? ==> CostOf(v.made[k]) == 0
    ensures
      var r := v.record.value;
      ArchivedCost(v.archive, if r.attempts == 0 then 0 else r.attempts - 1) == 0
  {
    var r := v.record.value;
    if r.status != SourceFailure {
      SupersededCostIs(item, v, r.attempts - 1);
      UnbilledIsFree(v.made[..r.attempts - 1]);
    }
  }

  lemma UnbilledItem(m: Machine, id: string, item: Item, v: View)
    requires v == ViewOf(m, id) && Consistent(item, v) && v.record.Some? && Loadable(v.record.value)
    requires forall k :: 0 <= k < |v.made| && v.made[k].Rejected? ==> CostOf(v.made[k]) == 0
    ensures SupersededCosts(m.disk)[id] == 0
  {
    UnbilledView(item, v);
  }

  lemma UnbilledIsNotSuperseded(m: Machine)
    requires Sound(m) && Unbilled(m.made) && Settled(m.disk.records, None)
    ensures SupersededCost(m.disk) == 0
  {
    forall id | id in m.disk.records ensures SupersededCosts(m.disk)[id] == 0 {
      UnbilledItem(m, id, m.disk.identity.value.items[id], ViewOf(m, id));
    }
    ZeroTotal(SupersededCosts(m.disk));
  }

  /** The charge of a reply that the execution has not booked yet. */
  function Unbooked(p: Proc): nat {
    if p.Up? && p.stage.Called? then CostOf(p.stage.reply) else 0
  }

  /** The running cost never exceeds what was charged, and equals it as long as
      capacity rejections come unbilled. */
  ghost predicate CostCounted(m: Machine) {
    m.proc.Up? ==>
      && m.proc.spent + Unbooked(m.proc) <= TrueCost(m)
      && (Unbilled(m.made) ==> m.proc.spent + Unbooked(m.proc) == TrueCost(m))
  }

  lemma CallCosts(made: map<string, seq<Reply>>, id: string, reply: Reply)
    ensures
      var more := made[id := MadeFor(made, id) + [reply]];
      Total(MadeCosts(more)) == Total(MadeCosts(made)) + CostOf(reply) && (Unbilled(more) ==> Unbilled(made))
  {
    var replies := MadeFor(made, id) + [reply];
    var more := made[id := replies];
    assert MadeCosts(more) == MadeCosts(made)[id := CostOfAll(replies)];
    assert replies[..|replies| - 1] == MadeFor(made, id);
    assert CostOfAll(replies) == CostOfAll(MadeFor(made, id)) + CostOf(reply);
    TotalUpdate(MadeCosts(made), id, CostOfAll(replies));
    if Unbilled(more) {
      forall k, j | k in made && 0 <= j < |made[k]| && made[k][j].Rejected? ensures CostOf(made[k][j]) == 0 {
        assert more[k][j] == made[k][j];
      }
    }
  }

  lemma StartCosts(m: Machine, snapshot: Snapshot, limits: Limits)
    requires Sound(m) && MayStart(m, snapshot, limits)
    ensures CostCounted(DoStart(m, snapshot, limits))
  {
    EveryChargeIsOnDisk(m);
    if Unbilled(m.made) { UnbilledIsNotSuperseded(m); }
  }

  lemma ActionKeepsCost(m: Machine, a: Action)
    requires (a.Start? ==> Sound(m)) && CostCounted(m) && Enabled(m, a)
    ensures CostCounted(Apply(m, a))
  {
    match a
    case Start(snapshot, limits) => StartCosts(m, snapshot, limits);
    case Call(item, reply) => CallCosts(m.made, item.id, reply);
    case _ =>
  }

  // ---- everything, over every history ----

  ghost predicate Kept(m: Machine) {
    Sound(m) && CallsCounted(m) && BudgetKept(m) && CostCounted(m)
  }

  lemma StepKeeps(m: Machine, t: Machine)
    requires Kept(m) && t in NextStates(m)
    ensures Kept(t)
  {
    var a :| Enabled(m, a) && t == Apply(m, a);
    ActionKeeps(m, a);
    ActionKeepsCount(m, a);
    ActionKeepsBudget(m, a);
    ActionKeepsCost(m, a);
  }

  /** Every reachable state, crashes included. */
  lemma {:induction false} EveryStateIsKept(h: seq<Machine>, k: nat)
    requires History(h) && k < |h|
    ensures Kept(h[k])
  {
    if k == 0 {
    } else {
      EveryStateIsKept(h, k - 1);
      StepKeeps(h[k - 1], h[k]);
    }
  }

  /** Calls made never exceed the attempts on disk, which run at most one ahead
      and never pass the largest call limit given. */
  lemma CallsAreBounded(h: seq<Machine>, k: nat)
    requires History(h) && k < |h|
    ensures TotalMade(h[k]) <= TotalAttempts(h[k].disk) <= TotalMade(h[k]) + 1
    ensures TotalAttempts(h[k].disk) <= h[k].cap
  {
    EveryStateIsKept(h, k);
  }

  // ---- at most once ----

  /** Calls that were not capacity rejections. */
  function Paid(replies: seq<Reply>): nat {
    if replies == [] then 0
    else Paid(replies[..|replies| - 1]) + (if replies[|replies| - 1].Rejected? then 0 else 1)
  }

  lemma {:induction false} RejectionsAreNotPaid(replies: seq<Reply>)
    requires forall k :: 0 <= k < |replies| ==> replies[k].Rejected?
    ensures Paid(replies) == 0
  {
    if replies != [] { RejectionsAreNotPaid(replies[..|replies| - 1]); }
  }

  lemma ConsistentIsPaidOnce(item: Item, v: View)
    requires Consistent(item, v)
    ensures Paid(v.made) <= 1
    ensures Paid(v.made) == 1 ==> v.record.Some? && v.record.value.status != CapacityRejected
  {
    if v.record.Some? && v.made != [] {
      var n := |v.made| - 1;
      assert Superseded(item, v, v.record.value.attempts - 1);
      RejectionsAreNotPaid(v.made[..n]);
    }
  }

  /** Across any crashes and restarts, each item is sent at most one call that
      was not a capacity rejection. */
  lemma AtMostOnePaidCall(h: seq<Machine>, k: nat, id: string)
    requires History(h) && k < |h|
    ensures Paid(MadeFor(h[k].made, id)) <= 1
  {
    EveryStateIsKept(h, k);
    var m := h[k];
    if id in m.made {
      ConsistentIsPaidOnce(m.disk.identity.value.items[id], ViewOf(m, id));
    }
  }

  /** The terminal statuses. */
  predicate Final(v: View) {
    v.record.Some? && v.record.value.status != CapacityRejected && v.record.value.status != InFlight
  }

  lemma ActionLeavesFinal(m: Machine, a: Action, id: string, v: View)
    requires StageFits(m) && Enabled(m, a) && v == ViewOf(m, id) && Final(v)
    ensures ViewOf(Apply(m, a), id) == v
  {
  }

  lemma StepLeavesFinal(h: seq<Machine>, k: nat, id: string, v: View)
    requires History(h) && k + 1 < |h| && v == ViewOf(h[k], id) && Final(v)
    ensures ViewOf(h[k + 1], id) == v
  {
    EveryStateIsKept(h, k);
    assert h[k + 1] in NextStates(h[k]);
    var a :| Enabled(h[k], a) && h[k + 1] == Apply(h[k], a);
    ActionLeavesFinal(h[k], a, id, v);
  }

  /** A settled item is never called again, and its files never change. */
  lemma {:induction false} SettledIsFinal(h: seq<Machine>, i: nat, j: nat, id: string, v: View)
    requires History(h) && i <= j < |h| && v == ViewOf(h[i], id) && Final(v)
    ensures ViewOf(h[j], id) == v
    decreases j
  {
    if i < j {
      SettledIsFinal(h, i, j - 1, id, v);
      StepLeavesFinal(h, j - 1, id, v);
    }
  }

  /** With an unsettled attempt on disk and no execution running, no later
      execution can start: no call is made and no file changes. */
  lemma {:induction false} UnsettledBlocks(h: seq<Machine>, i: nat, j: nat, id: string)
    requires History(h) && i <= j < |h|
    requires h[i].proc.Down? && id in h[i].disk.records && !Loadable(h[i].disk.records[id])
    ensures h[j] == h[i]
    decreases j
  {
    if i < j {
      UnsettledBlocks(h, i, j - 1, id);
      assert h[j] in NextStates(h[j - 1]);
      var a :| Enabled(h[j - 1], a) && h[j] == Apply(h[j - 1], a);
    }
  }

  /** Every superseded attempt of an item is archived just as it was recorded. */
  lemma ArchiveIsComplete(h: seq<Machine>, k: nat, id: string, n: nat)
    requires History(h) && k < |h| && id in h[k].disk.records && 1 <= n < h[k].disk.records[id].attempts
    ensures
      var m := h[k];
      && n <= |MadeFor(m.made, id)| && MadeFor(m.made, id)[n - 1].Rejected?
      && n in ArchiveFor(m.disk, id)
      && ArchiveFor(m.disk, id)[n].status == CapacityRejected
      && ArchiveFor(m.disk, id)[n].attempts == n
      && ArchiveFor(m.disk, id)[n].usage == MadeFor(m.made, id)[n - 1].billed
  {
    EveryStateIsKept(h, k);
    var m := h[k];
    var v := ViewOf(m, id);
    assert Consistent(m.disk.identity.value.items[id], v);
    assert v.made[n - 1].Rejected?;
  }

  // ---- the report of a normal return ----

  lemma StatusesPartition(records: map<string, Record>)
    requires forall id :: id in records ==> records[id].status != CapacityRejected && records[id].status != InFlight
    ensures |records| == |OfStatus(records, Graded)| + |OfStatus(records, SourceFailure)|
      + |OfStatus(records, JudgeFailed)|
  {
    var g, s, j := OfStatus(records, Graded), OfStatus(records, SourceFailure), OfStatus(records, JudgeFailed);
    assert records.Keys == g + s + j;
    ApartSizes(g, s, j);
  }

  lemma ApartSizes<T>(a: set<T>, b: set<T>, c: set<T>)
    requires a !! b && (a + b) !! c
    ensures |a + b + c| == |a| + |b| + |c|
  {
    assert |a + b + c| == |a + b| + |c| && |a + b| == |a| + |b|;
  }

  lemma {:induction false} DistinctCount(order: seq<string>, ids: set<string>)
    requires Distinct(order) && forall id :: id in order <==> id in ids
    ensures |order| == |ids|
  {
    if order == [] {
      assert ids == {};
    } else {
      var rest := order[1..];
      assert order == [order[0]] + rest;
      assert Distinct(rest);
      assert order[0] !in rest by {
        forall k | 0 <= k < |rest| ensures rest[k] != order[0] {
          assert rest[k] == order[k + 1];
        }
      }
      forall id ensures id in rest <==> id in ids - {order[0]} {
      }
      DistinctCount(rest, ids - {order[0]});
    }
  }

  lemma AllItemsRecorded(snapshot: Snapshot, d: Disk)
    requires snapshot.Valid() && d.records.Keys <= snapshot.items.Keys
    requires forall id :: id in snapshot.items ==> !Open(d, id)
    ensures forall id :: id in d.records ==> d.records[id].status != CapacityRejected
    ensures |d.records| == |snapshot.order|
  {
    forall id | id in d.records ensures d.records[id].status != CapacityRejected {
      assert id in snapshot.items && !Open(d, id);
    }
    forall id | id in snapshot.items ensures id in d.records {
      assert !Open(d, id);
    }
    assert d.records.Keys == snapshot.items.Keys;
    DistinctCount(snapshot.order, snapshot.items.Keys);
    assert |d.records| == |d.records.Keys|;
  }

  lemma FinishedItems(m: Machine)
    requires Sound(m) && MayFinish(m)
    ensures forall id :: id in m.disk.records ==>
      m.disk.records[id].status != CapacityRejected && m.disk.records[id].status != InFlight
    ensures |m.disk.records| == |m.disk.identity.value.order|
  {
    AllItemsRecorded(m.disk.identity.value, m.disk);
  }

  /** The counts of a report are those of the records: the grades, the correct ones
      among them, and both kinds of failure. */
  ghost predicate CountsRecords(records: map<string, Record>, r: Report) {
    && r.graded == |set id | id in records && records[id].status == Graded|
    && r.correct == |set id | id in records && records[id].status == Graded && records[id].verdict == Some(Correct)|
    && r.sourceFailures == |set id | id in records && records[id].status == SourceFailure|
    && r.judgeFailures == |set id | id in records && records[id].status == JudgeFailed|
  }

  lemma ReportCounts(d: Disk, saved: nat, calls: nat, cost: nat)
    ensures CountsRecords(d.records, ReportOf(d, saved, calls, cost))
  {
    var records := d.records;
    assert OfStatus(records, Graded) == set id | id in records && records[id].status == Graded;
    assert OfStatus(records, SourceFailure) == set id | id in records && records[id].status == SourceFailure;
    assert OfStatus(records, JudgeFailed) == set id | id in records && records[id].status == JudgeFailed;
    assert GradedCorrect(records) ==
      set id | id in records && records[id].status == Graded && records[id].verdict == Some(Correct);
  }

  /** When an execution returns normally, its report is exact: every saved
      answer is graded or a recorded failure, each counted as its record says, the
      calls are the calls made, and the cost is what was charged as long as
      rejections come unbilled. */
  lemma ReportIsExact(h: seq<Machine>, k: nat)
    requires History(h) && k < |h| && MayFinish(h[k])
    ensures
      var m := h[k];
      var r := DoFinish(m).disk.report.value;
      && r.saved == r.graded + r.sourceFailures + r.judgeFailures
      && r.saved == |m.disk.identity.value.order|
      && CountsRecords(m.disk.records, r)
      && r.calls == TotalMade(m)
      && r.cost <= TrueCost(m)
      && (Unbilled(m.made) ==> r.cost == TrueCost(m))
  {
    EveryStateIsKept(h, k);
    FinishedItems(h[k]);
    StatusesPartition(h[k].disk.records);
    ReportCounts(h[k].disk, |h[k].disk.identity.value.order|, TotalAttempts(h[k].disk), h[k].proc.spent);
  }

  /** When a rejection was billed and a later execution supersedes it, that
      execution starts from less than what was charged: the running cost is
      exact at the start if and only if superseded attempts cost nothing. */
  lemma StartsExactIffSupersededIsFree(h: seq<Machine>, k: nat, snapshot: Snapshot, limits: Limits)
    requires History(h) && k < |h| && MayStart(h[k], snapshot, limits)
    ensures DoStart(h[k], snapshot, limits).proc.spent == TrueCost(h[k]) <==> SupersededCost(h[k].disk) == 0
  {
    EveryStateIsKept(h, k);
    EveryChargeIsOnDisk(h[k]);
  }

  /** A consistent record is its item's, made for its input. */
  lemma RecordMatches(item: Item, v: View)
    requires Consistent(item, v) && v.record.Some?
    ensures v.record.value.itemId == item.id && v.record.value.input == item.input
  {
  }

  lemma RecordMatchesItem(m: Machine, id: string)
    requires ItemsConsistent(m) && id in m.disk.records
    ensures
      && m.disk.identity.Some? && id in m.disk.identity.value.items
      && m.disk.records[id].itemId == id && m.disk.records[id].input == m.disk.identity.value.items[id].input
  {
    RecordMatches(m.disk.identity.value.items[id], ViewOf(m, id));
  }

  lemma MatchEverywhere(m: Machine)
    requires ItemsConsistent(m) && m.disk.identity.Some?
    ensures RecordsMatch(m.disk.records, m.disk.identity.value)
  {
    forall id | id in m.disk.records
      ensures
        && id in m.disk.identity.value.items
        && m.disk.records[id].itemId == id && m.disk.records[id].input == m.disk.identity.value.items[id].input
    {
      RecordMatchesItem(m, id);
    }
  }

  /** The check of the records against the frozen inputs never fails on a
      directory that only this protocol wrote. */
  lemma RecordsAlwaysMatch(h: seq<Machine>, k: nat)
    requires History(h) && k < |h| && h[k].disk.identity.Some?
    ensures RecordsMatch(h[k].disk.records, h[k].disk.identity.value)
  {
    EveryStateIsKept(h, k);
    MatchEverywhere(h[k]);
  }

  /** What an execution is let in for, on a directory that only this protocol wrote:
      both limits are positive, the snapshot is the frozen one if there is one, and
      no attempt is in flight, or was made without an account of what it cost, unless
      it was rejected for capacity. */
  ghost predicate LetsIn(d: Disk, snapshot: Snapshot, limits: Limits) {
    && limits.maxCalls > 0 && limits.maxCost > 0
    && (d.identity.Some? ==> d.identity.value == snapshot)
    && forall id :: id in d.records ==>
         && d.records[id].status != InFlight
         && (d.records[id].modelCalled && d.records[id].usage == None ==> d.records[id].status == CapacityRejected)
  }

  lemma StartsIff(h: seq<Machine>, k: nat, snapshot: Snapshot, limits: Limits)
    requires History(h) && k < |h| && h[k].proc.Down? && snapshot.Valid()
    ensures MayStart(h[k], snapshot, limits) <==> LetsIn(h[k].disk, snapshot, limits)
  {
    EveryStateIsKept(h, k);
    if h[k].disk.identity.Some? { RecordsAlwaysMatch(h, k); }
  }
}
