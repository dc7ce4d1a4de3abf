// Independent grading of saved answers: a write-ahead protocol over a durable
// directory. A crash may fall between any two durable actions, and executions
// may be restarted any number of times with any limits.

module Sidecar {
  import opened Wrappers
  import opened Sums
  import opened Orders
  import opened Records

  const JUDGE_MODEL := "openai/gpt-6-luna"

  /** One saved answer of the frozen snapshot; `input` is its prompt's hash. */
  datatype Item = Item(id: string, input: string, failed: bool)

  datatype Status = InFlight | Graded | SourceFailure | JudgeFailed | CapacityRejected

  datatype Record = Record(
    itemId: string,
    input: string,
    status: Status,
    modelCalled: bool,
    attempts: nat,
    verdict: Option<Label>,
    usage: Option<Usage>
  )

  /** What one provider call can come to. */
  datatype Reply =
    | Rejected(billed: Option<Usage>)          // a capacity rejection
    | CallError(billed: Option<Usage>)         // any other call error
    | Lost                                     // no accounting, or any other exception
    | Replied(usage: Usage, verdict: Label)

  /** The frozen snapshot: its items, and the order they are graded in. */
  datatype Snapshot = Snapshot(order: seq<string>, items: map<string, Item>) {
    ghost predicate Valid() {
      && Distinct(order)
      && (forall id :: id in order <==> id in items)
      && (forall id :: id in items ==> items[id].id == id)
    }
  }

  datatype Limits = Limits(maxCalls: nat, maxCost: nat)

  datatype Report = Report(
    saved: nat,
    graded: nat,
    correct: nat,
    sourceFailures: nat,
    judgeFailures: nat,
    calls: nat,
    cost: nat
  )

  /** The grading directory. */
  datatype Disk = Disk(
    identity: Option<Snapshot>,
    records: map<string, Record>,
    archive: map<string, map<nat, Record>>,
    report: Option<Report>
  )

  /** Where an execution stands between two durable actions. */
  datatype Stage =
    | Ready
    | Archived(id: string)
    | Marked(id: string)
    | Called(id: string, reply: Reply)

  /** The running execution, with its local running cost. */
  datatype Proc = Down | Up(limits: Limits, spent: nat, stage: Stage)

  /** The directory, the calls the provider really received, the execution,
      and the largest call limit ever given. */
  datatype Machine = Machine(disk: Disk, made: map<string, seq<Reply>>, proc: Proc, cap: nat)

  const NEW := Machine(Disk(None, map[], map[], None), map[], Down, 0)

  // ---- totals ----

  function Attempts(records: map<string, Record>): map<string, nat> {
    map id | id in records :: records[id].attempts
  }

  function Costs(records: map<string, Record>): map<string, nat> {
    map id | id in records :: UsageCost(records[id].usage)
  }

  function MadeCounts(made: map<string, seq<Reply>>): map<string, nat> {
    map id | id in made :: |made[id]|
  }

  function CostOf(reply: Reply): nat {
    match reply
    case Rejected(billed) => UsageCost(billed)
    case CallError(billed) => UsageCost(billed)
    case Lost => 0
    case Replied(u, _) => u.cost
  }

  function CostOfAll(replies: seq<Reply>): nat {
    if replies == [] then 0 else CostOfAll(replies[..|replies| - 1]) + CostOf(replies[|replies| - 1])
  }

  function MadeCosts(made: map<string, seq<Reply>>): map<string, nat> {
    map id | id in made :: CostOfAll(made[id])
  }

  ghost function TotalAttempts(d: Disk): nat { Total(Attempts(d.records)) }

  /** The cost that the records on disk add up to. */
  ghost function RecordedCost(d: Disk): nat { Total(Costs(d.records)) }

  /** Provider calls really made. */
  ghost function TotalMade(m: Machine): nat { Total(MadeCounts(m.made)) }

  /** What the provider really reported as charged. */
  ghost function TrueCost(m: Machine): nat { Total(MadeCosts(m.made)) }

  // ---- one durable action ----

  datatype Action =
    | Start(snapshot: Snapshot, limits: Limits)
    | Archive(item: Item)
    | Mark(item: Item)
    | Call(item: Item, reply: Reply)
    | Settle(item: Item)
    | RecordFailure(item: Item)
    | Finish
    | Crash

  /** The record an observed reply leaves; a lost reply leaves none. */
  function Outcome(item: Item, attempts: nat, reply: Reply): Option<Record> {
    match reply
    case Rejected(billed) => Some(Record(item.id, item.input, CapacityRejected, true, attempts, None, billed))
    case CallError(billed) => Some(Record(item.id, item.input, JudgeFailed, true, attempts, None, billed))
    case Lost => None
    case Replied(u, verdict) =>
      Some(Record(item.id, item.input, if u.model == JUDGE_MODEL then Graded else JudgeFailed, true, attempts,
                  Some(verdict), Some(u)))
  }

  function Marker(item: Item, attempts: nat): Record {
    Record(item.id, item.input, InFlight, true, attempts, None, None)
  }

  function LocalFailure(item: Item): Record {
    Record(item.id, item.input, SourceFailure, false, 0, None, None)
  }

  /** A record that lets an execution start: settled, and accounted for. */
  predicate Loadable(r: Record) {
    r.status != InFlight && (r.modelCalled && r.usage.None? ==> r.status == CapacityRejected)
  }

  predicate WithinBudget(calls: nat, spent: nat, limits: Limits) {
    calls < limits.maxCalls && spent < limits.maxCost
  }

  function Prior(d: Disk, id: string): nat {
    if id in d.records then d.records[id].attempts else 0
  }

  predicate Open(d: Disk, id: string) {
    id !in d.records || d.records[id].status == CapacityRejected
  }

  predicate At(m: Machine, stage: Stage) {
    m.proc.Up? && m.proc.stage == stage
  }

  predicate IsItem(m: Machine, item: Item) {
    m.disk.identity.Some? && item.id in m.disk.identity.value.items && m.disk.identity.value.items[item.id] == item
  }

  function MadeFor(made: map<string, seq<Reply>>, id: string): seq<Reply> {
    if id in made then made[id] else []
  }

  function ArchiveFor(d: Disk, id: string): map<nat, Record> {
    if id in d.archive then d.archive[id] else map[]
  }

  /** Every record belongs to an item of the snapshot and was made for its input. */
  predicate RecordsMatch(records: map<string, Record>, snapshot: Snapshot) {
    forall id :: id in records ==>
      && id in snapshot.items
      && records[id].itemId == id
      && records[id].input == snapshot.items[id].input
  }

  ghost predicate MayStart(m: Machine, snapshot: Snapshot, limits: Limits) {
    && m.proc.Down?
    && snapshot.Valid()
    && limits.maxCalls >= 1 && limits.maxCost > 0
    && (m.disk.identity == None || m.disk.identity == Some(snapshot))
    && (forall id :: id in m.disk.records ==> Loadable(m.disk.records[id]))
    && RecordsMatch(m.disk.records, snapshot)
  }

  ghost predicate MayArchive(m: Machine, item: Item) {
    && At(m, Ready) && IsItem(m, item) && !item.failed
    && item.id in m.disk.records && m.disk.records[item.id].status == CapacityRejected
    && WithinBudget(TotalAttempts(m.disk), m.proc.spent, m.proc.limits)
  }

  ghost predicate MayMark(m: Machine, item: Item) {
    && m.proc.Up? && IsItem(m, item) && !item.failed
    && (m.proc.stage == Archived(item.id)
        || (m.proc.stage == Ready && item.id !in m.disk.records
            && WithinBudget(TotalAttempts(m.disk), m.proc.spent, m.proc.limits)))
  }

  predicate MayCall(m: Machine, item: Item) {
    IsItem(m, item) && At(m, Marked(item.id))
  }

  predicate MaySettle(m: Machine, item: Item) {
    IsItem(m, item) && m.proc.Up? && m.proc.stage.Called? && m.proc.stage.id == item.id
  }

  predicate MayRecordFailure(m: Machine, item: Item) {
    IsItem(m, item) && At(m, Ready) && item.failed && item.id !in m.disk.records
  }

  predicate MayFinish(m: Machine) {
    At(m, Ready) && m.disk.identity.Some? && forall id :: id in m.disk.identity.value.items ==> !Open(m.disk, id)
  }

  ghost predicate Enabled(m: Machine, a: Action) {
    match a
    case Start(snapshot, limits) => MayStart(m, snapshot, limits)
    case Archive(item) => MayArchive(m, item)
    case Mark(item) => MayMark(m, item)
    case Call(item, _) => MayCall(m, item)
    case Settle(item) => MaySettle(m, item)
    case RecordFailure(item) => MayRecordFailure(m, item)
    case Finish => MayFinish(m)
    case Crash => true
  }

  /** How an execution goes on after an item is settled at a running cost. */
  function After(p: Proc, settled: bool, spent: nat): Proc
    requires p.Up?
  {
    if settled && spent <= p.limits.maxCost then Up(p.limits, spent, Ready) else Down
  }

  ghost function DoStart(m: Machine, snapshot: Snapshot, limits: Limits): Machine {
    m.(disk := m.disk.(identity := Some(snapshot)),
       proc := Up(limits, RecordedCost(m.disk), Ready),
       cap := if m.cap < limits.maxCalls then limits.maxCalls else m.cap)
  }

  /** Keeps the superseded attempt. */
  function DoArchive(m: Machine, item: Item): Machine
    requires m.proc.Up? && item.id in m.disk.records
  {
    var prior := m.disk.records[item.id];
    m.(disk := m.disk.(archive := m.disk.archive[item.id := ArchiveFor(m.disk, item.id)[prior.attempts := prior]]),
       proc := m.proc.(stage := Archived(item.id)))
  }

  /** Writes the in-flight marker. */
  function DoMark(m: Machine, item: Item): Machine
    requires m.proc.Up?
  {
    m.(disk := m.disk.(records := m.disk.records[item.id := Marker(item, Prior(m.disk, item.id) + 1)]),
       proc := m.proc.(stage := Marked(item.id)))
  }

  function DoCall(m: Machine, item: Item, reply: Reply): Machine
    requires m.proc.Up?
  {
    m.(made := m.made[item.id := MadeFor(m.made, item.id) + [reply]],
       proc := m.proc.(stage := Called(item.id, reply)))
  }

  /** Replaces the marker by the outcome; a lost reply leaves it in place. */
  function DoSettle(m: Machine, item: Item): Machine
    requires m.proc.Up? && m.proc.stage.Called?
  {
    var reply := m.proc.stage.reply;
    var r := Outcome(item, Prior(m.disk, item.id), reply);
    if r.None? then m.(proc := Down)
    else
      m.(disk := m.disk.(records := m.disk.records[item.id := r.value]),
         proc := After(m.proc, r.value.status == Graded, m.proc.spent + CostOf(reply)))
  }

  function DoRecordFailure(m: Machine, item: Item): Machine
    requires m.proc.Up?
  {
    m.(disk := m.disk.(records := m.disk.records[item.id := LocalFailure(item)]),
       proc := After(m.proc, true, m.proc.spent))
  }

  ghost function DoFinish(m: Machine): Machine
    requires m.proc.Up? && m.disk.identity.Some?
  {
    m.(
      disk := m.disk.(
        report := Some(ReportOf(m.disk, |m.disk.identity.value.order|, TotalAttempts(m.disk), m.proc.spent))),
      proc := Down)
  }

  ghost function Apply(m: Machine, a: Action): Machine
    requires Enabled(m, a)
  {
    match a
    case Start(snapshot, limits) => DoStart(m, snapshot, limits)
    case Archive(item) => DoArchive(m, item)
    case Mark(item) => DoMark(m, item)
    case Call(item, reply) => DoCall(m, item, reply)
    case Settle(item) => DoSettle(m, item)
    case RecordFailure(item) => DoRecordFailure(m, item)
    case Finish => DoFinish(m)
    case Crash => m.(proc := Down)
  }

  function OfStatus(records: map<string, Record>, status: Status): set<string> {
    set id | id in records && records[id].status == status
  }

  function GradedCorrect(records: map<string, Record>): set<string> {
    set id | id in records && records[id].status == Graded && records[id].verdict == Some(Correct)
  }

  function ReportOf(d: Disk, saved: nat, calls: nat, cost: nat): Report {
    Report(
      saved, |OfStatus(d.records, Graded)|, |GradedCorrect(d.records)|, |OfStatus(d.records, SourceFailure)|,
      |OfStatus(d.records, JudgeFailed)|, calls, cost)
  }

  // ---- what one item's files and calls have in common ----

  /** One item: its record, its archived attempts, and the calls made for it. */
  datatype View = View(record: Option<Record>, archive: map<nat, Record>, made: seq<Reply>)

  function ViewOf(m: Machine, id: string): View {
    View(if id in m.disk.records then Some(m.disk.records[id]) else None, ArchiveFor(m.disk, id), MadeFor(m.made, id))
  }

  /** The first `n` calls were capacity rejections, and each is archived as it
      was recorded. */
  ghost predicate Superseded(item: Item, v: View, n: nat) {
    && n <= |v.made|
    && forall j :: 0 <= j < n ==>
         v.made[j].Rejected? && j + 1 in v.archive && Some(v.archive[j + 1]) == Outcome(item, j + 1, v.made[j])
  }

  ghost predicate Waiting(item: Item, r: Record, v: View) {
    && !item.failed && r.attempts >= 1 && r == Marker(item, r.attempts)
    && r.attempts !in v.archive
    && Superseded(item, v, r.attempts - 1)
    && r.attempts - 1 <= |v.made| <= r.attempts
  }

  ghost predicate Decided(item: Item, r: Record, v: View) {
    && !item.failed && r.attempts >= 1
    && (r.attempts in v.archive ==> r.status == CapacityRejected && v.archive[r.attempts] == r)
    && Superseded(item, v, r.attempts - 1)
    && |v.made| == r.attempts
    && Outcome(item, r.attempts, v.made[r.attempts - 1]) == Some(r)
  }

  ghost predicate Consistent(item: Item, v: View) {
    match v.record
    case None => v.archive == map[] && v.made == []
    case Some(r) =>
      && (forall k :: k in v.archive ==> 1 <= k <= r.attempts)
      && match r.status
         case SourceFailure => item.failed && r == LocalFailure(item) && v.made == []
         case InFlight => Waiting(item, r, v)
         case _ => Decided(item, r, v)
  }

  // ---- one action on one item's view ----

  lemma ArchiveDecided(item: Item, r: Record, v: View)
    requires Decided(item, r, v) && r.status == CapacityRejected
    ensures Decided(item, r, v.(archive := v.archive[r.attempts := r]))
  {
    var w := v.(archive := v.archive[r.attempts := r]);
    assert w.archive[r.attempts] == r && w.made == v.made;
    forall j | 0 <= j < r.attempts - 1
      ensures v.made[j].Rejected? && j + 1 in w.archive && w.archive[j + 1] == v.archive[j + 1]
    {
    }
    assert Superseded(item, w, r.attempts - 1);
  }

  lemma ArchiveView(item: Item, v: View)
    requires Consistent(item, v) && v.record.Some? && v.record.value.status == CapacityRejected
    ensures Consistent(item, v.(archive := v.archive[v.record.value.attempts := v.record.value]))
  {
    ArchiveDecided(item, v.record.value, v);
  }

  lemma SupersededOneMore(item: Item, v: View, w: View, n: nat)
    requires Superseded(item, v, n) && n < |v.made| && v.made[n].Rejected?
    requires n + 1 in v.archive && Some(v.archive[n + 1]) == Outcome(item, n + 1, v.made[n])
    requires w.archive == v.archive && w.made == v.made
    ensures Superseded(item, w, n + 1)
  {
  }

  lemma MarkView(item: Item, v: View)
    requires Consistent(item, v) && !item.failed
    requires v.record.Some? ==> v.record.value.status == CapacityRejected && v.record.value.attempts in v.archive
    ensures
      var prior := if v.record.Some? then v.record.value.attempts else 0;
      Consistent(item, v.(record := Some(Marker(item, prior + 1)))) && |v.made| == prior
  {
    if v.record.Some? {
      var r := v.record.value;
      var w := v.(record := Some(Marker(item, r.attempts + 1)));
      SupersededOneMore(item, v, w, r.attempts - 1);
      assert Waiting(item, Marker(item, r.attempts + 1), w);
    }
  }

  lemma CallView(item: Item, v: View, reply: Reply)
    requires Consistent(item, v) && v.record.Some? && v.record.value.status == InFlight
    requires |v.made| == v.record.value.attempts - 1
    ensures Consistent(item, v.(made := v.made + [reply]))
  {
    var r, w := v.record.value, v.(made := v.made + [reply]);
    assert Waiting(item, r, v);
    CallKeepsSuperseded(item, v, r.attempts - 1, reply);
    assert Waiting(item, r, w);
  }

  lemma CallKeepsSuperseded(item: Item, v: View, n: nat, reply: Reply)
    requires Superseded(item, v, n)
    ensures Superseded(item, v.(made := v.made + [reply]), n)
  {
  }

  lemma SettleView(item: Item, v: View, reply: Reply)
    requires Consistent(item, v) && v.record.Some? && v.record.value.status == InFlight
    requires |v.made| == v.record.value.attempts && v.made[|v.made| - 1] == reply && !reply.Lost?
    ensures Consistent(item, v.(record := Outcome(item, v.record.value.attempts, reply)))
  {
    var k := v.record.value.attempts;
    var r := Outcome(item, k, reply).value;
    var w := v.(record := Some(r));
    assert Superseded(item, w, k - 1);
    assert Decided(item, r, w);
  }

  // ---- the whole machine ----

  ghost predicate ItemsConsistent(m: Machine) {
    match m.disk.identity
    case None => m.disk == NEW.disk && m.made == map[] && m.proc.Down?
    case Some(snapshot) =>
      && snapshot.Valid()
      && (forall id :: id in snapshot.items ==> Consistent(snapshot.items[id], ViewOf(m, id)))
      && m.disk.records.Keys <= snapshot.items.Keys
      && m.made.Keys <= m.disk.records.Keys
      && m.disk.archive.Keys <= m.disk.records.Keys
  }

  /** Every record but possibly one lets an execution start. */
  ghost predicate Settled(records: map<string, Record>, but: Option<string>) {
    forall id :: id in records && Some(id) != but ==> Loadable(records[id])
  }

  ghost predicate StageFits(m: Machine) {
    m.proc.Up? ==>
      match m.proc.stage
      case Ready => Settled(m.disk.records, None)
      case Archived(id) =>
        && Settled(m.disk.records, None)
        && id in m.disk.records
        && m.disk.records[id].status == CapacityRejected
        && m.disk.records[id].attempts in ArchiveFor(m.disk, id)
      case Marked(id) =>
        && Settled(m.disk.records, Some(id))
        && id in m.disk.records
        && m.disk.records[id].status == InFlight
        && |MadeFor(m.made, id)| == m.disk.records[id].attempts - 1
      case Called(id, reply) =>
        && Settled(m.disk.records, Some(id))
        && id in m.disk.records
        && m.disk.records[id].status == InFlight
        && |MadeFor(m.made, id)| == m.disk.records[id].attempts > 0
        && MadeFor(m.made, id)[|MadeFor(m.made, id)| - 1] == reply
  }

  /** The files and the calls fit together, wherever the execution stands. */
  ghost predicate Sound(m: Machine) {
    ItemsConsistent(m) && StageFits(m)
  }

  lemma StartKeeps(m: Machine, snapshot: Snapshot, limits: Limits)
    requires Sound(m) && MayStart(m, snapshot, limits)
    ensures Sound(DoStart(m, snapshot, limits))
  {
    var t := DoStart(m, snapshot, limits);
    forall id | id in snapshot.items ensures Consistent(snapshot.items[id], ViewOf(t, id)) {
      assert ViewOf(t, id) == ViewOf(m, id);
    }
  }

  /** Only one item's files and calls differ. */
  ghost predicate OnlyChanges(m: Machine, t: Machine, id: string) {
    && t.disk.identity == m.disk.identity
    && (forall k :: k != id ==> ViewOf(t, k) == ViewOf(m, k))
    && t.disk.records.Keys == m.disk.records.Keys + {id}
    && t.made.Keys <= m.made.Keys + {id}
    && t.disk.archive.Keys <= m.disk.archive.Keys + {id}
  }

  lemma OneItemChanged(m: Machine, t: Machine, item: Item)
    requires ItemsConsistent(m) && IsItem(m, item) && OnlyChanges(m, t, item.id)
    requires Consistent(item, ViewOf(t, item.id))
    ensures ItemsConsistent(t)
  {
    var snapshot := m.disk.identity.value;
    forall id | id in snapshot.items ensures Consistent(snapshot.items[id], ViewOf(t, id)) {
      if id != item.id { assert ViewOf(t, id) == ViewOf(m, id); }
    }
  }

  lemma ArchiveViews(m: Machine, item: Item)
    requires MayArchive(m, item)
    ensures OnlyChanges(m, DoArchive(m, item), item.id)
    ensures ViewOf(DoArchive(m, item), item.id) ==
      ViewOf(m, item.id)
      .(archive := ArchiveFor(m.disk, item.id)[m.disk.records[item.id].attempts := m.disk.records[item.id]])
  {
  }

  lemma ArchiveKeepsItems(m: Machine, item: Item)
    requires Sound(m) && MayArchive(m, item)
    ensures ItemsConsistent(DoArchive(m, item))
  {
    var v := ViewOf(m, item.id);
    assert Consistent(item, v);
    ArchiveView(item, v);
    ArchiveViews(m, item);
    OneItemChanged(m, DoArchive(m, item), item);
  }

  lemma MarkViews(m: Machine, item: Item)
    requires MayMark(m, item)
    ensures OnlyChanges(m, DoMark(m, item), item.id)
    ensures ViewOf(DoMark(m, item), item.id)
         == ViewOf(m, item.id).(record := Some(Marker(item, Prior(m.disk, item.id) + 1)))
  {
  }

  lemma MarkKeepsItems(m: Machine, item: Item)
    requires Sound(m) && MayMark(m, item)
    ensures ItemsConsistent(DoMark(m, item))
  {
    var v := ViewOf(m, item.id);
    assert Consistent(item, v);
    MarkView(item, v);
    MarkViews(m, item);
    OneItemChanged(m, DoMark(m, item), item);
  }

  lemma MarkKeepsStage(m: Machine, item: Item)
    requires Sound(m) && MayMark(m, item)
    ensures StageFits(DoMark(m, item))
  {
    assert Consistent(item, ViewOf(m, item.id));
  }

  lemma CallViews(m: Machine, item: Item, reply: Reply)
    requires MayCall(m, item) && item.id in m.disk.records
    ensures OnlyChanges(m, DoCall(m, item, reply), item.id)
    ensures ViewOf(DoCall(m, item, reply), item.id)
         == ViewOf(m, item.id).(made := MadeFor(m.made, item.id) + [reply])
  {
  }

  lemma CallKeepsItems(m: Machine, item: Item, reply: Reply)
    requires Sound(m) && MayCall(m, item)
    ensures ItemsConsistent(DoCall(m, item, reply))
  {
    var v := ViewOf(m, item.id);
    assert Consistent(item, v);
    CallView(item, v, reply);
    CallViews(m, item, reply);
    OneItemChanged(m, DoCall(m, item, reply), item);
  }

  lemma CallKeepsStage(m: Machine, item: Item, reply: Reply)
    requires Sound(m) && MayCall(m, item)
    ensures StageFits(DoCall(m, item, reply))
  {
  }

  lemma SettleViews(m: Machine, item: Item)
    requires MaySettle(m, item) && item.id in m.disk.records && !m.proc.stage.reply.Lost?
    ensures OnlyChanges(m, DoSettle(m, item), item.id)
    ensures ViewOf(DoSettle(m, item), item.id)
      == ViewOf(m, item.id).(record := Outcome(item, Prior(m.disk, item.id), m.proc.stage.reply))
  {
  }

  lemma SettleKeepsItems(m: Machine, item: Item)
    requires Sound(m) && MaySettle(m, item)
    ensures ItemsConsistent(DoSettle(m, item))
  {
    if m.proc.stage.reply.Lost? {
      QuietKeeps(m, DoSettle(m, item));
      return;
    }
    var v := ViewOf(m, item.id);
    assert Consistent(item, v);
    SettleView(item, v, m.proc.stage.reply);
    SettleViews(m, item);
    OneItemChanged(m, DoSettle(m, item), item);
  }

  lemma SettleKeepsStage(m: Machine, item: Item)
    requires Sound(m) && MaySettle(m, item)
    ensures StageFits(DoSettle(m, item))
  {
  }

  lemma RecordFailureViews(m: Machine, item: Item)
    requires MayRecordFailure(m, item)
    ensures OnlyChanges(m, DoRecordFailure(m, item), item.id)
    ensures ViewOf(DoRecordFailure(m, item), item.id) == ViewOf(m, item.id).(record := Some(LocalFailure(item)))
  {
  }

  lemma RecordFailureKeepsItems(m: Machine, item: Item)
    requires Sound(m) && MayRecordFailure(m, item)
    ensures ItemsConsistent(DoRecordFailure(m, item))
  {
    var v := ViewOf(m, item.id);
    assert Consistent(item, v);
    RecordFailureViews(m, item);
    OneItemChanged(m, DoRecordFailure(m, item), item);
  }

  lemma RecordFailureKeepsStage(m: Machine, item: Item)
    requires Sound(m) && MayRecordFailure(m, item)
    ensures StageFits(DoRecordFailure(m, item))
  {
  }

  lemma QuietKeeps(m: Machine, t: Machine)
    requires Sound(m) && t.proc.Down? && t.made == m.made
    requires t.disk == m.disk || (m.disk.identity.Some? && t.disk == m.disk.(report := t.disk.report))
    ensures Sound(t)
  {
    if m.disk.identity.Some? {
      forall id | id in m.disk.identity.value.items ensures Consistent(m.disk.identity.value.items[id], ViewOf(t, id)) {
        assert ViewOf(t, id) == ViewOf(m, id);
      }
    }
  }

  /** Whatever happens next, files and calls keep fitting together. */
  lemma ActionKeeps(m: Machine, a: Action)
    requires Sound(m) && Enabled(m, a)
    ensures Sound(Apply(m, a))
  {
    match a
    case Start(snapshot, limits) => StartKeeps(m, snapshot, limits);
    case Archive(item) =>
      ArchiveKeepsItems(m, item);
    case Mark(item) =>
      MarkKeepsItems(m, item);
      MarkKeepsStage(m, item);
    case Call(item, reply) =>
      CallKeepsItems(m, item, reply);
      CallKeepsStage(m, item, reply);
    case Settle(item) =>
      SettleKeepsItems(m, item);
      SettleKeepsStage(m, item);
    case RecordFailure(item) =>
      RecordFailureKeepsItems(m, item);
      RecordFailureKeepsStage(m, item);
    case Finish => QuietKeeps(m, DoFinish(m));
    case Crash => QuietKeeps(m, m.(proc := Down));
  }
}
