// When the reported grading cost is what the provider charged, and when not.

module SidecarBilling {
  import opened Wrappers
  import opened Sums
  import opened Records
  import opened Sidecar
  import opened SidecarProofs

  // ---- one execution ----

  /** What the provider charged and the running execution does not know of. */
  ghost function Forgotten(m: Machine): int
    requires m.proc.Up?
  {
    TrueCost(m) - m.proc.spent - Unbooked(m.proc)
  }

  /** The running machines that have forgotten `amount`. */
  ghost function Forgetful(amount: int): iset<Machine> {
    iset m: Machine | m.proc.Up? && Forgotten(m) == amount
  }

  /** Whatever an execution does, it forgets no further charge. */
  lemma ActionForgetsNothing(m: Machine, a: Action)
    requires m.proc.Up? && Enabled(m, a) && Apply(m, a).proc.Up?
    ensures Forgotten(Apply(m, a)) == Forgotten(m)
  {
    match a
    case Call(item, reply) => CallCosts(m.made, item.id, reply);
    case _ =>
  }

  lemma StepForgetsNothing(m: Machine, t: Machine, amount: int)
    requires m in Forgetful(amount) && t.proc.Up? && t in NextStates(m)
    ensures t in Forgetful(amount)
  {
    var a :| Enabled(m, a) && t == Apply(m, a);
    ActionForgetsNothing(m, a);
  }

  /** An execution starts without the cost of what was superseded before it. */
  lemma StartForgets(m: Machine, snapshot: Snapshot, limits: Limits)
    requires Sound(m) && MayStart(m, snapshot, limits)
    ensures DoStart(m, snapshot, limits) in Forgetful(SupersededCost(m.disk))
  {
    EveryChargeIsOnDisk(m);
  }

  lemma OnlyAStartRuns(m: Machine, a: Action)
    requires m.proc.Down? && Enabled(m, a) && Apply(m, a).proc.Up?
    ensures a.Start?
  {
  }

  lemma FirstStepForgets(m: Machine, t: Machine)
    requires Sound(m) && m.proc.Down? && t.proc.Up? && t in NextStates(m)
    ensures t in Forgetful(SupersededCost(m.disk))
  {
    var a :| Enabled(m, a) && t == Apply(m, a);
    OnlyAStartRuns(m, a);
    StartForgets(m, a.snapshot, a.limits);
  }

  /** The states from `i` to `k` belong to one execution. */
  ghost predicate OneExecution(h: seq<Machine>, i: nat, k: nat) {
    i <= k < |h| && forall j :: i <= j <= k ==> h[j].proc.Up?
  }

  /** Histories whose states from `i` to `k` belong to one execution. */
  ghost function Executions(i: nat, k: nat): iset<seq<Machine>> {
    iset h: seq<Machine> | OneExecution(h, i, k) && History(h)
  }

  lemma {:induction false} ExecutionForgetsNothing(h: seq<Machine>, i: nat, k: nat, amount: int)
    requires i <= k < |h| && h in Executions(i, k) && h[i] in Forgetful(amount)
    ensures h[k] in Forgetful(amount)
    decreases k
  {
    if i < k {
      ExecutionForgetsNothing(h, i, k - 1, amount);
      StepForgetsNothing(h[k - 1], h[k], amount);
    }
  }

  lemma SoundAt(h: seq<Machine>, k: nat)
    requires History(h) && k < |h|
    ensures Sound(h[k])
  {
    EveryStateIsKept(h, k);
  }

  /** The reported cost falls short by exactly what the attempts superseded
      before this execution cost: it is what the provider charged if and only if
      the directory the execution started from archived no billed attempt. */
  lemma ReportedCostIs(h: seq<Machine>, i: nat, k: nat)
    requires History(h) && i > 0 && OneExecution(h, i, k) && h[i - 1].proc.Down? && MayFinish(h[k])
    ensures
      var reported := DoFinish(h[k]).disk.report.value.cost;
      && reported == TrueCost(h[k]) - SupersededCost(h[i - 1].disk)
      && (reported == TrueCost(h[k]) <==> SupersededCost(h[i - 1].disk) == 0)
  {
    SoundAt(h, i - 1);
    FirstStepForgets(h[i - 1], h[i]);
    ExecutionForgetsNothing(h, i, k, SupersededCost(h[i - 1].disk));
  }

  /** The adapter this project ships raises its capacity rejections without a
      usage, and only for a response that holds none. */
  ghost predicate RejectionsCarryNoUsage(made: map<string, seq<Reply>>) {
    forall id, k :: id in made && 0 <= k < |made[id]| && made[id][k].Rejected? ==> made[id][k].billed == None
  }

  /** Under the shipped adapter nothing is superseded at a cost: every report is
      exact, over any number of executions and crashes. */
  lemma ShippedReportIsExact(h: seq<Machine>, k: nat)
    requires History(h) && k < |h| && MayFinish(h[k]) && RejectionsCarryNoUsage(h[k].made)
    ensures DoFinish(h[k]).disk.report.value.cost == TrueCost(h[k])
  {
    assert Unbilled(h[k].made);
    ReportIsExact(h, k);
  }

  // ---- how far the charges can go ----

  /** Between marking an item and settling it, the running cost is below the limit. */
  ghost predicate Funded(m: Machine) {
    m.proc.Up? && !m.proc.stage.Ready? ==> m.proc.spent < m.proc.limits.maxCost
  }

  lemma ActionKeepsFunds(m: Machine, a: Action)
    requires Funded(m) && Enabled(m, a)
    ensures Funded(Apply(m, a))
  {
  }

  lemma {:induction false} EveryStateIsFunded(h: seq<Machine>, k: nat)
    requires History(h) && k < |h|
    ensures Funded(h[k])
  {
    if k > 0 {
      EveryStateIsFunded(h, k - 1);
      assert h[k] in NextStates(h[k - 1]);
      var a :| Enabled(h[k - 1], a) && h[k] == Apply(h[k - 1], a);
      ActionKeepsFunds(h[k - 1], a);
    }
  }

  /** The last call up to `k` was made by state `j`: nothing was charged since, and
      the charges stayed below the limit then in force plus that call's cost. */
  ghost predicate LastCharge(h: seq<Machine>, j: nat, k: nat) {
    && j <= k < |h| && h[j].proc.Up? && h[j].proc.stage.Called?
    && h[k].made == h[j].made
    && TrueCost(h[k]) < h[j].proc.limits.maxCost + CostOf(h[j].proc.stage.reply)
  }

  lemma ChargeOfCall(h: seq<Machine>, k: nat)
    requires History(h) && k < |h| && Unbilled(h[k].made) && h[k].proc.Up? && h[k].proc.stage.Called?
    ensures LastCharge(h, k, k)
  {
    EveryStateIsFunded(h, k);
    EveryStateIsKept(h, k);
  }

  lemma OnlyCallsCharge(m: Machine, a: Action)
    requires Enabled(m, a)
    ensures Apply(m, a).made == m.made || (Apply(m, a).proc.Up? && Apply(m, a).proc.stage.Called?)
  {
  }

  /** While rejections come unbilled, what the provider charged stays, in every
      state of every history, below the limit of the execution that made the last
      call plus the cost of that one call. */
  lemma {:induction false} ChargesAreBounded(h: seq<Machine>, k: nat)
    requires History(h) && k < |h| && Unbilled(h[k].made)
    ensures h[k].made == map[] || exists j :: LastCharge(h, j, k)
  {
    if k > 0 {
      assert h[k] in NextStates(h[k - 1]);
      var a :| Enabled(h[k - 1], a) && h[k] == Apply(h[k - 1], a);
      OnlyCallsCharge(h[k - 1], a);
      if h[k].made == h[k - 1].made {
        ChargesAreBounded(h, k - 1);
        if h[k].made != map[] {
          var j :| LastCharge(h, j, k - 1);
          assert LastCharge(h, j, k);
        }
      } else {
        ChargeOfCall(h, k);
      }
    }
  }

  // ---- a billed rejection that is forgotten ----

  ghost predicate Reachable(m: Machine) {
    exists h :: History(h) && h[|h| - 1] == m
  }

  lemma NewIsReachable()
    ensures Reachable(NEW)
  {
    assert History([NEW]) && [NEW][|[NEW]| - 1] == NEW;
  }

  lemma ReachNext(m: Machine, a: Action)
    requires Reachable(m) && Enabled(m, a)
    ensures Reachable(Apply(m, a))
  {
    var h :| History(h) && h[|h| - 1] == m;
    var t := Apply(m, a);
    var more := h + [t];
    assert t in NextStates(m);
    forall i | 0 < i < |more| ensures more[i] in NextStates(more[i - 1]) {
      if i < |h| { assert h[i] in NextStates(h[i - 1]); }
    }
    assert History(more) && more[|more| - 1] == t;
  }

  function OneItem(): Item { Item("a", "input", false) }

  function OneSnapshot(): Snapshot { Snapshot(["a"], map["a" := OneItem()]) }

  function Unit(): Usage { Usage(JUDGE_MODEL, 0, 0, 1) }

  /** The item's record after `n` billed rejections. */
  function RejectedTimes(n: nat): map<string, Record> {
    if n == 0 then map[] else map["a" := Record("a", "input", CapacityRejected, true, n, None, Some(Unit()))]
  }

  ghost predicate AfterRejections(m: Machine, n: nat) {
    && Reachable(m) && m.proc.Down?
    && m.disk.identity == (if n == 0 then None else Some(OneSnapshot()))
    && m.disk.records == RejectedTimes(n)
    && m.made.Keys <= {"a"} && CostOfAll(MadeFor(m.made, "a")) == n
  }

  lemma OneValue(v: nat)
    ensures Total(map["a" := v]) == v
  {
    TotalUpdate(map[], "a", v);
    assert map[]["a" := v] == map["a" := v];
  }

  lemma AttemptsOfOne(records: map<string, Record>)
    requires records.Keys == {"a"}
    ensures Total(Attempts(records)) == records["a"].attempts && Total(Costs(records)) == UsageCost(records["a"].usage)
  {
    assert Attempts(records) == map["a" := records["a"].attempts];
    assert Costs(records) == map["a" := UsageCost(records["a"].usage)];
    OneValue(records["a"].attempts);
    OneValue(UsageCost(records["a"].usage));
  }

  lemma Restarted(m: Machine, n: nat) returns (t: Machine)
    requires AfterRejections(m, n) && n < 3
    ensures Reachable(t) && t.made == m.made
    ensures t.disk.identity == Some(OneSnapshot()) && t.disk.records == RejectedTimes(n)
    ensures t.proc == Up(Limits(3, 10), if n == 0 then 0 else 1, Ready)
    ensures TotalAttempts(t.disk) == n
  {
    if n > 0 { AttemptsOfOne(m.disk.records); }
    assert n == 0 ==> Attempts(m.disk.records) == map[] && Costs(m.disk.records) == map[];
    t := DoStart(m, OneSnapshot(), Limits(3, 10));
    ReachNext(m, Start(OneSnapshot(), Limits(3, 10)));
  }

  lemma MarkedAgain(m: Machine, n: nat) returns (t: Machine)
    requires Reachable(m) && n < 3 && TotalAttempts(m.disk) == n
    requires m.disk.identity == Some(OneSnapshot()) && m.disk.records == RejectedTimes(n)
    requires m.proc == Up(Limits(3, 10), if n == 0 then 0 else 1, Ready)
    ensures Reachable(t) && t.made == m.made
    ensures t.disk.identity == Some(OneSnapshot()) && t.disk.records == map["a" := Marker(OneItem(), n + 1)]
    ensures t.proc == m.proc.(stage := Marked("a"))
  {
    if n == 0 {
      t := DoMark(m, OneItem());
      ReachNext(m, Mark(OneItem()));
    } else {
      var archived := DoArchive(m, OneItem());
      ReachNext(m, Archive(OneItem()));
      t := DoMark(archived, OneItem());
      ReachNext(archived, Mark(OneItem()));
    }
  }

  /** An execution that reaches the provider once more. */
  lemma CalledAgain(m: Machine, n: nat, reply: Reply) returns (t: Machine)
    requires AfterRejections(m, n) && n < 3
    ensures Reachable(t)
    ensures t.disk.identity == Some(OneSnapshot()) && t.disk.records == map["a" := Marker(OneItem(), n + 1)]
    ensures t.made == m.made["a" := MadeFor(m.made, "a") + [reply]]
    ensures t.proc == Up(Limits(3, 10), if n == 0 then 0 else 1, Called("a", reply))
  {
    var started := Restarted(m, n);
    var marked := MarkedAgain(started, n);
    t := DoCall(marked, OneItem(), reply);
    ReachNext(marked, Call(OneItem(), reply));
  }

  /** One more billed rejection. */
  lemma RejectedAgain(m: Machine, n: nat) returns (t: Machine)
    requires AfterRejections(m, n) && n < 3
    ensures AfterRejections(t, n + 1)
  {
    var reply := Rejected(Some(Unit()));
    var called := CalledAgain(m, n, reply);
    t := DoSettle(called, OneItem());
    ReachNext(called, Settle(OneItem()));
    assert called.made["a"][..|called.made["a"]| - 1] == MadeFor(m.made, "a");
    assert t.disk.records == RejectedTimes(n + 1);
  }

  lemma ChargesOfOne(made: map<string, seq<Reply>>, replies: seq<Reply>, reply: Reply)
    requires made.Keys == {"a"} && made["a"] == replies + [reply]
    ensures Total(MadeCosts(made)) == CostOfAll(replies) + CostOf(reply)
  {
    var all := made["a"];
    assert all[..|all| - 1] == replies;
    assert MadeCosts(made) == map["a" := CostOfAll(all)];
    OneValue(CostOfAll(all));
  }

  lemma GradedAtLast(m: Machine) returns (t: Machine)
    requires AfterRejections(m, 2)
    ensures Reachable(t) && MayFinish(t) && t.proc.spent == 2 && TrueCost(t) == 3
  {
    var reply := Replied(Unit(), Correct);
    var called := CalledAgain(m, 2, reply);
    t := DoSettle(called, OneItem());
    ReachNext(called, Settle(OneItem()));
    ChargesOfOne(t.made, MadeFor(m.made, "a"), reply);
  }

  /** Two rejections that a provider billed, then a verdict: the report says two, the provider
      charged three. */
  lemma ForgottenRejection() returns (m: Machine)
    ensures Reachable(m) && MayFinish(m)
    ensures TrueCost(m) == 3 && DoFinish(m).disk.report.value.cost == 2
  {
    NewIsReachable();
    var once := RejectedAgain(NEW, 0);
    var twice := RejectedAgain(once, 1);
    m := GradedAtLast(twice);
  }
}
