// The paid stages of a run over its checkpoint file. A stage loads the
// checkpoint, works on the state in memory, and makes it durable at its save
// points; a crash leaves the file as the last save wrote it.

module RunStages {
  import opened Wrappers
  import opened Sums
  import opened Orders
  import opened Records
  import AnswerLoop
  import opened AnswerProofs
  import opened AnswerRun
  import opened RunHistory
  import opened StageRuns

  /** The sequences of checkpoints a prepared run can go through. */
  ghost function Histories(p: Plan): iset<seq<State>> {
    iset h | p.Valid() && History(p, h)
  }

  /** The run directory. `saved` is the checkpoint file; `past` remembers every
      content it had before. */
  class RunDirectory {
    const plan: Plan
    var saved: State
    ghost var past: seq<State>

    /** Every content of the checkpoint file, oldest first. */
    ghost function Saves(): seq<State>
      reads this
    {
      past + [saved]
    }

    ghost predicate Valid()
      reads this
    {
      Saves() in Histories(plan)
    }

    constructor (plan: Plan)
      requires plan.Valid()
      ensures Valid() && this.plan == plan && saved == FRESH
    {
      this.plan := plan;
      saved := FRESH;
      past := [];
    }

    /** Atomically replaces the checkpoint. The event names what this save adds. */
    method Save(state: RunState, ghost e: Event)
      requires Valid() && Enabled(plan, saved, e) && state.Value() == Apply(saved, e)
      modifies this
      ensures Valid()
      ensures saved == state.Value()
      ensures Saves() == old(Saves()) + [saved]
    {
      past := past + [saved];
      saved := state.Value();
    }
  }

  lemma DirectoryIsKept(p: Plan, past: seq<State>, s: State)
    requires past + [s] in Histories(p)
    ensures p.Valid() && Kept(p, s) && StateValid(p, s)
  {
    EverySavedStateIsKept(p, past + [s], |past|);
  }

  method SumCosts(usages: seq<Usage>) returns (total: int)
    ensures total == Cost(usages)
  {
    total := 0;
    assert usages[..|usages|] == usages;
    for i := 0 to |usages|
      invariant total == Cost(usages[..i])
    {
      assert usages[..i + 1] == usages[..i] + [usages[i]];
      CostOfConcat(usages[..i], [usages[i]]);
      CostOfOne(usages[i]);
      total := total + usages[i].cost;
    }
  }

  /** The reload's checks on a checkpoint. */
  method ValidateState(p: Plan, s: State) returns (ok: bool)
    ensures ok <==> StateValid(p, s)
  {
    if !(s.ingests.Keys <= p.documentMap.Keys) { return false; }
    if !(s.answers.Keys <= p.questions.Keys) { return false; }
    if !(s.judges.Keys <= p.questions.Keys) { return false; }
    if !(s.judges.Keys <= s.answers.Keys) { return false; }
    if exists r :: r in s.ingests && !(s.ingests[r].sourceRef == r && MatchesDocument(s.ingests[r], p.documentMap[r])) {
      return false;
    }
    if exists id :: id in s.answers && !AnswerMatches(p.questions[id], id, s.answers[id]) {
      return false;
    }
    if exists id :: id in s.judges && s.judges[id].itemId != id {
      return false;
    }
    var preflight := SumCosts(s.preflightUsages);
    var interrupted := SumCosts(s.interruptedUsages);
    var answers := SumValues(AnswerCosts(s.answers));
    var judges := SumValues(JudgeCosts(s.judges));
    ok := preflight + interrupted + answers + judges == s.cost;
  }

  predicate AnswerMatches(q: Question, id: string, r: AnswerRecord)
    ensures AnswerMatches(q, id, r) <==> r.itemId == id && NamesQuestion(r, q) && Ranked(r.claims)
  {
    && r.itemId == id
    && r.sampleId == q.sampleId
    && r.question == q.question
    && r.gold == AnswerLoop.Gold(q)
    && r.goldEvidence == q.evidence
    && r.category == q.category
    && id == q.itemId
    && forall k | 0 <= k < |r.claims| :: r.claims[k].rank == k + 1
  }

  /** Loads the checkpoint into memory. On a directory every stage kept, the
      reload's checks never reject. */
  method Load(dir: RunDirectory) returns (state: RunState)
    requires dir.Valid()
    ensures fresh(state) && state.Value() == dir.saved
  {
    DirectoryIsKept(dir.plan, dir.past, dir.saved);
    var ok := ValidateState(dir.plan, dir.saved);
    assert ok;
    state := new RunState(dir.saved);
  }

  // ---- the answer stage ----

  /** The spots reached from `a` with every call in between paid for in the
      checkpoint: cost and call count grew by exactly what the provider charged
      and answered, overshooting the threshold by less than the last call. */
  ghost predicate Paid(replies: nat -> AnswerLoop.Reply, ceiling: int, a: Spot, b: Spot) {
    && a.calls <= b.calls
    && b.state.cost == a.state.cost + Spend(replies, a.calls, b.calls)
    && AnswerCallTotal(b.state) == AnswerCallTotal(a.state) + b.calls - a.calls
    && (b.calls > a.calls ==> b.state.cost < ceiling + CostOfReply(replies(b.calls - 1)))
    && a.state.answers.Keys <= b.state.answers.Keys
    && a.state.judges == b.state.judges
    && a.state.ingests == b.state.ingests
  }

  ghost function PaidFrom(replies: nat -> AnswerLoop.Reply, ceiling: int, a: Spot): iset<Spot> {
    iset b | Paid(replies, ceiling, a, b)
  }

  lemma PaidNothing(replies: nat -> AnswerLoop.Reply, ceiling: int, a: Spot)
    ensures a in PaidFrom(replies, ceiling, a)
  {
  }

  lemma PaidTwice(replies: nat -> AnswerLoop.Reply, ceiling: int, a: Spot, b: Spot, c: Spot)
    requires b in PaidFrom(replies, ceiling, a) && c in PaidFrom(replies, ceiling, b)
    ensures c in PaidFrom(replies, ceiling, a)
  {
    SpendAdds(replies, a.calls, b.calls, c.calls);
  }

  /** One sample's questions of the manifest, in order. */
  function SampleQuestions(manifest: seq<Question>, sampleId: string): seq<Question> {
    Filter(manifest, (q: Question) => q.sampleId == sampleId)
  }

  function Unanswered(questions: seq<Question>, answers: map<string, AnswerRecord>): seq<Question> {
    Filter(questions, (q: Question) => q.itemId !in answers)
  }

  /** Questions of the manifest that have no answer yet. */
  ghost predicate AllOpen(manifest: seq<Question>, answered: set<string>, questions: seq<Question>) {
    forall q :: q in questions ==> q in manifest && q.itemId !in answered
  }

  /** The next item is not among those already taken. */
  lemma NextItem(questions: seq<Question>, i: nat)
    requires ItemsDiffer(questions) && i < |questions|
    ensures questions[i].itemId !in ItemIds(questions[..i])
    ensures ItemIds(questions[..i + 1]) == ItemIds(questions[..i]) + {questions[i].itemId}
  {
    assert questions[..i + 1] == questions[..i] + [questions[i]];
    assert forall q :: q in questions[..i + 1] <==> q in questions[..i] || q == questions[i];
  }

  lemma NextOpen(manifest: seq<Question>, base: set<string>, questions: seq<Question>, i: nat)
    requires ItemsDiffer(questions) && AllOpen(manifest, base, questions) && i < |questions|
    ensures questions[i] in manifest && questions[i].itemId !in base + ItemIds(questions[..i])
    ensures base + ItemIds(questions[..i + 1]) == base + ItemIds(questions[..i]) + {questions[i].itemId}
  {
    NextItem(questions, i);
  }

  /** The questions left to answer are distinct items of the plan. */
  lemma RemainingQuestions(p: Plan, sampleId: string, answers: map<string, AnswerRecord>)
    requires p.Valid()
    ensures
      var all := SampleQuestions(p.manifest, sampleId);
      var left := Unanswered(all, answers);
      && AllOpen(p.manifest, answers.Keys, left)
      && ItemsDiffer(left)
      && (forall q :: q in all ==> q in left || q.itemId in answers)
  {
    var all := SampleQuestions(p.manifest, sampleId);
    var left := Unanswered(all, answers);
    FilterMembers(p.manifest, (q: Question) => q.sampleId == sampleId);
    FilterMembers(all, (q: Question) => q.itemId !in answers);
    FilterDistinct(p.manifest, (q: Question) => q.sampleId == sampleId);
    FilterDistinct(all, (q: Question) => q.itemId !in answers);
    forall i, j | 0 <= i < j < |left| ensures left[i].itemId != left[j].itemId {
      assert left[i] in left && left[j] in left;
      assert left[i] != left[j];
    }
  }

  function DeploymentsOf(ingests: map<string, IngestRecord>, sampleId: string): set<int> {
    set k | k in ingests && ingests[k].sampleId == sampleId :: ingests[k].deployment
  }

  /** All of the sample's documents are ingested, into one deployment. */
  predicate SampleIngested(p: Plan, s: State, sampleId: string) {
    && (forall d :: d in p.documents && d.sampleId == sampleId ==> d.sourceRef in s.ingests)
    && |DeploymentsOf(s.ingests, sampleId)| == 1
  }

  /** How one question leaves its caller: the outcome, the provider's
      position, the run state, and the usages of an interrupted question. */
  datatype Landing = Landing(end: QuestionEnd, calls: nat, state: State, interrupted: seq<Usage>)

  ghost predicate Lands(
      c: AnswerLoop.Config, q: Question, replies: nat -> AnswerLoop.Reply, ceiling: int, a: Spot, l: Landing)
  {
    && a.calls <= l.calls <= a.calls + c.maxCalls
    && (l.end.OtherRaised? || a.calls == l.calls || l.state.cost < ceiling + CostOfReply(replies(l.calls - 1)))
    && var spend := Spend(replies, a.calls, l.calls);
       match l.end
       case Recorded(r) =>
         && WellKept(c, q, r)
         && r.agentCalls == l.calls - a.calls
         && UsageCost(r.usage) == spend
         && l.state == a.state.(cost := a.state.cost + spend)
       case InfrastructureRaised =>
         && Cost(l.interrupted) == spend
         && l.state == Apply(a.state, AnswerInterrupted(l.interrupted, l.calls - a.calls, spend))
       case GuardRaised =>
         && l.calls == a.calls
         && l.state == a.state
         && !AnswerLoop.MaySpend(a.state.cost, ceiling)
       case OtherRaised => true
  }

  ghost function Landings(
      c: AnswerLoop.Config, q: Question, replies: nat -> AnswerLoop.Reply, ceiling: int, a: Spot): iset<Landing>
  {
    iset l | Lands(c, q, replies, ceiling, a, l)
  }

  function InterruptedBy(e: AnswerLoop.Ending): seq<Usage> {
    if e.Outage? then e.usages else []
  }

  /** What a terminal draft spent is what the provider charged for its calls. */
  lemma DraftIsPaid(
      c: AnswerLoop.Config, lim: AnswerLoop.Limits, tape: AnswerLoop.Tape, spent0: int, d: AnswerLoop.Draft)
    requires GoodDraft(c, lim, LedgerAt(tape, spent0, d.loop.calls), d)
    ensures
      var end := tape.r0 + d.loop.calls;
      && Cost(d.loop.usages) == Spend(tape.replies, tape.r0, end)
      && d.loop.spent == spent0 + Spend(tape.replies, tape.r0, end)
      && (d.loop.calls > 0 ==> d.loop.spent < lim.ceiling + CostOfReply(tape.replies(end - 1)))
  {
    SpendIsCost(tape.replies, tape.r0, tape.r0 + d.loop.calls);
    if d.loop.calls > 0 { ReplyCostIsChargeCost(tape.Reply(d.loop.calls - 1)); }
  }

  lemma DraftIsKept(
      c: AnswerLoop.Config, lim: AnswerLoop.Limits, g: Ledger, d: AnswerLoop.Draft, q: Question, r: AnswerRecord)
    requires GoodDraft(c, lim, g, d) && r == AnswerLoop.RecordOf(q, c, d)
    ensures WellKept(c, q, r) && r.agentCalls == d.loop.calls && UsageCost(r.usage) == Cost(d.loop.usages)
  {
    RecordIsWellKept(c, lim, g, d, q);
  }

  lemma SettledLands(
      c: AnswerLoop.Config, lim: AnswerLoop.Limits, tape: AnswerLoop.Tape, q: Question, s: State, d: AnswerLoop.Draft,
      r: AnswerRecord)
    requires GoodDraft(c, lim, LedgerAt(tape, s.cost, d.loop.calls), d) && r == AnswerLoop.RecordOf(q, c, d)
    ensures Landing(Recorded(r), tape.r0 + d.loop.calls, s.(cost := d.loop.spent), [])
         in Landings(c, q, tape.replies, lim.ceiling, Spot(tape.r0, s))
  {
    DraftIsPaid(c, lim, tape, s.cost, d);
    DraftIsKept(c, lim, LedgerAt(tape, s.cost, d.loop.calls), d, q, r);
  }

  /** What an outage hands over is what the provider charged for its calls. */
  lemma OutageIsPaid(
      c: AnswerLoop.Config, lim: AnswerLoop.Limits, tape: AnswerLoop.Tape, spent0: int, e: AnswerLoop.Ending)
    requires e.Outage? && GoodEnding(c, lim, tape, spent0, e)
    ensures
      var end := tape.r0 + e.calls;
      && 1 <= e.calls <= c.maxCalls
      && Cost(e.usages) == Spend(tape.replies, tape.r0, end)
      && e.spent == spent0 + Spend(tape.replies, tape.r0, end)
      && e.spent < lim.ceiling + CostOfReply(tape.replies(end - 1))
  {
    SpendIsCost(tape.replies, tape.r0, tape.r0 + e.calls);
    ReplyCostIsChargeCost(tape.Reply(e.calls - 1));
  }

  lemma OutageLands(
      c: AnswerLoop.Config, q: Question, replies: nat -> AnswerLoop.Reply, ceiling: int, a: Spot, usages: seq<Usage>,
      calls: nat)
    requires a.calls < calls <= a.calls + c.maxCalls && Cost(usages) == Spend(replies, a.calls, calls)
    requires a.state.cost + Spend(replies, a.calls, calls) < ceiling + CostOfReply(replies(calls - 1))
    ensures
      var e := AnswerInterrupted(usages, calls - a.calls, Spend(replies, a.calls, calls));
      Landing(InfrastructureRaised, calls, Apply(a.state, e), usages) in Landings(c, q, replies, ceiling, a)
  {
  }

  lemma InterruptionLands(
      c: AnswerLoop.Config, lim: AnswerLoop.Limits, tape: AnswerLoop.Tape, q: Question, s: State, e: AnswerLoop.Ending)
    requires e.Outage? && GoodEnding(c, lim, tape, s.cost, e)
    ensures Landing(InfrastructureRaised, tape.r0 + e.calls, After(s, e), e.usages)
         in Landings(c, q, tape.replies, lim.ceiling, Spot(tape.r0, s))
  {
    OutageIsPaid(c, lim, tape, s.cost, e);
    OutageLands(c, q, tape.replies, lim.ceiling, Spot(tape.r0, s), e.usages, tape.r0 + e.calls);
  }

  lemma GuardLands(c: AnswerLoop.Config, q: Question, replies: nat -> AnswerLoop.Reply, ceiling: int, a: Spot)
    requires !AnswerLoop.MaySpend(a.state.cost, ceiling)
    ensures Landing(GuardRaised, a.calls, a.state, []) in Landings(c, q, replies, ceiling, a)
  {
  }

  lemma EndingLands(
      c: AnswerLoop.Config, lim: AnswerLoop.Limits, tape: AnswerLoop.Tape, q: Question, s: State, e: AnswerLoop.Ending,
      calls: nat)
    requires GoodEnding(c, lim, tape, s.cost, e)
    requires e.GuardStop? ==> e.calls == 0 && e.spent == s.cost && !AnswerLoop.MaySpend(s.cost, lim.ceiling)
    requires e.Crashed? || calls == tape.r0 + CallsAt(e)
    requires tape.r0 <= calls <= tape.r0 + c.maxCalls
    ensures Landing(EndOf(q, c, e), calls, After(s, e), InterruptedBy(e))
         in Landings(c, q, tape.replies, lim.ceiling, Spot(tape.r0, s))
  {
    if e.Settled? {
      SettledLands(c, lim, tape, q, s, e.draft, AnswerLoop.RecordOf(q, c, e.draft));
    } else if e.Outage? {
      InterruptionLands(c, lim, tape, q, s, e);
    } else if e.GuardStop? {
      GuardLands(c, q, tape.replies, lim.ceiling, Spot(tape.r0, s));
    }
  }

  /** `AnswerOne` with the worst case pre-checked by its caller: a guard fires
      only before the first call, so no charge is ever left behind. */
  method AnswerWithRoom(
      q: Question, c: AnswerLoop.Config, maxCalls: int, ceiling: int, mounted: bool,
      provider: Provider, dispatcher: Dispatcher, state: RunState)
    returns (end: QuestionEnd, ghost interrupted: seq<Usage>)
    requires c.Valid() && AnswerCallTotal(state.Value()) + c.maxCalls <= maxCalls
    modifies provider, dispatcher, state`cost, state`interruptedUsages, state`interruptedAnswerCalls
    ensures Landing(end, provider.calls, state.Value(), interrupted)
         in Landings(c, q, provider.replies, ceiling, old(Spot(provider.calls, state.Value())))
    ensures QuestionResult(end, provider.calls, dispatcher.calls, state.Value())
         in Results(World(c, maxCalls, ceiling, mounted, provider.replies, dispatcher.results), q,
                    old(Place(provider.calls, dispatcher.calls, state.Value())))
    ensures dispatcher.calls >= old(dispatcher.calls)
    ensures end.Recorded? || end.GuardRaised? ||
      EndsInHitch(
        provider.replies, old(provider.calls), provider.calls,
        dispatcher.results, old(dispatcher.calls), dispatcher.calls)
  {
    ghost var tape := AnswerLoop.Tape(provider.replies, provider.calls, dispatcher.results, dispatcher.calls);
    ghost var s := state.Value();
    ghost var lim := AnswerLoop.Limits(AnswerCallTotal(s), maxCalls, ceiling);
    EveryQuestionEndsWell(c, lim, tape, s.cost, mounted);
    GuardOnlyBeforeFirstCall(c, lim, tape, s.cost, mounted);
    ghost var e;
    end, e := AnswerOne(q, c, maxCalls, ceiling, mounted, provider, dispatcher, state);
    EndingLands(c, lim, tape, q, s, e, provider.calls);
    interrupted := InterruptedBy(e);
  }

  lemma PlannedQuestion(p: Plan, h: seq<State>, q: Question)
    requires h in Histories(p) && q in p.manifest
    ensures p.config.Valid() && q.itemId in p.questions && p.questions[q.itemId] == q
  {
  }

  lemma RecordPays(p: Plan, q: Question, replies: nat -> AnswerLoop.Reply, ceiling: int, a: Spot, l: Landing)
    requires q.itemId in p.questions && p.questions[q.itemId] == q && q.itemId !in a.state.answers
    requires l in Landings(p.config, q, replies, ceiling, a) && l.end.Recorded?
    ensures
      var t := l.state.(answers := l.state.answers[q.itemId := l.end.record]);
      && Enabled(p, a.state, AnswerSaved(l.end.record))
      && t == Apply(a.state, AnswerSaved(l.end.record))
      && t.answers.Keys == a.state.answers.Keys + {q.itemId}
      && Spot(l.calls, t) in PaidFrom(replies, ceiling, a)
  {
    var r := l.end.record;
    AnswerIsPaid(replies, ceiling, a, l.calls, q.itemId, r, Spend(replies, a.calls, l.calls));
  }

  lemma AnswerIsPaid(
      replies: nat -> AnswerLoop.Reply, ceiling: int, a: Spot, calls: nat, id: string, r: AnswerRecord, spend: nat)
    requires a.calls <= calls && spend == Spend(replies, a.calls, calls)
    requires id !in a.state.answers && r.agentCalls == calls - a.calls
    requires calls > a.calls ==> a.state.cost + spend < ceiling + CostOfReply(replies(calls - 1))
    ensures
      var t := a.state.(cost := a.state.cost + spend, answers := a.state.answers[id := r]);
      Spot(calls, t) in PaidFrom(replies, ceiling, a)
  {
    AddAnswerCalls(a.state.answers, id, r);
  }

  lemma OutagePays(p: Plan, q: Question, replies: nat -> AnswerLoop.Reply, ceiling: int, a: Spot, l: Landing)
    requires l in Landings(p.config, q, replies, ceiling, a) && l.end.InfrastructureRaised?
    ensures
      var e := AnswerInterrupted(l.interrupted, l.calls - a.calls, Spend(replies, a.calls, l.calls));
      Enabled(p, a.state, e) && l.state == Apply(a.state, e) && Spot(l.calls, l.state) in PaidFrom(replies, ceiling, a)
  {
  }

  lemma LandingPays(p: Plan, q: Question, replies: nat -> AnswerLoop.Reply, ceiling: int, a: Spot, l: Landing)
    requires l in Landings(p.config, q, replies, ceiling, a)
    ensures a.calls <= l.calls <= a.calls + p.config.maxCalls && a in PaidFrom(replies, ceiling, a)
    ensures l.end.GuardRaised? ==> l.calls == a.calls && !AnswerLoop.MaySpend(a.state.cost, ceiling)
  {
  }

  method SaveRecord(
      dir: RunDirectory, state: RunState, q: Question, record: AnswerRecord,
      ghost replies: nat -> AnswerLoop.Reply, ghost ceiling: int, ghost a: Spot, ghost l: Landing)
    requires dir.Valid() && q in dir.plan.manifest && q.itemId !in dir.saved.answers
    requires a.state == dir.saved && state.Value() == l.state && l.end == Recorded(record)
    requires l in Landings(dir.plan.config, q, replies, ceiling, a)
    modifies dir, state`answers
    ensures dir.Valid() && dir.Saves() == old(dir.Saves()) + [dir.saved]
    ensures state.Value() == dir.saved && dir.saved.answers.Keys == old(dir.saved.answers.Keys) + {q.itemId}
    ensures dir.saved == l.state.(answers := l.state.answers[q.itemId := record])
    ensures Spot(l.calls, dir.saved) in PaidFrom(replies, ceiling, a)
  {
    PlannedQuestion(dir.plan, dir.Saves(), q);
    RecordPays(dir.plan, q, replies, ceiling, a, l);
    state.answers := state.answers[q.itemId := record];
    dir.Save(state, AnswerSaved(record));
  }

  method SaveOutage(
      dir: RunDirectory, state: RunState, q: Question,
      ghost replies: nat -> AnswerLoop.Reply, ghost ceiling: int, ghost a: Spot, ghost l: Landing)
    requires dir.Valid() && a.state == dir.saved && state.Value() == l.state && l.end.InfrastructureRaised?
    requires l in Landings(dir.plan.config, q, replies, ceiling, a)
    modifies dir
    ensures dir.Valid() && dir.Saves() == old(dir.Saves()) + [dir.saved] && dir.saved == l.state
    ensures Spot(l.calls, dir.saved) in PaidFrom(replies, ceiling, a)
  {
    OutagePays(dir.plan, q, replies, ceiling, a, l);
    dir.Save(state, AnswerInterrupted(l.interrupted, l.calls - a.calls, Spend(replies, a.calls, l.calls)));
  }

  /** Answers one question and makes its outcome durable. */
  method AnswerNext(
      dir: RunDirectory, state: RunState, q: Question, maxAgentCalls: int, ceiling: int, mounted: bool,
      provider: Provider, dispatcher: Dispatcher)
    returns (stop: Option<StageEnd>, ghost settled: nat)
    requires dir.Valid() && state.Value() == dir.saved
    requires q in dir.plan.manifest && q.itemId !in dir.saved.answers
    requires AnswerCallTotal(dir.saved) + dir.plan.config.maxCalls <= maxAgentCalls
    modifies dir, state, provider, dispatcher
    ensures dir.Valid() && old(dir.Saves()) <= dir.Saves()
    ensures old(provider.calls) <= provider.calls <= old(provider.calls) + dir.plan.config.maxCalls
    ensures Spot(settled, dir.saved) in PaidFrom(provider.replies, ceiling, old(Spot(provider.calls, dir.saved)))
    ensures settled == if stop == Some(Broke) then old(provider.calls) else provider.calls
    ensures stop == None ==>
      state.Value() == dir.saved && dir.saved.answers.Keys == old(dir.saved.answers.Keys) + {q.itemId}
    ensures stop.Some? ==> !stop.value.Completed? && !stop.value.Refused?
    ensures stop == Some(GuardFired) ==> dir.saved == old(dir.saved) && !AnswerLoop.MaySpend(dir.saved.cost, ceiling)
    ensures dispatcher.calls >= old(dispatcher.calls)
    ensures stop == None || stop == Some(GuardFired) ||
      EndsInHitch(
        provider.replies, old(provider.calls), provider.calls,
        dispatcher.results, old(dispatcher.calls), dispatcher.calls)
    ensures stop == None ==>
      Place(provider.calls, dispatcher.calls, dir.saved)
      in NextPlaces(World(dir.plan.config, maxAgentCalls, ceiling, mounted, provider.replies, dispatcher.results), q,
                    old(Place(provider.calls, dispatcher.calls, dir.saved)))
    ensures stop.Some? ==>
      StageResult(stop.value, dir.saved)
      in NextStops(World(dir.plan.config, maxAgentCalls, ceiling, mounted, provider.replies, dispatcher.results), q,
                   old(Place(provider.calls, dispatcher.calls, dir.saved)))
  {
    PlannedQuestion(dir.plan, dir.Saves(), q);
    ghost var w := World(dir.plan.config, maxAgentCalls, ceiling, mounted, provider.replies, dispatcher.results);
    ghost var place := Place(provider.calls, dispatcher.calls, dir.saved);
    ghost var replies, a := provider.replies, Spot(provider.calls, dir.saved);
    var end, interrupted := AnswerWithRoom(
      q, dir.plan.config, maxAgentCalls, ceiling, mounted, provider, dispatcher, state);
    ghost var l := Landing(end, provider.calls, state.Value(), interrupted);
    LandingPays(dir.plan, q, replies, ceiling, a, l);
    ghost var r := QuestionResult(end, provider.calls, dispatcher.calls, state.Value());
    OtherwiseStops(w, q, place, r);
    settled := if end.OtherRaised? then a.calls else provider.calls;
    match end {
      case Recorded(record) =>
        RecordGoesOn(w, q, place, r);
        SaveRecord(dir, state, q, record, replies, ceiling, a, l);
        stop := None;
      case InfrastructureRaised =>
        SaveOutage(dir, state, q, replies, ceiling, a, l);
        stop := Some(Interrupted);
      case GuardRaised =>
        stop := Some(GuardFired);
      case OtherRaised =>
        stop := Some(Broke);
    }
  }

  /** What the answer stage demands before it records the readiness it found. */
  predicate MayRecordReadiness(
      p: Plan, s: State, sampleId: string, admitted: bool, fingerprint: string, maxQuestions: int)
  {
    && admitted
    && SampleQuestions(p.manifest, sampleId) != []
    && |p.manifest| <= maxQuestions
    && SampleIngested(p, s, sampleId)
    && (sampleId in s.readiness ==> s.readiness[sampleId] == fingerprint)
  }

  /** The guards of the answer stage, up to its budget checks. Only the
      readiness fingerprint is saved, and only once the guards before it pass. */
  method AdmitAnswers(
      dir: RunDirectory, state: RunState, sampleId: string, admitted: bool, attested: bool, fingerprint: string,
      maxQuestions: int)
    returns (ok: bool)
    requires dir.Valid() && state.Value() == dir.saved
    modifies dir, state`readiness
    ensures dir.Valid() && old(dir.Saves()) <= dir.Saves()
    ensures state.Value() == dir.saved
    ensures dir.saved ==
      if MayRecordReadiness(dir.plan, old(dir.saved), sampleId, admitted, fingerprint, maxQuestions)
      then old(dir.saved).(readiness := old(dir.saved).readiness[sampleId := fingerprint])
      else old(dir.saved)
    ensures ok <==>
      attested && MayRecordReadiness(dir.plan, old(dir.saved), sampleId, admitted, fingerprint, maxQuestions)
  {
    var p := dir.plan;
    if !admitted || SampleQuestions(p.manifest, sampleId) == [] || maxQuestions < |p.manifest|
       || !SampleIngested(p, state.Value(), sampleId)
    {
      return false;
    }
    if sampleId in state.readiness && state.readiness[sampleId] != fingerprint {
      return false;
    }
    state.readiness := state.readiness[sampleId := fingerprint];
    dir.Save(state, Readied(sampleId, fingerprint));
    ok := attested;
  }

  /** The calls `n` questions may need at worst. */
  function WorstCase(n: nat, each: nat): nat {
    if n == 0 then 0 else each + WorstCase(n - 1, each)
  }

  lemma {:induction false} WorstCaseIsProduct(n: nat, each: nat)
    ensures WorstCase(n, each) == n * each
  {
    if n > 0 { WorstCaseIsProduct(n - 1, each); }
  }

  /** The checkpoints with room for `n` more questions under the call ceiling. */
  ghost function Roomy(n: nat, each: nat, maxCalls: int): iset<State> {
    iset s: State | AnswerCallTotal(s) + WorstCase(n, each) <= maxCalls
  }

  lemma RoomForOne(n: nat, each: nat, maxCalls: int, s: State)
    requires s in Roomy(n, each, maxCalls)
    ensures AnswerCallTotal(s) <= maxCalls && (n > 0 ==> AnswerCallTotal(s) + each <= maxCalls)
  {
  }

  lemma RoomAfterOne(n: nat, each: nat, maxCalls: int, s: State, t: State)
    requires n > 0 && s in Roomy(n, each, maxCalls) && AnswerCallTotal(t) <= AnswerCallTotal(s) + each
    ensures t in Roomy(n - 1, each, maxCalls)
  {
  }

  lemma PaidCallsAreCounted(replies: nat -> AnswerLoop.Reply, ceiling: int, a: Spot, b: Spot)
    requires b in PaidFrom(replies, ceiling, a)
    ensures AnswerCallTotal(b.state) == AnswerCallTotal(a.state) + b.calls - a.calls
  {
  }

  /** The spots from which `n` more questions cannot reach the threshold, even if
      each makes all its calls. */
  ghost predicate Funds(replies: nat -> AnswerLoop.Reply, ceiling: int, n: nat, each: nat, a: Spot) {
    0 < ceiling && a.state.cost + Spend(replies, a.calls, a.calls + WorstCase(n, each)) < ceiling
  }

  ghost function Funded(replies: nat -> AnswerLoop.Reply, ceiling: int, n: nat, each: nat): iset<Spot> {
    iset a | Funds(replies, ceiling, n, each, a)
  }

  /** The providers and read surfaces that never stop the run. */
  ghost function Calm(): iset<(nat -> AnswerLoop.Reply, nat -> AnswerLoop.ToolReply)> {
    iset t: (nat -> AnswerLoop.Reply, nat -> AnswerLoop.ToolReply) | Smooth(t.0, t.1)
  }

  /** Nothing outside hitches, and `n` more questions cannot reach the threshold. */
  ghost predicate Sure(
      replies: nat -> AnswerLoop.Reply, results: nat -> AnswerLoop.ToolReply, ceiling: int, n: nat, each: nat, a: Spot)
  {
    (replies, results) in Calm() && a in Funded(replies, ceiling, n, each)
  }

  lemma FundedMaySpend(replies: nat -> AnswerLoop.Reply, ceiling: int, n: nat, each: nat, a: Spot)
    requires a in Funded(replies, ceiling, n, each)
    ensures AnswerLoop.MaySpend(a.state.cost, ceiling)
  {
  }

  lemma FundedAfterOne(replies: nat -> AnswerLoop.Reply, ceiling: int, n: nat, each: nat, a: Spot, b: Spot)
    requires n > 0 && a in Funded(replies, ceiling, n, each)
    requires b in PaidFrom(replies, ceiling, a) && b.calls <= a.calls + each
    ensures b in Funded(replies, ceiling, n - 1, each)
  {
    var end := b.calls + WorstCase(n - 1, each);
    SpendAdds(replies, a.calls, b.calls, end);
    SpendAdds(replies, a.calls, end, a.calls + WorstCase(n, each));
  }

  lemma FundedIgnoresReadiness(
      replies: nat -> AnswerLoop.Reply, ceiling: int, n: nat, each: nat, calls: nat, s: State, t: State)
    requires t == s.(readiness := t.readiness)
    ensures Spot(calls, t) in Funded(replies, ceiling, n, each) <==> Spot(calls, s) in Funded(replies, ceiling, n, each)
  {
  }

  /** The spots a stage may reach with `n` questions to go: paid for, and with
      room for those questions under the call ceiling. */
  ghost function Under(
      replies: nat -> AnswerLoop.Reply, ceiling: int, start: Spot, n: nat, each: nat, maxCalls: int): iset<Spot>
  {
    iset b | b in PaidFrom(replies, ceiling, start) && b.state in Roomy(n, each, maxCalls)
  }

  lemma UnderIs(
      replies: nat -> AnswerLoop.Reply, ceiling: int, start: Spot, n: nat, each: nat, maxCalls: int, b: Spot)
    ensures b in Under(replies, ceiling, start, n, each, maxCalls)
       <==> b in PaidFrom(replies, ceiling, start) && b.state in Roomy(n, each, maxCalls)
  {
  }

  lemma SmoothHasNoHitch(
      replies: nat -> AnswerLoop.Reply, lo: nat, hi: nat, results: nat -> AnswerLoop.ToolReply, first: nat, last: nat)
    ensures (replies, results) in Calm() ==> !EndsInHitch(replies, lo, hi, results, first, last)
  {
  }

  /** Answers question `i`, seen from where the stage started: it took the answers
      `base` and the questions before `i`. */
  method AnswerOnward(
      dir: RunDirectory, state: RunState, remaining: seq<Question>, i: nat, maxAgentCalls: int, ceiling: int,
      mounted: bool, provider: Provider, dispatcher: Dispatcher,
      ghost start: Spot, ghost base: set<string>, ghost n: nat, ghost left: nat, ghost w: World,
      ghost result: StageResult)
    returns (stop: Option<StageEnd>, ghost settled: nat)
    requires dir.Valid() && state.Value() == dir.saved && i < |remaining| && n == left + 1 == |remaining| - i
    requires ItemsDiffer(remaining) && AllOpen(dir.plan.manifest, base, remaining)
    requires dir.saved.answers.Keys == base + ItemIds(remaining[..i])
    requires Spot(provider.calls, dir.saved)
          in Under(provider.replies, ceiling, start, n, dir.plan.config.maxCalls, maxAgentCalls)
    requires w == World(dir.plan.config, maxAgentCalls, ceiling, mounted, provider.replies, dispatcher.results)
    requires result in StageResults(w, remaining[i..], Place(provider.calls, dispatcher.calls, dir.saved))
    modifies dir, state, provider, dispatcher
    ensures dir.Valid() && old(dir.Saves()) <= dir.Saves()
    ensures old(provider.calls) <= provider.calls <= old(provider.calls) + dir.plan.config.maxCalls
    ensures Spot(settled, dir.saved) in PaidFrom(provider.replies, ceiling, start)
    ensures settled == if stop == Some(Broke) then old(provider.calls) else provider.calls
    ensures stop == None ==>
      && state.Value() == dir.saved
      && dir.saved.answers.Keys == base + ItemIds(remaining[..i + 1])
      && Spot(provider.calls, dir.saved)
           in Under(provider.replies, ceiling, start, left, dir.plan.config.maxCalls, maxAgentCalls)
    ensures stop.Some? ==> !stop.value.Completed? && !stop.value.Refused?
    ensures stop == Some(GuardFired) ==> !AnswerLoop.MaySpend(dir.saved.cost, ceiling)
    ensures dispatcher.calls >= old(dispatcher.calls)
    ensures stop == None || stop == Some(GuardFired) ||
      EndsInHitch(
        provider.replies, old(provider.calls), provider.calls,
        dispatcher.results, old(dispatcher.calls), dispatcher.calls)
    ensures stop == None ==>
      result in StageResults(w, remaining[i + 1..], Place(provider.calls, dispatcher.calls, dir.saved))
    ensures stop.Some? ==> result == StageResult(stop.value, dir.saved)
    ensures AnswerCallTotal(dir.saved) + provider.calls - settled <= maxAgentCalls
    ensures old(Sure(provider.replies, dispatcher.results, ceiling, n, dir.plan.config.maxCalls,
      Spot(provider.calls, dir.saved))) ==>
      && stop == None
      && Spot(provider.calls, dir.saved) in Funded(provider.replies, ceiling, left, dir.plan.config.maxCalls)
  {
    ghost var each, here := dir.plan.config.maxCalls, Spot(provider.calls, dir.saved);
    UnderHasRoom(provider.replies, ceiling, start, n, each, maxAgentCalls, here);
    NextOpen(dir.plan.manifest, base, remaining, i);
    ghost var place := Place(provider.calls, dispatcher.calls, dir.saved);
    stop, settled := AnswerNext(dir, state, remaining[i], maxAgentCalls, ceiling, mounted, provider, dispatcher);
    StageMoves(w, remaining, i, place, stop, Place(provider.calls, dispatcher.calls, dir.saved), result);
    UnderAfterOne(provider.replies, ceiling, start, n, each, maxAgentCalls, here, Spot(settled, dir.saved));
    FundedOnward(provider.replies, ceiling, n, each, here, Spot(settled, dir.saved));
    SmoothHasNoHitch(
      provider.replies, old(provider.calls), provider.calls,
      dispatcher.results, old(dispatcher.calls), dispatcher.calls);
  }

  lemma UnderHasRoom(
      replies: nat -> AnswerLoop.Reply, ceiling: int, start: Spot, n: nat, each: nat, maxCalls: int, a: Spot)
    requires n > 0 && a in Under(replies, ceiling, start, n, each, maxCalls)
    ensures AnswerCallTotal(a.state) + each <= maxCalls
  {
    UnderIs(replies, ceiling, start, n, each, maxCalls, a);
    RoomForOne(n, each, maxCalls, a.state);
  }

  lemma UnderAfterOne(
      replies: nat -> AnswerLoop.Reply, ceiling: int, start: Spot, n: nat, each: nat, maxCalls: int, a: Spot, b: Spot)
    requires n > 0 && a in Under(replies, ceiling, start, n, each, maxCalls)
    requires b in PaidFrom(replies, ceiling, a) && b.calls <= a.calls + each
    ensures b in PaidFrom(replies, ceiling, start) && b in Under(replies, ceiling, start, n - 1, each, maxCalls)
    ensures AnswerCallTotal(b.state) == AnswerCallTotal(a.state) + b.calls - a.calls
  {
    UnderIs(replies, ceiling, start, n, each, maxCalls, a);
    PaidTwice(replies, ceiling, start, a, b);
    PaidCallsAreCounted(replies, ceiling, a, b);
    RoomAfterOne(n, each, maxCalls, a.state, b.state);
    UnderIs(replies, ceiling, start, n - 1, each, maxCalls, b);
  }

  lemma FundedOnward(replies: nat -> AnswerLoop.Reply, ceiling: int, n: nat, each: nat, a: Spot, b: Spot)
    requires n > 0 && b in PaidFrom(replies, ceiling, a) && b.calls <= a.calls + each
    ensures a in Funded(replies, ceiling, n, each) ==>
      AnswerLoop.MaySpend(a.state.cost, ceiling) && b in Funded(replies, ceiling, n - 1, each)
  {
    if a in Funded(replies, ceiling, n, each) {
      FundedMaySpend(replies, ceiling, n, each, a);
      FundedAfterOne(replies, ceiling, n, each, a, b);
    }
  }

  /** Answers the remaining questions in order, one save each. */
  method AnswerAll(
      dir: RunDirectory, state: RunState, remaining: seq<Question>, maxAgentCalls: int, ceiling: int, mounted: bool,
      provider: Provider, dispatcher: Dispatcher)
    returns (end: StageEnd, ghost settled: nat)
    requires dir.Valid() && state.Value() == dir.saved
    requires ItemsDiffer(remaining) && AllOpen(dir.plan.manifest, dir.saved.answers.Keys, remaining)
    requires dir.saved in Roomy(|remaining|, dir.plan.config.maxCalls, maxAgentCalls)
    modifies dir, state, provider, dispatcher
    ensures dir.Valid() && old(dir.Saves()) <= dir.Saves()
    ensures provider.calls >= old(provider.calls)
    ensures Spot(settled, dir.saved) in PaidFrom(provider.replies, ceiling, old(Spot(provider.calls, dir.saved)))
    ensures settled <= provider.calls <= settled + if end.Broke? then dir.plan.config.maxCalls else 0
    ensures !end.Refused?
    ensures AnswerCallTotal(dir.saved) + provider.calls - settled <= maxAgentCalls
    ensures end.GuardFired? ==> !AnswerLoop.MaySpend(dir.saved.cost, ceiling)
    ensures end.Completed? || end.GuardFired? ||
      EndsInHitch(
        provider.replies, old(provider.calls), provider.calls,
        dispatcher.results, old(dispatcher.calls), dispatcher.calls)
    ensures end.Completed? ==> dir.saved.answers.Keys == old(dir.saved.answers.Keys) + ItemIds(remaining)
    ensures old(Sure(
        provider.replies, dispatcher.results, ceiling, |remaining|, dir.plan.config.maxCalls,
        Spot(provider.calls, dir.saved))) ==>
      end.Completed?
    ensures StageResult(end, dir.saved)
         in StageResults(World(dir.plan.config, maxAgentCalls, ceiling, mounted, provider.replies, dispatcher.results),
                         remaining, old(Place(provider.calls, dispatcher.calls, dir.saved)))
  {
    ghost var w := World(dir.plan.config, maxAgentCalls, ceiling, mounted, provider.replies, dispatcher.results);
    ghost var result := AnswerStage(w, remaining, Place(provider.calls, dispatcher.calls, dir.saved));
    StageBegins(w, remaining, Place(provider.calls, dispatcher.calls, dir.saved));
    ghost var replies, each, start := provider.replies, dir.plan.config.maxCalls, Spot(provider.calls, dir.saved);
    ghost var sure := Sure(replies, dispatcher.results, ceiling, |remaining|, each, start);
    PaidNothing(replies, ceiling, start);
    UnderIs(replies, ceiling, start, |remaining|, each, maxAgentCalls, start);
    settled := provider.calls;
    ghost var n := |remaining|;
    for i := 0 to |remaining|
      invariant dir.Valid() && old(dir.Saves()) <= dir.Saves() && n == |remaining| - i
      invariant state.Value() == dir.saved && settled == provider.calls >= start.calls
      invariant dispatcher.calls >= old(dispatcher.calls)
      invariant result in StageResults(w, remaining[i..], Place(provider.calls, dispatcher.calls, dir.saved))
      invariant Spot(provider.calls, dir.saved) in Under(replies, ceiling, start, n, each, maxAgentCalls)
      invariant sure ==> Spot(provider.calls, dir.saved) in Funded(replies, ceiling, n, each)
      invariant dir.saved.answers.Keys == start.state.answers.Keys + ItemIds(remaining[..i])
    {
      var stop;
      ghost var mid, next, ahead := provider.calls, dispatcher.calls, n;
      n := n - 1;
      stop, settled := AnswerOnward(
        dir, state, remaining, i, maxAgentCalls, ceiling, mounted, provider, dispatcher,
        start, start.state.answers.Keys, ahead, n, w, result);
      HitchWithin(
        replies, old(provider.calls), mid, provider.calls,
        dispatcher.results, old(dispatcher.calls), next, dispatcher.calls);
      if stop.Some? {
        return stop.value, settled;
      }
    }
    UnderIs(replies, ceiling, start, 0, each, maxAgentCalls, Spot(provider.calls, dir.saved));
    RoomForOne(0, each, maxAgentCalls, dir.saved);
    assert remaining[..|remaining|] == remaining;
    StageCompletes(w, remaining, Place(provider.calls, dispatcher.calls, dir.saved), result);
    end := Completed;
  }

  /** The checkpoint with a sample's readiness. */
  function Ready(s: State, sampleId: string, fingerprint: string): State {
    s.(readiness := s.readiness[sampleId := fingerprint])
  }

  /** The budgets cover the open questions of a sample. */
  ghost predicate BudgetsCover(p: Plan, s: State, sampleId: string, maxAgentCalls: int, ceiling: int) {
    && AnswerCallTotal(s) + WorstCase(|OpenQuestions(p, s, sampleId)|, p.config.maxCalls) <= maxAgentCalls
    && 0 < ceiling && s.cost <= ceiling
  }

  function OpenQuestions(p: Plan, s: State, sampleId: string): seq<Question> {
    Unanswered(SampleQuestions(p.manifest, sampleId), s.answers)
  }

  /** A sample's questions are those of the manifest that belong to it, in order. */
  lemma SampleQuestionsAre(manifest: seq<Question>, sampleId: string)
    ensures Subsequence(SampleQuestions(manifest, sampleId), manifest)
    ensures forall q :: q in SampleQuestions(manifest, sampleId) <==> q in manifest && q.sampleId == sampleId
  {
    FilterMembers(manifest, (q: Question) => q.sampleId == sampleId);
    FilterSubsequence(manifest, (q: Question) => q.sampleId == sampleId);
  }

  /** Open are those of them that have no answer, in order. */
  lemma OpenQuestionsAre(p: Plan, s: State, sampleId: string)
    ensures Subsequence(OpenQuestions(p, s, sampleId), p.manifest)
    ensures forall q :: q in OpenQuestions(p, s, sampleId) <==>
      q in p.manifest && q.sampleId == sampleId && q.itemId !in s.answers
  {
    var all := SampleQuestions(p.manifest, sampleId);
    SampleQuestionsAre(p.manifest, sampleId);
    FilterMembers(all, (q: Question) => q.itemId !in s.answers);
    FilterSubsequence(all, (q: Question) => q.itemId !in s.answers);
    SubsequenceTrans(OpenQuestions(p, s, sampleId), all, p.manifest);
  }

  /** One deployment: there is one, and no other. */
  lemma OneDeploymentTells(ingests: map<string, IngestRecord>, sampleId: string)
    ensures |DeploymentsOf(ingests, sampleId)| == 1 <==>
      && (exists k :: k in ingests && ingests[k].sampleId == sampleId)
      && (forall j, k :: j in ingests && k in ingests && ingests[j].sampleId == ingests[k].sampleId == sampleId ==>
            ingests[j].deployment == ingests[k].deployment)
  {
    var all := DeploymentsOf(ingests, sampleId);
    forall k | k in ingests && ingests[k].sampleId == sampleId ensures ingests[k].deployment in all {
    }
    if |all| == 1 {
      var d :| d in all;
      OnlyMember(all, d);
    }
    if k :| k in ingests && ingests[k].sampleId == sampleId {
      assert (forall d :: d in all ==> d == ingests[k].deployment) ==> all == {ingests[k].deployment};
    }
  }

  lemma OnlyMember(s: set<int>, d: int)
    requires |s| == 1 && d in s
    ensures forall e :: e in s ==> e == d
  {
    assert |s - {d}| == 0;
    assert s == (s - {d}) + {d};
  }

  /** What an answer stage is not refused for, in elementary terms: the sample is
      admitted and has questions, the question limit covers the manifest, all its
      documents are recorded on one deployment, a stored fingerprint agrees, and the
      worst case of its open questions fits under the call ceiling with the spend
      not beyond the threshold. */
  lemma AnswerAdmissionTells(
      p: Plan, s: State, sampleId: string, admitted: bool, fingerprint: string, maxQuestions: int, maxAgentCalls: int,
      ceiling: int)
    ensures
      && MayRecordReadiness(p, s, sampleId, admitted, fingerprint, maxQuestions)
      && BudgetsCover(p, s, sampleId, maxAgentCalls, ceiling)
      <==>
      && admitted && |p.manifest| <= maxQuestions
      && (exists q :: q in p.manifest && q.sampleId == sampleId)
      && (forall d :: d in p.documents && d.sampleId == sampleId ==> d.sourceRef in s.ingests)
      && |DeploymentsOf(s.ingests, sampleId)| == 1
      && (sampleId !in s.readiness || s.readiness[sampleId] == fingerprint)
      && s.interruptedAnswerCalls + Total(AgentCalls(s.answers))
         + |OpenQuestions(p, s, sampleId)| * p.config.maxCalls <= maxAgentCalls
      && ceiling > 0 && s.cost <= ceiling
  {
    var questions := SampleQuestions(p.manifest, sampleId);
    SampleQuestionsAre(p.manifest, sampleId);
    WorstCaseIsProduct(|OpenQuestions(p, s, sampleId)|, p.config.maxCalls);
    if questions != [] { assert questions[0] in questions; }
  }

  /** The budget checks of an admitted sample, and its open questions. */
  method AnswerAdmitted(
      dir: RunDirectory, state: RunState, sampleId: string, mounted: bool, maxAgentCalls: int, ceiling: int,
      provider: Provider, dispatcher: Dispatcher)
    returns (end: StageEnd, ghost settled: nat)
    requires dir.Valid() && state.Value() == dir.saved
    modifies dir, state, provider, dispatcher
    ensures dir.Valid() && old(dir.Saves()) <= dir.Saves()
    ensures provider.calls >= old(provider.calls)
    ensures Spot(settled, dir.saved) in PaidFrom(provider.replies, ceiling, old(Spot(provider.calls, dir.saved)))
    ensures settled <= provider.calls <= settled + if end.Broke? then dir.plan.config.maxCalls else 0
    ensures end.Refused? ==> provider.calls == old(provider.calls)
    ensures !end.Refused? ==> AnswerCallTotal(dir.saved) + provider.calls - settled <= maxAgentCalls
    ensures end.GuardFired? ==> !AnswerLoop.MaySpend(dir.saved.cost, ceiling)
    ensures end.Completed? || end.Refused? || end.GuardFired? ||
      EndsInHitch(
        provider.replies, old(provider.calls), provider.calls,
        dispatcher.results, old(dispatcher.calls), dispatcher.calls)
    ensures end.Completed? ==>
      forall q :: q in SampleQuestions(dir.plan.manifest, sampleId) ==> q.itemId in dir.saved.answers
    ensures !end.Refused? <==> BudgetsCover(dir.plan, old(dir.saved), sampleId, maxAgentCalls, ceiling)
    ensures old(Sure(
        provider.replies, dispatcher.results, ceiling, |OpenQuestions(dir.plan, dir.saved, sampleId)|,
        dir.plan.config.maxCalls, Spot(provider.calls, dir.saved))) ==>
      end.Refused? || end.Completed?
    ensures !end.Refused? ==>
      StageResult(end, dir.saved)
      in StageResults(World(dir.plan.config, maxAgentCalls, ceiling, mounted, provider.replies, dispatcher.results),
                      OpenQuestions(dir.plan, old(dir.saved), sampleId),
                      old(Place(provider.calls, dispatcher.calls, dir.saved)))
  {
    ghost var start := Spot(provider.calls, dir.saved);
    PaidNothing(provider.replies, ceiling, start);
    var each := dir.plan.config.maxCalls;
    var questions := SampleQuestions(dir.plan.manifest, sampleId);
    var remaining := Unanswered(questions, state.answers);
    var called := SumValues(AgentCalls(state.answers));
    WorstCaseIsProduct(|remaining|, each);
    if state.interruptedAnswerCalls + called + |remaining| * each > maxAgentCalls {
      return Refused, provider.calls;
    }
    if ceiling <= 0 || ceiling < state.cost {
      return Refused, provider.calls;
    }
    PlannedQuestions(dir.plan, dir.Saves(), sampleId, state.answers);
    end, settled := AnswerAll(dir, state, remaining, maxAgentCalls, ceiling, mounted, provider, dispatcher);
    PaidKeepsAnswers(provider.replies, ceiling, start, Spot(settled, dir.saved));
    assert end.Completed? ==> forall q :: q in remaining ==> q.itemId in ItemIds(remaining);
  }

  /** Answers one sample's open questions. `admitted` stands for the remote
      guards, `attested` for the live deployment checks made after readiness is
      recorded. Whatever the provider charged is in the checkpoint when the
      stage ends; an exception nobody handles loses the charges of one question
      at most. `settled` is the position the checkpoint has paid up to. A stage
      that is not refused completes, if nothing outside hitches and the threshold
      is out of reach of the worst case. */
  method AnswerSample(
      dir: RunDirectory, sampleId: string, admitted: bool, attested: bool, fingerprint: string, mounted: bool,
      maxQuestions: int, maxAgentCalls: int, ceiling: int, provider: Provider, dispatcher: Dispatcher)
    returns (end: StageEnd, ghost settled: nat)
    requires dir.Valid()
    modifies dir, provider, dispatcher
    ensures dir.Valid() && old(dir.Saves()) <= dir.Saves()
    ensures provider.calls >= old(provider.calls)
    ensures Spot(settled, dir.saved) in PaidFrom(provider.replies, ceiling, old(Spot(provider.calls, dir.saved)))
    ensures settled <= provider.calls <= settled + if end.Broke? then dir.plan.config.maxCalls else 0
    ensures end.Refused? ==> provider.calls == old(provider.calls)
    ensures !end.Refused? ==> AnswerCallTotal(dir.saved) + provider.calls - settled <= maxAgentCalls
    ensures end.GuardFired? ==> !AnswerLoop.MaySpend(dir.saved.cost, ceiling)
    ensures end.Completed? || end.Refused? || end.GuardFired? ||
      EndsInHitch(
        provider.replies, old(provider.calls), provider.calls,
        dispatcher.results, old(dispatcher.calls), dispatcher.calls)
    ensures end.Completed? ==>
      forall q :: q in SampleQuestions(dir.plan.manifest, sampleId) ==> q.itemId in dir.saved.answers
    ensures !end.Refused? <==>
      && attested
      && MayRecordReadiness(dir.plan, old(dir.saved), sampleId, admitted, fingerprint, maxQuestions)
      && BudgetsCover(dir.plan, old(dir.saved), sampleId, maxAgentCalls, ceiling)
    ensures old(Sure(
        provider.replies, dispatcher.results, ceiling, |OpenQuestions(dir.plan, dir.saved, sampleId)|,
        dir.plan.config.maxCalls, Spot(provider.calls, dir.saved))) ==>
      end.Refused? || end.Completed?
    // The records and the end are those that the question loop prescribes, in order.
    ensures !end.Refused? ==>
      StageResult(end, dir.saved)
      in StageResults(World(dir.plan.config, maxAgentCalls, ceiling, mounted, provider.replies, dispatcher.results),
                      OpenQuestions(dir.plan, old(dir.saved), sampleId),
                      old(Place(provider.calls, dispatcher.calls, Ready(dir.saved, sampleId, fingerprint))))
    ensures !end.Refused? ==>
      StageResult(end, dir.saved)
      in Leavings(World(dir.plan.config, maxAgentCalls, ceiling, mounted, provider.replies, dispatcher.results),
                  OpenQuestions(dir.plan, old(dir.saved), sampleId),
                  old(Place(provider.calls, dispatcher.calls, Ready(dir.saved, sampleId, fingerprint))))
  {
    ghost var w := World(dir.plan.config, maxAgentCalls, ceiling, mounted, provider.replies, dispatcher.results);
    ghost var at := Place(provider.calls, dispatcher.calls, Ready(dir.saved, sampleId, fingerprint));
    ghost var s := dir.saved;
    var state := Load(dir);
    var ok := AdmitAnswers(dir, state, sampleId, admitted, attested, fingerprint, maxQuestions);
    PaidReadiness(provider.replies, ceiling, provider.calls, s, dir.saved);
    assert state.answers == s.answers && AnswerCallTotal(state.Value()) == AnswerCallTotal(s);
    if !ok {
      return Refused, provider.calls;
    }
    ghost var each, n := dir.plan.config.maxCalls, |OpenQuestions(dir.plan, s, sampleId)|;
    ghost var admittedAt := Spot(provider.calls, dir.saved);
    FundedIgnoresReadiness(provider.replies, ceiling, n, each, provider.calls, s, dir.saved);
    end, settled := AnswerAdmitted(dir, state, sampleId, mounted, maxAgentCalls, ceiling, provider, dispatcher);
    PaidTwice(provider.replies, ceiling, Spot(admittedAt.calls, s), admittedAt, Spot(settled, dir.saved));
    if !end.Refused? {
      SampleRecordsAreLeft(dir.plan, dir.Saves(), sampleId, s, w, at, StageResult(end, dir.saved));
    }
  }

  lemma SampleRecordsAreLeft(
      p: Plan, h: seq<State>, sampleId: string, s: State, w: World, at: Place, r: StageResult)
    requires h in Histories(p) && w.config == p.config && r in StageResults(w, OpenQuestions(p, s, sampleId), at)
    ensures r in Leavings(w, OpenQuestions(p, s, sampleId), at)
  {
    PlannedQuestions(p, h, sampleId, s.answers);
    RecordsAreLeft(w, OpenQuestions(p, s, sampleId), at, r);
  }

  lemma PaidReadiness(replies: nat -> AnswerLoop.Reply, ceiling: int, calls: nat, s: State, t: State)
    requires t == s.(readiness := t.readiness)
    ensures Spot(calls, t) in PaidFrom(replies, ceiling, Spot(calls, s))
    ensures AnswerCallTotal(t) == AnswerCallTotal(s)
  {
  }

  lemma PaidKeepsAnswers(replies: nat -> AnswerLoop.Reply, ceiling: int, a: Spot, b: Spot)
    requires b in PaidFrom(replies, ceiling, a)
    ensures forall id :: id in a.state.answers ==> id in b.state.answers
  {
  }

  lemma PlannedQuestions(p: Plan, h: seq<State>, sampleId: string, answers: map<string, AnswerRecord>)
    requires h in Histories(p)
    ensures
      var all := SampleQuestions(p.manifest, sampleId);
      var left := Unanswered(all, answers);
      && AllOpen(p.manifest, answers.Keys, left)
      && ItemsDiffer(left)
      && (forall q :: q in all ==> q in left || q.itemId in answers)
  {
    RemainingQuestions(p, sampleId, answers);
  }
}
