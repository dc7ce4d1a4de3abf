// The judge stage: one verdict per answered question, each made durable at
// once, under a judge-call ceiling and the run's spend threshold.

module JudgeStage {
  import opened Wrappers
  import opened Sums
  import opened Orders
  import opened Records
  import AnswerLoop
  import opened AnswerProofs
  import opened AnswerRun
  import opened RunHistory
  import opened RunStages
  import opened StageRuns
  import opened JudgeRuns

  /** The judge provider: its n-th call yields the n-th ruling. */
  class Judge {
    const rulings: nat -> Ruling
    var calls: nat

    constructor (rulings: nat -> Ruling)
      ensures this.rulings == rulings && calls == 0
    {
      this.rulings := rulings;
      calls := 0;
    }

    method Rule() returns (ruling: Ruling)
      modifies this
      ensures ruling == rulings(old(calls)) && calls == old(calls) + 1
    {
      ruling := rulings(calls);
      calls := calls + 1;
    }
  }

  // ---- one question ----

  datatype JudgeEnd = Verdict(record: JudgeRecord) | CallGuard | OutageRaised | CrashRaised

  datatype JudgeLanding = JudgeLanding(end: JudgeEnd, calls: nat, state: State)

  ghost predicate JudgeLands(
      id: string, model: string, rulings: nat -> Ruling, maxCalls: int, ceiling: int, a: Spot, l: JudgeLanding)
  {
    var ruling := rulings(a.calls);
    if l.end.CallGuard? then
      !MayJudge(a.state, maxCalls, ceiling) && l.calls == a.calls && l.state == a.state
    else
      && MayJudge(a.state, maxCalls, ceiling)
      && l.calls == a.calls + 1
      && match l.end
         case Verdict(j) =>
           && !JudgeHitch(ruling)
           && j == RulingRecord(id, model, a.state.cost, ceiling, ruling)
           && l.state == a.state.(cost := a.state.cost + CostOfRuling(ruling))
         case OutageRaised =>
           && ruling.Refusal? && ruling.outage
           && l.state == Apply(a.state, JudgeInterrupted(ruling.billed))
         case CrashRaised => ruling.Crash?
  }

  ghost function JudgeLandings(
      id: string, model: string, rulings: nat -> Ruling, maxCalls: int, ceiling: int, a: Spot): iset<JudgeLanding>
  {
    iset l | JudgeLands(id, model, rulings, maxCalls, ceiling, a, l)
  }

  /** Calls the judge once; every call failure becomes a visible wrong. */
  method JudgeOne(q: Question, model: string, maxCalls: int, ceiling: int, judge: Judge, state: RunState)
    returns (end: JudgeEnd)
    modifies judge, state`cost, state`interruptedUsages, state`interruptedJudgeCalls
    ensures JudgeLanding(end, judge.calls, state.Value())
         in JudgeLandings(q.itemId, model, judge.rulings, maxCalls, ceiling, old(Spot(judge.calls, state.Value())))
    ensures end.CallGuard? <==>
      || old(state.interruptedJudgeCalls + Total(JudgeCalls(state.judges))) >= maxCalls
      || ceiling <= 0 || old(state.cost) >= ceiling
  {
    var called := SumValues(JudgeCalls(state.judges));
    if state.interruptedJudgeCalls + called >= maxCalls {
      return CallGuard;
    }
    if ceiling <= 0 || state.cost >= ceiling {
      return CallGuard;
    }
    var ruling := judge.Rule();
    match ruling {
      case Unaccounted =>
        end := Verdict(JudgeRecord(q.itemId, Wrong, true, None, Some(Accounting)));
      case Garbled =>
        end := Verdict(JudgeRecord(q.itemId, Wrong, true, None, Some(JudgeFailure)));
      case Refusal(billed, outage) =>
        if billed.Some? { state.cost := state.cost + billed.value.cost; }
        if outage {
          OneBilledCost(billed);
          if billed.Some? { state.interruptedUsages := state.interruptedUsages + [billed.value]; }
          state.interruptedJudgeCalls := state.interruptedJudgeCalls + 1;
          return OutageRaised;
        }
        var mismatch := billed.Some? && billed.value.model != model;
        end := Verdict(JudgeRecord(q.itemId, Wrong, true, billed, Some(if mismatch then Accounting else JudgeFailure)));
      case Ruled(u, verdict) =>
        state.cost := state.cost + u.cost;
        if u.model != model || state.cost > ceiling {
          return Verdict(JudgeRecord(q.itemId, Wrong, true, Some(u), Some(Accounting)));
        }
        end := Verdict(JudgeRecord(q.itemId, verdict, true, Some(u), None));
      case Crash =>
        end := CrashRaised;
    }
  }

  lemma OneBilledCost(billed: Option<Usage>)
    ensures Cost(BilledUsages(billed)) == UsageCost(billed)
  {
    if billed.Some? { CostOfOne(billed.value); }
  }

  // ---- one sample ----

  /** The spots reached from `a` with every judge call in between paid for in
      the checkpoint, and nothing but the judging touched. */
  ghost predicate Judged(rulings: nat -> Ruling, ceiling: int, a: Spot, b: Spot) {
    && a.calls <= b.calls
    && b.state.cost == a.state.cost + Fees(rulings, a.calls, b.calls)
    && JudgeCallTotal(b.state) == JudgeCallTotal(a.state) + b.calls - a.calls
    && (b.calls > a.calls ==> b.state.cost < ceiling + CostOfRuling(rulings(b.calls - 1)))
    && b.state.answers == a.state.answers
    && b.state.ingests == a.state.ingests
    && b.state.readiness == a.state.readiness
    && b.state.preflightUsages == a.state.preflightUsages
    && b.state.interruptedAnswerCalls == a.state.interruptedAnswerCalls
  }

  ghost function JudgedFrom(rulings: nat -> Ruling, ceiling: int, a: Spot): iset<Spot> {
    iset b | Judged(rulings, ceiling, a, b)
  }

  lemma JudgedNothing(rulings: nat -> Ruling, ceiling: int, a: Spot)
    ensures a in JudgedFrom(rulings, ceiling, a)
  {
  }

  lemma JudgedTwice(rulings: nat -> Ruling, ceiling: int, a: Spot, b: Spot, c: Spot)
    requires b in JudgedFrom(rulings, ceiling, a) && c in JudgedFrom(rulings, ceiling, b)
    ensures c in JudgedFrom(rulings, ceiling, a)
  {
    FeesAdd(rulings, a.calls, b.calls, c.calls);
  }

  lemma JudgedCallsAreCounted(rulings: nat -> Ruling, ceiling: int, a: Spot, b: Spot)
    requires b in JudgedFrom(rulings, ceiling, a)
    ensures b.calls >= a.calls && b.state.answers == a.state.answers
    ensures JudgeCallTotal(b.state) == JudgeCallTotal(a.state) + b.calls - a.calls
  {
  }

  /** A failed answer is wrong without a call. */
  lemma LocalWrongPays(p: Plan, rulings: nat -> Ruling, ceiling: int, a: Spot, id: string)
    requires id in a.state.answers && id !in a.state.judges
    requires a.state.answers[id].itemId == id && a.state.answers[id].failure.Some?
    ensures
      var t := a.state.(judges := a.state.judges[id := LocalWrong(id)]);
      && Enabled(p, a.state, JudgeSaved(LocalWrong(id)))
      && t == Apply(a.state, JudgeSaved(LocalWrong(id)))
      && Spot(a.calls, t) in JudgedFrom(rulings, ceiling, a)
  {
    AddJudgeCalls(a.state.judges, id, LocalWrong(id));
  }

  lemma VerdictPays(
      p: Plan, model: string, rulings: nat -> Ruling, maxCalls: int, ceiling: int, a: Spot, id: string, l: JudgeLanding)
    requires id in a.state.answers && id !in a.state.judges && a.state.answers[id].failure.None?
    requires l in JudgeLandings(id, model, rulings, maxCalls, ceiling, a) && l.end.Verdict?
    ensures
      var t := l.state.(judges := l.state.judges[id := l.end.record]);
      && Enabled(p, a.state, JudgeSaved(l.end.record))
      && t == Apply(a.state, JudgeSaved(l.end.record))
      && t.judges.Keys == a.state.judges.Keys + {id}
      && Spot(l.calls, t) in JudgedFrom(rulings, ceiling, a)
  {
    AddJudgeCalls(a.state.judges, id, l.end.record);
    RulingIsRecorded(id, model, a.state.cost, ceiling, rulings(a.calls));
    FeeOfOne(rulings, a.calls);
  }

  lemma OutageIsBilled(
      p: Plan, model: string, rulings: nat -> Ruling, maxCalls: int, ceiling: int, a: Spot, id: string, l: JudgeLanding)
    requires l in JudgeLandings(id, model, rulings, maxCalls, ceiling, a) && l.end.OutageRaised?
    ensures
      var e := JudgeInterrupted(rulings(a.calls).billed);
      && Enabled(p, a.state, e)
      && l.state == Apply(a.state, e)
      && Spot(l.calls, l.state) in JudgedFrom(rulings, ceiling, a)
  {
    OneBilledCost(rulings(a.calls).billed);
    FeeOfOne(rulings, a.calls);
  }

  /** What a judge call does to the counters, whatever comes back. */
  lemma LandingCounts(
      model: string, rulings: nat -> Ruling, maxCalls: int, ceiling: int, a: Spot, id: string, l: JudgeLanding)
    requires l in JudgeLandings(id, model, rulings, maxCalls, ceiling, a)
    ensures l.end.CallGuard? <==> !MayJudge(a.state, maxCalls, ceiling)
    ensures l.calls == a.calls + if l.end.CallGuard? then 0 else 1
    ensures l.end.Verdict? || l.end.CallGuard? ==> l.state.judges == a.state.judges
    ensures l.end.Verdict? <==> MayJudge(a.state, maxCalls, ceiling) && !JudgeHitch(rulings(a.calls))
  {
  }

  /** Where a judge call leaves the stage is where its step leads. */
  lemma LandingMoves(w: Bench, q: Question, a: Spot, l: JudgeLanding)
    requires l in JudgeLandings(q.itemId, w.model, w.rulings, w.maxCalls, w.ceiling, a)
    requires q.itemId in a.state.answers && q.itemId !in a.state.judges && a.state.answers[q.itemId].failure.None?
    ensures l.end.Verdict? ==>
      Spot(l.calls, l.state.(judges := l.state.judges[q.itemId := l.end.record])) in NextSpots(w, q, a)
    ensures l.end.OutageRaised? ==> StageResult(Interrupted, l.state) in JudgeStops(w, q, a)
    ensures l.end.CallGuard? ==> StageResult(GuardFired, a.state) in JudgeStops(w, q, a)
    ensures l.end.CrashRaised? ==> StageResult(Broke, a.state) in JudgeStops(w, q, a)
  {
  }

  lemma LocalWrongMoves(w: Bench, q: Question, a: Spot)
    requires q.itemId in a.state.answers && q.itemId !in a.state.judges && a.state.answers[q.itemId].failure.Some?
    ensures Spot(a.calls, a.state.(judges := a.state.judges[q.itemId := LocalWrong(q.itemId)])) in NextSpots(w, q, a)
  {
  }

  lemma JudgedMoves(w: Bench, q: Question, a: Spot)
    requires q.itemId in a.state.judges
    ensures a in NextSpots(w, q, a)
  {
  }

  /** Keeps the verdict on a generated answer. */
  method SaveVerdict(
      dir: RunDirectory, state: RunState, record: JudgeRecord,
      ghost maxCalls: int, ghost rulings: nat -> Ruling, ghost ceiling: int, ghost a: Spot, ghost l: JudgeLanding,
      id: string)
    requires dir.Valid() && a.state == dir.saved && state.Value() == l.state && l.end == Verdict(record)
    requires id in dir.saved.answers && id !in dir.saved.judges && dir.saved.answers[id].failure.None?
    requires l in JudgeLandings(id, dir.plan.judgeModel, rulings, maxCalls, ceiling, a)
    modifies dir, state`judges
    ensures dir.Valid() && dir.Saves() == old(dir.Saves()) + [dir.saved]
    ensures state.Value() == dir.saved && dir.saved.judges.Keys == old(dir.saved.judges.Keys) + {id}
    ensures dir.saved == l.state.(judges := l.state.judges[id := record])
    ensures Spot(l.calls, dir.saved) in JudgedFrom(rulings, ceiling, a)
  {
    VerdictPays(dir.plan, dir.plan.judgeModel, rulings, maxCalls, ceiling, a, id, l);
    state.judges := state.judges[id := record];
    dir.Save(state, JudgeSaved(record));
  }

  /** Sends one generated answer to the judge and makes the outcome durable. */
  method JudgeGenerated(
      dir: RunDirectory, state: RunState, q: Question, maxCalls: int, ceiling: int, judge: Judge)
    returns (stop: Option<StageEnd>, ghost settled: nat)
    requires dir.Valid() && state.Value() == dir.saved
    requires q.itemId in dir.saved.answers && q.itemId !in dir.saved.judges
    requires dir.saved.answers[q.itemId].failure.None?
    modifies dir, state, judge
    ensures dir.Valid() && old(dir.Saves()) <= dir.Saves()
    ensures Spot(settled, dir.saved) in JudgedFrom(judge.rulings, ceiling, old(Spot(judge.calls, dir.saved)))
    ensures if stop == Some(Broke) then settled < judge.calls <= settled + 1 else settled == judge.calls
    ensures old(judge.calls) <= judge.calls <= old(judge.calls) + 1
    ensures stop == None ==>
      state.Value() == dir.saved && dir.saved.judges.Keys == old(dir.saved.judges.Keys) + {q.itemId}
    ensures stop.Some? ==> !stop.value.Completed? && !stop.value.Refused?
    ensures stop == None || stop == Some(GuardFired) || EndsInJudgeHitch(judge.rulings, old(judge.calls), judge.calls)
    ensures stop == Some(GuardFired) ==> dir.saved == old(dir.saved) && !MayJudge(dir.saved, maxCalls, ceiling)
    ensures stop == None <==>
      MayJudge(old(dir.saved), maxCalls, ceiling) && !JudgeHitch(judge.rulings(old(judge.calls)))
    ensures stop == None ==>
      Spot(judge.calls, dir.saved)
      in NextSpots(Bench(dir.plan.judgeModel, maxCalls, ceiling, judge.rulings), q, old(Spot(judge.calls, dir.saved)))
    ensures stop.Some? ==>
      StageResult(stop.value, dir.saved)
      in JudgeStops(Bench(dir.plan.judgeModel, maxCalls, ceiling, judge.rulings), q, old(Spot(judge.calls, dir.saved)))
  {
    ghost var rulings, a := judge.rulings, Spot(judge.calls, dir.saved);
    var model := dir.plan.judgeModel;
    var end := JudgeOne(q, model, maxCalls, ceiling, judge, state);
    ghost var l := JudgeLanding(end, judge.calls, state.Value());
    LandingCounts(model, rulings, maxCalls, ceiling, a, q.itemId, l);
    LandingMoves(Bench(model, maxCalls, ceiling, rulings), q, a, l);
    settled := if end.CrashRaised? then a.calls else judge.calls;
    JudgedNothing(rulings, ceiling, a);
    match end {
      case Verdict(record) =>
        SaveVerdict(dir, state, record, maxCalls, rulings, ceiling, a, l, q.itemId);
        stop := None;
      case OutageRaised =>
        OutageIsBilled(dir.plan, model, rulings, maxCalls, ceiling, a, q.itemId, l);
        dir.Save(state, JudgeInterrupted(rulings(a.calls).billed));
        stop := Some(Interrupted);
      case CallGuard =>
        stop := Some(GuardFired);
      case CrashRaised =>
        stop := Some(Broke);
    }
  }

  /** Judges one answered question and makes the outcome durable; an answer
      that failed is wrong without a call. */
  method JudgeNext(
      dir: RunDirectory, state: RunState, q: Question, maxCalls: int, ceiling: int, judge: Judge)
    returns (stop: Option<StageEnd>, ghost settled: nat)
    requires dir.Valid() && state.Value() == dir.saved
    requires q.itemId in dir.saved.answers && q.itemId !in dir.saved.judges
    modifies dir, state, judge
    ensures dir.Valid() && old(dir.Saves()) <= dir.Saves()
    ensures Spot(settled, dir.saved) in JudgedFrom(judge.rulings, ceiling, old(Spot(judge.calls, dir.saved)))
    ensures if stop == Some(Broke) then settled < judge.calls <= settled + 1 else settled == judge.calls
    ensures old(judge.calls) <= judge.calls <= old(judge.calls) + 1
    ensures old(dir.saved.answers[q.itemId].failure.Some?) ==> judge.calls == old(judge.calls) && stop == None
    ensures stop == None ==>
      state.Value() == dir.saved && dir.saved.judges.Keys == old(dir.saved.judges.Keys) + {q.itemId}
    ensures stop.Some? ==> !stop.value.Completed? && !stop.value.Refused?
    ensures stop == None || stop == Some(GuardFired) || EndsInJudgeHitch(judge.rulings, old(judge.calls), judge.calls)
    ensures stop == Some(GuardFired) ==> dir.saved == old(dir.saved) && !MayJudge(dir.saved, maxCalls, ceiling)
    ensures old(dir.saved.answers[q.itemId].failure.None?) ==>
      (stop == None <==> MayJudge(old(dir.saved), maxCalls, ceiling) && !JudgeHitch(judge.rulings(old(judge.calls))))
    ensures stop == None ==>
      Spot(judge.calls, dir.saved)
      in NextSpots(Bench(dir.plan.judgeModel, maxCalls, ceiling, judge.rulings), q, old(Spot(judge.calls, dir.saved)))
    ensures stop.Some? ==>
      StageResult(stop.value, dir.saved)
      in JudgeStops(Bench(dir.plan.judgeModel, maxCalls, ceiling, judge.rulings), q, old(Spot(judge.calls, dir.saved)))
  {
    if state.answers[q.itemId].failure.None? {
      stop, settled := JudgeGenerated(dir, state, q, maxCalls, ceiling, judge);
      return;
    }
    AnswerIsFiled(dir.plan, dir.past, dir.saved, q.itemId);
    LocalWrongPays(dir.plan, judge.rulings, ceiling, Spot(judge.calls, dir.saved), q.itemId);
    state.judges := state.judges[q.itemId := LocalWrong(q.itemId)];
    dir.Save(state, JudgeSaved(LocalWrong(q.itemId)));
    LocalWrongMoves(Bench(dir.plan.judgeModel, maxCalls, ceiling, judge.rulings), q, Spot(judge.calls, old(dir.saved)));
    stop, settled := None, judge.calls;
  }

  lemma AnswerIsFiled(p: Plan, past: seq<State>, s: State, id: string)
    requires past + [s] in Histories(p) && id in s.answers
    ensures s.answers[id].itemId == id
  {
    DirectoryIsKept(p, past, s);
  }

  /** The spots from which `n` more judge calls cannot reach the threshold. */
  ghost predicate FeesCovered(rulings: nat -> Ruling, ceiling: int, n: nat, a: Spot) {
    0 < ceiling && a.state.cost + Fees(rulings, a.calls, a.calls + n) < ceiling
  }

  ghost function Covered(rulings: nat -> Ruling, ceiling: int, n: nat): iset<Spot> {
    iset a | FeesCovered(rulings, ceiling, n, a)
  }

  ghost predicate NeverStops(rulings: nat -> Ruling) {
    forall k :: !JudgeHitch(rulings(k))
  }

  /** The judges that never stop the run. */
  ghost function Steady(): iset<nat -> Ruling> {
    iset rulings | NeverStops(rulings)
  }

  /** The judge never stops the run, and `n` calls cannot reach the threshold. */
  ghost predicate SureToJudge(rulings: nat -> Ruling, ceiling: int, n: nat, a: Spot) {
    rulings in Steady() && a in Covered(rulings, ceiling, n)
  }

  lemma CoveredMayJudge(rulings: nat -> Ruling, ceiling: int, n: nat, maxCalls: int, a: Spot)
    requires a in Covered(rulings, ceiling, n) && JudgeCallTotal(a.state) < maxCalls
    ensures MayJudge(a.state, maxCalls, ceiling)
  {
  }

  lemma CoveredAfter(rulings: nat -> Ruling, ceiling: int, n: nat, needed: nat, a: Spot, b: Spot)
    requires a in Covered(rulings, ceiling, needed + n)
    requires b in JudgedFrom(rulings, ceiling, a) && b.calls <= a.calls + needed
    ensures b in Covered(rulings, ceiling, n)
  {
    FeesAdd(rulings, a.calls, b.calls, b.calls + n);
    FeesAdd(rulings, a.calls, b.calls + n, a.calls + (needed + n));
  }

  /** The spots a stage may reach with `room` judge calls to go: paid for, and
      with room for those calls under the ceiling. */
  ghost function JudgeUnder(rulings: nat -> Ruling, ceiling: int, start: Spot, room: nat, maxCalls: int): iset<Spot> {
    iset b | b in JudgedFrom(rulings, ceiling, start) && JudgeCallTotal(b.state) + room <= maxCalls
  }

  lemma JudgeUnderIs(rulings: nat -> Ruling, ceiling: int, start: Spot, room: nat, maxCalls: int, b: Spot)
    ensures b in JudgeUnder(rulings, ceiling, start, room, maxCalls)
       <==> b in JudgedFrom(rulings, ceiling, start) && JudgeCallTotal(b.state) + room <= maxCalls
  {
  }

  lemma JudgeUnderAfter(
      rulings: nat -> Ruling, ceiling: int, start: Spot, needed: nat, room: nat, maxCalls: int, a: Spot, b: Spot)
    requires a in JudgeUnder(rulings, ceiling, start, needed + room, maxCalls)
    requires b in JudgedFrom(rulings, ceiling, a) && b.calls <= a.calls + needed
    ensures b in JudgedFrom(rulings, ceiling, start) && b in JudgeUnder(rulings, ceiling, start, room, maxCalls)
    ensures b.state.answers == a.state.answers
    ensures needed > 0 ==> JudgeCallTotal(a.state) < maxCalls
    ensures JudgeCallTotal(start.state) + a.calls - start.calls + needed + room <= maxCalls
  {
    JudgeUnderIs(rulings, ceiling, start, needed + room, maxCalls, a);
    JudgedTwice(rulings, ceiling, start, a, b);
    JudgedCallsAreCounted(rulings, ceiling, start, a);
    JudgedCallsAreCounted(rulings, ceiling, a, b);
    JudgeUnderIs(rulings, ceiling, start, room, maxCalls, b);
  }

  lemma CoveredOnward(
      rulings: nat -> Ruling, ceiling: int, needed: nat, room: nat, maxCalls: int, a: Spot, b: Spot)
    requires b in JudgedFrom(rulings, ceiling, a) && b.calls <= a.calls + needed
    requires needed > 0 ==> JudgeCallTotal(a.state) < maxCalls
    ensures SureToJudge(rulings, ceiling, needed + room, a) ==>
      && b in Covered(rulings, ceiling, room)
      && (needed > 0 ==> MayJudge(a.state, maxCalls, ceiling) && !JudgeHitch(rulings(a.calls)))
  {
    if a in Covered(rulings, ceiling, needed + room) {
      CoveredAfter(rulings, ceiling, room, needed, a, b);
      if needed > 0 { CoveredMayJudge(rulings, ceiling, needed + room, maxCalls, a); }
    }
  }

  /** The judge calls that the questions from number `i` on need. */
  function OpenFrom(
      questions: seq<Question>, i: nat, answers: map<string, AnswerRecord>, judges: map<string, JudgeRecord>): nat
    requires i <= |questions|
  {
    OpenCalls(questions[i..], answers, judges)
  }

  lemma OpenStep(questions: seq<Question>, i: nat, answers: map<string, AnswerRecord>, judges: map<string, JudgeRecord>)
    requires i < |questions|
    ensures OpenFrom(questions, i, answers, judges)
         == AnswerLoop.Count(Open(questions[i], answers, judges)) + OpenFrom(questions, i + 1, answers, judges)
  {
    assert questions[i..][1..] == questions[i + 1..];
  }

  /** Judges one answered question, unless it has a verdict. */
  method JudgeUnlessJudged(
      dir: RunDirectory, state: RunState, q: Question, maxCalls: int, ceiling: int, judge: Judge)
    returns (stop: Option<StageEnd>, ghost settled: nat)
    requires dir.Valid() && state.Value() == dir.saved
    requires q.itemId in dir.saved.answers
    modifies dir, state, judge
    ensures dir.Valid() && old(dir.Saves()) <= dir.Saves()
    ensures Spot(settled, dir.saved) in JudgedFrom(judge.rulings, ceiling, old(Spot(judge.calls, dir.saved)))
    ensures if stop == Some(Broke) then settled < judge.calls <= settled + 1 else settled == judge.calls
    ensures old(judge.calls) <= judge.calls
    ensures judge.calls <= old(judge.calls + AnswerLoop.Count(Open(q, dir.saved.answers, dir.saved.judges)))
    ensures stop == None ==>
      state.Value() == dir.saved && dir.saved.judges.Keys == old(dir.saved.judges.Keys) + {q.itemId}
    ensures stop.Some? ==> !stop.value.Completed? && !stop.value.Refused?
    ensures stop == None || stop == Some(GuardFired) || EndsInJudgeHitch(judge.rulings, old(judge.calls), judge.calls)
    ensures stop == Some(GuardFired) ==> dir.saved == old(dir.saved) && !MayJudge(dir.saved, maxCalls, ceiling)
    ensures stop == None <==> old(Open(q, dir.saved.answers, dir.saved.judges)) ==>
      MayJudge(old(dir.saved), maxCalls, ceiling) && !JudgeHitch(judge.rulings(old(judge.calls)))
    ensures stop == None ==>
      Spot(judge.calls, dir.saved)
      in NextSpots(Bench(dir.plan.judgeModel, maxCalls, ceiling, judge.rulings), q, old(Spot(judge.calls, dir.saved)))
    ensures stop.Some? ==>
      StageResult(stop.value, dir.saved)
      in JudgeStops(Bench(dir.plan.judgeModel, maxCalls, ceiling, judge.rulings), q, old(Spot(judge.calls, dir.saved)))
  {
    if q.itemId in state.judges {
      stop, settled := None, judge.calls;
      JudgedNothing(judge.rulings, ceiling, Spot(judge.calls, dir.saved));
      JudgedMoves(Bench(dir.plan.judgeModel, maxCalls, ceiling, judge.rulings), q, Spot(judge.calls, dir.saved));
      return;
    }
    stop, settled := JudgeNext(dir, state, q, maxCalls, ceiling, judge);
  }

  /** Judges one question, seen from where the stage started; `room` is what
      the questions after it need, and `ahead` what it needs as well. */
  method JudgeOnward(
      dir: RunDirectory, state: RunState, questions: seq<Question>, i: nat, maxCalls: int, ceiling: int, judge: Judge,
      ghost start: Spot, ghost ahead: nat, ghost room: nat, ghost w: Bench, ghost result: StageResult)
    returns (stop: Option<StageEnd>, ghost settled: nat)
    requires dir.Valid() && state.Value() == dir.saved
    requires i < |questions| && questions[i].itemId in dir.saved.answers
    requires w == Bench(dir.plan.judgeModel, maxCalls, ceiling, judge.rulings)
    requires result in JudgeResults(w, questions[i..], Spot(judge.calls, dir.saved))
    requires ahead == AnswerLoop.Count(Open(questions[i], dir.saved.answers, dir.saved.judges)) + room
    requires Spot(judge.calls, dir.saved) in JudgeUnder(judge.rulings, ceiling, start, ahead, maxCalls)
    modifies dir, state, judge
    ensures dir.Valid() && old(dir.Saves()) <= dir.Saves()
    ensures old(judge.calls) <= judge.calls
    ensures JudgeCallTotal(start.state) + judge.calls - start.calls <= maxCalls
    ensures Spot(settled, dir.saved) in JudgedFrom(judge.rulings, ceiling, start)
    ensures if stop == Some(Broke) then settled < judge.calls <= settled + 1 else settled == judge.calls
    ensures stop.Some? ==> !stop.value.Completed? && !stop.value.Refused?
    ensures stop == None || stop == Some(GuardFired) || EndsInJudgeHitch(judge.rulings, old(judge.calls), judge.calls)
    ensures stop == Some(GuardFired) ==> !AnswerLoop.MaySpend(dir.saved.cost, ceiling)
    ensures stop == None ==>
      && state.Value() == dir.saved
      && dir.saved.answers == old(dir.saved.answers)
        && dir.saved.judges.Keys == old(dir.saved.judges.Keys) + {questions[i].itemId}
      && Spot(judge.calls, dir.saved) in JudgeUnder(judge.rulings, ceiling, start, room, maxCalls)
    ensures stop == None ==> result in JudgeResults(w, questions[i + 1..], Spot(judge.calls, dir.saved))
    ensures stop.Some? ==> result == StageResult(stop.value, dir.saved)
    ensures SureToJudge(judge.rulings, ceiling, ahead, old(Spot(judge.calls, dir.saved))) ==>
      stop == None && Spot(judge.calls, dir.saved) in Covered(judge.rulings, ceiling, room)
  {
    ghost var rulings, here := judge.rulings, Spot(judge.calls, dir.saved);
    ghost var needed := AnswerLoop.Count(Open(questions[i], dir.saved.answers, dir.saved.judges));
    stop, settled := JudgeUnlessJudged(dir, state, questions[i], maxCalls, ceiling, judge);
    JudgeUnderAfter(rulings, ceiling, start, needed, room, maxCalls, here, Spot(settled, dir.saved));
    CoveredOnward(rulings, ceiling, needed, room, maxCalls, here, Spot(settled, dir.saved));
    JudgeMoves(w, questions, i, here, stop, Spot(judge.calls, dir.saved), result);
  }

  /** The states in which the questions before number `i` are judged on top of
      `judges`, and the answers are `answers`. */
  ghost function JudgedUpTo(
      questions: seq<Question>, i: nat, answers: map<string, AnswerRecord>,
      judges: map<string, JudgeRecord>): iset<State>
    requires i <= |questions|
  {
    iset s: State | s.answers == answers && s.judges.Keys == judges.Keys + ItemIds(questions[..i])
  }

  predicate AllAnswered(questions: seq<Question>, answers: map<string, AnswerRecord>) {
    forall q :: q in questions ==> q.itemId in answers
  }

  lemma NextOpenCall(
      questions: seq<Question>, i: nat, answers: map<string, AnswerRecord>, judges: map<string, JudgeRecord>, s: State)
    requires ItemsDiffer(questions) && AllAnswered(questions, answers) && i < |questions|
    requires s in JudgedUpTo(questions, i, answers, judges)
    ensures s.answers == answers && questions[i].itemId in s.answers
    ensures OpenFrom(questions, i, answers, judges)
         == AnswerLoop.Count(Open(questions[i], s.answers, s.judges)) + OpenFrom(questions, i + 1, answers, judges)
  {
    OpenStep(questions, i, answers, judges);
    NextItem(questions, i);
  }

  lemma JudgedOneMore(
      questions: seq<Question>, i: nat, answers: map<string, AnswerRecord>, judges: map<string, JudgeRecord>, s: State,
      t: State)
    requires ItemsDiffer(questions) && i < |questions| && s in JudgedUpTo(questions, i, answers, judges)
    requires t.answers == s.answers && t.judges.Keys == s.judges.Keys + {questions[i].itemId}
    ensures t in JudgedUpTo(questions, i + 1, answers, judges)
  {
    NextItem(questions, i);
  }

  /** Judges the questions in order, skipping those that have a verdict. */
  method JudgeAll(
      dir: RunDirectory, state: RunState, questions: seq<Question>, maxCalls: int, ceiling: int, judge: Judge)
    returns (end: StageEnd, ghost settled: nat)
    requires dir.Valid() && state.Value() == dir.saved
    requires ItemsDiffer(questions) && AllAnswered(questions, dir.saved.answers)
    requires JudgeCallTotal(dir.saved) + OpenCalls(questions, dir.saved.answers, dir.saved.judges) <= maxCalls
    modifies dir, state, judge
    ensures dir.Valid() && old(dir.Saves()) <= dir.Saves()
    ensures judge.calls >= old(judge.calls)
    ensures JudgeCallTotal(old(dir.saved)) + judge.calls - old(judge.calls) <= maxCalls
    ensures Spot(settled, dir.saved) in JudgedFrom(judge.rulings, ceiling, old(Spot(judge.calls, dir.saved)))
    ensures if end.Broke? then settled < judge.calls <= settled + 1 else settled == judge.calls
    ensures !end.Refused?
    ensures end.Completed? || end.GuardFired? || EndsInJudgeHitch(judge.rulings, old(judge.calls), judge.calls)
    ensures end.GuardFired? ==> !AnswerLoop.MaySpend(dir.saved.cost, ceiling)
    ensures end.Completed? ==> dir.saved.judges.Keys == old(dir.saved.judges.Keys) + ItemIds(questions)
    ensures old(SureToJudge(
        judge.rulings, ceiling, OpenCalls(questions, dir.saved.answers, dir.saved.judges),
        Spot(judge.calls, dir.saved))) ==>
      end.Completed?
    ensures StageResult(end, dir.saved)
         in JudgeResults(
              Bench(dir.plan.judgeModel, maxCalls, ceiling, judge.rulings), questions,
              old(Spot(judge.calls, dir.saved)))
  {
    ghost var w := Bench(dir.plan.judgeModel, maxCalls, ceiling, judge.rulings);
    ghost var result := JudgeStageOf(w, questions, Spot(judge.calls, dir.saved));
    JudgeBegins(w, questions, Spot(judge.calls, dir.saved));
    ghost var rulings, start := judge.rulings, Spot(judge.calls, dir.saved);
    ghost var answers, judges := dir.saved.answers, dir.saved.judges;
    ghost var room := OpenFrom(questions, 0, answers, judges);
    BeforeJudging(rulings, ceiling, start, questions, maxCalls);
    ghost var sure := SureToJudge(rulings, ceiling, room, start);
    settled := judge.calls;
    for i := 0 to |questions|
      invariant dir.Valid() && old(dir.Saves()) <= dir.Saves()
      invariant state.Value() == dir.saved && settled == judge.calls >= start.calls
      invariant room == OpenFrom(questions, i, answers, judges)
      invariant Spot(judge.calls, dir.saved) in JudgeUnder(rulings, ceiling, start, room, maxCalls)
      invariant sure ==> Spot(judge.calls, dir.saved) in Covered(rulings, ceiling, room)
      invariant result in JudgeResults(w, questions[i..], Spot(judge.calls, dir.saved))
      invariant dir.saved in JudgedUpTo(questions, i, answers, judges)
    {
      ghost var here, ahead, mid := dir.saved, room, judge.calls;
      NextOpenCall(questions, i, answers, judges, here);
      room := OpenFrom(questions, i + 1, answers, judges);
      var stop;
      stop, settled := JudgeOnward(dir, state, questions, i, maxCalls, ceiling, judge, start, ahead, room, w, result);
      JudgeHitchWithin(rulings, old(judge.calls), mid, judge.calls);
      if stop.Some? {
        return stop.value, settled;
      }
      JudgedOneMore(questions, i, answers, judges, here, dir.saved);
    }
    AllJudged(questions, answers, judges, dir.saved);
    EndUnder(rulings, ceiling, start, room, maxCalls, Spot(judge.calls, dir.saved));
    JudgeCompletes(w, questions, Spot(judge.calls, dir.saved), result);
    end := Completed;
  }

  lemma BeforeJudging(rulings: nat -> Ruling, ceiling: int, start: Spot, questions: seq<Question>, maxCalls: int)
    ensures
      var answers, judges := start.state.answers, start.state.judges;
      && OpenFrom(questions, 0, answers, judges) == OpenCalls(questions, answers, judges)
      && start.state in JudgedUpTo(questions, 0, answers, judges)
      && start in JudgedFrom(rulings, ceiling, start)
      && (JudgeCallTotal(start.state) + OpenCalls(questions, answers, judges) <= maxCalls
          ==> start in JudgeUnder(rulings, ceiling, start, OpenFrom(questions, 0, answers, judges), maxCalls))
  {
    assert questions[0..] == questions;
    JudgedNothing(rulings, ceiling, start);
  }

  lemma AllJudged(
      questions: seq<Question>, answers: map<string, AnswerRecord>, judges: map<string, JudgeRecord>, s: State)
    requires s in JudgedUpTo(questions, |questions|, answers, judges)
    ensures s.judges.Keys == judges.Keys + ItemIds(questions)
  {
    assert questions[..|questions|] == questions;
  }

  lemma EndUnder(rulings: nat -> Ruling, ceiling: int, start: Spot, room: nat, maxCalls: int, b: Spot)
    requires b in JudgeUnder(rulings, ceiling, start, room, maxCalls)
    ensures b in JudgedFrom(rulings, ceiling, start) && JudgeCallTotal(start.state) + b.calls - start.calls <= maxCalls
  {
    JudgeUnderIs(rulings, ceiling, start, room, maxCalls, b);
    JudgedCallsAreCounted(rulings, ceiling, start, b);
  }

  method CountOpen(questions: seq<Question>, answers: map<string, AnswerRecord>, judges: map<string, JudgeRecord>)
    returns (n: nat)
    ensures n == OpenCalls(questions, answers, judges)
  {
    n := 0;
    assert questions[0..] == questions;
    for i := 0 to |questions|
      invariant n + OpenCalls(questions[i..], answers, judges) == OpenCalls(questions, answers, judges)
    {
      assert questions[i..][1..] == questions[i + 1..];
      if Open(questions[i], answers, judges) { n := n + 1; }
    }
  }

  /** What the judge stage demands: a complete answer stage, and budgets that
      cover its open calls. */
  ghost predicate MayJudgeSample(p: Plan, s: State, sampleId: string, admitted: bool, maxCalls: int, ceiling: int) {
    var questions := SampleQuestions(p.manifest, sampleId);
    && admitted && questions != []
    && AllAnswered(questions, s.answers)
    && JudgeCallTotal(s) + OpenCalls(questions, s.answers, s.judges) <= maxCalls
    && 0 < ceiling && s.cost <= ceiling
  }

  lemma {:induction false} OpenCallsSum(
      questions: seq<Question>, answers: map<string, AnswerRecord>, judges: map<string, JudgeRecord>,
      f: Question -> int)
    requires forall q :: f(q) == AnswerLoop.Count(Open(q, answers, judges))
    ensures OpenCalls(questions, answers, judges) == SeqSum(questions, f)
  {
    if questions != [] { OpenCallsSum(questions[1..], answers, judges, f); }
  }

  /** The calls that a sample's questions need are as many as there are questions
      answered without a failure and not yet judged. */
  lemma OpenCallsAre(questions: seq<Question>, answers: map<string, AnswerRecord>, judges: map<string, JudgeRecord>)
    requires Distinct(questions)
    ensures OpenCalls(questions, answers, judges) ==
      |set q | q in questions && q.itemId in answers && answers[q.itemId].failure == None && q.itemId !in judges|
  {
    var p := (q: Question) => Open(q, answers, judges);
    var f := (q: Question) => AnswerLoop.Count(p(q)) as int;
    OpenCallsSum(questions, answers, judges, f);
    HowManyAsSum(questions, p, f);
    HowManyIsSize(questions, p);
    assert Having(questions, p) ==
      set q | q in questions && q.itemId in answers && answers[q.itemId].failure == None && q.itemId !in judges;
  }

  /** What a judge stage is not refused for, in elementary terms: the sample is
      admitted and has questions, all of them answered, and the calls it still needs
      fit under the ceiling with the spend not beyond the threshold. */
  lemma JudgeAdmissionTells(p: Plan, s: State, sampleId: string, admitted: bool, maxCalls: int, ceiling: int)
    ensures MayJudgeSample(p, s, sampleId, admitted, maxCalls, ceiling) <==>
      && admitted
      && (exists q :: q in p.manifest && q.sampleId == sampleId)
      && (forall q :: q in p.manifest && q.sampleId == sampleId ==> q.itemId in s.answers)
      && s.interruptedJudgeCalls + Total(JudgeCalls(s.judges))
         + OpenCalls(SampleQuestions(p.manifest, sampleId), s.answers, s.judges) <= maxCalls
      && ceiling > 0 && s.cost <= ceiling
  {
    var questions := SampleQuestions(p.manifest, sampleId);
    SampleQuestionsAre(p.manifest, sampleId);
    if questions != [] { assert questions[0] in questions; }
  }

  /** Judges one sample's answers, once its answer stage is complete. Whatever
      the judge charged is in the checkpoint when the stage ends; an exception
      nobody handles loses one call's charge at most. The call ceiling is never
      exceeded, and the only guard that can stop a later question is the spend
      threshold. A stage that is not refused completes, if the judge never stops
      the run and its open calls cannot reach the threshold. */
  method JudgeSample(
      dir: RunDirectory, sampleId: string, admitted: bool, maxCalls: int, ceiling: int, judge: Judge)
    returns (end: StageEnd, ghost settled: nat)
    requires dir.Valid()
    modifies dir, judge
    ensures dir.Valid() && old(dir.Saves()) <= dir.Saves()
    ensures judge.calls >= old(judge.calls)
    ensures Spot(settled, dir.saved) in JudgedFrom(judge.rulings, ceiling, old(Spot(judge.calls, dir.saved)))
    ensures if end.Broke? then settled < judge.calls <= settled + 1 else settled == judge.calls
    ensures end.Refused? ==> judge.calls == old(judge.calls) && dir.saved == old(dir.saved)
    ensures !end.Refused? ==> JudgeCallTotal(old(dir.saved)) + judge.calls - old(judge.calls) <= maxCalls
    ensures end.GuardFired? ==> !AnswerLoop.MaySpend(dir.saved.cost, ceiling)
    ensures end.Completed? || end.Refused? || end.GuardFired?
      || EndsInJudgeHitch(judge.rulings, old(judge.calls), judge.calls)
    ensures end.Completed? ==>
      forall q :: q in SampleQuestions(dir.plan.manifest, sampleId) ==> q.itemId in dir.saved.judges
    ensures !end.Refused? <==> MayJudgeSample(dir.plan, old(dir.saved), sampleId, admitted, maxCalls, ceiling)
    ensures old(SureToJudge(
        judge.rulings, ceiling,
        OpenCalls(SampleQuestions(dir.plan.manifest, sampleId), dir.saved.answers, dir.saved.judges),
        Spot(judge.calls, dir.saved))) ==>
      end.Refused? || end.Completed?
    // The verdicts and the end are those that the rulings lead to, in order.
    ensures !end.Refused? ==>
      StageResult(end, dir.saved)
      in JudgeResults(
           Bench(dir.plan.judgeModel, maxCalls, ceiling, judge.rulings),
           SampleQuestions(dir.plan.manifest, sampleId), old(Spot(judge.calls, dir.saved)))
    ensures !end.Refused? ==>
      LeavesVerdicts(
        Bench(dir.plan.judgeModel, maxCalls, ceiling, judge.rulings),
        SampleQuestions(dir.plan.manifest, sampleId), old(Spot(judge.calls, dir.saved)), StageResult(end, dir.saved))
  {
    ghost var w, at := Bench(dir.plan.judgeModel, maxCalls, ceiling, judge.rulings), Spot(judge.calls, dir.saved);
    JudgedNothing(judge.rulings, ceiling, Spot(judge.calls, dir.saved));
    var state := Load(dir);
    var questions := SampleQuestions(dir.plan.manifest, sampleId);
    if !admitted || questions == [] {
      return Refused, judge.calls;
    }
    if exists q :: q in questions && q.itemId !in state.answers {
      return Refused, judge.calls;
    }
    var remaining := CountOpen(questions, state.answers, state.judges);
    var called := SumValues(JudgeCalls(state.judges));
    if state.interruptedJudgeCalls + called + remaining > maxCalls {
      return Refused, judge.calls;
    }
    if ceiling <= 0 || ceiling < state.cost {
      return Refused, judge.calls;
    }
    SampleItemsDiffer(dir.plan, dir.Saves(), sampleId);
    end, settled := JudgeAll(dir, state, questions, maxCalls, ceiling, judge);
    assert end.Completed? ==> forall q :: q in questions ==> q.itemId in ItemIds(questions);
    VerdictsAreLeft(w, questions, at, StageResult(end, dir.saved));
  }

  lemma SampleItemsDiffer(p: Plan, h: seq<State>, sampleId: string)
    requires h in Histories(p)
    ensures ItemsDiffer(SampleQuestions(p.manifest, sampleId))
  {
    var all := SampleQuestions(p.manifest, sampleId);
    PlannedQuestions(p, h, sampleId, map[]);
    UnansweredIsAll(all);
    assert Unanswered(all, map[]) == all;
  }

  lemma {:induction false} UnansweredIsAll(questions: seq<Question>)
    ensures Unanswered(questions, map[]) == questions
  {
    if questions != [] { UnansweredIsAll(questions[1..]); }
  }
}
