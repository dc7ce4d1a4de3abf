// A whole judge stage as a function of what the judge will rule: which verdict
// each answer gets, where the stage ends, and what the checkpoint then holds.

module JudgeRuns {
  import opened Wrappers
  import opened Records
  import AnswerLoop
  import opened RunHistory
  import opened StageRuns

  /** What one judge call can come to. */
  datatype Ruling =
    | Unaccounted                                     // a paid reply without usage
    | Garbled                                         // schema validation failed
    | Refusal(billed: Option<Usage>, outage: bool)    // any other call error
    | Ruled(usage: Usage, verdict: Label)
    | Crash                                           // any exception nobody handles

  function CostOfRuling(ruling: Ruling): nat {
    match ruling
    case Refusal(billed, _) => UsageCost(billed)
    case Ruled(u, _) => u.cost
    case _ => 0
  }

  /** The judge may be called once more. */
  ghost predicate MayJudge(s: State, maxCalls: int, ceiling: int) {
    JudgeCallTotal(s) < maxCalls && AnswerLoop.MaySpend(s.cost, ceiling)
  }

  /** A ruling that stops the run: an outage, or an exception nobody handles. */
  predicate JudgeHitch(ruling: Ruling) {
    ruling.Crash? || (ruling.Refusal? && ruling.outage)
  }

  /** The last of these rulings stops the run. */
  predicate EndsInJudgeHitch(rulings: nat -> Ruling, lo: nat, hi: nat) {
    hi > lo && JudgeHitch(rulings(hi - 1))
  }

  lemma JudgeHitchWithin(rulings: nat -> Ruling, lo: nat, mid: nat, hi: nat)
    requires lo <= mid
    ensures EndsInJudgeHitch(rulings, mid, hi) ==> EndsInJudgeHitch(rulings, lo, hi)
  {
  }

  /** A ruling that counts: from the pinned model, within the threshold. */
  predicate Counts(ruling: Ruling, model: string, spent: int, ceiling: int) {
    ruling.Ruled? && ruling.usage.model == model && spent + ruling.usage.cost <= ceiling
  }

  /** No usage was reported, or it names the pinned model. */
  predicate FromModel(billed: Option<Usage>, model: string) {
    billed.Some? ==> billed.value.model == model
  }

  /** A ruling becomes a valid record that carries its charge; only a ruling
      that counts can be right, and every other one is a visible wrong. */
  predicate RecordsRuling(id: string, model: string, spent: int, ceiling: int, ruling: Ruling, j: JudgeRecord) {
    && j.itemId == id
    && j.modelCalled
    && JudgeValid(j)
    && UsageCost(j.usage) == CostOfRuling(ruling)
    && (j.verdict == Correct <==>
          && ruling.Ruled? && ruling.verdict == Correct
          && ruling.usage.model == model && spent + ruling.usage.cost <= ceiling)
    && (j.failure.None? <==> ruling.Ruled? && ruling.usage.model == model && spent + ruling.usage.cost <= ceiling)
    && (j.failure == Some(JudgeFailure) <==>
          || ruling.Garbled?
          || (ruling.Refusal? && (ruling.billed.Some? ==> ruling.billed.value.model == model)))
    && (j.failure.Some? ==> j.failure.value in {JudgeFailure, Accounting})
    && j.usage == (match ruling
                   case Refusal(billed, _) => billed
                   case Ruled(u, _) => Some(u)
                   case _ => None)
  }

  /** The record of a ruling that does not stop the run. */
  function RulingRecord(id: string, model: string, spent: int, ceiling: int, ruling: Ruling): JudgeRecord
    requires !ruling.Crash?
  {
    match ruling
    case Unaccounted => JudgeRecord(id, Wrong, true, None, Some(Accounting))
    case Garbled => JudgeRecord(id, Wrong, true, None, Some(JudgeFailure))
    case Refusal(billed, _) =>
      JudgeRecord(id, Wrong, true, billed, Some(if FromModel(billed, model) then JudgeFailure else Accounting))
    case Ruled(u, verdict) =>
      if Counts(ruling, model, spent, ceiling) then JudgeRecord(id, verdict, true, Some(u), None)
      else JudgeRecord(id, Wrong, true, Some(u), Some(Accounting))
  }

  /** What a record of a ruling promises. */
  lemma RulingIsRecorded(id: string, model: string, spent: int, ceiling: int, ruling: Ruling)
    requires !ruling.Crash?
    ensures RecordsRuling(id, model, spent, ceiling, ruling, RulingRecord(id, model, spent, ceiling, ruling))
  {
  }

  /** What a judge stage is run with, and every ruling it will be given. */
  datatype Bench = Bench(model: string, maxCalls: int, ceiling: int, rulings: nat -> Ruling)

  datatype JudgeMove = JudgeGo(spot: Spot) | JudgeStop(result: StageResult)

  /** One answered question: it has a verdict already, it failed and is wrong
      without a call, or the judge rules on it or stops the stage. */
  ghost function JudgeStep(w: Bench, q: Question, at: Spot): JudgeMove {
    var id, s := q.itemId, at.state;
    if id in s.judges then JudgeGo(at)
    else if id !in s.answers then JudgeStop(StageResult(Broke, s))
    else if s.answers[id].failure.Some? then JudgeGo(Spot(at.calls, s.(judges := s.judges[id := LocalWrong(id)])))
    else if !MayJudge(s, w.maxCalls, w.ceiling) then JudgeStop(StageResult(GuardFired, s))
    else
      var ruling := w.rulings(at.calls);
      if ruling.Crash? then JudgeStop(StageResult(Broke, s))
      else if JudgeHitch(ruling) then JudgeStop(StageResult(Interrupted, Apply(s, JudgeInterrupted(ruling.billed))))
      else
        JudgeGo(Spot(
          at.calls + 1,
          s.(cost := s.cost + CostOfRuling(ruling),
             judges := s.judges[id := RulingRecord(id, w.model, s.cost, w.ceiling, ruling)])))
  }

  /** The questions in order, up to the first one that stops the stage. */
  ghost function JudgeStageOf(w: Bench, questions: seq<Question>, at: Spot): StageResult {
    if questions == [] then StageResult(Completed, at.state)
    else
      match JudgeStep(w, questions[0], at)
      case JudgeGo(next) => JudgeStageOf(w, questions[1..], next)
      case JudgeStop(result) => result
  }

  // ---- the same, one fact at a time ----

  ghost function NextSpots(w: Bench, q: Question, at: Spot): iset<Spot> {
    iset b | JudgeStep(w, q, at) == JudgeGo(b)
  }

  ghost function JudgeStops(w: Bench, q: Question, at: Spot): iset<StageResult> {
    iset r | JudgeStep(w, q, at) == JudgeStop(r)
  }

  ghost predicate JudgeEndsAs(w: Bench, questions: seq<Question>, at: Spot, r: StageResult) {
    r == JudgeStageOf(w, questions, at)
  }

  /** How the stage ends over these questions from here: the one result. */
  ghost function JudgeResults(w: Bench, questions: seq<Question>, at: Spot): iset<StageResult> {
    iset r | JudgeEndsAs(w, questions, at, r)
  }

  lemma JudgeBegins(w: Bench, questions: seq<Question>, at: Spot)
    ensures JudgeStageOf(w, questions, at) in JudgeResults(w, questions[0..], at)
    ensures JudgeStageOf(w, questions, at) in JudgeResults(w, questions, at)
  {
    assert questions[0..] == questions;
  }

  /** One question on, or stopped there. */
  lemma JudgeMoves(
      w: Bench, questions: seq<Question>, i: nat, at: Spot, stop: Option<StageEnd>, b: Spot, r: StageResult)
    requires i < |questions| && r in JudgeResults(w, questions[i..], at)
    requires stop == None ==> b in NextSpots(w, questions[i], at)
    requires stop.Some? ==> StageResult(stop.value, b.state) in JudgeStops(w, questions[i], at)
    ensures stop == None ==> r in JudgeResults(w, questions[i + 1..], b)
    ensures stop.Some? ==> r == StageResult(stop.value, b.state)
  {
    assert questions[i..][1..] == questions[i + 1..];
  }

  lemma JudgeCompletes(w: Bench, questions: seq<Question>, at: Spot, r: StageResult)
    requires r in JudgeResults(w, questions[|questions|..], at)
    ensures r == StageResult(Completed, at.state)
  {
  }

  // ---- what a stage charges and asks ----

  /** What the judge charged over its rulings number `lo` up to, and not
      including, `hi`. */
  function Fees(rulings: nat -> Ruling, lo: nat, hi: nat): nat
    requires lo <= hi
    decreases hi
  {
    if lo == hi then 0 else Fees(rulings, lo, hi - 1) + CostOfRuling(rulings(hi - 1))
  }

  lemma {:induction false} FeesAdd(rulings: nat -> Ruling, a: nat, b: nat, c: nat)
    requires a <= b <= c
    ensures Fees(rulings, a, c) == Fees(rulings, a, b) + Fees(rulings, b, c)
    decreases c
  {
    if b < c { FeesAdd(rulings, a, b, c - 1); }
  }

  lemma FeeOfOne(rulings: nat -> Ruling, k: nat)
    ensures Fees(rulings, k, k + 1) == CostOfRuling(rulings(k))
  {
  }

  /** A question that still needs a judge call. */
  predicate Open(q: Question, answers: map<string, AnswerRecord>, judges: map<string, JudgeRecord>) {
    q.itemId in answers && answers[q.itemId].failure.None? && q.itemId !in judges
  }

  function OpenCalls(
      questions: seq<Question>, answers: map<string, AnswerRecord>, judges: map<string, JudgeRecord>): nat
  {
    if questions == [] then 0
    else AnswerLoop.Count(Open(questions[0], answers, judges)) + OpenCalls(questions[1..], answers, judges)
  }

  // ---- what a stage leaves ----

  /** A verdict on a failed answer: wrong, and nobody was asked. */
  predicate FailsUnheard(j: JudgeRecord) {
    j.verdict == Wrong && !j.modelCalled && j.usage == None && j.failure == None
  }

  /** Question `i`'s verdict, told by the answers and the rulings: wrong if its
      answer failed, and otherwise the record of the ruling that comes after those
      of the questions before it, at the spend reached by then. */
  ghost predicate VerdictTells(w: Bench, questions: seq<Question>, i: nat, at: Spot, j: JudgeRecord)
    requires i < |questions|
  {
    var q, s := questions[i], at.state;
    var k := at.calls + OpenCalls(questions[..i], s.answers, s.judges);
    && q.itemId in s.answers
    && j.itemId == q.itemId
    && if s.answers[q.itemId].failure.Some? then FailsUnheard(j)
       else
         && !JudgeHitch(w.rulings(k))
         && RecordsRuling(
              q.itemId, w.model, s.cost + Fees(w.rulings, at.calls, k), w.ceiling, w.rulings(k), j)
  }

  ghost function ItsVerdicts(w: Bench, questions: seq<Question>, i: nat, at: Spot): iset<JudgeRecord>
    requires i < |questions|
  {
    iset j | VerdictTells(w, questions, i, at, j)
  }

  /** One question gets a verdict unless it has one, and nothing else changes but
      the spend. */
  lemma JudgeStepAdds(w: Bench, questions: seq<Question>, at: Spot)
    requires questions != []
    ensures
      var q := questions[0];
      match JudgeStep(w, q, at)
      case JudgeGo(b) =>
        && b.state.answers == at.state.answers
        && b.state.judges.Keys == at.state.judges.Keys + {q.itemId}
        && (forall id :: id in at.state.judges ==> b.state.judges[id] == at.state.judges[id])
        && b.calls == at.calls + AnswerLoop.Count(Open(q, at.state.answers, at.state.judges))
        && b.state.cost == at.state.cost + Fees(w.rulings, at.calls, b.calls)
        && (q.itemId !in at.state.judges ==> b.state.judges[q.itemId] in ItsVerdicts(w, questions, 0, at))
      case JudgeStop(r) => r.saved.answers == at.state.answers && r.saved.judges == at.state.judges && !r.end.Completed?
  {
    FeeOfOne(w.rulings, at.calls);
    assert questions[..0] == [];
  }

  /** With one more verdict on another question, as many calls are needed. */
  lemma {:induction false} OpenCallsSame(
      questions: seq<Question>, answers: map<string, AnswerRecord>, before: map<string, JudgeRecord>,
      after: map<string, JudgeRecord>, id: string)
    requires after.Keys == before.Keys + {id} && forall q :: q in questions ==> q.itemId != id
    ensures OpenCalls(questions, answers, after) == OpenCalls(questions, answers, before)
  {
    if questions != [] { OpenCallsSame(questions[1..], answers, before, after, id); }
  }

  /** A later question's verdict, seen from the first question. */
  lemma VerdictFromStart(w: Bench, questions: seq<Question>, i: nat, at: Spot, b: Spot, j: JudgeRecord)
    requires i + 1 < |questions| && ItemsDiffer(questions)
    requires JudgeStep(w, questions[0], at) == JudgeGo(b) && j in ItsVerdicts(w, questions[1..], i, b)
    ensures j in ItsVerdicts(w, questions, i + 1, at)
  {
    var rest := questions[1..];
    JudgeStepAdds(w, questions, at);
    assert questions[..i + 1][1..] == rest[..i] && questions[..i + 1][0] == questions[0];
    forall q | q in rest[..i] ensures q.itemId != questions[0].itemId {
      var k :| 0 <= k < i && rest[..i][k] == q;
      assert q == questions[k + 1];
    }
    OpenCallsSame(rest[..i], at.state.answers, at.state.judges, b.state.judges, questions[0].itemId);
    var k := OpenCalls(rest[..i], b.state.answers, b.state.judges);
    assert OpenCalls(questions[..i + 1], at.state.answers, at.state.judges) == b.calls - at.calls + k;
    FeesAdd(w.rulings, at.calls, b.calls, b.calls + k);
  }

  /** The judgments once the first `n` questions are judged on top of `at`: all of
      those kept, and each new one its question's. */
  ghost predicate JudgedBy(w: Bench, questions: seq<Question>, n: nat, at: Spot, after: map<string, JudgeRecord>)
    requires n <= |questions|
  {
    && after.Keys == at.state.judges.Keys + ItemIds(questions[..n])
    && (forall id :: id in at.state.judges ==> after[id] == at.state.judges[id])
    && (forall i :: 0 <= i < n && questions[i].itemId !in at.state.judges ==>
          after[questions[i].itemId] in ItsVerdicts(w, questions, i, at))
  }

  ghost function JudgedMore(w: Bench, questions: seq<Question>, n: nat, at: Spot): iset<map<string, JudgeRecord>>
    requires n <= |questions|
  {
    iset after | JudgedBy(w, questions, n, at, after)
  }

  lemma JudgedByNothing(w: Bench, questions: seq<Question>, at: Spot)
    ensures at.state.judges in JudgedMore(w, questions, 0, at)
  {
    assert questions[..0] == [] && ItemIds([]) == {};
  }

  lemma FirstVerdict(w: Bench, questions: seq<Question>, m: nat, at: Spot, b: Spot, after: map<string, JudgeRecord>)
    requires m < |questions| && questions[0].itemId !in at.state.judges
    requires JudgeStep(w, questions[0], at) == JudgeGo(b) && after in JudgedMore(w, questions[1..], m, b)
    ensures questions[0].itemId in after && after[questions[0].itemId] in ItsVerdicts(w, questions, 0, at)
  {
    JudgeStepAdds(w, questions, at);
  }

  lemma LaterVerdict(
      w: Bench, questions: seq<Question>, m: nat, at: Spot, b: Spot, after: map<string, JudgeRecord>, i: nat)
    requires i < m < |questions| && ItemsDiffer(questions) && questions[i + 1].itemId !in at.state.judges
    requires JudgeStep(w, questions[0], at) == JudgeGo(b) && after in JudgedMore(w, questions[1..], m, b)
    ensures questions[i + 1].itemId in after && after[questions[i + 1].itemId] in ItsVerdicts(w, questions, i + 1, at)
  {
    var q := questions[1..][i];
    assert q == questions[i + 1] && q.itemId != questions[0].itemId;
    JudgeStepAdds(w, questions, at);
    assert q in questions[1..][..m];
    VerdictFromStart(w, questions, i, at, b, after[q.itemId]);
  }

  lemma JudgedByOneMore(
      w: Bench, questions: seq<Question>, m: nat, at: Spot, b: Spot, after: map<string, JudgeRecord>)
    requires m < |questions| && ItemsDiffer(questions)
    requires JudgeStep(w, questions[0], at) == JudgeGo(b) && after in JudgedMore(w, questions[1..], m, b)
    ensures after in JudgedMore(w, questions, m + 1, at)
  {
    JudgeStepAdds(w, questions, at);
    FirstIds(questions, m);
    forall i | 0 <= i < m + 1 && questions[i].itemId !in at.state.judges
      ensures questions[i].itemId in after && after[questions[i].itemId] in ItsVerdicts(w, questions, i, at)
    {
      if i == 0 {
        FirstVerdict(w, questions, m, at, b, after);
      } else {
        LaterVerdict(w, questions, m, at, b, after, i - 1);
      }
    }
  }

  /** However a stage ends, its checkpoint holds a verdict for each of the first
      questions up to where it stopped, failed answers wrong and every other one
      as the judge ruled in its turn; it completes if and only if these are all. */
  lemma {:induction false} StageVerdicts(w: Bench, questions: seq<Question>, at: Spot) returns (n: nat)
    requires ItemsDiffer(questions)
    ensures n <= |questions| && (JudgeStageOf(w, questions, at).end.Completed? <==> n == |questions|)
    ensures JudgeStageOf(w, questions, at).saved.answers == at.state.answers
    ensures JudgeStageOf(w, questions, at).saved.judges in JudgedMore(w, questions, n, at)
    decreases |questions|
  {
    if questions == [] || JudgeStep(w, questions[0], at).JudgeStop? {
      n := 0;
      JudgedByNothing(w, questions, at);
      if questions != [] { JudgeStepAdds(w, questions, at); }
    } else {
      var b := JudgeStep(w, questions[0], at).spot;
      JudgeStepAdds(w, questions, at);
      FirstIds(questions, 0);
      var m := StageVerdicts(w, questions[1..], b);
      n := m + 1;
      JudgedByOneMore(w, questions, m, at, b, JudgeStageOf(w, questions[1..], b).saved.judges);
    }
  }

  /** A stage that ends so leaves the verdicts of the first questions, of all of
      them if and only if it completes. */
  ghost predicate LeavesVerdicts(w: Bench, questions: seq<Question>, at: Spot, r: StageResult) {
    exists n: nat :: n <= |questions|
      && (r.end.Completed? <==> n == |questions|) && r.saved.judges in JudgedMore(w, questions, n, at)
  }

  lemma VerdictsAreLeft(w: Bench, questions: seq<Question>, at: Spot, r: StageResult)
    requires ItemsDiffer(questions) && r in JudgeResults(w, questions, at)
    ensures LeavesVerdicts(w, questions, at, r)
  {
    var n := StageVerdicts(w, questions, at);
  }
}
