// The durable values of one benchmark run and the conditions its validators impose.

module Records {
  import opened Wrappers
  import opened Sums

  /** Exact money in the smallest unit the provider reports; never negative. */
  type Money = nat

  type Category = c: int | 1 <= c <= 4 witness 1

  type NonEmpty = s: string | s != "" witness "x"

  /** Accounting of one provider call, or of several collapsed into one. */
  datatype Usage = Usage(model: string, tokensIn: nat, tokensOut: nat, cost: Money)

  datatype Question = Question(
    itemId: string,
    sampleId: string,
    question: string,
    answer: Option<string>,
    evidence: seq<string>,
    category: Category
  )

  /** One evidence claim of a tool response. */
  datatype Evidence = Evidence(claimId: int, docId: int, text: string)

  datatype Envelope = Envelope(evidence: seq<Evidence>, dropped: nat)

  /** A typed response carries its envelopes; any other response is JSON, of
      which only the presence of result rows matters. */
  datatype Response = Typed(envelopes: seq<Envelope>) | Json(hasRows: bool)

  datatype ToolCall = ToolCall(name: string, succeeded: bool, response: Response)

  datatype Claim = Claim(rank: nat, claimId: int, docId: int, text: string, session: Option<string>)

  datatype FailureKind =
    Readiness | ToolFailure | Reader | JudgeFailure | Accounting | InvalidResponse | Missing

  datatype AnswerRecord = AnswerRecord(
    itemId: string,
    sampleId: string,
    category: Category,
    question: string,
    gold: string,
    goldEvidence: seq<string>,
    claims: seq<Claim>,
    toolCalls: seq<ToolCall>,
    dropped: nat,
    retrievalSucceeded: bool,
    readerCalled: bool,
    agentCalls: nat,
    readerAttempts: nat,
    firstStepRetries: nat,
    unknownGuardRetries: nat,
    answer: Option<string>,
    usage: Option<Usage>,
    failure: Option<FailureKind>
  )

  /** Everything the answer record's validator rejects is excluded here. */
  predicate AnswerValid(r: AnswerRecord) {
    && r.answer.None? != r.failure.None?
    && r.answer != Some("")
    && (r.answer.Some? ==> r.readerCalled)
    && (r.usage.Some? ==> r.readerCalled)
    && r.readerCalled == (r.agentCalls > 0)
    && r.readerAttempts <= r.agentCalls
    && r.firstStepRetries <= r.agentCalls
    && r.unknownGuardRetries <= r.agentCalls
    && (r.answer.Some? ==> r.readerAttempts >= 1)
  }

  datatype Label = Correct | Wrong

  datatype JudgeRecord = JudgeRecord(
    itemId: string,
    verdict: Label,
    modelCalled: bool,
    usage: Option<Usage>,
    failure: Option<FailureKind>
  )

  /** Everything the judge record's validator rejects is excluded here. */
  predicate JudgeValid(r: JudgeRecord) {
    && (r.usage.Some? ==> r.modelCalled)
    && (r.failure.None? && r.modelCalled ==> r.usage.Some?)
  }

  datatype Document = Document(sourceRef: string, sampleId: string, sessionId: string, hash: string)

  datatype IngestRecord = IngestRecord(
    sampleId: string,
    sessionId: string,
    sourceRef: string,
    hash: string,
    deployment: int,
    docId: int,
    versionId: int
  )

  /** The checkpoint as it stands on disk. */
  datatype State = State(
    ingests: map<string, IngestRecord>,
    preflightUsages: seq<Usage>,
    readiness: map<string, string>,
    answers: map<string, AnswerRecord>,
    judges: map<string, JudgeRecord>,
    interruptedUsages: seq<Usage>,
    interruptedAnswerCalls: nat,
    interruptedJudgeCalls: nat,
    cost: int
  )

  const FRESH := State(map[], [], map[], map[], map[], [], 0, 0, 0)

  // ---- totals ----

  function Cost(usages: seq<Usage>): nat {
    if usages == [] then 0 else usages[0].cost + Cost(usages[1..])
  }

  function TokensIn(usages: seq<Usage>): nat {
    if usages == [] then 0 else usages[0].tokensIn + TokensIn(usages[1..])
  }

  function TokensOut(usages: seq<Usage>): nat {
    if usages == [] then 0 else usages[0].tokensOut + TokensOut(usages[1..])
  }

  function UsageCost(usage: Option<Usage>): nat {
    if usage.Some? then usage.value.cost else 0
  }

  function AnswerCosts(answers: map<string, AnswerRecord>): map<string, nat> {
    map id | id in answers :: UsageCost(answers[id].usage)
  }

  function AgentCalls(answers: map<string, AnswerRecord>): map<string, nat> {
    map id | id in answers :: answers[id].agentCalls
  }

  function JudgeCosts(judges: map<string, JudgeRecord>): map<string, nat> {
    map id | id in judges :: UsageCost(judges[id].usage)
  }

  function JudgeCalls(judges: map<string, JudgeRecord>): map<string, nat> {
    map id | id in judges :: Called(judges[id])
  }

  /** Every usage the checkpoint holds, added up. */
  ghost function Accounted(s: State): nat {
    Cost(s.preflightUsages) + Cost(s.interruptedUsages) + Total(AnswerCosts(s.answers)) + Total(JudgeCosts(s.judges))
  }

  /** Answer-agent calls of a run, interrupted ones included. */
  ghost function AnswerCallTotal(s: State): nat {
    s.interruptedAnswerCalls + Total(AgentCalls(s.answers))
  }

  /** Judge calls of a run, interrupted ones included. */
  ghost function JudgeCallTotal(s: State): nat {
    s.interruptedJudgeCalls + Total(JudgeCalls(s.judges))
  }

  lemma AddAnswerCost(answers: map<string, AnswerRecord>, id: string, r: AnswerRecord)
    requires id !in answers
    ensures Total(AnswerCosts(answers[id := r])) == Total(AnswerCosts(answers)) + UsageCost(r.usage)
  {
    assert AnswerCosts(answers[id := r]) == AnswerCosts(answers)[id := UsageCost(r.usage)];
    TotalInsert(AnswerCosts(answers), id, UsageCost(r.usage));
  }

  lemma AddAnswerCalls(answers: map<string, AnswerRecord>, id: string, r: AnswerRecord)
    requires id !in answers
    ensures Total(AgentCalls(answers[id := r])) == Total(AgentCalls(answers)) + r.agentCalls
  {
    assert AgentCalls(answers[id := r]) == AgentCalls(answers)[id := r.agentCalls];
    TotalInsert(AgentCalls(answers), id, r.agentCalls);
  }

  lemma AddJudgeCost(judges: map<string, JudgeRecord>, id: string, r: JudgeRecord)
    requires id !in judges
    ensures Total(JudgeCosts(judges[id := r])) == Total(JudgeCosts(judges)) + UsageCost(r.usage)
  {
    assert JudgeCosts(judges[id := r]) == JudgeCosts(judges)[id := UsageCost(r.usage)];
    TotalInsert(JudgeCosts(judges), id, UsageCost(r.usage));
  }

  function Called(r: JudgeRecord): nat {
    if r.modelCalled then 1 else 0
  }

  lemma AddJudgeCalls(judges: map<string, JudgeRecord>, id: string, r: JudgeRecord)
    requires id !in judges
    ensures Total(JudgeCalls(judges[id := r])) == Total(JudgeCalls(judges)) + Called(r)
  {
    assert JudgeCalls(judges[id := r]) == JudgeCalls(judges)[id := Called(r)];
    TotalInsert(JudgeCalls(judges), id, Called(r));
  }
}
