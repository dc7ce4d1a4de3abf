// The checkpoint file over a whole run: which saves may follow which, what every
// saved state satisfies, and that nothing recorded is ever lost or changed.

module RunHistory {
  import opened Wrappers
  import opened Orders
  import opened Records
  import AnswerLoop
  import opened AnswerProofs

  /** The immutable identity of a prepared run. */
  datatype Plan = Plan(
    documents: seq<Document>,
    documentMap: map<string, Document>,
    manifest: seq<Question>,
    questions: map<string, Question>,
    config: AnswerLoop.Config,
    judgeModel: string
  ) {
    ghost predicate Valid() {
      && config.Valid()
      && (forall q :: q in manifest ==> q.itemId in questions && questions[q.itemId] == q)
      && (forall id :: id in questions ==> questions[id].itemId == id && questions[id] in manifest)
      && Distinct(manifest)
      && (forall d :: d in documents ==> d.sourceRef in documentMap && documentMap[d.sourceRef] == d)
      && (forall r :: r in documentMap ==> documentMap[r].sourceRef == r && documentMap[r] in documents)
      && Distinct(documents)
    }
  }

  predicate MatchesDocument(r: IngestRecord, d: Document) {
    r.sourceRef == d.sourceRef && r.sampleId == d.sampleId && r.sessionId == d.sessionId && r.hash == d.hash
  }

  /** Every check a reload makes on the checkpoint. */
  ghost predicate StateValid(p: Plan, s: State) {
    && s.ingests.Keys <= p.documentMap.Keys
    && s.answers.Keys <= p.questions.Keys
    && s.judges.Keys <= p.questions.Keys
    && s.judges.Keys <= s.answers.Keys
    && (forall r :: r in s.ingests ==> s.ingests[r].sourceRef == r && MatchesDocument(s.ingests[r], p.documentMap[r]))
    && (forall id :: id in s.answers ==>
          s.answers[id].itemId == id && NamesQuestion(s.answers[id], p.questions[id]) && Ranked(s.answers[id].claims))
    && (forall id :: id in s.judges ==> s.judges[id].itemId == id)
    && Accounted(s) == s.cost
  }

  /** All ingest records of one sample name one deployment. */
  ghost predicate OneDeployment(s: State) {
    forall a, b :: a in s.ingests && b in s.ingests && s.ingests[a].sampleId == s.ingests[b].sampleId
      ==> s.ingests[a].deployment == s.ingests[b].deployment
  }

  function LocalWrong(id: string): JudgeRecord { JudgeRecord(id, Wrong, false, None, None) }

  /** A judge verdict fits the answer it judges: failed answers are wrong
      without a call, and only a generated answer is sent to the judge. */
  ghost predicate JudgeFits(a: AnswerRecord, j: JudgeRecord) {
    && JudgeValid(j)
    && (a.failure.Some? ==>
          j.itemId == a.itemId && j.verdict == Wrong && !j.modelCalled && j.usage == None && j.failure == None)
    && (a.failure.None? ==> j.modelCalled)
  }

  ghost predicate IngestsFit(p: Plan, s: State) {
    && s.ingests.Keys <= p.documentMap.Keys
    && forall r :: r in s.ingests ==> MatchesDocument(s.ingests[r], p.documentMap[r])
  }

  ghost predicate AnswersFit(p: Plan, s: State) {
    && s.answers.Keys <= p.questions.Keys
    && forall id :: id in s.answers ==> WellKept(p.config, p.questions[id], s.answers[id])
  }

  ghost predicate JudgesFit(s: State) {
    && s.judges.Keys <= s.answers.Keys
    && forall id :: id in s.judges ==> s.judges[id].itemId == id && JudgeFits(s.answers[id], s.judges[id])
  }

  /** What every saved state satisfies. */
  ghost predicate Kept(p: Plan, s: State) {
    IngestsFit(p, s) && OneDeployment(s) && AnswersFit(p, s) && JudgesFit(s) && Accounted(s) == s.cost
  }

  /** One durable save. */
  datatype Event =
    | Probed(usage: Usage)
    | Ingested(ingest: IngestRecord)
    | Readied(sampleId: string, fingerprint: string)
    | AnswerSaved(answer: AnswerRecord)
    | AnswerInterrupted(usages: seq<Usage>, calls: nat, amount: nat)
    | JudgeSaved(judge: JudgeRecord)
    | JudgeInterrupted(billed: Option<Usage>)

  ghost predicate Enabled(p: Plan, s: State, e: Event) {
    match e
    case Probed(_) => true
    case Ingested(r) =>
      && r.sourceRef in p.documentMap
      && r.sourceRef !in s.ingests
      && MatchesDocument(r, p.documentMap[r.sourceRef])
      && (forall k :: k in s.ingests && s.ingests[k].sampleId == r.sampleId ==> s.ingests[k].deployment == r.deployment)
    case Readied(sampleId, fingerprint) =>
      sampleId in s.readiness ==> s.readiness[sampleId] == fingerprint
    case AnswerSaved(r) =>
      r.itemId in p.questions && r.itemId !in s.answers && WellKept(p.config, p.questions[r.itemId], r)
    case AnswerInterrupted(usages, _, amount) => amount == Cost(usages)
    case JudgeSaved(j) =>
      j.itemId in s.answers && j.itemId !in s.judges && JudgeFits(s.answers[j.itemId], j)
    case JudgeInterrupted(_) => true
  }

  function BilledUsages(billed: Option<Usage>): seq<Usage> {
    if billed.Some? then [billed.value] else []
  }

  ghost function Apply(s: State, e: Event): State {
    match e
    case Probed(u) => s.(preflightUsages := s.preflightUsages + [u], cost := s.cost + u.cost)
    case Ingested(r) => s.(ingests := s.ingests[r.sourceRef := r])
    case Readied(sampleId, fingerprint) => s.(readiness := s.readiness[sampleId := fingerprint])
    case AnswerSaved(r) => s.(answers := s.answers[r.itemId := r], cost := s.cost + UsageCost(r.usage))
    case AnswerInterrupted(usages, calls, amount) =>
      s.(interruptedUsages := s.interruptedUsages + usages,
         interruptedAnswerCalls := s.interruptedAnswerCalls + calls,
         cost := s.cost + amount)
    case JudgeSaved(j) => s.(judges := s.judges[j.itemId := j], cost := s.cost + UsageCost(j.usage))
    case JudgeInterrupted(billed) =>
      s.(interruptedUsages := s.interruptedUsages + BilledUsages(billed),
         interruptedJudgeCalls := s.interruptedJudgeCalls + 1,
         cost := s.cost + Cost(BilledUsages(billed)))
  }

  /** Whatever `s` records, `t` records unchanged. */
  ghost predicate Extends(s: State, t: State) {
    && (forall k :: k in s.ingests ==> k in t.ingests && t.ingests[k] == s.ingests[k])
    && (forall k :: k in s.readiness ==> k in t.readiness && t.readiness[k] == s.readiness[k])
    && (forall k :: k in s.answers ==> k in t.answers && t.answers[k] == s.answers[k])
    && (forall k :: k in s.judges ==> k in t.judges && t.judges[k] == s.judges[k])
    && s.preflightUsages <= t.preflightUsages
    && s.interruptedUsages <= t.interruptedUsages
    && s.interruptedAnswerCalls <= t.interruptedAnswerCalls
    && s.interruptedJudgeCalls <= t.interruptedJudgeCalls
    && s.cost <= t.cost
  }

  // ---- one save ----

  lemma SaveAccounts(p: Plan, s: State, e: Event)
    requires Accounted(s) == s.cost && Enabled(p, s, e)
    ensures Accounted(Apply(s, e)) == Apply(s, e).cost
  {
    match e
    case Probed(u) =>
      CostOfConcat(s.preflightUsages, [u]);
      CostOfOne(u);
    case Ingested(_) =>
    case Readied(_, _) =>
    case AnswerSaved(r) =>
      AddAnswerCost(s.answers, r.itemId, r);
    case AnswerInterrupted(usages, _, _) =>
      CostOfConcat(s.interruptedUsages, usages);
    case JudgeSaved(j) =>
      AddJudgeCost(s.judges, j.itemId, j);
    case JudgeInterrupted(billed) =>
      CostOfConcat(s.interruptedUsages, BilledUsages(billed));
  }

  /** A save only adds. */
  lemma SaveExtends(p: Plan, s: State, e: Event)
    requires Enabled(p, s, e)
    ensures Extends(s, Apply(s, e))
  {
  }

  lemma SaveKeepsIngests(p: Plan, s: State, e: Event)
    requires IngestsFit(p, s) && OneDeployment(s) && Enabled(p, s, e)
    ensures IngestsFit(p, Apply(s, e)) && OneDeployment(Apply(s, e))
  {
  }

  lemma SaveKeepsAnswers(p: Plan, s: State, e: Event)
    requires AnswersFit(p, s) && Enabled(p, s, e)
    ensures AnswersFit(p, Apply(s, e))
  {
  }

  lemma SaveKeepsJudges(p: Plan, s: State, e: Event)
    requires JudgesFit(s) && Enabled(p, s, e)
    ensures JudgesFit(Apply(s, e))
  {
  }

  /** A save keeps what every saved state satisfies. */
  lemma SaveKeeps(p: Plan, s: State, e: Event)
    requires Kept(p, s) && Enabled(p, s, e)
    ensures Kept(p, Apply(s, e))
  {
    SaveAccounts(p, s, e);
    SaveKeepsIngests(p, s, e);
    SaveKeepsAnswers(p, s, e);
    SaveKeepsJudges(p, s, e);
  }

  /** A kept state passes every check of a reload. */
  lemma KeptIsValid(p: Plan, s: State)
    requires p.Valid() && Kept(p, s)
    ensures StateValid(p, s)
  {
    forall id | id in s.answers
      ensures s.answers[id].itemId == id && Ranked(s.answers[id].claims)
    {
      assert WellKept(p.config, p.questions[id], s.answers[id]);
    }
    forall r | r in s.ingests ensures s.ingests[r].sourceRef == r {
      assert r in p.documentMap;
    }
  }

  lemma FreshIsKept(p: Plan)
    ensures Kept(p, FRESH)
  {
  }

  // ---- whole runs ----

  /** The states one save can lead to. */
  ghost function Successors(p: Plan, s: State): iset<State> {
    iset e | Enabled(p, s, e) :: Apply(s, e)
  }

  /** The states that still hold everything `s` records. */
  ghost function Extensions(s: State): iset<State> {
    iset t | Extends(s, t)
  }

  lemma SavesOnlyAdds(p: Plan, s: State, t: State)
    requires t in Successors(p, s)
    ensures t in Extensions(s)
  {
    var e :| Enabled(p, s, e) && t == Apply(s, e);
    SaveExtends(p, s, e);
  }

  lemma SavesKeeps(p: Plan, s: State, t: State)
    requires t in Successors(p, s) && Kept(p, s)
    ensures Kept(p, t)
  {
    var e :| Enabled(p, s, e) && t == Apply(s, e);
    SaveKeeps(p, s, e);
  }

  /** Every state that reached the disk, oldest first, starting from a fresh
      run. Invocations may end or crash between any two of them. */
  ghost predicate History(p: Plan, h: seq<State>) {
    && |h| > 0
    && h[0] == FRESH
    && forall i :: 0 < i < |h| ==> h[i] in Successors(p, h[i - 1])
  }

  /** Every state ever saved accounts for every recorded usage and passes every
      check of a reload. */
  lemma {:induction false} EverySavedStateIsKept(p: Plan, h: seq<State>, k: nat)
    requires p.Valid() && History(p, h) && k < |h|
    ensures Kept(p, h[k]) && StateValid(p, h[k])
  {
    if k == 0 {
      FreshIsKept(p);
    } else {
      EverySavedStateIsKept(p, h, k - 1);
      SavesKeeps(p, h[k - 1], h[k]);
    }
    KeptIsValid(p, h[k]);
  }

  lemma ExtendsTrans(s: State, t: State, u: State)
    requires t in Extensions(s) && u in Extensions(t)
    ensures u in Extensions(s)
  {
  }

  /** Records only grow: whatever was once saved is in every later save. */
  lemma {:induction false} NothingSavedIsLost(p: Plan, h: seq<State>, i: nat, j: nat)
    requires History(p, h) && i <= j < |h|
    ensures h[j] in Extensions(h[i])
    decreases j
  {
    if i < j {
      NothingSavedIsLost(p, h, i, j - 1);
      SavesOnlyAdds(p, h[j - 1], h[j]);
      ExtendsTrans(h[i], h[j - 1], h[j]);
    }
  }
}
