// Summaries of one run and of several shards of a run. Merging is a
// homomorphism: whatever adds up over items adds up over shards, in any order.

module Merge {
  import opened Wrappers
  import opened Sums
  import opened Records
  import AnswerLoop
  import opened AnswerProofs
  import opened RunHistory

  // ---- which shard owns which sample ----

  /** Samples with any answer or judge record in one shard. */
  function RecordedSamples(p: Plan, s: State): set<string> {
    set id | id in s.answers.Keys + s.judges.Keys && id in p.questions :: p.questions[id].sampleId
  }

  ghost predicate DisjointSamples(p: Plan, parts: seq<State>) {
    forall i, j :: 0 <= i < j < |parts| ==> RecordedSamples(p, parts[i]) !! RecordedSamples(p, parts[j])
  }

  ghost function AllRecorded(p: Plan, parts: seq<State>): set<string> {
    set i, x | 0 <= i < |parts| && x in RecordedSamples(p, parts[i]) :: x
  }

  /** A shard holds an answer or a verdict for a question of this sample. */
  ghost predicate RecordsSample(p: Plan, s: State, sample: string) {
    exists id :: (id in s.answers || id in s.judges) && id in p.questions && p.questions[id].sampleId == sample
  }

  lemma RecordedSamplesAre(p: Plan, s: State, sample: string)
    ensures sample in RecordedSamples(p, s) <==> RecordsSample(p, s, sample)
  {
  }

  /** No two shards record the same sample. */
  ghost predicate NoneTwice(p: Plan, parts: seq<State>) {
    forall i, j, sample :: 0 <= i < j < |parts| && RecordsSample(p, parts[i], sample) ==>
      !RecordsSample(p, parts[j], sample)
  }

  lemma DisjointIsNoneTwice(p: Plan, parts: seq<State>)
    ensures DisjointSamples(p, parts) <==> NoneTwice(p, parts)
  {
    forall s, sample ensures sample in RecordedSamples(p, s) <==> RecordsSample(p, s, sample) {
      RecordedSamplesAre(p, s, sample);
    }
    if NoneTwice(p, parts) {
      forall i, j | 0 <= i < j < |parts| ensures RecordedSamples(p, parts[i]) !! RecordedSamples(p, parts[j]) {
        forall x | x in RecordedSamples(p, parts[i]) ensures x !in RecordedSamples(p, parts[j]) {
          assert RecordsSample(p, parts[i], x);
        }
      }
    }
    if DisjointSamples(p, parts) {
      forall i, j, sample | 0 <= i < j < |parts| && RecordsSample(p, parts[i], sample)
        ensures !RecordsSample(p, parts[j], sample)
      {
        assert RecordedSamples(p, parts[i]) !! RecordedSamples(p, parts[j]);
        assert sample in RecordedSamples(p, parts[i]);
      }
    }
  }

  lemma RecordedMore(p: Plan, parts: seq<State>, n: nat)
    requires n < |parts|
    ensures AllRecorded(p, parts[..n + 1]) == AllRecorded(p, parts[..n]) + RecordedSamples(p, parts[n])
  {
    assert forall i :: 0 <= i < n ==> parts[..n + 1][i] == parts[..n][i];
    assert parts[..n + 1][n] == parts[n];
  }

  lemma DisjointMore(p: Plan, parts: seq<State>, n: nat)
    requires n < |parts|
    ensures DisjointSamples(p, parts[..n + 1])
        <==> DisjointSamples(p, parts[..n]) && AllRecorded(p, parts[..n]) !! RecordedSamples(p, parts[n])
  {
    var some, more := parts[..n], parts[..n + 1];
    assert forall i :: 0 <= i < n ==> more[i] == some[i];
    assert more[n] == parts[n];
    if DisjointSamples(p, more) {
      forall i, x | 0 <= i < n && x in RecordedSamples(p, some[i]) ensures x !in RecordedSamples(p, parts[n]) {
        assert RecordedSamples(p, more[i]) !! RecordedSamples(p, more[n]);
      }
    }
    if DisjointSamples(p, some) && AllRecorded(p, some) !! RecordedSamples(p, parts[n]) {
      forall i, j | 0 <= i < j < n + 1 ensures RecordedSamples(p, more[i]) !! RecordedSamples(p, more[j]) {
        if j == n {
          forall x | x in RecordedSamples(p, some[i]) ensures x !in RecordedSamples(p, parts[n]) {
            assert x in AllRecorded(p, some);
          }
        }
      }
    }
  }

  /** Claims a shard's samples one by one, until one has an owner already. */
  method ClaimSamples(owners0: map<string, nat>, samples: set<string>, shard: nat)
    returns (ok: bool, owners: map<string, nat>)
    ensures ok <==> owners0.Keys !! samples
    ensures ok ==> owners.Keys == owners0.Keys + samples
  {
    owners := owners0;
    var left := samples;
    while left != {}
      invariant forall x :: x in left ==> x in samples
      invariant forall x :: x in owners <==> x in owners0 || (x in samples && x !in left)
      invariant forall x :: x in samples && x !in left ==> x !in owners0
      decreases |left|
    {
      var sample :| sample in left;
      if sample in owners {
        return false, owners;
      }
      owners := owners[sample := shard];
      left := left - {sample};
    }
    ok := true;
  }

  /** Gives every recorded sample one owner, or rejects a sample recorded twice. */
  method RequireDisjointSamples(p: Plan, parts: seq<State>) returns (recorded: Option<set<string>>)
    ensures recorded.Some? <==> DisjointSamples(p, parts)
    ensures recorded.Some? ==> recorded.value == AllRecorded(p, parts)
  {
    var owners: map<string, nat> := map[];
    for i := 0 to |parts|
      invariant DisjointSamples(p, parts[..i])
      invariant owners.Keys == AllRecorded(p, parts[..i])
    {
      RecordedMore(p, parts, i);
      DisjointMore(p, parts, i);
      var ok;
      ok, owners := ClaimSamples(owners, RecordedSamples(p, parts[i]), i);
      if !ok {
        return None;
      }
    }
    assert parts[..|parts|] == parts;
    recorded := Some(owners.Keys);
  }

  // ---- the merged state ----

  /** A shard without the ingest records of samples it does not own. */
  function Owned(p: Plan, s: State): State {
    s.(ingests := map r | r in s.ingests && s.ingests[r].sampleId in RecordedSamples(p, s) :: s.ingests[r],
       readiness := map[])
  }

  function Join(s: State, t: State): State {
    State(
      s.ingests + t.ingests,
      s.preflightUsages + t.preflightUsages,
      map[],
      s.answers + t.answers,
      s.judges + t.judges,
      s.interruptedUsages + t.interruptedUsages,
      s.interruptedAnswerCalls + t.interruptedAnswerCalls,
      s.interruptedJudgeCalls + t.interruptedJudgeCalls,
      s.cost + t.cost)
  }

  /** The combined checkpoint, shard by shard. */
  function Merged(p: Plan, parts: seq<State>): State {
    if parts == [] then FRESH
    else Join(Merged(p, parts[..|parts| - 1]), Owned(p, parts[|parts| - 1]))
  }

  /** Two checkpoints that share no sample. */
  ghost predicate Apart(p: Plan, s: State, t: State) {
    RecordedSamples(p, s) !! RecordedSamples(p, t)
  }

  lemma SampleOfRecord(p: Plan, s: State, id: string)
    requires id in s.answers.Keys + s.judges.Keys && id in p.questions
    ensures p.questions[id].sampleId in RecordedSamples(p, s)
  {
  }

  lemma ApartKeys(p: Plan, s: State, t: State)
    requires StateValid(p, s) && StateValid(p, t) && Apart(p, s, t)
    ensures s.answers.Keys !! t.answers.Keys && s.judges.Keys !! t.judges.Keys
    ensures s.answers.Keys !! t.judges.Keys && s.judges.Keys !! t.answers.Keys
  {
    forall id | id in s.answers.Keys ensures id !in t.answers.Keys {
      SampleOfRecord(p, s, id);
      if id in t.answers { SampleOfRecord(p, t, id); }
    }
  }

  lemma OwnedIsValid(p: Plan, s: State)
    requires StateValid(p, s)
    ensures StateValid(p, Owned(p, s)) && RecordedSamples(p, Owned(p, s)) == RecordedSamples(p, s)
  {
  }

  lemma RecordedOfJoin(p: Plan, s: State, t: State)
    ensures RecordedSamples(p, Join(s, t)) == RecordedSamples(p, s) + RecordedSamples(p, t)
  {
    var j := Join(s, t);
    assert j.answers.Keys + j.judges.Keys == (s.answers.Keys + s.judges.Keys) + (t.answers.Keys + t.judges.Keys);
  }

  lemma SplitLast(p: Plan, parts: seq<State>)
    requires parts != [] && DisjointSamples(p, parts)
    ensures
      var n := |parts| - 1;
      DisjointSamples(p, parts[..n]) && AllRecorded(p, parts[..n]) !! RecordedSamples(p, parts[n])
      && AllRecorded(p, parts) == AllRecorded(p, parts[..n]) + RecordedSamples(p, parts[n])
  {
    var n := |parts| - 1;
    assert parts[..n + 1] == parts;
    DisjointMore(p, parts, n);
    RecordedMore(p, parts, n);
  }

  // ---- what adds up over items ----

  /** A quantity that is summed over the answer and judge records, and over the
      usages that belong to no record. */
  datatype Measure = Calls | ReaderRetries | FirstStepRetries | GuardRetries | Verdicts | InTokens | OutTokens | Spent

  function OfUsage(u: Usage, m: Measure): nat {
    match m
    case InTokens => u.tokensIn
    case OutTokens => u.tokensOut
    case Spent => u.cost
    case _ => 0
  }

  function OfOption(u: Option<Usage>, m: Measure): nat {
    if u.Some? then OfUsage(u.value, m) else 0
  }

  function OfAnswer(r: AnswerRecord, m: Measure): nat {
    match m
    case Calls => r.agentCalls
    case ReaderRetries => if r.readerAttempts == 0 then 0 else r.readerAttempts - 1
    case FirstStepRetries => r.firstStepRetries
    case GuardRetries => r.unknownGuardRetries
    case Verdicts => 0
    case _ => OfOption(r.usage, m)
  }

  function OfJudge(r: JudgeRecord, m: Measure): nat {
    if m.Verdicts? then Called(r) else OfOption(r.usage, m)
  }

  function AnswerWeights(answers: map<string, AnswerRecord>, m: Measure): map<string, nat> {
    map id | id in answers :: OfAnswer(answers[id], m)
  }

  function JudgeWeights(judges: map<string, JudgeRecord>, m: Measure): map<string, nat> {
    map id | id in judges :: OfJudge(judges[id], m)
  }

  function OfUsages(usages: seq<Usage>, m: Measure): nat {
    if usages == [] then 0 else OfUsage(usages[0], m) + OfUsages(usages[1..], m)
  }

  function Interrupted(s: State, m: Measure): nat {
    match m
    case Calls => s.interruptedAnswerCalls
    case Verdicts => s.interruptedJudgeCalls
    case _ => 0
  }

  /** The total of a measure over a checkpoint. */
  ghost function Measured(s: State, m: Measure): nat {
    Interrupted(s, m) + OfUsages(s.preflightUsages, m) + OfUsages(s.interruptedUsages, m)
      + Total(AnswerWeights(s.answers, m)) + Total(JudgeWeights(s.judges, m))
  }

  /** The measured spend is the accounted cost, and the measured calls are what
      the budgets bound. */
  lemma MeasuresAgree(s: State)
    ensures Measured(s, Spent) == Accounted(s)
    ensures Measured(s, Calls) == AnswerCallTotal(s)
    ensures Measured(s, Verdicts) == JudgeCallTotal(s)
  {
    SpentIsCost(s.preflightUsages);
    SpentIsCost(s.interruptedUsages);
    assert AnswerWeights(s.answers, Spent) == AnswerCosts(s.answers);
    assert JudgeWeights(s.judges, Spent) == JudgeCosts(s.judges);
    CallsAreNotUsage(s, Calls);
    CallsAreNotUsage(s, Verdicts);
    assert AnswerWeights(s.answers, Calls) == AgentCalls(s.answers);
    assert JudgeWeights(s.judges, Verdicts) == JudgeCalls(s.judges);
    ZeroTotal(JudgeWeights(s.judges, Calls));
    ZeroTotal(AnswerWeights(s.answers, Verdicts));
  }

  lemma {:induction false} SpentIsCost(usages: seq<Usage>)
    ensures OfUsages(usages, Spent) == Cost(usages)
  {
    if usages != [] { SpentIsCost(usages[1..]); }
  }

  lemma CallsAreNotUsage(s: State, m: Measure)
    requires m.Calls? || m.Verdicts?
    ensures OfUsages(s.preflightUsages, m) == 0 && OfUsages(s.interruptedUsages, m) == 0
  {
    NoUsage(s.preflightUsages, m);
    NoUsage(s.interruptedUsages, m);
  }

  lemma {:induction false} NoUsage(usages: seq<Usage>, m: Measure)
    requires m.Calls? || m.Verdicts?
    ensures OfUsages(usages, m) == 0
  {
    if usages != [] { NoUsage(usages[1..], m); }
  }

  lemma {:induction false} UsagesConcat(a: seq<Usage>, b: seq<Usage>, m: Measure)
    ensures OfUsages(a + b, m) == OfUsages(a, m) + OfUsages(b, m)
  {
    if a == [] {
      assert a + b == b;
    } else {
      assert (a + b)[1..] == a[1..] + b;
      UsagesConcat(a[1..], b, m);
    }
  }

  lemma AnswersAdd(a: map<string, AnswerRecord>, b: map<string, AnswerRecord>, m: Measure)
    requires a.Keys !! b.Keys
    ensures Total(AnswerWeights(a + b, m)) == Total(AnswerWeights(a, m)) + Total(AnswerWeights(b, m))
  {
    assert AnswerWeights(a + b, m) == AnswerWeights(a, m) + AnswerWeights(b, m);
    TotalUnion(AnswerWeights(a, m), AnswerWeights(b, m));
  }

  lemma JudgesAdd(a: map<string, JudgeRecord>, b: map<string, JudgeRecord>, m: Measure)
    requires a.Keys !! b.Keys
    ensures Total(JudgeWeights(a + b, m)) == Total(JudgeWeights(a, m)) + Total(JudgeWeights(b, m))
  {
    assert JudgeWeights(a + b, m) == JudgeWeights(a, m) + JudgeWeights(b, m);
    TotalUnion(JudgeWeights(a, m), JudgeWeights(b, m));
  }

  lemma DisjointMeasures(s: State, t: State, m: Measure)
    requires s.answers.Keys !! t.answers.Keys && s.judges.Keys !! t.judges.Keys
    ensures Measured(Join(s, t), m) == Measured(s, m) + Measured(t, m)
  {
    UsagesConcat(s.preflightUsages, t.preflightUsages, m);
    UsagesConcat(s.interruptedUsages, t.interruptedUsages, m);
    AnswersAdd(s.answers, t.answers, m);
    JudgesAdd(s.judges, t.judges, m);
  }

  lemma JoinMeasures(p: Plan, s: State, t: State, m: Measure)
    requires StateValid(p, s) && StateValid(p, t) && Apart(p, s, t)
    ensures Measured(Join(s, t), m) == Measured(s, m) + Measured(t, m)
  {
    ApartKeys(p, s, t);
    DisjointMeasures(s, t, m);
  }

  // ---- the merged state is valid ----

  lemma JoinAccounts(p: Plan, s: State, t: State)
    requires StateValid(p, s) && StateValid(p, t) && Apart(p, s, t)
    ensures Accounted(Join(s, t)) == Accounted(s) + Accounted(t)
  {
    JoinMeasures(p, s, t, Spent);
    MeasuresAgree(s);
    MeasuresAgree(t);
    MeasuresAgree(Join(s, t));
  }

  lemma JoinIsValid(p: Plan, s: State, t: State)
    requires StateValid(p, s) && StateValid(p, t) && Apart(p, s, t)
    ensures StateValid(p, Join(s, t))
  {
    JoinAccounts(p, s, t);
    JoinFits(p, s, t);
  }

  lemma JoinFits(p: Plan, s: State, t: State)
    requires StateValid(p, s) && StateValid(p, t)
    ensures
      var j := Join(s, t);
      && j.answers.Keys <= p.questions.Keys
      && (forall id :: id in j.answers ==>
            j.answers[id].itemId == id && NamesQuestion(j.answers[id], p.questions[id]) && Ranked(j.answers[id].claims))
  {
  }

  /** The merged state of valid, disjoint shards passes every check of a
      reload, accounting included, and records exactly the shards' samples. */
  lemma {:induction false} MergedIsValid(p: Plan, parts: seq<State>)
    requires DisjointSamples(p, parts) && forall s :: s in parts ==> StateValid(p, s)
    ensures StateValid(p, Merged(p, parts)) && RecordedSamples(p, Merged(p, parts)) == AllRecorded(p, parts)
  {
    if parts == [] {
    } else {
      var n := |parts| - 1;
      SplitLast(p, parts);
      MergedIsValid(p, parts[..n]);
      OwnedIsValid(p, parts[n]);
      RecordedOfJoin(p, Merged(p, parts[..n]), Owned(p, parts[n]));
      JoinIsValid(p, Merged(p, parts[..n]), Owned(p, parts[n]));
    }
  }

  /** A shard holds this ingest record, of a sample it records. */
  ghost predicate OwnsIngest(p: Plan, s: State, r: string) {
    r in s.ingests && RecordsSample(p, s, s.ingests[r].sampleId)
  }

  lemma OneOwner(p: Plan, s: State, t: State, r: string)
    requires StateValid(p, s) && StateValid(p, t) && Apart(p, s, t) && OwnsIngest(p, s, r)
    ensures !OwnsIngest(p, t, r)
  {
    var sample := p.documentMap[r].sampleId;
    assert s.ingests[r].sampleId == sample && (r in t.ingests ==> t.ingests[r].sampleId == sample);
    RecordedSamplesAre(p, s, sample);
    RecordedSamplesAre(p, t, sample);
  }

  lemma OwnedIngest(p: Plan, s: State, r: string)
    ensures r in Owned(p, s).ingests <==> OwnsIngest(p, s, r)
    ensures OwnsIngest(p, s, r) ==> Owned(p, s).ingests[r] == s.ingests[r]
  {
    if r in s.ingests { RecordedSamplesAre(p, s, s.ingests[r].sampleId); }
  }

  lemma LastOwner(p: Plan, parts: seq<State>, i: nat, r: string)
    requires DisjointSamples(p, parts) && forall s :: s in parts ==> StateValid(p, s)
    requires i < |parts| - 1 && OwnsIngest(p, parts[i], r)
    ensures !OwnsIngest(p, parts[|parts| - 1], r)
  {
    OneOwner(p, parts[i], parts[|parts| - 1], r);
  }

  /** The merge holds the ingest records of the samples that their shard records,
      each unchanged. */
  lemma {:induction false} MergedIngest(p: Plan, parts: seq<State>, i: nat, r: string)
    requires DisjointSamples(p, parts) && forall s :: s in parts ==> StateValid(p, s)
    requires i < |parts| && OwnsIngest(p, parts[i], r)
    ensures r in Merged(p, parts).ingests && Merged(p, parts).ingests[r] == parts[i].ingests[r]
  {
    var n := |parts| - 1;
    OwnedIngest(p, parts[n], r);
    if i < n {
      SplitLast(p, parts);
      MergedIngest(p, parts[..n], i, r);
      LastOwner(p, parts, i, r);
    }
  }

  /** And no others. */
  lemma {:induction false} IngestSource(p: Plan, parts: seq<State>, r: string) returns (i: nat)
    requires r in Merged(p, parts).ingests
    ensures i < |parts| && OwnsIngest(p, parts[i], r)
  {
    var n := |parts| - 1;
    OwnedIngest(p, parts[n], r);
    if OwnsIngest(p, parts[n], r) {
      i := n;
    } else {
      i := IngestSource(p, parts[..n], r);
    }
  }

  /** A measure summed over shards. */
  ghost function MeasuredOver(parts: seq<State>, m: Measure): nat {
    if parts == [] then 0 else MeasuredOver(parts[..|parts| - 1], m) + Measured(parts[|parts| - 1], m)
  }

  /** Tokens, spend, calls and retries of a merge are the sums over its shards. */
  lemma {:induction false} MergeMeasures(p: Plan, parts: seq<State>, m: Measure)
    requires DisjointSamples(p, parts) && forall s :: s in parts ==> StateValid(p, s)
    ensures Measured(Merged(p, parts), m) == MeasuredOver(parts, m)
  {
    if parts == [] {
    } else {
      var n := |parts| - 1;
      SplitLast(p, parts);
      MergedIsValid(p, parts[..n]);
      OwnedIsValid(p, parts[n]);
      JoinMeasures(p, Merged(p, parts[..n]), Owned(p, parts[n]), m);
      MergeMeasures(p, parts[..n], m);
    }
  }

  // ---- what adds up over questions ----

  /** The answer scorer, on exact rationals. */
  datatype Scorer = Scorer(of: (string, string, Category) -> real)

  function Correctness(q: Question, s: State): nat {
    if q.itemId in s.judges && s.judges[q.itemId].verdict.Correct? then 1 else 0
  }

  function Prediction(q: Question, s: State): Option<string> {
    if q.itemId in s.answers then s.answers[q.itemId].answer else None
  }

  /** A missing, failed or empty answer scores zero. */
  function Score(scorer: Scorer, q: Question, s: State): real {
    var prediction := Prediction(q, s);
    if prediction.None? || prediction.value == "" then 0.0
    else scorer.of(prediction.value, AnswerLoop.Gold(q), q.category)
  }

  function CorrectOver(questions: seq<Question>, s: State): nat {
    if questions == [] then 0 else Correctness(questions[0], s) + CorrectOver(questions[1..], s)
  }

  function ScoreOver(scorer: Scorer, questions: seq<Question>, s: State): real {
    if questions == [] then 0.0 else Score(scorer, questions[0], s) + ScoreOver(scorer, questions[1..], s)
  }

  lemma {:induction false} JoinGrades(p: Plan, scorer: Scorer, questions: seq<Question>, s: State, t: State)
    requires StateValid(p, s) && StateValid(p, t) && Apart(p, s, t)
    ensures CorrectOver(questions, Join(s, t)) == CorrectOver(questions, s) + CorrectOver(questions, t)
    ensures ScoreOver(scorer, questions, Join(s, t))
      == ScoreOver(scorer, questions, s) + ScoreOver(scorer, questions, t)
  {
    if questions != [] {
      JoinGrades(p, scorer, questions[1..], s, t);
      JoinOneGrade(p, scorer, questions[0], s, t);
    }
  }

  lemma JoinOneGrade(p: Plan, scorer: Scorer, q: Question, s: State, t: State)
    requires StateValid(p, s) && StateValid(p, t) && Apart(p, s, t)
    ensures Correctness(q, Join(s, t)) == Correctness(q, s) + Correctness(q, t)
    ensures Score(scorer, q, Join(s, t)) == Score(scorer, q, s) + Score(scorer, q, t)
  {
    ApartKeys(p, s, t);
  }

  ghost function CorrectIn(questions: seq<Question>, parts: seq<State>): nat {
    if parts == [] then 0
    else CorrectIn(questions, parts[..|parts| - 1]) + CorrectOver(questions, parts[|parts| - 1])
  }

  ghost function ScoreIn(scorer: Scorer, questions: seq<Question>, parts: seq<State>): real {
    if parts == [] then 0.0
    else ScoreIn(scorer, questions, parts[..|parts| - 1]) + ScoreOver(scorer, questions, parts[|parts| - 1])
  }

  lemma {:induction false} GradesIgnoreIngests(p: Plan, scorer: Scorer, questions: seq<Question>, s: State)
    ensures CorrectOver(questions, Owned(p, s)) == CorrectOver(questions, s)
    ensures ScoreOver(scorer, questions, Owned(p, s)) == ScoreOver(scorer, questions, s)
  {
    if questions != [] { GradesIgnoreIngests(p, scorer, questions[1..], s); }
  }

  lemma {:induction false} NothingGraded(scorer: Scorer, questions: seq<Question>)
    ensures CorrectOver(questions, FRESH) == 0 && ScoreOver(scorer, questions, FRESH) == 0.0
  {
    if questions != [] { NothingGraded(scorer, questions[1..]); }
  }

  /** Correct verdicts and summed scores of a merge are the sums over its
      shards, for any selection of questions: the manifest or one category. */
  lemma {:induction false} MergeGrades(p: Plan, scorer: Scorer, questions: seq<Question>, parts: seq<State>)
    requires DisjointSamples(p, parts) && forall s :: s in parts ==> StateValid(p, s)
    ensures CorrectOver(questions, Merged(p, parts)) == CorrectIn(questions, parts)
    ensures ScoreOver(scorer, questions, Merged(p, parts)) == ScoreIn(scorer, questions, parts)
    decreases |parts|
  {
    if parts == [] {
      NothingGraded(scorer, questions);
    } else {
      var n := |parts| - 1;
      SplitLast(p, parts);
      MergedIsValid(p, parts[..n]);
      OwnedIsValid(p, parts[n]);
      JoinGrades(p, scorer, questions, Merged(p, parts[..n]), Owned(p, parts[n]));
      GradesIgnoreIngests(p, scorer, questions, parts[n]);
      MergeGrades(p, scorer, questions, parts[..n]);
    }
  }
}
