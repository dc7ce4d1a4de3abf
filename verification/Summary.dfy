// The summary of a run, computed in one pass over the manifest, and the merged
// summary of several shards.

module Summary {
  import opened Wrappers
  import opened Sums
  import opened Orders
  import opened Records
  import AnswerLoop
  import opened RunHistory
  import opened Merge

  // ---- grading one more question ----

  lemma {:induction false} GradesSnoc(scorer: Scorer, questions: seq<Question>, q: Question, s: State)
    ensures CorrectOver(questions + [q], s) == CorrectOver(questions, s) + Correctness(q, s)
    ensures ScoreOver(scorer, questions + [q], s) == ScoreOver(scorer, questions, s) + Score(scorer, q, s)
  {
    if questions == [] {
      assert questions + [q] == [q];
    } else {
      assert (questions + [q])[1..] == questions[1..] + [q];
      GradesSnoc(scorer, questions[1..], q, s);
    }
  }

  /** The questions of one category, in order. */
  function OfCategory(questions: seq<Question>, c: Category): seq<Question> {
    if questions == [] then []
    else if questions[|questions| - 1].category == c then
      OfCategory(questions[..|questions| - 1], c) + [questions[|questions| - 1]]
    else OfCategory(questions[..|questions| - 1], c)
  }

  /** One category's tally. */
  datatype Cell = Cell(questions: nat, correct: nat, score: real)

  function CellOf(scorer: Scorer, questions: seq<Question>, s: State): Cell {
    Cell(|questions|, CorrectOver(questions, s), ScoreOver(scorer, questions, s))
  }

  function Plus(a: Cell, b: Cell): Cell {
    Cell(a.questions + b.questions, a.correct + b.correct, a.score + b.score)
  }

  function One(scorer: Scorer, q: Question, s: State): Cell {
    Cell(1, Correctness(q, s), Score(scorer, q, s))
  }

  lemma CellSnoc(scorer: Scorer, questions: seq<Question>, q: Question, s: State)
    ensures CellOf(scorer, questions + [q], s)
         == Plus(CellOf(scorer, questions, s), One(scorer, q, s))
  {
    GradesSnoc(scorer, questions, q, s);
  }

  lemma CategorySnoc(scorer: Scorer, questions: seq<Question>, q: Question, s: State, c: Category)
    ensures
      var before := CellOf(scorer, OfCategory(questions, c), s);
      CellOf(scorer, OfCategory(questions + [q], c), s) ==
        if q.category == c then Plus(before, One(scorer, q, s)) else before
  {
    assert (questions + [q])[..|questions|] == questions;
    CellSnoc(scorer, OfCategory(questions, c), q, s);
  }

  /** The four categories together. */
  function Everything(scorer: Scorer, questions: seq<Question>, s: State): Cell {
    Plus(Plus(CellOf(scorer, OfCategory(questions, 1), s), CellOf(scorer, OfCategory(questions, 2), s)),
         Plus(CellOf(scorer, OfCategory(questions, 3), s), CellOf(scorer, OfCategory(questions, 4), s)))
  }

  /** The four categories partition the manifest's questions, verdicts and scores. */
  lemma {:induction false} CategoriesPartition(scorer: Scorer, questions: seq<Question>, s: State)
    ensures Everything(scorer, questions, s) == CellOf(scorer, questions, s)
    decreases |questions|
  {
    if questions != [] {
      var init, q := questions[..|questions| - 1], questions[|questions| - 1];
      assert questions == init + [q];
      CategoriesPartition(scorer, init, s);
      EverythingSnoc(scorer, init, q, s);
      CellSnoc(scorer, init, q, s);
    }
  }

  lemma EverythingSnoc(scorer: Scorer, questions: seq<Question>, q: Question, s: State)
    ensures Everything(scorer, questions + [q], s) == Plus(Everything(scorer, questions, s), One(scorer, q, s))
  {
    CategorySnoc(scorer, questions, q, s, 1);
    CategorySnoc(scorer, questions, q, s, 2);
    CategorySnoc(scorer, questions, q, s, 3);
    CategorySnoc(scorer, questions, q, s, 4);
  }

  // ---- failures ----

  /** The failure counters of a summary. */
  datatype Flaw =
    | MissingAnswer
    | AnswerFailed(kind: FailureKind)
    | MissingJudge
    | JudgeFailed(kind: FailureKind)

  predicate Shows(flaw: Flaw, q: Question, s: State) {
    match flaw
    case MissingAnswer => q.itemId !in s.answers
    case AnswerFailed(kind) => q.itemId in s.answers && s.answers[q.itemId].failure == Some(kind)
    case MissingJudge => q.itemId !in s.judges
    case JudgeFailed(kind) => q.itemId in s.judges && s.judges[q.itemId].failure == Some(kind)
  }

  /** How many questions show a flaw. */
  function Showing(flaw: Flaw, questions: seq<Question>, s: State): nat {
    if questions == [] then 0
    else
      Showing(flaw, questions[..|questions| - 1], s) + AnswerLoop.Count(Shows(flaw, questions[|questions| - 1], s))
  }

  function CountIn(failures: map<Flaw, nat>, flaw: Flaw): nat {
    if flaw in failures then failures[flaw] else 0
  }

  /** A counter holds exactly the flaws that occur, with their numbers. */
  ghost predicate Counted(failures: map<Flaw, nat>, questions: seq<Question>, s: State) {
    && (forall f :: f in failures ==> failures[f] > 0)
    && (forall f :: CountIn(failures, f) == Showing(f, questions, s))
  }

  function AnswerFlaw(q: Question, s: State): Option<Flaw> {
    if q.itemId !in s.answers then Some(MissingAnswer)
    else if s.answers[q.itemId].failure.Some? then Some(AnswerFailed(s.answers[q.itemId].failure.value))
    else None
  }

  function JudgeFlaw(q: Question, s: State): Option<Flaw> {
    if q.itemId !in s.judges then Some(MissingJudge)
    else if s.judges[q.itemId].failure.Some? then Some(JudgeFailed(s.judges[q.itemId].failure.value))
    else None
  }

  /** Counts a flaw, if there is one. */
  method Bump(failures0: map<Flaw, nat>, flaw: Option<Flaw>) returns (failures: map<Flaw, nat>)
    requires forall f :: f in failures0 ==> failures0[f] > 0
    ensures forall f :: f in failures ==> failures[f] > 0
    ensures forall f :: CountIn(failures, f) == CountIn(failures0, f) + AnswerLoop.Count(flaw == Some(f))
  {
    failures := failures0;
    if flaw.Some? {
      failures := failures[flaw.value := CountIn(failures, flaw.value) + 1];
    }
  }

  method CountFlaws(failures0: map<Flaw, nat>, ghost before: seq<Question>, q: Question, s: State)
    returns (failures: map<Flaw, nat>)
    requires Counted(failures0, before, s)
    ensures Counted(failures, before + [q], s)
  {
    failures := Bump(failures0, AnswerFlaw(q, s));
    failures := Bump(failures, JudgeFlaw(q, s));
    forall f ensures CountIn(failures, f) == Showing(f, before + [q], s) {
    }
  }

  // ---- the pass ----

  datatype Tally = Tally(all: Cell, categories: map<Category, Cell>, failures: map<Flaw, nat>)

  ghost predicate Tallied(scorer: Scorer, questions: seq<Question>, s: State, t: Tally) {
    && t.all == CellOf(scorer, questions, s)
    && (forall c: Category :: c in t.categories && t.categories[c] == CellOf(scorer, OfCategory(questions, c), s))
    && Counted(t.failures, questions, s)
  }

  const EMPTY_CELL := Cell(0, 0, 0.0)

  /** Grades every question of the manifest; absent or failed records score zero. */
  method GradeAll(scorer: Scorer, questions: seq<Question>, s: State) returns (t: Tally)
    ensures Tallied(scorer, questions, s, t)
  {
    t := Tally(EMPTY_CELL, map[1 := EMPTY_CELL, 2 := EMPTY_CELL, 3 := EMPTY_CELL, 4 := EMPTY_CELL], map[]);
    for i := 0 to |questions|
      invariant Tallied(scorer, questions[..i], s, t)
    {
      t := GradeNext(scorer, questions[..i], questions[i], s, t);
      assert questions[..i] + [questions[i]] == questions[..i + 1];
    }
    assert questions[..|questions|] == questions;
  }

  method GradeNext(scorer: Scorer, ghost before: seq<Question>, q: Question, s: State, t0: Tally) returns (t: Tally)
    requires Tallied(scorer, before, s, t0)
    ensures Tallied(scorer, before + [q], s, t)
  {
    var failures := CountFlaws(t0.failures, before, q, s);
    var cell := One(scorer, q, s);
    CellSnoc(scorer, before, q, s);
    forall c: Category {
      CategorySnoc(scorer, before, q, s, c);
    }
    t := Tally(Plus(t0.all, cell), t0.categories[q.category := Plus(t0.categories[q.category], cell)], failures);
  }

  // ---- the summary ----

  datatype RunSummary = RunSummary(
    tally: Tally,
    percent: real,
    meanScore: real,
    totals: map<Measure, nat>,
    cost: int
  )

  /** What a summary reports about a checkpoint. */
  ghost predicate Summarizes(p: Plan, scorer: Scorer, s: State, r: RunSummary) {
    && Tallied(scorer, p.manifest, s, r.tally)
    && r.percent * |p.manifest| as real == 100.0 * CorrectOver(p.manifest, s) as real
    && r.meanScore * |p.manifest| as real == ScoreOver(scorer, p.manifest, s)
    && (forall m :: m in r.totals && r.totals[m] == Measured(s, m))
    && r.cost == s.cost
  }

  // ---- what the summary says of the records ----

  predicate JudgedCorrect(q: Question, s: State) {
    q.itemId in s.judges && s.judges[q.itemId].verdict == Correct
  }

  lemma {:induction false} CorrectIsHowMany(
      scorer: Scorer, questions: seq<Question>, s: State, p: Question -> bool)
    requires forall q :: p(q) <==> JudgedCorrect(q, s)
    ensures CorrectOver(questions, s) == HowMany(questions, p)
  {
    if questions != [] {
      var init, q := questions[..|questions| - 1], questions[|questions| - 1];
      assert questions == init + [q];
      CorrectIsHowMany(scorer, init, s, p);
      GradesSnoc(scorer, init, q, s);
    }
  }

  lemma {:induction false} CategoryIsHowMany(
      scorer: Scorer, questions: seq<Question>, s: State, c: Category, p: Question -> bool)
    requires forall q :: p(q) <==> q.category == c && JudgedCorrect(q, s)
    ensures CorrectOver(OfCategory(questions, c), s) == HowMany(questions, p)
  {
    if questions != [] {
      var init, q := questions[..|questions| - 1], questions[|questions| - 1];
      CategoryIsHowMany(scorer, init, s, c, p);
      GradesSnoc(scorer, OfCategory(init, c), q, s);
    }
  }

  lemma {:induction false} CategorySize(questions: seq<Question>, c: Category, p: Question -> bool)
    requires forall q :: p(q) <==> q.category == c
    ensures |OfCategory(questions, c)| == HowMany(questions, p)
  {
    if questions != [] { CategorySize(questions[..|questions| - 1], c, p); }
  }

  lemma {:induction false} ShowingIsHowMany(flaw: Flaw, questions: seq<Question>, s: State, p: Question -> bool)
    requires forall q :: p(q) <==> Shows(flaw, q, s)
    ensures Showing(flaw, questions, s) == HowMany(questions, p)
  {
    if questions != [] { ShowingIsHowMany(flaw, questions[..|questions| - 1], s, p); }
  }

  /** The questions of the manifest, the correct verdicts and the flaws are counted
      as the records stand. */
  ghost predicate CountsQuestions(questions: seq<Question>, s: State, t: Tally) {
    && t.all.questions == |questions|
    && t.all.correct ==
       |set q | q in questions && q.itemId in s.judges && s.judges[q.itemId].verdict == Correct|
    && (forall c: Category :: c in t.categories && CountsCategory(questions, s, c, t.categories[c]))
    && CountIn(t.failures, MissingAnswer) == |set q | q in questions && q.itemId !in s.answers|
    && CountIn(t.failures, MissingJudge) == |set q | q in questions && q.itemId !in s.judges|
    && (forall kind :: CountsFailures(questions, s, t, kind))
  }

  ghost predicate CountsCategory(questions: seq<Question>, s: State, c: Category, cell: Cell) {
    && cell.questions == |set q | q in questions && q.category == c|
    && cell.correct ==
       |set q | q in questions && q.category == c
                && q.itemId in s.judges && s.judges[q.itemId].verdict == Correct|
  }

  ghost predicate CountsFailures(questions: seq<Question>, s: State, t: Tally, kind: FailureKind) {
    && CountIn(t.failures, AnswerFailed(kind)) ==
       |set q | q in questions && q.itemId in s.answers && s.answers[q.itemId].failure == Some(kind)|
    && CountIn(t.failures, JudgeFailed(kind)) ==
       |set q | q in questions && q.itemId in s.judges && s.judges[q.itemId].failure == Some(kind)|
  }

  lemma CategoryCounts(scorer: Scorer, questions: seq<Question>, s: State, c: Category)
    requires Distinct(questions)
    ensures CountsCategory(questions, s, c, CellOf(scorer, OfCategory(questions, c), s))
  {
    var inIt := (q: Question) => q.category == c;
    var correct := (q: Question) => q.category == c && JudgedCorrect(q, s);
    CategorySize(questions, c, inIt);
    HowManyIsSize(questions, inIt);
    CategoryIsHowMany(scorer, questions, s, c, correct);
    HowManyIsSize(questions, correct);
    assert Having(questions, inIt) == set q | q in questions && q.category == c;
    assert Having(questions, correct) ==
      set q | q in questions && q.category == c
              && q.itemId in s.judges && s.judges[q.itemId].verdict == Correct;
  }

  lemma FlawCounts(questions: seq<Question>, s: State, flaw: Flaw, p: Question -> bool)
    requires Distinct(questions) && forall q :: p(q) <==> Shows(flaw, q, s)
    ensures Showing(flaw, questions, s) == |Having(questions, p)|
  {
    ShowingIsHowMany(flaw, questions, s, p);
    HowManyIsSize(questions, p);
  }

  lemma FailuresCounted(questions: seq<Question>, s: State, t: Tally, kind: FailureKind)
    requires Distinct(questions) && Counted(t.failures, questions, s)
    ensures CountsFailures(questions, s, t, kind)
  {
    var answered := (q: Question) => q.itemId in s.answers && s.answers[q.itemId].failure == Some(kind);
    var judged := (q: Question) => q.itemId in s.judges && s.judges[q.itemId].failure == Some(kind);
    FlawCounts(questions, s, AnswerFailed(kind), answered);
    FlawCounts(questions, s, JudgeFailed(kind), judged);
    assert Having(questions, answered) ==
      set q | q in questions && q.itemId in s.answers && s.answers[q.itemId].failure == Some(kind);
    assert Having(questions, judged) ==
      set q | q in questions && q.itemId in s.judges && s.judges[q.itemId].failure == Some(kind);
  }

  lemma MissingCounted(questions: seq<Question>, s: State)
    requires Distinct(questions)
    ensures Showing(MissingAnswer, questions, s) == |set q | q in questions && q.itemId !in s.answers|
    ensures Showing(MissingJudge, questions, s) == |set q | q in questions && q.itemId !in s.judges|
  {
    var unanswered, unjudged := (q: Question) => q.itemId !in s.answers, (q: Question) => q.itemId !in s.judges;
    FlawCounts(questions, s, MissingAnswer, unanswered);
    FlawCounts(questions, s, MissingJudge, unjudged);
    assert Having(questions, unanswered) == set q | q in questions && q.itemId !in s.answers;
    assert Having(questions, unjudged) == set q | q in questions && q.itemId !in s.judges;
  }

  lemma CorrectCounted(scorer: Scorer, questions: seq<Question>, s: State)
    requires Distinct(questions)
    ensures CorrectOver(questions, s) ==
      |set q | q in questions && q.itemId in s.judges && s.judges[q.itemId].verdict == Correct|
  {
    var correct := (q: Question) => JudgedCorrect(q, s);
    CorrectIsHowMany(scorer, questions, s, correct);
    HowManyIsSize(questions, correct);
    assert Having(questions, correct) ==
      set q | q in questions && q.itemId in s.judges && s.judges[q.itemId].verdict == Correct;
  }

  /** What a tally counts, told by the records alone. */
  lemma TallyTells(scorer: Scorer, questions: seq<Question>, s: State, t: Tally)
    requires Distinct(questions) && Tallied(scorer, questions, s, t)
    ensures CountsQuestions(questions, s, t)
  {
    CorrectCounted(scorer, questions, s);
    MissingCounted(questions, s);
    forall c: Category ensures CountsCategory(questions, s, c, t.categories[c]) {
      CategoryCounts(scorer, questions, s, c);
    }
    forall kind ensures CountsFailures(questions, s, t, kind) {
      FailuresCounted(questions, s, t, kind);
    }
  }

  /** The percentage is full if and only if every question was judged correct, and
      zero if and only if none was. */
  lemma PercentTells(p: Plan, scorer: Scorer, s: State, r: RunSummary)
    requires p.manifest != [] && Distinct(p.manifest) && Summarizes(p, scorer, s, r)
    ensures r.percent == 100.0 <==>
      forall q :: q in p.manifest ==> q.itemId in s.judges && s.judges[q.itemId].verdict == Correct
    ensures r.percent == 0.0 <==>
      forall q :: q in p.manifest && q.itemId in s.judges ==> s.judges[q.itemId].verdict == Wrong
  {
    AllOrNone(scorer, p.manifest, s);
    PercentIs(r.percent, |p.manifest|, CorrectOver(p.manifest, s));
  }

  lemma PercentIs(percent: real, n: nat, correct: nat)
    requires n > 0 && percent * n as real == 100.0 * correct as real
    ensures (percent == 100.0 <==> correct == n) && (percent == 0.0 <==> correct == 0)
  {
    if correct == n {
      assert correct as real == n as real;
      Cancel(percent, 100.0, n as real);
    }
    if correct == 0 {
      assert 0.0 * n as real == 0.0 == 100.0 * correct as real;
      Cancel(percent, 0.0, n as real);
    }
  }

  lemma Cancel(a: real, b: real, n: real)
    requires n > 0.0 && a * n == b * n
    ensures a == b
  {
    assert a == a * n / n && b == b * n / n;
  }

  lemma {:induction false} AllOrNone(scorer: Scorer, questions: seq<Question>, s: State)
    ensures CorrectOver(questions, s) <= |questions|
    ensures CorrectOver(questions, s) == |questions| <==>
      forall q :: q in questions ==> q.itemId in s.judges && s.judges[q.itemId].verdict == Correct
    ensures CorrectOver(questions, s) == 0 <==>
      forall q :: q in questions && q.itemId in s.judges ==> s.judges[q.itemId].verdict == Wrong
  {
    if questions != [] {
      AllOrNone(scorer, questions[1..], s);
      assert questions == [questions[0]] + questions[1..];
    }
  }

  /** A question adds nothing without a stored answer, and otherwise the scorer's
      value for this answer, its gold and its category; questions add up. */
  lemma {:induction false} ScoresAddUp(scorer: Scorer, a: seq<Question>, b: seq<Question>, s: State)
    ensures ScoreOver(scorer, a + b, s) == ScoreOver(scorer, a, s) + ScoreOver(scorer, b, s)
  {
    if a == [] {
      assert a + b == b;
    } else {
      assert (a + b)[1..] == a[1..] + b;
      ScoresAddUp(scorer, a[1..], b, s);
    }
  }

  lemma ScoreOfOne(scorer: Scorer, q: Question, s: State)
    ensures ScoreOver(scorer, [], s) == 0.0
    ensures q.itemId in s.answers && s.answers[q.itemId].answer.Some? && s.answers[q.itemId].answer.value != "" ==>
      ScoreOver(scorer, [q], s) ==
        scorer.of(s.answers[q.itemId].answer.value, if q.answer.Some? then q.answer.value else "", q.category)
    ensures q.itemId !in s.answers || s.answers[q.itemId].answer.None? || s.answers[q.itemId].answer.value == "" ==>
      ScoreOver(scorer, [q], s) == 0.0
  {
    assert [q][1..] == [];
  }

  // ---- the totals ----

  /** The answers' readers, the judgments and the unowned usages together make up
      each token total and the spend. */
  ghost predicate UsagesTell(s: State, totals: map<Measure, nat>)
    requires forall m :: m in totals
  {
    && totals[InTokens] ==
       TokensIn(s.preflightUsages) + TokensIn(s.interruptedUsages)
       + Total(map id | id in s.answers :: if s.answers[id].usage.Some? then s.answers[id].usage.value.tokensIn else 0)
       + Total(map id | id in s.judges :: if s.judges[id].usage.Some? then s.judges[id].usage.value.tokensIn else 0)
    && totals[OutTokens] ==
       TokensOut(s.preflightUsages) + TokensOut(s.interruptedUsages)
       + Total(map id | id in s.answers :: if s.answers[id].usage.Some? then s.answers[id].usage.value.tokensOut else 0)
       + Total(map id | id in s.judges :: if s.judges[id].usage.Some? then s.judges[id].usage.value.tokensOut else 0)
    && totals[Spent] ==
       Cost(s.preflightUsages) + Cost(s.interruptedUsages)
       + Total(map id | id in s.answers :: if s.answers[id].usage.Some? then s.answers[id].usage.value.cost else 0)
       + Total(map id | id in s.judges :: if s.judges[id].usage.Some? then s.judges[id].usage.value.cost else 0)
  }

  /** Every other total is the sum over the records of the field it is named for. */
  ghost predicate RecordsTell(s: State, totals: map<Measure, nat>)
    requires forall m :: m in totals
  {
    && totals[Calls] == s.interruptedAnswerCalls + Total(map id | id in s.answers :: s.answers[id].agentCalls)
    && totals[ReaderRetries] ==
       Total(map id | id in s.answers ::
               if s.answers[id].readerAttempts > 1 then s.answers[id].readerAttempts - 1 else 0)
    && totals[FirstStepRetries] == Total(map id | id in s.answers :: s.answers[id].firstStepRetries)
    && totals[GuardRetries] == Total(map id | id in s.answers :: s.answers[id].unknownGuardRetries)
    && totals[Verdicts] ==
       s.interruptedJudgeCalls + Total(map id | id in s.judges :: if s.judges[id].modelCalled then 1 else 0)
  }

  lemma {:induction false} UsagesSum(usages: seq<Usage>)
    ensures OfUsages(usages, InTokens) == TokensIn(usages)
    ensures OfUsages(usages, OutTokens) == TokensOut(usages)
    ensures OfUsages(usages, Spent) == Cost(usages)
  {
    if usages != [] { UsagesSum(usages[1..]); }
  }

  lemma InTokensTell(s: State)
    ensures Measured(s, InTokens) ==
      TokensIn(s.preflightUsages) + TokensIn(s.interruptedUsages)
      + Total(map id | id in s.answers :: if s.answers[id].usage.Some? then s.answers[id].usage.value.tokensIn else 0)
      + Total(map id | id in s.judges :: if s.judges[id].usage.Some? then s.judges[id].usage.value.tokensIn else 0)
  {
    UsagesSum(s.preflightUsages);
    UsagesSum(s.interruptedUsages);
    assert AnswerWeights(s.answers, InTokens) ==
      map id | id in s.answers :: if s.answers[id].usage.Some? then s.answers[id].usage.value.tokensIn else 0;
    assert JudgeWeights(s.judges, InTokens) ==
      map id | id in s.judges :: if s.judges[id].usage.Some? then s.judges[id].usage.value.tokensIn else 0;
  }

  lemma OutTokensTell(s: State)
    ensures Measured(s, OutTokens) ==
      TokensOut(s.preflightUsages) + TokensOut(s.interruptedUsages)
      + Total(map id | id in s.answers :: if s.answers[id].usage.Some? then s.answers[id].usage.value.tokensOut else 0)
      + Total(map id | id in s.judges :: if s.judges[id].usage.Some? then s.judges[id].usage.value.tokensOut else 0)
  {
    UsagesSum(s.preflightUsages);
    UsagesSum(s.interruptedUsages);
    assert AnswerWeights(s.answers, OutTokens) ==
      map id | id in s.answers :: if s.answers[id].usage.Some? then s.answers[id].usage.value.tokensOut else 0;
    assert JudgeWeights(s.judges, OutTokens) ==
      map id | id in s.judges :: if s.judges[id].usage.Some? then s.judges[id].usage.value.tokensOut else 0;
  }

  lemma SpentTell(s: State)
    ensures Measured(s, Spent) ==
      Cost(s.preflightUsages) + Cost(s.interruptedUsages)
      + Total(map id | id in s.answers :: if s.answers[id].usage.Some? then s.answers[id].usage.value.cost else 0)
      + Total(map id | id in s.judges :: if s.judges[id].usage.Some? then s.judges[id].usage.value.cost else 0)
  {
    UsagesSum(s.preflightUsages);
    UsagesSum(s.interruptedUsages);
    assert AnswerWeights(s.answers, Spent) ==
      map id | id in s.answers :: if s.answers[id].usage.Some? then s.answers[id].usage.value.cost else 0;
    assert JudgeWeights(s.judges, Spent) ==
      map id | id in s.judges :: if s.judges[id].usage.Some? then s.judges[id].usage.value.cost else 0;
  }

  lemma {:induction false} NotOfUsages(usages: seq<Usage>, m: Measure)
    requires m !in {InTokens, OutTokens, Spent}
    ensures OfUsages(usages, m) == 0
  {
    if usages != [] { NotOfUsages(usages[1..], m); }
  }

  lemma OnlyOfAnswers(s: State, m: Measure)
    requires m in {Calls, ReaderRetries, FirstStepRetries, GuardRetries}
    ensures Measured(s, m) == Interrupted(s, m) + Total(AnswerWeights(s.answers, m))
  {
    NotOfUsages(s.preflightUsages, m);
    NotOfUsages(s.interruptedUsages, m);
    ZeroTotal(JudgeWeights(s.judges, m));
  }

  lemma OnlyOfJudges(s: State)
    ensures Measured(s, Verdicts) == s.interruptedJudgeCalls + Total(JudgeWeights(s.judges, Verdicts))
  {
    NotOfUsages(s.preflightUsages, Verdicts);
    NotOfUsages(s.interruptedUsages, Verdicts);
    ZeroTotal(AnswerWeights(s.answers, Verdicts));
  }

  lemma CallsTell(s: State)
    ensures Measured(s, Calls) == s.interruptedAnswerCalls + Total(map id | id in s.answers :: s.answers[id].agentCalls)
  {
    OnlyOfAnswers(s, Calls);
    assert AnswerWeights(s.answers, Calls) == map id | id in s.answers :: s.answers[id].agentCalls;
  }

  lemma ReaderRetriesTell(s: State)
    ensures Measured(s, ReaderRetries) ==
      Total(map id | id in s.answers ::
              if s.answers[id].readerAttempts > 1 then s.answers[id].readerAttempts - 1 else 0)
  {
    OnlyOfAnswers(s, ReaderRetries);
    assert AnswerWeights(s.answers, ReaderRetries) ==
      map id | id in s.answers :: if s.answers[id].readerAttempts > 1 then s.answers[id].readerAttempts - 1 else 0;
  }

  lemma FirstStepRetriesTell(s: State)
    ensures Measured(s, FirstStepRetries) == Total(map id | id in s.answers :: s.answers[id].firstStepRetries)
  {
    OnlyOfAnswers(s, FirstStepRetries);
    assert AnswerWeights(s.answers, FirstStepRetries) == map id | id in s.answers :: s.answers[id].firstStepRetries;
  }

  lemma GuardRetriesTell(s: State)
    ensures Measured(s, GuardRetries) == Total(map id | id in s.answers :: s.answers[id].unknownGuardRetries)
  {
    OnlyOfAnswers(s, GuardRetries);
    assert AnswerWeights(s.answers, GuardRetries) == map id | id in s.answers :: s.answers[id].unknownGuardRetries;
  }

  lemma VerdictsTell(s: State)
    ensures Measured(s, Verdicts) ==
      s.interruptedJudgeCalls + Total(map id | id in s.judges :: if s.judges[id].modelCalled then 1 else 0)
  {
    OnlyOfJudges(s);
    assert JudgeWeights(s.judges, Verdicts) ==
      map id | id in s.judges :: if s.judges[id].modelCalled then 1 else 0;
  }

  /** The totals of a checkpoint, told by its records alone. */
  lemma TotalsTell(s: State, totals: map<Measure, nat>)
    requires forall m :: m in totals && totals[m] == Measured(s, m)
    ensures UsagesTell(s, totals) && RecordsTell(s, totals)
  {
    InTokensTell(s);
    OutTokensTell(s);
    SpentTell(s);
    CallsTell(s);
    ReaderRetriesTell(s);
    FirstStepRetriesTell(s);
    GuardRetriesTell(s);
    VerdictsTell(s);
  }

  /** A summary, told by the records of its checkpoint alone. */
  ghost predicate SummaryTells(p: Plan, s: State, r: RunSummary) {
    && CountsQuestions(p.manifest, s, r.tally)
    && r.percent * |p.manifest| as real == 100.0 * r.tally.all.correct as real
    && r.meanScore * |p.manifest| as real == r.tally.all.score
    && (forall m :: m in r.totals) && UsagesTell(s, r.totals) && RecordsTell(s, r.totals)
    && r.cost == s.cost
  }

  lemma EverySummaryTells(p: Plan, scorer: Scorer, s: State, r: RunSummary)
    requires Summarizes(p, scorer, s, r)
    ensures Distinct(p.manifest) ==> SummaryTells(p, s, r)
  {
    if Distinct(p.manifest) { TallyTells(scorer, p.manifest, s, r.tally); }
    TotalsTell(s, r.totals);
  }

  method SumUsages(usages: seq<Usage>, m: Measure) returns (total: nat)
    ensures total == OfUsages(usages, m)
  {
    total := 0;
    assert usages[0..] == usages;
    for i := 0 to |usages|
      invariant total + OfUsages(usages[i..], m) == OfUsages(usages, m)
    {
      assert usages[i..][1..] == usages[i + 1..];
      total := total + OfUsage(usages[i], m);
    }
  }

  method SumMeasure(s: State, m: Measure) returns (total: nat)
    ensures total == Measured(s, m)
  {
    var preflight := SumUsages(s.preflightUsages, m);
    var interrupted := SumUsages(s.interruptedUsages, m);
    var answers := SumValues(AnswerWeights(s.answers, m));
    var judges := SumValues(JudgeWeights(s.judges, m));
    total := Interrupted(s, m) + preflight + interrupted + answers + judges;
  }

  const MEASURES := [Calls, ReaderRetries, FirstStepRetries, GuardRetries, Verdicts, InTokens, OutTokens, Spent]

  lemma MeasuresAreListed(m: Measure)
    ensures m in MEASURES
  {
    match m
    case Calls => assert m == MEASURES[0];
    case ReaderRetries => assert m == MEASURES[1];
    case FirstStepRetries => assert m == MEASURES[2];
    case GuardRetries => assert m == MEASURES[3];
    case Verdicts => assert m == MEASURES[4];
    case InTokens => assert m == MEASURES[5];
    case OutTokens => assert m == MEASURES[6];
    case Spent => assert m == MEASURES[7];
  }

  method SumMeasures(s: State) returns (totals: map<Measure, nat>)
    ensures forall m :: m in totals && totals[m] == Measured(s, m)
  {
    totals := map[];
    for i := 0 to |MEASURES|
      invariant forall m :: m in totals ==> totals[m] == Measured(s, m)
      invariant forall k :: 0 <= k < i ==> MEASURES[k] in totals
    {
      var total := SumMeasure(s, MEASURES[i]);
      totals := totals[MEASURES[i] := total];
    }
    forall m ensures m in totals {
      MeasuresAreListed(m);
    }
  }

  /** Summarizes one checkpoint of a prepared, non-empty run. */
  method Summarize(p: Plan, scorer: Scorer, s: State) returns (r: RunSummary)
    requires p.manifest != []
    ensures Summarizes(p, scorer, s, r)
    ensures Distinct(p.manifest) ==> SummaryTells(p, s, r)
  {
    var tally := GradeAll(scorer, p.manifest, s);
    var totals := SumMeasures(s);
    var percent := Mean(100.0 * tally.all.correct as real, |p.manifest|);
    var meanScore := Mean(tally.all.score, |p.manifest|);
    r := RunSummary(tally, percent, meanScore, totals, s.cost);
    EverySummaryTells(p, scorer, s, r);
  }

  /** A sum over `n` questions, averaged. */
  function Mean(sum: real, n: nat): (mean: real)
    requires n > 0
    ensures mean * n as real == sum
  {
    sum / n as real
  }

  /** On a checkpoint that passed the reload's checks, the reported cost is the
      total of every usage it holds. */
  lemma ReportedCostIsSpent(p: Plan, scorer: Scorer, s: State, r: RunSummary)
    requires StateValid(p, s) && Summarizes(p, scorer, s, r)
    ensures r.cost == r.totals[Spent]
  {
    MeasuresAgree(s);
  }

  // ---- several shards ----

  /** One shard as loaded. The plan stands for its identity: its protocol,
      dataset and manifest hashes. */
  datatype Shard = Shard(plan: Plan, state: State)

  datatype MergeError = NoRuns | IdentityDiffers(shard: nat) | SampleRecordedTwice

  datatype MergeResult =
    | Failure(error: MergeError)
    | Summarized(summary: RunSummary, missing: seq<string>)

  function StatesOf(shards: seq<Shard>): seq<State> {
    seq(|shards|, i requires 0 <= i < |shards| => shards[i].state)
  }

  /** What a summary of shards reports: for the manifest, every category and
      every measure, the sums over the shards. */
  ghost predicate SumsShards(p: Plan, scorer: Scorer, parts: seq<State>, r: RunSummary) {
    && r.tally.all.correct == CorrectIn(p.manifest, parts)
    && r.tally.all.score == ScoreIn(scorer, p.manifest, parts)
    && (forall c: Category ::
          && c in r.tally.categories
          && r.tally.categories[c].correct == CorrectIn(OfCategory(p.manifest, c), parts)
          && r.tally.categories[c].score == ScoreIn(scorer, OfCategory(p.manifest, c), parts))
    && (forall m :: m in r.totals && r.totals[m] == MeasuredOver(parts, m))
    && r.cost == MeasuredOver(parts, Spent)
  }

  lemma MergedSummaryAddsUp(p: Plan, scorer: Scorer, parts: seq<State>, r: RunSummary)
    requires DisjointSamples(p, parts) && forall s :: s in parts ==> StateValid(p, s)
    requires Summarizes(p, scorer, Merged(p, parts), r)
    ensures SumsShards(p, scorer, parts, r)
  {
    MergedIsValid(p, parts);
    ReportedCostIsSpent(p, scorer, Merged(p, parts), r);
    MergeGrades(p, scorer, p.manifest, parts);
    forall c: Category
      ensures r.tally.categories[c].correct == CorrectIn(OfCategory(p.manifest, c), parts)
      ensures r.tally.categories[c].score == ScoreIn(scorer, OfCategory(p.manifest, c), parts)
    {
      MergeGrades(p, scorer, OfCategory(p.manifest, c), parts);
    }
    forall m ensures r.totals[m] == MeasuredOver(parts, m) {
      MergeMeasures(p, parts, m);
    }
  }

  /** Merges and summarizes at least two shards of one identity. */
  method SummarizeMerged(p: Plan, scorer: Scorer, sampleIds: seq<string>, parts: seq<State>) returns (r: MergeResult)
    requires p.manifest != [] && forall s :: s in parts ==> StateValid(p, s)
    ensures r.Summarized? <==> DisjointSamples(p, parts)
    ensures r.Summarized? ==> Summarizes(p, scorer, Merged(p, parts), r.summary)
    ensures r.Summarized? && Distinct(p.manifest) ==> SummaryTells(p, Merged(p, parts), r.summary)
    ensures r.Summarized? ==> SumsShards(p, scorer, parts, r.summary)
    ensures r.Summarized? ==> NamesMissing(p, sampleIds, parts, r.missing)
  {
    var recorded := RequireDisjointSamples(p, parts);
    if recorded.None? {
      return Failure(SampleRecordedTwice);
    }
    var summary := Summarize(p, scorer, Merged(p, parts));
    MergedSummaryAddsUp(p, scorer, parts, summary);
    UnrecordedAre(p, sampleIds, parts);
    r := Summarized(summary, Unrecorded(sampleIds, recorded.value));
  }

  /** The configured samples that no shard recorded, in order. */
  function Unrecorded(sampleIds: seq<string>, recorded: set<string>): seq<string> {
    Filter(sampleIds, (id: string) => id !in recorded)
  }

  /** The configured samples that no shard records, in their order. */
  ghost predicate NamesMissing(p: Plan, sampleIds: seq<string>, parts: seq<State>, missing: seq<string>) {
    && Subsequence(missing, sampleIds)
    && forall x :: x in missing <==> x in sampleIds && forall s :: s in parts ==> !RecordsSample(p, s, x)
  }

  lemma UnrecordedAre(p: Plan, sampleIds: seq<string>, parts: seq<State>)
    ensures NamesMissing(p, sampleIds, parts, Unrecorded(sampleIds, AllRecorded(p, parts)))
  {
    var recorded := AllRecorded(p, parts);
    FilterSubsequence(sampleIds, (id: string) => id !in recorded);
    FilterMembers(sampleIds, (id: string) => id !in recorded);
    forall x ensures x in recorded <==> exists s :: s in parts && RecordsSample(p, s, x) {
      forall s ensures x in RecordedSamples(p, s) <==> RecordsSample(p, s, x) { RecordedSamplesAre(p, s, x); }
      if s :| s in parts && RecordsSample(p, s, x) {
        var i :| 0 <= i < |parts| && parts[i] == s;
        assert x in RecordedSamples(p, parts[i]);
      }
    }
  }

  lemma PartOfShard(shards: seq<Shard>, p: Plan)
    requires forall k :: 0 <= k < |shards| ==> shards[k].plan == p && StateValid(shards[k].plan, shards[k].state)
    ensures forall s :: s in StatesOf(shards) ==> StateValid(p, s)
  {
  }

  /** Validates and summarizes one or more shards. */
  method SummarizeRuns(scorer: Scorer, sampleIds: seq<string>, shards: seq<Shard>) returns (r: MergeResult)
    requires forall k :: 0 <= k < |shards| ==>
      shards[k].plan.manifest != [] && StateValid(shards[k].plan, shards[k].state)
    ensures r.Summarized? <==>
      && shards != []
      && (forall k :: 0 <= k < |shards| ==> shards[k].plan == shards[0].plan)
      && NoneTwice(shards[0].plan, StatesOf(shards))
    ensures r.Summarized? ==> SumsShards(shards[0].plan, scorer, StatesOf(shards), r.summary)
    ensures r.Summarized? ==>
      var all := if |shards| == 1 then shards[0].state else Merged(shards[0].plan, StatesOf(shards));
      && Summarizes(shards[0].plan, scorer, all, r.summary)
      && (Distinct(shards[0].plan.manifest) ==> SummaryTells(shards[0].plan, all, r.summary))
    ensures r.Summarized? && |shards| > 1 ==> NamesMissing(shards[0].plan, sampleIds, StatesOf(shards), r.missing)
  {
    if shards == [] {
      return Failure(NoRuns);
    }
    var p := shards[0].plan;
    if |shards| == 1 {
      var only := Summarize(p, scorer, shards[0].state);
      assert StatesOf(shards) == [shards[0].state];
      OneShard(p, scorer, shards[0].state, only);
      return Summarized(only, []);
    }
    for k := 1 to |shards|
      invariant forall j :: 0 <= j < k ==> shards[j].plan == p
    {
      if shards[k].plan != p {
        return Failure(IdentityDiffers(k));
      }
    }
    PartOfShard(shards, p);
    DisjointIsNoneTwice(p, StatesOf(shards));
    r := SummarizeMerged(p, scorer, sampleIds, StatesOf(shards));
  }

  lemma OneShard(p: Plan, scorer: Scorer, s: State, r: RunSummary)
    requires StateValid(p, s)
    requires Summarizes(p, scorer, s, r)
    ensures SumsShards(p, scorer, [s], r) && NoneTwice(p, [s])
  {
    ReportedCostIsSpent(p, scorer, s, r);
    OneShardGrades(scorer, p.manifest, s);
    forall c: Category {
      OneShardGrades(scorer, OfCategory(p.manifest, c), s);
    }
    forall m ensures r.totals[m] == MeasuredOver([s], m) {
      assert MeasuredOver([s], m) == MeasuredOver([s][..0], m) + Measured(s, m);
    }
  }

  lemma OneShardGrades(scorer: Scorer, questions: seq<Question>, s: State)
    ensures CorrectIn(questions, [s]) == CorrectOver(questions, s)
    ensures ScoreIn(scorer, questions, [s]) == ScoreOver(scorer, questions, s)
  {
    assert [s][..0] == [];
  }

  // ---- the order of the shards ----

  lemma {:induction false} MergedLookup(p: Plan, parts: seq<State>, s: State)
    requires DisjointSamples(p, parts) && forall t :: t in parts ==> StateValid(p, t)
    requires s in parts
    ensures forall id :: id in s.answers ==>
      id in Merged(p, parts).answers && Merged(p, parts).answers[id] == s.answers[id]
    ensures forall id :: id in s.judges ==> id in Merged(p, parts).judges && Merged(p, parts).judges[id] == s.judges[id]
  {
    var n := |parts| - 1;
    SplitLast(p, parts);
    if s != parts[n] {
      assert s in parts[..n];
      MergedLookup(p, parts[..n], s);
      MergedIsValid(p, parts[..n]);
      OwnedIsValid(p, parts[n]);
      ApartKeys(p, Merged(p, parts[..n]), Owned(p, parts[n]));
    }
  }

  lemma {:induction false} MergedSource(p: Plan, parts: seq<State>)
    ensures forall id :: id in Merged(p, parts).answers ==> exists s :: s in parts && id in s.answers
    ensures forall id :: id in Merged(p, parts).judges ==> exists s :: s in parts && id in s.judges
  {
    if parts != [] {
      var n := |parts| - 1;
      MergedSource(p, parts[..n]);
      assert parts[n] in parts;
      assert forall s :: s in parts[..n] ==> s in parts;
    }
  }

  lemma MergedRecords(p: Plan, parts: seq<State>, other: seq<State>)
    requires DisjointSamples(p, parts) && DisjointSamples(p, other)
    requires forall s :: s in parts ==> s in other
    requires forall s :: s in other ==> StateValid(p, s)
    ensures forall id :: id in Merged(p, parts).answers ==>
      id in Merged(p, other).answers && Merged(p, other).answers[id] == Merged(p, parts).answers[id]
    ensures forall id :: id in Merged(p, parts).judges ==>
      id in Merged(p, other).judges && Merged(p, other).judges[id] == Merged(p, parts).judges[id]
  {
    MergedSource(p, parts);
    forall id | id in Merged(p, parts).answers
      ensures id in Merged(p, other).answers && Merged(p, other).answers[id] == Merged(p, parts).answers[id]
    {
      var s :| s in parts && id in s.answers;
      MergedLookup(p, parts, s);
      MergedLookup(p, other, s);
    }
    forall id | id in Merged(p, parts).judges
      ensures id in Merged(p, other).judges && Merged(p, other).judges[id] == Merged(p, parts).judges[id]
    {
      var s :| s in parts && id in s.judges;
      MergedLookup(p, parts, s);
      MergedLookup(p, other, s);
    }
  }

  lemma SameMembers(parts: seq<State>, other: seq<State>)
    requires multiset(parts) == multiset(other)
    ensures forall s :: s in parts <==> s in other
  {
    assert forall s :: s in parts <==> s in multiset(parts);
    assert forall s :: s in other <==> s in multiset(other);
  }

  /** Shards in another order merge into the same answers and judgments. */
  lemma MergeOrder(p: Plan, parts: seq<State>, other: seq<State>)
    requires DisjointSamples(p, parts) && DisjointSamples(p, other)
    requires multiset(parts) == multiset(other)
    requires forall s :: s in parts ==> StateValid(p, s)
    ensures Merged(p, parts).answers == Merged(p, other).answers
    ensures Merged(p, parts).judges == Merged(p, other).judges
  {
    SameMembers(parts, other);
    MergedRecords(p, parts, other);
    MergedRecords(p, other, parts);
    var a, b := Merged(p, parts), Merged(p, other);
  }

  // A sample is recorded by as many shards in one order as in another.

  ghost function Owns(p: Plan, sample: string): State -> int {
    (s: State) => if sample in RecordedSamples(p, s) then 1 else 0
  }

  lemma {:induction false} DisjointOwnersAreFew(p: Plan, parts: seq<State>, sample: string)
    requires DisjointSamples(p, parts)
    ensures SeqSum(parts, Owns(p, sample)) == if sample in AllRecorded(p, parts) then 1 else 0
    decreases |parts|
  {
    if parts != [] {
      var n := |parts| - 1;
      SplitLast(p, parts);
      DisjointOwnersAreFew(p, parts[..n], sample);
      SeqSumSnoc(parts[..n], parts[n], Owns(p, sample));
      assert parts[..n] + [parts[n]] == parts;
    }
  }

  lemma {:induction false} OwnersAreNotNegative(p: Plan, parts: seq<State>, sample: string)
    ensures SeqSum(parts, Owns(p, sample)) >= 0
  {
    if parts != [] { OwnersAreNotNegative(p, parts[1..], sample); }
  }

  lemma TwoOwners(p: Plan, parts: seq<State>, i: nat, j: nat, sample: string)
    requires i < j < |parts|
    requires sample in RecordedSamples(p, parts[i]) && sample in RecordedSamples(p, parts[j])
    ensures SeqSum(parts, Owns(p, sample)) >= 2
  {
    var f := Owns(p, sample);
    var rest := Without(parts, j);
    SeqSumRemove(parts, j, f);
    SeqSumRemove(rest, i, f);
    OwnersAreNotNegative(p, Without(rest, i), sample);
  }

  /** Whether shards are disjoint does not depend on their order. */
  lemma DisjointOrder(p: Plan, parts: seq<State>, other: seq<State>)
    requires DisjointSamples(p, parts) && multiset(parts) == multiset(other)
    ensures DisjointSamples(p, other)
  {
    forall i, j | 0 <= i < j < |other| ensures RecordedSamples(p, other[i]) !! RecordedSamples(p, other[j]) {
      forall sample | sample in RecordedSamples(p, other[i]) && sample in RecordedSamples(p, other[j]) ensures false {
        TwoOwners(p, other, i, j, sample);
        SeqSumPermutation(parts, other, Owns(p, sample));
        DisjointOwnersAreFew(p, parts, sample);
      }
    }
  }

  ghost function Weighs(m: Measure): State -> int {
    (s: State) => Measured(s, m)
  }

  lemma {:induction false} MeasuredAsSum(parts: seq<State>, m: Measure)
    ensures MeasuredOver(parts, m) == SeqSum(parts, Weighs(m))
  {
    if parts != [] {
      var n := |parts| - 1;
      MeasuredAsSum(parts[..n], m);
      SeqSumSnoc(parts[..n], parts[n], Weighs(m));
      assert parts[..n] + [parts[n]] == parts;
    }
  }

  lemma {:induction false} SameRecordsSameGrades(scorer: Scorer, questions: seq<Question>, s: State, t: State)
    requires s.answers == t.answers && s.judges == t.judges
    ensures CorrectOver(questions, s) == CorrectOver(questions, t)
    ensures ScoreOver(scorer, questions, s) == ScoreOver(scorer, questions, t)
  {
    if questions != [] { SameRecordsSameGrades(scorer, questions[1..], s, t); }
  }

  lemma GradesOrder(p: Plan, scorer: Scorer, questions: seq<Question>, parts: seq<State>, other: seq<State>)
    requires DisjointSamples(p, parts) && DisjointSamples(p, other) && multiset(parts) == multiset(other)
    requires forall s :: s in parts ==> StateValid(p, s)
    requires forall s :: s in other ==> StateValid(p, s)
    ensures CorrectIn(questions, parts) == CorrectIn(questions, other)
    ensures ScoreIn(scorer, questions, parts) == ScoreIn(scorer, questions, other)
  {
    MergeGrades(p, scorer, questions, parts);
    MergeGrades(p, scorer, questions, other);
    MergeOrder(p, parts, other);
    SameRecordsSameGrades(scorer, questions, Merged(p, parts), Merged(p, other));
  }

  /** The shards' order decides neither whether they merge nor what is reported. */
  lemma ShardOrderDoesNotMatter(p: Plan, scorer: Scorer, parts: seq<State>, other: seq<State>, r: RunSummary)
    requires DisjointSamples(p, parts) && multiset(parts) == multiset(other)
    requires forall s :: s in parts ==> StateValid(p, s)
    requires SumsShards(p, scorer, parts, r)
    ensures DisjointSamples(p, other) && SumsShards(p, scorer, other, r)
  {
    DisjointOrder(p, parts, other);
    SameMembers(parts, other);
    GradesOrder(p, scorer, p.manifest, parts, other);
    forall c: Category
      ensures CorrectIn(OfCategory(p.manifest, c), parts) == CorrectIn(OfCategory(p.manifest, c), other)
      ensures ScoreIn(scorer, OfCategory(p.manifest, c), parts) == ScoreIn(scorer, OfCategory(p.manifest, c), other)
    {
      GradesOrder(p, scorer, OfCategory(p.manifest, c), parts, other);
    }
    forall m ensures MeasuredOver(parts, m) == MeasuredOver(other, m) {
      MeasuredAsSum(parts, m);
      MeasuredAsSum(other, m);
      SeqSumPermutation(parts, other, Weighs(m));
    }
  }
}
