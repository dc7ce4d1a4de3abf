// A whole answer stage as a function of what the outside world will answer: which
// record each question gets, where the stage ends, and what the checkpoint then
// holds.

module StageRuns {
  import opened Wrappers
  import opened Records
  import AnswerLoop
  import opened AnswerMeaning
  import opened AnswerRun

  /** How a stage comes back to the operator. */
  datatype StageEnd =
    | Completed
    | Refused            // a guard before any paid work
    | GuardFired         // the execution guard of a later item
    | Interrupted        // an outage, checkpointed
    | Broke              // any other exception

  /** How a stage ends, and the checkpoint it leaves. */
  datatype StageResult = StageResult(end: StageEnd, saved: State)

  /** Where a stage stands: the provider's position and the checkpoint. */
  datatype Spot = Spot(calls: nat, state: State)

  /** What an answer stage is run with, and everything it will be answered. */
  datatype World = World(
    config: AnswerLoop.Config,
    maxCalls: int,
    ceiling: int,
    mounted: bool,
    replies: nat -> AnswerLoop.Reply,
    results: nat -> AnswerLoop.ToolReply
  )

  /** Where it stands between two questions: the provider's and the read
      surface's position, and the checkpoint. */
  datatype Place = Place(calls: nat, asked: nat, state: State)

  datatype Next = Go(place: Place) | Stop(result: StageResult)

  /** The ending that the question loop prescribes here. */
  ghost function Asked(w: World, at: Place): AnswerLoop.Ending {
    AnswerLoop.AskWithMount(w.config, LimitsAt(w, at), TapeAt(w, at), at.state.cost, w.mounted)
  }

  ghost function LimitsAt(w: World, at: Place): AnswerLoop.Limits {
    AnswerLoop.Limits(AnswerCallTotal(at.state), w.maxCalls, w.ceiling)
  }

  function TapeAt(w: World, at: Place): AnswerLoop.Tape {
    AnswerLoop.Tape(w.replies, at.calls, w.results, at.asked)
  }

  /** One question: its record is saved, or the stage stops with what the outage
      left behind, or with nothing. */
  ghost function AnswerStep(w: World, q: Question, at: Place): Next {
    var e := Asked(w, at);
    match e
    case Settled(d) =>
      Go(Place(
           at.calls + d.loop.calls,
           at.asked + |d.loop.trace|,
           at.state.(cost := d.loop.spent,
                     answers := at.state.answers[q.itemId := AnswerLoop.RecordOf(q, w.config, d)])))
    case Outage(_, _, _) => Stop(StageResult(Interrupted, After(at.state, e)))
    case GuardStop(_, _) => Stop(StageResult(GuardFired, at.state))
    case Crashed(_) => Stop(StageResult(Broke, at.state))
  }

  /** The questions in order, up to the first one that stops the stage. */
  ghost function AnswerStage(w: World, questions: seq<Question>, at: Place): StageResult {
    if questions == [] then StageResult(Completed, at.state)
    else
      match AnswerStep(w, questions[0], at)
      case Go(next) => AnswerStage(w, questions[1..], next)
      case Stop(result) => result
  }

  // ---- the same, one fact at a time ----

  ghost function NextPlaces(w: World, q: Question, at: Place): iset<Place> {
    iset b | AnswerStep(w, q, at) == Go(b)
  }

  ghost function NextStops(w: World, q: Question, at: Place): iset<StageResult> {
    iset r | AnswerStep(w, q, at) == Stop(r)
  }

  ghost predicate EndsAs(w: World, questions: seq<Question>, at: Place, r: StageResult) {
    r == AnswerStage(w, questions, at)
  }

  /** How the stage ends over these questions from here: the one result. */
  ghost function StageResults(w: World, questions: seq<Question>, at: Place): iset<StageResult> {
    iset r | EndsAs(w, questions, at, r)
  }

  lemma StageBegins(w: World, questions: seq<Question>, at: Place)
    ensures AnswerStage(w, questions, at) in StageResults(w, questions[0..], at)
    ensures AnswerStage(w, questions, at) in StageResults(w, questions, at)
  {
    assert questions[0..] == questions;
  }

  lemma StageGoes(w: World, questions: seq<Question>, i: nat, at: Place, b: Place, r: StageResult)
    requires i < |questions| && b in NextPlaces(w, questions[i], at) && r in StageResults(w, questions[i..], at)
    ensures r in StageResults(w, questions[i + 1..], b)
  {
    assert questions[i..][1..] == questions[i + 1..];
  }

  lemma StageStops(w: World, questions: seq<Question>, i: nat, at: Place, stop: StageResult, r: StageResult)
    requires i < |questions| && stop in NextStops(w, questions[i], at) && r in StageResults(w, questions[i..], at)
    ensures r == stop
  {
  }

  /** One question on, or stopped there. */
  lemma StageMoves(
      w: World, questions: seq<Question>, i: nat, at: Place, stop: Option<StageEnd>, b: Place, r: StageResult)
    requires i < |questions| && r in StageResults(w, questions[i..], at)
    requires stop == None ==> b in NextPlaces(w, questions[i], at)
    requires stop.Some? ==> StageResult(stop.value, b.state) in NextStops(w, questions[i], at)
    ensures stop == None ==> r in StageResults(w, questions[i + 1..], b)
    ensures stop.Some? ==> r == StageResult(stop.value, b.state)
  {
    if stop.Some? {
      StageStops(w, questions, i, at, StageResult(stop.value, b.state), r);
    } else {
      StageGoes(w, questions, i, at, b, r);
    }
  }

  lemma StageCompletes(w: World, questions: seq<Question>, at: Place, r: StageResult)
    requires r in StageResults(w, questions[|questions|..], at)
    ensures r == StageResult(Completed, at.state)
  {
  }

  // ---- what a stage leaves ----

  /** A question's record is what the replies and the results tell of it, from some
      place on the stage's way. */
  ghost predicate ToldOf(w: World, q: Question, r: AnswerRecord) {
    exists b :: RecordTells(w.config, LimitsAt(w, b), TapeAt(w, b), b.state.cost, w.mounted, q, r)
  }

  ghost function ItsRecords(w: World, q: Question): iset<AnswerRecord> {
    iset r | ToldOf(w, q, r)
  }

  /** One question adds its own record, or nothing. */
  lemma StepAdds(w: World, q: Question, at: Place)
    requires w.config.Valid()
    ensures
      match AnswerStep(w, q, at)
      case Go(b) =>
        && b.state.answers.Keys == at.state.answers.Keys + {q.itemId}
        && b.state.answers[q.itemId] in ItsRecords(w, q)
        && OthersKept({q.itemId}, at.state.answers, b.state.answers)
      case Stop(r) => r.saved.answers == at.state.answers && !r.end.Completed?
  {
    if Asked(w, at).Settled? {
      EveryRecordIsTold(w.config, LimitsAt(w, at), TapeAt(w, at), at.state.cost, w.mounted, q);
      assert ToldOf(w, q, AnswerLoop.RecordOf(q, w.config, Asked(w, at).draft));
    }
  }

  ghost function ItemIds(questions: seq<Question>): set<string> {
    set q | q in questions :: q.itemId
  }

  ghost predicate ItemsDiffer(questions: seq<Question>) {
    forall i, j :: 0 <= i < j < |questions| ==> questions[i].itemId != questions[j].itemId
  }

  /** These questions' records, each as it was told. */
  ghost predicate Recorded(w: World, questions: seq<Question>, answers: map<string, AnswerRecord>) {
    forall q :: q in questions ==> q.itemId in answers && answers[q.itemId] in ItsRecords(w, q)
  }

  /** Every answer to no question of these is as it was. */
  ghost predicate OthersKept(ids: set<string>, before: map<string, AnswerRecord>, after: map<string, AnswerRecord>) {
    forall id :: id in before && id !in ids ==> id in after && after[id] == before[id]
  }

  lemma HeadAndRest<T>(s: seq<T>, m: nat)
    requires m < |s|
    ensures s[..m + 1] == [s[0]] + s[1..][..m]
  {
  }

  lemma FirstIds(questions: seq<Question>, n: nat)
    requires n < |questions| && ItemsDiffer(questions)
    ensures ItemIds(questions[..n + 1]) == {questions[0].itemId} + ItemIds(questions[1..][..n])
    ensures questions[0].itemId !in ItemIds(questions[1..][..n])
    ensures ItemsDiffer(questions[1..])
  {
    var rest := questions[1..];
    assert forall k :: 0 <= k < |rest| ==> rest[k] == questions[k + 1];
    HeadAndRest(questions, n);
    forall q | q in rest[..n] ensures q.itemId != questions[0].itemId {
      var k :| 0 <= k < n && rest[..n][k] == q;
      assert q == questions[k + 1];
    }
    forall id | id in ItemIds(questions[..n + 1]) ensures id in {questions[0].itemId} + ItemIds(rest[..n]) {
    }
  }

  lemma RecordedOneMore(
      w: World, q: Question, rest: seq<Question>, mid: map<string, AnswerRecord>, after: map<string, AnswerRecord>)
    requires q.itemId in mid && mid[q.itemId] in ItsRecords(w, q) && q.itemId !in ItemIds(rest)
    requires Recorded(w, rest, after) && OthersKept(ItemIds(rest), mid, after)
    ensures Recorded(w, [q] + rest, after)
  {
  }

  lemma OthersKeptTwice(
      id: string, ids: set<string>, before: map<string, AnswerRecord>, mid: map<string, AnswerRecord>,
      after: map<string, AnswerRecord>)
    requires OthersKept({id}, before, mid) && OthersKept(ids, mid, after)
    ensures OthersKept({id} + ids, before, after)
  {
  }

  lemma StageAnswersMore(
      w: World, q: Question, rest: seq<Question>, before: map<string, AnswerRecord>, mid: map<string, AnswerRecord>,
      after: map<string, AnswerRecord>)
    requires mid.Keys == before.Keys + {q.itemId} && OthersKept({q.itemId}, before, mid)
    requires mid[q.itemId] in ItsRecords(w, q) && q.itemId !in ItemIds(rest)
    requires after.Keys == mid.Keys + ItemIds(rest) && Recorded(w, rest, after) && OthersKept(ItemIds(rest), mid, after)
    ensures after.Keys == before.Keys + ({q.itemId} + ItemIds(rest)) && Recorded(w, [q] + rest, after)
    ensures OthersKept({q.itemId} + ItemIds(rest), before, after)
  {
    RecordedOneMore(w, q, rest, mid, after);
    OthersKeptTwice(q.itemId, ItemIds(rest), before, mid, after);
  }

  /** The answers once these questions are answered on top of `before`: their
      records, each as it was told, and every other answer as it was. */
  ghost predicate GrownBy(
      w: World, questions: seq<Question>, before: map<string, AnswerRecord>, after: map<string, AnswerRecord>)
  {
    && after.Keys == before.Keys + ItemIds(questions)
    && Recorded(w, questions, after)
    && OthersKept(ItemIds(questions), before, after)
  }

  ghost function Grown(
      w: World, questions: seq<Question>, before: map<string, AnswerRecord>): iset<map<string, AnswerRecord>>
  {
    iset after | GrownBy(w, questions, before, after)
  }

  lemma GrownByNothing(w: World, before: map<string, AnswerRecord>)
    ensures before in Grown(w, [], before)
  {
    assert ItemIds([]) == {};
  }

  lemma GrownByOneMore(
      w: World, questions: seq<Question>, m: nat, before: map<string, AnswerRecord>, mid: map<string, AnswerRecord>,
      after: map<string, AnswerRecord>)
    requires m < |questions| && ItemsDiffer(questions)
    requires mid.Keys == before.Keys + {questions[0].itemId} && OthersKept({questions[0].itemId}, before, mid)
    requires mid[questions[0].itemId] in ItsRecords(w, questions[0])
    requires after in Grown(w, questions[1..][..m], mid)
    ensures after in Grown(w, questions[..m + 1], before)
  {
    FirstIds(questions, m);
    HeadAndRest(questions, m);
    StageAnswersMore(w, questions[0], questions[1..][..m], before, mid, after);
  }

  /** However a stage ends, its checkpoint holds the records of the first
      questions up to where it stopped; it completes if and only if these are all. */
  lemma {:induction false} StageAnswers(w: World, questions: seq<Question>, at: Place) returns (n: nat)
    requires ItemsDiffer(questions) && w.config.Valid()
    ensures n <= |questions| && (AnswerStage(w, questions, at).end.Completed? <==> n == |questions|)
    ensures AnswerStage(w, questions, at).saved.answers in Grown(w, questions[..n], at.state.answers)
    decreases |questions|
  {
    if questions == [] || AnswerStep(w, questions[0], at).Stop? {
      n := 0;
      StageEndsHere(w, questions, at);
    } else {
      var b := AnswerStep(w, questions[0], at).place;
      StepAdds(w, questions[0], at);
      FirstIds(questions, 0);
      var m := StageAnswers(w, questions[1..], b);
      n := m + 1;
      GrownByOneMore(
        w, questions, m, at.state.answers, b.state.answers, AnswerStage(w, questions[1..], b).saved.answers);
    }
  }

  lemma StageEndsHere(w: World, questions: seq<Question>, at: Place)
    requires w.config.Valid()
    requires questions == [] || AnswerStep(w, questions[0], at).Stop?
    ensures AnswerStage(w, questions, at).end.Completed? <==> questions == []
    ensures AnswerStage(w, questions, at).saved.answers in Grown(w, questions[..0], at.state.answers)
  {
    GrownByNothing(w, at.state.answers);
    if questions != [] { StepAdds(w, questions[0], at); }
  }

  /** A stage that ends so leaves the records of the first questions, of all of
      them if and only if it completes. */
  ghost predicate LeavesRecords(w: World, questions: seq<Question>, at: Place, r: StageResult) {
    exists n: nat :: n <= |questions|
      && (r.end.Completed? <==> n == |questions|) && r.saved.answers in Grown(w, questions[..n], at.state.answers)
  }

  ghost function Leavings(w: World, questions: seq<Question>, at: Place): iset<StageResult> {
    iset r | LeavesRecords(w, questions, at, r)
  }

  lemma RecordsAreLeft(w: World, questions: seq<Question>, at: Place, r: StageResult)
    requires w.config.Valid() && ItemsDiffer(questions) && r in StageResults(w, questions, at)
    ensures r in Leavings(w, questions, at)
  {
    var n := StageAnswers(w, questions, at);
  }

  // ---- one question, as its caller sees it ----

  datatype QuestionResult = QuestionResult(end: QuestionEnd, calls: nat, asked: nat, state: State)

  /** The caller sees the prescribed ending, and where it left the world. */
  ghost predicate Follows(w: World, q: Question, at: Place, r: QuestionResult) {
    var e := Asked(w, at);
    && r.end == EndOf(q, w.config, e)
    && r.state == After(at.state, e)
    && (e.Crashed? || r.calls == at.calls + CallsAt(e))
    && (e.Settled? ==> r.asked == at.asked + |e.draft.loop.trace|)
  }

  ghost function Results(w: World, q: Question, at: Place): iset<QuestionResult> {
    iset r | Follows(w, q, at, r)
  }

  lemma RecordGoesOn(w: World, q: Question, at: Place, r: QuestionResult)
    requires r in Results(w, q, at) && r.end.Recorded?
    ensures
      var saved := r.state.(answers := r.state.answers[q.itemId := r.end.record]);
      Place(r.calls, r.asked, saved) in NextPlaces(w, q, at)
  {
  }

  lemma OtherwiseStops(w: World, q: Question, at: Place, r: QuestionResult)
    requires r in Results(w, q, at)
    ensures r.end.InfrastructureRaised? ==> StageResult(Interrupted, r.state) in NextStops(w, q, at)
    ensures r.end.GuardRaised? ==> StageResult(GuardFired, at.state) in NextStops(w, q, at)
    ensures r.end.OtherRaised? ==> StageResult(Broke, at.state) in NextStops(w, q, at)
  {
  }
}
