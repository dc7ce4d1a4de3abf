// What a question's ending says, told by the provider's replies and the tools'
// results alone: which reply is the last one, what it makes of the question, and
// what each field of the record counts. Nothing here follows the loop.

module AnswerMeaning {
  import opened Wrappers
  import opened Orders
  import opened Records
  import opened AnswerText
  import opened AnswerLoop
  import opened AnswerProofs

  // ---- the replies so far ----

  predicate AsksForTool(reply: Reply) {
    reply.Answered? && reply.decision.CallTool?
  }

  /** What a tool request and its result leave in the trace. */
  function Logged(name: string, result: ToolReply): ToolCall {
    ToolCall(name, result.Returned?, if result.Returned? || result.QueryFailed? then result.payload else Json(false))
  }

  /** One traced call for each tool request among the first `k` replies. */
  function TraceAt(tape: Tape, k: nat): seq<ToolCall> {
    if k == 0 then []
    else
      var trace := TraceAt(tape, k - 1);
      if AsksForTool(tape.Reply(k - 1)) then
        trace + [Logged(tape.Reply(k - 1).decision.name, tape.Tool(|trace|))]
      else trace
  }

  /** The spend once the first `k` replies are booked. */
  function CostAt(tape: Tape, spent0: int, k: nat): int {
    spent0 + Spend(tape.replies, tape.r0, tape.r0 + k)
  }

  /** Invalid completions among the first `k` replies. */
  function Invalids(tape: Tape, k: nat): nat {
    if k == 0 then 0 else Invalids(tape, k - 1) + if tape.Reply(k - 1).InvalidCompletion? then 1 else 0
  }

  /** Replies among the first `k` that asked for no tool, before the first tool
      call (`reading` false) or after it. */
  function Others(tape: Tape, reading: bool, k: nat): nat {
    if k == 0 then 0
    else
      Others(tape, reading, k - 1)
      + if !AsksForTool(tape.Reply(k - 1)) && (TraceAt(tape, k - 1) != [] <==> reading) then 1 else 0
  }

  predicate AnswersUnknown(reply: Reply) {
    reply.Answered? && reply.decision.Finish? && IsUnknown(reply.decision.text)
  }

  function Unknowns(tape: Tape, k: nat): nat {
    if k == 0 then 0 else Unknowns(tape, k - 1) + if AnswersUnknown(tape.Reply(k - 1)) then 1 else 0
  }

  /** A call that read content: a direct read that succeeded, or a query whose
      response has a rows entry. */
  predicate ReadsContent(call: ToolCall) {
    && call.succeeded
    && (|| call.name in {
             "combined_context", "facts_context", "claims_and_sources_context", "lookup_relations",
             "transcript_relation", "lookup_observations", "search_claims", "search_chunks",
             "adjacent_chunks", "hydrate_relation", "p3_search", "p3_read"
           }
        || (call.name in {"query_sql", "run_saved_query"} && call.response == Json(true)))
  }

  predicate ReadContent(trace: seq<ToolCall>) {
    exists j | 0 <= j < |trace| :: ReadsContent(trace[j])
  }

  // ---- what lets a question go on ----

  /** After `k` replies neither guard forbids the next call. */
  predicate Opens(lim: Limits, tape: Tape, spent0: int, k: nat) {
    lim.priorCalls + k < lim.maxCalls && lim.ceiling > 0 && CostAt(tape, spent0, k) < lim.ceiling
  }

  /** After `k` replies the question may be asked once more. */
  predicate MayAskMore(c: Config, lim: Limits, tape: Tape, spent0: int, k: nat) {
    k < c.maxCalls && lim.priorCalls + k < lim.maxCalls && CostAt(tape, spent0, k) < lim.ceiling
  }

  /** The agent can correct itself after this result, or had no need to. */
  predicate Recovers(result: ToolReply) {
    match result
    case Returned(_) => true
    case Misused => true
    case ApiError(correctable) => correctable
    case Broken(correctable) => correctable
    case QueryFailed(correctable, _) => correctable
    case _ => false
  }

  predicate FromModel(c: Config, billed: Option<Usage>) {
    billed.Some? ==> billed.value.model == c.model
  }

  /** Reply number `k` asks for a tool that may be called. */
  predicate Dispatches(c: Config, lim: Limits, tape: Tape, spent0: int, k: nat) {
    var reply := tape.Reply(k);
    && AsksForTool(reply)
    && reply.usage.model == c.model
    && CostAt(tape, spent0, k + 1) < lim.ceiling
    && reply.decision.name in c.toolNames
    && |TraceAt(tape, k)| < c.maxTools
  }

  /** Reply number `k` is an answer that is looked at. */
  predicate Offers(c: Config, lim: Limits, tape: Tape, spent0: int, k: nat, text: string) {
    var reply := tape.Reply(k);
    && reply.Answered?
    && reply.decision.Finish?
    && reply.decision.text == text
    && reply.usage.model == c.model
    && CostAt(tape, spent0, k + 1) <= lim.ceiling
    && TraceAt(tape, k) != []
  }

  /** Reply number `k` is an answer that nothing read so far supports, and that
      needs such support. */
  predicate Unsupported(c: Config, lim: Limits, tape: Tape, spent0: int, k: nat) {
    var reply := tape.Reply(k);
    && reply.Answered? && reply.decision.Finish?
    && Offers(c, lim, tape, spent0, k, reply.decision.text)
    && !ReadContent(TraceAt(tape, k))
    && (c.requireContent || IsUnknown(reply.decision.text))
  }

  /** After reply number `k` the question goes on: a retry, a tool call, or an
      answer that is asked for again. */
  predicate GoesOn(c: Config, lim: Limits, tape: Tape, spent0: int, k: nat) {
    var reply := tape.Reply(k);
    || (&& reply.InvalidCompletion? && FromModel(c, reply.billed)
        && Invalids(tape, k + 1) <= c.retryBudget && MayAskMore(c, lim, tape, spent0, k + 1))
    || (Dispatches(c, lim, tape, spent0, k) && Recovers(tape.Tool(|TraceAt(tape, k)|)))
    || (Unsupported(c, lim, tape, spent0, k) && MayAskMore(c, lim, tape, spent0, k + 1))
  }

  /** The first `k` calls were all made, and all went on. */
  ghost predicate AllWentOn(c: Config, lim: Limits, tape: Tape, spent0: int, k: nat) {
    k <= c.maxCalls && forall j :: 0 <= j < k ==> Opens(lim, tape, spent0, j) && GoesOn(c, lim, tape, spent0, j)
  }

  // ---- what the last reply makes of the question ----

  predicate WithinCap(c: Config, text: string) {
    c.wordCap.Some? ==> WordCount(text) <= c.wordCap.value
  }

  /** The last reply answers the question with this text. */
  predicate AnswersWith(c: Config, lim: Limits, tape: Tape, spent0: int, k: nat, text: string) {
    && Offers(c, lim, tape, spent0, k, text)
    && (ReadContent(TraceAt(tape, k)) || !c.requireContent)
    && WithinCap(c, text)
  }

  /** The last reply was unaccounted for, came from another model, or met the
      threshold. */
  predicate BreaksAccounts(c: Config, lim: Limits, tape: Tape, spent0: int, k: nat) {
    var reply := tape.Reply(k);
    match reply
    case NoAccounting => true
    case InvalidCompletion(billed) => !FromModel(c, billed)
    case CallFailed(billed, _) => !FromModel(c, billed)
    case Answered(u, d) =>
      || u.model != c.model
      || CostAt(tape, spent0, k + 1) > lim.ceiling
      || (d.CallTool? && CostAt(tape, spent0, k + 1) == lim.ceiling)
    case _ => false
  }

  predicate ReaderFails(c: Config, reply: Reply) {
    || (reply.InvalidCompletion? && FromModel(c, reply.billed))
    || (reply.CallFailed? && FromModel(c, reply.billed))
  }

  predicate ToolFails(c: Config, lim: Limits, tape: Tape, spent0: int, k: nat) {
    Dispatches(c, lim, tape, spent0, k) && !Recovers(tape.Tool(|TraceAt(tape, k)|))
  }

  /** Reply number `k`, after which the question did not go on, or had no call
      left, gives it this answer or this failure. */
  ghost predicate Decides(
      c: Config, lim: Limits, tape: Tape, spent0: int, k: nat, answer: Option<string>, failure: Option<FailureKind>)
  {
    && (answer.None? <==> failure.Some?)
    && (answer.Some? ==> AnswersWith(c, lim, tape, spent0, k, answer.value))
    && (failure == Some(Accounting) <==> BreaksAccounts(c, lim, tape, spent0, k))
    && (failure == Some(Reader) <==> ReaderFails(c, tape.Reply(k)))
    && (failure == Some(ToolFailure) <==> ToolFails(c, lim, tape, spent0, k))
    && (failure.Some? ==> failure.value in {Accounting, Reader, ToolFailure, InvalidResponse})
    && (failure == Some(InvalidResponse) ==> forall t :: !AnswersWith(c, lim, tape, spent0, k, t))
  }

  /** A reply that counts as an attempt to read what the tools found. */
  predicate ReadsTools(c: Config, reply: Reply) {
    match reply
    case NoAccounting => true
    case InvalidCompletion(_) => true
    case CallFailed(_, _) => true
    case Answered(u, d) => d.Finish? && u.model == c.model
    case _ => false
  }

  /** Reply number `k` stops the run: an outage, or an exception nobody handles,
      of the provider or of the tool it asked for. */
  predicate StopsRun(c: Config, lim: Limits, tape: Tape, spent0: int, k: nat, outage: bool) {
    var reply, result := tape.Reply(k), tape.Tool(|TraceAt(tape, k)|);
    if outage then
      (reply.CallFailed? && reply.outage) || (Dispatches(c, lim, tape, spent0, k) && result.Unavailable?)
    else
      reply.ProviderCrash? || (Dispatches(c, lim, tape, spent0, k) && result.ToolCrash?)
  }

  /** What a settled question counted over its `calls` replies, and how it ended. */
  datatype Account = Account(
    calls: nat,
    trace: seq<ToolCall>,
    attempts: nat,
    firstRetries: nat,
    guardRetries: nat,
    answer: Option<string>,
    failure: Option<FailureKind>
  )

  /** What reply number `k` leaves in the account when it is the last one. */
  ghost predicate SettlesAs(c: Config, lim: Limits, tape: Tape, spent0: int, k: nat, a: Account) {
    var trace := TraceAt(tape, k);
    && a.calls == k + 1
    && Decides(c, lim, tape, spent0, k, a.answer, a.failure)
    && a.trace == (if Dispatches(c, lim, tape, spent0, k) then TraceAt(tape, k + 1) else trace)
    && a.attempts == Others(tape, true, k) + Count(trace != [] && ReadsTools(c, tape.Reply(k)))
    && a.firstRetries == Others(tape, false, k)
    && a.guardRetries ==
       Unknowns(tape, k) + Count(Unsupported(c, lim, tape, spent0, k) && AnswersUnknown(tape.Reply(k)))
  }

  /** Reply number `k` is the last one: it did not go on, or used up the calls. */
  ghost predicate IsLast(c: Config, lim: Limits, tape: Tape, spent0: int, k: nat) {
    && k < c.maxCalls
    && AllWentOn(c, lim, tape, spent0, k)
    && Opens(lim, tape, spent0, k)
    && (GoesOn(c, lim, tape, spent0, k) ==> k + 1 == c.maxCalls)
  }

  /** The account of a settled question, told by the tape. */
  ghost predicate Tells(c: Config, lim: Limits, tape: Tape, spent0: int, mounted: bool, a: Account) {
    if !mounted then a == Account(0, [], 0, 0, 0, None, Some(ToolFailure))
    else if c.maxCalls == 0 then a == Account(0, [], 0, 0, 0, None, Some(InvalidResponse))
    else
      && a.calls > 0
      && IsLast(c, lim, tape, spent0, a.calls - 1)
      && SettlesAs(c, lim, tape, spent0, a.calls - 1, a)
  }

  function AccountOf(d: Draft): Account {
    Account(
      d.loop.calls, d.loop.trace, d.attempts, d.loop.firstRetries, d.loop.guardRetries, d.answer, d.failure)
  }

  // ---- the loop follows the tape ----

  /** The loop's state after `l.calls` replies that all went on. */
  ghost predicate Follows(tape: Tape, spent0: int, l: Loop) {
    && l.spent == CostAt(tape, spent0, l.calls)
    && l.trace == TraceAt(tape, l.calls)
    && l.invalids == Invalids(tape, l.calls)
    && l.attempts == Others(tape, true, l.calls)
    && l.firstRetries == Others(tape, false, l.calls)
    && l.guardRetries == Unknowns(tape, l.calls)
  }

  /** What one turn makes of the tape. */
  ghost predicate TurnTells(c: Config, lim: Limits, tape: Tape, spent0: int, k: nat, t: Turn) {
    match t
    case Again(next) => next.calls == k + 1 && Follows(tape, spent0, next) && GoesOn(c, lim, tape, spent0, k)
    case Done(Settled(d)) =>
      !GoesOn(c, lim, tape, spent0, k) && SettlesAs(c, lim, tape, spent0, k, AccountOf(d))
    case Done(Outage(_, calls, _)) =>
      calls == k + 1 && !GoesOn(c, lim, tape, spent0, k) && StopsRun(c, lim, tape, spent0, k, true)
    case Done(Crashed(_)) =>
      !GoesOn(c, lim, tape, spent0, k) && StopsRun(c, lim, tape, spent0, k, false)
    case Done(GuardStop(_, _)) => false
  }

  /** The turns that the tape tells; as a set, a turn's being told is one fact. */
  ghost function TurnsTold(c: Config, lim: Limits, tape: Tape, spent0: int, k: nat): iset<Turn> {
    iset t | TurnTells(c, lim, tape, spent0, k, t)
  }

  lemma Booked(tape: Tape, spent0: int, l: Loop)
    requires l.spent == CostAt(tape, spent0, l.calls)
    ensures Settle(l.(calls := l.calls + 1), tape.Reply(l.calls)).spent == CostAt(tape, spent0, l.calls + 1)
  {
  }

  lemma CallReads(call: ToolCall)
    ensures BearsContent(call) <==> ReadsContent(call)
  {
  }

  lemma ContentIsRead(trace: seq<ToolCall>)
    ensures HasContent(trace) <==> ReadContent(trace)
  {
    if HasContent(trace) {
      var call :| call in trace && BearsContent(call);
      var j :| 0 <= j < |trace| && trace[j] == call;
      CallReads(trace[j]);
    }
    if ReadContent(trace) {
      var j :| 0 <= j < |trace| && ReadsContent(trace[j]);
      CallReads(trace[j]);
    }
  }

  lemma InvalidTells(c: Config, lim: Limits, tape: Tape, spent0: int, l: Loop)
    requires Follows(tape, spent0, l) && tape.Reply(l.calls).InvalidCompletion?
    ensures
      TurnTells(c, lim, tape, spent0, l.calls,
                OnInvalid(c, lim, l.(calls := l.calls + 1), tape.Reply(l.calls).billed))
  {
    Booked(tape, spent0, l);
  }

  lemma CallFailedTells(c: Config, lim: Limits, tape: Tape, spent0: int, l: Loop)
    requires Follows(tape, spent0, l) && tape.Reply(l.calls).CallFailed?
    ensures
      var reply := tape.Reply(l.calls);
      TurnTells(c, lim, tape, spent0, l.calls, OnCallFailed(c, l.(calls := l.calls + 1), reply.billed, reply.outage))
  {
    Booked(tape, spent0, l);
  }

  /** A terminal answer that is not asked for again: kept, or over the cap. */
  lemma FinishTells(
      c: Config, lim: Limits, tape: Tape, spent0: int, k: nat, l: Loop, text: NonEmpty, attempts: nat)
    requires Offers(c, lim, tape, spent0, k, text) && l.calls == k + 1 && l.trace == TraceAt(tape, k)
    requires !GoesOn(c, lim, tape, spent0, k) && (ReadContent(TraceAt(tape, k)) || !c.requireContent)
    requires attempts == Others(tape, true, k) + 1 && (WithinCap(c, text) || attempts == l.attempts + 1)
    requires l.firstRetries == Others(tape, false, k)
    requires l.guardRetries ==
      Unknowns(tape, k) + Count(Unsupported(c, lim, tape, spent0, k) && AnswersUnknown(tape.Reply(k)))
    ensures Finished(c, l, text, attempts) in TurnsTold(c, lim, tape, spent0, k)
  {
    assert AsksForTool(tape.Reply(k)) == false;
  }

  lemma AnswerTells(c: Config, lim: Limits, tape: Tape, spent0: int, l: Loop, text: NonEmpty)
    requires c.Valid() && Follows(tape, spent0, l) && tape.Reply(l.calls).Answered?
    requires tape.Reply(l.calls).decision == Finish(text) && tape.Reply(l.calls).usage.model == c.model
    requires CostAt(tape, spent0, l.calls + 1) <= lim.ceiling
    ensures
      var billed := Settle(l.(calls := l.calls + 1), tape.Reply(l.calls));
      OnAnswer(c, lim, billed, text) in TurnsTold(c, lim, tape, spent0, l.calls)
  {
    Booked(tape, spent0, l);
    ContentIsRead(l.trace);
    if l.trace != [] {
      var k, billed := l.calls, Settle(l.(calls := l.calls + 1), tape.Reply(l.calls));
      var unknown, content := IsUnknown(text), ReadContent(l.trace);
      assert Offers(c, lim, tape, spent0, k, text);
      assert Unsupported(c, lim, tape, spent0, k) <==> (c.requireContent || unknown) && !content;
      if unknown { UnknownIsOneWord(text); }
      if !Unsupported(c, lim, tape, spent0, k) {
        FinishTells(c, lim, tape, spent0, k, billed, text, billed.attempts + 1);
      } else {
        UnsupportedTells(c, lim, tape, spent0, l, text);
      }
    }
  }

  lemma UnsupportedTells(c: Config, lim: Limits, tape: Tape, spent0: int, l: Loop, text: NonEmpty)
    requires Follows(tape, spent0, l) && Offers(c, lim, tape, spent0, l.calls, text)
    requires Unsupported(c, lim, tape, spent0, l.calls) && (IsUnknown(text) ==> WithinCap(c, text))
    ensures
      var billed := Settle(l.(calls := l.calls + 1), tape.Reply(l.calls));
      OnReadAnswer(c, lim, billed, text, IsUnknown(text), false) in TurnsTold(c, lim, tape, spent0, l.calls)
  {
    Booked(tape, spent0, l);
    var k, billed := l.calls, Settle(l.(calls := l.calls + 1), tape.Reply(l.calls));
    var guarded := billed.(
      attempts := billed.attempts + 1, guardRetries := billed.guardRetries + Count(IsUnknown(text)));
    assert MayCallAgain(c, lim, guarded) <==> MayAskMore(c, lim, tape, spent0, k + 1);
    if !MayCallAgain(c, lim, guarded) && !c.requireContent {
      FinishTells(c, lim, tape, spent0, k, guarded, text, guarded.attempts);
    }
  }

  lemma ToolTells(c: Config, lim: Limits, tape: Tape, spent0: int, l: Loop, name: string)
    requires Follows(tape, spent0, l) && tape.Reply(l.calls).Answered?
    requires tape.Reply(l.calls).decision == CallTool(name) && tape.Reply(l.calls).usage.model == c.model
    requires CostAt(tape, spent0, l.calls + 1) < lim.ceiling
    ensures
      var billed := Settle(l.(calls := l.calls + 1), tape.Reply(l.calls));
      TurnTells(c, lim, tape, spent0, l.calls, OnTool(c, tape, billed, name))
  {
    Booked(tape, spent0, l);
  }

  lemma ReplyTells(c: Config, lim: Limits, tape: Tape, spent0: int, l: Loop)
    requires c.Valid() && Follows(tape, spent0, l)
    ensures
      OnReply(c, lim, tape, l.(calls := l.calls + 1), tape.Reply(l.calls)) in TurnsTold(c, lim, tape, spent0, l.calls)
  {
    Booked(tape, spent0, l);
    match tape.Reply(l.calls)
    case InvalidCompletion(_) => InvalidTells(c, lim, tape, spent0, l);
    case CallFailed(_, _) => CallFailedTells(c, lim, tape, spent0, l);
    case Answered(u, d) =>
      if u.model == c.model && d.Finish? && CostAt(tape, spent0, l.calls + 1) <= lim.ceiling {
        AnswerTells(c, lim, tape, spent0, l, d.text);
      } else if u.model == c.model && d.CallTool? && CostAt(tape, spent0, l.calls + 1) < lim.ceiling {
        ToolTells(c, lim, tape, spent0, l, d.name);
      }
    case _ =>
  }

  /** With every call of the budget used, the last reply was a tool step. */
  lemma UsedUpTells(c: Config, lim: Limits, tape: Tape, spent0: int, l: Loop)
    requires 1 <= l.calls == c.maxCalls && Follows(tape, spent0, l) && AllWentOn(c, lim, tape, spent0, l.calls)
    ensures IsLast(c, lim, tape, spent0, l.calls - 1)
    ensures SettlesAs(c, lim, tape, spent0, l.calls - 1, AccountOf(Draft(l, l.attempts, None, Some(InvalidResponse))))
  {
    var k := l.calls - 1;
    assert GoesOn(c, lim, tape, spent0, k) && Dispatches(c, lim, tape, spent0, k);
  }

  // ---- whole questions ----

  ghost predicate StopsAt(c: Config, lim: Limits, tape: Tape, spent0: int, k: nat, outage: bool) {
    IsLast(c, lim, tape, spent0, k) && StopsRun(c, lim, tape, spent0, k, outage)
  }

  /** How every question ends, told by the tape. */
  ghost predicate EndsAsTold(c: Config, lim: Limits, tape: Tape, spent0: int, mounted: bool, e: Ending) {
    match e
    case Settled(d) => Tells(c, lim, tape, spent0, mounted, AccountOf(d))
    case GuardStop(calls, _) =>
      mounted && calls < c.maxCalls && AllWentOn(c, lim, tape, spent0, calls) && !Opens(lim, tape, spent0, calls)
    case Outage(_, calls, _) => mounted && calls > 0 && StopsAt(c, lim, tape, spent0, calls - 1, true)
    case Crashed(_) => mounted && exists k :: StopsAt(c, lim, tape, spent0, k, false)
  }

  /** A question that ends at reply number `k`, all before it having gone on. */
  lemma LastTurnIsTold(c: Config, lim: Limits, tape: Tape, spent0: int, k: nat, e: Ending)
    requires Done(e) in TurnsTold(c, lim, tape, spent0, k) && k < c.maxCalls
    requires AllWentOn(c, lim, tape, spent0, k) && Opens(lim, tape, spent0, k)
    ensures EndsAsTold(c, lim, tape, spent0, true, e)
  {
    assert IsLast(c, lim, tape, spent0, k);
    if e.Crashed? { assert StopsAt(c, lim, tape, spent0, k, false); }
  }

  lemma OneMoreWentOn(c: Config, lim: Limits, tape: Tape, spent0: int, k: nat, next: Loop)
    requires Again(next) in TurnsTold(c, lim, tape, spent0, k) && k < c.maxCalls
    requires AllWentOn(c, lim, tape, spent0, k) && Opens(lim, tape, spent0, k)
    ensures next.calls == k + 1 && Follows(tape, spent0, next) && AllWentOn(c, lim, tape, spent0, next.calls)
  {
  }

  lemma TurnIsTold(c: Config, lim: Limits, tape: Tape, spent0: int, l: Loop)
    requires c.Valid() && Follows(tape, spent0, l) && MayStart(lim, l)
    ensures TakeTurn(c, lim, tape, l) in TurnsTold(c, lim, tape, spent0, l.calls)
    ensures Opens(lim, tape, spent0, l.calls)
  {
    var turn := OnReply(c, lim, tape, l.(calls := l.calls + 1), tape.Reply(l.calls));
    assert turn in TurnsTold(c, lim, tape, spent0, l.calls) by { ReplyTells(c, lim, tape, spent0, l); }
    assert TakeTurn(c, lim, tape, l) == turn;
  }

  lemma GuardIsTold(c: Config, lim: Limits, tape: Tape, spent0: int, l: Loop)
    requires Follows(tape, spent0, l) && !MayStart(lim, l) && l.calls < c.maxCalls
    requires AllWentOn(c, lim, tape, spent0, l.calls)
    ensures EndsAsTold(c, lim, tape, spent0, true, Ask(c, lim, tape, l))
  {
  }

  lemma UsedUpIsTold(c: Config, lim: Limits, tape: Tape, spent0: int, l: Loop)
    requires Follows(tape, spent0, l) && l.calls >= c.maxCalls && AllWentOn(c, lim, tape, spent0, l.calls)
    ensures EndsAsTold(c, lim, tape, spent0, true, Ask(c, lim, tape, l))
  {
    if l.calls > 0 { UsedUpTells(c, lim, tape, spent0, l); }
  }

  lemma {:induction false} LoopIsTold(c: Config, lim: Limits, tape: Tape, spent0: int, l: Loop)
    requires c.Valid() && Follows(tape, spent0, l) && AllWentOn(c, lim, tape, spent0, l.calls)
    ensures EndsAsTold(c, lim, tape, spent0, true, Ask(c, lim, tape, l))
    decreases c.maxCalls - l.calls
  {
    if l.calls >= c.maxCalls {
      UsedUpIsTold(c, lim, tape, spent0, l);
    } else if !MayStart(lim, l) {
      GuardIsTold(c, lim, tape, spent0, l);
    } else {
      TurnIsTold(c, lim, tape, spent0, l);
      var turn := TakeTurn(c, lim, tape, l);
      if turn.Again? {
        OneMoreWentOn(c, lim, tape, spent0, l.calls, turn.next);
        LoopIsTold(c, lim, tape, spent0, turn.next);
      } else {
        LastTurnIsTold(c, lim, tape, spent0, l.calls, turn.ending);
      }
    }
  }

  /** Every question ends as the tape alone tells: at the first reply after which it
      does not go on, with the answer or the failure that this reply gives it. */
  lemma EveryQuestionIsTold(c: Config, lim: Limits, tape: Tape, spent0: int, mounted: bool)
    requires c.Valid()
    ensures EndsAsTold(c, lim, tape, spent0, mounted, AskWithMount(c, lim, tape, spent0, mounted))
  {
    if mounted { LoopIsTold(c, lim, tape, spent0, Start(spent0)); }
  }

  // ---- the answer is what was said ----

  /** A recorded answer is the text of the question's last reply, an answer of the
      configured model within the threshold and the word cap, after a tool call. */
  lemma AnswerWasSaid(c: Config, lim: Limits, tape: Tape, spent0: int, mounted: bool, text: string)
    requires c.Valid() && AskWithMount(c, lim, tape, spent0, mounted).Settled?
    requires AskWithMount(c, lim, tape, spent0, mounted).draft.answer == Some(text)
    ensures
      var d := AskWithMount(c, lim, tape, spent0, mounted).draft;
      && mounted && d.loop.calls > 0
      && var reply := tape.Reply(d.loop.calls - 1);
         && reply.Answered? && reply.decision.Finish? && reply.decision.text == text && reply.usage.model == c.model
         && CostAt(tape, spent0, d.loop.calls) <= lim.ceiling
         && TraceAt(tape, d.loop.calls - 1) != []
         && (c.wordCap.Some? ==> WordCount(text) <= c.wordCap.value)
  {
    EveryQuestionIsTold(c, lim, tape, spent0, mounted);
  }

  /** A question that is asked this often and then answered, from the configured
      model, after content was read, within the threshold and the cap, records
      exactly that answer. */
  lemma SaidIsAnswer(c: Config, lim: Limits, tape: Tape, spent0: int, k: nat, text: string)
    requires c.Valid() && k < c.maxCalls && AllWentOn(c, lim, tape, spent0, k) && Opens(lim, tape, spent0, k)
    requires tape.Reply(k).Answered? && tape.Reply(k).decision.Finish? && tape.Reply(k).decision.text == text
    requires tape.Reply(k).usage.model == c.model && CostAt(tape, spent0, k + 1) <= lim.ceiling
    requires ReadContent(TraceAt(tape, k)) && WithinCap(c, text)
    ensures
      var e := AskWithMount(c, lim, tape, spent0, true);
      e.Settled? && e.draft.loop.calls == k + 1 && e.draft.answer == Some(text)
  {
    EveryQuestionIsTold(c, lim, tape, spent0, true);
    assert !GoesOn(c, lim, tape, spent0, k) && AnswersWith(c, lim, tape, spent0, k, text);
    var e := AskWithMount(c, lim, tape, spent0, true);
    if e.Settled? {
      OneLast(c, lim, tape, spent0, k, e.draft.loop.calls - 1);
    } else if e.Outage? {
      OneLast(c, lim, tape, spent0, k, e.calls - 1);
    } else if e.Crashed? {
      var j :| StopsAt(c, lim, tape, spent0, j, false);
      OneLast(c, lim, tape, spent0, k, j);
    }
  }

  /** A question has one last reply. */
  lemma OneLast(c: Config, lim: Limits, tape: Tape, spent0: int, j: nat, k: nat)
    requires IsLast(c, lim, tape, spent0, j) && IsLast(c, lim, tape, spent0, k)
    ensures j == k
  {
  }

  // ---- the record ----

  /** A claim is item `j`, the first one for it, with its document's session. */
  ghost predicate FirstAt(evidence: seq<Evidence>, sessions: map<int, string>, claim: Claim, j: nat) {
    && j < |evidence|
    && claim.claimId == evidence[j].claimId
    && claim.docId == evidence[j].docId
    && claim.text == evidence[j].text
    && claim.session == (if claim.docId in sessions then Some(sessions[claim.docId]) else None)
    && forall i :: 0 <= i < j ==> evidence[i].claimId != claim.claimId
  }

  /** The claims are the items at these positions, in order and ranked from one. */
  ghost predicate SeenAt(
      evidence: seq<Evidence>, sessions: map<int, string>, claims: seq<Claim>, positions: seq<nat>)
  {
    && |positions| == |claims|
    && (forall k :: 0 <= k < |claims| ==>
          claims[k].rank == k + 1 && FirstAt(evidence, sessions, claims[k], positions[k]))
    && (forall i, k :: 0 <= i < k < |positions| ==> positions[i] < positions[k])
  }

  /** Each of the first `n` items has its claim. */
  ghost predicate Covered(evidence: seq<Evidence>, n: nat, claims: seq<Claim>)
    requires n <= |evidence|
  {
    forall j :: 0 <= j < n ==> evidence[j].claimId in ClaimIds(claims)
  }

  /** For each claim of the evidence its first item, word for word, in order. */
  ghost predicate FirstSeen(evidence: seq<Evidence>, sessions: map<int, string>, claims: seq<Claim>) {
    (exists positions :: SeenAt(evidence, sessions, claims, positions)) && Covered(evidence, |evidence|, claims)
  }

  lemma IdsGrow(claims: seq<Claim>, claim: Claim)
    ensures ClaimIds(claims + [claim]) == ClaimIds(claims) + {claim.claimId}
  {
    var more := claims + [claim];
    assert forall k :: 0 <= k < |claims| ==> more[k] == claims[k];
    assert more[|claims|] == claim;
    forall c | c in claims ensures c in more {
    }
  }

  lemma SeenOneMore(
      evidence: seq<Evidence>, n: nat, sessions: map<int, string>, claims: seq<Claim>, claim: Claim,
      positions: seq<nat>)
    requires n < |evidence| && SeenAt(evidence, sessions, claims, positions) && Covered(evidence, n, claims)
    requires forall k :: 0 <= k < |positions| ==> positions[k] < n
    requires evidence[n].claimId !in ClaimIds(claims)
    requires
      var e := evidence[n];
      claim == Claim(|claims| + 1, e.claimId, e.docId, e.text, SessionOf(sessions, e.docId))
    ensures SeenAt(evidence, sessions, claims + [claim], positions + [n])
    ensures Covered(evidence, n + 1, claims + [claim])
  {
    IdsGrow(claims, claim);
    assert FirstAt(evidence, sessions, claim, n);
  }

  lemma {:induction false} CollectsFirstSeen(
      evidence: seq<Evidence>, n: nat, sessions: map<int, string>, claims: seq<Claim>, positions: seq<nat>)
    requires n <= |evidence| && SeenAt(evidence, sessions, claims, positions) && Covered(evidence, n, claims)
    requires forall k :: 0 <= k < |positions| ==> positions[k] < n
    ensures FirstSeen(evidence, sessions, Collect(evidence[n..], sessions, ClaimIds(claims), claims))
    decreases |evidence| - n
  {
    if n < |evidence| {
      var e := evidence[n];
      assert evidence[n..][0] == e && evidence[n..][1..] == evidence[n + 1..];
      if e.claimId in ClaimIds(claims) {
        CollectsFirstSeen(evidence, n + 1, sessions, claims, positions);
      } else {
        var claim := Claim(|claims| + 1, e.claimId, e.docId, e.text, SessionOf(sessions, e.docId));
        SeenOneMore(evidence, n, sessions, claims, claim, positions);
        IdsGrow(claims, claim);
        CollectsFirstSeen(evidence, n + 1, sessions, claims + [claim], positions + [n]);
      }
    }
  }

  /** The claims of a trace are its evidence items that come first with their
      claim, in the order they were seen, word for word. */
  lemma ClaimsAreFirstSeen(trace: seq<ToolCall>, sessions: map<int, string>)
    ensures FirstSeen(TraceEvidence(trace), sessions, ClaimsOf(trace, sessions))
  {
    assert TraceEvidence(trace)[0..] == TraceEvidence(trace) && ClaimIds([]) == {};
    CollectsFirstSeen(TraceEvidence(trace), 0, sessions, [], []);
  }

  /** Evidence is read call by call, envelope by envelope, and only from typed
      responses. */
  lemma {:induction false} EvidenceInOrder(a: seq<ToolCall>, b: seq<ToolCall>)
    ensures TraceEvidence(a + b) == TraceEvidence(a) + TraceEvidence(b)
    ensures Dropped(a + b) == Dropped(a) + Dropped(b)
  {
    if a == [] {
      assert a + b == b;
    } else {
      assert (a + b)[1..] == a[1..] + b;
      EvidenceInOrder(a[1..], b);
    }
  }

  lemma EvidenceOfCall(name: string, succeeded: bool, first: Envelope, rest: seq<Envelope>)
    ensures
      var call := ToolCall(name, succeeded, Typed([first] + rest));
      var others := ToolCall(name, succeeded, Typed(rest));
      && TraceEvidence([call]) == first.evidence + TraceEvidence([others])
      && Dropped([call]) == first.dropped + Dropped([others])
    ensures TraceEvidence([ToolCall(name, succeeded, Typed([]))]) == []
    ensures Dropped([ToolCall(name, succeeded, Typed([]))]) == 0
    ensures forall rows :: TraceEvidence([ToolCall(name, succeeded, Json(rows))]) == []
    ensures forall rows :: Dropped([ToolCall(name, succeeded, Json(rows))]) == 0
  {
    assert ([first] + rest)[1..] == rest;
    assert forall call: ToolCall :: [call][1..] == [];
    assert forall call: ToolCall :: TraceEvidence([call]) == EnvelopeEvidence(Envelopes(call.response)) + [];
  }

  // ---- the usage of a record ----

  lemma {:induction false} TokensAdd(a: seq<Usage>, b: seq<Usage>)
    ensures TokensIn(a + b) == TokensIn(a) + TokensIn(b) && TokensOut(a + b) == TokensOut(a) + TokensOut(b)
  {
    if a == [] {
      assert a + b == b;
    } else {
      assert (a + b)[1..] == a[1..] + b;
      TokensAdd(a[1..], b);
    }
  }

  lemma {:induction false} ModelsAre(usages: seq<Usage>)
    ensures forall m :: m in Models(usages) <==> exists u :: u in usages && u.model == m
    ensures Distinct(Models(usages))
  {
    if usages != [] {
      ModelsAre(usages[1..]);
      assert usages == [usages[0]] + usages[1..];
    }
  }

  /** Together, tokens and costs add up; alone, a usage is its own aggregate. */
  lemma UsageAddsUp(a: seq<Usage>, b: seq<Usage>)
    ensures
      && AggregateOf(a + b).tokensIn == AggregateOf(a).tokensIn + AggregateOf(b).tokensIn
      && AggregateOf(a + b).tokensOut == AggregateOf(a).tokensOut + AggregateOf(b).tokensOut
      && AggregateOf(a + b).cost == AggregateOf(a).cost + AggregateOf(b).cost
  {
    TokensAdd(a, b);
    CostOfConcat(a, b);
  }

  lemma UsageOfOne(u: Usage)
    ensures RecordUsage([]) == None && RecordUsage([u]) == Some(u)
  {
    assert [u][1..] == [] && Models([]) == [];
    assert Models([u]) == [u.model] && ModelName([u.model]) == u.model;
    assert TokensIn([u]) == u.tokensIn && TokensOut([u]) == u.tokensOut && Cost([u]) == u.cost;
  }

  /** Joined names stand one after the other, with a bar between each two. */
  lemma {:induction false} JoinedNames(a: seq<string>, b: seq<string>)
    requires a != [] && b != []
    ensures JoinNames(a + b) == JoinNames(a) + "|" + JoinNames(b)
    ensures |a| == 1 ==> JoinNames(a) == a[0]
  {
    assert (a + b)[1..] == a[1..] + b;
    if |a| == 1 {
      assert a[1..] + b == b;
    } else {
      JoinedNames(a[1..], b);
    }
  }

  /** One model keeps its name; several are all named, each once, in order. */
  lemma AggregateNames(usages: seq<Usage>) returns (names: seq<string>)
    requires usages != []
    ensures Sorted(LexLe, names) && Distinct(names)
    ensures forall m :: m in names <==> exists u :: u in usages && u.model == m
    ensures AggregateOf(usages).model == if |names| == 1 then names[0] else "mixed:" + JoinNames(names)
  {
    var models := Models(usages);
    ModelsAre(usages);
    LexIsTotal();
    names := SortBy((a, b) => LexLe(a, b), models);
    SortPermutes((a, b) => LexLe(a, b), models);
    SortSorted((a, b) => LexLe(a, b), models);
    PermutedDistinct(models, names);
    assert forall m :: m in names <==> m in multiset(names);
    assert forall m :: m in models <==> m in multiset(models);
    if |names| == 1 { assert models[0] in names; }
  }

  lemma LexIsTotal()
    ensures TotalPreorder((a: string, b: string) => LexLe(a, b))
  {
    forall a: string, b: string ensures LexLe(a, b) || LexLe(b, a) { LexTotal(a, b); }
    forall a: string, b: string, c: string | LexLe(a, b) && LexLe(b, c) ensures LexLe(a, c) { LexTrans(a, b, c); }
  }

  // ---- the record, told by the tape ----

  /** Every field of a question's record, told by the replies and the results. */
  ghost predicate RecordTells(
      c: Config, lim: Limits, tape: Tape, spent0: int, mounted: bool, q: Question, r: AnswerRecord)
  {
    && NamesQuestion(r, q)
    && Tells(
         c, lim, tape, spent0, mounted,
         Account(
           r.agentCalls, r.toolCalls, r.readerAttempts, r.firstStepRetries, r.unknownGuardRetries, r.answer, r.failure))
    && r.readerCalled == (r.agentCalls > 0)
    && (r.retrievalSucceeded <==> exists call :: call in r.toolCalls && call.succeeded)
    && FirstSeen(TraceEvidence(r.toolCalls), c.sessions, r.claims)
    && r.dropped == Dropped(r.toolCalls)
    && r.usage == RecordUsage(Billed(tape, r.agentCalls))
  }

  lemma EveryRecordIsTold(c: Config, lim: Limits, tape: Tape, spent0: int, mounted: bool, q: Question)
    requires c.Valid() && AskWithMount(c, lim, tape, spent0, mounted).Settled?
    ensures
      RecordTells(
        c, lim, tape, spent0, mounted, q, RecordOf(q, c, AskWithMount(c, lim, tape, spent0, mounted).draft))
  {
    var d := AskWithMount(c, lim, tape, spent0, mounted).draft;
    EveryQuestionIsTold(c, lim, tape, spent0, mounted);
    EveryRecordIsWellKept(c, lim, tape, spent0, mounted, q);
    ClaimsAreFirstSeen(d.loop.trace, c.sessions);
  }
}
