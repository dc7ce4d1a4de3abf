// The answer loop as it runs: locals updated step by step, the shared run state
// billed in place, every exit taken where it occurs.

module AnswerRun {
  import opened Wrappers
  import opened Sums
  import opened Records
  import opened AnswerText
  import opened AnswerLoop
  import opened AnswerProofs

  /** The answer provider: its n-th call yields the n-th reply. Any behaviour of
      the outside world is some `replies`. */
  class Provider {
    const replies: nat -> Reply
    var calls: nat

    constructor (replies: nat -> Reply)
      ensures this.replies == replies && calls == 0
    {
      this.replies := replies;
      calls := 0;
    }

    method Generate() returns (reply: Reply)
      modifies this
      ensures reply == replies(old(calls)) && calls == old(calls) + 1
    {
      reply := replies(calls);
      calls := calls + 1;
    }
  }

  /** The read surface behind the answer tools. */
  class Dispatcher {
    const results: nat -> ToolReply
    var calls: nat

    constructor (results: nat -> ToolReply)
      ensures this.results == results && calls == 0
    {
      this.results := results;
      calls := 0;
    }

    method Dispatch(name: string) returns (result: ToolReply)
      modifies this
      ensures result == results(old(calls)) && calls == old(calls) + 1
    {
      result := results(calls);
      calls := calls + 1;
    }
  }

  /** The one mutable checkpoint of a loaded run. */
  class RunState {
    var ingests: map<string, IngestRecord>
    var preflightUsages: seq<Usage>
    var readiness: map<string, string>
    var answers: map<string, AnswerRecord>
    var judges: map<string, JudgeRecord>
    var interruptedUsages: seq<Usage>
    var interruptedAnswerCalls: nat
    var interruptedJudgeCalls: nat
    var cost: int

    function Value(): State
      reads this
    {
      State(ingests, preflightUsages, readiness, answers, judges, interruptedUsages,
            interruptedAnswerCalls, interruptedJudgeCalls, cost)
    }

    constructor (s: State)
      ensures Value() == s
    {
      ingests := s.ingests;
      preflightUsages := s.preflightUsages;
      readiness := s.readiness;
      answers := s.answers;
      judges := s.judges;
      interruptedUsages := s.interruptedUsages;
      interruptedAnswerCalls := s.interruptedAnswerCalls;
      interruptedJudgeCalls := s.interruptedJudgeCalls;
      cost := s.cost;
    }
  }

  /** How `AnswerOne` comes back to its caller. */
  datatype QuestionEnd =
    | Recorded(record: AnswerRecord)
    | GuardRaised
    | InfrastructureRaised
    | OtherRaised

  /** The innermost loop: one envelope's evidence. */
  method AddEvidence(evidence: seq<Evidence>, sessions: map<int, string>, seen0: set<int>, claims0: seq<Claim>)
    returns (seen: set<int>, claims: seq<Claim>)
    ensures seen == seen0 + EvidenceIds(evidence)
    ensures claims == Collect(evidence, sessions, seen0, claims0)
  {
    seen, claims := seen0, claims0;
    assert evidence[0..] == evidence;
    for k := 0 to |evidence|
      invariant Collect(evidence, sessions, seen0, claims0) == Collect(evidence[k..], sessions, seen, claims)
      invariant seen0 + EvidenceIds(evidence) == seen + EvidenceIds(evidence[k..])
    {
      var e := evidence[k];
      assert evidence[k..][1..] == evidence[k + 1..];
      if e.claimId in seen { continue; }
      seen := seen + {e.claimId};
      claims := claims + [Claim(|claims| + 1, e.claimId, e.docId, e.text, SessionOf(sessions, e.docId))];
    }
  }

  method AddEnvelopes(envelopes: seq<Envelope>, sessions: map<int, string>, seen0: set<int>, claims0: seq<Claim>)
    returns (seen: set<int>, claims: seq<Claim>)
    ensures seen == seen0 + EvidenceIds(EnvelopeEvidence(envelopes))
    ensures claims == Collect(EnvelopeEvidence(envelopes), sessions, seen0, claims0)
  {
    seen, claims := seen0, claims0;
    assert envelopes[0..] == envelopes;
    for j := 0 to |envelopes|
      invariant Collect(EnvelopeEvidence(envelopes), sessions, seen0, claims0)
             == Collect(EnvelopeEvidence(envelopes[j..]), sessions, seen, claims)
      invariant seen0 + EvidenceIds(EnvelopeEvidence(envelopes)) == seen + EvidenceIds(EnvelopeEvidence(envelopes[j..]))
    {
      ghost var rest := EnvelopeEvidence(envelopes[j + 1..]);
      assert envelopes[j..][1..] == envelopes[j + 1..];
      CollectInParts(envelopes[j].evidence, rest, sessions, seen, claims);
      seen, claims := AddEvidence(envelopes[j].evidence, sessions, seen, claims);
    }
  }

  /** Ranks first-seen claims while walking every envelope of every call. */
  method ClaimsFromTrace(trace: seq<ToolCall>, sessions: map<int, string>) returns (claims: seq<Claim>)
    ensures claims == ClaimsOf(trace, sessions)
  {
    var seen: set<int> := {};
    claims := [];
    assert trace[0..] == trace;
    for i := 0 to |trace|
      invariant ClaimsOf(trace, sessions) == Collect(TraceEvidence(trace[i..]), sessions, seen, claims)
    {
      var envelopes := Envelopes(trace[i].response);
      assert trace[i..][1..] == trace[i + 1..];
      CollectInParts(EnvelopeEvidence(envelopes), TraceEvidence(trace[i + 1..]), sessions, seen, claims);
      seen, claims := AddEnvelopes(envelopes, sessions, seen, claims);
    }
  }

  /** A terminal record with its evidence collected from the trace. */
  method BuildRecord(q: Question, c: Config, d: Draft) returns (record: AnswerRecord)
    ensures record == RecordOf(q, c, d)
  {
    var l := d.loop;
    var claims := ClaimsFromTrace(l.trace, c.sessions);
    record := AnswerRecord(
      q.itemId, q.sampleId, q.category, q.question, Gold(q), q.evidence,
      claims, l.trace, Dropped(l.trace), TraceSucceeded(l.trace),
      l.calls > 0, l.calls, d.attempts, l.firstRetries, l.guardRetries,
      d.answer, RecordUsage(l.usages), d.failure);
  }

  /** The spend when a question ends. */
  function SpentAt(e: Ending): int {
    match e
    case Settled(d) => d.loop.spent
    case Outage(_, _, spent) => spent
    case GuardStop(_, spent) => spent
    case Crashed(spent) => spent
  }

  /** The calls made when a question ends, as the run state records them. */
  function CallsAt(e: Ending): nat {
    match e
    case Settled(d) => d.loop.calls
    case Outage(_, calls, _) => calls
    case GuardStop(calls, _) => calls
    case Crashed(_) => 0
  }

  /** What a question's ending leaves in the run state: the spend, and, for an
      outage, the interrupted usages and calls. */
  function After(s: State, e: Ending): State {
    match e
    case Outage(usages, calls, spent) =>
      s.(cost := spent,
         interruptedUsages := s.interruptedUsages + usages,
         interruptedAnswerCalls := s.interruptedAnswerCalls + calls)
    case _ => s.(cost := SpentAt(e))
  }

  /** The locals of the loop and the shared spend, changed in place by a turn. */
  class Session {
    const c: Config
    const lim: Limits
    const provider: Provider
    const dispatcher: Dispatcher
    const state: RunState
    const r0: nat
    const t0: nat
    var calls: nat
    var usages: seq<Usage>
    var trace: seq<ToolCall>
    var attempts: nat
    var firstRetries: nat
    var guardRetries: nat
    var invalids: nat

    constructor (c: Config, lim: Limits, provider: Provider, dispatcher: Dispatcher, state: RunState)
      ensures this.c == c && this.lim == lim
      ensures this.provider == provider && this.dispatcher == dispatcher && this.state == state
      ensures r0 == provider.calls && t0 == dispatcher.calls
      ensures Here() == Start(state.cost)
    {
      this.c := c;
      this.lim := lim;
      this.provider := provider;
      this.dispatcher := dispatcher;
      this.state := state;
      r0, t0 := provider.calls, dispatcher.calls;
      calls, attempts, firstRetries, guardRetries, invalids := 0, 0, 0, 0, 0;
      usages, trace := [], [];
    }

    function Here(): Loop
      reads this, state
    {
      Loop(calls, state.cost, usages, trace, attempts, firstRetries, guardRetries, invalids)
    }

    /** What the provider and the read surface will answer in this session. */
    function Future(): Tape {
      Tape(provider.replies, r0, dispatcher.results, t0)
    }

    /** The environment stands where the session's own counts say. */
    predicate InStep()
      reads this, provider, dispatcher
    {
      provider.calls == r0 + calls && dispatcher.calls == t0 + |trace|
    }

    /** Books one reported usage. */
    method Charge(billed: Option<Usage>)
      modifies this`usages, state`cost
      ensures Here() == Bill(old(Here()), billed)
    {
      if billed.Some? {
        usages := usages + [billed.value];
        state.cost := state.cost + billed.value.cost;
      }
    }

    method Append(name: string, succeeded: bool, response: Response)
      modifies this`trace
      ensures Here() == Traced(old(Here()), name, succeeded, response)
    {
      trace := trace + [ToolCall(name, succeeded, response)];
    }

    /** An invalid completion: count it, and retry within every budget. */
    method InvalidCompletion(billed: Option<Usage>) returns (turn: Turn)
      modifies this, state`cost
      ensures turn == OnInvalid(c, lim, old(Here()), billed) && calls == old(calls)
      ensures turn.Again? ==> Here() == turn.next
      ensures turn.Done? ==> turn.ending.Settled? && Here() == turn.ending.draft.loop
    {
      Charge(billed);
      invalids := invalids + 1;
      if |trace| > 0 { attempts := attempts + 1; }
      var mismatch := billed.Some? && billed.value.model != c.model;
      if !mismatch
         && invalids <= c.retryBudget
         && calls < c.maxCalls
         && lim.priorCalls + calls < lim.maxCalls
         && state.cost < lim.ceiling
      {
        if |trace| == 0 { firstRetries := firstRetries + 1; }
        turn := Again(Here());
      } else {
        turn := Failed(Here(), if mismatch then Accounting else Reader, attempts);
      }
    }

    /** A failed call: bill it, and stop the question or the whole run. */
    method FailedCall(billed: Option<Usage>, outage: bool) returns (turn: Turn)
      modifies this`usages, state`cost
      ensures turn == OnCallFailed(c, old(Here()), billed, outage)
      ensures turn.Done? && state.cost == SpentAt(turn.ending)
    {
      Charge(billed);
      if outage {
        return Done(Outage(usages, calls, state.cost));
      }
      var mismatch := billed.Some? && billed.value.model != c.model;
      turn := Failed(Here(), if mismatch then Accounting else Reader, attempts + Count(|trace| > 0));
    }

    /** A terminal answer after at least one read. */
    method TerminalAnswer(text: string) returns (turn: Turn)
      requires |trace| > 0
      modifies this`attempts, this`guardRetries
      ensures turn == OnReadAnswer(c, lim, old(Here()), text, IsUnknown(text), HasContent(trace))
      ensures turn.Again? ==> Here() == turn.next
      ensures turn.Done? ==> turn.ending.Settled? && Here() == turn.ending.draft.loop
    {
      var guardedTerminal := false;
      var unknown := IsUnknown(text);
      var content := HasContent(trace);
      if (c.requireContent || unknown) && !content {
        attempts := attempts + 1;
        if unknown { guardRetries := guardRetries + 1; }
        if calls < c.maxCalls && lim.priorCalls + calls < lim.maxCalls && state.cost < lim.ceiling {
          return Again(Here());
        }
        if c.requireContent {
          return Failed(Here(), InvalidResponse, attempts);
        }
        guardedTerminal := true;
      }
      if c.wordCap.Some? && WordCount(text) > c.wordCap.value {
        return Failed(Here(), InvalidResponse, attempts + 1);
      }
      turn := Done(Settled(Draft(Here(), if guardedTerminal then attempts else attempts + 1, Some(text), None)));
    }

    /** A requested tool: refuse it, or dispatch it and trace its outcome. */
    method RequestedTool(name: string) returns (turn: Turn)
      requires dispatcher.calls == t0 + |trace|
      modifies this`trace, dispatcher
      ensures turn == OnTool(c, Future(), old(Here()), name)
      ensures turn.Done? && turn.ending.Settled? ==> dispatcher.calls == t0 + |turn.ending.draft.loop.trace|
      ensures dispatcher.calls >= old(dispatcher.calls)
      ensures turn.Done? && Stops(turn.ending) ==>
        dispatcher.calls > old(dispatcher.calls) && ToolHitch(dispatcher.results(dispatcher.calls - 1))
      ensures turn.Again? ==> Here() == turn.next && dispatcher.calls == t0 + |trace|
    {
      if name !in c.toolNames {
        return Failed(Here(), InvalidResponse, attempts);
      }
      if |trace| >= c.maxTools {
        return Failed(Here(), InvalidResponse, attempts);
      }
      var result := dispatcher.Dispatch(name);
      match result {
        case Unavailable =>
          return Done(Outage(usages, calls, state.cost));
        case ApiError(correctable) =>
          Append(name, false, Json(false));
          if correctable { return Again(Here()); }
          return Failed(Here(), ToolFailure, attempts);
        case Misused =>
          Append(name, false, Json(false));
          return Again(Here());
        case Broken(correctable) =>
          Append(name, false, Json(false));
          if correctable { return Again(Here()); }
          return Failed(Here(), ToolFailure, attempts);
        case QueryFailed(correctable, payload) =>
          Append(name, false, payload);
          if correctable { return Again(Here()); }
          return Failed(Here(), ToolFailure, attempts);
        case Returned(payload) =>
          Append(name, true, payload);
          return Again(Here());
        case ToolCrash =>
          return Done(Crashed(state.cost));
      }
    }

    /** A validated reply: bill it, check its model and the threshold, then act
        on the decision. */
    method Decide(u: Usage, decision: Decision) returns (turn: Turn)
      requires dispatcher.calls == t0 + |trace|
      modifies this, state`cost, dispatcher
      ensures turn == OnDecision(c, lim, Future(), old(Here()), u, decision)
      ensures turn.Done? && turn.ending.Settled? ==> dispatcher.calls == t0 + |turn.ending.draft.loop.trace|
      ensures dispatcher.calls >= old(dispatcher.calls)
      ensures turn.Done? && Stops(turn.ending) ==>
        dispatcher.calls > old(dispatcher.calls) && ToolHitch(dispatcher.results(dispatcher.calls - 1))
      ensures calls == old(calls)
      ensures turn.Again? ==> Here() == turn.next && dispatcher.calls == t0 + |trace|
      ensures turn.Done? ==> state.cost == SpentAt(turn.ending)
    {
      Charge(Some(u));
      if u.model != c.model {
        return Failed(Here(), Accounting, attempts);
      }
      if state.cost > lim.ceiling || (state.cost == lim.ceiling && decision.CallTool?) {
        return Failed(Here(), Accounting, attempts + Count(decision.Finish? && |trace| > 0));
      }
      if decision.Finish? {
        if |trace| == 0 {
          return Failed(Here(), InvalidResponse, attempts);
        }
        turn := TerminalAnswer(decision.text);
        return;
      }
      turn := RequestedTool(decision.name);
    }

    /** What a reply leads to. */
    method Handle(reply: Reply) returns (turn: Turn)
      requires dispatcher.calls == t0 + |trace|
      modifies this, state`cost, dispatcher
      ensures turn == OnReply(c, lim, Future(), old(Here()), reply)
      ensures turn.Done? && turn.ending.Settled? ==> dispatcher.calls == t0 + |turn.ending.draft.loop.trace|
      ensures calls == old(calls) && dispatcher.calls >= old(dispatcher.calls)
      ensures turn.Again? ==> Here() == turn.next && dispatcher.calls == t0 + |trace|
      ensures turn.Done? ==> state.cost == SpentAt(turn.ending)
      ensures turn.Done? && Stops(turn.ending) ==>
        || Hitch(reply)
        || (dispatcher.calls > old(dispatcher.calls) && ToolHitch(dispatcher.results(dispatcher.calls - 1)))
    {
      match reply {
        case NoAccounting =>
          return Failed(Here(), Accounting, attempts + Count(|trace| > 0));
        case Unparsed =>
          return Failed(Here(), InvalidResponse, attempts);
        case InvalidCompletion(billed) =>
          turn := InvalidCompletion(billed);
          return;
        case CallFailed(billed, outage) =>
          turn := FailedCall(billed, outage);
          return;
        case ProviderCrash =>
          return Done(Crashed(state.cost));
        case Answered(u, decision) =>
          turn := Decide(u, decision);
          return;
      }
    }

    /** One pass through the loop body. */
    method OneTurn() returns (turn: Turn)
      requires InStep()
      modifies this, state`cost, provider, dispatcher
      ensures turn == TakeTurn(c, lim, Future(), old(Here()))
      ensures turn.Done? && turn.ending.Settled? ==> dispatcher.calls == t0 + |turn.ending.draft.loop.trace|
      ensures dispatcher.calls >= old(dispatcher.calls)
      ensures turn.Done? && Stops(turn.ending) ==>
        EndsInHitch(
          provider.replies, old(provider.calls), provider.calls,
          dispatcher.results, old(dispatcher.calls), dispatcher.calls)
      ensures turn.Again? ==> Here() == turn.next && InStep() && calls == old(calls) + 1
      ensures turn.Done? ==> state.cost == SpentAt(turn.ending)
      ensures turn.Done? ==> provider.calls == r0 + (if MayStart(lim, old(Here())) then old(calls) + 1 else old(calls))
    {
      if lim.priorCalls + calls >= lim.maxCalls {
        return Done(GuardStop(calls, state.cost));
      }
      if lim.ceiling <= 0 || state.cost >= lim.ceiling {
        return Done(GuardStop(calls, state.cost));
      }
      ghost var before := Here();
      calls := calls + 1;
      var reply := provider.Generate();
      assert Here() == before.(calls := before.calls + 1);
      turn := Handle(reply);
      TurnIsReply(c, lim, Future(), before, reply, turn);
    }

    /** The whole loop. */
    method Drive() returns (ending: Ending)
      requires InStep() && calls <= c.maxCalls
      modifies this, state`cost, provider, dispatcher
      ensures ending == Ask(c, lim, Future(), old(Here()))
      ensures ending.Settled? ==> dispatcher.calls == t0 + |ending.draft.loop.trace|
      ensures state.cost == SpentAt(ending)
      ensures ending.Crashed? || provider.calls == r0 + CallsAt(ending)
      ensures old(provider.calls) <= provider.calls <= r0 + c.maxCalls
      ensures dispatcher.calls >= old(dispatcher.calls)
      ensures Stops(ending) ==>
        EndsInHitch(
          provider.replies, old(provider.calls), provider.calls,
          dispatcher.results, old(dispatcher.calls), dispatcher.calls)
    {
      while calls < c.maxCalls
        invariant InStep() && calls <= c.maxCalls
        invariant provider.calls >= old(provider.calls) && dispatcher.calls >= old(dispatcher.calls)
        invariant Ask(c, lim, Future(), Here()) == Ask(c, lim, Future(), old(Here()))
        decreases c.maxCalls - calls
      {
        ghost var before, mid, next := Here(), provider.calls, dispatcher.calls;
        var turn := OneTurn();
        if turn.Done? {
          HitchWithin(
            provider.replies, old(provider.calls), mid, provider.calls,
            dispatcher.results, old(dispatcher.calls), next, dispatcher.calls);
          CallsOfTurn(c, lim, Future(), before);
          return turn.ending;
        }
      }
      return Failed(Here(), InvalidResponse, attempts).ending;
    }
  }

  lemma TurnIsReply(c: Config, lim: Limits, tape: Tape, l: Loop, reply: Reply, turn: Turn)
    requires MayStart(lim, l) && reply == tape.Reply(l.calls)
    requires turn == OnReply(c, lim, tape, l.(calls := l.calls + 1), reply)
    ensures turn == TakeTurn(c, lim, tape, l)
  {
  }

  lemma CallsOfTurn(c: Config, lim: Limits, tape: Tape, l: Loop)
    ensures
      var turn := TakeTurn(c, lim, tape, l);
      turn.Done? && !turn.ending.Crashed? ==>
        CallsAt(turn.ending) == if MayStart(lim, l) then l.calls + 1 else l.calls
  {
  }

  /** Runs the loop for one question; only the spend of the run state changes. */
  method Converse(
      c: Config, limits: Limits, mounted: bool, provider: Provider, dispatcher: Dispatcher, state: RunState)
    returns (e: Ending)
    modifies provider, dispatcher, state`cost
    ensures e == AskWithMount(
      c, limits, old(Tape(provider.replies, provider.calls, dispatcher.results, dispatcher.calls)), old(state.cost),
      mounted)
    ensures e.Settled? ==> dispatcher.calls == old(dispatcher.calls) + |e.draft.loop.trace|
    ensures state.cost == SpentAt(e)
    ensures e.Crashed? || provider.calls == old(provider.calls) + CallsAt(e)
    ensures old(provider.calls) <= provider.calls <= old(provider.calls) + c.maxCalls
    ensures dispatcher.calls >= old(dispatcher.calls)
    ensures Stops(e) ==>
      EndsInHitch(
        provider.replies, old(provider.calls), provider.calls,
        dispatcher.results, old(dispatcher.calls), dispatcher.calls)
  {
    if !mounted {
      return Failed(Start(state.cost), ToolFailure, 0).ending;
    }
    var session := new Session(c, limits, provider, dispatcher, state);
    e := session.Drive();
  }

  /** How the caller of `AnswerOne` sees an ending. */
  function EndOf(q: Question, c: Config, e: Ending): QuestionEnd {
    match e
    case Settled(d) => Recorded(RecordOf(q, c, d))
    case Outage(_, _, _) => InfrastructureRaised
    case GuardStop(_, _) => GuardRaised
    case Crashed(_) => OtherRaised
  }

  /** Turns an ending into the caller's outcome; an outage's usages and calls
      are kept in the run state. */
  method Conclude(q: Question, c: Config, e: Ending, state: RunState) returns (end: QuestionEnd)
    requires state.cost == SpentAt(e)
    modifies state`interruptedUsages, state`interruptedAnswerCalls
    ensures end == EndOf(q, c, e)
    ensures state.Value() == After(old(state.Value()), e)
  {
    match e {
      case Settled(d) =>
        var record := BuildRecord(q, c, d);
        end := Recorded(record);
      case Outage(usages, calls, _) =>
        state.interruptedUsages := state.interruptedUsages + usages;
        state.interruptedAnswerCalls := state.interruptedAnswerCalls + calls;
        end := InfrastructureRaised;
      case GuardStop(_, _) =>
        end := GuardRaised;
      case Crashed(_) =>
        end := OtherRaised;
    }
  }

  /** Answers one question. The ghost result is the ending the loop's
      specification prescribes for this provider and read surface. */
  method AnswerOne(
      q: Question, c: Config, maxCalls: int, ceiling: int, mounted: bool,
      provider: Provider, dispatcher: Dispatcher, state: RunState)
    returns (end: QuestionEnd, ghost e: Ending)
    modifies provider, dispatcher, state`cost, state`interruptedUsages, state`interruptedAnswerCalls
    ensures e == AskWithMount(c, Limits(AnswerCallTotal(old(state.Value())), maxCalls, ceiling),
                              old(Tape(provider.replies, provider.calls, dispatcher.results, dispatcher.calls)),
                              old(state.cost), mounted)
    ensures e.Settled? ==> dispatcher.calls == old(dispatcher.calls) + |e.draft.loop.trace|
    ensures end == EndOf(q, c, e)
    ensures state.Value() == After(old(state.Value()), e)
    ensures e.Crashed? || provider.calls == old(provider.calls) + CallsAt(e)
    ensures old(provider.calls) <= provider.calls <= old(provider.calls) + c.maxCalls
    ensures dispatcher.calls >= old(dispatcher.calls)
    ensures Stops(e) ==>
      EndsInHitch(
        provider.replies, old(provider.calls), provider.calls,
        dispatcher.results, old(dispatcher.calls), dispatcher.calls)
  {
    ghost var s := state.Value();
    var agentCalls := SumValues(AgentCalls(state.answers));
    var limits := Limits(state.interruptedAnswerCalls + agentCalls, maxCalls, ceiling);
    assert limits.priorCalls == AnswerCallTotal(s);
    var ending := Converse(c, limits, mounted, provider, dispatcher, state);
    e := ending;
    assert state.Value() == s.(cost := SpentAt(ending));
    end := Conclude(q, c, ending, state);
  }
}
