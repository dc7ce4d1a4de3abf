// The bounded answer agent: one question, a provider, a tool dispatcher, a
// shared spend threshold and a shared call ceiling.

module AnswerLoop {
  import opened Wrappers
  import opened Orders
  import opened Records
  import opened AnswerText

  /** One validated decision of the answer agent. */
  datatype Decision = CallTool(name: string) | Finish(text: NonEmpty)

  /** What one provider call can come to. */
  datatype Reply =
    | NoAccounting                                   // a paid reply without usage
    | Unparsed                                       // schema validation failed
    | InvalidCompletion(billed: Option<Usage>)       // completed, but unusable
    | CallFailed(billed: Option<Usage>, outage: bool) // any other call error
    | Answered(usage: Usage, decision: Decision)
    | ProviderCrash                                  // any exception nobody handles

  /** What one tool dispatch can come to. */
  datatype ToolReply =
    | Unavailable                          // API status 503
    | ApiError(correctable: bool)          // any other API status
    | Misused                              // rejected arguments
    | Broken(correctable: bool)            // infrastructure or sandbox failure
    | QueryFailed(correctable: bool, payload: Response)
    | Returned(payload: Response)
    | ToolCrash

  datatype Config = Config(
    model: string,
    maxTools: nat,
    maxCalls: nat,
    retryBudget: nat,
    wordCap: Option<nat>,
    requireContent: bool,
    toolNames: set<string>,
    sessions: map<int, string>
  ) {
    /** A configured word cap is at least one. */
    predicate Valid() {
      wordCap.Some? ==> wordCap.value >= 1
    }
  }

  /** The shared limits as one question sees them. */
  datatype Limits = Limits(priorCalls: nat, maxCalls: int, ceiling: int)

  /** The provider's and the dispatcher's future, read from a given position. */
  datatype Tape = Tape(replies: nat -> Reply, r0: nat, tools: nat -> ToolReply, t0: nat) {
    function Reply(k: nat): Reply { replies(r0 + k) }
    function Tool(k: nat): ToolReply { tools(t0 + k) }
  }

  /** The local variables of the loop. */
  datatype Loop = Loop(
    calls: nat,
    spent: int,
    usages: seq<Usage>,
    trace: seq<ToolCall>,
    attempts: nat,
    firstRetries: nat,
    guardRetries: nat,
    invalids: nat
  )

  /** A terminal record before the fields derived from its trace and usages
      are filled in. */
  datatype Draft = Draft(loop: Loop, attempts: nat, answer: Option<string>, failure: Option<FailureKind>)

  /** How one question ends. */
  datatype Ending =
    | Settled(draft: Draft)
    | GuardStop(calls: nat, spent: int)                      // execution guard
    | Outage(usages: seq<Usage>, calls: nat, spent: int)     // stop the run
    | Crashed(spent: int)

  datatype Turn = Again(next: Loop) | Done(ending: Ending)

  function Start(spent: int): Loop {
    Loop(0, spent, [], [], 0, 0, 0, 0)
  }

  function Count(b: bool): nat {
    if b then 1 else 0
  }

  // ---- evidence carried by a trace ----

  function Envelopes(r: Response): seq<Envelope> {
    if r.Typed? then r.envelopes else []
  }

  function EnvelopeEvidence(envelopes: seq<Envelope>): seq<Evidence> {
    if envelopes == [] then [] else envelopes[0].evidence + EnvelopeEvidence(envelopes[1..])
  }

  function TraceEvidence(trace: seq<ToolCall>): seq<Evidence> {
    if trace == [] then [] else EnvelopeEvidence(Envelopes(trace[0].response)) + TraceEvidence(trace[1..])
  }

  function SessionOf(sessions: map<int, string>, docId: int): Option<string> {
    if docId in sessions then Some(sessions[docId]) else None
  }

  /** First-seen claims, ranked in order, continuing after `claims`. */
  function Collect(evidence: seq<Evidence>, sessions: map<int, string>, seen: set<int>, claims: seq<Claim>): seq<Claim>
    decreases |evidence|
  {
    if evidence == [] then claims
    else
      var e := evidence[0];
      if e.claimId in seen then Collect(evidence[1..], sessions, seen, claims)
      else
        Collect(evidence[1..], sessions, seen + {e.claimId},
                claims + [Claim(|claims| + 1, e.claimId, e.docId, e.text, SessionOf(sessions, e.docId))])
  }

  function ClaimsOf(trace: seq<ToolCall>, sessions: map<int, string>): seq<Claim> {
    Collect(TraceEvidence(trace), sessions, {}, [])
  }

  function EnvelopeDrops(envelopes: seq<Envelope>): nat {
    if envelopes == [] then 0 else envelopes[0].dropped + EnvelopeDrops(envelopes[1..])
  }

  /** Hydration drops over every envelope of every call. */
  function Dropped(trace: seq<ToolCall>): nat {
    if trace == [] then 0 else EnvelopeDrops(Envelopes(trace[0].response)) + Dropped(trace[1..])
  }

  predicate TraceSucceeded(trace: seq<ToolCall>) {
    exists c :: c in trace && c.succeeded
  }

  predicate IsDirectRead(name: string) {
    name in {
      "combined_context", "facts_context", "claims_and_sources_context", "lookup_relations",
      "transcript_relation", "lookup_observations", "search_claims", "search_chunks",
      "adjacent_chunks", "hydrate_relation", "p3_search", "p3_read"
    }
  }

  /** Whether a successful call read content, not only identity or metadata. */
  predicate BearsContent(c: ToolCall) {
    && c.succeeded
    && (IsDirectRead(c.name)
        || (c.name in {"query_sql", "run_saved_query"} && c.response.Json? && c.response.hasRows))
  }

  predicate HasContent(trace: seq<ToolCall>) {
    exists c :: c in trace && BearsContent(c)
  }

  // ---- usage ----

  function Models(usages: seq<Usage>): seq<string> {
    if usages == [] then []
    else
      var rest := Models(usages[1..]);
      if usages[0].model in rest then rest else [usages[0].model] + rest
  }

  function JoinNames(names: seq<string>): string {
    if names == [] then "" else if |names| == 1 then names[0] else names[0] + "|" + JoinNames(names[1..])
  }

  /** One model keeps its name; several are all named, in order. */
  function ModelName(names: seq<string>): string {
    if |names| == 1 then names[0] else "mixed:" + JoinNames(SortBy((a, b) => LexLe(a, b), names))
  }

  /** Collapses the calls of one question into a single accounting entry. */
  function AggregateOf(usages: seq<Usage>): Usage {
    Usage(ModelName(Models(usages)), TokensIn(usages), TokensOut(usages), Cost(usages))
  }

  function RecordUsage(usages: seq<Usage>): Option<Usage> {
    if usages == [] then None else Some(AggregateOf(usages))
  }

  // ---- terminal records ----

  function Gold(q: Question): string {
    if q.answer.Some? then q.answer.value else ""
  }

  function RecordOf(q: Question, c: Config, d: Draft): AnswerRecord {
    var l := d.loop;
    AnswerRecord(
      q.itemId, q.sampleId, q.category, q.question, Gold(q), q.evidence,
      ClaimsOf(l.trace, c.sessions), l.trace, Dropped(l.trace), TraceSucceeded(l.trace),
      l.calls > 0, l.calls, d.attempts, l.firstRetries, l.guardRetries,
      d.answer, RecordUsage(l.usages), d.failure)
  }

  function Failed(l: Loop, kind: FailureKind, attempts: nat): Turn {
    Done(Settled(Draft(l, attempts, None, Some(kind))))
  }

  // ---- one turn ----

  function Bill(l: Loop, billed: Option<Usage>): Loop {
    if billed.None? then l
    else l.(usages := l.usages + [billed.value], spent := l.spent + billed.value.cost)
  }

  predicate WrongModel(c: Config, billed: Option<Usage>) {
    billed.Some? && billed.value.model != c.model
  }

  /** Whether another provider call may still be made for this question. */
  predicate MayCallAgain(c: Config, lim: Limits, l: Loop) {
    && l.calls < c.maxCalls
    && lim.priorCalls + l.calls < lim.maxCalls
    && l.spent < lim.ceiling
  }

  function OnInvalid(c: Config, lim: Limits, before: Loop, billed: Option<Usage>): Turn {
    var reading := Count(|before.trace| > 0);
    var l := Bill(before, billed).(invalids := before.invalids + 1, attempts := before.attempts + reading);
    if !WrongModel(c, billed) && l.invalids <= c.retryBudget && MayCallAgain(c, lim, l) then
      Again(l.(firstRetries := l.firstRetries + (1 - reading)))
    else
      Failed(l, if WrongModel(c, billed) then Accounting else Reader, l.attempts)
  }

  function OnCallFailed(c: Config, before: Loop, billed: Option<Usage>, outage: bool): Turn {
    var l := Bill(before, billed);
    if outage then Done(Outage(l.usages, l.calls, l.spent))
    else Failed(l, if WrongModel(c, billed) then Accounting else Reader, l.attempts + Count(|l.trace| > 0))
  }

  function Finished(c: Config, l: Loop, text: string, attempts: nat): Turn {
    if c.wordCap.Some? && WordCount(text) > c.wordCap.value then
      Failed(l, InvalidResponse, l.attempts + 1)
    else
      Done(Settled(Draft(l, attempts, Some(text), None)))
  }

  /** An answer after at least one tool call; `unknown` says it is the terminal
      Unknown, `content` that some read bore content. */
  function OnReadAnswer(c: Config, lim: Limits, l: Loop, text: string, unknown: bool, content: bool): Turn {
    if (c.requireContent || unknown) && !content then
      var guarded := l.(attempts := l.attempts + 1, guardRetries := l.guardRetries + Count(unknown));
      if MayCallAgain(c, lim, guarded) then Again(guarded)
      else if c.requireContent then Failed(guarded, InvalidResponse, guarded.attempts)
      else Finished(c, guarded, text, guarded.attempts)
    else Finished(c, l, text, l.attempts + 1)
  }

  function OnAnswer(c: Config, lim: Limits, l: Loop, text: string): Turn {
    if |l.trace| == 0 then Failed(l, InvalidResponse, l.attempts)
    else OnReadAnswer(c, lim, l, text, IsUnknown(text), HasContent(l.trace))
  }

  function Traced(l: Loop, name: string, succeeded: bool, response: Response): Loop {
    l.(trace := l.trace + [ToolCall(name, succeeded, response)])
  }

  function ToolError(c: Config, l: Loop, correctable: bool): Turn {
    if correctable then Again(l) else Failed(l, ToolFailure, l.attempts)
  }

  function OnTool(c: Config, tape: Tape, l: Loop, name: string): Turn {
    if name !in c.toolNames || |l.trace| >= c.maxTools then Failed(l, InvalidResponse, l.attempts)
    else
      match tape.Tool(|l.trace|)
      case Unavailable => Done(Outage(l.usages, l.calls, l.spent))
      case ApiError(correctable) => ToolError(c, Traced(l, name, false, Json(false)), correctable)
      case Misused => Again(Traced(l, name, false, Json(false)))
      case Broken(correctable) => ToolError(c, Traced(l, name, false, Json(false)), correctable)
      case QueryFailed(correctable, payload) => ToolError(c, Traced(l, name, false, payload), correctable)
      case Returned(payload) => Again(Traced(l, name, true, payload))
      case ToolCrash => Done(Crashed(l.spent))
  }

  function OnDecision(c: Config, lim: Limits, tape: Tape, before: Loop, u: Usage, d: Decision): Turn {
    var l := Bill(before, Some(u));
    if u.model != c.model then Failed(l, Accounting, l.attempts)
    else if l.spent > lim.ceiling || (l.spent == lim.ceiling && d.CallTool?) then
      Failed(l, Accounting, l.attempts + Count(d.Finish? && |l.trace| > 0))
    else
      match d
      case Finish(text) => OnAnswer(c, lim, l, text)
      case CallTool(name) => OnTool(c, tape, l, name)
  }

  function OnReply(c: Config, lim: Limits, tape: Tape, l: Loop, reply: Reply): Turn {
    match reply
    case NoAccounting => Failed(l, Accounting, l.attempts + Count(|l.trace| > 0))
    case Unparsed => Failed(l, InvalidResponse, l.attempts)
    case InvalidCompletion(billed) => OnInvalid(c, lim, l, billed)
    case CallFailed(billed, outage) => OnCallFailed(c, l, billed, outage)
    case Answered(u, d) => OnDecision(c, lim, tape, l, u, d)
    case ProviderCrash => Done(Crashed(l.spent))
  }

  /** The threshold is positive and not yet reached. */
  predicate MaySpend(spent: int, ceiling: int) {
    0 < ceiling && spent < ceiling
  }

  /** Neither execution guard fires before the next call. */
  predicate MayStart(lim: Limits, l: Loop) {
    lim.priorCalls + l.calls < lim.maxCalls && MaySpend(l.spent, lim.ceiling)
  }

  function TakeTurn(c: Config, lim: Limits, tape: Tape, l: Loop): Turn {
    if !MayStart(lim, l) then Done(GuardStop(l.calls, l.spent))
    else OnReply(c, lim, tape, l.(calls := l.calls + 1), tape.Reply(l.calls))
  }

  /** The whole loop from one of its heads. */
  function Ask(c: Config, lim: Limits, tape: Tape, l: Loop): Ending
    decreases c.maxCalls - l.calls
  {
    if l.calls >= c.maxCalls then Failed(l, InvalidResponse, l.attempts).ending
    else
      var turn := TakeTurn(c, lim, tape, l);
      if turn.Done? then turn.ending else Ask(c, lim, tape, turn.next)
  }

  /** A question whose snapshot mount already failed makes no call at all. */
  function AskWithMount(c: Config, lim: Limits, tape: Tape, spent: int, mounted: bool): Ending {
    if mounted then Ask(c, lim, tape, Start(spent))
    else Failed(Start(spent), ToolFailure, 0).ending
  }
}
