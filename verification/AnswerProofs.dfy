// What every run of the answer loop keeps, for every provider and tool behaviour.

module AnswerProofs {
  import opened Wrappers
  import opened Records
  import opened AnswerText
  import opened AnswerLoop

  // ---- what the outside world charged ----

  function ChargeOf(reply: Reply): seq<Usage> {
    match reply
    case InvalidCompletion(billed) => if billed.Some? then [billed.value] else []
    case CallFailed(billed, _) => if billed.Some? then [billed.value] else []
    case Answered(u, _) => [u]
    case _ => []
  }

  /** The usages the provider reported over its replies number `lo` up to,
      and not including, `hi`. */
  function Charges(replies: nat -> Reply, lo: nat, hi: nat): seq<Usage>
    requires lo <= hi
    decreases hi
  {
    if lo == hi then [] else Charges(replies, lo, hi - 1) + ChargeOf(replies(hi - 1))
  }

  /** The usages the provider reported in the first `n` replies of the tape. */
  function Billed(tape: Tape, n: nat): seq<Usage> {
    Charges(tape.replies, tape.r0, tape.r0 + n)
  }

  /** What the provider charged over the same replies, as an amount. */
  function Spend(replies: nat -> Reply, lo: nat, hi: nat): nat
    requires lo <= hi
    decreases hi
  {
    if lo == hi then 0 else Spend(replies, lo, hi - 1) + CostOfReply(replies(hi - 1))
  }

  function CostOfReply(reply: Reply): nat {
    match reply
    case InvalidCompletion(billed) => UsageCost(billed)
    case CallFailed(billed, _) => UsageCost(billed)
    case Answered(u, _) => u.cost
    case _ => 0
  }

  lemma ReplyCostIsChargeCost(reply: Reply)
    ensures Cost(ChargeOf(reply)) == CostOfReply(reply)
  {
    if ChargeOf(reply) != [] { CostOfOne(ChargeOf(reply)[0]); }
  }

  lemma {:induction false} SpendIsCost(replies: nat -> Reply, lo: nat, hi: nat)
    requires lo <= hi
    ensures Spend(replies, lo, hi) == Cost(Charges(replies, lo, hi))
    decreases hi
  {
    if lo < hi {
      SpendIsCost(replies, lo, hi - 1);
      CostOfConcat(Charges(replies, lo, hi - 1), ChargeOf(replies(hi - 1)));
      ReplyCostIsChargeCost(replies(hi - 1));
    }
  }

  lemma {:induction false} SpendAdds(replies: nat -> Reply, a: nat, b: nat, c: nat)
    requires a <= b <= c
    ensures Spend(replies, a, c) == Spend(replies, a, b) + Spend(replies, b, c)
    decreases c
  {
    if b < c { SpendAdds(replies, a, b, c - 1); }
  }

  lemma {:induction false} CostOfConcat(s: seq<Usage>, t: seq<Usage>)
    ensures Cost(s + t) == Cost(s) + Cost(t)
  {
    if s == [] {
      assert s + t == t;
    } else {
      assert (s + t)[1..] == s[1..] + t;
      CostOfConcat(s[1..], t);
    }
  }

  lemma CostOfOne(u: Usage)
    ensures Cost([u]) == u.cost
  {
    assert [u][1..] == [];
  }

  // ---- claims ----

  ghost predicate Ranked(claims: seq<Claim>) {
    forall k :: 0 <= k < |claims| ==> claims[k].rank == k + 1
  }

  ghost predicate DistinctClaims(claims: seq<Claim>) {
    forall i, j :: 0 <= i < j < |claims| ==> claims[i].claimId != claims[j].claimId
  }

  ghost function ClaimIds(claims: seq<Claim>): set<int> {
    set c | c in claims :: c.claimId
  }

  ghost function EvidenceIds(evidence: seq<Evidence>): set<int> {
    set e | e in evidence :: e.claimId
  }

  lemma {:induction false} CollectRanks(
      evidence: seq<Evidence>, sessions: map<int, string>, seen: set<int>, claims: seq<Claim>)
    requires Ranked(claims) && DistinctClaims(claims) && ClaimIds(claims) == seen
    ensures
      var result := Collect(evidence, sessions, seen, claims);
      && Ranked(result)
      && DistinctClaims(result)
      && ClaimIds(result) == seen + EvidenceIds(evidence)
    decreases |evidence|
  {
    if evidence != [] {
      var e := evidence[0];
      if e.claimId in seen {
        CollectRanks(evidence[1..], sessions, seen, claims);
      } else {
        var c := Claim(|claims| + 1, e.claimId, e.docId, e.text, SessionOf(sessions, e.docId));
        forall i | 0 <= i < |claims| ensures claims[i].claimId != c.claimId {
          assert claims[i] in claims;
        }
        CollectRanks(evidence[1..], sessions, seen + {e.claimId}, claims + [c]);
      }
    }
  }

  /** The claims of any trace are ranked exactly 1..n, name each evidence claim
      once, and leave none out. */
  lemma ClaimsAreRankedOnce(trace: seq<ToolCall>, sessions: map<int, string>)
    ensures Ranked(ClaimsOf(trace, sessions))
    ensures DistinctClaims(ClaimsOf(trace, sessions))
    ensures ClaimIds(ClaimsOf(trace, sessions)) == EvidenceIds(TraceEvidence(trace))
  {
    CollectRanks(TraceEvidence(trace), sessions, {}, []);
  }

  lemma {:induction false} CollectInParts(
      a: seq<Evidence>, b: seq<Evidence>, sessions: map<int, string>, seen: set<int>, claims: seq<Claim>)
    ensures Collect(a + b, sessions, seen, claims)
         == Collect(b, sessions, seen + EvidenceIds(a), Collect(a, sessions, seen, claims))
    decreases |a|
  {
    if a == [] {
      assert a + b == b && seen + EvidenceIds(a) == seen;
    } else {
      var e := a[0];
      assert (a + b)[1..] == a[1..] + b;
      if e.claimId in seen {
        CollectInParts(a[1..], b, sessions, seen, claims);
        assert seen + EvidenceIds(a) == seen + EvidenceIds(a[1..]);
      } else {
        CollectInParts(a[1..], b, sessions, seen + {e.claimId},
                       claims + [Claim(|claims| + 1, e.claimId, e.docId, e.text, SessionOf(sessions, e.docId))]);
        assert seen + EvidenceIds(a) == seen + {e.claimId} + EvidenceIds(a[1..]);
      }
    }
  }

  // ---- the loop invariant ----

  /** The outside world's side of the books after some calls of one question:
      what was charged in all, and by the last call alone. */
  datatype Ledger = Ledger(calls: nat, usages: seq<Usage>, spent: int, last: int)

  function LedgerAt(tape: Tape, spent0: int, n: nat): Ledger {
    Ledger(n, Billed(tape, n), spent0 + Cost(Billed(tape, n)), if n == 0 then 0 else Cost(ChargeOf(tape.Reply(n - 1))))
  }

  /** The loop's books equal the ledger, spend overshoots the threshold by less
      than the last call's cost, and the per-question limits hold. */
  ghost predicate Charged(c: Config, lim: Limits, g: Ledger, l: Loop) {
    && l.calls == g.calls <= c.maxCalls
    && l.usages == g.usages
    && l.spent == g.spent
    && (|l.usages| > 0 ==> l.calls > 0)
    && (l.calls > 0 ==> 0 < lim.ceiling && l.spent < lim.ceiling + g.last)
    && l.firstRetries <= c.retryBudget
    && |l.trace| <= c.maxTools
  }

  /** What holds at every head of the loop that is reached. Each provider call
      made so far has become exactly one of: a traced tool call, a reader
      attempt, or a retried first step. */
  ghost predicate Sound(c: Config, lim: Limits, g: Ledger, l: Loop) {
    && Charged(c, lim, g, l)
    && l.calls == |l.trace| + l.attempts + l.firstRetries
    && l.guardRetries <= l.attempts
    && l.firstRetries <= l.invalids <= c.retryBudget
    && (l.calls > 0 ==> l.spent < lim.ceiling)
  }

  /** The state right after a call was counted and billed. */
  ghost predicate Pending(c: Config, lim: Limits, g: Ledger, l: Loop) {
    && Charged(c, lim, g, l)
    && l.calls == |l.trace| + l.attempts + l.firstRetries + 1
    && l.guardRetries <= l.attempts
    && l.firstRetries <= l.invalids <= c.retryBudget
  }

  /** A terminal draft: the books agree with the ledger, and each call is a
      tool call, a reader attempt or a first-step retry, up to one last failed
      call. */
  ghost predicate GoodDraft(c: Config, lim: Limits, g: Ledger, d: Draft) {
    && Charged(c, lim, g, d.loop)
    && d.loop.guardRetries <= d.attempts
    && |d.loop.trace| + d.attempts + d.loop.firstRetries <= d.loop.calls
    && d.loop.calls <= |d.loop.trace| + d.attempts + d.loop.firstRetries + 1
    && d.answer.None? != d.failure.None?
    && (d.answer.Some? ==>
          && d.answer.value != ""
          && d.loop.calls == |d.loop.trace| + d.attempts + d.loop.firstRetries
          && |d.loop.trace| > 0
          && d.attempts >= 1
          && d.loop.spent <= lim.ceiling)
  }

  ghost predicate GoodTurn(c: Config, lim: Limits, g: Ledger, t: Turn) {
    match t
    case Again(l) => Sound(c, lim, g, l)
    case Done(Settled(d)) => GoodDraft(c, lim, g, d)
    case Done(Outage(usages, calls, spent)) =>
      calls == g.calls && usages == g.usages && spent == g.spent < lim.ceiling + g.last
    case Done(GuardStop(_, _)) => false
    case Done(Crashed(_)) => true
  }

  /** The turns that keep the books; as a set, a turn's goodness is one fact. */
  ghost function GoodTurns(c: Config, lim: Limits, g: Ledger): iset<Turn> {
    iset t | GoodTurn(c, lim, g, t)
  }

  // ---- one turn keeps the invariant ----

  lemma InvalidTurn(c: Config, lim: Limits, g: Ledger, before: Loop, billed: Option<Usage>)
    requires Pending(c, lim, g, Bill(before, billed))
    ensures GoodTurn(c, lim, g, OnInvalid(c, lim, before, billed))
  {
  }

  lemma CallFailedTurn(c: Config, lim: Limits, g: Ledger, before: Loop, billed: Option<Usage>, outage: bool)
    requires Pending(c, lim, g, Bill(before, billed))
    ensures GoodTurn(c, lim, g, OnCallFailed(c, before, billed, outage))
  {
  }

  lemma FinishedTurn(c: Config, lim: Limits, g: Ledger, l: Loop, text: NonEmpty, attempts: nat)
    requires Charged(c, lim, g, l) && l.spent <= lim.ceiling && |l.trace| > 0
    requires l.guardRetries <= l.attempts <= attempts && attempts >= 1
    requires l.calls == |l.trace| + attempts + l.firstRetries
    // After a guarded Unknown the attempt is already counted; the word-cap exit
    // would count it twice, but an Unknown is a single word.
    requires attempts == l.attempts + 1 || (attempts == l.attempts && c.Valid() && WordCount(text) <= 1)
    ensures GoodTurn(c, lim, g, Finished(c, l, text, attempts))
  {
  }

  lemma ReadAnswerTurn(
      c: Config, lim: Limits, g: Ledger, l: Loop, text: NonEmpty, unknown: bool, content: bool)
    requires c.Valid() && Pending(c, lim, g, l) && l.spent <= lim.ceiling && |l.trace| > 0
    requires unknown ==> WordCount(text) <= 1
    ensures GoodTurn(c, lim, g, OnReadAnswer(c, lim, l, text, unknown, content))
  {
    if (c.requireContent || unknown) && !content {
      var guarded := l.(attempts := l.attempts + 1, guardRetries := l.guardRetries + Count(unknown));
      if !MayCallAgain(c, lim, guarded) && !c.requireContent {
        FinishedTurn(c, lim, g, guarded, text, guarded.attempts);
      }
    } else {
      FinishedTurn(c, lim, g, l, text, l.attempts + 1);
    }
  }

  lemma AnswerTurn(c: Config, lim: Limits, g: Ledger, l: Loop, text: NonEmpty)
    requires c.Valid() && Pending(c, lim, g, l) && l.spent <= lim.ceiling
    ensures GoodTurn(c, lim, g, OnAnswer(c, lim, l, text))
  {
    if |l.trace| > 0 {
      if IsUnknown(text) { UnknownIsOneWord(text); }
      ReadAnswerTurn(c, lim, g, l, text, IsUnknown(text), HasContent(l.trace));
    }
  }

  lemma ToolTurn(c: Config, lim: Limits, tape: Tape, g: Ledger, l: Loop, name: string)
    requires Pending(c, lim, g, l) && l.spent < lim.ceiling && g.last >= 0
    ensures GoodTurn(c, lim, g, OnTool(c, tape, l, name))
  {
  }

  lemma DecisionTurn(c: Config, lim: Limits, tape: Tape, g: Ledger, before: Loop, u: Usage, d: Decision)
    requires c.Valid() && Pending(c, lim, g, Bill(before, Some(u))) && g.last >= 0
    ensures GoodTurn(c, lim, g, OnDecision(c, lim, tape, before, u, d))
  {
    var l := Bill(before, Some(u));
    if u.model == c.model && !(l.spent > lim.ceiling || (l.spent == lim.ceiling && d.CallTool?)) {
      match d
      case Finish(text) => AnswerTurn(c, lim, g, l, text);
      case CallTool(name) => ToolTurn(c, lim, tape, g, l, name);
    }
  }

  /** The loop state with a reply's charge booked. */
  function Settle(l: Loop, reply: Reply): Loop {
    match reply
    case InvalidCompletion(billed) => Bill(l, billed)
    case CallFailed(billed, _) => Bill(l, billed)
    case Answered(u, _) => Bill(l, Some(u))
    case _ => l
  }

  lemma ReplyTurn(c: Config, lim: Limits, tape: Tape, g: Ledger, l: Loop, reply: Reply)
    requires c.Valid() && g.last >= 0
    requires Pending(c, lim, g, Settle(l, reply))
    ensures OnReply(c, lim, tape, l, reply) in GoodTurns(c, lim, g)
  {
    match reply
    case InvalidCompletion(billed) => InvalidTurn(c, lim, g, l, billed);
    case CallFailed(billed, outage) => CallFailedTurn(c, lim, g, l, billed, outage);
    case Answered(u, d) => DecisionTurn(c, lim, tape, g, l, u, d);
    case _ =>
  }

  lemma SettleCharges(c: Config, lim: Limits, tape: Tape, spent0: int, l: Loop)
    requires Sound(c, lim, LedgerAt(tape, spent0, l.calls), l)
    requires l.calls < c.maxCalls && MaySpend(l.spent, lim.ceiling)
    ensures Pending(c, lim, LedgerAt(tape, spent0, l.calls + 1), Settle(l.(calls := l.calls + 1), tape.Reply(l.calls)))
    ensures LedgerAt(tape, spent0, l.calls + 1).last >= 0
  {
    var charge := ChargeOf(tape.Reply(l.calls));
    assert Billed(tape, l.calls + 1) == Billed(tape, l.calls) + charge;
    CostOfConcat(l.usages, charge);
    if charge != [] { CostOfOne(charge[0]); }
  }

  lemma OpenTurn(c: Config, lim: Limits, tape: Tape, g: Ledger, l: Loop)
    requires c.Valid() && g.last >= 0 && MayStart(lim, l)
    requires Pending(c, lim, g, Settle(l.(calls := l.calls + 1), tape.Reply(l.calls)))
    ensures TakeTurn(c, lim, tape, l) in GoodTurns(c, lim, g)
  {
    ReplyTurn(c, lim, tape, g, l.(calls := l.calls + 1), tape.Reply(l.calls));
  }

  // ---- whole questions ----

  /** What every ending guarantees against the outside world's charges. */
  ghost predicate GoodEnding(c: Config, lim: Limits, tape: Tape, spent0: int, e: Ending) {
    match e
    case Settled(d) => GoodDraft(c, lim, LedgerAt(tape, spent0, d.loop.calls), d)
    case Outage(usages, calls, spent) =>
      var g := LedgerAt(tape, spent0, calls);
      1 <= calls <= c.maxCalls && usages == g.usages && spent == g.spent < lim.ceiling + g.last
    case GuardStop(calls, spent) =>
      && calls < c.maxCalls
      && spent == LedgerAt(tape, spent0, calls).spent
      && (calls == 0 ==> lim.priorCalls >= lim.maxCalls || !MaySpend(spent, lim.ceiling))
      && (calls > 0 ==> lim.priorCalls + calls >= lim.maxCalls)
    case Crashed(_) => true
  }

  lemma LastTurnEndsWell(c: Config, lim: Limits, tape: Tape, spent0: int, calls: nat, e: Ending)
    requires 1 <= calls <= c.maxCalls
    requires Done(e) in GoodTurns(c, lim, LedgerAt(tape, spent0, calls))
    ensures GoodEnding(c, lim, tape, spent0, e)
  {
  }

  lemma {:induction false} LoopEndsWell(c: Config, lim: Limits, tape: Tape, spent0: int, l: Loop)
    requires c.Valid() && Sound(c, lim, LedgerAt(tape, spent0, l.calls), l)
    ensures GoodEnding(c, lim, tape, spent0, Ask(c, lim, tape, l))
    decreases c.maxCalls - l.calls
  {
    if l.calls < c.maxCalls && MayStart(lim, l) {
      SettleCharges(c, lim, tape, spent0, l);
      OpenTurn(c, lim, tape, LedgerAt(tape, spent0, l.calls + 1), l);
      var turn := TakeTurn(c, lim, tape, l);
      if turn.Done? {
        LastTurnEndsWell(c, lim, tape, spent0, l.calls + 1, turn.ending);
      } else {
        LoopEndsWell(c, lim, tape, spent0, turn.next);
      }
    }
  }

  lemma StartIsSound(c: Config, lim: Limits, tape: Tape, spent0: int)
    ensures Sound(c, lim, LedgerAt(tape, spent0, 0), Start(spent0))
  {
    assert Billed(tape, 0) == [];
  }

  /** For every sequence of provider and tool outcomes, a question ends with
      books that equal what was charged to it. */
  lemma EveryQuestionEndsWell(c: Config, lim: Limits, tape: Tape, spent0: int, mounted: bool)
    requires c.Valid()
    ensures GoodEnding(c, lim, tape, spent0, AskWithMount(c, lim, tape, spent0, mounted))
  {
    StartIsSound(c, lim, tape, spent0);
    if mounted { LoopEndsWell(c, lim, tape, spent0, Start(spent0)); }
  }

  lemma {:induction false} OpenStartNeverStops(c: Config, lim: Limits, tape: Tape, spent0: int, l: Loop)
    requires c.Valid() && lim.priorCalls + c.maxCalls <= lim.maxCalls
    requires Sound(c, lim, LedgerAt(tape, spent0, l.calls), l) && MaySpend(l.spent, lim.ceiling)
    ensures !Ask(c, lim, tape, l).GuardStop?
    decreases c.maxCalls - l.calls
  {
    if l.calls < c.maxCalls {
      SettleCharges(c, lim, tape, spent0, l);
      OpenTurn(c, lim, tape, LedgerAt(tape, spent0, l.calls + 1), l);
      var turn := TakeTurn(c, lim, tape, l);
      if turn.Again? { OpenStartNeverStops(c, lim, tape, spent0, turn.next); }
    }
  }

  /** With room for a whole question under the call ceiling, a guard can only
      fire before the first call, and does so exactly when the threshold is
      already reached. */
  lemma GuardOnlyBeforeFirstCall(c: Config, lim: Limits, tape: Tape, spent0: int, mounted: bool)
    requires c.Valid() && lim.priorCalls + c.maxCalls <= lim.maxCalls
    ensures
      var e := AskWithMount(c, lim, tape, spent0, mounted);
      && (e.GuardStop? <==> mounted && c.maxCalls > 0 && !MaySpend(spent0, lim.ceiling))
      && (e.GuardStop? ==> e.calls == 0 && e.spent == spent0)
  {
    StartIsSound(c, lim, tape, spent0);
    if mounted && MaySpend(spent0, lim.ceiling) {
      OpenStartNeverStops(c, lim, tape, spent0, Start(spent0));
    }
  }

  // ---- questions without a hitch ----

  /** A reply that stops the run: an outage, or an exception nobody handles. */
  predicate Hitch(reply: Reply) {
    reply.ProviderCrash? || (reply.CallFailed? && reply.outage)
  }

  predicate ToolHitch(result: ToolReply) {
    result.Unavailable? || result.ToolCrash?
  }

  /** Neither the provider nor the read surface ever stops the run. */
  ghost predicate Smooth(replies: nat -> Reply, results: nat -> ToolReply) {
    (forall k :: !Hitch(replies(k))) && (forall k :: !ToolHitch(results(k)))
  }

  /** The last of these calls, or the last of these tool steps, is a hitch. */
  predicate EndsInHitch(replies: nat -> Reply, lo: nat, hi: nat, results: nat -> ToolReply, first: nat, last: nat) {
    hi > lo && (Hitch(replies(hi - 1)) || (last > first && ToolHitch(results(last - 1))))
  }

  lemma HitchWithin(
      replies: nat -> Reply, lo: nat, mid: nat, hi: nat, results: nat -> ToolReply, first: nat, next: nat, last: nat)
    requires lo <= mid && first <= next
    ensures EndsInHitch(replies, mid, hi, results, next, last) ==> EndsInHitch(replies, lo, hi, results, first, last)
  {
  }

  predicate Stops(e: Ending) {
    e.Outage? || e.Crashed?
  }

  lemma SmoothTurn(c: Config, lim: Limits, tape: Tape, l: Loop)
    requires Smooth(tape.replies, tape.tools)
    ensures TakeTurn(c, lim, tape, l).Done? ==> !Stops(TakeTurn(c, lim, tape, l).ending)
  {
    assert !Hitch(tape.replies(tape.r0 + l.calls));
    assert !ToolHitch(tape.tools(tape.t0 + |l.trace|));
  }

  /** Without a hitch a question ends in a record, or at a guard. */
  lemma {:induction false} SmoothNeverStops(c: Config, lim: Limits, tape: Tape, l: Loop)
    requires Smooth(tape.replies, tape.tools)
    ensures !Stops(Ask(c, lim, tape, l))
    decreases c.maxCalls - l.calls
  {
    if l.calls < c.maxCalls {
      SmoothTurn(c, lim, tape, l);
      var turn := TakeTurn(c, lim, tape, l);
      if turn.Again? { SmoothNeverStops(c, lim, tape, turn.next); }
    }
  }

  // ---- the terminal record ----

  ghost predicate NamesQuestion(r: AnswerRecord, q: Question) {
    && r.itemId == q.itemId
    && r.sampleId == q.sampleId
    && r.question == q.question
    && r.gold == Gold(q)
    && r.goldEvidence == q.evidence
    && r.category == q.category
  }

  /** Calls that a record explains: tool calls, reader attempts, first-step retries. */
  function Explained(r: AnswerRecord): nat {
    |r.toolCalls| + r.readerAttempts + r.firstStepRetries
  }

  /** What a terminal record promises by itself, whatever the providers did. */
  ghost predicate WellKept(c: Config, q: Question, r: AnswerRecord) {
    && AnswerValid(r)
    && NamesQuestion(r, q)
    && Ranked(r.claims)
    && r.agentCalls <= c.maxCalls
    && |r.toolCalls| <= c.maxTools
    && r.firstStepRetries <= c.retryBudget
    && r.unknownGuardRetries <= r.readerAttempts
    && Explained(r) <= r.agentCalls <= Explained(r) + 1
    && (r.answer.Some? ==> r.agentCalls == Explained(r) && r.toolCalls != [])
  }

  /** A settled question's record passes every validator, names its question,
      derives its evidence from its own trace, keeps within the per-question
      limits, and carries exactly what the provider charged for its calls. */
  lemma RecordIsWellKept(c: Config, lim: Limits, g: Ledger, d: Draft, q: Question)
    requires GoodDraft(c, lim, g, d)
    ensures
      var r := RecordOf(q, c, d);
      && WellKept(c, q, r)
      && r.agentCalls == g.calls
      && r.usage == RecordUsage(g.usages)
      && d.loop.spent == g.spent
  {
    ClaimsAreRankedOnce(d.loop.trace, c.sessions);
  }

  lemma EveryRecordIsWellKept(c: Config, lim: Limits, tape: Tape, spent0: int, mounted: bool, q: Question)
    requires c.Valid() && AskWithMount(c, lim, tape, spent0, mounted).Settled?
    ensures
      var d := AskWithMount(c, lim, tape, spent0, mounted).draft;
      var r := RecordOf(q, c, d);
      && WellKept(c, q, r)
      && r.usage == RecordUsage(Billed(tape, r.agentCalls))
      && d.loop.spent == spent0 + Cost(Billed(tape, r.agentCalls))
  {
    EveryQuestionEndsWell(c, lim, tape, spent0, mounted);
    var d := AskWithMount(c, lim, tape, spent0, mounted).draft;
    RecordIsWellKept(c, lim, LedgerAt(tape, spent0, d.loop.calls), d, q);
  }
}
