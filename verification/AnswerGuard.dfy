// A question whose call ceiling leaves no room for all its calls: when can its
// execution guard lose a charge that is already added to the spend?

module AnswerGuard {
  import opened Wrappers
  import opened Records
  import opened AnswerText
  import opened AnswerLoop

  /** The guard fires in mid-question, after the provider charged something. */
  ghost predicate LosesCharge(c: Config, lim: Limits, tape: Tape, spent0: int, mounted: bool) {
    var e := AskWithMount(c, lim, tape, spent0, mounted);
    e.GuardStop? && e.spent > spent0
  }

  /** The calls that are left under the run's ceiling. */
  function Left(lim: Limits): int { lim.maxCalls - lim.priorCalls }

  /** The last call left comes before the question's own last call and can be a
      tool step: the only step after which the loop goes on unchecked. The calls
      before it are retries, or there may be a tool step among them as well, after
      which a terminal Unknown is asked for again at no limit of its own. */
  ghost predicate MayLose(c: Config, lim: Limits, spent0: int) {
    && 1 <= Left(lim) < c.maxCalls
    && c.toolNames != {} && c.maxTools >= 1
    && (c.maxTools >= 2 || Left(lim) - 1 <= c.retryBudget)
    && 0 < lim.ceiling && spent0 + 1 < lim.ceiling
  }

  // ---- a lost charge meets the condition ----

  /** A head of the loop: before any tool step, all calls were retries. */
  ghost predicate Head(c: Config, spent0: int, l: Loop) {
    && spent0 <= l.spent
    && |l.trace| <= c.maxTools
    && l.invalids <= c.retryBudget
    && (l.trace == [] ==> l.calls == l.invalids)
  }

  lemma NextHead(c: Config, lim: Limits, tape: Tape, spent0: int, l: Loop)
    requires Head(c, spent0, l) && TakeTurn(c, lim, tape, l).Again?
    ensures Head(c, spent0, TakeTurn(c, lim, tape, l).next)
  {
  }

  /** The guard fires right after a turn only if that turn was a tool step that
      used the last call left, with the threshold still open. */
  lemma StopFollowsTool(c: Config, lim: Limits, tape: Tape, l: Loop)
    requires MayStart(lim, l) && TakeTurn(c, lim, tape, l).Again?
    requires !MayStart(lim, TakeTurn(c, lim, tape, l).next)
    ensures
      var next := TakeTurn(c, lim, tape, l).next;
      && next.calls == l.calls + 1 == Left(lim)
      && |l.trace| < c.maxTools && c.toolNames != {}
      && 0 < lim.ceiling && next.spent < lim.ceiling
  {
  }

  lemma {:induction false} StopTells(c: Config, lim: Limits, tape: Tape, spent0: int, l: Loop)
    requires Head(c, spent0, l) && MayStart(lim, l) && Ask(c, lim, tape, l).GuardStop?
    requires Ask(c, lim, tape, l).spent > spent0
    ensures MayLose(c, lim, spent0)
    decreases c.maxCalls - l.calls
  {
    var next := TakeTurn(c, lim, tape, l).next;
    NextHead(c, lim, tape, spent0, l);
    if MayStart(lim, next) {
      StopTells(c, lim, tape, spent0, next);
    } else {
      StopFollowsTool(c, lim, tape, l);
    }
  }

  // ---- the condition lets a charge be lost ----

  lemma UnknownIsUnknown()
    ensures IsUnknown("unknown")
  {
    assert Fold("unknown") == "unknown";
  }

  function Paid(c: Config, cost: nat): Usage { Usage(c.model, 0, 0, cost) }

  /** A tool step, then one answer again and again, then a tool step on call
      number `last`. */
  function AnswerReply(c: Config, name: string, text: NonEmpty, last: nat, k: nat): Reply {
    if k == 0 then Answered(Paid(c, 1), CallTool(name))
    else if k < last then Answered(Paid(c, 0), Finish(text))
    else Answered(Paid(c, 0), CallTool(name))
  }

  /** Retries, then a tool step on call number `last`. */
  function RetryReply(c: Config, name: string, last: nat, k: nat): Reply {
    if k < last then InvalidCompletion(None) else Answered(Paid(c, 1), CallTool(name))
  }

  function Rejects(k: nat): ToolReply { Misused }

  function AnswerTape(c: Config, name: string, text: NonEmpty, last: nat): Tape {
    Tape((k: nat) => AnswerReply(c, name, text, last, k), 0, Rejects, 0)
  }

  function RetryTape(c: Config, name: string, last: nat): Tape {
    Tape((k: nat) => RetryReply(c, name, last, k), 0, Rejects, 0)
  }

  /** A rejected tool step goes on whatever is left of the ceiling. */
  lemma ToolTurnGoesOn(c: Config, lim: Limits, tape: Tape, l: Loop, name: string, cost: nat)
    requires MayStart(lim, l) && name in c.toolNames && |l.trace| < c.maxTools && l.spent + cost < lim.ceiling
    requires tape.Reply(l.calls) == Answered(Paid(c, cost), CallTool(name)) && tape.Tool(|l.trace|) == Misused
    ensures
      var turn := TakeTurn(c, lim, tape, l);
      && turn.Again?
      && turn.next.calls == l.calls + 1 && turn.next.spent == l.spent + cost
      && turn.next.trace == l.trace + [ToolCall(name, false, Json(false))]
  {
  }

  /** A terminal Unknown after tool steps that failed is asked for again. */
  lemma UnknownTurnGoesOn(c: Config, lim: Limits, tape: Tape, l: Loop, text: NonEmpty)
    requires MayStart(lim, l) && l.calls + 1 < c.maxCalls && lim.priorCalls + l.calls + 1 < lim.maxCalls
    requires tape.Reply(l.calls) == Answered(Paid(c, 0), Finish(text)) && IsUnknown(text)
    requires l.trace != [] && !HasContent(l.trace)
    ensures
      var turn := TakeTurn(c, lim, tape, l);
      && turn.Again?
      && turn.next.calls == l.calls + 1 && turn.next.spent == l.spent && turn.next.trace == l.trace
  {
    assert OnAnswer(c, lim, Bill(l.(calls := l.calls + 1), Some(Paid(c, 0))), text).Again?;
  }

  lemma {:induction false} UnknownsLose(c: Config, lim: Limits, name: string, text: NonEmpty, spent0: int, l: Loop)
    requires MayLose(c, lim, spent0) && name in c.toolNames && c.maxTools >= 2 && IsUnknown(text)
    requires 1 <= l.calls < Left(lim) && l.spent == spent0 + 1
    requires |l.trace| == 1 && !HasContent(l.trace)
    ensures Ask(c, lim, AnswerTape(c, name, text, Left(lim) - 1), l) == GuardStop(Left(lim), spent0 + 1)
    decreases c.maxCalls - l.calls
  {
    var last := Left(lim) - 1;
    var tape := AnswerTape(c, name, text, last);
    assert tape.Reply(l.calls) == AnswerReply(c, name, text, last, l.calls);
    if l.calls < last {
      UnknownTurnGoesOn(c, lim, tape, l, text);
      UnknownsLose(c, lim, name, text, spent0, TakeTurn(c, lim, tape, l).next);
    } else {
      assert tape.Tool(1) == Misused;
      ToolTurnGoesOn(c, lim, tape, l, name, 0);
    }
  }

  lemma {:induction false} RetriesLose(c: Config, lim: Limits, name: string, spent0: int, l: Loop)
    requires MayLose(c, lim, spent0) && name in c.toolNames && Left(lim) - 1 <= c.retryBudget
    requires l.calls == l.invalids < Left(lim) && l.spent == spent0 && l.trace == []
    ensures Ask(c, lim, RetryTape(c, name, Left(lim) - 1), l) == GuardStop(Left(lim), spent0 + 1)
    decreases c.maxCalls - l.calls
  {
    var last := Left(lim) - 1;
    var tape := RetryTape(c, name, last);
    var turn := TakeTurn(c, lim, tape, l);
    assert tape.Reply(l.calls) == RetryReply(c, name, last, l.calls);
    if l.calls < last {
      assert turn.Again? && turn.next.trace == [];
      RetriesLose(c, lim, name, spent0, turn.next);
    } else {
      assert tape.Tool(0) == Misused;
      ToolTurnGoesOn(c, lim, tape, l, name, 1);
    }
  }

  lemma LosingTape(c: Config, lim: Limits, spent0: int) returns (tape: Tape)
    requires MayLose(c, lim, spent0)
    ensures LosesCharge(c, lim, tape, spent0, true)
  {
    var name :| name in c.toolNames;
    var l, last := Start(spent0), Left(lim) - 1;
    if last <= c.retryBudget {
      tape := RetryTape(c, name, last);
      RetriesLose(c, lim, name, spent0, l);
    } else {
      tape := AnswerTape(c, name, "unknown", last);
      assert tape.Reply(0) == AnswerReply(c, name, "unknown", last, 0) && tape.Tool(0) == Misused;
      ToolTurnGoesOn(c, lim, tape, l, name, 1);
      UnknownIsUnknown();
      UnknownsLose(c, lim, name, "unknown", spent0, TakeTurn(c, lim, tape, l).next);
    }
  }

  /** Some provider makes the guard lose a charge if and only if the snapshot is
      mounted and the condition holds; with room for all of the question's calls
      none can. */
  lemma LosesAChargeIff(c: Config, lim: Limits, spent0: int, mounted: bool)
    ensures (exists tape :: LosesCharge(c, lim, tape, spent0, mounted)) <==> mounted && MayLose(c, lim, spent0)
    ensures lim.priorCalls + c.maxCalls <= lim.maxCalls ==> !MayLose(c, lim, spent0)
  {
    forall tape | LosesCharge(c, lim, tape, spent0, mounted) ensures mounted && MayLose(c, lim, spent0) {
      StopTells(c, lim, tape, spent0, Start(spent0));
    }
    if mounted && MayLose(c, lim, spent0) { var _ := LosingTape(c, lim, spent0); }
  }
}
