// Best-effort tracing: what a tracing client may and may not do to the question
// it observes. Every call of the client may raise. An ordinary exception is
// swallowed on the spot; only an interrupt (a base exception outside the
// ordinary ones, such as a keyboard interrupt) passes the handlers.

module Tracing {
  import opened Wrappers

  datatype Exn = Ordinary(id: nat) | Interrupt(id: nat)

  /** How the protocol's own body, or the question around it, ends. */
  datatype Outcome = Returned | Raised(exn: Exn)

  /** What gets past `except Exception`. */
  function Escaping(raised: Option<Exn>): Option<Exn> {
    if raised.Some? && raised.value.Interrupt? then raised else None
  }

  /** An exception raised in a `finally` block replaces the one on its way. */
  function Replacing(earlier: Option<Exn>, later: Option<Exn>): Option<Exn> {
    if later.Some? then later else earlier
  }

  /** A block that ended one way, after something escaped behind it. */
  function Overtaken(outcome: Outcome, escaped: Option<Exn>): Outcome {
    if escaped.Some? then Raised(escaped.value) else outcome
  }

  /** The last interrupt among the calls number `lo` up to, and not including, `hi`. */
  function LastInterrupt(raises: nat -> Option<Exn>, lo: nat, hi: nat): Option<Exn>
    requires lo <= hi
    decreases hi
  {
    if lo == hi then None else Replacing(LastInterrupt(raises, lo, hi - 1), Escaping(raises(hi - 1)))
  }

  lemma {:induction false} LastOfBoth(raises: nat -> Option<Exn>, a: nat, b: nat, c: nat)
    requires a <= b <= c
    ensures LastInterrupt(raises, a, c) == Replacing(LastInterrupt(raises, a, b), LastInterrupt(raises, b, c))
    decreases c
  {
    if b < c { LastOfBoth(raises, a, b, c - 1); }
  }

  /** Call number `k` raises an interrupt. */
  predicate Interrupted(raises: nat -> Option<Exn>, k: nat) {
    raises(k).Some? && raises(k).value.Interrupt?
  }

  /** No call among them is interrupted. */
  ghost predicate Undisturbed(raises: nat -> Option<Exn>, lo: nat, hi: nat) {
    forall k :: lo <= k < hi ==> !Interrupted(raises, k)
  }

  /** Without an interrupt among these calls something ends as its body does, and
      with one it ends in the exception of the last. */
  ghost predicate EndsAs(raises: nat -> Option<Exn>, lo: nat, hi: nat, body: Outcome, outcome: Outcome) {
    && (Undisturbed(raises, lo, hi) ==> outcome == body)
    && forall k :: lo <= k < hi && Interrupted(raises, k) && Undisturbed(raises, k + 1, hi) ==>
         outcome == Raised(raises(k).value)
  }

  ghost function Endings(raises: nat -> Option<Exn>, lo: nat, hi: nat, body: Outcome): iset<Outcome> {
    iset outcome | EndsAs(raises, lo, hi, body, outcome)
  }

  /** The last interrupt, and nothing else, takes the place of an outcome. */
  lemma {:induction false} OvertakenEndsAs(raises: nat -> Option<Exn>, lo: nat, hi: nat, body: Outcome)
    requires lo <= hi
    ensures Overtaken(body, LastInterrupt(raises, lo, hi)) in Endings(raises, lo, hi, body)
    ensures LastInterrupt(raises, lo, hi) == None <==> Undisturbed(raises, lo, hi)
    decreases hi
  {
    if lo < hi {
      OvertakenEndsAs(raises, lo, hi - 1, body);
      assert Interrupted(raises, hi - 1) <==> Escaping(raises(hi - 1)).Some?;
    }
  }

  /** The tracing client: its n-th call raises `raises(n)`, if anything. It
      counts the ends it is asked for, and the exits of question roots. */
  class Client {
    const raises: nat -> Option<Exn>
    const suppresses: bool          // whether leaving a root returns a truthy result
    var calls: nat
    var ends: seq<nat>              // for every observation, the ends asked for
    var rootsEntered: nat
    var rootsExited: nat

    constructor (raises: nat -> Option<Exn>, suppresses: bool)
      ensures this.raises == raises && this.suppresses == suppresses
      ensures calls == 0 && ends == [] && rootsEntered == 0 && rootsExited == 0
    {
      this.raises, this.suppresses := raises, suppresses;
      calls, ends := 0, [];
      rootsEntered, rootsExited := 0, 0;
    }

    /** What one more call raises. */
    method Call() returns (raised: Option<Exn>)
      modifies this`calls
      ensures raised == raises(old(calls)) && calls == old(calls) + 1
    {
      raised := raises(calls);
      calls := calls + 1;
    }

    method Start() returns (raised: Option<Exn>, id: nat)
      modifies this`calls, this`ends
      ensures raised == raises(old(calls)) && calls == old(calls) + 1
      ensures id == |old(ends)| && ends == old(ends) + if raised.None? then [0] else []
    {
      raised := Call();
      id := |ends|;
      if raised.None? { ends := ends + [0]; }
    }

    /** Asks for an end; the request counts even if it raises. */
    method End(id: nat) returns (raised: Option<Exn>)
      requires id < |ends|
      modifies this`calls, this`ends
      ensures raised == raises(old(calls)) && calls == old(calls) + 1
      ensures ends == old(ends)[id := old(ends)[id] + 1]
    {
      ends := ends[id := ends[id] + 1];
      raised := Call();
    }

    method EnterRoot() returns (raised: Option<Exn>)
      modifies this`calls, this`rootsEntered
      ensures raised == raises(old(calls)) && calls == old(calls) + 1
      ensures rootsEntered == old(rootsEntered) + (if raised.None? then 1 else 0)
    {
      raised := Call();
      if raised.None? { rootsEntered := rootsEntered + 1; }
    }

    /** Leaves the root with the outcome so far, and says whether to suppress it. */
    method ExitRoot(outcome: Outcome) returns (raised: Option<Exn>, suppress: bool)
      modifies this`calls, this`rootsExited
      ensures raised == raises(old(calls)) && calls == old(calls) + 1
      ensures rootsExited == old(rootsExited) + 1
    {
      rootsExited := rootsExited + 1;
      raised := Call();
      suppress := suppresses && outcome.Raised?;
    }
  }

  /** One started observation: a model call or a tool call. */
  class Call {
    const client: Client
    const id: nat
    var ended: bool

    constructor (client: Client, id: nat)
      ensures this.client == client && this.id == id && !ended
    {
      this.client, this.id := client, id;
      ended := false;
    }

    ghost predicate Valid()
      reads this, client
    {
      id < |client.ends| && client.ends[id] == (if ended then 1 else 0)
    }

    /** Ends the observation unless that has been asked for before. */
    method End() returns (escaped: Option<Exn>)
      requires Valid()
      modifies this`ended, client`calls, client`ends
      ensures Valid() && ended && client.calls >= old(client.calls)
      ensures client.ends == old(client.ends)[id := 1]
      ensures escaped == LastInterrupt(client.raises, old(client.calls), client.calls)
    {
      if ended {
        assert client.ends == client.ends[id := 1];
        return None;
      }
      ended := true;
      var raised := client.End(id);
      escaped := Escaping(raised);
    }

    /** Updates the observation and ends it, even if the update raises. */
    method Finish() returns (escaped: Option<Exn>)
      requires Valid()
      modifies this`ended, client`calls, client`ends
      ensures Valid() && ended && client.calls >= old(client.calls)
      ensures client.ends == old(client.ends)[id := 1]
      ensures escaped == LastInterrupt(client.raises, old(client.calls), client.calls)
    {
      if ended {
        assert client.ends == client.ends[id := 1];
        return None;
      }
      var raised := client.Call();
      var later := End();
      LastOfBoth(client.raises, old(client.calls), old(client.calls) + 1, client.calls);
      escaped := Replacing(Escaping(raised), later);
    }
  }

  /** What the protocol does while a question's root is open. `Finish` and `End`
      name the n-th observation started. */
  datatype Step = Start | Finish(n: nat) | End(n: nat) | UpdateRoot

  /** Child observations of one question root. */
  class QuestionTrace {
    const client: Client
    const first: nat
    var started: seq<Call>

    constructor (client: Client)
      ensures Valid() && this.client == client && first == |client.ends| && started == []
    {
      this.client := client;
      first := |client.ends|;
      started := [];
    }

    /** The started calls are the client's observations from `first` on, and each
        has been asked to end as often as its flag says: once or never. */
    ghost predicate Valid()
      reads this, client, started
    {
      && |client.ends| == first + |started|
      && forall k :: 0 <= k < |started| ==>
           started[k].client == client && started[k].id == first + k && started[k].Valid()
    }

    ghost predicate Closed()
      reads this, client, started
    {
      forall k :: 0 <= k < |started| ==> started[k].ended
    }

    method StartCall() returns (escaped: Option<Exn>, call: Option<Call>)
      requires Valid()
      modifies this`started, client`calls, client`ends
      ensures Valid() && client.calls == old(client.calls) + 1
      ensures escaped == LastInterrupt(client.raises, old(client.calls), client.calls)
      ensures call.Some? <==> client.raises(old(client.calls)) == None
      ensures call.Some? ==> fresh(call.value) && started == old(started) + [call.value]
      ensures call.None? ==> started == old(started)
    {
      var raised, id := client.Start();
      if raised.Some? {
        return Escaping(raised), None;
      }
      var c := new Call(client, id);
      started := started + [c];
      escaped, call := None, Some(c);
    }

    method FinishCall(n: nat) returns (escaped: Option<Exn>)
      requires Valid() && n < |started|
      modifies started[n], client`calls, client`ends
      ensures Valid() && started[n].ended && client.calls >= old(client.calls)
      ensures escaped == LastInterrupt(client.raises, old(client.calls), client.calls)
      ensures forall k :: 0 <= k < |started| && k != n ==> started[k].ended == old(started[k].ended)
    {
      DistinctCalls();
      escaped := started[n].Finish();
    }

    method EndCall(n: nat) returns (escaped: Option<Exn>)
      requires Valid() && n < |started|
      modifies started[n], client`calls, client`ends
      ensures Valid() && started[n].ended && client.calls >= old(client.calls)
      ensures escaped == LastInterrupt(client.raises, old(client.calls), client.calls)
      ensures forall k :: 0 <= k < |started| && k != n ==> started[k].ended == old(started[k].ended)
    {
      DistinctCalls();
      escaped := started[n].End();
    }

    lemma DistinctCalls()
      requires Valid()
      ensures forall j, k :: 0 <= j < k < |started| ==> started[j] != started[k]
    {
      forall j, k | 0 <= j < k < |started| ensures started[j] != started[k] {
        assert started[j].id == first + j && started[k].id == first + k;
      }
    }

    /** Ends every child observation, the last started first; only an interrupt
        leaves some of them open. */
    method EndStarted() returns (escaped: Option<Exn>)
      requires Valid()
      modifies started, client`calls, client`ends
      ensures Valid() && started == old(started) && client.calls >= old(client.calls)
      ensures escaped == LastInterrupt(client.raises, old(client.calls), client.calls)
      ensures escaped == None ==> Closed()
    {
      var k := |started|;
      escaped := None;
      while k > 0
        invariant 0 <= k <= |started| && Valid() && started == old(started) && client.calls >= old(client.calls)
        invariant forall j :: k <= j < |started| ==> started[j].ended
        invariant escaped == None == LastInterrupt(client.raises, old(client.calls), client.calls)
      {
        k := k - 1;
        ghost var before := client.calls;
        escaped := EndCall(k);
        LastOfBoth(client.raises, old(client.calls), before, client.calls);
        if escaped.Some? {
          return;
        }
      }
    }

    /** One of the body's tracing calls. */
    method Step(step: Step) returns (escaped: Option<Exn>)
      requires Valid()
      modifies this`started, started, client`calls, client`ends
      ensures Valid() && client.calls >= old(client.calls)
      ensures escaped == LastInterrupt(client.raises, old(client.calls), client.calls)
      ensures forall k :: 0 <= k < |started| ==> started[k] in old(started) || fresh(started[k])
    {
      escaped := None;
      match step {
        case Start =>
          var call;
          escaped, call := StartCall();
        case Finish(n) =>
          if n < |started| { escaped := FinishCall(n); }
        case End(n) =>
          if n < |started| { escaped := EndCall(n); }
        case UpdateRoot =>
          var raised := client.Call();
          escaped := Escaping(raised);
      }
    }

    /** Runs the body with its tracing calls, in the order it makes them. What
        escapes from one of them ends the body there. */
    method Run(steps: seq<Step>, body: Outcome) returns (outcome: Outcome)
      requires Valid()
      modifies this`started, started, client`calls, client`ends
      ensures Valid() && client.calls >= old(client.calls)
      ensures outcome == Overtaken(body, LastInterrupt(client.raises, old(client.calls), client.calls))
      ensures forall k :: 0 <= k < |started| ==> started[k] in old(started) || fresh(started[k])
    {
      for i := 0 to |steps|
        invariant Valid() && client.calls >= old(client.calls)
        invariant LastInterrupt(client.raises, old(client.calls), client.calls) == None
        invariant forall k :: 0 <= k < |started| ==> started[k] in old(started) || fresh(started[k])
      {
        ghost var before := client.calls;
        var escaped := Step(steps[i]);
        LastOfBoth(client.raises, old(client.calls), before, client.calls);
        if escaped.Some? {
          return Raised(escaped.value);
        }
      }
      outcome := body;
    }
  }

  /** Every observation from `first` on was asked to end exactly once. */
  ghost predicate EndedOnce(client: Client, first: nat)
    reads client
  {
    forall id :: first <= id < |client.ends| ==> client.ends[id] == 1
  }

  /** No observation from `first` on was asked to end twice. */
  ghost predicate NeverEndedTwice(client: Client, first: nat)
    reads client
  {
    forall id :: first <= id < |client.ends| ==> client.ends[id] <= 1
  }

  lemma EndsOf(t: QuestionTrace)
    requires t.Valid()
    ensures NeverEndedTwice(t.client, t.first)
    ensures t.Closed() ==> EndedOnce(t.client, t.first)
  {
    forall id | t.first <= id < |t.client.ends|
      ensures t.client.ends[id] <= 1 && (t.Closed() ==> t.client.ends[id] == 1)
    {
      assert t.started[id - t.first].id == id && t.started[id - t.first].Valid();
    }
  }

  /** The three calls that open a root, from number `first` on, all succeed. */
  predicate Opens(raises: nat -> Option<Exn>, first: nat) {
    raises(first) == None && raises(first + 1) == None && raises(first + 2) == None
  }

  /** Opens a question's root: its trace identifier, its observation, and the
      entry into it. */
  method OpenRoot(client: Client) returns (raised: Option<Exn>)
    modifies client`calls, client`rootsEntered
    ensures client.calls > old(client.calls)
    ensures client.rootsEntered == old(client.rootsEntered) + if raised.None? then 1 else 0
    ensures raised.None? <==> Opens(client.raises, old(client.calls))
    ensures Escaping(raised) == LastInterrupt(client.raises, old(client.calls), client.calls)
  {
    raised := client.Call();
    if raised.Some? {
      return;
    }
    raised := client.Call();
    LastOfBoth(client.raises, old(client.calls), old(client.calls) + 1, client.calls);
    if raised.Some? {
      return;
    }
    raised := client.EnterRoot();
    LastOfBoth(client.raises, old(client.calls), old(client.calls) + 1, client.calls);
  }

  /** The question within its opened root: the body, the ends of what it started,
      and the exit of the root. */
  method UnderRoot(client: Client, steps: seq<Step>, body: Outcome) returns (outcome: Outcome)
    modifies client
    ensures client.calls >= old(client.calls)
    ensures outcome == Overtaken(body, LastInterrupt(client.raises, old(client.calls), client.calls))
    ensures LastInterrupt(client.raises, old(client.calls), client.calls) == None ==>
      EndedOnce(client, |old(client.ends)|)
    ensures NeverEndedTwice(client, |old(client.ends)|)
    ensures client.rootsExited == old(client.rootsExited) + 1 && client.rootsEntered == old(client.rootsEntered)
  {
    ghost var raises, start := client.raises, client.calls;
    var trace := new QuestionTrace(client);
    outcome := trace.Run(steps, body);
    ghost var b := client.calls;
    var escaped := trace.EndStarted();
    outcome := Overtaken(outcome, escaped);
    EndsOf(trace);
    ghost var c := client.calls;
    var raised, suppress := client.ExitRoot(outcome);
    // The truthy result is ignored.
    outcome := Overtaken(outcome, Escaping(raised));
    LastOfBoth(raises, start, b, c);
    LastOfBoth(raises, start, c, client.calls);
  }

  /** One question under an optional trace. Whatever ordinary exceptions the
      client raises, and whatever leaving the root returns, the question ends as
      its body does; an interrupt from the client, and only that, takes its
      place, and the last one wins. Without an interrupt every observation the
      question started has been ended exactly once; with one, none was ended
      twice. The root is entered exactly when the calls that open it succeed, and
      exited as often as it was entered. */
  method Question(client: Client, steps: seq<Step>, body: Outcome) returns (outcome: Outcome)
    modifies client
    ensures client.calls >= old(client.calls)
    ensures outcome in Endings(client.raises, old(client.calls), client.calls, body)
    ensures Undisturbed(client.raises, old(client.calls), client.calls) ==> EndedOnce(client, |old(client.ends)|)
    ensures NeverEndedTwice(client, |old(client.ends)|)
    ensures client.rootsExited - old(client.rootsExited) == client.rootsEntered - old(client.rootsEntered) <= 1
    ensures client.rootsEntered > old(client.rootsEntered) <==> Opens(client.raises, old(client.calls))
    ensures client.rootsEntered == old(client.rootsEntered) ==> client.ends == old(client.ends)
  {
    ghost var raises, start := client.raises, client.calls;
    var raised := OpenRoot(client);
    if raised.Some? {
      // An ordinary exception is logged, and the body runs without any trace.
      OvertakenEndsAs(raises, start, client.calls, body);
      return Overtaken(body, Escaping(raised));
    }
    ghost var a := client.calls;
    outcome := UnderRoot(client, steps, body);
    LastOfBoth(raises, start, a, client.calls);
    OvertakenEndsAs(raises, start, client.calls, body);
  }

  /** A client that never interrupts cannot change how a question ends. */
  lemma OrdinaryClientIsInvisible(raises: nat -> Option<Exn>, lo: nat, hi: nat, body: Outcome)
    requires lo <= hi
    requires forall k :: lo <= k < hi ==> raises(k).Some? ==> raises(k).value.Ordinary?
    ensures Overtaken(body, LastInterrupt(raises, lo, hi)) == body
  {
    OvertakenEndsAs(raises, lo, hi, body);
  }
}
