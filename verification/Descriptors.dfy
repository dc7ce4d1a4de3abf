// Descriptor bookkeeping of one pinned read: descend from the pinned root one
// directory at a time, open the file, read it, and give everything back,
// wherever an open, a stat, a read or a decoding fails.

module Descriptors {
  import opened Wrappers

  /** An open file description. The kernel may reuse its small numbers; a handle
      stands for one opening and is never issued twice. */
  datatype Handle = Handle(serial: int)

  /** What the file behind a descriptor turns out to be. */
  datatype Stat = Stat(regular: bool, size: nat)

  /** The descriptor table: the open handles, the next serial, how often each
      handle was closed, and the most handles ever open at once. */
  datatype State = State(handles: set<Handle>, issued: int, closes: multiset<Handle>, peak: nat)

  ghost predicate Tidy(s: State) {
    && (forall fd :: fd in s.handles ==> fd.serial < s.issued && s.closes[fd] == 0)
    && (forall fd: Handle :: fd.serial >= s.issued ==> s.closes[fd] == 0)
    && |s.handles| <= s.peak
  }

  ghost function Opened(s: State): State {
    State(s.handles + {Handle(s.issued)}, s.issued + 1, s.closes,
          if s.peak < |s.handles| + 1 then |s.handles| + 1 else s.peak)
  }

  ghost function Closed(s: State, fd: Handle): State {
    s.(handles := s.handles - {fd}, closes := s.closes + multiset{fd})
  }

  /** The kernel's descriptor table. Closing is assumed to succeed. */
  class Table {
    const fails: nat -> bool        // whether the n-th fallible call fails
    const stats: nat -> Stat
    const raws: nat -> nat          // bytes that the n-th read returns
    const decodes: nat -> bool
    var calls: nat
    var handles: set<Handle>
    var issued: int
    ghost var closes: multiset<Handle>
    ghost var peak: nat

    ghost function Now(): State
      reads this
    {
      State(handles, issued, closes, peak)
    }

    constructor (fails: nat -> bool, stats: nat -> Stat, raws: nat -> nat, decodes: nat -> bool, root: Handle)
      ensures Now() == State({root}, root.serial + 1, multiset{}, 1)
      ensures this.fails == fails && this.stats == stats && this.raws == raws && this.decodes == decodes
    {
      this.fails, this.stats, this.raws, this.decodes := fails, stats, raws, decodes;
      calls, handles, issued := 0, {root}, root.serial + 1;
      closes, peak := multiset{}, 1;
    }

    /** A fallible call that acquires nothing. */
    method Try() returns (ok: bool)
      modifies this`calls
      ensures calls == old(calls) + 1 && ok == !fails(old(calls))
    {
      ok := !fails(calls);
      calls := calls + 1;
    }

    /** `dup` or `open`. */
    method Acquire() returns (fd: Option<Handle>)
      modifies this
      ensures calls == old(calls) + 1
      ensures fd == if fails(old(calls)) then None else Some(Handle(old(issued)))
      ensures Now() == if fd.Some? then Opened(old(Now())) else old(Now())
    {
      var failed := fails(calls);
      calls := calls + 1;
      if failed {
        return None;
      }
      peak := if peak < |handles| + 1 then |handles| + 1 else peak;
      fd := Some(Handle(issued));
      handles := handles + {Handle(issued)};
      issued := issued + 1;
    }

    /** Only an open handle may be closed. */
    method Close(fd: Handle)
      requires fd in handles
      modifies this
      ensures Now() == Closed(old(Now()), fd) && calls == old(calls)
    {
      handles := handles - {fd};
      closes := closes + multiset{fd};
    }
  }

  // ---- what a read in progress owns ----

  /** The locals that the cleanup looks at: the directory handles still owned,
      and the file's handle unless a stream has taken it over. */
  datatype Held = Held(directories: set<Handle>, file: Option<Handle>)

  function HandlesOf(h: Held): set<Handle> {
    if h.file.Some? then h.directories + {h.file.value} else h.directories
  }

  /** Everything the read acquired since `b` is either held or closed once,
      nothing else changed, and at most two more handles were ever open. */
  ghost predicate Accounts(b: State, held: set<Handle>, s: State) {
    && Tidy(s)
    && b.issued <= s.issued
    && s.handles == b.handles + held
    && (forall fd :: fd in held ==> b.issued <= fd.serial)
    && (forall fd :: fd in b.handles ==> fd.serial < b.issued)
    && (forall fd: Handle :: b.issued <= fd.serial < s.issued && fd !in held ==> s.closes[fd] == 1)
    && (forall fd: Handle :: fd.serial < b.issued ==> s.closes[fd] == b.closes[fd])
    && (s.peak <= b.peak || s.peak <= |b.handles| + 2)
  }

  /** The tables a read may be in while it holds exactly these handles. */
  ghost function Owning(b: State, held: set<Handle>): iset<State> {
    iset s | Accounts(b, held, s)
  }

  lemma OneMoreHandle(a: set<Handle>, b: set<Handle>, fd: Handle)
    ensures a + b + {fd} == a + (b + {fd})
  {
  }

  lemma OpenPeak(b: State, held: set<Handle>, s: State)
    requires s.handles == b.handles + held && |held| <= 1 && Handle(s.issued) !in s.handles
    requires s.peak <= b.peak || s.peak <= |b.handles| + 2
    ensures Opened(s).peak <= b.peak || Opened(s).peak <= |b.handles| + 2
    ensures |Opened(s).handles| <= Opened(s).peak
  {
    assert |b.handles + held| <= |b.handles| + |held|;
    assert |s.handles + {Handle(s.issued)}| == |s.handles| + 1;
  }

  lemma OpenOne(b: State, held: set<Handle>, s: State)
    requires s in Owning(b, held) && |held| <= 1
    ensures Handle(s.issued) !in held
    ensures Opened(s) in Owning(b, held + {Handle(s.issued)})
  {
    OpenPeak(b, held, s);
    OneMoreHandle(b.handles, held, Handle(s.issued));
  }

  lemma CloseOne(b: State, held: set<Handle>, s: State, fd: Handle)
    requires s in Owning(b, held) && fd in held
    ensures fd in s.handles
    ensures Closed(s, fd) in Owning(b, held - {fd})
  {
    assert fd !in b.handles;
    assert Closed(s, fd).handles == b.handles + (held - {fd});
    assert |s.handles - {fd}| <= |s.handles|;
  }

  /** The table as it was found: every handle opened since was closed exactly
      once, every other handle, the root's included, was left alone, and at most
      two more handles were ever open at once. */
  ghost predicate Restored(b: State, s: State) {
    && Tidy(s)
    && s.handles == b.handles
    && (forall fd: Handle :: b.issued <= fd.serial < s.issued ==> s.closes[fd] == 1)
    && (forall fd: Handle :: fd.serial < b.issued ==> s.closes[fd] == b.closes[fd])
    && (s.peak <= b.peak || s.peak <= |b.handles| + 2)
  }

  ghost function Restorations(b: State): iset<State> {
    iset s | Restored(b, s)
  }

  lemma EndsAsFound(b: State, s: State)
    requires s in Owning(b, {})
    ensures s in Restorations(b)
  {
    assert b.handles + {} == b.handles;
  }

  // ---- the read ----

  datatype Outcome = Bytes(size: nat) | LimitExceeded | Unreadable | Unexpected

  /** None of the `n` calls from number `first` on fails. */
  predicate NoneFails(fails: nat -> bool, first: nat, n: nat) {
    n == 0 || (NoneFails(fails, first, n - 1) && !fails(first + n - 1))
  }

  lemma {:induction false} FailureStays(fails: nat -> bool, first: nat, k: nat, n: nat)
    requires k < n && fails(first + k)
    ensures !NoneFails(fails, first, n)
  {
    if k < n - 1 { FailureStays(fails, first, k, n - 1); }
  }

  lemma {:induction false} OneBefore(fails: nat -> bool, first: nat, n: nat)
    ensures NoneFails(fails, first, n + 1) <==> !fails(first) && NoneFails(fails, first + 1, n)
  {
    if n > 0 { OneBefore(fails, first, n - 1); }
  }

  /** What reading an open file comes to, from call `c` on: taking it over, and
      the read. */
  function StreamOutcome(t: Table, c: nat, maxBytes: nat): Outcome {
    if t.fails(c) || t.fails(c + 1) then Unreadable
    else if t.raws(c + 2) > maxBytes then LimitExceeded
    else if !t.decodes(c + 2) then Unreadable
    else Bytes(t.raws(c + 2))
  }

  /** And the file itself: opening it and looking at it come first. */
  function FileOutcome(t: Table, c: nat, maxBytes: nat): Outcome {
    if t.fails(c) || t.fails(c + 1) || !t.stats(c + 2).regular then Unreadable
    else if t.stats(c + 2).size > maxBytes then LimitExceeded
    else StreamOutcome(t, c + 2, maxBytes)
  }

  /** A whole read of a path of `n` names, from call `c` on: one call duplicates the
      root, one opens each directory, and the rest read the file. */
  function ReadOutcome(t: Table, c: nat, n: nat, maxBytes: nat): Outcome {
    if n == 0 then if t.fails(c) then Unreadable else Unexpected
    else if !NoneFails(t.fails, c, n) then Unreadable
    else FileOutcome(t, c + n, maxBytes)
  }

  /** The calls from number `lo` up to, and not including, `hi` all succeed. */
  ghost predicate AllSucceed(fails: nat -> bool, lo: nat, hi: nat) {
    forall k :: lo <= k < hi ==> !fails(k)
  }

  lemma {:induction false} NoneFailsIs(fails: nat -> bool, first: nat, n: nat)
    ensures NoneFails(fails, first, n) <==> AllSucceed(fails, first, first + n)
  {
    if n > 0 {
      NoneFailsIs(fails, first, n - 1);
      assert AllSucceed(fails, first, first + n) ==> !fails(first + n - 1);
    }
  }

  /** A read of a path of `n` names, in terms of its calls alone. Bytes come of a
      named path if and only if all its calls succeed, the file is regular and fits,
      and what is read fits and decodes. The limit is reported if and only if the file
      is too large, or grew too large before it was read. */
  ghost predicate OutcomeTells(t: Table, c: nat, n: nat, maxBytes: nat, outcome: Outcome) {
    var stat := t.stats(c + n + 2);
    && (outcome.Bytes? <==>
          && n > 0 && AllSucceed(t.fails, c, c + n + 4)
          && stat.regular && stat.size <= maxBytes && t.raws(c + n + 4) <= maxBytes && t.decodes(c + n + 4))
    && (outcome.Bytes? ==> outcome.size == t.raws(c + n + 4))
    && (outcome.LimitExceeded? <==>
          && n > 0 && AllSucceed(t.fails, c, c + n + 2) && stat.regular
          && (stat.size > maxBytes || (AllSucceed(t.fails, c, c + n + 4) && t.raws(c + n + 4) > maxBytes)))
    && (outcome.Unexpected? <==> n == 0 && !t.fails(c))
  }

  ghost function Told(t: Table, c: nat, n: nat, maxBytes: nat): iset<Outcome> {
    iset outcome | OutcomeTells(t, c, n, maxBytes, outcome)
  }

  lemma ReadOutcomeTells(t: Table, c: nat, n: nat, maxBytes: nat)
    ensures ReadOutcome(t, c, n, maxBytes) in Told(t, c, n, maxBytes)
  {
    NoneFailsIs(t.fails, c, n);
    assert AllSucceed(t.fails, c, c + n + 2) <==>
        AllSucceed(t.fails, c, c + n) && !t.fails(c + n) && !t.fails(c + n + 1);
    assert AllSucceed(t.fails, c, c + n + 4) <==>
        AllSucceed(t.fails, c, c + n + 2) && !t.fails(c + n + 2) && !t.fails(c + n + 3);
  }

  /** Opens the next directory and closes the one it was found in. */
  method OpenNext(t: Table, current: Handle, ghost b: State) returns (next: Option<Handle>)
    requires t.Now() in Owning(b, {current})
    modifies t
    ensures t.calls == old(t.calls) + 1 && (next.None? <==> t.fails(old(t.calls)))
    ensures t.Now() in Owning(b, {if next.Some? then next.value else current})
  {
    OpenOne(b, {current}, t.Now());
    next := t.Acquire();
    if next.Some? {
      CloseOne(b, {current} + {next.value}, t.Now(), current);
      t.Close(current);
      assert {current} + {next.value} - {current} == {next.value};
    }
  }

  /** Descends to the file's directory, holding one directory at rest and two in
      between. */
  method Descend(t: Table, depth: nat, first: Handle, ghost b: State) returns (ok: bool, current: Handle)
    requires t.Now() in Owning(b, {first})
    modifies t
    ensures t.Now() in Owning(b, {current})
    ensures ok <==> NoneFails(t.fails, old(t.calls), depth)
    ensures ok ==> t.calls == old(t.calls) + depth
  {
    current := first;
    for k := 0 to depth
      invariant t.Now() in Owning(b, {current})
      invariant t.calls == old(t.calls) + k && NoneFails(t.fails, old(t.calls), k)
    {
      var next := OpenNext(t, current, b);
      if next.None? {
        FailureStays(t.fails, old(t.calls), k, depth);
        return false, current;
      }
      current := next.value;
    }
    ok := true;
  }

  /** Hands the open file to a stream, which closes it however the read ends. */
  method ReadStream(t: Table, current: Handle, file: Handle, maxBytes: nat, ghost b: State)
    returns (outcome: Outcome, h: Held)
    requires t.Now() in Owning(b, {current} + {file}) && current != file
    modifies t
    ensures t.Now() in Owning(b, HandlesOf(h)) && (h.file.Some? ==> h.file.value !in h.directories)
    ensures outcome.Bytes? ==> h == Held({}, None)
    ensures outcome == StreamOutcome(t, old(t.calls), maxBytes)
  {
    var ok := t.Try();
    if !ok {
      return Unreadable, Held({current}, Some(file));
    }
    ok := t.Try();                  // the read
    CloseOne(b, {current} + {file}, t.Now(), file);
    t.Close(file);
    assert {current} + {file} - {file} == {current};
    h := Held({current}, None);
    var size := t.raws(t.calls);
    if !ok {
      return Unreadable, h;
    }
    if size > maxBytes {
      return LimitExceeded, h;
    }
    if !t.decodes(t.calls) {
      return Unreadable, h;
    }
    CloseOne(b, {current}, t.Now(), current);
    t.Close(current);
    assert {current} - {current} == {};
    return Bytes(size), Held({}, None);
  }

  /** Opens, checks and reads the file below `current`. */
  method ReadFile(t: Table, current: Handle, maxBytes: nat, ghost b: State) returns (outcome: Outcome, h: Held)
    requires t.Now() in Owning(b, {current})
    modifies t
    ensures t.Now() in Owning(b, HandlesOf(h)) && (h.file.Some? ==> h.file.value !in h.directories)
    ensures outcome.Bytes? ==> h == Held({}, None)
    ensures outcome == FileOutcome(t, old(t.calls), maxBytes)
  {
    OpenOne(b, {current}, t.Now());
    var file := t.Acquire();
    if file.None? {
      return Unreadable, Held({current}, None);
    }
    h := Held({current}, file);
    var ok := t.Try();
    var stat := t.stats(t.calls);
    if !ok || !stat.regular {
      return Unreadable, h;
    }
    if stat.size > maxBytes {
      return LimitExceeded, h;
    }
    outcome, h := ReadStream(t, current, file.value, maxBytes, b);
  }

  /** Gives back whatever is still held. */
  method Release(t: Table, h: Held, ghost b: State)
    requires t.Now() in Owning(b, HandlesOf(h)) && (h.file.Some? ==> h.file.value !in h.directories)
    modifies t
    ensures t.Now() in Owning(b, {})
  {
    if h.file.Some? {
      CloseOne(b, HandlesOf(h), t.Now(), h.file.value);
      t.Close(h.file.value);
      assert HandlesOf(h) - {h.file.value} == h.directories;
    }
    var left := h.directories;
    while left != {}
      invariant t.Now() in Owning(b, left)
      decreases |left|
    {
      var fd :| fd in left;
      CloseOne(b, left, t.Now(), fd);
      t.Close(fd);
      left := left - {fd};
    }
  }

  /** What comes below the duplicated root, with the file's calls from `at` on. */
  predicate BelowRoot(t: Table, c: nat, n: nat, maxBytes: nat, at: nat, outcome: Outcome) {
    if n == 0 then outcome == Unexpected
    else if NoneFails(t.fails, c, n - 1) then outcome == FileOutcome(t, at, maxBytes)
    else outcome == Unreadable
  }

  /** Descends from the duplicated root and reads the file, if there is one. */
  method ReadBelow(t: Table, parts: seq<string>, maxBytes: nat, first: Handle, ghost b: State, ghost at: nat)
    returns (outcome: Outcome, h: Held)
    requires t.Now() in Owning(b, {first}) && at + 1 == t.calls + |parts|
    modifies t
    ensures t.Now() in Owning(b, HandlesOf(h)) && (h.file.Some? ==> h.file.value !in h.directories)
    ensures BelowRoot(t, old(t.calls), |parts|, maxBytes, at, outcome)
  {
    ghost var c := t.calls;
    var depth := if parts == [] then 0 else |parts| - 1;
    var ok, current := Descend(t, depth, first, b);
    h := Held({current}, None);
    if !ok {
      outcome := Unreadable;
    } else if parts == [] {
      outcome := Unexpected;
    } else {
      ghost var here := t.calls;
      outcome, h := ReadFile(t, current, maxBytes, b);
      SameFile(t, at, here, maxBytes);
    }
    BelowIs(t, c, |parts|, depth, maxBytes, at, ok, outcome);
  }

  lemma SameFile(t: Table, at: nat, here: nat, maxBytes: nat)
    requires at == here
    ensures FileOutcome(t, at, maxBytes) == FileOutcome(t, here, maxBytes)
  {
  }

  lemma BelowIs(t: Table, c: nat, n: nat, depth: nat, maxBytes: nat, at: nat, ok: bool, outcome: Outcome)
    requires depth == (if n == 0 then 0 else n - 1) && (ok <==> NoneFails(t.fails, c, depth))
    requires !ok ==> outcome == Unreadable
    requires ok && n == 0 ==> outcome == Unexpected
    requires ok && n > 0 ==> outcome == FileOutcome(t, at, maxBytes)
    ensures BelowRoot(t, c, n, maxBytes, at, outcome)
  {
  }

  lemma OutcomeAfterRoot(t: Table, c: nat, below: nat, n: nat, maxBytes: nat, at: nat, outcome: Outcome)
    requires below == c + 1 && at == c + n && !t.fails(c) && BelowRoot(t, below, n, maxBytes, at, outcome)
    ensures outcome == ReadOutcome(t, c, n, maxBytes)
  {
    if n > 0 { OneBefore(t.fails, c, n - 1); }
  }

  lemma NoRoot(t: Table, c: nat, n: nat, maxBytes: nat)
    requires t.fails(c)
    ensures ReadOutcome(t, c, n, maxBytes) == Unreadable
  {
    if n > 0 { OneBefore(t.fails, c, n - 1); }
  }

  /** Reads one pinned file of any depth: its bytes if and only if every call
      succeeds on a regular file that fits and decodes. Whatever fails, the table
      ends as it was found. */
  method ReadPinned(t: Table, parts: seq<string>, maxBytes: nat) returns (outcome: Outcome)
    requires Tidy(t.Now())
    modifies t
    ensures t.Now() in Restorations(old(t.Now()))
    ensures outcome in Told(t, old(t.calls), |parts|, maxBytes)
  {
    ghost var b := t.Now();
    ghost var c, at := t.calls, t.calls + |parts|;
    OpenOne(b, {}, b);
    var first := t.Acquire();
    if first.None? {
      EndsAsFound(b, t.Now());
      NoRoot(t, c, |parts|, maxBytes);
      ReadOutcomeTells(t, c, |parts|, maxBytes);
      return Unreadable;
    }
    assert {} + {first.value} == {first.value};
    ghost var below := t.calls;
    var h;
    outcome, h := ReadBelow(t, parts, maxBytes, first.value, b, at);
    ReadOutcomeTells(t, c, |parts|, maxBytes);
    OutcomeAfterRoot(t, c, below, |parts|, maxBytes, at, outcome);
    Release(t, h, b);
    EndsAsFound(b, t.Now());
  }
}
