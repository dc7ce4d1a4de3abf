// When a grading run gets through its open items: item by item, as the loop
// decides it, and in one condition on the replies and the limits.

module SidecarBudget {
  import opened Sidecar

  /** The running execution's local totals, and the number of the next reply. */
  datatype Books = Books(next: nat, calls: nat, spent: nat)

  /** A reply that leaves a grade. */
  predicate Grades(reply: Reply) {
    reply.Replied? && reply.usage.model == JUDGE_MODEL
  }

  /** The loop goes on after this item. */
  predicate Passes(item: Item, reply: Reply, limits: Limits, b: Books) {
    if item.failed then b.spent <= limits.maxCost
    else WithinBudget(b.calls, b.spent, limits) && Grades(reply) && b.spent + CostOf(reply) <= limits.maxCost
  }

  function NextBooks(item: Item, reply: Reply, b: Books): Books {
    if item.failed then b else Books(b.next + 1, b.calls + 1, b.spent + CostOf(reply))
  }

  ghost predicate GetsThrough(items: seq<Item>, replies: nat -> Reply, limits: Limits, b: Books) {
    items == [] || (
      && Passes(items[0], replies(b.next), limits, b)
      && GetsThrough(items[1..], replies, limits, NextBooks(items[0], replies(b.next), b)))
  }

  /** The books after these items. */
  function EndBooks(items: seq<Item>, replies: nat -> Reply, b: Books): Books {
    if items == [] then b else EndBooks(items[1..], replies, NextBooks(items[0], replies(b.next), b))
  }

  /** The books with which a run gets through these items. */
  ghost function Through(items: seq<Item>, replies: nat -> Reply, limits: Limits): iset<Books> {
    iset b | GetsThrough(items, replies, limits, b)
  }

  lemma ThroughNothing(replies: nat -> Reply, limits: Limits, b: Books)
    ensures b in Through([], replies, limits) && EndBooks([], replies, b) == b
  {
  }

  lemma ThroughStep(item: Item, items: seq<Item>, replies: nat -> Reply, limits: Limits, b: Books)
    ensures b in Through([item] + items, replies, limits) <==>
      && Passes(item, replies(b.next), limits, b)
      && NextBooks(item, replies(b.next), b) in Through(items, replies, limits)
    ensures EndBooks([item] + items, replies, b) == EndBooks(items, replies, NextBooks(item, replies(b.next), b))
  {
    assert ([item] + items)[1..] == items;
  }

  /** The items that are open in a directory, from number `i` on. */
  ghost function OpenItems(d: Disk, snapshot: Snapshot, i: nat): seq<Item>
    requires snapshot.Valid() && i <= |snapshot.order|
    decreases |snapshot.order| - i
  {
    if i == |snapshot.order| then []
    else if Open(d, snapshot.order[i]) then [snapshot.items[snapshot.order[i]]] + OpenItems(d, snapshot, i + 1)
    else OpenItems(d, snapshot, i + 1)
  }

  lemma OpenItemsSame(d: Disk, e: Disk, snapshot: Snapshot, i: nat)
    requires snapshot.Valid() && i <= |snapshot.order| && d.records == e.records
    ensures OpenItems(d, snapshot, i) == OpenItems(e, snapshot, i)
    decreases |snapshot.order| - i
  {
  }

  lemma NextOpenItem(d: Disk, snapshot: Snapshot, i: nat, replies: nat -> Reply, limits: Limits, b: Books)
    requires snapshot.Valid() && i < |snapshot.order|
    ensures
      var item := snapshot.items[snapshot.order[i]];
      var items, rest := OpenItems(d, snapshot, i), OpenItems(d, snapshot, i + 1);
      if Open(d, snapshot.order[i]) then
        && (b in Through(items, replies, limits) <==>
              && Passes(item, replies(b.next), limits, b)
              && NextBooks(item, replies(b.next), b) in Through(rest, replies, limits))
        && EndBooks(items, replies, b) == EndBooks(rest, replies, NextBooks(item, replies(b.next), b))
      else items == rest
  {
    ThroughStep(snapshot.items[snapshot.order[i]], OpenItems(d, snapshot, i + 1), replies, limits, b);
  }

  /** The items that need a call. */
  function CallsNeeded(items: seq<Item>): nat {
    if items == [] then 0 else (if items[0].failed then 0 else 1) + CallsNeeded(items[1..])
  }

  /** What `n` replies from number `next` on cost. */
  function Charges(replies: nat -> Reply, next: nat, n: nat): nat
    decreases n
  {
    if n == 0 then 0 else CostOf(replies(next)) + Charges(replies, next + 1, n - 1)
  }

  /** `n` more calls all leave a grade, within the call limit, with the cost
      below the limit before each of them and within it at the end. */
  ghost predicate Covers(replies: nat -> Reply, limits: Limits, n: nat, b: Books) {
    && (forall k :: b.next <= k < b.next + n ==> Grades(replies(k)))
    && (n > 0 ==> b.calls + n <= limits.maxCalls && b.spent + Charges(replies, b.next, n - 1) < limits.maxCost)
    && b.spent + Charges(replies, b.next, n) <= limits.maxCost
  }

  lemma CoversOneMore(replies: nat -> Reply, limits: Limits, n: nat, item: Item, b: Books)
    requires !item.failed
    ensures Covers(replies, limits, n + 1, b) <==>
      && Passes(item, replies(b.next), limits, b)
      && Covers(replies, limits, n, NextBooks(item, replies(b.next), b))
  {
    if Passes(item, replies(b.next), limits, b) && Covers(replies, limits, n, NextBooks(item, replies(b.next), b)) {
      forall k | b.next <= k < b.next + (n + 1) ensures Grades(replies(k)) {
        if k > b.next { assert b.next + 1 <= k < b.next + 1 + n; }
      }
    }
    if Covers(replies, limits, n + 1, b) { assert Grades(replies(b.next)); }
  }

  /** A run gets through its items if and only if the limits cover the calls
      that they need, and every one of these calls leaves a grade. */
  lemma {:induction false} GetsThroughIff(items: seq<Item>, replies: nat -> Reply, limits: Limits, b: Books)
    ensures GetsThrough(items, replies, limits, b) <==>
      items == [] || Covers(replies, limits, CallsNeeded(items), b)
    ensures
      var n := CallsNeeded(items);
      EndBooks(items, replies, b) == Books(b.next + n, b.calls + n, b.spent + Charges(replies, b.next, n))
  {
    if items != [] {
      var item, rest := items[0], items[1..];
      var c := NextBooks(item, replies(b.next), b);
      GetsThroughIff(rest, replies, limits, c);
      if !item.failed { CoversOneMore(replies, limits, CallsNeeded(rest), item, b); }
      if rest == [] { assert CallsNeeded(rest) == 0; }
    }
  }
}
