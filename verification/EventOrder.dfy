// Event-ordering scores: one-to-one alignment of two event lists, set
// precision and recall, and the normalised rank correlation.

module EventOrder {
  import opened Arithmetic
  import opened Wrappers
  import opened Sums
  import opened Orders
  import opened Kendall

  // ---- alignment ----

  /** The equivalence judge: its n-th answer may depend on n and both texts. */
  class Equivalence {
    const says: (nat, string, string) -> bool
    var asked: nat

    constructor (says: (nat, string, string) -> bool)
      ensures this.says == says && asked == 0
    {
      this.says := says;
      asked := 0;
    }

    method Same(left: string, right: string) returns (yes: bool)
      modifies this
      ensures yes == says(old(asked), left, right) && asked == old(asked) + 1
    {
      yes := says(asked, left, right);
      asked := asked + 1;
    }
  }

  /** The judge answers by this relation, whenever it is asked. */
  ghost predicate Decides(says: (nat, string, string) -> bool, same: (string, string) -> bool) {
    forall n, l, r :: says(n, l, r) == same(l, r)
  }

  /** The match is the first unused reference event that is the same, if any. */
  ghost predicate FirstFree(
      same: (string, string) -> bool, reference: seq<string>, used: set<nat>, item: string, matched: Option<nat>)
  {
    match matched
    case Some(i) =>
      && i < |reference| && same(reference[i], item)
      && forall j: nat :: j < i && j !in used ==> !same(reference[j], item)
    case None => forall j: nat :: j < |reference| && j !in used ==> !same(reference[j], item)
  }

  /** Asks about the unused reference events in order, up to the first yes. */
  method FindMatch(judge: Equivalence, reference: seq<string>, used: set<nat>, item: string)
    returns (matched: Option<nat>)
    modifies judge
    ensures matched.Some? ==> matched.value < |reference| && matched.value !in used
    ensures forall same :: Decides(judge.says, same) ==> FirstFree(same, reference, used, item, matched)
  {
    for i := 0 to |reference|
      invariant forall same, j: nat :: Decides(judge.says, same) && j < i && j !in used ==> !same(reference[j], item)
    {
      if i in used {
        continue;
      }
      var yes := judge.Same(reference[i], item);
      if yes {
        return Some(i);
      }
    }
    matched := None;
  }

  ghost function UsedBy(matched: seq<Option<nat>>): set<nat> {
    set k | 0 <= k < |matched| && matched[k].Some? :: matched[k].value
  }

  /** Each reference index is used at most once, and each aligned event is the
      reference event it was matched to, or itself. */
  ghost predicate Aligned(
      reference: seq<string>, system: seq<string>, aligned: seq<string>, matched: seq<Option<nat>>)
  {
    && |aligned| == |matched| <= |system|
    && (forall j, k :: 0 <= j < k < |matched| && matched[j].Some? && matched[k].Some? ==> matched[j] != matched[k])
    && forall k :: 0 <= k < |matched| ==>
         match matched[k]
         case Some(i) => i < |reference| && aligned[k] == reference[i]
         case None => aligned[k] == system[k]
  }

  ghost predicate Greedy(
      same: (string, string) -> bool, reference: seq<string>, system: seq<string>, matched: seq<Option<nat>>)
  {
    |matched| <= |system|
    && forall k :: 0 <= k < |matched| ==> FirstFree(same, reference, UsedBy(matched[..k]), system[k], matched[k])
  }

  /** Maps system events one-to-one onto reference events, first come, first served. */
  method Align(judge: Equivalence, reference: seq<string>, system: seq<string>)
    returns (aligned: seq<string>, ghost matched: seq<Option<nat>>)
    modifies judge
    ensures |aligned| == |system| && Aligned(reference, system, aligned, matched)
    ensures forall same :: Decides(judge.says, same) ==> Greedy(same, reference, system, matched)
  {
    var used: set<nat> := {};
    aligned, matched := [], [];
    for k := 0 to |system|
      invariant |aligned| == k && Aligned(reference, system, aligned, matched)
      invariant used == UsedBy(matched)
      invariant forall same :: Decides(judge.says, same) ==> Greedy(same, reference, system, matched)
    {
      var m := FindMatch(judge, reference, used, system[k]);
      ghost var before := matched;
      matched := matched + [m];
      UsedGrows(before, m);
      if m.Some? {
        aligned := aligned + [reference[m.value]];
        used := used + {m.value};
      } else {
        aligned := aligned + [system[k]];
      }
      assert forall j :: 0 <= j <= k ==> matched[..j] == before[..j];
    }
  }

  lemma UsedGrows(matched: seq<Option<nat>>, m: Option<nat>)
    ensures UsedBy(matched + [m]) == UsedBy(matched) + if m.Some? then {m.value} else {}
    ensures forall k :: 0 <= k < |matched| && matched[k].Some? ==> matched[k].value in UsedBy(matched)
  {
    var more := matched + [m];
    assert forall k :: 0 <= k < |matched| ==> more[k] == matched[k];
    assert more[|matched|] == m;
  }

  function Equal(left: string, right: string): bool {
    left == right
  }

  /** When same means equal, alignment changes nothing. */
  lemma EqualityKeepsTheSystem(
      reference: seq<string>, system: seq<string>, aligned: seq<string>, matched: seq<Option<nat>>)
    requires |aligned| == |system| && Aligned(reference, system, aligned, matched)
    requires Greedy(Equal, reference, system, matched)
    ensures aligned == system
  {
    forall k | 0 <= k < |system| ensures aligned[k] == system[k] {
      assert FirstFree(Equal, reference, UsedBy(matched[..k]), system[k], matched[k]);
    }
  }

  // ---- precision, recall and F1 ----

  function Items(s: seq<string>): set<string> {
    set x | x in s
  }

  /** How many events of `s`, repetitions included, are outside a set. */
  function Outside(s: seq<string>, known: set<string>): nat {
    if s == [] then 0 else (if s[0] in known then 0 else 1) + Outside(s[1..], known)
  }

  function Share(hits: nat, misses: nat): (r: real)
    ensures 0.0 <= r <= 1.0
  {
    if hits + misses == 0 then 0.0
    else
      hits as real / (hits + misses) as real
  }

  function Harmonic(p: real, r: real): (f: real)
    requires 0.0 <= p <= 1.0 && 0.0 <= r <= 1.0
    ensures 0.0 <= f <= 1.0
  {
    if p + r == 0.0 then 0.0
    else
      HarmonicInRange(p, r);
      2.0 * p * r / (p + r)
  }

  lemma UnitProduct(a: real, b: real) returns (m: real)
    requires 0.0 <= a <= 1.0 && 0.0 <= b <= 1.0
    ensures m == a * b && 0.0 <= m <= a && m <= b
  {
    m := a * b;
    RealNonNegative(a, b);
    RealNonNegative(a, 1.0 - b);
    RealNonNegative(1.0 - a, b);
    assert a * (1.0 - b) == a - a * b && (1.0 - a) * b == b - a * b;
  }

  lemma HarmonicInRange(p: real, r: real)
    requires 0.0 <= p <= 1.0 && 0.0 <= r <= 1.0 && p + r > 0.0
    ensures 0.0 <= 2.0 * p * r / (p + r) <= 1.0
  {
    var m := UnitProduct(p, r);
    assert 2.0 * p * r == m + m;
    TwiceOverSum(m, p, r);
  }

  lemma TwiceOverSum(m: real, p: real, r: real)
    requires 0.0 <= m <= p && m <= r && p + r > 0.0
    ensures 0.0 <= (m + m) / (p + r) <= 1.0
  {
    UnitQuotient(m + m, p + r);
  }

  function Precision(reference: seq<string>, system: seq<string>): (r: real)
    ensures 0.0 <= r <= 1.0
  {
    Share(|Items(reference) * Items(system)|, Outside(system, Items(reference)))
  }

  function Recall(reference: seq<string>, system: seq<string>): (r: real)
    ensures 0.0 <= r <= 1.0
  {
    Share(|Items(reference) * Items(system)|, Outside(reference, Items(system)))
  }

  // ---- ranks ----

  /** First occurrences, in order. */
  function Deduped(s: seq<string>): seq<string> {
    if s == [] then []
    else
      var init, last := s[..|s| - 1], s[|s| - 1];
      if last in init then Deduped(init) else Deduped(init) + [last]
  }

  /** An event's rank is its last position, from one; an absent event ranks last. */
  function Rank(s: seq<string>, item: string, absent: nat): nat {
    if s == [] then absent
    else if s[|s| - 1] == item then |s|
    else Rank(s[..|s| - 1], item, absent)
  }

  function PointOf(reference: seq<string>, system: seq<string>, item: string, absent: nat): Point {
    Point(Rank(reference, item, absent) as real, Rank(system, item, absent) as real)
  }

  function PointsOf(reference: seq<string>, system: seq<string>, items: seq<string>, absent: nat): seq<Point> {
    if items == [] then []
    else [PointOf(reference, system, items[0], absent)] + PointsOf(reference, system, items[1..], absent)
  }

  /** Both rank lists over the union of the events. */
  function RankPoints(reference: seq<string>, system: seq<string>): seq<Point> {
    var union := Deduped(reference + system);
    PointsOf(reference, system, union, |union| + 1)
  }

  datatype Score = Score(precision: real, recall: real, f1: real, tauNorm: real, final: real)

  function ScoreFrom(p: real, r: real, tau: real): Score
    requires 0.0 <= p <= 1.0 && 0.0 <= r <= 1.0
  {
    var f, norm := Harmonic(p, r), (tau + 1.0) / 2.0;
    Score(p, r, f, norm, norm * f)
  }

  function ScoreOf(reference: seq<string>, system: seq<string>, tau: real): Score {
    ScoreFrom(Precision(reference, system), Recall(reference, system), tau)
  }

  /** `tau` is the rank correlation of these two lists. */
  ghost predicate Correlates(reference: seq<string>, system: seq<string>, tau: real) {
    IsTau(tau, Tally(RankPoints(reference, system)), PairsOf(|RankPoints(reference, system)|))
  }

  ghost predicate InUnit(s: Score) {
    && 0.0 <= s.precision <= 1.0
    && 0.0 <= s.recall <= 1.0
    && 0.0 <= s.f1 <= 1.0
    && 0.0 <= s.tauNorm <= 1.0
    && 0.0 <= s.final <= 1.0
  }

  lemma ScoreFromInRange(p: real, r: real, tau: real)
    requires 0.0 <= p <= 1.0 && 0.0 <= r <= 1.0 && -1.0 <= tau <= 1.0
    ensures InUnit(ScoreFrom(p, r, tau))
  {
    var final := UnitProduct((tau + 1.0) / 2.0, Harmonic(p, r));
    assert ScoreFrom(p, r, tau).final == final;
  }

  /** Every part of a score lies between zero and one. */
  lemma ScoresAreInRange(reference: seq<string>, system: seq<string>, tau: real)
    requires Correlates(reference, system, tau)
    ensures InUnit(ScoreOf(reference, system, tau))
  {
    TauInRange(RankPoints(reference, system), tau);
    ScoreFromInRange(Precision(reference, system), Recall(reference, system), tau);
  }

  // ---- what the parts count ----

  function NotIn(known: seq<string>): string -> bool {
    (x: string) => x !in known
  }

  lemma {:induction false} OutsideIs(s: seq<string>, known: seq<string>, f: string -> int)
    requires forall x :: f(x) == if x in known then 0 else 1
    ensures Outside(s, Items(known)) == SeqSum(s, f)
  {
    if s != [] { OutsideIs(s[1..], known, f); }
  }

  lemma OutsideCounts(s: seq<string>, known: seq<string>)
    ensures Outside(s, Items(known)) == HowMany(s, NotIn(known))
  {
    var f := (x: string) => if x in known then 0 else 1;
    OutsideIs(s, known, f);
    HowManyAsSum(s, NotIn(known), f);
  }

  /** The different events that both lists hold. */
  function Hits(reference: seq<string>, system: seq<string>): set<string> {
    set x | x in reference && x in system
  }

  /** The share that `part` is of `whole`; nothing is no share of nothing. */
  ghost function Shares(part: nat, whole: nat): iset<real> {
    iset x | IsShare(x, part, whole)
  }

  predicate IsShare(x: real, part: nat, whole: nat) {
    x * whole as real == part as real && (part == 0 ==> x == 0.0)
  }

  lemma ShareTells(hits: nat, misses: nat)
    ensures Share(hits, misses) in Shares(hits, hits + misses)
  {
  }

  lemma SharesAre(reference: seq<string>, system: seq<string>)
    ensures
      Precision(reference, system) == Share(|Hits(reference, system)|, HowMany(system, NotIn(reference)))
    ensures
      Recall(reference, system) == Share(|Hits(reference, system)|, HowMany(reference, NotIn(system)))
  {
    assert Items(reference) * Items(system) == Hits(reference, system);
    OutsideCounts(system, reference);
    OutsideCounts(reference, system);
  }

  lemma SameShare(x: real, hits: nat, misses: nat)
    requires x == Share(hits, misses)
    ensures x in Shares(hits, hits + misses)
  {
    ShareTells(hits, misses);
  }

  /** Precision is the hits over the hits and the system events, repetitions
      included, that are not in the reference; recall is the hits over the hits and
      the reference events that the system does not have. */
  lemma PrecisionAndRecallTell(reference: seq<string>, system: seq<string>)
    ensures
      var hits := |Hits(reference, system)|;
      && Precision(reference, system) in Shares(hits, hits + HowMany(system, NotIn(reference)))
      && Recall(reference, system) in Shares(hits, hits + HowMany(reference, NotIn(system)))
  {
    SharesAre(reference, system);
    var hits := |Hits(reference, system)|;
    SameShare(Precision(reference, system), hits, HowMany(system, NotIn(reference)));
    SameShare(Recall(reference, system), hits, HowMany(reference, NotIn(system)));
  }

  lemma HarmonicOfShares(h: real, a: real, b: real)
    requires h > 0.0 && a >= h && b >= h
    ensures 0.0 <= h / a <= 1.0 && 0.0 <= h / b <= 1.0 && Harmonic(h / a, h / b) * (a + b) == 2.0 * h
  {
    UnitQuotient(h, a);
    UnitQuotient(h, b);
    var p, r := h / a, h / b;
    assert p * a == h && r * b == h && p > 0.0;
    var product, sum := p * r, p + r;
    assert h * p == (r * b) * p == product * b;
    assert h * r == (p * a) * r == product * a;
    assert h * sum == product * (a + b);
    var f := Harmonic(p, r);
    assert f * sum == 2.0 * p * r == 2.0 * product;
    assert (f * (a + b)) * sum == 2.0 * product * (a + b) == (2.0 * h) * sum;
    SameFactor(f * (a + b), 2.0 * h, sum);
  }

  lemma SameFactor(x: real, y: real, n: real)
    requires n > 0.0 && x * n == y * n
    ensures x == y
  {
    assert x == x * n / n && y == y * n / n;
  }

  lemma HarmonicTells(p: real, r: real, hits: nat, a: nat, b: nat)
    requires 0.0 <= p <= 1.0 && 0.0 <= r <= 1.0 && a >= hits && b >= hits
    requires p in Shares(hits, a) && r in Shares(hits, b)
    ensures Harmonic(p, r) in Shares(2 * hits, a + b)
  {
    if hits > 0 {
      assert hits as real / a as real * a as real == hits as real;
      assert hits as real / b as real * b as real == hits as real;
      SameFactor(p, hits as real / a as real, a as real);
      SameFactor(r, hits as real / b as real, b as real);
      HarmonicOfShares(hits as real, a as real, b as real);
      assert a as real + b as real == (a + b) as real;
    }
  }

  /** From the two shares, F1 is twice the hits over twice the hits and all misses. */
  lemma F1OfShares(f: real, p: real, r: real, hits: nat, wrong: nat, missed: nat)
    requires 0.0 <= p <= 1.0 && 0.0 <= r <= 1.0 && f == Harmonic(p, r)
    requires p in Shares(hits, hits + wrong) && r in Shares(hits, hits + missed)
    ensures f in Shares(2 * hits, (hits + wrong) + (hits + missed))
  {
    HarmonicTells(p, r, hits, hits + wrong, hits + missed);
  }

  /** The final value is F1 times how far the coefficient is on its way from minus
      one to one. */
  lemma FinalTells(reference: seq<string>, system: seq<string>, tau: real)
    ensures
      var score := ScoreOf(reference, system, tau);
      && score.precision == Precision(reference, system) && score.recall == Recall(reference, system)
      && score.f1 == Harmonic(score.precision, score.recall)
      && score.tauNorm == (tau + 1.0) / 2.0
      && score.final == score.tauNorm * score.f1
  {
  }

  /** An event's rank is its last position, from one, and `absent` if it has none. */
  lemma {:induction false} RankTells(s: seq<string>, item: string, absent: nat)
    ensures item !in s ==> Rank(s, item, absent) == absent
    ensures item in s ==>
      var n := Rank(s, item, absent);
      1 <= n <= |s| && s[n - 1] == item && item !in s[n..]
  {
    if s != [] {
      var init, last := s[..|s| - 1], s[|s| - 1];
      assert s == init + [last];
      RankTells(init, item, absent);
      if item in init && item != last {
        var n := Rank(init, item, absent);
        assert s[n..] == init[n..] + [last];
      }
    }
  }

  /** Of each event its first occurrence: each once, and a longer list only adds. */
  lemma {:induction false} DedupedTells(a: seq<string>, b: seq<string>)
    ensures Distinct(Deduped(a)) && (forall x :: x in Deduped(a) <==> x in a)
    ensures Deduped(a) <= Deduped(a + b)
    decreases |a| + |b|
  {
    if b == [] {
      assert a + b == a;
      if a != [] {
        DedupedTells(a[..|a| - 1], []);
        assert a == a[..|a| - 1] + [a[|a| - 1]];
      }
    } else {
      var init := b[..|b| - 1];
      assert (a + b)[..|a + b| - 1] == a + init;
      DedupedTells(a, init);
    }
  }

  /** The two rankings are compared at the union of the events, absent ones last. */
  lemma RankPointsTell(reference: seq<string>, system: seq<string>, union: seq<string>, k: nat)
    requires union == Deduped(reference + system) && k < |union|
    ensures |RankPoints(reference, system)| == |union|
    ensures RankPoints(reference, system)[k] ==
      Point(Rank(reference, union[k], |union| + 1) as real, Rank(system, union[k], |union| + 1) as real)
  {
    var points := PointsOf(reference, system, union, |union| + 1);
    PointsAt(reference, system, union, |union| + 1);
    assert RankPoints(reference, system) == points;
    assert points[k] == PointOf(reference, system, union[k], |union| + 1);
  }

  // ---- the reference order and its reversal ----

  lemma {:induction false} NoneOutside(s: seq<string>, known: set<string>)
    requires forall x :: x in s ==> x in known
    ensures Outside(s, known) == 0
  {
    if s != [] { NoneOutside(s[1..], known); }
  }

  /** Two lists of the same events score full precision and recall. */
  lemma SameEventsMatchFully(reference: seq<string>, system: seq<string>)
    requires Items(reference) == Items(system) && reference != []
    ensures Precision(reference, system) == 1.0 && Recall(reference, system) == 1.0
  {
    var all := Items(reference);
    assert reference[0] in all;
    assert all * all == all && |all| > 0;
    assert forall x :: x in system ==> x in Items(system);
    assert forall x :: x in reference ==> x in Items(reference);
    NoneOutside(system, all);
    NoneOutside(reference, all);
    assert |all| as real / |all| as real == 1.0;
  }

  lemma {:induction false} DistinctIsDeduped(s: seq<string>)
    requires Distinct(s)
    ensures Deduped(s) == s
  {
    if s != [] {
      var init, last := s[..|s| - 1], s[|s| - 1];
      DistinctIsDeduped(init);
      assert s == init + [last];
    }
  }

  lemma {:induction false} KnownEventsAddNothing(reference: seq<string>, more: seq<string>)
    requires Distinct(reference) && forall x :: x in more ==> x in reference
    ensures Deduped(reference + more) == reference
    decreases |more|
  {
    if more == [] {
      assert reference + more == reference;
      DistinctIsDeduped(reference);
    } else {
      var init, last := more[..|more| - 1], more[|more| - 1];
      var all := reference + more;
      assert all[..|all| - 1] == reference + init;
      assert all[|all| - 1] == last && last in reference && last in reference + init;
      KnownEventsAddNothing(reference, init);
    }
  }

  lemma {:induction false} RankAt(s: seq<string>, k: nat, absent: nat)
    requires Distinct(s) && k < |s|
    ensures Rank(s, s[k], absent) == k + 1
  {
    if k < |s| - 1 {
      var init := s[..|s| - 1];
      assert s[k] != s[|s| - 1] && init[k] == s[k];
      assert Distinct(init);
      RankAt(init, k, absent);
    }
  }

  lemma {:induction false} PointsAt(reference: seq<string>, system: seq<string>, items: seq<string>, absent: nat)
    ensures |PointsOf(reference, system, items, absent)| == |items|
    ensures forall k :: 0 <= k < |items| ==>
      PointsOf(reference, system, items, absent)[k] == PointOf(reference, system, items[k], absent)
  {
    if items != [] {
      PointsAt(reference, system, items[1..], absent);
      var rest := PointsOf(reference, system, items[1..], absent);
      forall k | 0 <= k < |items|
        ensures PointsOf(reference, system, items, absent)[k] == PointOf(reference, system, items[k], absent)
      {
        if k > 0 { assert items[1..][k - 1] == items[k]; }
      }
    }
  }

  function Reversed(s: seq<string>): (r: seq<string>) {
    if s == [] then [] else Reversed(s[1..]) + [s[0]]
  }

  lemma {:induction false} ReversedAt(s: seq<string>)
    ensures |Reversed(s)| == |s| && forall k :: 0 <= k < |s| ==> Reversed(s)[k] == s[|s| - 1 - k]
  {
    if s != [] { ReversedAt(s[1..]); }
  }

  lemma ReversedItems(s: seq<string>)
    ensures Items(Reversed(s)) == Items(s)
    ensures Distinct(s) ==> Distinct(Reversed(s))
  {
    ReversedAt(s);
    var r := Reversed(s);
    forall x | x in s ensures x in r {
      var k :| 0 <= k < |s| && s[k] == x;
      assert r[|s| - 1 - k] == x;
    }
  }

  /** Every later point is further on in the first ranking; in the second it is
      further on too, or further back. */
  ghost predicate Before(p: Point, rest: seq<Point>, rising: bool) {
    forall k :: 0 <= k < |rest| ==> p.x < rest[k].x && (if rising then p.y < rest[k].y else p.y > rest[k].y)
  }

  ghost predicate Monotone(points: seq<Point>, rising: bool) {
    points == [] || (Before(points[0], points[1..], rising) && Monotone(points[1..], rising))
  }

  /** Point number k sits at k + 1 in the first ranking, and `base` up or down
      from there in the second. */
  lemma {:induction false} StepsAreMonotone(points: seq<Point>, start: int, base: int, rising: bool)
    requires forall k :: 0 <= k < |points| ==>
      points[k] == Point((start + k) as real, (if rising then base + k else base - k) as real)
    ensures Monotone(points, rising)
  {
    if points != [] {
      var rest := points[1..];
      forall k | 0 <= k < |rest|
        ensures rest[k] == Point((start + 1 + k) as real, (if rising then base + 1 + k else base - 1 - k) as real)
      {
        assert rest[k] == points[k + 1];
      }
      StepsAreMonotone(rest, start + 1, if rising then base + 1 else base - 1, rising);
    }
  }

  function Uniform(n: nat, rising: bool): Counts {
    if rising then Counts(n, 0, 0, 0, 0) else Counts(0, n, 0, 0, 0)
  }

  lemma UniformPlus(a: nat, b: nat, rising: bool)
    ensures Plus(Uniform(a, rising), Uniform(b, rising)) == Uniform(a + b, rising)
  {
  }

  lemma {:induction false} UniformRow(p: Point, rest: seq<Point>, rising: bool)
    requires Before(p, rest, rising)
    ensures Row(p, rest) == Uniform(|rest|, rising)
  {
    if rest != [] {
      UniformRow(p, rest[1..], rising);
      assert Pair(p, rest[0]) == Uniform(1, rising);
      UniformPlus(1, |rest| - 1, rising);
    }
  }

  lemma {:induction false} UniformTally(points: seq<Point>, rising: bool)
    requires Monotone(points, rising)
    ensures Tally(points) == Uniform(PairsOf(|points|), rising)
  {
    if points != [] {
      var p, rest := points[0], points[1..];
      UniformRow(p, rest, rising);
      UniformTally(rest, rising);
      UniformPlus(|rest|, PairsOf(|rest|), rising);
      assert Tally(points) == Plus(Row(p, rest), Tally(rest));
      assert PairsOf(|points|) == |rest| + PairsOf(|rest|);
    }
  }

  /** A uniform ranking of two or more events has one coefficient: one or minus one. */
  lemma UniformTau(n0: nat, rising: bool, tau: real)
    requires n0 > 0
    ensures IsTau(tau, Uniform(n0, rising), n0) <==> tau == if rising then 1.0 else -1.0
  {
    var m: int := n0;
    var e: int := if rising then m else 0 - m;
    var p: int := m * m;
    var unit := if rising then 1.0 else -1.0;
    assert e * e == p && p > 0;
    assert Product(Uniform(n0, rising), n0) == p && Difference(Uniform(n0, rising)) == e;
    assert unit * unit == 1.0;
    assert IsQuotient(unit, e, p);
    if IsQuotient(tau, e, p) { TauIsUnique(e, p, tau, unit); }
  }

  /** The rank points of a reference list and a list of the same events. */
  lemma SameEventPoints(reference: seq<string>, system: seq<string>)
    requires Distinct(reference) && Items(reference) == Items(system)
    ensures RankPoints(reference, system) == PointsOf(reference, system, reference, |reference| + 1)
  {
    forall x | x in system ensures x in reference {
      assert x in Items(system);
    }
    KnownEventsAddNothing(reference, system);
  }

  lemma ReferencePoints(reference: seq<string>)
    requires Distinct(reference)
    ensures |RankPoints(reference, reference)| == |reference| && Monotone(RankPoints(reference, reference), true)
  {
    var n, points := |reference|, RankPoints(reference, reference);
    SameEventPoints(reference, reference);
    PointsAt(reference, reference, reference, n + 1);
    forall k | 0 <= k < n ensures points[k] == Point((1 + k) as real, (1 + k) as real) {
      RankAt(reference, k, n + 1);
    }
    StepsAreMonotone(points, 1, 1, true);
  }

  lemma ReversedPoints(reference: seq<string>)
    requires Distinct(reference)
    ensures |RankPoints(reference, Reversed(reference))| == |reference|
    ensures Monotone(RankPoints(reference, Reversed(reference)), false)
  {
    var n, system := |reference|, Reversed(reference);
    var points := RankPoints(reference, system);
    ReversedItems(reference);
    ReversedAt(reference);
    SameEventPoints(reference, system);
    PointsAt(reference, system, reference, n + 1);
    forall k | 0 <= k < n ensures points[k] == Point((1 + k) as real, (n - k) as real) {
      RankAt(reference, k, n + 1);
      RankAt(system, n - 1 - k, n + 1);
    }
    StepsAreMonotone(points, 1, n, false);
  }

  /** Two or more distinct events in the reference order have coefficient one,
      and score exactly one. */
  lemma ReferenceOrderScoresOne(reference: seq<string>, tau: real)
    requires Distinct(reference) && |reference| >= 2
    ensures Correlates(reference, reference, tau) <==> tau == 1.0
    ensures ScoreOf(reference, reference, 1.0).final == 1.0
  {
    ReferencePoints(reference);
    UniformTally(RankPoints(reference, reference), true);
    UniformTau(PairsOf(|reference|), true, tau);
    SameEventsMatchFully(reference, reference);
  }

  /** Their reversal has coefficient minus one, and scores exactly zero. */
  lemma ReversalScoresZero(reference: seq<string>, tau: real)
    requires Distinct(reference) && |reference| >= 2
    ensures Correlates(reference, Reversed(reference), tau) <==> tau == -1.0
    ensures ScoreOf(reference, Reversed(reference), -1.0).final == 0.0
    ensures ScoreOf(reference, Reversed(reference), -1.0).f1 == 1.0
  {
    var system := Reversed(reference);
    ReversedItems(reference);
    ReversedPoints(reference);
    UniformTally(RankPoints(reference, system), false);
    UniformTau(PairsOf(|reference|), false, tau);
    SameEventsMatchFully(reference, system);
  }

  // ---- the whole score ----

  /** Everything of a score but the final root: precision, recall, and the pair
      counts of both rankings over `pairs` pairs. */
  datatype Parts = Parts(precision: real, recall: real, counts: Counts, pairs: nat)

  ghost predicate Finishes(parts: Parts, tau: real, score: Score) {
    && 0.0 <= parts.precision <= 1.0 && 0.0 <= parts.recall <= 1.0
    && IsTau(tau, parts.counts, parts.pairs)
    && score == ScoreFrom(parts.precision, parts.recall, tau)
  }

  /** The parts of the score of an aligned list. */
  ghost predicate PartsOf(parts: Parts, reference: seq<string>, aligned: seq<string>) {
    && parts.precision == Precision(reference, aligned)
    && parts.recall == Recall(reference, aligned)
    && parts.counts == Tally(RankPoints(reference, aligned))
    && parts.pairs == PairsOf(|RankPoints(reference, aligned)|)
  }

  /** Every score these parts finish to has this final value, and there is one. */
  ghost predicate FinishesAt(parts: Parts, tau: real, final: real) {
    && (exists score :: Finishes(parts, tau, score))
    && forall t, score :: Finishes(parts, t, score) ==> t == tau && score.final == final
  }

  /** Aligns, compares and ranks. The parts are those of the aligned list, which
      uses every reference event at most once. Whatever the judge says, the score
      they finish to lies in range; when same means equal, the reference order of
      two or more distinct events scores one, and its reversal zero. */
  method EventOrdering(judge: Equivalence, reference: seq<string>, system: seq<string>)
    returns (parts: Parts, ghost aligned: seq<string>, ghost matched: seq<Option<nat>>)
    modifies judge
    ensures |aligned| == |system| && Aligned(reference, system, aligned, matched)
    ensures forall same :: Decides(judge.says, same) ==> Greedy(same, reference, system, matched)
    ensures PartsOf(parts, reference, aligned)
    ensures forall tau, score :: Finishes(parts, tau, score) ==> InUnit(score)
    ensures Decides(judge.says, Equal) ==> aligned == system
    ensures Decides(judge.says, Equal) && Distinct(reference) && |reference| >= 2 && system == reference ==>
      FinishesAt(parts, 1.0, 1.0)
    ensures Decides(judge.says, Equal) && Distinct(reference) && |reference| >= 2 && system == Reversed(reference) ==>
      FinishesAt(parts, -1.0, 0.0)
  {
    var canon;
    canon, matched := Align(judge, reference, system);
    aligned := canon;
    var points := RankPoints(reference, canon);
    var counts := CountPairs(points);
    parts := Parts(Precision(reference, canon), Recall(reference, canon), counts, PairsOf(|points|));
    if Decides(judge.says, Equal) { EqualityKeepsTheSystem(reference, system, canon, matched); }
    forall tau, score | Finishes(parts, tau, score) ensures InUnit(score) {
      ScoresAreInRange(reference, canon, tau);
    }
    if Decides(judge.says, Equal) && Distinct(reference) && |reference| >= 2 {
      if system == reference { ReferenceFinishes(reference, parts); }
      if system == Reversed(reference) { ReversalFinishes(reference, parts); }
    }
  }

  lemma ReferenceFinishes(reference: seq<string>, parts: Parts)
    requires Distinct(reference) && |reference| >= 2 && PartsOf(parts, reference, reference)
    ensures FinishesAt(parts, 1.0, 1.0)
  {
    SameEventsMatchFully(reference, reference);
    ReferenceOrderScoresOne(reference, 1.0);
    assert Finishes(parts, 1.0, ScoreOf(reference, reference, 1.0));
    forall t, score | Finishes(parts, t, score) ensures t == 1.0 && score.final == 1.0 {
      ReferenceOrderScoresOne(reference, t);
    }
  }

  lemma ReversalFinishes(reference: seq<string>, parts: Parts)
    requires Distinct(reference) && |reference| >= 2 && PartsOf(parts, reference, Reversed(reference))
    ensures FinishesAt(parts, -1.0, 0.0)
  {
    ReversedItems(reference);
    SameEventsMatchFully(reference, Reversed(reference));
    ReversalScoresZero(reference, -1.0);
    assert Finishes(parts, -1.0, ScoreOf(reference, Reversed(reference), -1.0));
    forall t, score | Finishes(parts, t, score) ensures t == -1.0 && score.final == 0.0 {
      ReversalScoresZero(reference, t);
    }
  }
}
