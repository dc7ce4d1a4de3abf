// Kendall's tau-b from pair counts, without square roots.

module Kendall {
  import opened Sums

  /** One item's rank in both rankings. */
  datatype Point = Point(x: real, y: real)

  /** Concordant, discordant, tied in x, tied in y, and tied in both. A pair tied
      in both rankings is also counted in either tie correction. */
  datatype Counts = Counts(concordant: nat, discordant: nat, tiesX: nat, tiesY: nat, both: nat)

  function NoPairs(): Counts { Counts(0, 0, 0, 0, 0) }

  function Plus(a: Counts, b: Counts): Counts {
    Counts(a.concordant + b.concordant, a.discordant + b.discordant, a.tiesX + b.tiesX, a.tiesY + b.tiesY,
      a.both + b.both)
  }

  /** What one pair adds. */
  function Pair(p: Point, q: Point): Counts {
    if p.x == q.x && p.y == q.y then Counts(0, 0, 1, 1, 1)
    else if p.x == q.x then Counts(0, 0, 1, 0, 0)
    else if p.y == q.y then Counts(0, 0, 0, 1, 0)
    else if (p.x < q.x) == (p.y < q.y) then Counts(1, 0, 0, 0, 0)
    else Counts(0, 1, 0, 0, 0)
  }

  function Row(p: Point, rest: seq<Point>): Counts {
    if rest == [] then NoPairs() else Plus(Pair(p, rest[0]), Row(p, rest[1..]))
  }

  /** All pairs of a list of points. */
  function Tally(points: seq<Point>): Counts {
    if points == [] then NoPairs() else Plus(Row(points[0], points[1..]), Tally(points[1..]))
  }

  /** The number of pairs of `n` items. */
  function PairsOf(n: nat): nat {
    if n == 0 then 0 else PairsOf(n - 1) + (n - 1)
  }

  lemma {:induction false} PairsAreHalf(n: nat)
    ensures 2 * PairsOf(n) == n * (n - 1)
  {
    if n > 0 {
      PairsAreHalf(n - 1);
      assert n * (n - 1) == (n - 1) * (n - 2) + 2 * (n - 1);
    }
  }

  // ---- the counting loops ----

  lemma {:induction false} RowSnoc(p: Point, rest: seq<Point>, q: Point)
    ensures Row(p, rest + [q]) == Plus(Row(p, rest), Pair(p, q))
  {
    if rest == [] {
      assert rest + [q] == [q] && [q][1..] == [];
    } else {
      assert (rest + [q])[1..] == rest[1..] + [q];
      RowSnoc(p, rest[1..], q);
    }
  }

  /** One pair of items, by the signs of their differences. */
  method CountPair(p: Point, q: Point, before: Counts) returns (counts: Counts)
    ensures counts == Plus(before, Pair(p, q))
  {
    var dx, dy := p.x - q.x, p.y - q.y;
    if dx == 0.0 && dy == 0.0 {
      return before.(tiesX := before.tiesX + 1, tiesY := before.tiesY + 1, both := before.both + 1);
    } else if dx == 0.0 {
      return before.(tiesX := before.tiesX + 1);
    } else if dy == 0.0 {
      return before.(tiesY := before.tiesY + 1);
    }
    if dx * dy > 0.0 {
      return before.(concordant := before.concordant + 1);
    }
    counts := before.(discordant := before.discordant + 1);
  }

  lemma PlusNothing(c: Counts)
    ensures Plus(NoPairs(), c) == c && Plus(c, NoPairs()) == c
  {
  }

  lemma SliceGrows(points: seq<Point>, lo: nat, hi: nat)
    requires lo <= hi < |points|
    ensures points[lo..hi] + [points[hi]] == points[lo..hi + 1]
  {
  }

  lemma RowGrows(points: seq<Point>, i: nat, j: nat, before: Counts)
    requires i < j < |points|
    ensures Plus(Plus(before, Row(points[i], points[i + 1..j])), Pair(points[i], points[j]))
         == Plus(before, Row(points[i], points[i + 1..j + 1]))
  {
    var p, q, rest := points[i], points[j], points[i + 1..j];
    SliceGrows(points, i + 1, j);
    RowSnoc(p, rest, q);
  }

  /** The inner loop: one item against all later ones. */
  method CountRow(points: seq<Point>, i: nat, before: Counts) returns (counts: Counts)
    requires i < |points|
    ensures counts == Plus(before, Row(points[i], points[i + 1..]))
  {
    counts := before;
    assert points[i + 1..i + 1] == [];
    for j := i + 1 to |points|
      invariant counts == Plus(before, Row(points[i], points[i + 1..j]))
    {
      RowGrows(points, i, j, before);
      counts := CountPair(points[i], points[j], counts);
    }
    assert points[i + 1..|points|] == points[i + 1..];
  }

  /** Counts every pair once, by the signs of the two differences. */
  method CountPairs(points: seq<Point>) returns (counts: Counts)
    ensures counts == Tally(points)
  {
    counts := NoPairs();
    PlusNothing(Tally(points));
    assert points[0..] == points;
    for i := 0 to |points|
      invariant Plus(counts, Tally(points[i..])) == Tally(points)
    {
      TallyTail(points, i, counts);
      counts := CountRow(points, i, counts);
    }
    assert Tally(points[|points|..]) == NoPairs();
    PlusNothing(counts);
  }

  lemma TallyTail(points: seq<Point>, i: nat, before: Counts)
    requires i < |points|
    ensures Plus(Plus(before, Row(points[i], points[i + 1..])), Tally(points[i + 1..]))
      == Plus(before, Tally(points[i..]))
  {
    var p, rest := points[i], points[i + 1..];
    SliceTail(points, i);
  }

  // ---- counts partition the pairs ----

  ghost predicate Partitions(c: Counts, pairs: nat) {
    && c.concordant + c.discordant + c.tiesX + c.tiesY == pairs + c.both
    && c.both <= c.tiesX
    && c.both <= c.tiesY
  }

  lemma {:induction false} RowPartitions(p: Point, rest: seq<Point>)
    ensures Partitions(Row(p, rest), |rest|)
  {
    if rest != [] { RowPartitions(p, rest[1..]); }
  }

  /** Concordant, discordant and tied pairs are all the n(n-1)/2 pairs. */
  lemma {:induction false} CountsPartition(points: seq<Point>)
    ensures Partitions(Tally(points), PairsOf(|points|))
  {
    if points != [] {
      CountsPartition(points[1..]);
      RowPartitions(points[0], points[1..]);
    }
  }

  function Product(c: Counts, n0: int): int {
    (n0 - c.tiesX) * (n0 - c.tiesY)
  }

  function Difference(c: Counts): int {
    c.concordant - c.discordant
  }

  lemma BoundedDifference(e: int, a: int, u: int, v: int)
    requires -a <= e <= a && 0 <= a <= u && a <= v
    ensures e * e <= u * v
  {
  }

  ghost predicate Bounded(c: Counts, n0: int) {
    c.tiesX <= n0 && c.tiesY <= n0 && Difference(c) * Difference(c) <= Product(c, n0)
  }

  lemma PartitionIsBounded(c: Counts, n0: nat)
    requires Partitions(c, n0)
    ensures Bounded(c, n0)
  {
    BoundedDifference(Difference(c), c.concordant + c.discordant, n0 - c.tiesX, n0 - c.tiesY);
  }

  /** (C - D)^2 never exceeds (n0 - ties in x)(n0 - ties in y). */
  lemma TauIsBounded(points: seq<Point>)
    ensures Bounded(Tally(points), PairsOf(|points|))
  {
    CountsPartition(points);
    PartitionIsBounded(Tally(points), PairsOf(|points|));
  }

  // ---- symmetries ----

  function Swap(c: Counts): Counts {
    c.(tiesX := c.tiesY, tiesY := c.tiesX)
  }

  function Flip(c: Counts): Counts {
    c.(concordant := c.discordant, discordant := c.concordant)
  }

  function SwapPoint(p: Point): Point { Point(p.y, p.x) }

  function NegatePoint(p: Point): Point { Point(p.x, -p.y) }

  function Swapped(points: seq<Point>): seq<Point> {
    if points == [] then [] else [SwapPoint(points[0])] + Swapped(points[1..])
  }

  function Negated(points: seq<Point>): seq<Point> {
    if points == [] then [] else [NegatePoint(points[0])] + Negated(points[1..])
  }

  lemma PlusSwaps(a: Counts, b: Counts)
    ensures Swap(Plus(a, b)) == Plus(Swap(a), Swap(b))
  {
  }

  lemma PairNegates(p: Point, q: Point)
    ensures Pair(NegatePoint(p), NegatePoint(q)) == Flip(Pair(p, q))
  {
  }

  lemma RowCons(p: Point, q: Point, rest: seq<Point>)
    ensures Row(p, [q] + rest) == Plus(Pair(p, q), Row(p, rest))
  {
    assert ([q] + rest)[1..] == rest;
  }

  lemma {:induction false} RowSwaps(p: Point, rest: seq<Point>)
    ensures Row(SwapPoint(p), Swapped(rest)) == Swap(Row(p, rest))
  {
    if rest != [] {
      RowSwaps(p, rest[1..]);
      RowCons(SwapPoint(p), SwapPoint(rest[0]), Swapped(rest[1..]));
      PlusSwaps(Pair(p, rest[0]), Row(p, rest[1..]));
    }
  }

  /** Exchanging the rankings exchanges the tie corrections and nothing else. */
  lemma {:induction false} TauIsSymmetric(points: seq<Point>)
    ensures Tally(Swapped(points)) == Swap(Tally(points)) && |Swapped(points)| == |points|
  {
    if points != [] {
      TauIsSymmetric(points[1..]);
      RowSwaps(points[0], points[1..]);
      PlusSwaps(Row(points[0], points[1..]), Tally(points[1..]));
    }
  }

  lemma {:induction false} RowNegates(p: Point, rest: seq<Point>)
    ensures Row(NegatePoint(p), Negated(rest)) == Flip(Row(p, rest))
  {
    if rest != [] {
      RowNegates(p, rest[1..]);
      RowCons(NegatePoint(p), NegatePoint(rest[0]), Negated(rest[1..]));
      PairNegates(p, rest[0]);
    }
  }

  /** Negating one ranking exchanges concordant and discordant pairs. */
  lemma {:induction false} TauNegates(points: seq<Point>)
    ensures Tally(Negated(points)) == Flip(Tally(points)) && |Negated(points)| == |points|
  {
    if points != [] {
      TauNegates(points[1..]);
      RowNegates(points[0], points[1..]);
    }
  }

  lemma PairIsSymmetric(p: Point, q: Point)
    ensures Pair(p, q) == Pair(q, p)
  {
  }

  lemma PlusExchanges(a: Counts, b: Counts, c: Counts)
    ensures Plus(a, Plus(b, c)) == Plus(b, Plus(a, c))
  {
  }

  lemma {:induction false} RowRemove(p: Point, rest: seq<Point>, k: nat)
    requires k < |rest|
    ensures Row(p, rest) == Plus(Pair(p, rest[k]), Row(p, Without(rest, k)))
  {
    if k == 0 {
      WithoutFirst(rest);
    } else {
      RowRemove(p, rest[1..], k - 1);
      WithoutLater(rest, k);
      RowCons(p, rest[0], Without(rest[1..], k - 1));
      PlusExchanges(Pair(p, rest[0]), Pair(p, rest[k]), Row(p, Without(rest[1..], k - 1)));
    }
  }

  lemma PlusRegroups(a: Counts, b: Counts, c: Counts, d: Counts)
    ensures Plus(Plus(a, b), Plus(c, d)) == Plus(Plus(a, c), Plus(b, d))
  {
  }

  /** Any point may be counted first. */
  lemma {:induction false} TallyRemove(points: seq<Point>, k: nat)
    requires k < |points|
    ensures Tally(points) == Plus(Row(points[k], Without(points, k)), Tally(Without(points, k)))
  {
    if k == 0 {
      WithoutFirst(points);
    } else {
      var p, q, rest, left := points[0], points[k], points[1..], Without(points[1..], k - 1);
      TallyRemove(rest, k - 1);
      RowRemove(p, rest, k - 1);
      PairIsSymmetric(p, q);
      WithoutLater(points, k);
      RowCons(q, p, left);
      PlusRegroups(Pair(p, q), Row(p, left), Row(q, left), Tally(left));
    }
  }

  lemma {:induction false} RowPermutes(p: Point, s: seq<Point>, t: seq<Point>)
    requires multiset(s) == multiset(t)
    ensures Row(p, s) == Row(p, t)
    decreases |s|
  {
    if s == [] {
      assert |multiset(t)| == 0;
    } else {
      var k := PermutedIndex(s, t);
      RowRemove(p, t, k);
      RowPermutes(p, s[1..], Without(t, k));
    }
  }

  /** Permuting both rankings together changes no count. */
  lemma {:induction false} TauIgnoresOrder(s: seq<Point>, t: seq<Point>)
    requires multiset(s) == multiset(t)
    ensures Tally(s) == Tally(t)
    decreases |s|
  {
    if s == [] {
      assert |multiset(t)| == 0;
    } else {
      var k := PermutedIndex(s, t);
      var left := Without(t, k);
      TallyRemove(t, k);
      TauIgnoresOrder(s[1..], left);
      RowPermutes(s[0], s[1..], left);
    }
  }

  // ---- the coefficient ----

  /** `tau` is the quotient of `e` by the root of `p`, or zero without a
      denominator. */
  ghost predicate IsQuotient(tau: real, e: int, p: int) {
    if p <= 0 then tau == 0.0
    else
      && tau * tau * p as real == (e * e) as real
      && (e >= 0 ==> tau >= 0.0)
      && (e <= 0 ==> tau <= 0.0)
  }

  /** `tau` is the coefficient of these counts over n0 pairs. */
  ghost predicate IsTau(tau: real, c: Counts, n0: int) {
    IsQuotient(tau, Difference(c), Product(c, n0))
  }

  lemma LargerSquare(a: real, b: real)
    requires a > b >= 0.0
    ensures a * a > b * b
  {
    var d := a - b;
    assert a * a == b * b + d * (a + b);
  }

  lemma SquareOrder(a: real, b: real)
    requires a >= 0.0 && b >= 0.0 && a * a <= b * b
    ensures a <= b
  {
    if a > b { LargerSquare(a, b); }
  }

  lemma BoundedInRange(tau: real, c: Counts, n0: int)
    requires Bounded(c, n0) && IsTau(tau, c, n0)
    ensures -1.0 <= tau <= 1.0
  {
  }

  /** The coefficient lies between -1 and 1. */
  lemma TauInRange(points: seq<Point>, tau: real)
    requires IsTau(tau, Tally(points), PairsOf(|points|))
    ensures -1.0 <= tau <= 1.0
  {
    TauIsBounded(points);
    BoundedInRange(tau, Tally(points), PairsOf(|points|));
  }

  /** The counts determine the coefficient. */
  lemma TauIsUnique(e: int, p: int, tau: real, other: real)
    requires IsQuotient(tau, e, p) && IsQuotient(other, e, p)
    ensures tau == other
  {
    if p > 0 {
      if e >= 0 {
        SquareOrder(tau, other);
        SquareOrder(other, tau);
      } else {
        SquareOrder(-tau, -other);
        SquareOrder(-other, -tau);
      }
    }
  }

  lemma FlippedTau(tau: real, c: Counts, n0: int)
    requires IsTau(tau, c, n0)
    ensures IsTau(-tau, Flip(c), n0)
  {
    assert Product(Flip(c), n0) == Product(c, n0) && Difference(Flip(c)) == -Difference(c);
  }

  /** Negating one ranking negates the coefficient. */
  lemma NegationNegatesTau(points: seq<Point>, tau: real)
    requires IsTau(tau, Tally(points), PairsOf(|points|))
    ensures IsTau(-tau, Tally(Negated(points)), PairsOf(|Negated(points)|))
  {
    TauNegates(points);
    FlippedTau(tau, Tally(points), PairsOf(|points|));
  }

  lemma SwappedTau(tau: real, c: Counts, n0: int)
    requires IsTau(tau, c, n0)
    ensures IsTau(tau, Swap(c), n0)
  {
    assert Product(Swap(c), n0) == Product(c, n0) && Difference(Swap(c)) == Difference(c);
  }

  /** Exchanging the rankings keeps the coefficient. */
  lemma SymmetryKeepsTau(points: seq<Point>, tau: real)
    requires IsTau(tau, Tally(points), PairsOf(|points|))
    ensures IsTau(tau, Tally(Swapped(points)), PairsOf(|Swapped(points)|))
  {
    TauIsSymmetric(points);
    SwappedTau(tau, Tally(points), PairsOf(|points|));
  }

  /** Permuting both rankings together keeps the coefficient. */
  lemma OrderKeepsTau(s: seq<Point>, t: seq<Point>, tau: real)
    requires multiset(s) == multiset(t) && IsTau(tau, Tally(s), PairsOf(|s|))
    ensures IsTau(tau, Tally(t), PairsOf(|t|))
  {
    TauIgnoresOrder(s, t);
    assert |s| == |multiset(s)| == |multiset(t)| == |t|;
  }

  // ---- when the coefficient is one, or minus one ----

  /** Both rankings order this pair alike. */
  predicate SameOrder(p: Point, q: Point) {
    (p.x < q.x <==> p.y < q.y) && (p.x > q.x <==> p.y > q.y)
  }

  /** Both rankings order all items alike. */
  ghost predicate Alike(points: seq<Point>) {
    forall i, j :: 0 <= i < j < |points| ==> SameOrder(points[i], points[j])
  }

  /** No discordant pair, and none tied in just one of the rankings. */
  predicate Pure(c: Counts) {
    c.discordant == 0 && c.tiesX == c.both && c.tiesY == c.both
  }

  lemma PurePlus(a: Counts, b: Counts)
    requires a.both <= a.tiesX && a.both <= a.tiesY && b.both <= b.tiesX && b.both <= b.tiesY
    ensures Pure(Plus(a, b)) <==> Pure(a) && Pure(b)
  {
  }

  lemma {:induction false} PureRow(p: Point, rest: seq<Point>)
    ensures Pure(Row(p, rest)) <==> forall k :: 0 <= k < |rest| ==> SameOrder(p, rest[k])
  {
    if rest != [] {
      PureRow(p, rest[1..]);
      RowPartitions(p, rest[1..]);
      PurePlus(Pair(p, rest[0]), Row(p, rest[1..]));
      assert forall k :: 0 < k < |rest| ==> rest[k] == rest[1..][k - 1];
      assert Pure(Pair(p, rest[0])) <==> SameOrder(p, rest[0]);
    }
  }

  lemma {:induction false} PureTally(points: seq<Point>)
    ensures Pure(Tally(points)) <==> Alike(points)
  {
    if points != [] {
      var p, rest := points[0], points[1..];
      PureTally(rest);
      PureRow(p, rest);
      RowPartitions(p, rest);
      CountsPartition(rest);
      PurePlus(Row(p, rest), Tally(rest));
      assert forall k :: 0 < k < |points| ==> points[k] == rest[k - 1];
    }
  }

  lemma ProductSign(a: int, b: int)
    requires a >= 0 && b >= 0
    ensures a * b >= 0 && (a > 0 && b > 0 ==> a * b > 0)
  {
  }

  lemma SquareParts(c: int, d: int, a: int, b: int)
    ensures (c + d + a) * (c + d + b) == (c + d) * (c + d) + (c + d) * (a + b) + a * b
    ensures (c + d) * (c + d) == (c - d) * (c - d) + 4 * (c * d)
  {
  }

  /** A square of a difference that equals a product of larger sums leaves no room. */
  lemma FullProduct(c: int, d: int, a: int, b: int)
    requires c > d >= 0 && a >= 0 && b >= 0
    requires (c - d) * (c - d) == (c + d + a) * (c + d + b)
    ensures d == 0 && a == 0 && b == 0
  {
    SquareParts(c, d, a, b);
    ProductSign(c, d);
    ProductSign(a, b);
    ProductSign(c + d, a + b);
  }

  lemma OneIsQuotient(e: int, p: int)
    requires p > 0
    ensures IsQuotient(1.0, e, p) <==> e > 0 && e * e == p
  {
    assert 1.0 * 1.0 * p as real == p as real;
    if e == 0 { assert e * e == 0; }
  }

  /** With a denominator, the coefficient is one if and only if no pair is
      discordant or tied in just one ranking. */
  lemma OneIffPure(c: Counts, n0: nat, tau: real)
    requires Partitions(c, n0) && IsTau(tau, c, n0) && Product(c, n0) > 0
    ensures tau == 1.0 <==> Pure(c)
  {
    var x, y := c.tiesX - c.both, c.tiesY - c.both;
    var e, p := Difference(c), Product(c, n0);
    assert n0 - c.tiesX == c.concordant + c.discordant + y && n0 - c.tiesY == c.concordant + c.discordant + x;
    OneIsQuotient(e, p);
    if IsQuotient(1.0, e, p) {
      TauIsUnique(e, p, tau, 1.0);
      FullProduct(c.concordant, c.discordant, y, x);
    }
  }

  /** The first ranking does not tie all items. */
  ghost predicate Varies(points: seq<Point>) {
    exists i, j :: 0 <= i < j < |points| && points[i].x != points[j].x
  }

  lemma {:induction false} PureRowConcords(p: Point, rest: seq<Point>)
    requires forall k :: 0 <= k < |rest| ==> SameOrder(p, rest[k])
    ensures Row(p, rest).concordant > 0 <==> exists k :: 0 <= k < |rest| && p.x != rest[k].x
  {
    if rest != [] {
      assert forall k :: 0 < k < |rest| ==> rest[k] == rest[1..][k - 1];
      PureRowConcords(p, rest[1..]);
      assert SameOrder(p, rest[0]);
      if k :| 0 <= k < |rest[1..]| && p.x != rest[1..][k].x { assert p.x != rest[k + 1].x; }
    }
  }

  lemma {:induction false} PureConcords(points: seq<Point>)
    requires Alike(points)
    ensures Tally(points).concordant > 0 <==> Varies(points)
  {
    if points != [] {
      var p, rest := points[0], points[1..];
      assert forall k :: 0 < k < |points| ==> points[k] == rest[k - 1];
      PureRowConcords(p, rest);
      PureConcords(rest);
      if i, j :| 0 <= i < j < |rest| && rest[i].x != rest[j].x { assert points[i + 1].x != points[j + 1].x; }
      if k :| 0 <= k < |rest| && p.x != rest[k].x { assert points[0].x != points[k + 1].x; }
      if Varies(points) {
        var i, j :| 0 <= i < j < |points| && points[i].x != points[j].x;
        if i == 0 { assert p.x != rest[j - 1].x; } else { assert rest[i - 1].x != rest[j - 1].x; }
      }
    }
  }

  lemma PureProduct(c: Counts, n0: nat)
    requires Partitions(c, n0) && Pure(c)
    ensures Product(c, n0) > 0 <==> c.concordant > 0
  {
    SquareSign(n0 - c.tiesX, n0 - c.tiesY);
  }

  lemma SquareSign(u: int, v: int)
    requires u == v >= 0
    ensures u * v > 0 <==> u > 0
  {
    ProductSign(u, v);
  }

  /** The coefficient is one if and only if both rankings order all items alike,
      ties included, and do not tie them all. */
  lemma TauIsOneIff(points: seq<Point>, tau: real)
    requires IsTau(tau, Tally(points), PairsOf(|points|))
    ensures tau == 1.0 <==> Alike(points) && Varies(points)
  {
    var c, n0 := Tally(points), PairsOf(|points|);
    CountsPartition(points);
    PureTally(points);
    if Pure(c) {
      PureProduct(c, n0);
      PureConcords(points);
    }
    if Product(c, n0) > 0 { OneIffPure(c, n0, tau); }
  }

  predicate OtherOrder(p: Point, q: Point) {
    (p.x < q.x <==> p.y > q.y) && (p.x > q.x <==> p.y < q.y)
  }

  /** One ranking orders all items against the other. */
  ghost predicate Opposed(points: seq<Point>) {
    forall i, j :: 0 <= i < j < |points| ==> OtherOrder(points[i], points[j])
  }

  lemma {:induction false} NegatedAt(points: seq<Point>, k: nat)
    requires k < |points|
    ensures |Negated(points)| == |points| && Negated(points)[k] == NegatePoint(points[k])
  {
    if points != [] {
      if k > 0 {
        NegatedAt(points[1..], k - 1);
      } else {
        TauNegates(points);
      }
    }
  }

  /** The coefficients of these points: the one. */
  ghost function Taus(points: seq<Point>): iset<real> {
    iset tau | IsTau(tau, Tally(points), PairsOf(|points|))
  }

  lemma OneTau(points: seq<Point>, tau: real)
    requires tau in Taus(points)
    ensures tau == 1.0 <==> Alike(points) && Varies(points)
  {
    TauIsOneIff(points, tau);
  }

  lemma NegatedTau(points: seq<Point>, tau: real)
    requires tau in Taus(points)
    ensures -tau in Taus(Negated(points))
  {
    NegationNegatesTau(points, tau);
  }

  /** The coefficient is minus one if and only if one ranking orders all items
      against the other, ties included, and they are not all tied. */
  lemma TauIsMinusOneIff(points: seq<Point>, tau: real)
    requires tau in Taus(points)
    ensures tau == -1.0 <==> Opposed(points) && Varies(points)
  {
    NegatedTau(points, tau);
    OneTau(Negated(points), -tau);
    NegatedOrder(points);
  }

  lemma NegatedOrder(points: seq<Point>)
    ensures Alike(Negated(points)) <==> Opposed(points)
    ensures Varies(Negated(points)) <==> Varies(points)
  {
    var other := Negated(points);
    TauNegates(points);
    forall k | 0 <= k < |points| ensures other[k] == NegatePoint(points[k]) { NegatedAt(points, k); }
    OrderNegated(points, other);
  }

  lemma OrderNegated(points: seq<Point>, other: seq<Point>)
    requires |other| == |points| && forall k :: 0 <= k < |points| ==> other[k] == NegatePoint(points[k])
    ensures Alike(other) <==> Opposed(points)
    ensures Varies(other) <==> Varies(points)
  {
    forall i, j | 0 <= i < j < |points|
      ensures SameOrder(other[i], other[j]) <==> OtherOrder(points[i], points[j])
      ensures other[i].x != other[j].x <==> points[i].x != points[j].x
    {
    }
  }
}
