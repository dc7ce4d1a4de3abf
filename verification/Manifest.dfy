// The development manifest: twenty questions, apportioned over the categories
// by largest remainders.

module Manifest {
  import opened Arithmetic
  import opened Orders

  datatype Item = Item(id: string, category: int)

  const SLOTS := 20

  // ---- counting ----

  function Count(questions: seq<Item>, c: int): nat {
    if questions == [] then 0
    else Count(questions[..|questions| - 1], c) + if questions[|questions| - 1].category == c then 1 else 0
  }

  predicate Ascends(categories: seq<int>) {
    forall i, j :: 0 <= i < j < |categories| ==> categories[i] < categories[j]
  }

  /** The categories that occur, in ascending order. */
  ghost predicate AreCategories(categories: seq<int>, questions: seq<Item>) {
    Ascends(categories) && forall c :: c in categories <==> Count(questions, c) > 0
  }

  function SumCounts(categories: seq<int>, questions: seq<Item>): nat {
    if categories == [] then 0 else Count(questions, categories[0]) + SumCounts(categories[1..], questions)
  }

  lemma {:induction false} CountsOfNone(categories: seq<int>)
    ensures SumCounts(categories, []) == 0
  {
    if categories != [] { CountsOfNone(categories[1..]); }
  }

  lemma {:induction false} CountsGrow(categories: seq<int>, questions: seq<Item>, q: Item)
    requires Ascends(categories)
    ensures SumCounts(categories, questions + [q])
         == SumCounts(categories, questions) + if q.category in categories then 1 else 0
  {
    assert (questions + [q])[..|questions|] == questions;
    if categories != [] {
      assert categories == [categories[0]] + categories[1..];
      if q.category == categories[0] {
        assert q.category !in categories[1..];
      }
      CountsGrow(categories[1..], questions, q);
    }
  }

  /** The categories' counts add up to all questions. */
  lemma {:induction false} CountsAreTotal(categories: seq<int>, questions: seq<Item>)
    requires Ascends(categories) && forall q :: q in questions ==> q.category in categories
    ensures SumCounts(categories, questions) == |questions|
    decreases |questions|
  {
    if questions == [] {
      CountsOfNone(categories);
    } else {
      var init, q := questions[..|questions| - 1], questions[|questions| - 1];
      assert questions == init + [q];
      CountsAreTotal(categories, init);
      CountsGrow(categories, init, q);
    }
  }

  lemma {:induction false} CountedCategory(questions: seq<Item>, c: int)
    ensures Count(questions, c) > 0 <==> exists q :: q in questions && q.category == c
  {
    if questions != [] {
      var init, q := questions[..|questions| - 1], questions[|questions| - 1];
      CountedCategory(init, c);
      assert questions == init + [q];
    }
  }

  // ---- quotas ----

  /** What the spare slots share of a category comes to, and what is left of it,
      in units of one total-th of a slot. */
  function Whole(spare: nat, count: nat, total: nat): nat
    requires total > 0
  {
    spare * count / total
  }

  function Left(spare: nat, count: nat, total: nat): nat
    requires total > 0
  {
    spare * count % total
  }

  lemma WholeAndLeft(spare: nat, count: nat, total: nat)
    requires total > 0
    ensures spare * count == Whole(spare, count, total) * total + Left(spare, count, total)
    ensures Left(spare, count, total) < total
  {
  }

  datatype Remainder = Remainder(part: nat, category: int)

  /** Larger remainders first, then smaller categories. */
  predicate Ahead(a: Remainder, b: Remainder) {
    a.part > b.part || (a.part == b.part && a.category <= b.category)
  }

  lemma AheadIsOrder()
    ensures TotalPreorder(Ahead)
  {
  }

  /** The categories' remainders, in category order. */
  function Remainders(categories: seq<int>, questions: seq<Item>, spare: nat, total: nat): (r: seq<Remainder>)
    requires total > 0
    ensures |r| == |categories|
  {
    if categories == [] then []
    else [Remainder(Left(spare, Count(questions, categories[0]), total), categories[0])]
         + Remainders(categories[1..], questions, spare, total)
  }

  function SumWholes(categories: seq<int>, questions: seq<Item>, spare: nat, total: nat): nat
    requires total > 0
  {
    if categories == [] then 0
    else Whole(spare, Count(questions, categories[0]), total) + SumWholes(categories[1..], questions, spare, total)
  }

  function SumParts(rs: seq<Remainder>): nat {
    if rs == [] then 0 else rs[0].part + SumParts(rs[1..])
  }

  function Positives(rs: seq<Remainder>): nat {
    if rs == [] then 0 else (if rs[0].part > 0 then 1 else 0) + Positives(rs[1..])
  }

  /** Whole shares and remainders together are the spare slots' full quota. */
  lemma {:induction false} SharesAddUp(categories: seq<int>, questions: seq<Item>, spare: nat, total: nat)
    requires total > 0
    ensures SumWholes(categories, questions, spare, total) * total
          + SumParts(Remainders(categories, questions, spare, total))
         == spare * SumCounts(categories, questions)
  {
    if categories != [] {
      var c, rest := categories[0], categories[1..];
      SharesAddUp(rest, questions, spare, total);
      WholeAndLeft(spare, Count(questions, c), total);
      Distribute(total, Whole(spare, Count(questions, c), total), SumWholes(rest, questions, spare, total));
      Distribute(spare, Count(questions, c), SumCounts(rest, questions));
      assert Remainders(categories, questions, spare, total)[1..] == Remainders(rest, questions, spare, total);
    }
  }

  ghost predicate PartsBelow(rs: seq<Remainder>, total: nat) {
    forall r :: r in rs ==> r.part < total
  }

  lemma {:induction false} FewParts(rs: seq<Remainder>, total: nat)
    requires PartsBelow(rs, total)
    ensures SumParts(rs) <= Positives(rs) * total
    ensures Positives(rs) > 0 ==> SumParts(rs) < Positives(rs) * total
  {
    if rs != [] {
      assert rs[0].part < total;
      FewParts(rs[1..], total);
      if rs[0].part > 0 { Distribute(total, 1, Positives(rs[1..])); }
    }
  }

  lemma {:induction false} RemaindersAt(categories: seq<int>, questions: seq<Item>, spare: nat, total: nat)
    requires total > 0
    ensures forall i :: 0 <= i < |categories| ==>
      Remainders(categories, questions, spare, total)[i]
      == Remainder(Left(spare, Count(questions, categories[i]), total), categories[i])
  {
    if categories != [] {
      RemaindersAt(categories[1..], questions, spare, total);
    }
  }

  lemma {:induction false} InsertPositives(r: Remainder, rs: seq<Remainder>)
    ensures Positives(Insert(Ahead, r, rs)) == Positives(rs) + if r.part > 0 then 1 else 0
  {
    if rs != [] && !Ahead(r, rs[0]) { InsertPositives(r, rs[1..]); }
  }

  lemma {:induction false} SortPositives(rs: seq<Remainder>)
    ensures Positives(SortBy(Ahead, rs)) == Positives(rs)
  {
    if rs != [] {
      SortPositives(rs[1..]);
      InsertPositives(rs[0], SortBy(Ahead, rs[1..]));
    }
  }

  lemma {:induction false} NoPositives(rs: seq<Remainder>)
    requires forall r :: r in rs ==> r.part == 0
    ensures Positives(rs) == 0
  {
    if rs != [] { NoPositives(rs[1..]); }
  }

  lemma {:induction false} PositivesOfPrefix(rs: seq<Remainder>, n: nat)
    requires n <= |rs| && forall k :: n <= k < |rs| ==> rs[k].part == 0
    ensures Positives(rs) <= n
  {
    if n == 0 {
      NoPositives(rs);
    } else {
      PositivesOfPrefix(rs[1..], n - 1);
    }
  }

  /** Among the first `n` of a sorted list with more than `n` positive remainders,
      all are positive. */
  lemma FrontIsPositive(rs: seq<Remainder>, n: nat, k: nat)
    requires Sorted(Ahead, rs) && k < n < Positives(rs) && n <= |rs|
    ensures rs[k].part > 0
  {
    if rs[k].part == 0 {
      forall j | k <= j < |rs| ensures rs[j].part == 0 {
        assert j == k || Ahead(rs[k], rs[j]);
      }
      PositivesOfPrefix(rs, k);
    }
  }

  // ---- the apportionment ----

  /** Each category's slots. */
  type Allocation = map<int, nat>

  /** The spare slots that whole shares leave over. */
  function LeftOver(categories: seq<int>, questions: seq<Item>, spare: nat, total: nat): int
    requires total > 0
  {
    spare - SumWholes(categories, questions, spare, total)
  }

  lemma FewerThanPositives(n: int, total: int, parts: nat, positives: nat)
    requires total > 0 && n * total == parts
    requires parts <= positives * total && (positives > 0 ==> parts < positives * total)
    ensures n >= 0 && (n > 0 ==> n < positives)
  {
    if n < 0 { NegativeTimes(n, total); }
    if n > 0 {
      NegativeTimes(-n, total);
      assert (-n) * total == -(n * total);
    }
  }

  lemma AllCounted(categories: seq<int>, questions: seq<Item>)
    requires AreCategories(categories, questions)
    ensures SumCounts(categories, questions) == |questions|
  {
    forall q | q in questions ensures q.category in categories {
      CountedCategory(questions, q.category);
    }
    CountsAreTotal(categories, questions);
  }

  lemma PartsAreBelow(categories: seq<int>, questions: seq<Item>, spare: nat, total: nat)
    requires total > 0
    ensures PartsBelow(Remainders(categories, questions, spare, total), total)
  {
    var rs := Remainders(categories, questions, spare, total);
    RemaindersAt(categories, questions, spare, total);
    forall r | r in rs ensures r.part < total {
      var i :| 0 <= i < |rs| && rs[i] == r;
      WholeAndLeft(spare, Count(questions, categories[i]), total);
    }
  }

  /** The left-over slots are never negative, and fewer than the categories with
      a remainder, unless there are none. */
  lemma LeftOverIsSmall(categories: seq<int>, questions: seq<Item>, spare: nat)
    requires AreCategories(categories, questions) && questions != []
    ensures
      var n := LeftOver(categories, questions, spare, |questions|);
      n >= 0 && (n > 0 ==> n < Positives(Remainders(categories, questions, spare, |questions|)))
  {
    var total := |questions|;
    var rs, wholes := Remainders(categories, questions, spare, total), SumWholes(categories, questions, spare, total);
    AllCounted(categories, questions);
    SharesAddUp(categories, questions, spare, total);
    Distribute(total, spare - wholes, wholes);
    PartsAreBelow(categories, questions, spare, total);
    FewParts(rs, total);
    FewerThanPositives(spare - wholes, total, SumParts(rs), Positives(rs));
  }

  lemma {:induction false} FewPositives(rs: seq<Remainder>)
    ensures Positives(rs) <= |rs|
  {
    if rs != [] { FewPositives(rs[1..]); }
  }

  function SumSlots(categories: seq<int>, slots: Allocation): nat {
    if categories == [] then 0
    else (if categories[0] in slots then slots[categories[0]] else 0) + SumSlots(categories[1..], slots)
  }

  lemma {:induction false} OtherSlots(categories: seq<int>, slots: Allocation, c: int, n: nat)
    requires c !in categories
    ensures SumSlots(categories, slots[c := n]) == SumSlots(categories, slots)
  {
    if categories != [] { OtherSlots(categories[1..], slots, c, n); }
  }

  lemma {:induction false} OneMoreSlot(categories: seq<int>, slots: Allocation, c: int)
    requires Ascends(categories) && c in categories && c in slots
    ensures SumSlots(categories, slots[c := slots[c] + 1]) == SumSlots(categories, slots) + 1
  {
    var rest := categories[1..];
    assert categories == [categories[0]] + rest;
    if c == categories[0] {
      assert c !in rest;
      OtherSlots(rest, slots, c, slots[c] + 1);
    } else {
      OneMoreSlot(rest, slots, c);
    }
  }

  lemma {:induction false} SlotsSnoc(categories: seq<int>, slots: Allocation, c: int, n: nat)
    requires c !in categories
    ensures SumSlots(categories + [c], slots[c := n]) == SumSlots(categories, slots) + n
  {
    if categories == [] {
      assert [] + [c] == [c] && [c][1..] == [];
    } else {
      assert (categories + [c])[1..] == categories[1..] + [c];
      SlotsSnoc(categories[1..], slots, c, n);
    }
  }

  lemma {:induction false} WholesSnoc(categories: seq<int>, questions: seq<Item>, spare: nat, total: nat, c: int)
    requires total > 0
    ensures SumWholes(categories + [c], questions, spare, total)
         == SumWholes(categories, questions, spare, total) + Whole(spare, Count(questions, c), total)
    ensures Remainders(categories + [c], questions, spare, total)
         == Remainders(categories, questions, spare, total) + [Remainder(Left(spare, Count(questions, c), total), c)]
  {
    if categories == [] {
      assert [] + [c] == [c] && [c][1..] == [];
    } else {
      assert (categories + [c])[1..] == categories[1..] + [c];
      WholesSnoc(categories[1..], questions, spare, total, c);
    }
  }

  /** One slot per category and its whole share of the spare ones. */
  method FirstSlots(categories: seq<int>, questions: seq<Item>, spare: nat)
    returns (slots: Allocation, remainders: seq<Remainder>)
    requires Ascends(categories) && questions != []
    ensures forall c :: c in slots <==> c in categories
    ensures forall c :: c in slots ==> slots[c] == 1 + Whole(spare, Count(questions, c), |questions|)
    ensures remainders == Remainders(categories, questions, spare, |questions|)
    ensures SumSlots(categories, slots) == |categories| + SumWholes(categories, questions, spare, |questions|)
  {
    var total := |questions|;
    slots, remainders := map[], [];
    for i := 0 to |categories|
      invariant forall c :: c in slots <==> c in categories[..i]
      invariant forall c :: c in slots ==> slots[c] == 1 + Whole(spare, Count(questions, c), total)
      invariant remainders == Remainders(categories[..i], questions, spare, total)
      invariant SumSlots(categories[..i], slots) == i + SumWholes(categories[..i], questions, spare, total)
    {
      var c := categories[i];
      var whole := spare * Count(questions, c) / total;
      assert categories[..i + 1] == categories[..i] + [c];
      WholesSnoc(categories[..i], questions, spare, total, c);
      SlotsSnoc(categories[..i], slots, c, 1 + whole);
      slots := slots[c := 1 + whole];
      remainders := remainders + [Remainder(spare * Count(questions, c) % total, c)];
    }
    assert categories[..|categories|] == categories;
  }

  ghost predicate DistinctCategories(rs: seq<Remainder>) {
    forall i, j :: 0 <= i < j < |rs| ==> rs[i].category != rs[j].category
  }

  /** The categories named by some remainders. */
  function Named(rs: seq<Remainder>): set<int> {
    set r | r in rs :: r.category
  }

  /** One more slot for each of the first `n` categories in order of remainder. */
  method BonusSlots(categories: seq<int>, slots0: Allocation, order: seq<Remainder>, n: nat) returns (slots: Allocation)
    requires Ascends(categories) && n <= |order|
    requires forall c :: c in slots0 <==> c in categories
    requires forall r :: r in order ==> r.category in categories
    requires DistinctCategories(order)
    ensures forall c :: c in slots <==> c in categories
    ensures forall c :: c in slots ==> slots[c] == slots0[c] + if c in Named(order[..n]) then 1 else 0
    ensures SumSlots(categories, slots) == SumSlots(categories, slots0) + n
  {
    slots := slots0;
    for i := 0 to n
      invariant forall c :: c in slots <==> c in categories
      invariant forall c :: c in slots ==> slots[c] == slots0[c] + if c in Named(order[..i]) then 1 else 0
      invariant SumSlots(categories, slots) == SumSlots(categories, slots0) + i
    {
      var c := order[i].category;
      assert order[i] in order;
      OneMoreSlot(categories, slots, c);
      slots := slots[c := slots[c] + 1];
    }
  }

  lemma {:induction false} RemainderCategories(categories: seq<int>, questions: seq<Item>, spare: nat, total: nat)
    requires total > 0 && Ascends(categories)
    ensures
      var rs := Remainders(categories, questions, spare, total);
      && (forall r :: r in rs ==> r.category in categories)
      && DistinctCategories(rs)
  {
    RemaindersAt(categories, questions, spare, total);
  }

  lemma {:induction false} InsertDistinct(r: Remainder, rs: seq<Remainder>)
    requires DistinctCategories(rs)
    requires forall x :: x in rs ==> x.category != r.category
    ensures
      var t := Insert(Ahead, r, rs);
      && DistinctCategories(t)
      && (forall x :: x in t <==> x == r || x in rs)
  {
    if rs != [] && !Ahead(r, rs[0]) {
      assert rs == [rs[0]] + rs[1..];
      InsertDistinct(r, rs[1..]);
      var t := Insert(Ahead, r, rs[1..]);
      forall k | 0 <= k < |t| ensures t[k].category != rs[0].category {
        assert t[k] in t;
        if t[k] != r {
          var m :| 0 <= m < |rs[1..]| && rs[1..][m] == t[k];
          assert rs[m + 1].category != rs[0].category;
        }
      }
    }
  }

  lemma {:induction false} SortDistinct(rs: seq<Remainder>)
    requires DistinctCategories(rs)
    ensures
      var t := SortBy(Ahead, rs);
      && DistinctCategories(t)
      && (forall x :: x in t <==> x in rs)
  {
    if rs != [] {
      assert rs == [rs[0]] + rs[1..];
      SortDistinct(rs[1..]);
      forall x | x in rs[1..] ensures x.category != rs[0].category {
        var m :| 0 <= m < |rs[1..]| && rs[1..][m] == x;
        assert rs[m + 1].category != rs[0].category;
      }
      InsertDistinct(rs[0], SortBy(Ahead, rs[1..]));
    }
  }

  // ---- what an apportionment promises ----

  /** A category's slots are one plus the floor or the ceiling of its quota. */
  predicate FloorOrCeiling(slots: nat, spare: nat, count: nat, total: nat)
    requires total > 0
  {
    var whole := Whole(spare, count, total);
    slots == 1 + whole || (slots == 2 + whole && Left(spare, count, total) > 0)
  }

  /** The remainders that win a left-over slot: the first ones in their order. */
  function Winners(categories: seq<int>, questions: seq<Item>): seq<Remainder>
    requires questions != [] && |categories| <= SLOTS
  {
    var spare := SLOTS - |categories|;
    var order := SortBy(Ahead, Remainders(categories, questions, spare, |questions|));
    var n := LeftOver(categories, questions, spare, |questions|);
    if 0 <= n <= |order| then order[..n] else []
  }

  /** A category's slots by largest remainder, from the category counts alone. */
  function Share(categories: seq<int>, questions: seq<Item>, c: int): nat
    requires questions != [] && |categories| <= SLOTS
  {
    1 + Whole(SLOTS - |categories|, Count(questions, c), |questions|)
    + if c in Named(Winners(categories, questions)) then 1 else 0
  }

  /** All slots are used, each category has its share and so its quota up to
      rounding, and a strictly larger category never has fewer slots. */
  ghost predicate Apportioned(categories: seq<int>, questions: seq<Item>, slots: Allocation)
    requires questions != [] && |categories| <= SLOTS
  {
    && (forall c :: c in slots <==> c in categories)
    && SumSlots(categories, slots) == SLOTS
    && (forall c :: c in categories ==> slots[c] == Share(categories, questions, c))
    && (forall c :: c in categories ==>
      FloorOrCeiling(slots[c], SLOTS - |categories|, Count(questions, c), |questions|))
    && (forall a, b :: a in categories && b in categories && Count(questions, a) > Count(questions, b) ==>
      slots[a] >= slots[b])
  }

  lemma BonusMeansRemainder(
      categories: seq<int>, questions: seq<Item>, spare: nat, order: seq<Remainder>, n: nat, c: int)
    requires questions != [] && Ascends(categories) && n <= |order|
    requires order == SortBy(Ahead, Remainders(categories, questions, spare, |questions|))
    requires n > 0 ==> n < Positives(order)
    requires c in Named(order[..n])
    ensures Left(spare, Count(questions, c), |questions|) > 0
  {
    var rs := Remainders(categories, questions, spare, |questions|);
    AheadIsOrder();
    SortSorted(Ahead, rs);
    var r :| r in order[..n] && r.category == c;
    var k :| 0 <= k < n && order[..n][k] == r;
    FrontIsPositive(order, n, k);
    RemainderCategories(categories, questions, spare, |questions|);
    SortDistinct(rs);
    assert order[k] == r && r in order;
    RemainderIs(categories, questions, spare, |questions|, r);
  }

  lemma RemainderIs(categories: seq<int>, questions: seq<Item>, spare: nat, total: nat, r: Remainder)
    requires total > 0 && r in Remainders(categories, questions, spare, total)
    ensures r.part == Left(spare, Count(questions, r.category), total) && r.category in categories
  {
    RemaindersAt(categories, questions, spare, total);
  }

  lemma RemainderFor(categories: seq<int>, questions: seq<Item>, spare: nat, total: nat, c: int)
    requires total > 0 && c in categories
    ensures Remainder(Left(spare, Count(questions, c), total), c) in Remainders(categories, questions, spare, total)
  {
    RemaindersAt(categories, questions, spare, total);
    var i :| 0 <= i < |categories| && categories[i] == c;
    assert Remainders(categories, questions, spare, total)[i] == Remainder(Left(spare, Count(questions, c), total), c);
  }

  /** A larger remainder wins a left-over slot before a smaller one, and of equal
      ones that of the smaller category. */
  lemma LargerWinsFirst(
      categories: seq<int>, questions: seq<Item>, spare: nat, order: seq<Remainder>, n: nat, a: int, b: int)
    requires questions != [] && Ascends(categories) && n <= |order|
    requires order == SortBy(Ahead, Remainders(categories, questions, spare, |questions|))
    requires a in categories && b in Named(order[..n])
    requires
      var one, other := Left(spare, Count(questions, a), |questions|), Left(spare, Count(questions, b), |questions|);
      one > other || (one == other && a < b)
    ensures a in Named(order[..n])
  {
    var total := |questions|;
    var rs := Remainders(categories, questions, spare, total);
    AheadIsOrder();
    SortSorted(Ahead, rs);
    RemainderCategories(categories, questions, spare, total);
    SortDistinct(rs);
    RemainderFor(categories, questions, spare, total, a);
    var ra := Remainder(Left(spare, Count(questions, a), total), a);
    var rb :| rb in order[..n] && rb.category == b;
    assert rb in order;
    RemainderIs(categories, questions, spare, total, rb);
    var i :| 0 <= i < |order| && order[i] == ra;
    var j :| 0 <= j < n && order[..n][j] == rb;
    assert order[..n][i] == ra;
  }

  lemma WholeGrows(spare: nat, a: nat, b: nat, total: nat)
    requires total > 0 && a >= b
    ensures Whole(spare, a, total) >= Whole(spare, b, total)
    ensures a > b && spare > 0 && Whole(spare, a, total) == Whole(spare, b, total) ==>
      Left(spare, a, total) > Left(spare, b, total)
  {
    WholeAndLeft(spare, a, total);
    WholeAndLeft(spare, b, total);
    var wa, wb := Whole(spare, a, total), Whole(spare, b, total);
    Distribute(spare, a - b, b);
    if wa < wb {
      Distribute(total, wb - wa, wa);
      Distribute(total, wb - wa - 1, 1);
    }
  }

  lemma {:induction false} SlotsOf(categories: seq<int>, slots: Allocation, c: int)
    requires c in slots
    ensures SumSlots(categories + [c], slots) == SumSlots(categories, slots) + slots[c]
  {
    if categories == [] {
      assert [] + [c] == [c] && [c][1..] == [];
    } else {
      assert (categories + [c])[1..] == categories[1..] + [c];
      SlotsOf(categories[1..], slots, c);
    }
  }

  method SumOfSlots(categories: seq<int>, slots: Allocation) returns (n: nat)
    requires forall c :: c in categories ==> c in slots
    ensures n == SumSlots(categories, slots)
  {
    n := 0;
    for i := 0 to |categories|
      invariant n == SumSlots(categories[..i], slots)
    {
      assert categories[..i + 1] == categories[..i] + [categories[i]];
      SlotsOf(categories[..i], slots, categories[i]);
      n := n + slots[categories[i]];
    }
    assert categories[..|categories|] == categories;
  }

  /** What the sorted remainders have in common with the unsorted ones. */
  lemma OrderFacts(categories: seq<int>, questions: seq<Item>, spare: nat)
    requires AreCategories(categories, questions) && questions != []
    ensures
      var order := SortBy(Ahead, Remainders(categories, questions, spare, |questions|));
      var n := LeftOver(categories, questions, spare, |questions|);
      && 0 <= n <= |order|
      && (n > 0 ==> n < Positives(order))
      && (forall r :: r in order ==> r.category in categories)
      && DistinctCategories(order)
  {
    var remainders := Remainders(categories, questions, spare, |questions|);
    LeftOverIsSmall(categories, questions, spare);
    RemainderCategories(categories, questions, spare, |questions|);
    SortDistinct(remainders);
    SortPermutes(Ahead, remainders);
    SortPositives(remainders);
    FewPositives(remainders);
  }

  /** The apportionment. */
  method Apportion(categories: seq<int>, questions: seq<Item>) returns (slots: Allocation)
    requires AreCategories(categories, questions) && questions != [] && |categories| <= SLOTS
    ensures Apportioned(categories, questions, slots)
  {
    var spare := SLOTS - |categories|;
    var first, remainders := FirstSlots(categories, questions, spare);
    var order := SortBy(Ahead, remainders);
    OrderFacts(categories, questions, spare);
    var used := SumOfSlots(categories, first);
    slots := BonusSlots(categories, first, order, SLOTS - used);
    RoundsCorrectly(categories, questions, spare, order, SLOTS - used, first, slots);
    SharesAreGiven(categories, questions, spare, order, SLOTS - used, first, slots);
  }

  lemma SharesAreGiven(
      categories: seq<int>, questions: seq<Item>, spare: nat, order: seq<Remainder>, n: nat, first: Allocation,
      slots: Allocation)
    requires questions != [] && |categories| <= SLOTS && spare == SLOTS - |categories|
    requires n <= |order| && n == LeftOver(categories, questions, spare, |questions|)
    requires order == SortBy(Ahead, Remainders(categories, questions, spare, |questions|))
    requires forall c :: c in first <==> c in categories
    requires forall c :: c in first ==> first[c] == 1 + Whole(spare, Count(questions, c), |questions|)
    requires forall c :: c in slots <==> c in categories
    requires forall c :: c in slots ==> slots[c] == first[c] + if c in Named(order[..n]) then 1 else 0
    ensures forall c :: c in categories ==> slots[c] == Share(categories, questions, c)
  {
    assert Winners(categories, questions) == order[..n];
  }

  lemma RoundsCorrectly(
      categories: seq<int>, questions: seq<Item>, spare: nat, order: seq<Remainder>, n: nat, first: Allocation,
      slots: Allocation)
    requires AreCategories(categories, questions) && questions != [] && |categories| <= SLOTS
      && spare == SLOTS - |categories|
    requires n <= |order| && (n > 0 ==> n < Positives(order))
    requires order == SortBy(Ahead, Remainders(categories, questions, spare, |questions|))
    requires forall c :: c in first <==> c in categories
    requires forall c :: c in first ==> first[c] == 1 + Whole(spare, Count(questions, c), |questions|)
    requires forall c :: c in slots <==> c in categories
    requires forall c :: c in slots ==> slots[c] == first[c] + if c in Named(order[..n]) then 1 else 0
    requires spare == 0 ==> n == 0
    ensures forall c :: c in categories ==> FloorOrCeiling(slots[c], spare, Count(questions, c), |questions|)
    ensures forall a, b :: a in categories && b in categories && Count(questions, a) > Count(questions, b) ==>
      slots[a] >= slots[b]
  {
    var total := |questions|;
    forall c | c in categories ensures FloorOrCeiling(slots[c], spare, Count(questions, c), total) {
      if c in Named(order[..n]) { BonusMeansRemainder(categories, questions, spare, order, n, c); }
    }
    forall a, b | a in categories && b in categories && Count(questions, a) > Count(questions, b)
      ensures slots[a] >= slots[b]
    {
      WholeGrows(spare, Count(questions, a), Count(questions, b), total);
      if b in Named(order[..n])
        && Whole(spare, Count(questions, a), total) == Whole(spare, Count(questions, b), total) {
        LargerWinsFirst(categories, questions, spare, order, n, a, b);
      }
    }
  }

  /** As many remainders win as slots are left over: the first in their order. */
  lemma WinnersAreFirst(categories: seq<int>, questions: seq<Item>) returns (n: nat)
    requires AreCategories(categories, questions) && questions != [] && |categories| <= SLOTS
    ensures n == LeftOver(categories, questions, SLOTS - |categories|, |questions|)
    ensures
      var order := SortBy(Ahead, Remainders(categories, questions, SLOTS - |categories|, |questions|));
      n <= |order| && Winners(categories, questions) == order[..n] && DistinctCategories(order)
  {
    OrderFacts(categories, questions, SLOTS - |categories|);
    n := LeftOver(categories, questions, SLOTS - |categories|, |questions|);
  }

  /** A larger remainder wins before a smaller one, and of equal ones that of the
      smaller category. */
  lemma WinnersAreLargest(categories: seq<int>, questions: seq<Item>, spare: nat, a: int, b: int)
    requires AreCategories(categories, questions) && questions != [] && |categories| <= SLOTS
      && spare == SLOTS - |categories|
    requires a in categories && b in Named(Winners(categories, questions))
    requires
      var one, other := Left(spare, Count(questions, a), |questions|), Left(spare, Count(questions, b), |questions|);
      one > other || (one == other && a < b)
    ensures a in Named(Winners(categories, questions))
  {
    var n := WinnersAreFirst(categories, questions);
    var order := SortBy(Ahead, Remainders(categories, questions, spare, |questions|));
    LargerWinsFirst(categories, questions, spare, order, n, a, b);
  }
}
