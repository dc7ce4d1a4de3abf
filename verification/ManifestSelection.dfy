// Selecting the development questions: the first items of each category, up to
// its slots, in manifest order.

module ManifestSelection {
  import opened Arithmetic
  import opened Orders
  import opened Manifest

  function SlotsFor(slots: Allocation, c: int): nat {
    if c in slots then slots[c] else 0
  }

  function InCategory(questions: seq<Item>, c: int): seq<Item> {
    if questions == [] then []
    else
      var init, q := questions[..|questions| - 1], questions[|questions| - 1];
      InCategory(init, c) + if q.category == c then [q] else []
  }

  lemma {:induction false} CategorySize(questions: seq<Item>, c: int)
    ensures |InCategory(questions, c)| == Count(questions, c)
  {
    if questions != [] { CategorySize(questions[..|questions| - 1], c); }
  }

  /** The first items of a category, up to `n`. */
  function FirstOf(questions: seq<Item>, c: int, n: nat): seq<Item> {
    InCategory(questions, c)[..Least(n, |InCategory(questions, c)|)]
  }

  /** The questions that find a slot of their category still free, in order. */
  function Picks(questions: seq<Item>, slots: Allocation): seq<Item> {
    if questions == [] then []
    else
      var init, q := questions[..|questions| - 1], questions[|questions| - 1];
      Picks(init, slots) + if Count(init, q.category) < SlotsFor(slots, q.category) then [q] else []
  }

  function Ids(items: seq<Item>): seq<string> {
    if items == [] then [] else Ids(items[..|items| - 1]) + [items[|items| - 1].id]
  }

  ghost predicate DistinctIds(questions: seq<Item>) {
    forall i, j :: 0 <= i < j < |questions| ==> questions[i].id != questions[j].id
  }

  // ---- the selecting loops ----

  /** Position `p` is among the first `n` of its category. */
  predicate Early(questions: seq<Item>, p: nat, c: int, n: nat) {
    p < |questions| && questions[p].category == c && Count(questions[..p], c) < n
  }

  ghost predicate Earlier(questions: seq<Item>, c: int, n: nat, q: Item) {
    exists p: nat :: Early(questions, p, c, n) && questions[p] == q
  }

  lemma EarlierSnoc(questions: seq<Item>, last: Item, c: int, n: nat, q: Item)
    ensures Earlier(questions + [last], c, n, q)
        <==> Earlier(questions, c, n, q) || (q == last && last.category == c && Count(questions, c) < n)
  {
    var all := questions + [last];
    assert all[..|questions|] == questions;
    forall p: nat | p < |questions| ensures Early(all, p, c, n) <==> Early(questions, p, c, n) {
      assert all[..p] == questions[..p];
    }
    if Earlier(questions, c, n, q) {
      var p: nat :| Early(questions, p, c, n) && questions[p] == q;
      assert Early(all, p, c, n) && all[p] == q;
    }
    if q == last && last.category == c && Count(questions, c) < n {
      assert Early(all, |questions|, c, n) && all[|questions|] == q;
    }
  }

  lemma {:induction false} FirstOfMembers(questions: seq<Item>, c: int, n: nat, q: Item)
    ensures q in FirstOf(questions, c, n) <==> Earlier(questions, c, n, q)
    decreases |questions|
  {
    if questions != [] {
      var init, last := questions[..|questions| - 1], questions[|questions| - 1];
      assert questions == init + [last];
      FirstOfMembers(init, c, n, q);
      EarlierSnoc(init, last, c, n, q);
      CategorySize(init, c);
      FirstOfSnoc(init, last, c, n);
    }
  }

  lemma FirstOfSnoc(questions: seq<Item>, last: Item, c: int, n: nat)
    ensures FirstOf(questions + [last], c, n)
         == FirstOf(questions, c, n) + if last.category == c && Count(questions, c) < n then [last] else []
  {
    var all := questions + [last];
    assert all[..|questions|] == questions;
    CategorySize(questions, c);
    var before, after := InCategory(questions, c), InCategory(all, c);
    assert after == before + if last.category == c then [last] else [];
  }

  /** The identifiers of the first items of each category. */
  ghost predicate SelectedBy(questions: seq<Item>, categories: seq<int>, slots: Allocation, selected: set<string>) {
    forall id :: id in selected <==>
      exists c, q :: c in categories && Earlier(questions, c, SlotsFor(slots, c), q) && q.id == id
  }

  method TakeFirst(items: seq<Item>, n: nat, selected0: set<string>) returns (selected: set<string>)
    requires n <= |items|
    ensures forall id :: id in selected <==> id in selected0 || exists q :: q in items[..n] && q.id == id
  {
    selected := selected0;
    for i := 0 to n
      invariant forall id :: id in selected <==> id in selected0 || exists q :: q in items[..i] && q.id == id
    {
      assert items[..i + 1] == items[..i] + [items[i]];
      selected := selected + {items[i].id};
    }
  }

  /** Collects the first items of every category. */
  method Collect(questions: seq<Item>, categories: seq<int>, slots: Allocation) returns (selected: set<string>)
    ensures SelectedBy(questions, categories, slots, selected)
  {
    selected := {};
    for i := 0 to |categories|
      invariant SelectedBy(questions, categories[..i], slots, selected)
    {
      var c := categories[i];
      var items, n := InCategory(questions, c), SlotsFor(slots, c);
      ghost var before := selected;
      selected := TakeFirst(items, Least(n, |items|), selected);
      assert categories[..i + 1] == categories[..i] + [c];
      forall q: Item ensures q in items[..Least(n, |items|)] <==> Earlier(questions, c, n, q) {
        FirstOfMembers(questions, c, n, q);
      }
    }
    assert categories[..|categories|] == categories;
  }

  lemma PickedIsSelected(questions: seq<Item>, categories: seq<int>, slots: Allocation, selected: set<string>, p: nat)
    requires DistinctIds(questions) && SelectedBy(questions, categories, slots, selected) && p < |questions|
    requires forall q :: q in questions ==> q.category in categories
    ensures questions[p].id in selected
        <==> Count(questions[..p], questions[p].category) < SlotsFor(slots, questions[p].category)
  {
    var here, c := questions[p], questions[p].category;
    if Count(questions[..p], c) < SlotsFor(slots, c) {
      assert Early(questions, p, c, SlotsFor(slots, c));
      assert Earlier(questions, c, SlotsFor(slots, c), here);
    }
    if here.id in selected {
      var d, q :| d in categories && Earlier(questions, d, SlotsFor(slots, d), q) && q.id == here.id;
      var r: nat :| Early(questions, r, d, SlotsFor(slots, d)) && questions[r] == q;
      assert r == p;
    }
  }

  lemma PicksGrow(questions: seq<Item>, slots: Allocation, i: nat)
    requires i < |questions|
    ensures
      var q, picks := questions[i], Picks(questions[..i], slots);
      Picks(questions[..i + 1], slots)
        == if Count(questions[..i], q.category) < SlotsFor(slots, q.category) then picks + [q] else picks
  {
    assert questions[..i + 1][..i] == questions[..i];
  }

  /** Keeps the selected questions, in order. */
  method Keep(questions: seq<Item>, categories: seq<int>, slots: Allocation, selected: set<string>)
    returns (ids: seq<string>)
    requires DistinctIds(questions) && SelectedBy(questions, categories, slots, selected)
    requires forall q :: q in questions ==> q.category in categories
    ensures ids == Ids(Picks(questions, slots))
  {
    ids := [];
    for i := 0 to |questions|
      invariant ids == Ids(Picks(questions[..i], slots))
    {
      PickedIsSelected(questions, categories, slots, selected, i);
      PicksGrow(questions, slots, i);
      if questions[i].id in selected {
        ids := ids + [questions[i].id];
      }
    }
    assert questions[..|questions|] == questions;
  }

  predicate IntLe(a: int, b: int) {
    a <= b
  }

  /** The categories that occur, in ascending order. */
  method CategoriesOf(questions: seq<Item>) returns (categories: seq<int>)
    ensures AreCategories(categories, questions)
  {
    var found: seq<int> := [];
    for i := 0 to |questions|
      invariant forall j, k :: 0 <= j < k < |found| ==> found[j] != found[k]
      invariant forall c :: c in found <==> exists p :: 0 <= p < i && questions[p].category == c
    {
      if questions[i].category !in found {
        found := found + [questions[i].category];
      }
    }
    categories := SortBy(IntLe, found);
    SortedCategories(found);
    forall c ensures c in categories <==> Count(questions, c) > 0 {
      CountedCategory(questions, c);
    }
  }

  lemma SortedCategories(found: seq<int>)
    requires forall j, k :: 0 <= j < k < |found| ==> found[j] != found[k]
    ensures Ascends(SortBy(IntLe, found)) && forall c :: c in SortBy(IntLe, found) <==> c in found
  {
    var sorted := SortBy(IntLe, found);
    SortSorted(IntLe, found);
    SortPermutes(IntLe, found);
    assert forall c :: c in sorted <==> c in multiset(sorted);
    assert forall c :: c in found <==> c in multiset(found);
    forall i, j | 0 <= i < j < |sorted| ensures sorted[i] < sorted[j] {
      assert IntLe(sorted[i], sorted[j]);
      NeverTwice(found, sorted, i, j);
    }
  }

  lemma NeverTwice(found: seq<int>, sorted: seq<int>, i: nat, j: nat)
    requires forall j, k :: 0 <= j < k < |found| ==> found[j] != found[k]
    requires multiset(sorted) == multiset(found) && i < j < |sorted|
    ensures sorted[i] != sorted[j]
  {
    if sorted[i] == sorted[j] {
      TwiceInMultiset(sorted, i, j);
      OnceInMultiset(found, sorted[i]);
    }
  }

  lemma TwiceInMultiset(s: seq<int>, i: nat, j: nat)
    requires i < j < |s| && s[i] == s[j]
    ensures multiset(s)[s[i]] >= 2
  {
    assert s == s[..i] + [s[i]] + s[i + 1..j] + [s[j]] + s[j + 1..];
  }

  lemma {:induction false} OnceInMultiset(s: seq<int>, x: int)
    requires forall j, k :: 0 <= j < k < |s| ==> s[j] != s[k]
    ensures multiset(s)[x] <= 1
  {
    if s != [] {
      assert s == [s[0]] + s[1..];
      OnceInMultiset(s[1..], x);
      if s[0] == x {
        assert x !in s[1..];
        assert multiset(s[1..])[x] == 0;
      }
    }
  }

  // ---- what a selection promises ----

  /** Twenty slots over the categories: how many of them are filled. */
  function Filled(categories: seq<int>, questions: seq<Item>, slots: Allocation): nat {
    if categories == [] then 0
    else
      Least(SlotsFor(slots, categories[0]), Count(questions, categories[0])) + Filled(categories[1..], questions, slots)
  }

  lemma {:induction false} NoneFilled(categories: seq<int>, slots: Allocation)
    ensures Filled(categories, [], slots) == 0
  {
    if categories != [] { NoneFilled(categories[1..], slots); }
  }

  lemma {:induction false} FilledGrows(categories: seq<int>, questions: seq<Item>, slots: Allocation, q: Item)
    requires Ascends(categories)
    ensures Filled(categories, questions + [q], slots)
         == Filled(categories, questions, slots)
            + if q.category in categories && Count(questions, q.category) < SlotsFor(slots, q.category) then 1 else 0
  {
    assert (questions + [q])[..|questions|] == questions;
    if categories != [] {
      assert categories == [categories[0]] + categories[1..];
      if q.category == categories[0] { assert q.category !in categories[1..]; }
      FilledGrows(categories[1..], questions, slots, q);
    }
  }

  /** As many questions are picked as slots are filled. */
  lemma {:induction false} PicksFillSlots(categories: seq<int>, questions: seq<Item>, slots: Allocation)
    requires Ascends(categories) && forall q :: q in questions ==> q.category in categories
    ensures |Picks(questions, slots)| == Filled(categories, questions, slots)
    decreases |questions|
  {
    if questions == [] {
      NoneFilled(categories, slots);
    } else {
      var init, q := questions[..|questions| - 1], questions[|questions| - 1];
      assert questions == init + [q];
      PicksFillSlots(categories, init, slots);
      FilledGrows(categories, init, slots, q);
    }
  }

  /** The picks are a subsequence of the questions. */
  lemma {:induction false} PicksInOrder(questions: seq<Item>, slots: Allocation)
    ensures Subsequence(Picks(questions, slots), questions)
    decreases |questions|
  {
    if questions != [] {
      var init, q := questions[..|questions| - 1], questions[|questions| - 1];
      var more := if Count(init, q.category) < SlotsFor(slots, q.category) then [q] else [];
      PicksInOrder(init, slots);
      assert Subsequence(more, [q]);
      SubsequenceConcat(Picks(init, slots), more, init, [q]);
      assert questions == init + [q];
    }
  }

  lemma CategorySnoc(items: seq<Item>, q: Item, c: int)
    ensures InCategory(items + [q], c) == InCategory(items, c) + if q.category == c then [q] else []
  {
    assert (items + [q])[..|items|] == items;
  }

  /** Of each category, the picks are its first items. */
  lemma {:induction false} PicksAreFirst(questions: seq<Item>, slots: Allocation, c: int)
    ensures InCategory(Picks(questions, slots), c) == FirstOf(questions, c, SlotsFor(slots, c))
    decreases |questions|
  {
    if questions != [] {
      var init, q := questions[..|questions| - 1], questions[|questions| - 1];
      assert questions == init + [q];
      PicksAreFirst(init, slots, c);
      FirstOfSnoc(init, q, c, SlotsFor(slots, c));
      if Count(init, q.category) < SlotsFor(slots, q.category) {
        CategorySnoc(Picks(init, slots), q, c);
      } else {
        assert Picks(questions, slots) == Picks(init, slots);
      }
    }
  }

  lemma {:induction false} AllFilled(categories: seq<int>, questions: seq<Item>, slots: Allocation)
    requires forall c :: c in categories ==> SlotsFor(slots, c) <= Count(questions, c)
    ensures Filled(categories, questions, slots) == SumSlots(categories, slots)
  {
    if categories != [] {
      assert categories[0] in categories;
      AllFilled(categories[1..], questions, slots);
    }
  }

  lemma {:induction false} FilledAtMost(categories: seq<int>, questions: seq<Item>, slots: Allocation)
    ensures Filled(categories, questions, slots) <= SumSlots(categories, slots)
  {
    if categories != [] { FilledAtMost(categories[1..], questions, slots); }
  }

  lemma {:induction false} OneUnfilled(categories: seq<int>, questions: seq<Item>, slots: Allocation, c: int)
    requires c in categories && SlotsFor(slots, c) > Count(questions, c)
    ensures Filled(categories, questions, slots) < SumSlots(categories, slots)
  {
    if categories[0] == c {
      FilledAtMost(categories[1..], questions, slots);
    } else {
      OneUnfilled(categories[1..], questions, slots, c);
    }
  }

  lemma HalfQuota(spare: nat, count: nat, total: nat, slots: nat)
    requires total > 0 && count >= 2 && total >= 2 * spare && FloorOrCeiling(slots, spare, count, total)
    ensures slots <= count
  {
    var whole, left := Whole(spare, count, total), Left(spare, count, total);
    WholeAndLeft(spare, count, total);
    // 2 * (whole * total + left) = (2 * spare) * count <= total * count
    Distribute(count, total - 2 * spare, 2 * spare);
    assert (2 * spare) * count == 2 * (spare * count);
    assert 2 * (whole * total) + 2 * left <= total * count;
    Distribute(total, 2 * whole, count - 2 * whole);
    assert (count - 2 * whole) * total >= 2 * left;
  }

  /** Never more than twenty are selected, and exactly twenty if and only if every
      category has as many questions as its share. */
  lemma TwentyIffEnough(categories: seq<int>, questions: seq<Item>, slots: Allocation)
    requires AreCategories(categories, questions) && questions != [] && |categories| <= SLOTS
    requires Apportioned(categories, questions, slots)
    ensures |Picks(questions, slots)| <= SLOTS
    ensures |Picks(questions, slots)| == SLOTS
       <==> forall c :: c in categories ==> Share(categories, questions, c) <= Count(questions, c)
  {
    CoveredCategories(categories, questions);
    PicksFillSlots(categories, questions, slots);
    FilledAtMost(categories, questions, slots);
    if forall c :: c in categories ==> SlotsFor(slots, c) <= Count(questions, c) {
      AllFilled(categories, questions, slots);
    } else {
      var c :| c in categories && SlotsFor(slots, c) > Count(questions, c);
      OneUnfilled(categories, questions, slots, c);
    }
  }

  lemma EnoughForShare(categories: seq<int>, questions: seq<Item>, slots: Allocation, c: int)
    requires questions != [] && |categories| <= SLOTS && Apportioned(categories, questions, slots)
    requires c in categories && Count(questions, c) >= 2 && |questions| >= 2 * (SLOTS - |categories|)
    ensures Share(categories, questions, c) <= Count(questions, c)
  {
    HalfQuota(SLOTS - |categories|, Count(questions, c), |questions|, slots[c]);
  }

  /** With at least two questions in every category and twice as many as spare
      slots, exactly twenty are selected. */
  lemma TwentyArePicked(categories: seq<int>, questions: seq<Item>, slots: Allocation)
    requires AreCategories(categories, questions) && questions != [] && |categories| <= SLOTS
    requires Apportioned(categories, questions, slots)
    requires forall c :: c in categories ==> Count(questions, c) >= 2
    requires |questions| >= 2 * (SLOTS - |categories|)
    ensures |Picks(questions, slots)| == SLOTS
  {
    forall c | c in categories ensures Share(categories, questions, c) <= Count(questions, c) {
      EnoughForShare(categories, questions, slots, c);
    }
    TwentyIffEnough(categories, questions, slots);
  }

  lemma CoveredCategories(categories: seq<int>, questions: seq<Item>)
    requires AreCategories(categories, questions)
    ensures forall q :: q in questions ==> q.category in categories
  {
    forall q | q in questions ensures q.category in categories {
      CountedCategory(questions, q.category);
    }
  }

  ghost predicate AtMostTwenty(questions: seq<Item>) {
    forall categories :: AreCategories(categories, questions) ==> |categories| <= SLOTS
  }

  /** Selects the development questions. The ghost results are the categories and
      their slots. */
  method DevelopmentSample(questions: seq<Item>)
    returns (ids: seq<string>, ghost categories: seq<int>, ghost slots: Allocation)
    requires DistinctIds(questions) && AtMostTwenty(questions)
    ensures AreCategories(categories, questions)
    ensures questions == [] ==> ids == []
    ensures questions != [] ==>
      && |categories| <= SLOTS
      && Apportioned(categories, questions, slots)
      && ids == Ids(Picks(questions, slots))
  {
    var found := CategoriesOf(questions);
    categories := found;
    if questions == [] {
      slots := map[];
      return [], categories, slots;
    }
    var allocation := Apportion(found, questions);
    slots := allocation;
    CoveredCategories(found, questions);
    var selected := Collect(questions, found, allocation);
    ids := Keep(questions, found, allocation, selected);
  }

  // ---- twenty questions, nineteen selected ----

  /** One question of category 1, then `n` of category 2. */
  function OneAndMany(n: nat): (questions: seq<Item>)
    ensures |questions| == n + 1
  {
    if n == 0 then [Item(Mark(0), 1)] else OneAndMany(n - 1) + [Item(Mark(n), 2)]
  }

  function Mark(n: nat): (id: string)
    ensures |id| == n + 1
  {
    if n == 0 then "q" else Mark(n - 1) + "x"
  }

  lemma {:induction false} CountsOfOneAndMany(n: nat, c: int)
    ensures Count(OneAndMany(n), c) == if c == 1 then 1 else if c == 2 then n else 0
    ensures forall k :: 0 <= k < |OneAndMany(n)| ==> |OneAndMany(n)[k].id| == k + 1
  {
    if n == 0 {
      assert [Item(Mark(0), 1)][..0] == [];
    } else {
      CountsOfOneAndMany(n - 1, c);
      assert OneAndMany(n)[..n] == OneAndMany(n - 1);
    }
  }

  lemma {:induction false} OnlyTwo(categories: seq<int>)
    requires Ascends(categories) && forall c :: c in categories <==> c == 1 || c == 2
    ensures categories == [1, 2]
  {
    assert 1 in categories && 2 in categories;
    var i :| 0 <= i < |categories| && categories[i] == 1;
    var j :| 0 <= j < |categories| && categories[j] == 2;
    AtMostBetween(categories, i, j);
  }

  /** In an ascending list of ones and twos, nothing else stands beside them. */
  lemma AtMostBetween(categories: seq<int>, i: nat, j: nat)
    requires Ascends(categories) && i < |categories| && j < |categories| && categories[i] == 1 && categories[j] == 2
    requires forall c :: c in categories ==> c == 1 || c == 2
    ensures i == 0 && j == 1 && |categories| == 2
  {
    OneOrTwo(categories, i, j, 0);
    OneOrTwo(categories, i, j, 1);
    if |categories| > 2 { OneOrTwo(categories, i, j, 2); }
  }

  lemma OneOrTwo(categories: seq<int>, i: nat, j: nat, k: nat)
    requires Ascends(categories) && i < |categories| && j < |categories| && categories[i] == 1 && categories[j] == 2
    requires k < |categories| && forall c :: c in categories ==> c == 1 || c == 2
    ensures k == i || k == j
  {
    assert categories[k] in categories;
  }

  lemma ShareOfOne()
    ensures Share([1, 2], OneAndMany(19), 1) == 2
  {
    var questions := OneAndMany(19);
    CountsOfOneAndMany(19, 1);
    CountsOfOneAndMany(19, 2);
    assert [1, 2][1..] == [2] && [2][1..] == [];
    assert Remainders([], questions, 18, 20) == [] && SumWholes([], questions, 18, 20) == 0;
    assert Remainders([2], questions, 18, 20) == [Remainder(2, 2)] && SumWholes([2], questions, 18, 20) == 17;
    assert Remainders([1, 2], questions, 18, 20) == [Remainder(18, 1), Remainder(2, 2)];
    assert SumWholes([1, 2], questions, 18, 20) == 17;
    var rs := [Remainder(18, 1), Remainder(2, 2)];
    assert rs[1..] == [Remainder(2, 2)] && rs[1..][1..] == [];
    assert SortBy(Ahead, rs[1..]) == Insert(Ahead, Remainder(2, 2), []) == [Remainder(2, 2)];
    assert SortBy(Ahead, rs) == Insert(Ahead, Remainder(18, 1), [Remainder(2, 2)]) == rs;
    assert Winners([1, 2], questions) == rs[..1];
    assert rs[..1][0] == Remainder(18, 1);
  }

  /** Of these twenty questions fewer than twenty are selected: category 1 has one
      question and a share of two. */
  lemma FewerThanTwenty(categories: seq<int>, slots: Allocation)
    requires AreCategories(categories, OneAndMany(19)) && |categories| <= SLOTS
    requires Apportioned(categories, OneAndMany(19), slots)
    ensures DistinctIds(OneAndMany(19)) && |OneAndMany(19)| == SLOTS
    ensures forall item :: item in OneAndMany(19) ==> item.id != ""
    ensures |Picks(OneAndMany(19), slots)| < SLOTS
  {
    forall c ensures c in categories <==> c == 1 || c == 2 { CountsOfOneAndMany(19, c); }
    OnlyTwo(categories);
    CountsOfOneAndMany(19, 1);
    ShareOfOne();
    TwentyIffEnough(categories, OneAndMany(19), slots);
  }
}
