// Sums over sequences and finite maps, subsequences, and stable sorting.

module Wrappers {
  datatype Option<+T> = None | Some(value: T)
}

module Sums {

  /** Total of `f` over a sequence. */
  function SeqSum<T>(s: seq<T>, f: T -> int): int {
    if s == [] then 0 else f(s[0]) + SeqSum(s[1..], f)
  }

  lemma {:induction false} SeqSumConcat<T>(s: seq<T>, t: seq<T>, f: T -> int)
    ensures SeqSum(s + t, f) == SeqSum(s, f) + SeqSum(t, f)
  {
    if s == [] {
      assert s + t == t;
    } else {
      assert (s + t)[1..] == s[1..] + t;
      SeqSumConcat(s[1..], t, f);
    }
  }

  lemma SeqSumSnoc<T>(s: seq<T>, x: T, f: T -> int)
    ensures SeqSum(s + [x], f) == SeqSum(s, f) + f(x)
  {
    SeqSumConcat(s, [x], f);
  }

  /** The list with its element number `k` taken out. */
  function Without<T>(s: seq<T>, k: nat): seq<T>
    requires k < |s|
  {
    s[..k] + s[k + 1..]
  }

  lemma WithoutLater<T>(s: seq<T>, k: nat)
    requires 0 < k < |s|
    ensures Without(s, k) == [s[0]] + Without(s[1..], k - 1) && s[1..][k - 1] == s[k]
  {
  }

  lemma WithoutFirst<T>(s: seq<T>)
    requires s != []
    ensures Without(s, 0) == s[1..]
  {
  }

  lemma SliceTail<T>(s: seq<T>, i: nat)
    requires i < |s|
    ensures s[i..] == [s[i]] + s[i + 1..]
  {
  }

  /** Pulling any element to the front does not change the total. */
  lemma {:induction false} SeqSumRemove<T>(s: seq<T>, k: nat, f: T -> int)
    requires k < |s|
    ensures SeqSum(s, f) == f(s[k]) + SeqSum(Without(s, k), f)
  {
    if k == 0 {
      WithoutFirst(s);
    } else {
      SeqSumRemove(s[1..], k - 1, f);
      WithoutLater(s, k);
    }
  }

  /** A total does not depend on the order of the sequence. */
  lemma {:induction false} SeqSumPermutation<T>(s: seq<T>, t: seq<T>, f: T -> int)
    requires multiset(s) == multiset(t)
    ensures SeqSum(s, f) == SeqSum(t, f)
    decreases |s|
  {
    if s == [] {
      assert |multiset(t)| == 0;
    } else {
      var k := PermutedIndex(s, t);
      SeqSumRemove(t, k, f);
      SeqSumPermutation(s[1..], Without(t, k), f);
    }
  }

  /** In a permutation, the head of `s` sits at some index of `t`, and what is
      left of both is again a permutation. */
  lemma PermutedIndex<T>(s: seq<T>, t: seq<T>) returns (k: nat)
    requires s != [] && multiset(s) == multiset(t)
    ensures k < |t| && t[k] == s[0]
    ensures multiset(s[1..]) == multiset(Without(t, k))
  {
    assert s[0] in multiset(t);
    k :| 0 <= k < |t| && t[k] == s[0];
    assert s == [s[0]] + s[1..];
    assert t == t[..k] + [t[k]] + t[k + 1..];
    assert multiset(t) == multiset(t[..k]) + multiset{t[k]} + multiset(t[k + 1..]);
    assert multiset(t[..k] + t[k + 1..]) == multiset(t) - multiset{t[k]};
  }

  /** Total of the values of a finite map. */
  ghost function Total(m: map<string, nat>): nat {
    if m == map[] then 0
    else
      var k :| k in m;
      m[k] + Total(m - {k})
  }

  /** The total may be taken starting from any key. */
  lemma {:induction false} TotalTake(m: map<string, nat>, k: string)
    requires k in m
    ensures Total(m) == m[k] + Total(m - {k})
    decreases |m|
  {
    var j :| j in m && Total(m) == m[j] + Total(m - {j});
    if j != k {
      TotalTake(m - {j}, k);
      TotalTake(m - {k}, j);
      assert m - {j} - {k} == m - {k} - {j};
    }
  }

  lemma TotalInsert(m: map<string, nat>, k: string, v: nat)
    requires k !in m
    ensures Total(m[k := v]) == Total(m) + v
  {
    TotalTake(m[k := v], k);
    assert m[k := v] - {k} == m;
  }

  lemma TotalUpdate(m: map<string, nat>, k: string, v: nat)
    ensures Total(m[k := v]) + (if k in m then m[k] else 0) == Total(m) + v
  {
    if k in m {
      TotalTake(m, k);
      TotalTake(m[k := v], k);
      assert m[k := v] - {k} == m - {k};
    } else {
      TotalInsert(m, k, v);
    }
  }

  lemma UnionRemove<K, V>(m: map<K, V>, n: map<K, V>, k: K)
    requires k !in m
    ensures (m + n) - {k} == m + (n - {k})
  {
    assert ((m + n) - {k}).Keys == (m + (n - {k})).Keys;
  }

  lemma UnionEmpty<K, V>(m: map<K, V>)
    ensures m + map[] == m
  {
  }

  lemma TotalOfUnionTake(m: map<string, nat>, n: map<string, nat>, k: string)
    requires k in n && k !in m
    ensures Total(m + n) == n[k] + Total(m + (n - {k}))
  {
    TotalTake(m + n, k);
    UnionRemove(m, n, k);
  }

  lemma {:induction false} TotalUnion(m: map<string, nat>, n: map<string, nat>)
    requires m.Keys !! n.Keys
    ensures Total(m + n) == Total(m) + Total(n)
    decreases |n|
  {
    if n == map[] {
      UnionEmpty(m);
    } else {
      var k :| k in n;
      TotalOfUnionTake(m, n, k);
      TotalTake(n, k);
      assert (n - {k}).Keys == n.Keys - {k};
      TotalUnion(m, n - {k});
    }
  }

  lemma {:induction false} ZeroTotal(m: map<string, nat>)
    requires forall k :: k in m ==> m[k] == 0
    ensures Total(m) == 0
    decreases |m|
  {
    if m != map[] {
      var k :| k in m;
      TotalTake(m, k);
      ZeroTotal(m - {k});
    }
  }

  lemma {:induction false} TotalPlus(a: map<string, nat>, b: map<string, nat>, c: map<string, nat>)
    requires a.Keys == b.Keys && c.Keys <= a.Keys
    requires forall k :: k in a ==> a[k] + b[k] == if k in c then c[k] else 0
    ensures Total(a) + Total(b) == Total(c)
    decreases |a|
  {
    if a == map[] {
    } else {
      var k :| k in a;
      TotalTake(a, k);
      TotalTake(b, k);
      if k in c { TotalTake(c, k); }
      assert k !in c ==> c - {k} == c;
      TotalPlus(a - {k}, b - {k}, c - {k});
    }
  }

  /** Adds up a dictionary's values, in whatever order they come. */
  method SumValues(m: map<string, nat>) returns (total: nat)
    ensures total == Total(m)
  {
    total := 0;
    var left := m;
    while left != map[]
      invariant total + Total(left) == Total(m)
      decreases |left|
    {
      var k :| k in left;
      TotalTake(left, k);
      total := total + left[k];
      left := left - {k};
    }
  }

  /** How many elements have a property. */
  function HowMany<T>(s: seq<T>, p: T -> bool): nat {
    if s == [] then 0 else HowMany(s[..|s| - 1], p) + if p(s[|s| - 1]) then 1 else 0
  }

  lemma {:induction false} HowManyAsSum<T>(s: seq<T>, p: T -> bool, f: T -> int)
    requires forall x :: f(x) == if p(x) then 1 else 0
    ensures SeqSum(s, f) == HowMany(s, p)
  {
    if s != [] {
      var init, last := s[..|s| - 1], s[|s| - 1];
      HowManyAsSum(init, p, f);
      SeqSumSnoc(init, last, f);
      assert s == init + [last];
    }
  }

  /** It does not depend on the order of the elements. */
  lemma HowManyPermuted<T>(s: seq<T>, t: seq<T>, p: T -> bool)
    requires multiset(s) == multiset(t)
    ensures HowMany(s, p) == HowMany(t, p)
  {
    var f := (x: T) => if p(x) then 1 else 0;
    HowManyAsSum(s, p, f);
    HowManyAsSum(t, p, f);
    SeqSumPermutation(s, t, f);
  }

  lemma {:induction false} HowManyAtMost<T>(s: seq<T>, p: T -> bool)
    ensures HowMany(s, p) <= |s|
    ensures (forall x :: x in s ==> p(x)) ==> HowMany(s, p) == |s|
  {
    if s != [] { HowManyAtMost(s[..|s| - 1], p); }
  }

  /** Where a property holds on a beginning only, it holds at `k` if and only if it
      holds of more than `k` elements. */
  lemma {:induction false} HowManyUpTo<T>(s: seq<T>, p: T -> bool, k: nat)
    requires k < |s| && forall i, j :: 0 <= i <= j < |s| && p(s[j]) ==> p(s[i])
    ensures p(s[k]) <==> HowMany(s, p) > k
  {
    var init, last := s[..|s| - 1], s[|s| - 1];
    HowManyAtMost(init, p);
    if p(last) {
      assert forall x :: x in init ==> p(x);
    } else if k < |init| {
      HowManyUpTo(init, p, k);
    }
  }
}

module Orders {
  import opened Sums

  /** `s` is obtained from `t` by dropping elements and keeping the order. */
  predicate Subsequence<T(==)>(s: seq<T>, t: seq<T>)
    decreases |t|
  {
    s == [] || (t != [] && ((s[0] == t[0] && Subsequence(s[1..], t[1..])) || Subsequence(s, t[1..])))
  }

  lemma {:induction false} SubsequenceSelf<T>(s: seq<T>)
    ensures Subsequence(s, s)
  {
    if s != [] { SubsequenceSelf(s[1..]); }
  }

  lemma {:induction false} SubsequenceTrans<T>(s: seq<T>, t: seq<T>, u: seq<T>)
    requires Subsequence(s, t) && Subsequence(t, u)
    ensures Subsequence(s, u)
    decreases |u|
  {
    if s == [] {
    } else if t[0] == u[0] && Subsequence(t[1..], u[1..]) {
      if s[0] == t[0] && Subsequence(s[1..], t[1..]) {
        SubsequenceTrans(s[1..], t[1..], u[1..]);
      } else {
        SubsequenceTrans(s, t[1..], u[1..]);
      }
    } else {
      SubsequenceTrans(s, t, u[1..]);
    }
  }

  lemma {:induction false} SubsequenceConcat<T>(a: seq<T>, b: seq<T>, c: seq<T>, d: seq<T>)
    requires Subsequence(a, c) && Subsequence(b, d)
    ensures Subsequence(a + b, c + d)
    decreases |c|
  {
    if c == [] {
      assert a + b == b && c + d == d;
    } else {
      assert (c + d)[1..] == c[1..] + d;
      if a == [] {
        SubsequenceConcat(a, b, c[1..], d);
        assert a + b == b;
        if b != [] { assert Subsequence(b, (c + d)[1..]); }
      } else if a[0] == c[0] && Subsequence(a[1..], c[1..]) {
        SubsequenceConcat(a[1..], b, c[1..], d);
        assert (a + b)[1..] == a[1..] + b;
      } else {
        SubsequenceConcat(a, b, c[1..], d);
      }
    }
  }

  lemma {:induction false} SubsequenceMembers<T>(s: seq<T>, t: seq<T>, x: T)
    requires Subsequence(s, t) && x in s
    ensures x in t
    decreases |t|
  {
    if s[0] == t[0] && Subsequence(s[1..], t[1..]) {
      if x != s[0] {
        assert x in s[1..];
        SubsequenceMembers(s[1..], t[1..], x);
      }
    } else {
      SubsequenceMembers(s, t[1..], x);
    }
  }

  ghost predicate Distinct<T>(s: seq<T>) {
    forall i, j | 0 <= i < j < |s| :: s[i] != s[j]
  }

  lemma {:induction false} DistinctCount<T>(s: seq<T>, x: T)
    requires Distinct(s)
    ensures multiset(s)[x] <= 1
  {
    if s != [] {
      assert s == [s[0]] + s[1..];
      assert Distinct(s[1..]) && s[0] !in s[1..];
      DistinctCount(s[1..], x);
    }
  }

  /** The different elements with a property. */
  ghost function Having<T>(s: seq<T>, p: T -> bool): set<T> {
    set x | x in s && p(x)
  }

  /** Among distinct elements, as many as there are different ones with it. */
  lemma {:induction false} HowManyIsSize<T>(s: seq<T>, p: T -> bool)
    requires Distinct(s)
    ensures HowMany(s, p) == |Having(s, p)|
  {
    if s == [] {
      assert Having(s, p) == {};
    } else {
      var init, last := s[..|s| - 1], s[|s| - 1];
      assert s == init + [last] && last !in init;
      HowManyIsSize(init, p);
      assert Having(s, p) == if p(last) then Having(init, p) + {last} else Having(init, p);
    }
  }

  /** A permutation of distinct elements is distinct. */
  lemma PermutedDistinct<T>(s: seq<T>, t: seq<T>)
    requires multiset(s) == multiset(t) && Distinct(s)
    ensures Distinct(t)
  {
    forall i, j | 0 <= i < j < |t| ensures t[i] != t[j] {
      DistinctCount(s, t[i]);
      assert t == t[..j] + t[j..];
      assert t[i] == t[..j][i] && t[j] == t[j..][0];
    }
  }

  lemma {:induction false} SubsequenceDistinct<T>(s: seq<T>, t: seq<T>)
    requires Subsequence(s, t) && Distinct(t)
    ensures Distinct(s)
    decreases |t|
  {
    if s == [] {
    } else {
      assert Distinct(t[1..]);
      if s[0] == t[0] && Subsequence(s[1..], t[1..]) {
        SubsequenceDistinct(s[1..], t[1..]);
        assert t[0] !in t[1..];
        if s[0] in s[1..] { SubsequenceMembers(s[1..], t[1..], s[0]); }
        assert forall j | 0 < j < |s| :: s[j] in s[1..];
        assert forall i, j | 0 < i < j < |s| :: s[i] == s[1..][i - 1] && s[j] == s[1..][j - 1];
      } else {
        SubsequenceDistinct(s, t[1..]);
      }
    }
  }

  /** The elements that pass a test, in order. */
  function Filter<T>(s: seq<T>, keep: T -> bool): seq<T> {
    if s == [] then [] else (if keep(s[0]) then [s[0]] else []) + Filter(s[1..], keep)
  }

  lemma {:induction false} FilterMembers<T>(s: seq<T>, keep: T -> bool)
    ensures forall x :: x in Filter(s, keep) <==> x in s && keep(x)
  {
    if s != [] {
      FilterMembers(s[1..], keep);
      assert s == [s[0]] + s[1..];
    }
  }

  lemma {:induction false} FilterSubsequence<T>(s: seq<T>, keep: T -> bool)
    ensures Subsequence(Filter(s, keep), s)
  {
    if s != [] {
      FilterSubsequence(s[1..], keep);
      if keep(s[0]) {
        assert Filter(s, keep)[1..] == Filter(s[1..], keep);
      } else {
        assert Filter(s, keep) == Filter(s[1..], keep);
      }
    }
  }

  lemma FilterDistinct<T>(s: seq<T>, keep: T -> bool)
    requires Distinct(s)
    ensures Distinct(Filter(s, keep))
  {
    FilterSubsequence(s, keep);
    SubsequenceDistinct(Filter(s, keep), s);
  }

  ghost predicate TotalPreorder<T(!new)>(le: (T, T) -> bool) {
    && (forall a, b :: le(a, b) || le(b, a))
    && (forall a, b, c :: le(a, b) && le(b, c) ==> le(a, c))
  }

  ghost predicate Sorted<T>(le: (T, T) -> bool, s: seq<T>) {
    forall i, j | 0 <= i < j < |s| :: le(s[i], s[j])
  }

  /** Puts `x` before the first element it may precede. */
  function Insert<T>(le: (T, T) -> bool, x: T, s: seq<T>): seq<T> {
    if s == [] then [x]
    else if le(x, s[0]) then [x] + s
    else [s[0]] + Insert(le, x, s[1..])
  }

  /** Stable sort: equal elements keep their order. */
  function SortBy<T>(le: (T, T) -> bool, s: seq<T>): seq<T> {
    if s == [] then [] else Insert(le, s[0], SortBy(le, s[1..]))
  }

  lemma {:induction false} InsertPermutes<T>(le: (T, T) -> bool, x: T, s: seq<T>)
    ensures multiset(Insert(le, x, s)) == multiset{x} + multiset(s)
  {
    if s == [] {
    } else if le(x, s[0]) {
    } else {
      InsertPermutes(le, x, s[1..]);
      assert s == [s[0]] + s[1..];
    }
  }

  lemma {:induction false} SortPermutes<T>(le: (T, T) -> bool, s: seq<T>)
    ensures multiset(SortBy(le, s)) == multiset(s)
    ensures |SortBy(le, s)| == |s|
  {
    if s != [] {
      SortPermutes(le, s[1..]);
      InsertPermutes(le, s[0], SortBy(le, s[1..]));
      assert s == [s[0]] + s[1..];
    }
    assert |SortBy(le, s)| == |multiset(SortBy(le, s))| == |multiset(s)|;
  }

  lemma {:induction false} InsertSorted<T(!new)>(le: (T, T) -> bool, x: T, s: seq<T>)
    requires TotalPreorder(le) && Sorted(le, s)
    ensures Sorted(le, Insert(le, x, s))
  {
    if s == [] {
    } else if le(x, s[0]) {
      forall i, j | 0 <= i < j < |s| + 1 ensures le(([x] + s)[i], ([x] + s)[j]) {
        if i == 0 && j > 1 { assert le(s[0], s[j - 1]); }
      }
    } else {
      assert Sorted(le, s[1..]);
      InsertSorted(le, x, s[1..]);
      var r := Insert(le, x, s[1..]);
      InsertPermutes(le, x, s[1..]);
      forall k | 0 <= k < |r| ensures le(s[0], r[k]) {
        assert r[k] in multiset(r);
        if r[k] != x {
          assert r[k] in multiset(s[1..]);
          var m :| 0 <= m < |s[1..]| && s[1..][m] == r[k];
          assert s[m + 1] == r[k];
        }
      }
    }
  }

  lemma {:induction false} SortSorted<T(!new)>(le: (T, T) -> bool, s: seq<T>)
    requires TotalPreorder(le)
    ensures Sorted(le, SortBy(le, s))
  {
    if s != [] {
      SortSorted(le, s[1..]);
      InsertSorted(le, s[0], SortBy(le, s[1..]));
    }
  }

  /** Two sorted arrangements of the same elements agree when ties are impossible. */
  lemma {:induction false} SortedUnique<T>(le: (T, T) -> bool, s: seq<T>, t: seq<T>)
    requires Sorted(le, s) && Sorted(le, t) && multiset(s) == multiset(t)
    requires forall x, y | x in s && y in s && le(x, y) && le(y, x) :: x == y
    ensures s == t
  {
    assert |s| == |multiset(s)| == |t|;
    if s != [] {
      SortedHeads(le, s, t);
      TailMultiset(s);
      TailMultiset(t);
      SortedUnique(le, s[1..], t[1..]);
    }
  }

  lemma TailMultiset<T>(s: seq<T>)
    requires s != []
    ensures multiset(s[1..]) == multiset(s) - multiset{s[0]}
  {
    assert s == [s[0]] + s[1..];
  }

  lemma SortedHeads<T>(le: (T, T) -> bool, s: seq<T>, t: seq<T>)
    requires Sorted(le, s) && Sorted(le, t) && multiset(s) == multiset(t) && s != []
    requires forall x, y | x in s && y in s && le(x, y) && le(y, x) :: x == y
    ensures t != [] && s[0] == t[0]
  {
    assert s[0] in multiset(t);
    assert t != [];
    assert t[0] in multiset(s);
  }

  lemma {:induction false} SortFixed<T>(le: (T, T) -> bool, s: seq<T>)
    requires Sorted(le, s)
    ensures SortBy(le, s) == s
  {
    if s != [] {
      SortFixed(le, s[1..]);
      if |s| > 1 { assert le(s[0], s[1]); }
    }
  }

  /** Codepoint order on strings. */
  predicate LexLe(a: string, b: string) {
    a == "" || (b != "" && (a[0] < b[0] || (a[0] == b[0] && LexLe(a[1..], b[1..]))))
  }

  ghost predicate SmallerAt(a: string, b: string, k: nat) {
    k < |a| && k < |b| && a[..k] == b[..k] && a[k] < b[k]
  }

  /** One string comes before another if it begins it, or has the smaller character
      at the first place where they differ. */
  lemma {:induction false} LexLeIs(a: string, b: string)
    ensures LexLe(a, b) <==> a <= b || exists k: nat :: SmallerAt(a, b, k)
  {
    if a != "" && b != "" && a[0] == b[0] {
      LexLeIs(a[1..], b[1..]);
      assert a == [a[0]] + a[1..] && b == [b[0]] + b[1..];
      forall k: nat ensures SmallerAt(a[1..], b[1..], k) <==> SmallerAt(a, b, k + 1) {
        if k < |a| - 1 && k < |b| - 1 {
          assert a[..k + 1] == [a[0]] + a[1..][..k] && b[..k + 1] == [b[0]] + b[1..][..k];
          if a[..k + 1] == b[..k + 1] { assert a[1..][..k] == a[..k + 1][1..] == b[1..][..k]; }
        }
      }
      assert a <= b <==> a[1..] <= b[1..];
      if k: nat :| SmallerAt(a, b, k) { assert SmallerAt(a[1..], b[1..], k - 1); }
    } else if a != "" && b != "" {
      assert SmallerAt(a, b, 0) <==> a[0] < b[0];
    }
  }

  lemma {:induction false} LexTotal(a: string, b: string)
    ensures LexLe(a, b) || LexLe(b, a)
  {
    if a != "" && b != "" && a[0] == b[0] { LexTotal(a[1..], b[1..]); }
  }

  lemma {:induction false} LexTrans(a: string, b: string, c: string)
    requires LexLe(a, b) && LexLe(b, c)
    ensures LexLe(a, c)
  {
    if a != "" && a[0] == b[0] == c[0] { LexTrans(a[1..], b[1..], c[1..]); }
  }

  lemma {:induction false} LexAntisym(a: string, b: string)
    requires LexLe(a, b) && LexLe(b, a)
    ensures a == b
  {
    if a != "" {
      LexAntisym(a[1..], b[1..]);
      assert a == [a[0]] + a[1..] && b == [b[0]] + b[1..];
    }
  }
}
