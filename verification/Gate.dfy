// The paired non-inferiority gate on exact rationals: bootstrap means over a
// fixed table of draws, two order statistics, three decisions.

module Gate {
  import opened Arithmetic
  import opened Sums
  import opened Orders

  const MIN_RUNS := 3

  /** One finished run: every question's correctness label. */
  type Run = map<string, int>

  /** The random generator as a fixed table: the k-th draw of a resample. */
  datatype Draws = Draws(pick: (nat, nat, nat) -> nat)

  function Draw(draws: Draws, size: nat, r: nat, k: nat): (index: nat)
    requires size > 0
    ensures index < size
  {
    draws.pick(size, r, k) % size
  }

  // ---- differences and resample means ----

  predicate Answers(runs: seq<Run>, questions: seq<string>) {
    forall k, q :: 0 <= k < |runs| && q in questions ==> q in runs[k]
  }

  function LabelSum(runs: seq<Run>, q: string): int {
    if runs == [] then 0 else LabelSum(runs[1..], q) + if q in runs[0] then runs[0][q] else 0
  }

  function MeanLabel(runs: seq<Run>, q: string): real
    requires runs != []
  {
    LabelSum(runs, q) as real / |runs| as real
  }

  function Difference(main: seq<Run>, change: seq<Run>, q: string): real
    requires main != [] && change != []
  {
    MeanLabel(change, q) - MeanLabel(main, q)
  }

  function Differences(main: seq<Run>, change: seq<Run>, questions: seq<string>): (d: seq<real>)
    requires main != [] && change != []
    ensures |d| == |questions|
  {
    seq(|questions|, i requires 0 <= i < |questions| => Difference(main, change, questions[i]))
  }

  /** The total of the first `n` draws of resample `r`. */
  function DrawnTotal(d: seq<real>, draws: Draws, r: nat, n: nat): real
    requires d != []
  {
    if n == 0 then 0.0 else DrawnTotal(d, draws, r, n - 1) + d[Draw(draws, |d|, r, n - 1)]
  }

  function ResampleMean(d: seq<real>, draws: Draws, r: nat): real
    requires d != []
  {
    DrawnTotal(d, draws, r, |d|) / |d| as real
  }

  function Means(d: seq<real>, draws: Draws, resamples: nat): (m: seq<real>)
    requires d != []
    ensures |m| == resamples
  {
    seq(resamples, r requires 0 <= r < resamples => ResampleMean(d, draws, r))
  }

  // ---- the decision ----

  predicate RealLe(a: real, b: real) {
    a <= b
  }

  function SortedMeans(means: seq<real>): seq<real> {
    SortBy(RealLe, means)
  }

  /** The five-percent order statistic's position. */
  function LowerIndex(resamples: nat): nat {
    resamples / 20
  }

  /** The ninety-five-percent one's; for a single resample it is one before the
      start, which wraps to the end. */
  function UpperIndex(resamples: nat): nat
    requires resamples >= 1
  {
    if 19 * resamples / 20 == 0 then resamples - 1 else 19 * resamples / 20 - 1
  }

  function Lower(means: seq<real>): real
    requires means != []
  {
    SortPermutes(RealLe, means);
    SortedMeans(means)[LowerIndex(|means|)]
  }

  function Upper(means: seq<real>): real
    requires means != []
  {
    SortPermutes(RealLe, means);
    SortedMeans(means)[UpperIndex(|means|)]
  }

  datatype Decision = Fail | Inconclusive | Pass

  function Decide(lower: real, upper: real, margin: real): Decision {
    if lower > -margin then Pass
    else if upper < -margin then Fail
    else Inconclusive
  }

  function Verdict(
      main: seq<Run>, change: seq<Run>, questions: seq<string>, draws: Draws, resamples: nat, margin: real): Decision
    requires main != [] && change != [] && questions != [] && resamples >= 1
  {
    var means := Means(Differences(main, change, questions), draws, resamples);
    Decide(Lower(means), Upper(means), margin)
  }

  // ---- what the decision says ----

  ghost predicate Ascending(s: seq<real>) {
    forall i, j :: 0 <= i <= j < |s| ==> s[i] <= s[j]
  }

  lemma SortAscends(s: seq<real>)
    ensures Ascending(SortedMeans(s)) && |SortedMeans(s)| == |s|
  {
    SortSorted(RealLe, s);
    SortPermutes(RealLe, s);
    var t := SortedMeans(s);
    forall i, j | 0 <= i <= j < |t| ensures t[i] <= t[j] {
      assert i == j || RealLe(t[i], t[j]);
    }
  }

  function AtMost(x: real): real -> bool {
    (y: real) => y <= x
  }

  function Less(x: real): real -> bool {
    (y: real) => y < x
  }

  /** The lower bound exceeds a value if and only if at most a twentieth of the
      means do not. */
  lemma LowerTells(means: seq<real>, x: real)
    requires means != []
    ensures Lower(means) > x <==> 20 * HowMany(means, AtMost(x)) <= |means|
  {
    SortAscends(means);
    SortPermutes(RealLe, means);
    HowManyPermuted(SortedMeans(means), means, AtMost(x));
    HowManyUpTo(SortedMeans(means), AtMost(x), LowerIndex(|means|));
  }

  /** The upper bound is less than a value if and only if at least nineteen
      twentieths of the means are, and one. */
  lemma UpperTells(means: seq<real>, x: real)
    requires means != []
    ensures Upper(means) < x <==> HowMany(means, Less(x)) >= 19 * |means| / 20 && HowMany(means, Less(x)) >= 1
  {
    SortAscends(means);
    SortPermutes(RealLe, means);
    HowManyPermuted(SortedMeans(means), means, Less(x));
    HowManyUpTo(SortedMeans(means), Less(x), UpperIndex(|means|));
  }

  /** The decision, by how many resample means lie on which side of the margin:
      passed if at most a twentieth reach down to it, failed if nineteen twentieths
      lie below it. */
  ghost predicate CountsDecide(means: seq<real>, margin: real, d: Decision) {
    var reach, below := HowMany(means, AtMost(-margin)), HowMany(means, Less(-margin));
    && (d.Pass? <==> 20 * reach <= |means|)
    && (d.Fail? <==> 20 * reach > |means| && below >= 1 && below >= 19 * |means| / 20)
  }

  lemma DecisionIsByCounts(means: seq<real>, margin: real)
    requires means != []
    ensures CountsDecide(means, margin, Decide(Lower(means), Upper(means), margin))
  {
    LowerTells(means, -margin);
    UpperTells(means, -margin);
  }

  function LabelIn(q: string): Run -> int {
    (run: Run) => if q in run then run[q] else 0
  }

  lemma {:induction false} LabelsAdd(runs: seq<Run>, q: string)
    ensures LabelSum(runs, q) == SeqSum(runs, LabelIn(q))
  {
    if runs != [] { LabelsAdd(runs[1..], q); }
  }

  /** A question's difference is its mean label over the change runs less that
      over the main runs. */
  lemma DifferenceTells(main: seq<Run>, change: seq<Run>, questions: seq<string>, i: nat)
    requires main != [] && change != [] && i < |questions|
    ensures Differences(main, change, questions)[i] ==
      SeqSum(change, LabelIn(questions[i])) as real / |change| as real
      - SeqSum(main, LabelIn(questions[i])) as real / |main| as real
  {
    LabelsAdd(main, questions[i]);
    LabelsAdd(change, questions[i]);
  }

  function RealSum(s: seq<real>): real {
    if s == [] then 0.0 else s[0] + RealSum(s[1..])
  }

  lemma {:induction false} RealSumSnoc(s: seq<real>, x: real)
    ensures RealSum(s + [x]) == RealSum(s) + x
  {
    if s == [] {
      assert s + [x] == [x];
    } else {
      assert (s + [x])[1..] == s[1..] + [x];
      RealSumSnoc(s[1..], x);
    }
  }

  /** The first `n` differences drawn by resample `r`. */
  function Drawn(d: seq<real>, draws: Draws, r: nat, n: nat): (drawn: seq<real>)
    requires d != []
    ensures |drawn| == n
  {
    seq(n, k requires 0 <= k < n => d[draws.pick(|d|, r, k) % |d|])
  }

  lemma {:induction false} TotalIsDrawn(d: seq<real>, draws: Draws, r: nat, n: nat)
    requires d != []
    ensures DrawnTotal(d, draws, r, n) == RealSum(Drawn(d, draws, r, n))
  {
    if n > 0 {
      TotalIsDrawn(d, draws, r, n - 1);
      RealSumSnoc(Drawn(d, draws, r, n - 1), d[draws.pick(|d|, r, n - 1) % |d|]);
      assert Drawn(d, draws, r, n) == Drawn(d, draws, r, n - 1) + [d[draws.pick(|d|, r, n - 1) % |d|]];
    }
  }

  /** Each resample mean is that of as many drawn differences as there are questions. */
  lemma MeansAreDrawn(d: seq<real>, draws: Draws, resamples: nat, r: nat)
    requires d != [] && r < resamples
    ensures Means(d, draws, resamples)[r] == RealSum(Drawn(d, draws, r, |d|)) / |d| as real
  {
    TotalIsDrawn(d, draws, r, |d|);
  }

  datatype GateResult =
    | TooFewRuns
    | DifferentQuestions
    | NoQuestions
    | NoResamples
    | Decided(questions: nat, lower: real, upper: real, decision: Decision)

  ghost predicate SameQuestions(runs: seq<Run>) {
    forall j, k :: 0 <= j < |runs| && 0 <= k < |runs| ==> runs[j].Keys == runs[k].Keys
  }

  predicate TextLe(a: string, b: string) {
    LexLe(a, b)
  }

  lemma TextIsOrdered()
    ensures TotalPreorder(TextLe)
  {
    forall a: string, b: string ensures TextLe(a, b) || TextLe(b, a) { LexTotal(a, b); }
    forall a: string, b: string, c: string | TextLe(a, b) && TextLe(b, c) ensures TextLe(a, c) { LexTrans(a, b, c); }
  }

  /** A set's members in order. */
  method SortedMembers(keys: set<string>) returns (sorted: seq<string>)
    ensures Sorted(TextLe, sorted) && Distinct(sorted) && forall q :: q in sorted <==> q in keys
  {
    var left := keys;
    var all: seq<string> := [];
    while left != {}
      invariant forall q :: q in keys <==> q in left || q in all
      invariant Distinct(all) && forall q :: q in all ==> q !in left
      decreases |left|
    {
      var q :| q in left;
      all := all + [q];
      left := left - {q};
    }
    TextIsOrdered();
    SortSorted(TextLe, all);
    SortPermutes(TextLe, all);
    sorted := SortBy(TextLe, all);
    PermutedDistinct(all, sorted);
    assert forall q :: q in sorted <==> q in multiset(sorted);
    assert forall q :: q in all <==> q in multiset(all);
  }

  /** Enough runs on both sides, all of the same one or more questions. */
  ghost predicate Comparable(main: seq<Run>, change: seq<Run>) {
    |main| >= MIN_RUNS && |change| >= MIN_RUNS && SameQuestions(main + change) && main[0] != map[]
  }

  /** Applies the rule. The bounds and the decision belong to the runs' common
      questions in sorted order. */
  method Gate(main: seq<Run>, change: seq<Run>, margin: real, resamples: nat, draws: Draws)
    returns (result: GateResult, ghost questions: seq<string>)
    ensures result.TooFewRuns? <==> |main| < MIN_RUNS || |change| < MIN_RUNS
    ensures result.DifferentQuestions? <==> !result.TooFewRuns? && !SameQuestions(main + change)
    ensures result.NoQuestions? <==> !result.TooFewRuns? && SameQuestions(main + change) && main[0] == map[]
    ensures result.NoResamples? <==> Comparable(main, change) && resamples == 0
    ensures result.Decided? <==> Comparable(main, change) && resamples >= 1
    ensures result.Decided? ==>
      && questions != []
      && Sorted(TextLe, questions) && Distinct(questions) && (forall q :: q in questions <==> q in main[0])
      && result.questions == |questions|
      && var means := Means(Differences(main, change, questions), draws, resamples);
         result.lower == Lower(means) && result.upper == Upper(means)
         && result.decision == Verdict(main, change, questions, draws, resamples, margin)
         && CountsDecide(means, margin, result.decision)
  {
    questions := [];
    if |main| < MIN_RUNS || |change| < MIN_RUNS {
      return TooFewRuns, questions;
    }
    var runs := main + change;
    for k := 0 to |runs|
      invariant forall j :: 0 <= j < k ==> runs[j].Keys == main[0].Keys
    {
      if runs[k].Keys != main[0].Keys {
        assert runs[0] == main[0];
        return DifferentQuestions, questions;
      }
    }
    if main[0] == map[] {
      return NoQuestions, questions;
    }
    var sorted := SortedMembers(main[0].Keys);
    questions := sorted;
    var some :| some in main[0];
    assert some in sorted;
    if resamples == 0 {
      return NoResamples, questions;
    }
    var means := Means(Differences(main, change, sorted), draws, resamples);
    var lower, upper := Lower(means), Upper(means);
    DecisionIsByCounts(means, margin);
    result := Decided(|sorted|, lower, upper, Decide(lower, upper, margin));
  }

  // ---- order statistics ----

  /** The lower bound never exceeds the upper one. */
  lemma LowerIsBelowUpper(means: seq<real>)
    requires means != []
    ensures Lower(means) <= Upper(means)
  {
    SortSorted(RealLe, means);
    SortPermutes(RealLe, means);
    var i, j, s := LowerIndex(|means|), UpperIndex(|means|), SortedMeans(means);
    assert i == j || RealLe(s[i], s[j]);
  }

  ghost predicate Below(a: seq<real>, b: seq<real>) {
    |a| == |b| && forall k :: 0 <= k < |a| ==> a[k] <= b[k]
  }

  /** Inserting no larger a value into no larger a list keeps it no larger. */
  lemma {:induction false} InsertBelow(x: real, y: real, a: seq<real>, b: seq<real>)
    requires x <= y && Below(a, b) && Ascending(a) && Ascending(b)
    ensures Below(Insert(RealLe, x, a), Insert(RealLe, y, b))
    decreases |a|
  {
    if a == [] {
    } else {
      if x <= a[0] && y <= b[0] {
      } else if x <= a[0] {
        InsertBelow(a[0], y, a[1..], b[1..]);
      } else if y <= b[0] {
        InsertBelow(x, b[0], a[1..], b[1..]);
      } else {
        InsertBelow(x, y, a[1..], b[1..]);
      }
    }
  }

  /** Every order statistic of a pointwise larger list is at least as large. */
  lemma {:induction false} SortedBelow(a: seq<real>, b: seq<real>)
    requires Below(a, b)
    ensures Below(SortedMeans(a), SortedMeans(b))
  {
    if a != [] {
      SortedBelow(a[1..], b[1..]);
      SortAscends(a[1..]);
      SortAscends(b[1..]);
      InsertBelow(a[0], b[0], SortedMeans(a[1..]), SortedMeans(b[1..]));
    }
  }

  // ---- monotonicity ----

  /** The same runs with some labels raised. */
  ghost predicate Raised(before: seq<Run>, after: seq<Run>) {
    |before| == |after|
    && forall k, q :: 0 <= k < |before| && q in before[k] ==> q in after[k] && before[k][q] <= after[k][q]
  }

  lemma {:induction false} RaisedSum(before: seq<Run>, after: seq<Run>, q: string)
    requires Raised(before, after) && forall k :: 0 <= k < |before| ==> q in before[k]
    ensures LabelSum(before, q) <= LabelSum(after, q)
  {
    if before != [] {
      assert before[0][q] <= after[0][q];
      forall k, p | 0 <= k < |before[1..]| && p in before[1..][k]
        ensures p in after[1..][k] && before[1..][k][p] <= after[1..][k][p]
      {
        assert p in before[k + 1];
      }
      RaisedSum(before[1..], after[1..], q);
    }
  }

  lemma RaisedDifferences(main: seq<Run>, before: seq<Run>, after: seq<Run>, questions: seq<string>)
    requires main != [] && before != [] && Raised(before, after) && Answers(before, questions)
    ensures Below(Differences(main, before, questions), Differences(main, after, questions))
  {
    forall i | 0 <= i < |questions|
      ensures Difference(main, before, questions[i]) <= Difference(main, after, questions[i])
    {
      assert questions[i] in questions;
      RaisedSum(before, after, questions[i]);
      QuotientGrows(LabelSum(before, questions[i]) as real, LabelSum(after, questions[i]) as real, |before| as real);
    }
  }

  lemma {:induction false} RaisedTotal(d: seq<real>, e: seq<real>, draws: Draws, r: nat, n: nat)
    requires d != [] && Below(d, e)
    ensures DrawnTotal(d, draws, r, n) <= DrawnTotal(e, draws, r, n)
  {
    if n > 0 { RaisedTotal(d, e, draws, r, n - 1); }
  }

  lemma RaisedMeans(d: seq<real>, e: seq<real>, draws: Draws, resamples: nat)
    requires d != [] && Below(d, e)
    ensures Below(Means(d, draws, resamples), Means(e, draws, resamples))
  {
    forall r | 0 <= r < resamples ensures ResampleMean(d, draws, r) <= ResampleMean(e, draws, r) {
      RaisedTotal(d, e, draws, r, |d|);
      QuotientGrows(DrawnTotal(d, draws, r, |d|), DrawnTotal(e, draws, r, |d|), |d| as real);
    }
  }

  lemma RaisedBounds(a: seq<real>, b: seq<real>)
    requires a != [] && Below(a, b)
    ensures Lower(a) <= Lower(b) && Upper(a) <= Upper(b)
  {
    SortedBelow(a, b);
    SortAscends(a);
  }

  /** A decision that is no worse than another. */
  predicate NotBelow(d: Decision, e: Decision) {
    d == e || d == Pass || e == Fail
  }

  /** Raising labels on the change side never moves the decision down. */
  lemma GateIsMonotone(
      main: seq<Run>, before: seq<Run>, after: seq<Run>, questions: seq<string>, draws: Draws, resamples: nat,
      margin: real)
    requires main != [] && before != [] && questions != [] && resamples >= 1
    requires Raised(before, after) && Answers(before, questions)
    ensures
      NotBelow(
        Verdict(main, after, questions, draws, resamples, margin),
        Verdict(main, before, questions, draws, resamples, margin))
  {
    var d, e := Differences(main, before, questions), Differences(main, after, questions);
    RaisedDifferences(main, before, after, questions);
    RaisedMeans(d, e, draws, resamples);
    RaisedBounds(Means(d, draws, resamples), Means(e, draws, resamples));
  }

  // ---- duality ----

  function Negated(s: seq<real>): (t: seq<real>)
    ensures |t| == |s|
  {
    seq(|s|, i requires 0 <= i < |s| => -s[i])
  }

  function Mirrored(s: seq<real>): (t: seq<real>)
    ensures |t| == |s|
  {
    seq(|s|, i requires 0 <= i < |s| => -s[|s| - 1 - i])
  }

  lemma SwappedDifferences(main: seq<Run>, change: seq<Run>, questions: seq<string>)
    requires main != [] && change != []
    ensures Differences(change, main, questions) == Negated(Differences(main, change, questions))
  {
  }

  lemma {:induction false} NegatedTotal(d: seq<real>, draws: Draws, r: nat, n: nat)
    requires d != []
    ensures DrawnTotal(Negated(d), draws, r, n) == -DrawnTotal(d, draws, r, n)
  {
    if n > 0 { NegatedTotal(d, draws, r, n - 1); }
  }

  lemma NegatedMeans(d: seq<real>, draws: Draws, resamples: nat)
    requires d != []
    ensures Means(Negated(d), draws, resamples) == Negated(Means(d, draws, resamples))
  {
    forall r | 0 <= r < resamples ensures ResampleMean(Negated(d), draws, r) == -ResampleMean(d, draws, r) {
      NegatedTotal(d, draws, r, |d|);
    }
  }

  lemma {:induction false} NegatedCount(s: seq<real>, x: real)
    ensures multiset(Negated(s))[x] == multiset(s)[-x]
  {
    if s != [] {
      NegatedCount(s[1..], x);
      assert s == [s[0]] + s[1..];
      assert Negated(s) == [-s[0]] + Negated(s[1..]);
    }
  }

  lemma NegatedMultiset(s: seq<real>, t: seq<real>)
    requires multiset(s) == multiset(t)
    ensures multiset(Negated(s)) == multiset(Negated(t))
  {
    forall x ensures multiset(Negated(s))[x] == multiset(Negated(t))[x] {
      NegatedCount(s, x);
      NegatedCount(t, x);
    }
  }

  lemma {:induction false} MirrorPermutes(s: seq<real>)
    ensures multiset(Mirrored(s)) == multiset(Negated(s))
  {
    if s != [] {
      MirrorPermutes(s[1..]);
      assert Mirrored(s) == Mirrored(s[1..]) + [-s[0]];
      assert Negated(s) == [-s[0]] + Negated(s[1..]);
    }
  }

  /** Sorting the negated values mirrors the sorted values. */
  lemma SortNegated(s: seq<real>)
    ensures SortedMeans(Negated(s)) == Mirrored(SortedMeans(s))
  {
    SortAscends(s);
    SortAscends(Negated(s));
    SortPermutes(RealLe, s);
    SortPermutes(RealLe, Negated(s));
    NegatedMultiset(SortedMeans(s), s);
    MirrorPermutes(SortedMeans(s));
    var a, b := SortedMeans(Negated(s)), Mirrored(SortedMeans(s));
    assert Sorted(RealLe, a) && Sorted(RealLe, b);
    SortedUnique(RealLe, a, b);
  }

  predicate Balanced(resamples: nat) {
    resamples % 20 == 0 || resamples == 1
  }

  /** Negating every mean exchanges and negates the bounds, for balanced counts. */
  lemma NegatedBounds(means: seq<real>)
    requires means != [] && Balanced(|means|)
    ensures Lower(Negated(means)) == -Upper(means) && Upper(Negated(means)) == -Lower(means)
  {
    SortNegated(means);
    SortAscends(means);
  }

  /** Swapping the two sides negates and exchanges the bounds. */
  ghost predicate Dual(main: seq<Run>, change: seq<Run>, questions: seq<string>, draws: Draws, resamples: nat)
    requires main != [] && change != [] && questions != [] && resamples >= 1
  {
    var means, swapped :=
      Means(Differences(main, change, questions), draws, resamples),
      Means(Differences(change, main, questions), draws, resamples);
    Lower(swapped) == -Upper(means) && Upper(swapped) == -Lower(means)
  }

  lemma BalancedIsDual(main: seq<Run>, change: seq<Run>, questions: seq<string>, draws: Draws, resamples: nat)
    requires main != [] && change != [] && questions != [] && resamples >= 1 && Balanced(resamples)
    ensures Dual(main, change, questions, draws, resamples)
  {
    var d := Differences(main, change, questions);
    SwappedDifferences(main, change, questions);
    NegatedMeans(d, draws, resamples);
    NegatedBounds(Means(d, draws, resamples));
  }

  // For any other count, duality fails: a gap between the two sides of the
  // upper order statistic is enough.

  const LEFT := "a"
  const RIGHT := "b"

  /** Resamples up to `cut` draw the first question only, all others the second. */
  function CutDraws(cut: nat): Draws {
    Draws((size, r, k) => if r < cut then 0 else 1)
  }

  function Steps(cut: nat, resamples: nat, high: real): (s: seq<real>)
    ensures |s| == resamples
  {
    seq(resamples, r requires 0 <= r < resamples => if r < cut then 0.0 else high)
  }

  lemma {:induction false} CutTotal(d: seq<real>, cut: nat, r: nat, n: nat)
    requires |d| == 2
    ensures DrawnTotal(d, CutDraws(cut), r, n) == n as real * (if r < cut then d[0] else d[1])
  {
    if n > 0 {
      CutTotal(d, cut, r, n - 1);
      assert Draw(CutDraws(cut), 2, r, n - 1) == if r < cut then 0 else 1;
    }
  }

  lemma CutMeans(high: real, cut: nat, resamples: nat)
    ensures Means([0.0, high], CutDraws(cut), resamples) == Steps(cut, resamples, high)
  {
    forall r | 0 <= r < resamples
      ensures ResampleMean([0.0, high], CutDraws(cut), r) == if r < cut then 0.0 else high
    {
      CutTotal([0.0, high], cut, r, 2);
    }
  }

  lemma StepsUp(cut: nat, resamples: nat)
    requires resamples >= 1 && cut == UpperIndex(resamples) + 1 < resamples
    ensures Upper(Steps(cut, resamples, 1.0)) == 0.0
  {
    var s := Steps(cut, resamples, 1.0);
    assert Sorted(RealLe, s);
    SortFixed(RealLe, s);
  }

  lemma StepsDown(cut: nat, resamples: nat)
    requires resamples >= 1 && LowerIndex(resamples) < resamples - cut
    requires cut <= resamples
    ensures Lower(Steps(cut, resamples, -1.0)) == -1.0
  {
    var s := Steps(cut, resamples, -1.0);
    var t := Negated(Steps(cut, resamples, 1.0));
    assert s == t;
    SortNegated(Steps(cut, resamples, 1.0));
    assert Sorted(RealLe, Steps(cut, resamples, 1.0));
    SortFixed(RealLe, Steps(cut, resamples, 1.0));
    assert SortedMeans(s) == Mirrored(Steps(cut, resamples, 1.0));
  }

  const QUIET: seq<Run> := [map[LEFT := 0, RIGHT := 0], map[LEFT := 0, RIGHT := 0], map[LEFT := 0, RIGHT := 0]]
  const LOUD: seq<Run> := [map[LEFT := 0, RIGHT := 1], map[LEFT := 0, RIGHT := 1], map[LEFT := 0, RIGHT := 1]]

  lemma QuietAndLoud()
    ensures Differences(QUIET, LOUD, [LEFT, RIGHT]) == [0.0, 1.0]
    ensures Differences(LOUD, QUIET, [LEFT, RIGHT]) == [0.0, -1.0]
  {
    assert LEFT[0] != RIGHT[0];
    assert QUIET[1..] == [QUIET[1], QUIET[2]] && QUIET[1..][1..] == [QUIET[2]] && QUIET[1..][1..][1..] == [];
    assert LOUD[1..] == [LOUD[1], LOUD[2]] && LOUD[1..][1..] == [LOUD[2]] && LOUD[1..][1..][1..] == [];
    assert LabelSum(QUIET[1..][1..], LEFT) == 0 && LabelSum(QUIET[1..][1..], RIGHT) == 0;
    assert LabelSum(LOUD[1..][1..], LEFT) == 0 && LabelSum(LOUD[1..][1..], RIGHT) == 1;
    assert LabelSum(QUIET[1..], LEFT) == 0 && LabelSum(QUIET[1..], RIGHT) == 0;
    assert LabelSum(LOUD[1..], LEFT) == 0 && LabelSum(LOUD[1..], RIGHT) == 2;
    assert LabelSum(QUIET, LEFT) == 0 && LabelSum(QUIET, RIGHT) == 0;
    assert LabelSum(LOUD, LEFT) == 0 && LabelSum(LOUD, RIGHT) == 3;
  }

  lemma UnbalancedIsNotDual(resamples: nat)
    requires resamples >= 1 && !Balanced(resamples)
    ensures !Dual(QUIET, LOUD, [LEFT, RIGHT], CutDraws(UpperIndex(resamples) + 1), resamples)
  {
    var cut := UpperIndex(resamples) + 1;
    QuietAndLoud();
    CutMeans(1.0, cut, resamples);
    CutMeans(-1.0, cut, resamples);
    StepsUp(cut, resamples);
    StepsDown(cut, resamples);
  }

  /** Swapping the two sides negates and exchanges the bounds, whatever the runs
      and the draws, if and only if the resamples are one or a multiple of twenty. */
  lemma DualityIsBalance(resamples: nat)
    requires resamples >= 1
    ensures Balanced(resamples) <==>
      forall main: seq<Run>, change: seq<Run>, questions: seq<string>, draws: Draws ::
        main != [] && change != [] && questions != [] ==> Dual(main, change, questions, draws, resamples)
  {
    if Balanced(resamples) {
      forall main: seq<Run>, change: seq<Run>, questions: seq<string>, draws: Draws
        | main != [] && change != [] && questions != []
        ensures Dual(main, change, questions, draws, resamples)
      {
        BalancedIsDual(main, change, questions, draws, resamples);
      }
    } else {
      UnbalancedIsNotDual(resamples);
    }
  }
}
