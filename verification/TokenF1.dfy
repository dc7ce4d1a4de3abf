// Token F1 on stemmed tokens, and the category-aware answer score built on it.

module TokenF1 {
  import opened Arithmetic
  import opened Wrappers
  import opened Sums
  import opened Records

  type Tokens = seq<string>

  /** Tokens in common, repetitions included. */
  function Common(p: Tokens, g: Tokens): nat {
    |multiset(p) * multiset(g)|
  }

  /** Counts the common tokens by crossing them off. */
  method CountCommon(p: Tokens, g: Tokens) returns (same: nat)
    ensures same == Common(p, g)
  {
    same := 0;
    var left := multiset(g);
    for i := 0 to |p|
      invariant left == multiset(g) - multiset(p[..i])
      invariant same == |multiset(p[..i]) * multiset(g)|
    {
      assert p[..i + 1] == p[..i] + [p[i]];
      CrossOff(multiset(p[..i]), multiset(g), p[i]);
      if p[i] in left {
        same := same + 1;
        left := left - multiset{p[i]};
      }
    }
    assert p[..|p|] == p;
  }

  lemma CrossOff(done: multiset<string>, g: multiset<string>, token: string)
    ensures
      var more := done + multiset{token};
      if token in g - done then
        |more * g| == |done * g| + 1 && g - more == g - done - multiset{token}
      else more * g == done * g && g - more == g - done
  {
    var more := done + multiset{token};
    if token in g - done {
      assert more * g == (done * g) + multiset{token};
    } else {
      assert more * g == done * g;
      assert g - more == g - done;
    }
  }

  lemma CommonBounds(p: Tokens, g: Tokens)
    ensures Common(p, g) <= |p| && Common(p, g) <= |g| && Common(p, g) == Common(g, p)
  {
    SmallerMultiset(multiset(p) * multiset(g), multiset(p));
    SmallerMultiset(multiset(p) * multiset(g), multiset(g));
    assert multiset(p) * multiset(g) == multiset(g) * multiset(p);
  }

  lemma SmallerMultiset(a: multiset<string>, b: multiset<string>)
    requires a <= b
    ensures |a| <= |b|
  {
    assert b == a + (b - a);
  }

  function Harmonic(precision: real, recall: real): real
    requires precision > 0.0 && recall > 0.0
  {
    2.0 * precision * recall / (precision + recall)
  }

  function Precision(same: nat, tokens: nat): (r: real)
    requires 0 < same <= tokens
    ensures r > 0.0
  {
    same as real / tokens as real
  }

  /** Harmonic mean of precision and recall; zero without a common token. */
  function F1(p: Tokens, g: Tokens): real {
    var same := Common(p, g);
    if same == 0 then 0.0
    else
      CommonBounds(p, g);
      Harmonic(Precision(same, |p|), Precision(same, |g|))
  }

  lemma HarmonicForm(c: real, p: real, g: real)
    requires c > 0.0 && p > 0.0 && g > 0.0
    ensures c / p > 0.0 && c / g > 0.0
    ensures Harmonic(c / p, c / g) == 2.0 * c / (p + g)
  {
    var u, v := c / p, c / g;
    assert u * p == c && v * g == c;
    var product, sum := u * v, u + v;
    // c * (u + v) == u v (p + g), since c == u p == v g
    assert c * u == (v * g) * u == product * g;
    assert c * v == (u * p) * v == product * p;
    assert c * sum == product * g + product * p == product * (p + g);
    assert 2.0 * u * v == 2.0 * product;
  }

  /** F1 is twice the common tokens over all tokens. */
  lemma F1IsDice(p: Tokens, g: Tokens)
    ensures |p| + |g| > 0 ==> F1(p, g) == 2.0 * Common(p, g) as real / (|p| + |g|) as real
    ensures |p| + |g| == 0 ==> F1(p, g) == 0.0
  {
    CommonBounds(p, g);
    if Common(p, g) > 0 {
      CountsForm(Common(p, g), |p|, |g|);
    }
  }

  lemma CountsForm(c: nat, p: nat, g: nat)
    requires 0 < c <= p && c <= g
    ensures Harmonic(Precision(c, p), Precision(c, g)) == 2.0 * c as real / (p + g) as real
  {
    HarmonicForm(c as real, p as real, g as real);
    assert p as real + g as real == (p + g) as real;
  }

  lemma F1IsSymmetric(p: Tokens, g: Tokens)
    ensures F1(p, g) == F1(g, p)
  {
    F1IsDice(p, g);
    F1IsDice(g, p);
    CommonBounds(p, g);
  }

  /** F1 lies between zero and one, and is one exactly for equal, non-empty
      token multisets. */
  lemma F1InRange(p: Tokens, g: Tokens)
    ensures 0.0 <= F1(p, g) <= 1.0
    ensures F1(p, g) == 1.0 <==> p != [] && multiset(p) == multiset(g)
  {
    F1IsDice(p, g);
    CommonBounds(p, g);
    if |p| + |g| > 0 {
      UnitQuotient(2.0 * Common(p, g) as real, (|p| + |g|) as real);
      AllCommon(p, g);
    }
  }

  lemma AllCommon(p: Tokens, g: Tokens)
    ensures 2 * Common(p, g) == |p| + |g| <==> multiset(p) == multiset(g)
  {
    CommonBounds(p, g);
    var c := multiset(p) * multiset(g);
    if 2 * Common(p, g) == |p| + |g| {
      FullMultiset(c, multiset(p));
      FullMultiset(c, multiset(g));
    }
    if multiset(p) == multiset(g) {
      assert c == multiset(p);
      assert |multiset(p)| == |p| && |multiset(g)| == |g|;
    }
  }

  lemma FullMultiset(a: multiset<string>, b: multiset<string>)
    requires a <= b && |a| == |b|
    ensures a == b
  {
    assert b == a + (b - a);
    assert |b - a| == 0;
  }

  // ---- the answer score ----

  /** A text as the scorer sees it: its tokens, the tokens of its part before the
      first semicolon, and the tokens of its comma-separated parts. */
  datatype Text = Text(empty: bool, tokens: Tokens, head: Tokens, parts: seq<Tokens>) {
    /** Splitting at commas yields at least one part. */
    predicate Valid() {
      parts != []
    }
  }

  function Larger(a: real, b: real): real {
    if a >= b then a else b
  }

  /** The best match of one gold part among the predicted ones. */
  function Best(predictions: seq<Tokens>, g: Tokens): real
    requires predictions != []
  {
    if |predictions| == 1 then F1(predictions[0], g)
    else Larger(F1(predictions[0], g), Best(predictions[1..], g))
  }

  function BestSum(predictions: seq<Tokens>, golds: seq<Tokens>): real
    requires predictions != []
  {
    if golds == [] then 0.0 else Best(predictions, golds[0]) + BestSum(predictions, golds[1..])
  }

  /** The mean best match over the gold parts. */
  function PartScore(predictions: seq<Tokens>, golds: seq<Tokens>): real
    requires predictions != [] && golds != []
  {
    BestSum(predictions, golds) / |golds| as real
  }

  function OfficialF1(prediction: Option<Text>, gold: Text, category: Category): real
    requires gold.Valid() && (prediction.Some? ==> prediction.value.Valid())
  {
    if prediction.None? || prediction.value.empty then 0.0
    else if category == 1 then PartScore(prediction.value.parts, gold.parts)
    else F1(prediction.value.tokens, if category == 3 then gold.head else gold.tokens)
  }

  /** The best match is one of the matches, and none is better. */
  lemma {:induction false} BestIsMaximum(predictions: seq<Tokens>, g: Tokens)
    requires predictions != []
    ensures forall k :: 0 <= k < |predictions| ==> F1(predictions[k], g) <= Best(predictions, g)
    ensures exists k :: 0 <= k < |predictions| && F1(predictions[k], g) == Best(predictions, g)
  {
    if |predictions| > 1 {
      var rest := predictions[1..];
      BestIsMaximum(rest, g);
      var j :| 0 <= j < |rest| && F1(rest[j], g) == Best(rest, g);
      assert predictions[j + 1] == rest[j];
      forall k | 0 <= k < |predictions| ensures F1(predictions[k], g) <= Best(predictions, g) {
        if k > 0 { assert predictions[k] == rest[k - 1]; }
      }
      if F1(predictions[0], g) < Best(rest, g) {
        assert F1(predictions[j + 1], g) == Best(predictions, g);
      }
    }
  }

  /** More candidates never make the best match worse. */
  lemma BestGrows(a: seq<Tokens>, b: seq<Tokens>, g: Tokens)
    requires a != [] && b != [] && forall p :: p in a ==> p in b
    ensures Best(a, g) <= Best(b, g)
  {
    BestIsMaximum(a, g);
    BestIsMaximum(b, g);
    var k :| 0 <= k < |a| && F1(a[k], g) == Best(a, g);
    assert a[k] in b;
    var j :| 0 <= j < |b| && b[j] == a[k];
    assert F1(b[j], g) <= Best(b, g);
  }

  lemma {:induction false} BestSumGrows(a: seq<Tokens>, b: seq<Tokens>, golds: seq<Tokens>)
    requires a != [] && b != [] && forall p :: p in a ==> p in b
    ensures BestSum(a, golds) <= BestSum(b, golds)
  {
    if golds != [] {
      BestGrows(a, b, golds[0]);
      BestSumGrows(a, b, golds[1..]);
    }
  }

  /** Adding predicted parts never lowers the score. */
  lemma MorePartsNeverHurt(a: seq<Tokens>, b: seq<Tokens>, golds: seq<Tokens>)
    requires a != [] && b != [] && golds != [] && forall p :: p in a ==> p in b
    ensures PartScore(a, golds) <= PartScore(b, golds)
  {
    BestSumGrows(a, b, golds);
    QuotientGrows(BestSum(a, golds), BestSum(b, golds), |golds| as real);
  }

  lemma {:induction false} BestSumTake(predictions: seq<Tokens>, golds: seq<Tokens>, k: nat)
    requires predictions != [] && k < |golds|
    ensures BestSum(predictions, golds) == Best(predictions, golds[k]) + BestSum(predictions, Without(golds, k))
  {
    if k == 0 {
      WithoutFirst(golds);
    } else {
      BestSumTake(predictions, golds[1..], k - 1);
      WithoutLater(golds, k);
      assert Without(golds, k)[1..] == Without(golds[1..], k - 1);
    }
  }

  lemma {:induction false} BestSumPermutes(predictions: seq<Tokens>, a: seq<Tokens>, b: seq<Tokens>)
    requires predictions != [] && multiset(a) == multiset(b)
    ensures BestSum(predictions, a) == BestSum(predictions, b)
    decreases |a|
  {
    if a == [] {
      assert |multiset(b)| == 0;
    } else {
      var k := PermutedIndex(a, b);
      BestSumTake(predictions, b, k);
      BestSumPermutes(predictions, a[1..], Without(b, k));
    }
  }

  /** The order of the parts, predicted or gold, does not matter. */
  lemma PartOrderDoesNotMatter(p: seq<Tokens>, q: seq<Tokens>, g: seq<Tokens>, h: seq<Tokens>)
    requires p != [] && g != [] && multiset(p) == multiset(q) && multiset(g) == multiset(h)
    ensures q != [] && h != [] && PartScore(p, g) == PartScore(q, h)
  {
    assert |p| == |multiset(p)| == |multiset(q)| == |q|;
    assert |g| == |multiset(g)| == |multiset(h)| == |h|;
    assert forall x :: x in p <==> x in multiset(p);
    assert forall x :: x in q <==> x in multiset(q);
    BestSumGrows(p, q, g);
    BestSumGrows(q, p, g);
    BestSumPermutes(q, g, h);
  }

  lemma {:induction false} BestSumInRange(predictions: seq<Tokens>, golds: seq<Tokens>)
    requires predictions != []
    ensures 0.0 <= BestSum(predictions, golds) <= |golds| as real
  {
    if golds != [] {
      BestIsMaximum(predictions, golds[0]);
      var k :| 0 <= k < |predictions| && F1(predictions[k], golds[0]) == Best(predictions, golds[0]);
      F1InRange(predictions[k], golds[0]);
      BestSumInRange(predictions, golds[1..]);
    }
  }

  /** Every answer score lies between zero and one. */
  lemma OfficialF1InRange(prediction: Option<Text>, gold: Text, category: Category)
    requires gold.Valid() && (prediction.Some? ==> prediction.value.Valid())
    ensures 0.0 <= OfficialF1(prediction, gold, category) <= 1.0
  {
    if prediction.Some? {
      if category == 1 {
        BestSumInRange(prediction.value.parts, gold.parts);
        UnitQuotient(BestSum(prediction.value.parts, gold.parts), |gold.parts| as real);
      } else {
        F1InRange(prediction.value.tokens, if category == 3 then gold.head else gold.tokens);
      }
    }
  }

  // ---- what the answer score is ----

  /** Twice the common tokens over all tokens, by category: against the gold's part
      before the first semicolon in category 3, and its whole text in 2 and 4. */
  lemma PlainScoreTells(prediction: Text, gold: Text, category: Category)
    requires gold.Valid() && prediction.Valid() && !prediction.empty && category != 1
    ensures
      var g := if category == 3 then gold.head else gold.tokens;
      var same, all := |multiset(prediction.tokens) * multiset(g)|, |prediction.tokens| + |g|;
      && OfficialF1(Some(prediction), gold, category) * all as real == 2.0 * same as real
      && (same == 0 ==> OfficialF1(Some(prediction), gold, category) == 0.0)
  {
    F1IsDice(prediction.tokens, if category == 3 then gold.head else gold.tokens);
  }

  /** The best matches are summed over the gold parts. */
  lemma {:induction false} BestSumAdds(predictions: seq<Tokens>, a: seq<Tokens>, b: seq<Tokens>)
    requires predictions != []
    ensures BestSum(predictions, a + b) == BestSum(predictions, a) + BestSum(predictions, b)
    ensures forall g :: BestSum(predictions, [g]) == Best(predictions, g)
  {
    forall g ensures BestSum(predictions, [g]) == Best(predictions, g) {
      assert [g][1..] == [];
    }
    if a == [] {
      assert a + b == b;
    } else {
      assert (a + b)[1..] == a[1..] + b;
      BestSumAdds(predictions, a[1..], b);
    }
  }

  ghost function Averages(sum: real, n: nat): iset<real> {
    iset x | IsAverage(x, sum, n)
  }

  predicate IsAverage(x: real, sum: real, n: nat) {
    x * n as real == sum
  }

  lemma QuotientAverages(sum: real, n: nat)
    requires n > 0
    ensures sum / n as real in Averages(sum, n)
  {
  }

  /** In category 1 the score is the mean over the gold parts of their best match
      among the predicted parts. */
  lemma PartsScoreTells(prediction: Text, gold: Text)
    requires prediction.Valid() && gold.Valid() && !prediction.empty
    ensures
      OfficialF1(Some(prediction), gold, 1) in Averages(BestSum(prediction.parts, gold.parts), |gold.parts|)
  {
    QuotientAverages(BestSum(prediction.parts, gold.parts), |gold.parts|);
  }

  /** No prediction, or an empty one, scores zero. */
  lemma NoAnswerScoresZero(prediction: Option<Text>, gold: Text, category: Category)
    requires gold.Valid() && (prediction.Some? ==> prediction.value.Valid())
    requires prediction.Some? ==> prediction.value.empty
    ensures OfficialF1(prediction, gold, category) == 0.0
  {
  }
}
