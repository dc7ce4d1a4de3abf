// The terminal "Unknown" answer and the word cap.

module AnswerText {

  /** Whitespace as `str.split` and `str.strip` see it. */
  predicate IsSpace(c: char) {
    var n := c as int;
    || 0x09 <= n <= 0x0D
    || 0x1C <= n <= 0x20
    || n == 0x85
    || n == 0xA0
    || n == 0x1680
    || 0x2000 <= n <= 0x200A
    || n == 0x2028
    || n == 0x2029
    || n == 0x202F
    || n == 0x205F
    || n == 0x3000
  }

  function StripLeft(s: string): string {
    if s != "" && IsSpace(s[0]) then StripLeft(s[1..]) else s
  }

  function StripRight(s: string): string {
    if s != "" && IsSpace(s[|s| - 1]) then StripRight(s[..|s| - 1]) else s
  }

  function DropDots(s: string): string {
    if s != "" && s[|s| - 1] == '.' then DropDots(s[..|s| - 1]) else s
  }

  /** Case folding of one character, exact for every character whose folding
      can be part of the word below: the ASCII capitals and the Kelvin sign. */
  function FoldChar(c: char): char {
    if 'A' <= c <= 'Z' then (c as int + 32) as char
    else if c == '\U{212A}' then 'k'
    else c
  }

  function Fold(s: string): string {
    if s == "" then "" else [FoldChar(s[0])] + Fold(s[1..])
  }

  predicate IsUnknown(answer: string) {
    DropDots(Fold(StripRight(StripLeft(answer)))) == "unknown"
  }

  /** Number of whitespace-separated words; `inside` says whether the text is
      the continuation of a word. */
  function WordsFrom(s: string, inside: bool): nat {
    if s == "" then 0
    else if IsSpace(s[0]) then WordsFrom(s[1..], false)
    else (if inside then 0 else 1) + WordsFrom(s[1..], true)
  }

  function WordCount(s: string): nat {
    WordsFrom(s, false)
  }

  lemma {:induction false} StripLeftKeepsWords(s: string)
    ensures WordCount(StripLeft(s)) == WordCount(s)
  {
    if s != "" && IsSpace(s[0]) { StripLeftKeepsWords(s[1..]); }
  }

  lemma {:induction false} TrailingSpace(s: string, c: char, inside: bool)
    requires IsSpace(c)
    ensures WordsFrom(s + [c], inside) == WordsFrom(s, inside)
  {
    if s != "" {
      assert (s + [c])[1..] == s[1..] + [c];
      TrailingSpace(s[1..], c, !IsSpace(s[0]));
    }
  }

  lemma {:induction false} StripRightKeepsWords(s: string)
    ensures WordCount(StripRight(s)) == WordCount(s)
  {
    if s != "" && IsSpace(s[|s| - 1]) {
      StripRightKeepsWords(s[..|s| - 1]);
      TrailingSpace(s[..|s| - 1], s[|s| - 1], false);
      assert s == s[..|s| - 1] + [s[|s| - 1]];
    }
  }

  lemma {:induction false} UnbrokenIsOneWord(s: string, inside: bool)
    requires forall c :: c in s ==> !IsSpace(c)
    ensures WordsFrom(s, inside) == if s == "" || inside then 0 else 1
  {
    if s != "" { UnbrokenIsOneWord(s[1..], true); }
  }

  lemma {:induction false} FoldedAt(s: string, k: nat)
    requires k < |s|
    ensures |Fold(s)| == |s| && Fold(s)[k] == FoldChar(s[k])
  {
    if |s| > 1 { FoldedAt(s[1..], if k == 0 then 0 else k - 1); }
  }

  lemma {:induction false} OnlyDotsDropped(s: string)
    ensures DropDots(s) <= s
    ensures forall k :: |DropDots(s)| <= k < |s| ==> s[k] == '.'
  {
    if s != "" && s[|s| - 1] == '.' { OnlyDotsDropped(s[..|s| - 1]); }
  }

  lemma FoldingKeepsSpace(c: char)
    ensures IsSpace(FoldChar(c)) == IsSpace(c)
  {
  }

  lemma LettersAreNotSpace(k: nat)
    requires k < |"unknown"|
    ensures !IsSpace("unknown"[k])
  {
    if k == 0 {} else if k == 1 {} else if k == 2 {} else if k == 3 {} else if k == 4 {} else if k == 5 {}
  }

  lemma UnknownHasNoSpace(core: string, k: nat)
    requires DropDots(Fold(core)) == "unknown" && k < |core|
    ensures !IsSpace(core[k])
  {
    OnlyDotsDropped(Fold(core));
    FoldedAt(core, k);
    FoldingKeepsSpace(core[k]);
    if k < |"unknown"| {
      LettersAreNotSpace(k);
      assert Fold(core)[k] == DropDots(Fold(core))[k];
    } else {
      assert Fold(core)[k] == '.';
    }
  }

  /** A terminal Unknown is a single word, so no word cap of at least one
      rejects it. */
  lemma UnknownIsOneWord(answer: string)
    requires IsUnknown(answer)
    ensures WordCount(answer) == 1
  {
    var core := StripRight(StripLeft(answer));
    StripLeftKeepsWords(answer);
    StripRightKeepsWords(StripLeft(answer));
    assert core != "";
    forall c | c in core ensures !IsSpace(c) {
      var k :| 0 <= k < |core| && core[k] == c;
      UnknownHasNoSpace(core, k);
    }
    UnbrokenIsOneWord(core, false);
  }

  // ---- what the word count and the terminal Unknown are ----

  /** A word starts where no white space follows white space, or the beginning. */
  predicate StartsWord(s: string, inside: bool, k: nat)
    requires k < |s|
  {
    !IsSpace(s[k]) && if k == 0 then !inside else IsSpace(s[k - 1])
  }

  ghost function Starts(s: string, inside: bool): set<nat> {
    set k: nat | k < |s| && StartsWord(s, inside, k)
  }

  ghost function Shifted(ks: set<nat>): set<nat> {
    set k | k in ks :: k + 1
  }

  lemma {:induction false} ShiftedSize(ks: set<nat>)
    ensures |Shifted(ks)| == |ks|
  {
    if ks != {} {
      var k :| k in ks;
      ShiftedSize(ks - {k});
      var rest := Shifted(ks - {k});
      forall x ensures x in Shifted(ks) <==> x in rest + {k + 1} {
        assert x - 1 in ks <==> x - 1 in ks - {k} || x - 1 == k;
      }
      assert k + 1 !in rest && Shifted(ks) == rest + {k + 1};
    }
  }

  lemma StartsAfter(s: string, inside: bool)
    requires s != ""
    ensures
      var first := if StartsWord(s, inside, 0) then {0} else {};
      Starts(s, inside) == Shifted(Starts(s[1..], !IsSpace(s[0]))) + first
  {
    var rest := Starts(s[1..], !IsSpace(s[0]));
    forall k: nat | 0 < k < |s| ensures k in Starts(s, inside) <==> k in Shifted(rest) {
      assert StartsWord(s, inside, k) <==> StartsWord(s[1..], !IsSpace(s[0]), k - 1);
      assert k in Starts(s, inside) <==> k - 1 in rest;
    }
  }

  /** There are as many words as places where a word starts. */
  lemma {:induction false} WordsAreStarts(s: string, inside: bool)
    ensures WordsFrom(s, inside) == |Starts(s, inside)|
  {
    if s == "" {
      assert Starts(s, inside) == {};
    } else {
      var rest := Starts(s[1..], !IsSpace(s[0]));
      WordsAreStarts(s[1..], !IsSpace(s[0]));
      ShiftedSize(rest);
      StartsAfter(s, inside);
      var first := if StartsWord(s, inside, 0) then {0} else {};
      assert 0 !in Shifted(rest) && |Shifted(rest) + first| == |Shifted(rest)| + |first|;
    }
  }

  predicate SpaceBetween(s: string, lo: nat, hi: nat)
    requires hi <= |s|
  {
    forall k :: lo <= k < hi ==> IsSpace(s[k])
  }

  /** From `i` to `j` the word in any case, and then dots only. */
  predicate WordBetween(s: string, word: string, i: nat, j: nat)
    requires j <= |s|
  {
    && i + |word| <= j
    && (forall k :: i <= k < i + |word| ==> FoldChar(s[k]) == word[k - i])
    && (forall k :: i + |word| <= k < j ==> s[k] == '.')
  }

  /** Letter `k` of the word, small or capital, or the Kelvin sign for its k. */
  predicate IsLetter(c: char, k: nat)
    requires k < 7
  {
    c == "unknown"[k] || c == "UNKNOWN"[k] || (k == 2 && c == '\U{212A}')
  }

  predicate UnknownBetween(s: string, i: nat, j: nat)
    requires j <= |s|
  {
    && i + 7 <= j
    && (forall k :: i <= k < i + 7 ==> IsLetter(s[k], k - i))
    && (forall k :: i + 7 <= k < j ==> s[k] == '.')
  }

  /** White space, the word in any case, dots, and white space again. */
  ghost predicate SpellsUnknown(s: string) {
    exists i: nat, j: nat :: i <= j <= |s|
      && SpaceBetween(s, 0, i) && UnknownBetween(s, i, j) && SpaceBetween(s, j, |s|)
  }

  lemma LettersFold(c: char, k: nat)
    requires k < 7
    ensures FoldChar(c) == "unknown"[k] <==> IsLetter(c, k)
  {
    assert "unknown"[k] as int - 32 == "UNKNOWN"[k] as int;
    assert 'a' <= "unknown"[k] <= 'z' && ("unknown"[k] == 'k' <==> k == 2);
  }

  lemma UnknownIsWord(s: string, i: nat, j: nat)
    requires j <= |s|
    ensures UnknownBetween(s, i, j) <==> WordBetween(s, "unknown", i, j)
  {
    if i + 7 <= j {
      forall k | i <= k < i + 7 ensures FoldChar(s[k]) == "unknown"[k - i] <==> IsLetter(s[k], k - i) {
        LettersFold(s[k], k - i);
      }
    }
  }

  lemma {:induction false} LeftStripped(s: string) returns (i: nat)
    ensures i <= |s| && StripLeft(s) == s[i..] && SpaceBetween(s, 0, i)
    ensures i < |s| ==> !IsSpace(s[i])
  {
    if s != "" && IsSpace(s[0]) {
      var k := LeftStripped(s[1..]);
      i := k + 1;
      forall n | 1 <= n < i ensures IsSpace(s[n]) {
        assert IsSpace(s[1..][n - 1]);
      }
    } else {
      i := 0;
    }
  }

  lemma {:induction false} RightStripped(s: string) returns (j: nat)
    ensures j <= |s| && StripRight(s) == s[..j] && SpaceBetween(s, j, |s|)
    ensures j > 0 ==> !IsSpace(s[j - 1])
  {
    if s != "" && IsSpace(s[|s| - 1]) {
      j := RightStripped(s[..|s| - 1]);
      forall n | j <= n < |s| - 1 ensures IsSpace(s[n]) {
        assert IsSpace(s[..|s| - 1][n]);
      }
      assert s[..|s| - 1][..j] == s[..j];
    } else {
      j := |s|;
    }
  }

  /** What is left of a text without the white space around it. */
  lemma Stripped(s: string) returns (i: nat, j: nat)
    ensures i <= j <= |s| && StripRight(StripLeft(s)) == s[i..j]
    ensures SpaceBetween(s, 0, i) && SpaceBetween(s, j, |s|)
    ensures i < j ==> !IsSpace(s[i]) && !IsSpace(s[j - 1])
  {
    i := LeftStripped(s);
    var t := s[i..];
    var n := RightStripped(t);
    j := i + n;
    assert t[..n] == s[i..j];
    forall k | j <= k < |s| ensures IsSpace(s[k]) { assert IsSpace(t[k - i]); }
    if i < j { assert t[n - 1] == s[j - 1]; }
  }

  lemma {:induction false} DotsDropped(s: string, n: nat)
    requires 0 < n <= |s| && s[n - 1] != '.' && forall k :: n <= k < |s| ==> s[k] == '.'
    ensures DropDots(s) == s[..n]
    decreases |s|
  {
    if n < |s| {
      DotsDropped(s[..|s| - 1], n);
      assert s[..|s| - 1][..n] == s[..n];
    } else {
      assert s[..n] == s;
    }
  }

  lemma FoldIs(s: string)
    ensures |Fold(s)| == |s| && forall k :: 0 <= k < |s| ==> Fold(s)[k] == FoldChar(s[k])
  {
    if s != "" {
      forall k: nat | k < |s| ensures |Fold(s)| == |s| && Fold(s)[k] == FoldChar(s[k]) { FoldedAt(s, k); }
      FoldedAt(s, 0);
    }
  }

  lemma CoreSpells(core: string, word: string)
    requires DropDots(Fold(core)) == word
    ensures WordBetween(core, word, 0, |core|)
  {
    var folded := Fold(core);
    FoldIs(core);
    OnlyDotsDropped(folded);
    forall k | 0 <= k < |word| ensures FoldChar(core[k]) == word[k] {
      assert word[k] == folded[k];
    }
    forall k | |word| <= k < |core| ensures core[k] == '.' {
      assert folded[k] == '.';
    }
  }

  lemma SpelledCore(core: string, word: string)
    requires word != "" && word[|word| - 1] != '.' && WordBetween(core, word, 0, |core|)
    ensures DropDots(Fold(core)) == word
  {
    var folded := Fold(core);
    FoldIs(core);
    forall k | |word| <= k < |folded| ensures folded[k] == '.' {
      assert core[k] == '.';
    }
    FoldedWord(core, word, folded);
    DotsDropped(folded, |word|);
  }

  lemma FoldedWord(core: string, word: string, folded: string)
    requires |word| <= |core| == |folded| && forall k :: 0 <= k < |core| ==> folded[k] == FoldChar(core[k])
    requires forall k :: 0 <= k < |word| ==> FoldChar(core[k]) == word[k]
    ensures folded[..|word|] == word
  {
  }

  /** Only white space is stripped, so the word and its dots are what is left. */
  lemma SpelledEnds(s: string, i: nat, j: nat, a: nat, b: nat)
    requires i <= j <= |s| && a <= b <= |s|
    requires SpaceBetween(s, 0, a) && WordBetween(s, "unknown", a, b) && SpaceBetween(s, b, |s|)
    requires SpaceBetween(s, 0, i) && SpaceBetween(s, j, |s|)
    requires i < j ==> !IsSpace(s[i]) && !IsSpace(s[j - 1])
    ensures i == a && j == b
  {
    LettersAreNotSpace(0);
    LettersAreNotSpace(|"unknown"| - 1);
    FoldingKeepsSpace(s[a]);
    FoldingKeepsSpace(s[a + |"unknown"| - 1]);
    assert !IsSpace(s[a]) && !IsSpace(s[b - 1]);
  }

  /** A text is the terminal Unknown if and only if it spells it. */
  lemma UnknownIsSpelled(s: string)
    ensures IsUnknown(s) <==> SpellsUnknown(s)
  {
    var i, j := Stripped(s);
    var core := s[i..j];
    assert forall k :: i <= k < j ==> core[k - i] == s[k];
    if IsUnknown(s) {
      CoreSpells(core, "unknown");
      assert WordBetween(s, "unknown", i, j);
      UnknownIsWord(s, i, j);
    }
    if SpellsUnknown(s) {
      var a: nat, b: nat :| a <= b <= |s|
        && SpaceBetween(s, 0, a) && UnknownBetween(s, a, b) && SpaceBetween(s, b, |s|);
      UnknownIsWord(s, a, b);
      SpelledEnds(s, i, j, a, b);
      SpelledCore(core, "unknown");
    }
  }
}
