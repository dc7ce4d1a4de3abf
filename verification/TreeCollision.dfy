// Exactly which listings share their stream with another one.

module TreeCollision {
  import opened Wrappers
  import opened Orders
  import opened TreeDigest

  /** No path and no link target holds a NUL, as no file system allows one, and
      a file's payload, a hexadecimal digest, holds neither NUL nor newline. */
  predicate EntryIsFed(e: Entry) {
    NUL !in e.path && NUL !in e.payload && (e.kind == File ==> NEWLINE !in e.payload)
  }

  /** Listings as the hasher is fed them. */
  ghost predicate Fed(entries: seq<Entry>) {
    forall e :: e in entries ==> EntryIsFed(e)
  }

  /** Record `i` is a link, and the newline between it and the next is not the
      only one between their NULs. */
  predicate AmbiguousAt(entries: seq<Entry>, i: nat)
    requires i + 1 < |entries|
  {
    entries[i].kind != File && (NEWLINE in entries[i].payload || NEWLINE in entries[i + 1].path)
  }

  ghost predicate Ambiguous(entries: seq<Entry>) {
    exists i :: 0 <= i < |entries| - 1 && AmbiguousAt(entries, i)
  }

  // ---- an unambiguous listing is determined by its stream ----

  lemma SplitOf(entries: seq<Entry>)
    requires entries != []
    ensures Stream(entries)
         == entries[0].path + [NUL]
           + (KindText(entries[0].kind) + [NUL] + (entries[0].payload + [NEWLINE] + Stream(entries[1..])))
  {
    var e := entries[0];
    assert Written(e) + Stream(entries[1..])
        == e.path + [NUL] + (KindText(e.kind) + [NUL] + (e.payload + [NEWLINE] + Stream(entries[1..])));
  }

  /** Up to the first NUL and after it, two texts with the same NUL-free heads agree. */
  lemma SameSplit(p: string, x: string, q: string, y: string, mark: char)
    requires mark !in p && mark !in q && p + [mark] + x == q + [mark] + y
    ensures p == q && x == y
  {
    SplitFound(p, mark, x);
    SplitFound(q, mark, y);
  }

  lemma KindTextIsPlain(kind: Kind)
    ensures NUL !in KindText(kind) && KindOf(KindText(kind)) == Some(kind)
  {
  }

  /** Two records that start alike: what follows their second NUL agrees. */
  lemma SameHead(p: string, k: Kind, x: string, q: string, l: Kind, y: string)
    requires NUL !in p && NUL !in q
    requires p + [NUL] + (KindText(k) + [NUL] + x) == q + [NUL] + (KindText(l) + [NUL] + y)
    ensures p == q && k == l && x == y
  {
    SameSplit(p, KindText(k) + [NUL] + x, q, KindText(l) + [NUL] + y, NUL);
    KindTextIsPlain(k);
    KindTextIsPlain(l);
    SameSplit(KindText(k), x, KindText(l), y, NUL);
  }

  lemma OnlyNewline(p: string, x: string, k: nat)
    requires NEWLINE !in p && NEWLINE !in x && k < |p| + 1 + |x| && (p + [NEWLINE] + x)[k] == NEWLINE
    ensures k == |p|
  {
    CharAt(p, x, k);
  }

  lemma CharAt(p: string, x: string, k: nat)
    requires k < |p| + 1 + |x|
    ensures (p + [NEWLINE] + x)[k] == if k < |p| then p[k] else if k == |p| then NEWLINE else x[k - |p| - 1]
  {
  }

  /** With one newline in all, the two parts around it are determined. */
  lemma SameParts(p: string, x: string, q: string, y: string)
    requires NEWLINE !in p && NEWLINE !in x && p + [NEWLINE] + x == q + [NEWLINE] + y
    ensures p == q && x == y
  {
    assert (q + [NEWLINE] + y)[|q|] == NEWLINE && |q + [NEWLINE] + y| == |p| + 1 + |x|;
    OnlyNewline(p, x, |q|);
    assert p == (p + [NEWLINE] + x)[..|p|] && q == (q + [NEWLINE] + y)[..|q|];
    assert x == (p + [NEWLINE] + x)[|p| + 1..] && y == (q + [NEWLINE] + y)[|q| + 1..];
  }

  /** A text up to the first NUL of what follows a payload. */
  lemma PayloadAndPath(payload: string, entries: seq<Entry>)
    requires entries != []
    ensures payload + [NEWLINE] + Stream(entries)
         == (payload + [NEWLINE] + entries[0].path) + [NUL]
            + (KindText(entries[0].kind) + [NUL] + (entries[0].payload + [NEWLINE] + Stream(entries[1..])))
  {
    SplitOf(entries);
    var rest := KindText(entries[0].kind) + [NUL] + (entries[0].payload + [NEWLINE] + Stream(entries[1..]));
    assert payload + [NEWLINE] + (entries[0].path + [NUL] + rest)
      == (payload + [NEWLINE] + entries[0].path) + [NUL] + rest;
  }

  lemma EntriesHaveNul(payload: string, entries: seq<Entry>)
    requires entries != []
    ensures NUL in payload + [NEWLINE] + Stream(entries)
  {
    PayloadAndPath(payload, entries);
    assert (payload + [NEWLINE] + Stream(entries))[|payload + [NEWLINE] + entries[0].path|] == NUL;
  }

  lemma NoNulNoEntry(payload: string, entries: seq<Entry>)
    requires NUL !in payload + [NEWLINE] + Stream(entries)
    ensures entries == []
  {
    if entries != [] { EntriesHaveNul(payload, entries); }
  }

  /** A file's payload, or a link's with a path behind it that hides no newline. */
  predicate EndsPlainly(k: Kind, p: string, q: string, path: string) {
    if k == File then NEWLINE !in p && NEWLINE !in q else NEWLINE !in p && NEWLINE !in path
  }

  /** A payload that ends plainly is told apart from the path behind it. */
  lemma PayloadIsDetermined(k: Kind, p: string, x: string, q: string, y: string)
    requires EndsPlainly(k, p, q, x) && p + [NEWLINE] + x == q + [NEWLINE] + y
    ensures p == q && x == y
  {
    if k == File {
      SameSplit(p, x, q, y, NEWLINE);
    } else {
      SameParts(p, x, q, y);
    }
  }

  /** After a payload, an unambiguous rest is determined by its text. */
  lemma {:induction false} RestIsDetermined(k: Kind, p: string, a: seq<Entry>, q: string, b: seq<Entry>)
    requires Fed(a) && Fed(b) && EntryIsFed(Entry("", k, p)) && EntryIsFed(Entry("", k, q))
    requires a != [] ==> EndsPlainly(k, p, q, a[0].path)
    requires forall i :: 0 <= i < |a| - 1 ==> !AmbiguousAt(a, i)
    requires p + [NEWLINE] + Stream(a) == q + [NEWLINE] + Stream(b)
    ensures p == q && a == b
    decreases |a|
  {
    if a == [] {
      assert NUL !in p + [NEWLINE] + Stream(a);
      NoNulNoEntry(q, b);
      assert p == (p + [NEWLINE] + "")[..|p|] && q == (q + [NEWLINE] + "")[..|q|];
    } else {
      if b == [] {
        assert NUL !in q + [NEWLINE] + Stream(b);
        NoNulNoEntry(p, a);
      }
      NextIsDetermined(k, p, a, q, b);
      RestIsDetermined(a[0].kind, a[0].payload, a[1..], b[0].payload, b[1..]);
      assert a == [a[0]] + a[1..] && b == [b[0]] + b[1..];
    }
  }

  lemma NextIsDetermined(k: Kind, p: string, a: seq<Entry>, q: string, b: seq<Entry>)
    requires Fed(a) && Fed(b) && NUL !in p && NUL !in q && a != [] && b != []
    requires EndsPlainly(k, p, q, a[0].path)
    requires forall i :: 0 <= i < |a| - 1 ==> !AmbiguousAt(a, i)
    requires p + [NEWLINE] + Stream(a) == q + [NEWLINE] + Stream(b)
    ensures p == q && a[0].path == b[0].path && a[0].kind == b[0].kind
    ensures EntryIsFed(Entry("", a[0].kind, a[0].payload)) && EntryIsFed(Entry("", a[0].kind, b[0].payload))
    ensures a[0].payload + [NEWLINE] + Stream(a[1..]) == b[0].payload + [NEWLINE] + Stream(b[1..])
    ensures |a| > 1 ==> EndsPlainly(a[0].kind, a[0].payload, b[0].payload, a[1].path)
    ensures forall i :: 0 <= i < |a[1..]| - 1 ==> !AmbiguousAt(a[1..], i)
  {
    PayloadAndPath(p, a);
    PayloadAndPath(q, b);
    assert EntryIsFed(a[0]) && EntryIsFed(b[0]);
    SameHead(p + [NEWLINE] + a[0].path, a[0].kind, a[0].payload + [NEWLINE] + Stream(a[1..]),
             q + [NEWLINE] + b[0].path, b[0].kind, b[0].payload + [NEWLINE] + Stream(b[1..]));
    PayloadIsDetermined(k, p, a[0].path, q, b[0].path);
    TailIsUnambiguous(a, b[0].payload);
  }

  lemma TailIsUnambiguous(a: seq<Entry>, q: string)
    requires a != [] && Fed(a) && forall i :: 0 <= i < |a| - 1 ==> !AmbiguousAt(a, i)
    requires a[0].kind == File ==> NEWLINE !in q
    ensures |a| > 1 ==> EndsPlainly(a[0].kind, a[0].payload, q, a[1].path)
    ensures forall i :: 0 <= i < |a[1..]| - 1 ==> !AmbiguousAt(a[1..], i)
  {
    assert EntryIsFed(a[0]);
    assert |a| > 1 ==> !AmbiguousAt(a, 0);
    forall i | 0 <= i < |a[1..]| - 1 ensures !AmbiguousAt(a[1..], i) {
      assert !AmbiguousAt(a, i + 1);
    }
  }

  lemma FirstIsDetermined(a: seq<Entry>, b: seq<Entry>)
    requires Fed(a) && Fed(b) && a != [] && b != [] && Stream(a) == Stream(b)
    ensures a[0].path == b[0].path && a[0].kind == b[0].kind
    ensures EntryIsFed(Entry("", a[0].kind, a[0].payload)) && EntryIsFed(Entry("", a[0].kind, b[0].payload))
    ensures a[0].payload + [NEWLINE] + Stream(a[1..]) == b[0].payload + [NEWLINE] + Stream(b[1..])
  {
    SplitOf(a);
    SplitOf(b);
    assert EntryIsFed(a[0]) && EntryIsFed(b[0]);
    SameHead(a[0].path, a[0].kind, a[0].payload + [NEWLINE] + Stream(a[1..]),
             b[0].path, b[0].kind, b[0].payload + [NEWLINE] + Stream(b[1..]));
  }

  /** An unambiguous listing shares its stream with no other one. */
  lemma UnambiguousIsDetermined(a: seq<Entry>, b: seq<Entry>)
    requires Fed(a) && Fed(b) && !Ambiguous(a) && Stream(a) == Stream(b)
    ensures a == b
  {
    StreamEnds(a);
    StreamEnds(b);
    if a != [] {
      FirstIsDetermined(a, b);
      TailIsUnambiguous(a, b[0].payload);
      RestIsDetermined(a[0].kind, a[0].payload, a[1..], b[0].payload, b[1..]);
      assert a == [a[0]] + a[1..] && b == [b[0]] + b[1..];
    }
  }

  // ---- an ambiguous listing shares its stream ----

  lemma {:induction false} StreamConcat(a: seq<Entry>, b: seq<Entry>)
    ensures Stream(a + b) == Stream(a) + Stream(b)
  {
    if a == [] {
      assert a + b == b;
    } else {
      assert (a + b)[1..] == a[1..] + b;
      StreamConcat(a[1..], b);
    }
  }

  lemma TwoRecords(e: Entry, f: Entry)
    ensures Stream([e, f]) == Written(e) + Written(f)
  {
    assert [e, f] == [e] + [f];
    StreamSnoc([e], f);
    StreamSnoc([], e);
    assert [] + [e] == [e] && "" + Written(e) == Written(e);
  }

  /** Text between two newlines may end one record or begin the next. */
  lemma PairCollides(path: string, k: Kind, target: string, cut: string, next: string, l: Kind, last: string)
    ensures
      var a := [Entry(path, k, target + [NEWLINE] + cut), Entry(next, l, last)];
      var b := [Entry(path, k, target), Entry(cut + [NEWLINE] + next, l, last)];
      Stream(a) == Stream(b)
  {
    var e, f := Entry(path, k, target + [NEWLINE] + cut), Entry(next, l, last);
    var g, h := Entry(path, k, target), Entry(cut + [NEWLINE] + next, l, last);
    TwoRecords(e, f);
    TwoRecords(g, h);
    var head, rest := Written(g), Written(f);
    LongerTarget(path, k, target, cut);
    LongerPath(cut, next, l, last);
    Rejoin(head, cut, rest);
  }

  lemma LongerTarget(path: string, k: Kind, target: string, cut: string)
    ensures Written(Entry(path, k, target + [NEWLINE] + cut)) == Written(Entry(path, k, target)) + cut + [NEWLINE]
  {
    var head := path + [NUL] + KindText(k) + [NUL];
    assert head + (target + [NEWLINE] + cut) + [NEWLINE] == head + target + [NEWLINE] + cut + [NEWLINE];
  }

  lemma LongerPath(cut: string, next: string, l: Kind, last: string)
    ensures Written(Entry(cut + [NEWLINE] + next, l, last)) == cut + [NEWLINE] + Written(Entry(next, l, last))
  {
    var rest := [NUL] + KindText(l) + [NUL] + last + [NEWLINE];
    assert Written(Entry(next, l, last)) == next + rest;
    assert Written(Entry(cut + [NEWLINE] + next, l, last)) == (cut + [NEWLINE] + next) + rest;
    Regroup(cut, next, rest);
  }

  lemma Regroup(cut: string, next: string, rest: string)
    ensures (cut + [NEWLINE] + next) + rest == cut + [NEWLINE] + (next + rest)
  {
  }

  lemma Rejoin(head: string, cut: string, rest: string)
    ensures head + cut + [NEWLINE] + rest == head + (cut + [NEWLINE] + rest)
  {
  }

  /** Where a text holds a newline. */
  lemma CutAt(text: string) returns (before: string, after: string)
    requires NEWLINE in text
    ensures text == before + [NEWLINE] + after
  {
    var i :| 0 <= i < |text| && text[i] == NEWLINE;
    before, after := text[..i], text[i + 1..];
  }

  /** Two neighbouring records exchanged for two others. */
  function Exchanged(a: seq<Entry>, i: nat, e: Entry, f: Entry): seq<Entry>
    requires i + 1 < |a|
  {
    a[..i] + [e, f] + a[i + 2..]
  }

  lemma StreamOfThree(a: seq<Entry>, b: seq<Entry>, c: seq<Entry>)
    ensures Stream(a + b + c) == Stream(a) + Stream(b) + Stream(c)
  {
    StreamConcat(a + b, c);
    StreamConcat(a, b);
  }

  lemma ExchangeKeepsStream(a: seq<Entry>, i: nat, e: Entry, f: Entry)
    requires i + 1 < |a| && Stream([e, f]) == Stream([a[i], a[i + 1]])
    ensures Stream(Exchanged(a, i, e, f)) == Stream(a)
  {
    SplitAround(a, i);
    StreamOfThree(a[..i], [a[i], a[i + 1]], a[i + 2..]);
    StreamOfThree(a[..i], [e, f], a[i + 2..]);
  }

  lemma SplitAround(a: seq<Entry>, i: nat)
    requires i + 1 < |a|
    ensures a == a[..i] + [a[i], a[i + 1]] + a[i + 2..]
  {
  }

  lemma ExchangeIsOther(a: seq<Entry>, i: nat, e: Entry, f: Entry)
    requires i + 1 < |a| && Fed(a) && e != a[i] && EntryIsFed(e) && EntryIsFed(f)
    ensures Fed(Exchanged(a, i, e, f)) && Exchanged(a, i, e, f) != a
  {
    assert Exchanged(a, i, e, f)[i] == e;
  }

  /** An ambiguous listing has a different one with the same stream. */
  lemma AmbiguousCollides(a: seq<Entry>, i: nat) returns (b: seq<Entry>)
    requires Fed(a) && i + 1 < |a| && AmbiguousAt(a, i)
    ensures Fed(b) && b != a && Stream(b) == Stream(a)
  {
    var e, f := a[i], a[i + 1];
    assert EntryIsFed(e) && EntryIsFed(f);
    var g, h;
    if NEWLINE in e.payload {
      var target, cut := CutAt(e.payload);
      g, h := Entry(e.path, e.kind, target), Entry(cut + [NEWLINE] + f.path, f.kind, f.payload);
      PairCollides(e.path, e.kind, target, cut, f.path, f.kind, f.payload);
      assert |g.payload| < |e.payload|;
    } else {
      var cut, next := CutAt(f.path);
      g, h := Entry(e.path, e.kind, e.payload + [NEWLINE] + cut), Entry(next, f.kind, f.payload);
      PairCollides(e.path, e.kind, e.payload, cut, next, f.kind, f.payload);
      assert |g.payload| > |e.payload|;
    }
    b := Exchanged(a, i, g, h);
    ExchangeKeepsStream(a, i, g, h);
    ExchangeIsOther(a, i, g, h);
  }

  /** Some other listing that the hasher may be fed writes the same stream if and
      only if a link's target, unless it is last, or the path behind a link holds
      a newline. */
  lemma CollidesIff(a: seq<Entry>)
    requires Fed(a)
    ensures (exists b :: Fed(b) && b != a && Stream(b) == Stream(a)) <==> Ambiguous(a)
  {
    if Ambiguous(a) {
      var i :| 0 <= i < |a| - 1 && AmbiguousAt(a, i);
      var b := AmbiguousCollides(a, i);
    } else {
      forall b | Fed(b) && Stream(b) == Stream(a) ensures b == a {
        UnambiguousIsDetermined(a, b);
      }
    }
  }

  /** Two trees' entries, one of them unambiguous in canonical order, write the
      same stream if and only if they are the same entries. */
  lemma UnambiguousTree(a: seq<Entry>, b: seq<Entry>)
    requires DistinctPaths(a) && DistinctPaths(b) && Fed(a) && Fed(b) && !Ambiguous(Canonical(a))
    ensures CanonicalStream(a) == CanonicalStream(b) <==> multiset(a) == multiset(b)
  {
    CanonicalMembers(a);
    CanonicalMembers(b);
    if multiset(a) == multiset(b) { OrderDoesNotMatter(a, b); }
    forall e | e in Canonical(a) || e in Canonical(b) ensures EntryIsFed(e) {
      assert e in multiset(Canonical(a)) || e in multiset(Canonical(b));
      assert e in multiset(a) || e in multiset(b);
    }
    if Stream(Canonical(a)) == Stream(Canonical(b)) { UnambiguousIsDetermined(Canonical(a), Canonical(b)); }
  }

  // ---- two trees with one digest ----

  function Target(text: string): Node { Link(text, false, false) }

  /** Links "a" and "z", the first one's target with a newline. */
  function LeftTree(): seq<Item> { [Item("a", Target("t\nb")), Item("z", Target("u"))] }

  /** Links "a" and "b\nz", the second one's name with a newline. */
  function RightTree(): seq<Item> { [Item("a", Target("t")), Item("b\nz", Target("u"))] }

  lemma TwoLinks(n: string, s: string, m: string, t: string)
    requires Named(n) && Named(m) && n != m && LexLe(n, m)
    ensures
      var items := [Item(n, Target(s)), Item(m, Target(t))];
      && WellNamed(items) && !Escapes(items)
      && Listing(items, "") == [Entry(n, Symlink, s), Entry(m, Symlink, t)]
      && CanonicalStream(Listing(items, "")) == Stream([Entry(n, Symlink, s), Entry(m, Symlink, t)])
  {
    var items := [Item(n, Target(s)), Item(m, Target(t))];
    var e, f := Entry(n, Symlink, s), Entry(m, Symlink, t);
    assert items[1..] == [items[1]] && items[1..][1..] == [];
    assert Listing([], "") == [] && Listing(items[1..], "") == [f];
    assert WellNamed([]) && WellNamed([items[1]]);
    assert !Escapes([]) && !Escapes([items[1]]);
    assert [e, f][1..] == [f] && [f][1..] == [];
    assert SortBy(PathLe, []) == [] && SortBy(PathLe, [f]) == Insert(PathLe, f, []) == [f];
    assert SortBy(PathLe, [e, f]) == Insert(PathLe, e, [f]) == [e, f];
  }

  /** Two different trees that no check of the walk refuses, with one stream. */
  lemma TreesCollide()
    ensures WellNamed(LeftTree()) && !Escapes(LeftTree()) && WellNamed(RightTree()) && !Escapes(RightTree())
    ensures multiset(Listing(LeftTree(), "")) != multiset(Listing(RightTree(), ""))
    ensures CanonicalStream(Listing(LeftTree(), "")) == CanonicalStream(Listing(RightTree(), ""))
  {
    assert 'a' < 'z' && 'a' < 'b';
    TwoLinks("a", "t\nb", "z", "u");
    TwoLinks("a", "t", "b\nz", "u");
    PairCollides("a", Symlink, "t", "b", "z", Symlink, "u");
    assert "t" + [NEWLINE] + "b" == "t\nb" && "b" + [NEWLINE] + "z" == "b\nz";
    OtherEntries(Entry("a", Symlink, "t\nb"), Entry("z", Symlink, "u"), Entry("a", Symlink, "t"),
      Entry("b\nz", Symlink, "u"));
  }

  lemma OtherEntries(e: Entry, f: Entry, g: Entry, h: Entry)
    requires |e.payload| != |g.payload| && e.path != h.path
    ensures multiset([e, f]) != multiset([g, h])
  {
    assert e in multiset([e, f]) && e !in multiset([g, h]);
  }
}
