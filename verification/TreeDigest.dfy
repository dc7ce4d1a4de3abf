// The bytes fed to the tree digest: a canonical listing of files and links,
// written out with separators, and when it can be read back.

module TreeDigest {
  import opened Wrappers
  import opened Orders
  import opened Sums

  datatype Kind = File | Symlink | DirSymlink

  /** A file with its content hash, or a link with its target. */
  datatype Entry = Entry(path: string, kind: Kind, payload: string)

  function KindText(kind: Kind): string {
    match kind
    case File => "file"
    case Symlink => "symlink"
    case DirSymlink => "dir-symlink"
  }

  const NUL := '\0'
  const NEWLINE := '\n'

  function Written(e: Entry): string {
    e.path + [NUL] + KindText(e.kind) + [NUL] + e.payload + [NEWLINE]
  }

  /** The byte stream of a listing. UTF-8 maps texts to bytes one-to-one and
      keeps both separators, so texts stand for their bytes. */
  function Stream(entries: seq<Entry>): string {
    if entries == [] then "" else Written(entries[0]) + Stream(entries[1..])
  }

  /** Feeds one entry, piece by piece. */
  method FeedEntry(fed0: string, e: Entry) returns (fed: string)
    ensures fed == fed0 + Written(e)
  {
    fed := fed0 + e.path;
    fed := fed + [NUL];
    fed := fed + KindText(e.kind);
    fed := fed + [NUL];
    fed := fed + e.payload;
    fed := fed + [NEWLINE];
  }

  lemma AppendAssociates(a: string, b: string, c: string)
    ensures a + b + c == a + (b + c)
  {
  }

  /** Feeds the hasher entry by entry. */
  method Feed(entries: seq<Entry>) returns (fed: string)
    ensures fed == Stream(entries)
  {
    fed := "";
    assert entries[0..] == entries;
    for i := 0 to |entries|
      invariant fed + Stream(entries[i..]) == Stream(entries)
    {
      AppendAssociates(fed, Written(entries[i]), Stream(entries[i + 1..]));
      fed := FeedEntry(fed, entries[i]);
    }
    assert Stream(entries[|entries|..]) == "";
    assert fed + "" == fed;
  }

  // ---- reading a stream back ----

  /** The text before the first `mark`, and the text after it. */
  function SplitAt(text: string, mark: char): Option<(string, string)> {
    if text == "" then None
    else if text[0] == mark then Some(("", text[1..]))
    else
      var rest := SplitAt(text[1..], mark);
      if rest.None? then None else Some(([text[0]] + rest.value.0, rest.value.1))
  }

  lemma {:induction false} SplitShrinks(text: string, mark: char)
    ensures SplitAt(text, mark).Some? ==> |SplitAt(text, mark).value.1| < |text|
  {
    if text != "" && text[0] != mark { SplitShrinks(text[1..], mark); }
  }

  lemma {:induction false} SplitFound(before: string, mark: char, after: string)
    requires mark !in before
    ensures SplitAt(before + [mark] + after, mark) == Some((before, after))
  {
    var text := before + [mark] + after;
    if before == "" {
      assert text[0] == mark && text[1..] == after;
    } else {
      assert before == [before[0]] + before[1..];
      assert text[0] == before[0] != mark && text[1..] == before[1..] + [mark] + after;
      SplitFound(before[1..], mark, after);
    }
  }

  function KindOf(text: string): Option<Kind> {
    if text == "file" then Some(File)
    else if text == "symlink" then Some(Symlink)
    else if text == "dir-symlink" then Some(DirSymlink)
    else None
  }

  /** One record and what follows it. */
  function ReadOne(text: string): Option<(Entry, string)> {
    var path := SplitAt(text, NUL);
    if path.None? then None
    else
      var kind := SplitAt(path.value.1, NUL);
      if kind.None? || KindOf(kind.value.0).None? then None
      else
        var payload := SplitAt(kind.value.1, NEWLINE);
        if payload.None? then None
        else Some((Entry(path.value.0, KindOf(kind.value.0).value, payload.value.0), payload.value.1))
  }

  lemma ReadOneShrinks(text: string)
    ensures ReadOne(text).Some? ==> |ReadOne(text).value.1| < |text|
  {
    SplitShrinks(text, NUL);
    if SplitAt(text, NUL).Some? {
      var rest := SplitAt(text, NUL).value.1;
      SplitShrinks(rest, NUL);
      if SplitAt(rest, NUL).Some? { SplitShrinks(SplitAt(rest, NUL).value.1, NEWLINE); }
    }
  }

  /** Reads a whole stream, record by record. */
  function Decoded(text: string): Option<seq<Entry>>
    decreases |text|
  {
    if text == "" then Some([])
    else
      ReadOneShrinks(text);
      var first := ReadOne(text);
      if first.None? then None
      else
        var rest := Decoded(first.value.1);
        if rest.None? then None else Some([first.value.0] + rest.value)
  }

  /** Paths never hold a NUL, and payloads no newline. */
  ghost predicate Plain(entries: seq<Entry>) {
    forall e :: e in entries ==> NUL !in e.path && NEWLINE !in e.payload
  }

  lemma ReadWritten(e: Entry, rest: string)
    requires NUL !in e.path && NEWLINE !in e.payload
    ensures ReadOne(Written(e) + rest) == Some((e, rest))
  {
    var kind := KindText(e.kind);
    var afterKind := e.payload + [NEWLINE] + rest;
    var afterPath := kind + [NUL] + afterKind;
    assert Written(e) + rest == e.path + [NUL] + afterPath;
    SplitFound(e.path, NUL, afterPath);
    SplitFound(kind, NUL, afterKind);
    SplitFound(e.payload, NEWLINE, rest);
  }

  /** A plain listing is recovered from its stream. */
  lemma {:induction false} RoundTrip(entries: seq<Entry>)
    requires Plain(entries)
    ensures Decoded(Stream(entries)) == Some(entries)
  {
    if entries != [] {
      var rest := entries[1..];
      assert entries == [entries[0]] + rest;
      RoundTrip(rest);
      ReadWritten(entries[0], Stream(rest));
    }
  }

  // The mirror image: with paths free of newlines and targets free of NULs, the
  // stream can be read from its end, whatever newlines the targets hold.

  ghost predicate MirrorPlain(entries: seq<Entry>) {
    forall e :: e in entries ==> NEWLINE !in e.path && NUL !in e.payload
  }

  /** The text after the last `mark`, all of it when there is none. */
  function Tail(text: string, mark: char): string {
    if text == "" || text[|text| - 1] == mark then "" else Tail(text[..|text| - 1], mark) + [text[|text| - 1]]
  }

  lemma {:induction false} TailFound(before: string, after: string, mark: char)
    requires mark !in after && (before == "" || before[|before| - 1] == mark)
    ensures Tail(before + after, mark) == after
  {
    var text := before + after;
    if after == "" {
      assert text == before;
    } else {
      assert text[..|text| - 1] == before + after[..|after| - 1];
      TailFound(before, after[..|after| - 1], mark);
      assert after == after[..|after| - 1] + [after[|after| - 1]];
    }
  }

  lemma {:induction false} StreamSnoc(entries: seq<Entry>, e: Entry)
    ensures Stream(entries + [e]) == Stream(entries) + Written(e)
  {
    if entries == [] {
      assert entries + [e] == [e] && [e][1..] == [];
      assert Stream([e]) == Written(e) + "";
    } else {
      assert (entries + [e])[1..] == entries[1..] + [e];
      StreamSnoc(entries[1..], e);
    }
  }

  lemma {:induction false} StreamEnds(entries: seq<Entry>)
    ensures Stream(entries) == "" <==> entries == []
    ensures entries != [] ==> Stream(entries)[|Stream(entries)| - 1] == NEWLINE
  {
    if entries != [] {
      var init, last := entries[..|entries| - 1], entries[|entries| - 1];
      assert entries == init + [last];
      StreamSnoc(init, last);
    }
  }

  /** A record at the end of a stream determines itself and the stream before it. */
  lemma LastRecord(before: string, e: Entry, other: string, f: Entry)
    requires NEWLINE !in e.path && NUL !in e.payload && NEWLINE !in f.path && NUL !in f.payload
    requires before == "" || before[|before| - 1] == NEWLINE
    requires other == "" || other[|other| - 1] == NEWLINE
    requires before + Written(e) == other + Written(f)
    ensures before == other && e == f
  {
    var a, b := before + e.path + [NUL] + KindText(e.kind) + [NUL], other + f.path + [NUL] + KindText(f.kind) + [NUL];
    assert before + Written(e) == a + e.payload + [NEWLINE] && other + Written(f) == b + f.payload + [NEWLINE];
    DropLast(a + e.payload, b + f.payload, NEWLINE);
    TailFound(a, e.payload, NUL);
    TailFound(b, f.payload, NUL);
    SameTail(a, b, e.payload);
    var c, d := before + e.path + [NUL], other + f.path + [NUL];
    assert a == c + KindText(e.kind) + [NUL] && b == d + KindText(f.kind) + [NUL];
    DropLast(c + KindText(e.kind), d + KindText(f.kind), NUL);
    TailFound(c, KindText(e.kind), NUL);
    TailFound(d, KindText(f.kind), NUL);
    SameTail(c, d, KindText(e.kind));
    DropLast(before + e.path, other + f.path, NUL);
    TailFound(before, e.path, NEWLINE);
    TailFound(other, f.path, NEWLINE);
    SameTail(before, other, e.path);
  }

  lemma DropLast(a: string, b: string, c: char)
    requires a + [c] == b + [c]
    ensures a == b
  {
    assert a == (a + [c])[..|a|] && b == (b + [c])[..|b|];
  }

  lemma SameTail(a: string, b: string, tail: string)
    requires a + tail == b + tail
    ensures a == b
  {
    assert |a| == |b|;
    assert a == (a + tail)[..|a|] && b == (b + tail)[..|b|];
  }

  lemma MirrorLast(a: seq<Entry>, e: Entry, b: seq<Entry>, f: Entry)
    requires NEWLINE !in e.path && NUL !in e.payload && NEWLINE !in f.path && NUL !in f.payload
    requires Stream(a + [e]) == Stream(b + [f])
    ensures Stream(a) == Stream(b) && e == f
  {
    StreamSnoc(a, e);
    StreamSnoc(b, f);
    StreamEnds(a);
    StreamEnds(b);
    LastRecord(Stream(a), e, Stream(b), f);
  }

  lemma InitAndLast(entries: seq<Entry>)
    requires entries != []
    ensures entries == entries[..|entries| - 1] + [entries[|entries| - 1]]
    ensures entries[|entries| - 1] in entries && forall e :: e in entries[..|entries| - 1] ==> e in entries
  {
  }

  /** With newline-free paths, equal streams mean equal listings even when link
      targets hold newlines. */
  lemma {:induction false} MirrorInjective(a: seq<Entry>, b: seq<Entry>)
    requires MirrorPlain(a) && MirrorPlain(b) && Stream(a) == Stream(b)
    ensures a == b
    decreases |a|
  {
    StreamEnds(a);
    StreamEnds(b);
    if a != [] {
      InitAndLast(a);
      InitAndLast(b);
      MirrorLast(a[..|a| - 1], a[|a| - 1], b[..|b| - 1], b[|b| - 1]);
      MirrorInjective(a[..|a| - 1], b[..|b| - 1]);
    }
  }

  // ---- the canonical order ----

  predicate PathLe(a: Entry, b: Entry) {
    LexLe(a.path, b.path)
  }

  lemma PathsAreOrdered()
    ensures TotalPreorder(PathLe)
  {
    forall a: Entry, b: Entry ensures PathLe(a, b) || PathLe(b, a) { LexTotal(a.path, b.path); }
    forall a: Entry, b: Entry, c: Entry | PathLe(a, b) && PathLe(b, c)
      ensures PathLe(a, c)
    {
      LexTrans(a.path, b.path, c.path);
    }
  }

  function Canonical(listing: seq<Entry>): seq<Entry> {
    SortBy(PathLe, listing)
  }

  ghost predicate DistinctPaths(listing: seq<Entry>) {
    forall a, b :: a in listing && b in listing && a.path == b.path ==> a == b
  }

  /** The canonical stream of a listing in any order. */
  function CanonicalStream(listing: seq<Entry>): string {
    Stream(Canonical(listing))
  }

  lemma CanonicalMembers(listing: seq<Entry>)
    ensures Sorted(PathLe, Canonical(listing)) && multiset(Canonical(listing)) == multiset(listing)
    ensures forall e :: e in Canonical(listing) <==> e in listing
  {
    PathsAreOrdered();
    SortSorted(PathLe, listing);
    SortPermutes(PathLe, listing);
    assert forall e :: e in Canonical(listing) <==> e in multiset(Canonical(listing));
    assert forall e :: e in listing <==> e in multiset(listing);
  }

  lemma SameCanonical(a: seq<Entry>, b: seq<Entry>)
    requires multiset(a) == multiset(b) && DistinctPaths(a)
    ensures Canonical(a) == Canonical(b)
  {
    CanonicalMembers(a);
    CanonicalMembers(b);
    forall x, y | x in Canonical(a) && y in Canonical(a) && PathLe(x, y) && PathLe(y, x) ensures x == y {
      LexAntisym(x.path, y.path);
    }
    SortedUnique(PathLe, Canonical(a), Canonical(b));
  }

  /** The stream does not depend on the order in which entries were found. */
  lemma OrderDoesNotMatter(a: seq<Entry>, b: seq<Entry>)
    requires multiset(a) == multiset(b) && DistinctPaths(a)
    ensures CanonicalStream(a) == CanonicalStream(b)
  {
    SameCanonical(a, b);
  }

  /** Two plain trees write the same stream if and only if they hold the same
      files and links. */
  lemma SameStreamSameTree(a: seq<Entry>, b: seq<Entry>)
    requires DistinctPaths(a) && DistinctPaths(b) && Plain(a) && Plain(b)
    ensures CanonicalStream(a) == CanonicalStream(b) <==> multiset(a) == multiset(b)
  {
    CanonicalMembers(a);
    CanonicalMembers(b);
    if multiset(a) == multiset(b) { OrderDoesNotMatter(a, b); }
    RoundTrip(Canonical(a));
    RoundTrip(Canonical(b));
  }

  // ---- the walk ----

  /** A workspace tree. A directory lists its entries in enumeration order. */
  datatype Node =
    | Regular(digest: string)
    | Link(target: string, toDirectory: bool, escapes: bool)
    | Folder(items: seq<Item>)
    | Special

  datatype Item = Item(name: string, node: Node)

  function Child(prefix: string, name: string): string {
    if prefix == "" then name else prefix + "/" + name
  }

  /** Everything below a directory, in enumeration order. Links are recorded, not
      followed; special files are left out. */
  function Listing(items: seq<Item>, prefix: string): seq<Entry> {
    if items == [] then []
    else ItemListing(items[0].node, Child(prefix, items[0].name)) + Listing(items[1..], prefix)
  }

  function ItemListing(node: Node, path: string): seq<Entry> {
    match node
    case Regular(digest) => [Entry(path, File, digest)]
    case Link(target, toDirectory, _) => [Entry(path, if toDirectory then DirSymlink else Symlink, target)]
    case Folder(items) => Listing(items, path)
    case Special => []
  }

  /** Some link below leaves the root. */
  predicate Escapes(items: seq<Item>) {
    items != [] && (NodeEscapes(items[0].node) || Escapes(items[1..]))
  }

  predicate NodeEscapes(node: Node) {
    (node.Link? && node.escapes) || (node.Folder? && Escapes(node.items))
  }

  /** The same tree, with every directory in it enumerated in any order. */
  ghost predicate SameTree(a: seq<Item>, b: seq<Item>)
    decreases a
  {
    if a == [] then b == []
    else
      exists k :: 0 <= k < |b| && b[k].name == a[0].name
        && (a[0].node == b[k].node
            || (a[0].node.Folder? && b[k].node.Folder? && SameTree(a[0].node.items, b[k].node.items)))
        && SameTree(a[1..], Without(b, k))
  }

  /** Any entry of a directory may be visited first. */
  lemma {:induction false} ListingTake(items: seq<Item>, prefix: string, k: nat)
    requires k < |items|
    ensures multiset(Listing(items, prefix)) == multiset(Listing([items[k]] + Without(items, k), prefix))
    ensures Escapes(items) <==> Escapes([items[k]] + Without(items, k))
  {
    var first, rest := items[0], items[1..];
    assert items == [first] + rest;
    if k == 0 {
      assert Without(items, 0) == rest;
    } else {
      ListingTake(rest, prefix, k - 1);
      WithoutLater(items, k);
    }
  }

  /** Enumerating any directories in another order keeps the entries found, and
      whether a link escapes. */
  lemma {:induction false} SameTreeListing(a: seq<Item>, b: seq<Item>, prefix: string)
    requires SameTree(a, b)
    ensures multiset(Listing(a, prefix)) == multiset(Listing(b, prefix)) && (Escapes(a) <==> Escapes(b))
    decreases a
  {
    if a != [] {
      var k :| 0 <= k < |b| && b[k].name == a[0].name
        && (a[0].node == b[k].node
            || (a[0].node.Folder? && b[k].node.Folder? && SameTree(a[0].node.items, b[k].node.items)))
        && SameTree(a[1..], Without(b, k));
      ListingTake(b, prefix, k);
      SameTreeListing(a[1..], Without(b, k), prefix);
      if a[0].node != b[k].node { SameTreeListing(a[0].node.items, b[k].node.items, Child(prefix, a[0].name)); }
    }
  }

  /** Listing one directory in another order is a case of it. */
  lemma {:induction false} PermutedIsSameTree(a: seq<Item>, b: seq<Item>)
    requires multiset(a) == multiset(b)
    ensures SameTree(a, b)
    decreases |a|
  {
    if a == [] {
      assert |multiset(b)| == 0;
    } else {
      var k := PermutedIndex(a, b);
      PermutedIsSameTree(a[1..], Without(b, k));
    }
  }

  // ---- paths of a tree are distinct ----

  predicate Named(name: string) {
    name != "" && '/' !in name
  }

  /** Names are proper, and differ within each directory. */
  ghost predicate WellNamed(items: seq<Item>) {
    items == []
    || (Named(items[0].name)
        && (forall k :: 0 < k < |items| ==> items[k].name != items[0].name)
        && (items[0].node.Folder? ==> WellNamed(items[0].node.items))
        && WellNamed(items[1..]))
  }

  /** `path` is `base` or something below it. */
  predicate Under(path: string, base: string) {
    path == base || (|base| < |path| && path[..|base|] == base && path[|base|] == '/')
  }

  ghost predicate UnderSome(path: string, items: seq<Item>, prefix: string) {
    exists k :: 0 <= k < |items| && Named(items[k].name) && Under(path, Child(prefix, items[k].name))
  }

  lemma UnderChild(path: string, base: string, name: string)
    requires base != "" && Under(path, Child(base, name))
    ensures Under(path, base)
  {
    var child := base + "/" + name;
    assert path[..|child|] == child;
    assert path[..|base|] == child[..|base|] == base && path[|base|] == child[|base|];
  }

  lemma {:induction false} ItemsAreUnder(items: seq<Item>, prefix: string, e: Entry)
    requires WellNamed(items) && e in Listing(items, prefix)
    ensures UnderSome(e.path, items, prefix)
    decreases items
  {
    var first, rest := items[0], items[1..];
    if e in ItemListing(first.node, Child(prefix, first.name)) {
      ItemIsUnder(first, prefix, e);
    } else {
      ItemsAreUnder(rest, prefix, e);
      var k :| 0 <= k < |rest| && Named(rest[k].name) && Under(e.path, Child(prefix, rest[k].name));
      assert items[k + 1] == rest[k];
    }
  }

  lemma {:induction false} ItemIsUnder(item: Item, prefix: string, e: Entry)
    requires Named(item.name) && (item.node.Folder? ==> WellNamed(item.node.items))
    requires e in ItemListing(item.node, Child(prefix, item.name))
    ensures Under(e.path, Child(prefix, item.name))
    decreases item, 0
  {
    if item.node.Folder? {
      var base := Child(prefix, item.name);
      ItemsAreUnder(item.node.items, base, e);
      var k :| 0 <= k < |item.node.items| && Under(e.path, Child(base, item.node.items[k].name));
      UnderChild(e.path, base, item.node.items[k].name);
    }
  }

  lemma ShorterMeansSlash(path: string, prefix: string, n: string, m: string)
    requires Under(path, Child(prefix, n)) && Under(path, Child(prefix, m)) && |n| < |m|
    ensures '/' in m
  {
    var start := if prefix == "" then 0 else |prefix| + 1;
    var a, b := Child(prefix, n), Child(prefix, m);
    assert b[start..] == m && |a| == start + |n| && |b| == start + |m|;
    assert path[..|b|] == b && path[|a|] == '/';
    assert m[|n|] == b[start + |n|] == path[|a|];
    assert m[|n|] in m;
  }

  lemma SameLengthSame(path: string, prefix: string, n: string, m: string)
    requires Under(path, Child(prefix, n)) && Under(path, Child(prefix, m)) && |n| == |m|
    ensures n == m
  {
    var start := if prefix == "" then 0 else |prefix| + 1;
    var a, b := Child(prefix, n), Child(prefix, m);
    assert a == path[..|a|] && b == path[..|b|];
    assert a[start..] == n && b[start..] == m;
  }

  lemma ApartNames(path: string, prefix: string, n: string, m: string)
    requires Named(n) && Named(m)
    requires Under(path, Child(prefix, n)) && Under(path, Child(prefix, m))
    ensures n == m
  {
    if |n| < |m| {
      ShorterMeansSlash(path, prefix, n, m);
    } else if |m| < |n| {
      ShorterMeansSlash(path, prefix, m, n);
    } else {
      SameLengthSame(path, prefix, n, m);
    }
  }

  lemma FirstIsApart(items: seq<Item>, prefix: string, e: Entry, f: Entry)
    requires WellNamed(items) && items != []
    requires e in ItemListing(items[0].node, Child(prefix, items[0].name)) && f in Listing(items[1..], prefix)
    ensures e.path != f.path
  {
    ItemIsUnder(items[0], prefix, e);
    ItemsAreUnder(items[1..], prefix, f);
    var k :| 0 <= k < |items[1..]| && Named(items[1..][k].name) && Under(f.path, Child(prefix, items[1..][k].name));
    assert items[k + 1] == items[1..][k];
    if e.path == f.path { ApartNames(e.path, prefix, items[0].name, items[k + 1].name); }
  }

  /** A well-named tree lists every path once. */
  lemma {:induction false} ListingIsDistinct(items: seq<Item>, prefix: string)
    requires WellNamed(items)
    ensures DistinctPaths(Listing(items, prefix))
    decreases items
  {
    if items != [] {
      var first, rest := items[0], items[1..];
      var here := ItemListing(first.node, Child(prefix, first.name));
      if first.node.Folder? { ListingIsDistinct(first.node.items, Child(prefix, first.name)); }
      ListingIsDistinct(rest, prefix);
      forall e, f | e in here && f in Listing(rest, prefix) ensures e.path != f.path {
        FirstIsApart(items, prefix, e, f);
      }
    }
  }

  /** The stream does not depend on the orders in which the directories of a tree
      enumerate their entries. */
  lemma EnumerationDoesNotMatter(a: seq<Item>, b: seq<Item>)
    requires WellNamed(a) && SameTree(a, b)
    ensures CanonicalStream(Listing(a, "")) == CanonicalStream(Listing(b, ""))
  {
    SameTreeListing(a, b, "");
    ListingIsDistinct(a, "");
    OrderDoesNotMatter(Listing(a, ""), Listing(b, ""));
  }

  // ---- what is listed ----

  /** Following these names, one directory after the other, leads to this node. */
  ghost predicate Leads(items: seq<Item>, names: seq<string>, node: Node)
    decreases |names|, 0
  {
    names != [] && exists item :: item in items && item.name == names[0] && OnTo(item.node, names[1..], node)
  }

  ghost predicate OnTo(at: Node, names: seq<string>, node: Node)
    decreases |names|, 1
  {
    if names == [] then at == node else at.Folder? && Leads(at.items, names, node)
  }

  function Joined(prefix: string, names: seq<string>): string
    decreases |names|
  {
    if names == [] then prefix else Joined(Child(prefix, names[0]), names[1..])
  }

  /** The entry for a file, or for a link, at this path. */
  predicate Enters(e: Entry, path: string, node: Node) {
    && (node.Regular? || node.Link?)
    && e.path == path
    && (node.Regular? ==> e.kind == File && e.payload == node.digest)
    && (node.Link? ==> e.payload == node.target && e.kind == if node.toDirectory then DirSymlink else Symlink)
  }

  /** The entry belongs to a file or link somewhere below. */
  ghost predicate Lists(items: seq<Item>, prefix: string, e: Entry) {
    exists names, node :: Leads(items, names, node) && Enters(e, Joined(prefix, names), node)
  }

  /** Somewhere below, a link leaves the root. */
  ghost predicate HoldsEscape(items: seq<Item>) {
    exists names, node :: Leads(items, names, node) && node.Link? && node.escapes
  }

  lemma LeadsInto(items: seq<Item>, item: Item, names: seq<string>, node: Node)
    requires item in items && OnTo(item.node, names, node)
    ensures Leads(items, [item.name] + names, node)
    ensures forall prefix :: Joined(prefix, [item.name] + names) == Joined(Child(prefix, item.name), names)
  {
    assert ([item.name] + names)[1..] == names;
  }

  lemma {:induction false} ListedBelow(items: seq<Item>, prefix: string, e: Entry)
    returns (names: seq<string>, node: Node)
    requires e in Listing(items, prefix)
    ensures Leads(items, names, node) && Enters(e, Joined(prefix, names), node)
    decreases items
  {
    var first, rest := items[0], items[1..];
    if e in ItemListing(first.node, Child(prefix, first.name)) {
      names, node := [], first.node;
      if first.node.Folder? { names, node := ListedBelow(first.node.items, Child(prefix, first.name), e); }
      LeadsInto(items, first, names, node);
      names := [first.name] + names;
    } else {
      names, node := ListedBelow(rest, prefix, e);
      var item :| item in rest && item.name == names[0] && OnTo(item.node, names[1..], node);
      assert item in items;
    }
  }

  lemma {:induction false} ItemIsListed(items: seq<Item>, prefix: string, item: Item, e: Entry)
    requires item in items && e in ItemListing(item.node, Child(prefix, item.name))
    ensures e in Listing(items, prefix)
  {
    if item != items[0] {
      assert items == [items[0]] + items[1..];
      ItemIsListed(items[1..], prefix, item, e);
    }
  }

  lemma {:induction false} EntryIsListed(items: seq<Item>, prefix: string, names: seq<string>, node: Node, e: Entry)
    requires Leads(items, names, node) && Enters(e, Joined(prefix, names), node)
    ensures e in Listing(items, prefix)
    decreases |names|
  {
    var item :| item in items && item.name == names[0] && OnTo(item.node, names[1..], node);
    var path := Child(prefix, item.name);
    assert Joined(prefix, names) == Joined(path, names[1..]);
    if names[1..] != [] { EntryIsListed(item.node.items, path, names[1..], node, e); }
    ItemIsListed(items, prefix, item, e);
  }

  /** A listing holds the entries of the files and the links below, each with its
      path, its kind, and its hash or target, and no others. */
  lemma ListingIs(items: seq<Item>, prefix: string, e: Entry)
    ensures e in Listing(items, prefix) <==> Lists(items, prefix, e)
  {
    if e in Listing(items, prefix) {
      var names, node := ListedBelow(items, prefix, e);
    }
    if names, node :| Leads(items, names, node) && Enters(e, Joined(prefix, names), node) {
      EntryIsListed(items, prefix, names, node, e);
    }
  }

  lemma {:induction false} EscapeBelow(items: seq<Item>) returns (names: seq<string>, node: Node)
    requires Escapes(items)
    ensures Leads(items, names, node) && node.Link? && node.escapes
    decreases items
  {
    var first, rest := items[0], items[1..];
    if NodeEscapes(first.node) {
      names, node := [], first.node;
      if first.node.Folder? { names, node := EscapeBelow(first.node.items); }
      LeadsInto(items, first, names, node);
      names := [first.name] + names;
    } else {
      names, node := EscapeBelow(rest);
      var item :| item in rest && item.name == names[0] && OnTo(item.node, names[1..], node);
      assert item in items;
    }
  }

  lemma {:induction false} ItemEscapes(items: seq<Item>, item: Item)
    requires item in items && NodeEscapes(item.node)
    ensures Escapes(items)
  {
    if item != items[0] {
      assert items == [items[0]] + items[1..];
      ItemEscapes(items[1..], item);
    }
  }

  lemma {:induction false} LinkEscapes(items: seq<Item>, names: seq<string>, node: Node)
    requires Leads(items, names, node) && node.Link? && node.escapes
    ensures Escapes(items)
    decreases |names|
  {
    var item :| item in items && item.name == names[0] && OnTo(item.node, names[1..], node);
    if names[1..] != [] { LinkEscapes(item.node.items, names[1..], node); }
    ItemEscapes(items, item);
  }

  lemma EscapesIs(items: seq<Item>)
    ensures Escapes(items) <==> HoldsEscape(items)
  {
    if Escapes(items) {
      var names, node := EscapeBelow(items);
    }
    if names, node :| Leads(items, names, node) && node.Link? && node.escapes {
      LinkEscapes(items, names, node);
    }
  }

  // ---- the walk over directories ----

  datatype Directory = Directory(prefix: string, items: seq<Item>)

  function ListingOf(pending: seq<Directory>): seq<Entry> {
    if pending == [] then [] else Listing(pending[0].items, pending[0].prefix) + ListingOf(pending[1..])
  }

  predicate SomeEscape(pending: seq<Directory>) {
    pending != [] && (Escapes(pending[0].items) || SomeEscape(pending[1..]))
  }

  lemma {:induction false} PendingConcat(a: seq<Directory>, b: seq<Directory>)
    ensures ListingOf(a + b) == ListingOf(a) + ListingOf(b)
    ensures SomeEscape(a + b) <==> SomeEscape(a) || SomeEscape(b)
  {
    if a == [] {
      assert a + b == b;
    } else {
      assert (a + b)[1..] == a[1..] + b;
      PendingConcat(a[1..], b);
    }
  }

  lemma OneDirectory(d: Directory)
    ensures ListingOf([d]) == Listing(d.items, d.prefix) && (SomeEscape([d]) <==> Escapes(d.items))
    ensures Total([d]) == 1 + Size(d.items)
  {
    assert [d][1..] == [];
    assert Listing(d.items, d.prefix) + [] == Listing(d.items, d.prefix);
  }

  /** Directories below, for termination. */
  function Size(items: seq<Item>): nat {
    if items == [] then 0
    else (if items[0].node.Folder? then 1 + Size(items[0].node.items) else 0) + Size(items[1..])
  }

  function Total(pending: seq<Directory>): nat {
    if pending == [] then 0 else 1 + Size(pending[0].items) + Total(pending[1..])
  }

  lemma {:induction false} TotalConcat(a: seq<Directory>, b: seq<Directory>)
    ensures Total(a + b) == Total(a) + Total(b)
  {
    if a == [] {
      assert a + b == b;
    } else {
      assert (a + b)[1..] == a[1..] + b;
      TotalConcat(a[1..], b);
    }
  }

  /** One entry: a file or a link is recorded, a real directory is kept for
      later, and an escaping link stops the walk. */
  method Visit(node: Node, path: string) returns (ok: bool, found: seq<Entry>, kept: seq<Directory>)
    ensures !ok ==> NodeEscapes(node)
    ensures ok ==>
      && found + ListingOf(kept) == ItemListing(node, path)
      && (NodeEscapes(node) <==> SomeEscape(kept))
      && Total(kept) == if node.Folder? then 1 + Size(node.items) else 0
  {
    ok, found, kept := true, [], [];
    match node {
      case Regular(digest) =>
        found := [Entry(path, File, digest)];
      case Link(target, toDirectory, escapes) =>
        ok := !escapes;
        found := [Entry(path, if toDirectory then DirSymlink else Symlink, target)];
      case Folder(items) =>
        OneDirectory(Directory(path, items));
        kept := [Directory(path, items)];
      case Special =>
    }
  }

  /** What is found, kept and still to visit makes up a whole directory. */
  ghost predicate Visiting(d: Directory, found: seq<Entry>, kept: seq<Directory>, rest: seq<Item>) {
    && multiset(found) + multiset(ListingOf(kept)) + multiset(Listing(rest, d.prefix))
      == multiset(Listing(d.items, d.prefix))
    && (Escapes(d.items) <==> SomeEscape(kept) || Escapes(rest))
    && Total(kept) + Size(rest) == Size(d.items)
  }

  lemma VisitOne(
      d: Directory, found: seq<Entry>, kept: seq<Directory>, item: Item, rest: seq<Item>, more: seq<Entry>,
      later: seq<Directory>)
    requires Visiting(d, found, kept, [item] + rest)
    requires more + ListingOf(later) == ItemListing(item.node, Child(d.prefix, item.name))
    requires NodeEscapes(item.node) <==> SomeEscape(later)
    requires Total(later) == if item.node.Folder? then 1 + Size(item.node.items) else 0
    ensures Visiting(d, found + more, kept + later, rest)
  {
    PendingConcat(kept, later);
    TotalConcat(kept, later);
    assert multiset(more + ListingOf(later)) == multiset(more) + multiset(ListingOf(later));
  }

  /** Visits one directory's entries. */
  method WalkDirectory(d: Directory) returns (ok: bool, found: seq<Entry>, kept: seq<Directory>)
    ensures !ok ==> Escapes(d.items)
    ensures ok ==>
      && multiset(found) + multiset(ListingOf(kept)) == multiset(Listing(d.items, d.prefix))
      && (Escapes(d.items) <==> SomeEscape(kept))
      && Total(kept) == Size(d.items)
  {
    ok, found, kept := true, [], [];
    assert d.items[0..] == d.items;
    for i := 0 to |d.items|
      invariant ok && Visiting(d, found, kept, d.items[i..])
    {
      var item := d.items[i];
      ghost var rest := d.items[i + 1..];
      SliceTail(d.items, i);
      var more, later;
      ok, more, later := Visit(item.node, Child(d.prefix, item.name));
      if !ok {
        return;
      }
      VisitOne(d, found, kept, item, rest, more, later);
      found, kept := found + more, kept + later;
    }
  }

  /** Walks a whole tree and sorts what it found by path; an escaping link fails
      closed. */
  method TreeEntries(root: seq<Item>) returns (entries: Option<seq<Entry>>)
    requires WellNamed(root)
    ensures entries.None? <==> HoldsEscape(root)
    ensures entries.Some? ==> entries.value == Canonical(Listing(root, ""))
    ensures entries.Some? ==> forall e :: e in entries.value <==> Lists(root, "", e)
  {
    EscapesIs(root);
    var pending := [Directory("", root)];
    var found: seq<Entry> := [];
    OneDirectory(pending[0]);
    while pending != []
      invariant multiset(found) + multiset(ListingOf(pending)) == multiset(Listing(root, ""))
      invariant Escapes(root) <==> SomeEscape(pending)
      decreases Total(pending)
    {
      var rest := pending[1..];
      var ok, more, kept := WalkDirectory(pending[0]);
      if !ok {
        return None;
      }
      PendingConcat(kept, rest);
      TotalConcat(kept, rest);
      found := found + more;
      pending := kept + rest;
    }
    ListingIsDistinct(root, "");
    SameCanonical(Listing(root, ""), found);
    entries := Some(SortBy(PathLe, found));
    CanonicalMembers(Listing(root, ""));
    forall e ensures e in Listing(root, "") <==> Lists(root, "", e) { ListingIs(root, "", e); }
  }
}
