// A snapshot directory tree: its visible files in name order, and the bounded
// walk that finds them with an explicit stack.

module SnapshotTree {
  import opened Arithmetic
  import opened Orders

  type Path = seq<string>

  /** A snapshot entry. A directory lists its entries in whatever order the file
      system enumerates them. */
  datatype Node = File(lines: seq<string>, size: nat, readable: bool) | Dir(entries: seq<Entry>)

  datatype Entry = Entry(name: string, node: Node)

  predicate Hidden(name: string) {
    name != "" && name[0] == '.'
  }

  predicate Visible(e: Entry) {
    !Hidden(e.name)
  }

  predicate NameLe(a: Entry, b: Entry) {
    LexLe(a.name, b.name)
  }

  /** The visible entries in name order. */
  function Shown(entries: seq<Entry>): seq<Entry> {
    SortBy(NameLe, Filter(entries, Visible))
  }

  // ---- sizes, for termination ----

  function Weight(node: Node): nat {
    match node
    case File(_, _, _) => 1
    case Dir(entries) => 1 + Weights(entries)
  }

  function Weights(entries: seq<Entry>): nat {
    if entries == [] then 0 else 1 + Weight(entries[0].node) + Weights(entries[1..])
  }

  lemma {:induction false} InsertWeight(e: Entry, sorted: seq<Entry>)
    ensures Weights(Insert(NameLe, e, sorted)) == 1 + Weight(e.node) + Weights(sorted)
  {
    if sorted != [] && !NameLe(e, sorted[0]) { InsertWeight(e, sorted[1..]); }
  }

  lemma {:induction false} SortWeight(entries: seq<Entry>)
    ensures Weights(SortBy(NameLe, entries)) == Weights(entries)
  {
    if entries != [] {
      SortWeight(entries[1..]);
      InsertWeight(entries[0], SortBy(NameLe, entries[1..]));
    }
  }

  lemma {:induction false} FilteredWeight(entries: seq<Entry>)
    ensures Weights(Filter(entries, Visible)) <= Weights(entries)
  {
    if entries != [] {
      FilteredWeight(entries[1..]);
      var rest := Filter(entries[1..], Visible);
      assert Filter(entries, Visible) == if Visible(entries[0]) then [entries[0]] + rest else rest;
      if Visible(entries[0]) { assert ([entries[0]] + rest)[1..] == rest; }
    }
  }

  lemma ShownWeight(entries: seq<Entry>)
    ensures Weights(Shown(entries)) <= Weights(entries)
  {
    FilteredWeight(entries);
    SortWeight(Filter(entries, Visible));
  }

  // ---- the specification ----

  /** All files reached from `node` without a hidden entry, in name-sorted
      preorder, as paths that continue `base`. */
  function FilesOf(node: Node, base: Path): seq<Path>
    decreases Weight(node), 0
  {
    match node
    case File(_, _, _) => [base]
    case Dir(entries) =>
      ShownWeight(entries);
      FilesIn(Shown(entries), base)
  }

  function FilesIn(entries: seq<Entry>, base: Path): seq<Path>
    decreases Weights(entries), 1
  {
    if entries == [] then []
    else FilesOf(entries[0].node, base + [entries[0].name]) + FilesIn(entries[1..], base)
  }

  /** The entries a complete walk lists, hidden ones included. */
  function Listed(node: Node): nat
    decreases Weight(node), 0
  {
    match node
    case File(_, _, _) => 0
    case Dir(entries) =>
      ShownWeight(entries);
      |entries| + ListedIn(Shown(entries))
  }

  function ListedIn(entries: seq<Entry>): nat
    decreases Weights(entries), 1
  {
    if entries == [] then 0 else Listed(entries[0].node) + ListedIn(entries[1..])
  }

  // ---- the walk ----

  const SEARCH_MAX_ENTRIES := 10000

  datatype Pending = Pending(path: Path, node: Node)

  /** What one listing pushes, the first in name order on top. */
  function Children(entries: seq<Entry>, base: Path): seq<Pending> {
    if entries == [] then []
    else [Pending(base + [entries[0].name], entries[0].node)] + Children(entries[1..], base)
  }

  /** All files below the pending entries, top first. */
  function FilesBelow(pending: seq<Pending>): seq<Path> {
    if pending == [] then [] else FilesOf(pending[0].node, pending[0].path) + FilesBelow(pending[1..])
  }

  function ListedBelow(pending: seq<Pending>): nat {
    if pending == [] then 0 else Listed(pending[0].node) + ListedBelow(pending[1..])
  }

  function WeightBelow(pending: seq<Pending>): nat {
    if pending == [] then 0 else Weight(pending[0].node) + WeightBelow(pending[1..])
  }

  lemma {:induction false} PushChildren(entries: seq<Entry>, base: Path, rest: seq<Pending>)
    ensures FilesBelow(Children(entries, base) + rest) == FilesIn(entries, base) + FilesBelow(rest)
    ensures ListedBelow(Children(entries, base) + rest) == ListedIn(entries) + ListedBelow(rest)
    ensures WeightBelow(Children(entries, base) + rest) <= Weights(entries) + WeightBelow(rest)
    decreases |entries|
  {
    var stack := Children(entries, base) + rest;
    if entries == [] {
      assert stack == rest;
    } else {
      assert stack[1..] == Children(entries[1..], base) + rest;
      PushChildren(entries[1..], base, rest);
    }
  }

  // A cut listing leaves out files but never reorders the others.

  lemma NamesAreOrdered()
    ensures TotalPreorder(NameLe)
  {
    forall a: Entry, b: Entry ensures NameLe(a, b) || NameLe(b, a) {
      LexTotal(a.name, b.name);
    }
    forall a: Entry, b: Entry, c: Entry | NameLe(a, b) && NameLe(b, c) ensures NameLe(a, c) {
      LexTrans(a.name, b.name, c.name);
    }
  }

  lemma SortedMembers(entries: seq<Entry>)
    ensures Sorted(NameLe, SortBy(NameLe, entries))
    ensures forall e :: e in SortBy(NameLe, entries) <==> e in entries
  {
    NamesAreOrdered();
    SortSorted(NameLe, entries);
    SortPermutes(NameLe, entries);
    assert forall e :: e in SortBy(NameLe, entries) <==> e in multiset(SortBy(NameLe, entries));
    assert forall e :: e in entries <==> e in multiset(entries);
  }

  lemma {:induction false} InsertKeepsOrder(e: Entry, s: seq<Entry>, t: seq<Entry>)
    requires Subsequence(s, t) && Sorted(NameLe, t)
    ensures Subsequence(Insert(NameLe, e, s), Insert(NameLe, e, t))
    decreases |t|
  {
    if t == [] {
    } else if NameLe(e, t[0]) {
      assert Insert(NameLe, e, t)[1..] == t;
      if s != [] {
        SubsequenceMembers(s, t, s[0]);
        var k :| 0 <= k < |t| && t[k] == s[0];
        LexTotal(t[0].name, t[0].name);
        assert k == 0 || NameLe(t[0], t[k]);
        LexTrans(e.name, t[0].name, s[0].name);
        assert Insert(NameLe, e, s)[1..] == s;
      } else {
        assert Insert(NameLe, e, s)[1..] == [];
      }
    } else {
      assert Sorted(NameLe, t[1..]);
      assert Insert(NameLe, e, t)[1..] == Insert(NameLe, e, t[1..]);
      if s != [] && s[0] == t[0] && Subsequence(s[1..], t[1..]) {
        assert Insert(NameLe, e, s)[1..] == Insert(NameLe, e, s[1..]);
        InsertKeepsOrder(e, s[1..], t[1..]);
      } else {
        InsertKeepsOrder(e, s, t[1..]);
      }
    }
  }

  lemma {:induction false} SortKeepsOrder(s: seq<Entry>, t: seq<Entry>)
    requires Subsequence(s, t)
    ensures Subsequence(SortBy(NameLe, s), SortBy(NameLe, t))
    decreases |t|
  {
    if t == [] {
    } else {
      SortedMembers(t[1..]);
      if s != [] && s[0] == t[0] && Subsequence(s[1..], t[1..]) {
        SortKeepsOrder(s[1..], t[1..]);
        InsertKeepsOrder(s[0], SortBy(NameLe, s[1..]), SortBy(NameLe, t[1..]));
      } else if s != [] {
        SortKeepsOrder(s, t[1..]);
        InsertedIsSubsequence(t[0], SortBy(NameLe, t[1..]));
        SubsequenceTrans(SortBy(NameLe, s), SortBy(NameLe, t[1..]), SortBy(NameLe, t));
      }
    }
  }

  lemma {:induction false} InsertedIsSubsequence(e: Entry, sorted: seq<Entry>)
    ensures Subsequence(sorted, Insert(NameLe, e, sorted))
  {
    if sorted == [] {
    } else if NameLe(e, sorted[0]) {
      SubsequenceSelf(sorted);
      assert Insert(NameLe, e, sorted)[1..] == sorted;
    } else {
      InsertedIsSubsequence(e, sorted[1..]);
      assert Insert(NameLe, e, sorted)[1..] == Insert(NameLe, e, sorted[1..]);
    }
  }

  lemma {:induction false} FilteredPrefix(entries: seq<Entry>, n: nat)
    requires n <= |entries|
    ensures Subsequence(Filter(entries[..n], Visible), Filter(entries, Visible))
  {
    if n > 0 {
      assert entries[..n][1..] == entries[1..][..n - 1];
      FilteredPrefix(entries[1..], n - 1);
      if Visible(entries[0]) {
        assert Filter(entries, Visible)[1..] == Filter(entries[1..], Visible);
        assert Filter(entries[..n], Visible)[1..] == Filter(entries[1..][..n - 1], Visible);
      } else {
        assert Filter(entries, Visible) == Filter(entries[1..], Visible);
        assert Filter(entries[..n], Visible) == Filter(entries[1..][..n - 1], Visible);
      }
    }
  }

  lemma {:induction false} FewerFiles(s: seq<Entry>, t: seq<Entry>, base: Path)
    requires Subsequence(s, t)
    ensures Subsequence(FilesIn(s, base), FilesIn(t, base))
    decreases |t|
  {
    if t == [] {
    } else if s != [] && s[0] == t[0] && Subsequence(s[1..], t[1..]) {
      FewerFiles(s[1..], t[1..], base);
      SubsequenceSelf(FilesOf(t[0].node, base + [t[0].name]));
      SubsequenceConcat(FilesOf(s[0].node, base + [s[0].name]), FilesIn(s[1..], base),
                        FilesOf(t[0].node, base + [t[0].name]), FilesIn(t[1..], base));
    } else if s != [] {
      FewerFiles(s, t[1..], base);
      SubsequenceConcat([], FilesIn(s, base), FilesOf(t[0].node, base + [t[0].name]), FilesIn(t[1..], base));
      assert [] + FilesIn(s, base) == FilesIn(s, base);
    }
  }

  /** Listing only the first `n` entries of a directory loses files, nothing else. */
  lemma CutListing(entries: seq<Entry>, n: nat, base: Path)
    requires n <= |entries|
    ensures Subsequence(FilesIn(Shown(entries[..n]), base), FilesIn(Shown(entries), base))
  {
    FilteredPrefix(entries, n);
    SortKeepsOrder(Filter(entries[..n], Visible), Filter(entries, Visible));
    FewerFiles(Shown(entries[..n]), Shown(entries), base);
  }

  lemma {:induction false} CutWeight(entries: seq<Entry>, n: nat)
    requires n <= |entries|
    ensures Weights(entries[..n]) <= Weights(entries)
  {
    if n > 0 {
      assert entries[..n][1..] == entries[1..][..n - 1];
      CutWeight(entries[1..], n - 1);
    }
  }

  // ---- the walk under a budget of listed entries, without a stack ----

  /** The files found, the budget left, and whether the walk stopped at a directory
      for which nothing was left. */
  datatype Walked = Walked(files: seq<Path>, left: nat, stopped: bool)

  function Then(first: Walked, rest: Walked): Walked {
    if first.stopped then first else Walked(first.files + rest.files, rest.left, rest.stopped)
  }

  /** A file is found; a directory lists as many of its entries as the budget
      allows, and the visible ones of these are walked in name order. */
  function Walk(node: Node, base: Path, budget: nat): Walked
    decreases Weight(node), 0
  {
    match node
    case File(_, _, _) => Walked([base], budget, false)
    case Dir(entries) =>
      if budget == 0 then Walked([], 0, true)
      else
        var n := Least(|entries|, budget);
        CutWeight(entries, n);
        ShownWeight(entries[..n]);
        WalkIn(Shown(entries[..n]), base, budget - n)
  }

  function WalkIn(entries: seq<Entry>, base: Path, budget: nat): Walked
    decreases Weights(entries), 1
  {
    if entries == [] then Walked([], budget, false)
    else
      var first := Walk(entries[0].node, base + [entries[0].name], budget);
      Then(first, WalkIn(entries[1..], base, first.left))
  }

  function WalkBelow(pending: seq<Pending>, budget: nat): Walked {
    if pending == [] then Walked([], budget, false)
    else
      var first := Walk(pending[0].node, pending[0].path, budget);
      Then(first, WalkBelow(pending[1..], first.left))
  }

  lemma ThenAssociates(a: Walked, b: Walked, c: Walked)
    ensures Then(Then(a, b), c) == Then(a, Then(b, c))
  {
  }

  lemma {:induction false} WalkChildren(entries: seq<Entry>, base: Path, rest: seq<Pending>, budget: nat)
    ensures
      var w := WalkIn(entries, base, budget);
      WalkBelow(Children(entries, base) + rest, budget) == Then(w, WalkBelow(rest, w.left))
    decreases |entries|
  {
    var stack := Children(entries, base) + rest;
    if entries == [] {
      assert stack == rest;
    } else {
      var first := Walk(entries[0].node, base + [entries[0].name], budget);
      var more := WalkIn(entries[1..], base, first.left);
      assert stack[1..] == Children(entries[1..], base) + rest;
      WalkChildren(entries[1..], base, rest, first.left);
      ThenAssociates(first, more, WalkBelow(rest, more.left));
    }
  }

  /** A budget that a complete walk does not use up makes no difference. */
  lemma {:induction false} UncutWalk(node: Node, base: Path, budget: nat)
    requires Listed(node) < budget
    ensures Walk(node, base, budget) == Walked(FilesOf(node, base), budget - Listed(node), false)
    decreases Weight(node), 0
  {
    if node.Dir? {
      ShownWeight(node.entries);
      assert node.entries[..|node.entries|] == node.entries;
      UncutWalkIn(Shown(node.entries), base, budget - |node.entries|);
    }
  }

  lemma {:induction false} UncutWalkIn(entries: seq<Entry>, base: Path, budget: nat)
    requires ListedIn(entries) < budget
    ensures WalkIn(entries, base, budget) == Walked(FilesIn(entries, base), budget - ListedIn(entries), false)
    decreases Weights(entries), 1
  {
    if entries != [] {
      UncutWalk(entries[0].node, base + [entries[0].name], budget);
      UncutWalkIn(entries[1..], base, budget - Listed(entries[0].node));
    }
  }

  /** What was found and what is still pending make up the whole walk. */
  ghost predicate WalkGoesOn(origin: Node, root: Path, files: seq<Path>, pending: seq<Pending>, visited: nat) {
    visited <= SEARCH_MAX_ENTRIES
    && Walk(origin, root, SEARCH_MAX_ENTRIES)
       == Then(Walked(files, 0, false), WalkBelow(pending, SEARCH_MAX_ENTRIES - visited))
  }

  lemma WalkStarts(origin: Node, root: Path)
    ensures WalkGoesOn(origin, root, [], [Pending(root, origin)], 0)
  {
    var w := Walk(origin, root, SEARCH_MAX_ENTRIES);
    assert [Pending(root, origin)][1..] == [];
    assert w.files + [] == w.files && [] + w.files == w.files;
  }

  lemma WalkFindsFile(origin: Node, root: Path, files: seq<Path>, pending: seq<Pending>, visited: nat)
    requires WalkGoesOn(origin, root, files, pending, visited) && pending != [] && pending[0].node.File?
    ensures WalkGoesOn(origin, root, files + [pending[0].path], pending[1..], visited)
  {
    var left := SEARCH_MAX_ENTRIES - visited;
    ThenAssociates(Walked(files, 0, false), Walked([pending[0].path], left, false), WalkBelow(pending[1..], left));
  }

  lemma WalkOpensDirectory(origin: Node, root: Path, files: seq<Path>, pending: seq<Pending>, visited: nat, n: nat)
    requires WalkGoesOn(origin, root, files, pending, visited) && pending != [] && pending[0].node.Dir?
    requires visited < SEARCH_MAX_ENTRIES && n == Least(|pending[0].node.entries|, SEARCH_MAX_ENTRIES - visited)
    ensures
      var children := Children(Shown(pending[0].node.entries[..n]), pending[0].path);
      WalkGoesOn(origin, root, files, children + pending[1..], visited + n)
  {
    WalkChildren(
      Shown(pending[0].node.entries[..n]), pending[0].path, pending[1..], SEARCH_MAX_ENTRIES - visited - n);
  }

  lemma WalkStops(origin: Node, root: Path, files: seq<Path>, pending: seq<Pending>, visited: nat)
    requires WalkGoesOn(origin, root, files, pending, visited)
    requires pending == [] || (pending[0].node.Dir? && visited == SEARCH_MAX_ENTRIES)
    ensures Walk(origin, root, SEARCH_MAX_ENTRIES).files == files
  {
    assert files + [] == files;
  }

  /** Found so far, still pending, and listed so far, against the specification. */
  ghost predicate WalkInv(origin: Node, root: Path, files: seq<Path>, pending: seq<Pending>, visited: nat) {
    && visited <= SEARCH_MAX_ENTRIES
    && Subsequence(files + FilesBelow(pending), FilesOf(origin, root))
    && (visited < SEARCH_MAX_ENTRIES ==>
          files + FilesBelow(pending) == FilesOf(origin, root) && visited + ListedBelow(pending) == Listed(origin))
    && (visited == SEARCH_MAX_ENTRIES ==> Listed(origin) >= SEARCH_MAX_ENTRIES)
  }

  lemma WalkFile(origin: Node, root: Path, files: seq<Path>, pending: seq<Pending>, visited: nat)
    requires WalkInv(origin, root, files, pending, visited) && pending != [] && pending[0].node.File?
    ensures WalkInv(origin, root, files + [pending[0].path], pending[1..], visited)
  {
    assert files + FilesBelow(pending) == files + [pending[0].path] + FilesBelow(pending[1..]);
  }

  lemma WalkDirectory(origin: Node, root: Path, files: seq<Path>, pending: seq<Pending>, visited: nat, n: nat)
    requires WalkInv(origin, root, files, pending, visited) && pending != [] && pending[0].node.Dir?
    requires visited < SEARCH_MAX_ENTRIES
    requires n == Least(|pending[0].node.entries|, SEARCH_MAX_ENTRIES - visited)
    ensures
      var children := Children(Shown(pending[0].node.entries[..n]), pending[0].path);
      WalkInv(origin, root, files, children + pending[1..], visited + n)
  {
    var entries, base, rest := pending[0].node.entries, pending[0].path, pending[1..];
    var shown := Shown(entries[..n]);
    PushChildren(shown, base, rest);
    CutListing(entries, n, base);
    SubsequenceSelf(files);
    SubsequenceSelf(FilesBelow(rest));
    SubsequenceConcat(FilesIn(shown, base), FilesBelow(rest), FilesIn(Shown(entries), base), FilesBelow(rest));
    SubsequenceConcat(files, FilesIn(shown, base) + FilesBelow(rest), files,
      FilesIn(Shown(entries), base) + FilesBelow(rest));
    SubsequenceTrans(files + (FilesIn(shown, base) + FilesBelow(rest)),
                     files + (FilesIn(Shown(entries), base) + FilesBelow(rest)), FilesOf(origin, root));
    if n == |entries| { assert entries[..n] == entries; }
  }

  lemma FewerPending(pending: seq<Pending>, n: nat)
    requires pending != [] && pending[0].node.Dir? && n <= |pending[0].node.entries|
    ensures
      WeightBelow(Children(Shown(pending[0].node.entries[..n]), pending[0].path) + pending[1..]) < WeightBelow(pending)
  {
    var entries := pending[0].node.entries;
    PushChildren(Shown(entries[..n]), pending[0].path, pending[1..]);
    ShownWeight(entries[..n]);
    CutWeight(entries, n);
  }

  lemma FoundIsPart(origin: Node, root: Path, files: seq<Path>, pending: seq<Pending>)
    requires Subsequence(files + FilesBelow(pending), FilesOf(origin, root))
    ensures Subsequence(files, FilesOf(origin, root))
  {
    SubsequenceSelf(files);
    SubsequenceConcat(files, [], files, FilesBelow(pending));
    assert files + [] == files;
    SubsequenceTrans(files, files + FilesBelow(pending), FilesOf(origin, root));
  }

  /** Found, pending and listed, somewhere on the walk. */
  datatype WalkState = WalkState(files: seq<Path>, pending: seq<Pending>, visited: nat)

  ghost predicate OnTheWalk(origin: Node, root: Path, files: seq<Path>, pending: seq<Pending>, visited: nat) {
    WalkInv(origin, root, files, pending, visited) && WalkGoesOn(origin, root, files, pending, visited)
  }

  ghost function Walking(origin: Node, root: Path): iset<WalkState> {
    iset w: WalkState | OnTheWalk(origin, root, w.files, w.pending, w.visited)
  }

  lemma AtTheStart(origin: Node, root: Path)
    requires origin.Dir?
    ensures WalkState([], [Pending(root, origin)], 0) in Walking(origin, root)
  {
    var pending := [Pending(root, origin)];
    SubsequenceSelf(FilesOf(origin, root));
    assert pending[1..] == [];
    assert FilesBelow(pending) == FilesOf(origin, root) + FilesBelow([]);
    assert [] + FilesBelow(pending) == FilesOf(origin, root);
    assert ListedBelow(pending) == Listed(origin) + ListedBelow([]);
    assert WalkInv(origin, root, [], pending, 0);
    WalkStarts(origin, root);
  }

  lemma AtAFile(origin: Node, root: Path, files: seq<Path>, pending: seq<Pending>, visited: nat)
    requires WalkState(files, pending, visited) in Walking(origin, root) && pending != [] && pending[0].node.File?
    ensures WalkState(files + [pending[0].path], pending[1..], visited) in Walking(origin, root)
  {
    WalkFile(origin, root, files, pending, visited);
    WalkFindsFile(origin, root, files, pending, visited);
  }

  lemma AtADirectory(
      origin: Node, root: Path, files: seq<Path>, pending: seq<Pending>, visited: nat, entries: seq<Entry>, n: nat)
    requires WalkState(files, pending, visited) in Walking(origin, root) && pending != [] && pending[0].node.Dir?
    requires entries == pending[0].node.entries
    requires visited < SEARCH_MAX_ENTRIES && n == Least(|entries|, SEARCH_MAX_ENTRIES - visited)
    ensures WalkState(files, Children(Shown(entries[..n]), pending[0].path) + pending[1..], visited + n)
         in Walking(origin, root)
  {
    var next := Children(Shown(entries[..n]), pending[0].path) + pending[1..];
    WalkDirectory(origin, root, files, pending, visited, n);
    WalkOpensDirectory(origin, root, files, pending, visited, n);
    assert OnTheWalk(origin, root, files, next, visited + n);
  }

  /** Where the walk ends: nothing pending, or a directory and no budget. */
  lemma AtTheEnd(origin: Node, root: Path, w: WalkState)
    requires w in Walking(origin, root) && origin.Dir?
    requires w.pending == [] || (w.pending[0].node.Dir? && w.visited >= SEARCH_MAX_ENTRIES)
    ensures w.files == Walk(origin, root, SEARCH_MAX_ENTRIES).files
    ensures Subsequence(w.files, FilesOf(origin, root))
    ensures w.visited == Least(Listed(origin), SEARCH_MAX_ENTRIES)
    ensures w.visited < SEARCH_MAX_ENTRIES ==> w.files == FilesOf(origin, root)
    ensures w.visited >= SEARCH_MAX_ENTRIES <==> Listed(origin) >= SEARCH_MAX_ENTRIES
  {
    FoundIsPart(origin, root, w.files, w.pending);
    WalkStops(origin, root, w.files, w.pending, w.visited);
    assert w.files + FilesBelow([]) == w.files && ListedBelow([]) == 0;
  }

  /** Lists the directory on top as far as the cap allows, and pushes what is
      visible of it. */
  method OpenDirectory(before: seq<Pending>, listed: nat, ghost origin: Node, ghost root: Path, ghost files: seq<Path>)
    returns (pending: seq<Pending>, visited: nat)
    requires before != [] && before[0].node.Dir? && listed < SEARCH_MAX_ENTRIES
    requires WalkState(files, before, listed) in Walking(origin, root)
    ensures WalkState(files, pending, visited) in Walking(origin, root)
    ensures WeightBelow(pending) < WeightBelow(before)
  {
    var entries := before[0].node.entries;
    var n := Least(|entries|, SEARCH_MAX_ENTRIES - listed);
    AtADirectory(origin, root, files, before, listed, entries, n);
    FewerPending(before, n);
    visited := listed + n;
    pending := Children(Shown(entries[..n]), before[0].path) + before[1..];
  }

  /** Walks at most the entry cap: the files of the walk under that budget. Unless
      it reports truncation, these are the whole preorder; in any case they are
      part of it, in order. It reports truncation exactly when a complete walk
      would list the cap or more. */
  method BoundedFiles(origin: Node, root: Path) returns (files: seq<Path>, truncated: bool, visited: nat)
    ensures origin.File? ==> files == [root] && !truncated && visited == 1
    ensures files == Walk(origin, root, SEARCH_MAX_ENTRIES).files
    ensures Subsequence(files, FilesOf(origin, root))
    ensures !truncated ==> files == FilesOf(origin, root)
    ensures truncated <==> origin.Dir? && Listed(origin) >= SEARCH_MAX_ENTRIES
    ensures origin.Dir? ==> visited == Least(Listed(origin), SEARCH_MAX_ENTRIES)
  {
    if origin.File? {
      SubsequenceSelf(FilesOf(origin, root));
      return [root], false, 1;
    }
    var pending := [Pending(root, origin)];
    files, visited := [], 0;
    AtTheStart(origin, root);
    while pending != []
      invariant WalkState(files, pending, visited) in Walking(origin, root)
      decreases WeightBelow(pending)
    {
      var candidate := pending[0];
      if candidate.node.File? {
        AtAFile(origin, root, files, pending, visited);
        files := files + [candidate.path];
        pending := pending[1..];
        continue;
      }
      if visited >= SEARCH_MAX_ENTRIES {
        AtTheEnd(origin, root, WalkState(files, pending, visited));
        return files, true, visited;
      }
      pending, visited := OpenDirectory(pending, visited, origin, root, files);
    }
    AtTheEnd(origin, root, WalkState(files, pending, visited));
    truncated := visited >= SEARCH_MAX_ENTRIES;
  }

  // ---- what the preorder is, without any walk ----

  /** `rel` leads from `node` to a file through visible entries. */
  ghost predicate FileAt(node: Node, rel: Path)
    decreases rel
  {
    if rel == [] then node.File?
    else node.Dir? && exists e :: e in node.entries && Visible(e) && e.name == rel[0] && FileAt(e.node, rel[1..])
  }

  lemma ShownMembers(entries: seq<Entry>)
    ensures forall e :: e in Shown(entries) <==> e in entries && Visible(e)
  {
    FilterMembers(entries, Visible);
    SortedMembers(Filter(entries, Visible));
  }

  ghost predicate Continues(entries: seq<Entry>, base: Path, p: Path) {
    |base| < |p| && p[..|base|] == base
    && exists e :: e in entries && e.name == p[|base|] && FileAt(e.node, p[|base| + 1..])
  }

  /** The preorder holds exactly the files reached through visible entries. */
  lemma {:induction false} FilesAre(node: Node, base: Path, p: Path)
    ensures p in FilesOf(node, base) <==> |base| <= |p| && p[..|base|] == base && FileAt(node, p[|base|..])
    decreases Weight(node), 0
  {
    match node
    case File(_, _, _) =>
      assert p == base <==> |base| <= |p| && p[..|base|] == base && p[|base|..] == [];
    case Dir(entries) =>
      ShownWeight(entries);
      FilesInAre(Shown(entries), base, p);
      ShownMembers(entries);
      if |base| < |p| { assert p[|base|..][1..] == p[|base| + 1..]; }
  }

  lemma {:induction false} FilesInAre(entries: seq<Entry>, base: Path, p: Path)
    ensures p in FilesIn(entries, base) <==> Continues(entries, base, p)
    decreases Weights(entries), 1
  {
    if entries != [] {
      var e := entries[0];
      FilesAre(e.node, base + [e.name], p);
      FilesInAre(entries[1..], base, p);
      assert entries == [e] + entries[1..];
      assert |base| < |p| ==> p[..|base| + 1] == p[..|base|] + [p[|base|]];
      assert |base| < |p| && p[..|base| + 1] == base + [e.name] ==>
        p[..|base| + 1][..|base|] == base && p[..|base| + 1][|base|] == e.name;
    }
  }

  // ---- the order of the preorder ----

  /** In every directory, names differ. */
  ghost predicate WellNamed(node: Node)
    decreases Weight(node), 0
  {
    match node
    case File(_, _, _) => true
    case Dir(entries) => DistinctNames(entries) && AllWellNamed(entries)
  }

  ghost predicate AllWellNamed(entries: seq<Entry>)
    decreases Weights(entries), 1
  {
    entries == [] || (WellNamed(entries[0].node) && AllWellNamed(entries[1..]))
  }

  ghost predicate DistinctNames(entries: seq<Entry>) {
    forall i, j :: 0 <= i < j < |entries| ==> entries[i].name != entries[j].name
  }

  /** Paths compare name by name; a path precedes its continuations. */
  predicate PathLt(a: Path, b: Path) {
    b != [] && (a == [] || (if a[0] == b[0] then PathLt(a[1..], b[1..]) else LexLe(a[0], b[0])))
  }

  ghost predicate Ascending(paths: seq<Path>) {
    forall i, j :: 0 <= i < j < |paths| ==> PathLt(paths[i], paths[j])
  }

  lemma {:induction false} PathLtAt(n: nat, a: Path, b: Path)
    requires n < |a| && n < |b| && a[..n] == b[..n] && a[n] != b[n] && LexLe(a[n], b[n])
    ensures PathLt(a, b)
  {
    if n > 0 {
      assert a[0] == a[..n][0] == b[..n][0] == b[0];
      assert a[1..][..n - 1] == a[..n][1..] == b[..n][1..] == b[1..][..n - 1];
      PathLtAt(n - 1, a[1..], b[1..]);
    }
  }

  lemma {:induction false} PathLtIrreflexive(a: Path)
    ensures !PathLt(a, a)
  {
    if a != [] { PathLtIrreflexive(a[1..]); }
  }

  lemma {:induction false} PathLtAsymmetric(a: Path, b: Path)
    requires PathLt(a, b)
    ensures !PathLt(b, a)
  {
    if a != [] {
      if a[0] == b[0] {
        PathLtAsymmetric(a[1..], b[1..]);
      } else if LexLe(b[0], a[0]) {
        LexAntisym(a[0], b[0]);
      }
    }
  }

  lemma {:induction false} FilteredNames(entries: seq<Entry>)
    requires DistinctNames(entries)
    ensures DistinctNames(Filter(entries, Visible))
  {
    if entries != [] {
      FilteredNames(entries[1..]);
      FilterMembers(entries[1..], Visible);
      forall k | 0 <= k < |Filter(entries[1..], Visible)|
        ensures Filter(entries[1..], Visible)[k].name != entries[0].name
      {
        assert Filter(entries[1..], Visible)[k] in entries[1..];
        var m :| 0 <= m < |entries[1..]| && entries[1..][m] == Filter(entries[1..], Visible)[k];
        assert entries[m + 1].name != entries[0].name;
      }
    }
  }

  lemma {:induction false} InsertNames(e: Entry, sorted: seq<Entry>)
    requires DistinctNames(sorted) && forall x :: x in sorted ==> x.name != e.name
    ensures DistinctNames(Insert(NameLe, e, sorted))
    ensures forall x :: x in Insert(NameLe, e, sorted) <==> x == e || x in sorted
  {
    if sorted != [] && !NameLe(e, sorted[0]) {
      assert sorted == [sorted[0]] + sorted[1..];
      InsertNames(e, sorted[1..]);
      var r := Insert(NameLe, e, sorted[1..]);
      forall k | 0 <= k < |r| ensures r[k].name != sorted[0].name {
        assert r[k] in r;
        if r[k] != e {
          var m :| 0 <= m < |sorted[1..]| && sorted[1..][m] == r[k];
          assert sorted[m + 1].name != sorted[0].name;
        }
      }
    }
  }

  lemma {:induction false} SortNames(entries: seq<Entry>)
    requires DistinctNames(entries)
    ensures DistinctNames(SortBy(NameLe, entries))
  {
    if entries != [] {
      SortNames(entries[1..]);
      SortedMembers(entries[1..]);
      forall x | x in SortBy(NameLe, entries[1..]) ensures x.name != entries[0].name {
        var m :| 0 <= m < |entries[1..]| && entries[1..][m] == x;
        assert entries[m + 1].name != entries[0].name;
      }
      InsertNames(entries[0], SortBy(NameLe, entries[1..]));
    }
  }

  lemma {:induction false} WellNamedEntry(entries: seq<Entry>, e: Entry)
    requires AllWellNamed(entries) && e in entries
    ensures WellNamed(e.node)
  {
    if e != entries[0] {
      assert entries == [entries[0]] + entries[1..];
      WellNamedEntry(entries[1..], e);
    }
  }

  lemma {:induction false} EntriesWellNamed(entries: seq<Entry>)
    requires forall e :: e in entries ==> WellNamed(e.node)
    ensures AllWellNamed(entries)
  {
    if entries != [] { EntriesWellNamed(entries[1..]); }
  }

  lemma ShownWellNamed(entries: seq<Entry>)
    requires DistinctNames(entries) && AllWellNamed(entries)
    ensures DistinctNames(Shown(entries)) && AllWellNamed(Shown(entries)) && Sorted(NameLe, Shown(entries))
  {
    FilteredNames(entries);
    SortNames(Filter(entries, Visible));
    SortedMembers(Filter(entries, Visible));
    ShownMembers(entries);
    forall e | e in Shown(entries) ensures WellNamed(e.node) {
      WellNamedEntry(entries, e);
    }
    EntriesWellNamed(Shown(entries));
  }

  /** The preorder lists its files in strictly ascending path order, so none twice. */
  lemma {:induction false} FilesAscend(node: Node, base: Path)
    requires WellNamed(node)
    ensures Ascending(FilesOf(node, base))
    decreases Weight(node), 0
  {
    if node.Dir? {
      ShownWeight(node.entries);
      ShownWellNamed(node.entries);
      FilesInAscend(Shown(node.entries), base);
    }
  }

  lemma {:induction false} FilesInAscend(entries: seq<Entry>, base: Path)
    requires DistinctNames(entries) && AllWellNamed(entries) && Sorted(NameLe, entries)
    ensures Ascending(FilesIn(entries, base))
    decreases Weights(entries), 1
  {
    if entries != [] {
      var e, rest := entries[0], entries[1..];
      FilesAscend(e.node, base + [e.name]);
      assert Sorted(NameLe, rest) && DistinctNames(rest);
      FilesInAscend(rest, base);
      var first, second := FilesOf(e.node, base + [e.name]), FilesIn(rest, base);
      forall i, j | 0 <= i < |first| && 0 <= j < |second| ensures PathLt(first[i], second[j]) {
        FirstBeforeRest(entries, base, first[i], second[j]);
      }
    }
  }

  lemma FirstBeforeRest(entries: seq<Entry>, base: Path, p: Path, q: Path)
    requires entries != [] && DistinctNames(entries) && Sorted(NameLe, entries)
    requires p in FilesOf(entries[0].node, base + [entries[0].name]) && q in FilesIn(entries[1..], base)
    ensures PathLt(p, q)
  {
    var e, n := entries[0], |base|;
    FilesAre(e.node, base + [e.name], p);
    FilesInAre(entries[1..], base, q);
    assert p[..n] == p[..n + 1][..n] == base && p[n] == p[..n + 1][n] == e.name;
    var other :| other in entries[1..] && other.name == q[n] && FileAt(other.node, q[n + 1..]);
    var k :| 0 <= k < |entries[1..]| && entries[1..][k] == other;
    assert entries[k + 1] == other && NameLe(entries[0], entries[k + 1]) && entries[0].name != entries[k + 1].name;
    PathLtAt(n, p, q);
  }

  lemma {:induction false} AscendingUnique(a: seq<Path>, b: seq<Path>)
    requires Ascending(a) && Ascending(b) && forall p :: p in a <==> p in b
    ensures a == b
  {
    if a == [] {
      if b != [] { HeadIsMember(b); }
    } else {
      assert a[0] in b;
      assert b[0] in b;
      HeadsAgree(a, b);
      assert a == [a[0]] + a[1..] && b == [b[0]] + b[1..];
      forall p ensures p in a[1..] <==> p in b[1..] {
        TailMember(a, p);
        TailMember(b, p);
      }
      AscendingUnique(a[1..], b[1..]);
    }
  }

  lemma HeadIsMember(a: seq<Path>)
    requires a != []
    ensures a[0] in a
  {
  }

  lemma HeadsAgree(a: seq<Path>, b: seq<Path>)
    requires Ascending(a) && Ascending(b) && a != [] && b != [] && a[0] in b && b[0] in a
    ensures a[0] == b[0]
  {
    var i :| 0 <= i < |a| && a[i] == b[0];
    var j :| 0 <= j < |b| && b[j] == a[0];
    if i > 0 && j > 0 {
      assert PathLt(a[0], a[i]) && PathLt(b[0], b[j]);
      PathLtAsymmetric(a[0], b[0]);
    }
  }

  lemma TailMember(a: seq<Path>, p: Path)
    requires Ascending(a) && a != []
    ensures p in a[1..] <==> p in a && p != a[0]
  {
    if p in a[1..] {
      var k :| 0 <= k < |a[1..]| && a[1..][k] == p;
      assert PathLt(a[0], a[k + 1]);
      PathLtIrreflexive(p);
    }
    assert a == [a[0]] + a[1..];
  }

  /** A complete walk does not depend on the order in which directories
      enumerate their entries, nor on anything but the files that are there. */
  lemma EnumerationOrderDoesNotMatter(a: Node, b: Node, base: Path)
    requires WellNamed(a) && WellNamed(b) && forall rel :: FileAt(a, rel) <==> FileAt(b, rel)
    ensures FilesOf(a, base) == FilesOf(b, base)
  {
    FilesAscend(a, base);
    FilesAscend(b, base);
    forall p ensures p in FilesOf(a, base) <==> p in FilesOf(b, base) {
      FilesAre(a, base, p);
      FilesAre(b, base, p);
    }
    AscendingUnique(FilesOf(a, base), FilesOf(b, base));
  }

  lemma {:induction false} AscendingIsDistinct(paths: seq<Path>)
    requires Ascending(paths)
    ensures Distinct(paths)
  {
    forall i, j | 0 <= i < j < |paths| ensures paths[i] != paths[j] {
      PathLtIrreflexive(paths[i]);
    }
  }

  /** Even a truncated walk returns only files that are there, each once. */
  lemma TruncatedWalkIsHonest(origin: Node, root: Path, files: seq<Path>)
    requires WellNamed(origin) && Subsequence(files, FilesOf(origin, root))
    ensures Distinct(files)
    ensures forall p :: p in files ==> |root| <= |p| && p[..|root|] == root && FileAt(origin, p[|root|..])
  {
    FilesAscend(origin, root);
    AscendingIsDistinct(FilesOf(origin, root));
    SubsequenceDistinct(files, FilesOf(origin, root));
    forall p | p in files ensures |root| <= |p| && p[..|root|] == root && FileAt(origin, p[|root|..]) {
      SubsequenceMembers(files, FilesOf(origin, root), p);
      FilesAre(origin, root, p);
    }
  }
}
