// Two of the bounded reads over a snapshot: list a directory, and page through
// one file.

module SnapshotReader {
  import opened Arithmetic
  import opened Wrappers
  import opened Orders
  import opened SnapshotTree

  const P3_LIST_LIMIT := 200
  const P3_LIST_MAX_VISITED := 2000
  const P3_READ_MAX_BYTES := 262144

  // ---- list ----

  /** Lists one directory: of the first entries it enumerates, up to the visit cap,
      the first visible ones in name order, up to the listing cap. Unless it
      reports truncation, these are every visible entry. */
  method List(entries: seq<Entry>) returns (shown: seq<Entry>, visited: nat, truncated: bool)
    ensures Subsequence(shown, Shown(entries)) && |shown| <= P3_LIST_LIMIT
    ensures visited == Least(|entries|, P3_LIST_MAX_VISITED)
    ensures shown <= Shown(entries[..visited]) && |shown| == Least(|Shown(entries[..visited])|, P3_LIST_LIMIT)
    ensures truncated <==> |entries| >= P3_LIST_MAX_VISITED || |Shown(entries)| > P3_LIST_LIMIT
    ensures !truncated ==> shown == Shown(entries)
  {
    visited := Least(|entries|, P3_LIST_MAX_VISITED);
    var children := Shown(entries[..visited]);
    ShownOfPrefix(entries, visited);
    shown := if |children| <= P3_LIST_LIMIT then children else children[..P3_LIST_LIMIT];
    truncated := visited >= P3_LIST_MAX_VISITED || |children| > |shown|;
    if visited == |entries| { assert entries[..visited] == entries; }
    PrefixIsSubsequence(children, |shown|);
    assert shown == children[..|shown|];
    SubsequenceTrans(shown, children, Shown(entries));
  }

  lemma ShownOfPrefix(entries: seq<Entry>, n: nat)
    requires n <= |entries|
    ensures Subsequence(Shown(entries[..n]), Shown(entries))
  {
    FilteredPrefix(entries, n);
    SortKeepsOrder(Filter(entries[..n], Visible), Filter(entries, Visible));
  }

  lemma {:induction false} PrefixIsSubsequence<T>(s: seq<T>, n: nat)
    requires n <= |s|
    ensures Subsequence(s[..n], s)
  {
    if n > 0 {
      assert s[..n][1..] == s[1..][..n - 1];
      PrefixIsSubsequence(s[1..], n - 1);
    }
  }

  // ---- opening a file by its path ----

  function FindEntry(entries: seq<Entry>, name: string): Option<Node> {
    if entries == [] then None
    else if entries[0].name == name then Some(entries[0].node)
    else FindEntry(entries[1..], name)
  }

  function Lookup(node: Node, rel: Path): Option<Node>
    decreases rel
  {
    if rel == [] then Some(node)
    else if node.File? then None
    else
      var child := FindEntry(node.entries, rel[0]);
      if child.None? then None else Lookup(child.value, rel[1..])
  }

  datatype Opened = Unreadable | TooBig | Content(lines: seq<string>, size: nat)

  /** Opens one regular file under a byte budget. The size is checked first. */
  function Open(origin: Node, rel: Path, maxBytes: int): Opened {
    var node := Lookup(origin, rel);
    if node.None? || node.value.Dir? then Unreadable
    else if node.value.size > maxBytes then TooBig
    else if !node.value.readable then Unreadable
    else Content(node.value.lines, node.value.size)
  }

  lemma {:induction false} FindDistinct(entries: seq<Entry>, e: Entry)
    requires DistinctNames(entries) && e in entries
    ensures FindEntry(entries, e.name) == Some(e.node)
  {
    if entries[0] != e {
      assert entries == [entries[0]] + entries[1..];
      var k :| 0 <= k < |entries[1..]| && entries[1..][k] == e;
      assert entries[k + 1].name != entries[0].name;
      FindDistinct(entries[1..], e);
    }
  }

  /** Every path the walk returns opens the file it was found as. */
  lemma {:induction false} FoundFilesOpen(node: Node, rel: Path)
    requires WellNamed(node) && FileAt(node, rel)
    ensures Lookup(node, rel).Some? && Lookup(node, rel).value.File?
    decreases rel
  {
    if rel != [] {
      var e :| e in node.entries && Visible(e) && e.name == rel[0] && FileAt(e.node, rel[1..]);
      FindDistinct(node.entries, e);
      WellNamedEntry(node.entries, e);
      FoundFilesOpen(e.node, rel[1..]);
    }
  }

  // ---- read ----

  datatype Page = Page(startLine: nat, endLine: nat, total: nat, selected: seq<string>, truncated: bool)

  /** A window of at most `maxLines` lines from line `startLine`, counted from one. */
  function Window(lines: seq<string>, startLine: nat, maxLines: nat): Page
    requires startLine >= 1
  {
    var start := Least(startLine - 1, |lines|);
    var stop := Least(start + maxLines, |lines|);
    Page(startLine, stop, |lines|, lines[start..stop], stop < |lines|)
  }

  datatype ReadResult = FileBroken | OverLimit | Read(page: Page)

  method ReadPage(origin: Node, rel: Path, startLine: nat, maxLines: nat) returns (r: ReadResult)
    requires startLine >= 1
    ensures r.OverLimit? <==>
      var node := Lookup(origin, rel);
      node.Some? && node.value.File? && node.value.size > P3_READ_MAX_BYTES
    ensures r.Read? <==>
      var node := Lookup(origin, rel);
      node.Some? && node.value.File? && node.value.size <= P3_READ_MAX_BYTES && node.value.readable
    ensures r.Read? ==> r.page == Window(Lookup(origin, rel).value.lines, startLine, maxLines)
  {
    var reading := Open(origin, rel, P3_READ_MAX_BYTES);
    match reading {
      case Unreadable => r := FileBroken;
      case TooBig => r := OverLimit;
      case Content(lines, _) =>
        var start := Least(startLine - 1, |lines|);
        var selected := lines[start..Least(start + maxLines, |lines|)];
        r := Read(Page(startLine, start + |selected|, |lines|, selected, start + |selected| < |lines|));
    }
  }

  function JoinLines(lines: seq<string>): string {
    if lines == [] then "" else if |lines| == 1 then lines[0] else lines[0] + "\n" + JoinLines(lines[1..])
  }

  lemma {:induction false} JoinConcat(a: seq<string>, b: seq<string>)
    requires a != [] && b != []
    ensures JoinLines(a + b) == JoinLines(a) + "\n" + JoinLines(b)
  {
    assert (a + b)[1..] == a[1..] + b;
    if |a| == 1 {
      assert a[1..] + b == b;
    } else {
      JoinConcat(a[1..], b);
    }
  }

  /** A page holds line `startLine` and what follows it, each line under its number,
      as far as the file and the page go; a truncated one is full and leads strictly
      further. */
  lemma PagesMakeProgress(lines: seq<string>, startLine: nat, maxLines: nat)
    requires startLine >= 1 && maxLines >= 1
    ensures
      var page := Window(lines, startLine, maxLines);
      && page.startLine == startLine && page.total == |lines|
      && (page.truncated <==> startLine + maxLines <= |lines|)
      && (page.truncated ==>
            |page.selected| == maxLines && page.endLine + 1 == startLine + maxLines && page.endLine < |lines|)
      && (!page.truncated ==> page.endLine == |lines|)
    ensures
      var page := Window(lines, startLine, maxLines);
      && (startLine <= |lines| ==> page.endLine == startLine - 1 + |page.selected|)
      && forall k :: 0 <= k < |page.selected| ==>
           startLine - 1 + k < |lines| && page.selected[k] == lines[startLine - 1 + k]
  {
  }

  /** The text of a page, followed by the pages after it until none is truncated. */
  function Follow(lines: seq<string>, startLine: nat, maxLines: nat): string
    requires startLine >= 1 && maxLines >= 1
    decreases |lines| + 1 - Least(startLine, |lines| + 1)
  {
    var page := Window(lines, startLine, maxLines);
    if page.truncated then JoinLines(page.selected) + "\n" + Follow(lines, page.endLine + 1, maxLines)
    else JoinLines(page.selected)
  }

  lemma PageThenRest(lines: seq<string>, startLine: nat, maxLines: nat)
    requires 1 <= startLine <= |lines| + 1 && maxLines >= 1
    ensures
      var page := Window(lines, startLine, maxLines);
      && startLine - 1 <= page.endLine <= |lines|
      && lines[startLine - 1..] == page.selected + lines[page.endLine..]
      && (page.truncated ==> page.selected != [] && page.endLine < |lines|)
      && (!page.truncated ==> page.selected == lines[startLine - 1..])
  {
  }

  /** Following `endLine + 1` from page to page yields the rest of the file. */
  lemma {:induction false} PagesConcatenate(lines: seq<string>, startLine: nat, maxLines: nat)
    requires 1 <= startLine <= |lines| + 1 && maxLines >= 1
    ensures Follow(lines, startLine, maxLines) == JoinLines(lines[startLine - 1..])
    decreases |lines| + 1 - startLine
  {
    var page := Window(lines, startLine, maxLines);
    var selected, rest := page.selected, lines[page.endLine..];
    PageThenRest(lines, startLine, maxLines);
    if page.truncated {
      PagesConcatenate(lines, page.endLine + 1, maxLines);
      JoinConcat(selected, rest);
    }
  }

  /** From the first line, the pages concatenate to the whole file. */
  lemma WholeFileIsRead(lines: seq<string>, maxLines: nat)
    requires maxLines >= 1
    ensures Follow(lines, 1, maxLines) == JoinLines(lines)
  {
    PagesConcatenate(lines, 1, maxLines);
    assert lines[0..] == lines;
  }
}
