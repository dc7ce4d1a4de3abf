// The bounded literal search over a snapshot: a walk, and a scan of what it found.

module SnapshotSearch {
  import opened Arithmetic
  import opened Wrappers
  import opened Orders
  import opened SearchScan
  import opened SnapshotTree
  import opened SnapshotReader

  // ---- matches ----

  /** A literal, case-folded query, as the texts it occurs in. */
  datatype Query = Query(occursIn: string -> bool)

  predicate Hits(q: Query, text: string) {
    q.occursIn(text)
  }

  function PathText(p: Path): string {
    if p == [] then "." else if |p| == 1 then p[0] else p[0] + "/" + PathText(p[1..])
  }

  function PathMatches(q: Query, p: Path): seq<Match> {
    if Hits(q, PathText(p)) then [PathMatch(p)] else []
  }

  /** The matching ones of the first `n` lines, in order. */
  function LineMatches(q: Query, p: Path, lines: seq<string>, n: nat): seq<Match>
    requires n <= |lines|
  {
    if n == 0 then []
    else LineMatches(q, p, lines, n - 1) + if Hits(q, lines[n - 1]) then [LineMatch(p, n, lines[n - 1])] else []
  }

  function Concealed(p: Path): bool {
    p != [] && Hidden(p[|p| - 1])
  }

  /** A file's path match and line matches. */
  function FileMatches(q: Query, origin: Node, root: Path, p: Path): seq<Match> {
    if Concealed(p) || |p| < |root| then []
    else
      var node := Lookup(origin, p[|root|..]);
      if node.None? || node.value.Dir? then []
      else PathMatches(q, p) + LineMatches(q, p, node.value.lines, |node.value.lines|)
  }

  lemma {:induction false} LinesGrow(q: Query, p: Path, lines: seq<string>, n: nat)
    requires n <= |lines|
    ensures LineMatches(q, p, lines, n) <= LineMatches(q, p, lines, |lines|)
    decreases |lines| - n
  {
    if n < |lines| { LinesGrow(q, p, lines, n + 1); }
  }

  // ---- candidates ----

  function NodeAt(origin: Node, root: Path, p: Path): Option<Node> {
    if |p| < |root| then None else Lookup(origin, p[|root|..])
  }

  /** A walked path: an entry whose own name is hidden is skipped. */
  function CandidateOf(q: Query, origin: Node, root: Path, p: Path): (c: Candidate)
    ensures c.Valid()
  {
    var node := NodeAt(origin, root, p);
    if Concealed(p) then Candidate(true, false, false, 0, false, [])
    else if node.None? || node.value.Dir? then Candidate(false, false, false, 0, false, [])
    else
      Candidate(false, true, node.value.readable, node.value.size, node.value.lines != [],
        FileMatches(q, origin, root, p))
  }

  function CandidatesOf(q: Query, origin: Node, root: Path, files: seq<Path>): (cs: seq<Candidate>)
    ensures |cs| == |files|
  {
    if files == [] then []
    else CandidatesOf(q, origin, root, files[..|files| - 1]) + [CandidateOf(q, origin, root, files[|files| - 1])]
  }

  lemma {:induction false} CandidatesAt(q: Query, origin: Node, root: Path, files: seq<Path>, k: nat)
    requires k < |files|
    ensures CandidatesOf(q, origin, root, files)[k] == CandidateOf(q, origin, root, files[k])
  {
    if k < |files| - 1 { CandidatesAt(q, origin, root, files[..|files| - 1], k); }
  }

  // ---- what the matches are ----

  /** A match says the truth about a file that may be searched: its path holds the
      query, or line `number` is this text and holds it. */
  ghost predicate Occurs(q: Query, origin: Node, root: Path, m: Match) {
    var p := m.path;
    && |root| <= |p| && !(p != [] && Hidden(p[|p| - 1]))
    && var node := Lookup(origin, p[|root|..]);
       && node.Some? && node.value.File?
       && match m
          case PathMatch(_) => q.occursIn(PathText(p))
          case LineMatch(_, n, text) =>
            1 <= n <= |node.value.lines| && node.value.lines[n - 1] == text && q.occursIn(text)
  }

  lemma {:induction false} LineMatchesAre(q: Query, p: Path, lines: seq<string>, n: nat, m: Match)
    requires n <= |lines|
    ensures m in LineMatches(q, p, lines, n) <==>
      m.LineMatch? && m.path == p && 1 <= m.number <= n && lines[m.number - 1] == m.text && q.occursIn(m.text)
  {
    if n > 0 { LineMatchesAre(q, p, lines, n - 1, m); }
  }

  lemma FileMatchesAre(q: Query, origin: Node, root: Path, p: Path, m: Match)
    ensures m in FileMatches(q, origin, root, p) <==> m.path == p && Occurs(q, origin, root, m)
  {
    if |root| <= |p| && !Concealed(p) {
      var node := Lookup(origin, p[|root|..]);
      if node.Some? && node.value.File? {
        LineMatchesAre(q, p, node.value.lines, |node.value.lines|, m);
      }
    }
  }

  lemma CandidateMatchesAre(q: Query, origin: Node, root: Path, p: Path, m: Match)
    ensures m in CandidateOf(q, origin, root, p).matches <==> m.path == p && Occurs(q, origin, root, m)
  {
    FileMatchesAre(q, origin, root, p, m);
  }

  lemma OneMoreCandidate(some: seq<Candidate>, c: Candidate, m: Match)
    ensures m in AllMatches(some + [c], |some| + 1) <==> m in AllMatches(some, |some|) || m in c.matches
  {
    SameMatches(some, some + [c], |some|);
  }

  /** The matches of the walked files are exactly the true ones. */
  lemma {:induction false} MatchesAre(q: Query, origin: Node, root: Path, files: seq<Path>, m: Match)
    ensures
      var cs := CandidatesOf(q, origin, root, files);
      m in AllMatches(cs, |cs|) <==> m.path in files && Occurs(q, origin, root, m)
  {
    if files != [] {
      var n := |files| - 1;
      MatchesAre(q, origin, root, files[..n], m);
      CandidateMatchesAre(q, origin, root, files[n], m);
      OneMoreCandidate(CandidatesOf(q, origin, root, files[..n]), CandidateOf(q, origin, root, files[n]), m);
      assert m.path in files <==> m.path in files[..n] || m.path == files[n];
    }
  }

  lemma {:induction false} SameMatches(some: seq<Candidate>, all: seq<Candidate>, n: nat)
    requires n <= |some| && some <= all
    ensures AllMatches(some, n) == AllMatches(all, n)
  {
    if n > 0 { SameMatches(some, all, n - 1); }
  }

  function NumberOf(m: Match): nat {
    if m.PathMatch? then 0 else m.number
  }

  lemma {:induction false} LineMatchesAscend(q: Query, p: Path, lines: seq<string>, n: nat)
    requires n <= |lines|
    ensures forall k :: 0 <= k < |LineMatches(q, p, lines, n)| ==> 1 <= NumberOf(LineMatches(q, p, lines, n)[k]) <= n
    ensures forall i, k :: 0 <= i < k < |LineMatches(q, p, lines, n)| ==>
      NumberOf(LineMatches(q, p, lines, n)[i]) < NumberOf(LineMatches(q, p, lines, n)[k])
  {
    if n > 0 { LineMatchesAscend(q, p, lines, n - 1); }
  }

  /** A file's path comes first, its lines follow in order, and none comes twice. */
  lemma FileMatchesAscend(q: Query, origin: Node, root: Path, p: Path, i: nat, k: nat)
    requires i < k < |FileMatches(q, origin, root, p)|
    ensures NumberOf(FileMatches(q, origin, root, p)[i]) < NumberOf(FileMatches(q, origin, root, p)[k])
  {
    var lines := Lookup(origin, p[|root|..]).value.lines;
    LineMatchesAscend(q, p, lines, |lines|);
  }

  /** A path's text is its names with slashes between them. */
  lemma {:induction false} PathTextJoins(p: Path, name: string)
    ensures PathText(p + [name]) == if p == [] then name else PathText(p) + "/" + name
  {
    if p == [] {
      assert [] + [name] == [name];
    } else {
      assert (p + [name])[1..] == p[1..] + [name];
      PathTextJoins(p[1..], name);
    }
  }

  // ---- the scan ----

  /** Scans one file's lines, stopping as soon as a line leaves enough matches. */
  method ScanLines(q: Query, p: Path, lines: seq<string>, matches0: seq<Match>, maxResults: nat)
    returns (matches: seq<Match>, full: bool)
    ensures matches0 <= matches <= matches0 + LineMatches(q, p, lines, |lines|)
    ensures full <==> lines != [] && |matches0| + |LineMatches(q, p, lines, |lines|)| >= maxResults
    ensures full ==> |matches| >= maxResults
    ensures !full ==> matches == matches0 + LineMatches(q, p, lines, |lines|)
  {
    matches := matches0;
    for i := 0 to |lines|
      invariant matches == matches0 + LineMatches(q, p, lines, i)
      invariant i > 0 ==> |matches| < maxResults
    {
      if Hits(q, lines[i]) {
        matches := matches + [LineMatch(p, i + 1, lines[i])];
      }
      LinesGrow(q, p, lines, i + 1);
      assert matches == matches0 + LineMatches(q, p, lines, i + 1);
      if |matches| >= maxResults {
        return matches, true;
      }
    }
    full := false;
  }

  /** Scans an open file's path and lines. */
  method ScanContent(
      q: Query, origin: Node, root: Path, p: Path, lines: seq<string>, maxResults: nat, before: seq<Match>)
    returns (matches: seq<Match>, full: bool)
    requires NodeAt(origin, root, p).Some? && NodeAt(origin, root, p).value.File? && !Concealed(p)
    requires lines == NodeAt(origin, root, p).value.lines
    ensures
      var all := before + FileMatches(q, origin, root, p);
      && Upto(matches, maxResults) == Upto(all, maxResults)
      && (full <==> lines != [] && |all| >= maxResults)
      && (full ==> |matches| >= maxResults)
      && (!full ==> matches == all)
  {
    matches, full := ScanLines(q, p, lines, before + PathMatches(q, p), maxResults);
    assert before + PathMatches(q, p) + LineMatches(q, p, lines, |lines|) == before + FileMatches(q, origin, root, p);
    SameBeginning(matches, before + FileMatches(q, origin, root, p), maxResults);
  }

  /** Scanning one candidate does what its fate says. */
  ghost predicate ScansOne(
      c: Candidate, maxResults: nat, before: Scan, s: Scan, cut: bool, broken: bool, more: bool)
  {
    var fate := FateOf(c, maxResults, |before.matches|, before.files, before.bytes);
    && (more <==> fate.Passes?) && (broken <==> fate.CannotRead?) && (cut <==> Reports(fate))
    && (!Scanned(fate) ==> s == before)
    && (Scanned(fate) ==>
          && Upto(s.matches, maxResults) == Upto(before.matches + c.matches, maxResults)
          && s.files == before.files + (if c.skipped then 0 else 1)
          && s.bytes == before.bytes + (if c.skipped then 0 else c.size))
    && (more ==> s.matches == before.matches + c.matches && |s.matches| < maxResults)
  }

  /** Scans one candidate: the flag is set at a cap or by a line, the search
      breaks on an unreadable file, and it goes on exactly when its fate says so. */
  method ScanFile(q: Query, origin: Node, root: Path, p: Path, maxResults: nat, before: Scan)
    returns (s: Scan, cut: bool, broken: bool, more: bool)
    requires |root| <= |p| && |before.matches| < maxResults && before.bytes <= P3_SEARCH_MAX_BYTES
    ensures ScansOne(CandidateOf(q, origin, root, p), maxResults, before, s, cut, broken, more)
    ensures s.bytes <= P3_SEARCH_MAX_BYTES
  {
    s, cut, broken := before, false, false;
    if Concealed(p) {
      assert before.matches + [] == before.matches;
      return s, cut, broken, true;
    }
    if before.files >= P3_SEARCH_MAX_FILES {
      return s, true, broken, false;
    }
    var reading := Open(origin, p[|root|..], P3_SEARCH_MAX_BYTES - before.bytes);
    match reading {
      case Unreadable =>
        return s, cut, true, false;
      case TooBig =>
        return s, true, broken, false;
      case Content(lines, size) =>
        var matches;
        matches, cut := ScanContent(q, origin, root, p, lines, maxResults, before.matches);
        s := Scan(matches, before.files + 1, before.bytes + size);
        more := !cut && |matches| < maxResults;
    }
  }

  lemma SameBeginning(s: seq<Match>, all: seq<Match>, n: nat)
    requires s <= all && (|s| >= n || s == all)
    ensures Upto(s, n) == Upto(all, n)
  {
  }

  /** The scans that passed the first `i` candidates. */
  ghost predicate Passed(cs: seq<Candidate>, maxResults: nat, i: nat, s: Scan) {
    && i <= |cs|
    && s == Scan(AllMatches(cs, i), FilesRead(cs, i), BytesRead(cs, i))
    && |s.matches| < maxResults && s.bytes <= P3_SEARCH_MAX_BYTES
    && forall j :: 0 <= j < i ==> FateAt(cs, maxResults, j).Passes?
  }

  ghost function Passing(cs: seq<Candidate>, maxResults: nat, i: nat): iset<Scan> {
    iset s | Passed(cs, maxResults, i, s)
  }

  /** A scan that ended, and broke and was flagged exactly as its end says: its
      matches, files and bytes are those of the candidates it scanned. */
  ghost predicate Ended(cs: seq<Candidate>, maxResults: nat, s: Scan, cut: bool, broken: bool) {
    && (broken <==> EndOf(cs, maxResults).CannotRead?) && (cut <==> Reports(EndOf(cs, maxResults)))
    && Upto(s.matches, maxResults) == Upto(AllMatches(cs, Reached(cs, maxResults)), maxResults)
    && s.files == FilesRead(cs, Reached(cs, maxResults)) && s.bytes == BytesRead(cs, Reached(cs, maxResults))
  }

  lemma NothingPassed(cs: seq<Candidate>, maxResults: nat)
    requires maxResults >= 1
    ensures Scan([], 0, 0) in Passing(cs, maxResults, 0)
  {
  }

  lemma AllPassed(cs: seq<Candidate>, maxResults: nat, s: Scan)
    requires s in Passing(cs, maxResults, |cs|)
    ensures Ended(cs, maxResults, s, false, false)
  {
    EndsAt(cs, maxResults, |cs|);
  }

  /** The scan after candidate `i`, by its fate. */
  ghost predicate Stepped(
      cs: seq<Candidate>, maxResults: nat, i: nat, s: Scan, cut: bool, broken: bool, more: bool)
    requires i < |cs|
  {
    var fate := FateAt(cs, maxResults, i);
    var n := if Scanned(fate) then i + 1 else i;
    && (more <==> fate.Passes?) && (broken <==> fate.CannotRead?) && (cut <==> Reports(fate))
    && Upto(s.matches, maxResults) == Upto(AllMatches(cs, n), maxResults)
    && s.files == FilesRead(cs, n) && s.bytes == BytesRead(cs, n) && s.bytes <= P3_SEARCH_MAX_BYTES
    && (more ==> s == Scan(AllMatches(cs, n), FilesRead(cs, n), BytesRead(cs, n)) && |s.matches| < maxResults)
  }

  lemma StepPasses(
      cs: seq<Candidate>, maxResults: nat, i: nat, before: Scan, s: Scan, cut: bool, broken: bool)
    requires i < |cs| && before in Passing(cs, maxResults, i) && Stepped(cs, maxResults, i, s, cut, broken, true)
    ensures !cut && !broken && s in Passing(cs, maxResults, i + 1)
  {
  }

  lemma StepEnds(
      cs: seq<Candidate>, maxResults: nat, i: nat, before: Scan, s: Scan, cut: bool, broken: bool)
    requires i < |cs| && before in Passing(cs, maxResults, i) && Stepped(cs, maxResults, i, s, cut, broken, false)
    ensures Ended(cs, maxResults, s, cut, broken)
  {
    EndsAt(cs, maxResults, i);
  }

  /** Scans candidate `i` of a walk. */
  method ScanNext(
      q: Query, origin: Node, root: Path, files: seq<Path>, maxResults: nat, i: nat, before: Scan,
      ghost cs: seq<Candidate>)
    returns (s: Scan, cut: bool, broken: bool, more: bool)
    requires cs == CandidatesOf(q, origin, root, files) && i < |files| && |root| <= |files[i]|
    requires before == Scan(AllMatches(cs, i), FilesRead(cs, i), BytesRead(cs, i))
    requires |before.matches| < maxResults && before.bytes <= P3_SEARCH_MAX_BYTES
    ensures Stepped(cs, maxResults, i, s, cut, broken, more)
  {
    CandidatesAt(q, origin, root, files, i);
    s, cut, broken, more := ScanFile(q, origin, root, files[i], maxResults, before);
    ScanSteps(cs, maxResults, i, before, s, cut, broken, more);
  }

  lemma ScanSteps(
      cs: seq<Candidate>, maxResults: nat, i: nat, before: Scan, s: Scan, cut: bool, broken: bool, more: bool)
    requires i < |cs| && before == Scan(AllMatches(cs, i), FilesRead(cs, i), BytesRead(cs, i))
    requires ScansOne(cs[i], maxResults, before, s, cut, broken, more) && s.bytes <= P3_SEARCH_MAX_BYTES
    ensures Stepped(cs, maxResults, i, s, cut, broken, more)
  {
    var c := cs[i];
    assert AllMatches(cs, i + 1) == before.matches + c.matches;
    assert FilesRead(cs, i + 1) == before.files + (if c.skipped then 0 else 1);
    assert BytesRead(cs, i + 1) == before.bytes + (if c.skipped then 0 else c.size);
  }

  lemma PassingIs(cs: seq<Candidate>, maxResults: nat, i: nat, s: Scan)
    requires s in Passing(cs, maxResults, i)
    ensures i <= |cs| && s == Scan(AllMatches(cs, i), FilesRead(cs, i), BytesRead(cs, i))
    ensures |s.matches| < maxResults && s.bytes <= P3_SEARCH_MAX_BYTES
  {
  }

  /** The search loop. */
  method ScanFiles(q: Query, origin: Node, root: Path, files: seq<Path>, maxResults: nat)
    returns (s: Scan, cut: bool, broken: bool, ghost cs: seq<Candidate>)
    requires maxResults >= 1
    requires forall p :: p in files ==> |root| <= |p|
    ensures cs == CandidatesOf(q, origin, root, files)
    ensures Ended(cs, maxResults, s, cut, broken)
  {
    s, cut, broken := Scan([], 0, 0), false, false;
    cs := CandidatesOf(q, origin, root, files);
    ghost var all := cs;
    NothingPassed(cs, maxResults);
    for i := 0 to |files|
      invariant cs == all && |all| == |files|
      invariant s in Passing(all, maxResults, i) && !cut && !broken
    {
      var more;
      ghost var before := s;
      PassingIs(all, maxResults, i, s);
      s, cut, broken, more := ScanNext(q, origin, root, files, maxResults, i, s, all);
      if !more {
        StepEnds(all, maxResults, i, before, s, cut, broken);
        return;
      }
      StepPasses(all, maxResults, i, before, s, cut, broken);
    }
    AllPassed(all, maxResults, s);
  }

  datatype SearchResult =
    | Broken                                   // an unreadable file
    | Found(matches: seq<Match>, scannedFiles: nat, scannedBytes: nat, visited: nat, truncated: bool)

  predicate WalkCut(origin: Node) {
    origin.Dir? && Listed(origin) >= SEARCH_MAX_ENTRIES
  }

  /** What a search of the walked candidates returns: it breaks on an unreadable
      file, and reports truncation of the walk or of the scan. */
  function ResultOf(origin: Node, maxResults: nat, cs: seq<Candidate>): SearchResult {
    if EndOf(cs, maxResults).CannotRead? then Broken
    else
      Found(
        Upto(AllMatches(cs, Reached(cs, maxResults)), maxResults),
        FilesRead(cs, Reached(cs, maxResults)),
        BytesRead(cs, Reached(cs, maxResults)),
        if origin.File? then 1 else Least(Listed(origin), SEARCH_MAX_ENTRIES),
        WalkCut(origin) || Reports(EndOf(cs, maxResults)))
  }

  /** The files a search walks. */
  function WalkedFiles(origin: Node, root: Path): seq<Path> {
    Walk(origin, root, SEARCH_MAX_ENTRIES).files
  }

  /** What a search returns, its walk cut or not. */
  function Answer(q: Query, origin: Node, root: Path, maxResults: nat): SearchResult {
    ResultOf(origin, maxResults, CandidatesOf(q, origin, root, WalkedFiles(origin, root)))
  }

  /** Searches a bounded walk; one that is not cut is that of all visible files.
      Every match is one of a walked file, and an unflagged result short of the
      limit holds every match of every visible file. */
  method Search(q: Query, origin: Node, root: Path, maxResults: nat) returns (r: SearchResult)
    requires maxResults >= 1
    ensures r == Answer(q, origin, root, maxResults)
    ensures !WalkCut(origin) ==> r == Searched(q, origin, root, maxResults)
    ensures r.Found? ==>
      forall m :: m in r.matches ==> m.path in WalkedFiles(origin, root) && Occurs(q, origin, root, m)
    ensures r.Found? && !r.truncated && |r.matches| < maxResults ==>
      forall m: Match :: m.path in FilesOf(origin, root) && Occurs(q, origin, root, m) ==> m in r.matches
  {
    AnswerIsTrue(q, origin, root, maxResults);
    var files, walkCut, visited := BoundedFiles(origin, root);
    FilesContinue(origin, root, files);
    var s, cut, broken, cs := ScanFiles(q, origin, root, files, maxResults);
    if broken {
      return Broken;
    }
    var matches := s.matches;
    if |matches| > maxResults {
      matches := matches[..maxResults];
    }
    r := Found(matches, s.files, s.bytes, visited, walkCut || cut);
  }

  lemma FilesContinue(origin: Node, root: Path, files: seq<Path>)
    requires Subsequence(files, FilesOf(origin, root))
    ensures forall p :: p in files ==> |root| <= |p|
  {
    forall p | p in files ensures |root| <= |p| {
      SubsequenceMembers(files, FilesOf(origin, root), p);
      FilesAre(origin, root, p);
    }
  }

  // ---- what a result promises ----

  function AllCandidates(q: Query, origin: Node, root: Path): seq<Candidate> {
    CandidatesOf(q, origin, root, FilesOf(origin, root))
  }

  /** All path and line matches of the visible files, in walk order. */
  function AllFound(q: Query, origin: Node, root: Path): seq<Match> {
    AllMatches(AllCandidates(q, origin, root), |AllCandidates(q, origin, root)|)
  }

  function Searched(q: Query, origin: Node, root: Path, maxResults: nat): SearchResult {
    ResultOf(origin, maxResults, AllCandidates(q, origin, root))
  }

  /** Any result is a beginning of the walked files' matches, within all caps. */
  lemma ResultIsHonest(origin: Node, maxResults: nat, cs: seq<Candidate>)
    requires ResultOf(origin, maxResults, cs).Found?
    ensures
      var r := ResultOf(origin, maxResults, cs);
      && r.matches <= AllMatches(cs, |cs|) && |r.matches| <= maxResults
      && r.scannedFiles <= P3_SEARCH_MAX_FILES && r.scannedBytes <= P3_SEARCH_MAX_BYTES
      && r.visited <= SEARCH_MAX_ENTRIES
  {
    BeginningOfAll(cs, maxResults, Reached(cs, maxResults));
    ScanKeepsCaps(cs, maxResults);
  }

  /** A result that reports nothing and is short of the limit is exactly all path
      and line matches of the visible files: every line that holds the query, with
      its number and its text, every path that does, and nothing else. */
  lemma ShortResultIsComplete(q: Query, origin: Node, root: Path, maxResults: nat)
    requires
      var r := Searched(q, origin, root, maxResults);
      r.Found? && !r.truncated && |r.matches| < maxResults
    ensures Searched(q, origin, root, maxResults).matches == AllFound(q, origin, root)
    ensures forall m :: m in Searched(q, origin, root, maxResults).matches <==>
      m.path in FilesOf(origin, root) && Occurs(q, origin, root, m)
  {
    ShortIsComplete(AllCandidates(q, origin, root), maxResults);
    forall m ensures m in AllFound(q, origin, root) <==>
      m.path in FilesOf(origin, root) && Occurs(q, origin, root, m)
    {
      MatchesAre(q, origin, root, FilesOf(origin, root), m);
    }
  }

  /** What is returned is true, and all of it unless the result says otherwise. */
  lemma AnswerIsTrue(q: Query, origin: Node, root: Path, maxResults: nat)
    ensures
      var r := Answer(q, origin, root, maxResults);
      r.Found? ==>
        forall m :: m in r.matches ==> m.path in WalkedFiles(origin, root) && Occurs(q, origin, root, m)
    ensures
      var r := Answer(q, origin, root, maxResults);
      r.Found? && !r.truncated && |r.matches| < maxResults ==>
        forall m: Match :: m.path in FilesOf(origin, root) && Occurs(q, origin, root, m) ==> m in r.matches
  {
    var files, r := WalkedFiles(origin, root), Answer(q, origin, root, maxResults);
    var cs := CandidatesOf(q, origin, root, files);
    if r.Found? {
      ResultIsHonest(origin, maxResults, cs);
      forall m | m in r.matches ensures m.path in files && Occurs(q, origin, root, m) {
        assert m in AllMatches(cs, |cs|);
        MatchesAre(q, origin, root, files, m);
      }
      if !r.truncated && |r.matches| < maxResults {
        UncutWalk(origin, root, SEARCH_MAX_ENTRIES);
        ShortResultIsComplete(q, origin, root, maxResults);
      }
    }
  }

  /** A path that is searched, has no line, and matches. */
  predicate EmptyFileHit(q: Query, origin: Node, root: Path, p: Path) {
    && !Concealed(p) && Hits(q, PathText(p))
    && var node := NodeAt(origin, root, p);
       node.Some? && node.value.File? && node.value.lines == []
  }

  lemma EmptyFileIsEmptyHit(q: Query, origin: Node, root: Path, p: Path)
    ensures EmptyHit(CandidateOf(q, origin, root, p)) <==> EmptyFileHit(q, origin, root, p)
  {
  }

  /** File `k` of the walk is readable within the caps, like all before it, has no
      line and matches by its path, early enough to be asked for, and another match
      follows it. */
  ghost predicate HitFollowed(q: Query, origin: Node, root: Path, k: nat)
    requires k < |FilesOf(origin, root)|
  {
    var cs := AllCandidates(q, origin, root);
    && CanScanUpTo(cs, k)
    && EmptyFileHit(q, origin, root, FilesOf(origin, root)[k])
    && |AllMatches(cs, k + 1)| <= P3_SEARCH_MAX_RESULTS && |AllMatches(cs, k + 1)| < |AllFound(q, origin, root)|
  }

  /** A search that returns says so whenever it is incomplete. */
  ghost predicate FlagIsTrue(q: Query, origin: Node, root: Path, maxResults: nat) {
    var r := Answer(q, origin, root, maxResults);
    r.Broken? || r.truncated || r.matches == AllFound(q, origin, root)
  }

  lemma {:induction false} CandidatesAreValid(q: Query, origin: Node, root: Path, files: seq<Path>)
    ensures AllValid(CandidatesOf(q, origin, root, files))
  {
    if files != [] { CandidatesAreValid(q, origin, root, files[..|files| - 1]); }
  }

  lemma FlagMisses(q: Query, origin: Node, root: Path, maxResults: nat)
    ensures WalkCut(origin) ==> FlagIsTrue(q, origin, root, maxResults)
    ensures !WalkCut(origin) ==>
      (FlagIsTrue(q, origin, root, maxResults) <==> !SilentMiss(AllCandidates(q, origin, root), maxResults))
  {
    if !WalkCut(origin) { UncutWalk(origin, root, SEARCH_MAX_ENTRIES); }
  }

  /** Every search without the flag is complete, at every limit, if and only if the
      walk is cut (and then every search is flagged) or no readable visible file
      without lines that matches by its path is followed by another match. */
  lemma FlagIsTrueIff(q: Query, origin: Node, root: Path)
    ensures (forall maxResults: nat :: 1 <= maxResults <= P3_SEARCH_MAX_RESULTS ==>
      FlagIsTrue(q, origin, root, maxResults))
       <==> WalkCut(origin) || forall k :: 0 <= k < |FilesOf(origin, root)| ==> !HitFollowed(q, origin, root, k)
  {
    var files, cs := FilesOf(origin, root), AllCandidates(q, origin, root);
    forall maxResults: nat { FlagMisses(q, origin, root, maxResults); }
    forall k | 0 <= k < |files| ensures HitFollowed(q, origin, root, k) <==> EmptyHitFollowed(cs, k) {
      CandidatesAt(q, origin, root, files, k);
      EmptyFileIsEmptyHit(q, origin, root, files[k]);
    }
    CandidatesAreValid(q, origin, root, files);
    SilenceIsTrueIff(cs);
  }

  // ---- a search that misses a match ----

  function Empty(name: string): Entry { Entry(name, Node.File([], 0, true)) }

  /** The hidden marker that every mounted root holds. */
  function Marker(): Entry { Entry(".snapshot-version", Node.File(["7"], 1, true)) }

  function TwoEmptyFiles(): Node { Dir([Marker(), Empty("a1"), Empty("a2")]) }

  lemma HiddenFirst(h: Entry, entries: seq<Entry>)
    requires !Visible(h)
    ensures Shown([h] + entries) == Shown(entries)
  {
    assert ([h] + entries)[1..] == entries;
    assert Filter([h] + entries, Visible) == [] + Filter(entries, Visible);
    assert [] + Filter(entries, Visible) == Filter(entries, Visible);
  }

  lemma TwoEntries(a: Entry, b: Entry)
    requires Visible(a) && Visible(b) && NameLe(a, b)
    ensures Shown([a, b]) == [a, b]
  {
    assert [a, b][1..] == [b] && [b][1..] == [];
    assert Filter([b], Visible) == [b];
    assert Filter([a, b], Visible) == [a, b];
    assert SortBy(NameLe, []) == [];
    assert SortBy(NameLe, [b]) == Insert(NameLe, b, []) == [b];
    assert SortBy(NameLe, [a, b]) == Insert(NameLe, a, [b]) == [a, b];
  }

  lemma TwoFiles(h: Entry, a: Entry, b: Entry)
    requires a.node.File? && b.node.File? && Shown([h, a, b]) == [a, b]
    ensures FilesOf(Dir([h, a, b]), []) == [[a.name], [b.name]] && Listed(Dir([h, a, b])) == 3
  {
    assert [a, b][1..] == [b] && [b][1..] == [];
    assert [] + [a.name] == [a.name] && [] + [b.name] == [b.name];
    assert FilesIn([], []) == [];
    assert FilesOf(b.node, [b.name]) == [[b.name]] && FilesOf(a.node, [a.name]) == [[a.name]];
    assert FilesIn([b], []) == [[b.name]];
    assert FilesIn([a, b], []) == [[a.name], [b.name]];
    assert ListedIn([b]) == 0 && ListedIn([a, b]) == 0;
  }

  lemma WalkOfTwo()
    ensures FilesOf(TwoEmptyFiles(), []) == [["a1"], ["a2"]]
    ensures Listed(TwoEmptyFiles()) == 3
  {
    var h, a, b := Marker(), Empty("a1"), Empty("a2");
    TwoEntries(a, b);
    HiddenFirst(h, [a, b]);
    assert [h] + [a, b] == [h, a, b];
    TwoFiles(h, a, b);
  }

  function Named(name: string): Candidate { Candidate(false, true, true, 0, false, [PathMatch([name])]) }

  lemma FoundByName(h: Entry, a: Entry, b: Entry)
    requires h.name != a.name && h.name != b.name && a.name != b.name
    ensures Lookup(Dir([h, a, b]), [a.name]) == Some(a.node) && Lookup(Dir([h, a, b]), [b.name]) == Some(b.node)
  {
    assert [h, a, b][1..] == [a, b] && [a, b][1..] == [b];
    assert FindEntry([b], b.name) == Some(b.node);
    assert FindEntry([a, b], b.name) == Some(b.node) && FindEntry([a, b], a.name) == Some(a.node);
    assert FindEntry([h, a, b], b.name) == Some(b.node) && FindEntry([h, a, b], a.name) == Some(a.node);
    assert [a.name][1..] == [] && [b.name][1..] == [];
  }

  lemma EmptyCandidate(q: Query, origin: Node, name: string)
    requires Lookup(origin, [name]) == Some(Empty(name).node) && !Hidden(name) && q.occursIn(name)
    ensures CandidateOf(q, origin, [], [name]) == Named(name)
  {
    assert [name][0..] == [name] && PathText([name]) == name;
    assert LineMatches(q, [name], [], 0) == [];
    assert FileMatches(q, origin, [], [name]) == [PathMatch([name])] + [];
  }

  lemma CandidatesOfTwo(q: Query)
    requires q.occursIn("a1") && q.occursIn("a2")
    ensures AllCandidates(q, TwoEmptyFiles(), []) == [Named("a1"), Named("a2")]
  {
    WalkOfTwo();
    FoundByName(Marker(), Empty("a1"), Empty("a2"));
    EmptyCandidate(q, TwoEmptyFiles(), "a1");
    EmptyCandidate(q, TwoEmptyFiles(), "a2");
    assert [["a1"], ["a2"]][..1] == [["a1"]] && [["a1"]][..0] == [];
    assert CandidatesOf(q, TwoEmptyFiles(), [], [["a1"]]) == [Named("a1")];
  }

  /** Over a mounted root with two empty files, any query that occurs in both names:
      at limit one the search returns the first, reports nothing, and misses the
      second. */
  lemma SilentStopLosesMatches(q: Query)
    requires q.occursIn("a1") && q.occursIn("a2")
    ensures !WalkCut(TwoEmptyFiles())
    ensures Searched(q, TwoEmptyFiles(), [], 1) == Found([PathMatch(["a1"])], 1, 0, 3, false)
    ensures AllFound(q, TwoEmptyFiles(), []) == [PathMatch(["a1"]), PathMatch(["a2"])]
  {
    WalkOfTwo();
    CandidatesOfTwo(q);
    var cs := [Named("a1"), Named("a2")];
    assert AllMatches(cs, 0) == [] && AllMatches(cs, 1) == [PathMatch(["a1"])];
    assert AllMatches(cs, 2) == [PathMatch(["a1"]), PathMatch(["a2"])];
    EndsAt(cs, 1, 0);
  }
}
