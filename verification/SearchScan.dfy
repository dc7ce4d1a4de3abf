// What a bounded search does with its candidates, one after the other: which one
// stops it, whether that is reported, and when a silent result is complete.

module SearchScan {
  import opened SnapshotTree

  const P3_SEARCH_MAX_RESULTS := 50
  const P3_SEARCH_MAX_FILES := 2000
  const P3_SEARCH_MAX_BYTES := 8388608

  datatype Match = PathMatch(path: Path) | LineMatch(path: Path, number: nat, text: string)

  /** One path of the walk, as the search sees it. */
  datatype Candidate =
    Candidate(skipped: bool, regular: bool, readable: bool, size: nat, hasLines: bool, matches: seq<Match>)
  {
    /** Without lines only the path can match; a skipped name matches nothing. */
    predicate Valid() {
      (!hasLines ==> |matches| <= 1) && (skipped ==> matches == [])
    }
  }

  /** The matches, files and bytes of the first `n` candidates, all scanned. */
  function AllMatches(cs: seq<Candidate>, n: nat): seq<Match>
    requires n <= |cs|
  {
    if n == 0 then [] else AllMatches(cs, n - 1) + cs[n - 1].matches
  }

  function FilesRead(cs: seq<Candidate>, n: nat): nat
    requires n <= |cs|
  {
    if n == 0 then 0 else FilesRead(cs, n - 1) + if cs[n - 1].skipped then 0 else 1
  }

  function BytesRead(cs: seq<Candidate>, n: nat): nat
    requires n <= |cs|
  {
    if n == 0 then 0 else BytesRead(cs, n - 1) + if cs[n - 1].skipped then 0 else cs[n - 1].size
  }

  function Upto(s: seq<Match>, n: nat): seq<Match> {
    if |s| <= n then s else s[..n]
  }

  lemma {:induction false} MatchesGrow(cs: seq<Candidate>, m: nat, n: nat)
    requires m <= n <= |cs|
    ensures AllMatches(cs, m) <= AllMatches(cs, n)
    decreases n
  {
    if m < n { MatchesGrow(cs, m, n - 1); }
  }

  lemma {:induction false} FewerBefore(cs: seq<Candidate>, m: nat, n: nat)
    requires m <= n <= |cs|
    ensures |AllMatches(cs, m)| <= |AllMatches(cs, n)|
    decreases n
  {
    if m < n { FewerBefore(cs, m, n - 1); }
  }

  // ---- what becomes of a candidate ----

  /** The search before a candidate. */
  datatype Scan = Scan(matches: seq<Match>, files: nat, bytes: nat)

  /** What a candidate does to the search. */
  datatype Fate =
    | Passes          // the search goes on
    | AtFileCap
    | AtByteCap
    | CannotRead
    | LineFills       // one of its lines finds enough matches
    | FillsSilently   // its path does, and it has no line

  /** Truncation is reported at a cap, or when a line reaches the limit. */
  predicate Reports(fate: Fate) {
    fate.AtFileCap? || fate.AtByteCap? || fate.LineFills?
  }

  predicate Scanned(fate: Fate) {
    fate.Passes? || fate.LineFills? || fate.FillsSilently?
  }

  /** A candidate's fate depends on the matches, files and bytes before it. */
  function FateOf(c: Candidate, maxResults: nat, found: nat, files: nat, bytes: nat): Fate {
    if c.skipped then Passes
    else if files >= P3_SEARCH_MAX_FILES then AtFileCap
    else if !c.regular then CannotRead
    else if bytes + c.size > P3_SEARCH_MAX_BYTES then AtByteCap
    else if !c.readable then CannotRead
    else if found + |c.matches| < maxResults then Passes
    else if c.hasLines then LineFills
    else FillsSilently
  }

  /** The fate of candidate `k` when all before it were scanned. */
  function FateAt(cs: seq<Candidate>, maxResults: nat, k: nat): Fate
    requires k < |cs|
  {
    FateOf(cs[k], maxResults, |AllMatches(cs, k)|, FilesRead(cs, k), BytesRead(cs, k))
  }

  /** The first candidate from `k` on that stops the search, or the end. */
  function StopFrom(cs: seq<Candidate>, maxResults: nat, k: nat): (stop: nat)
    requires k <= |cs|
    ensures k <= stop <= |cs|
    ensures forall j :: k <= j < stop ==> FateAt(cs, maxResults, j).Passes?
    ensures stop < |cs| ==> !FateAt(cs, maxResults, stop).Passes?
    decreases |cs| - k
  {
    if k == |cs| || !FateAt(cs, maxResults, k).Passes? then k else StopFrom(cs, maxResults, k + 1)
  }

  /** How a scan ends: by passing every candidate, or at one. */
  function EndOf(cs: seq<Candidate>, maxResults: nat): Fate {
    var stop := StopFrom(cs, maxResults, 0);
    if stop == |cs| then Passes else FateAt(cs, maxResults, stop)
  }

  /** How many candidates were scanned. */
  function Reached(cs: seq<Candidate>, maxResults: nat): (n: nat)
    ensures n <= |cs|
  {
    var stop := StopFrom(cs, maxResults, 0);
    if stop < |cs| && Scanned(FateAt(cs, maxResults, stop)) then stop + 1 else stop
  }

  /** Passing the first `i` candidates and stopping there is how the scan ends. */
  lemma EndsAt(cs: seq<Candidate>, maxResults: nat, i: nat)
    requires i <= |cs| && (forall j :: 0 <= j < i ==> FateAt(cs, maxResults, j).Passes?)
    requires i < |cs| ==> !FateAt(cs, maxResults, i).Passes?
    ensures StopFrom(cs, maxResults, 0) == i
    ensures EndOf(cs, maxResults) == if i == |cs| then Passes else FateAt(cs, maxResults, i)
    ensures Reached(cs, maxResults) == if i < |cs| && Scanned(FateAt(cs, maxResults, i)) then i + 1 else i
  {
  }

  /** Candidates that were scanned stay within both caps. */
  lemma {:induction false} CapsHold(cs: seq<Candidate>, maxResults: nat, n: nat)
    requires n <= |cs| && forall j :: 0 <= j < n ==> Scanned(FateAt(cs, maxResults, j))
    ensures FilesRead(cs, n) <= P3_SEARCH_MAX_FILES && BytesRead(cs, n) <= P3_SEARCH_MAX_BYTES
  {
    if n > 0 {
      CapsHold(cs, maxResults, n - 1);
      assert Scanned(FateAt(cs, maxResults, n - 1));
    }
  }

  /** No scan reads more files or bytes than its caps. */
  lemma ScanKeepsCaps(cs: seq<Candidate>, maxResults: nat)
    ensures FilesRead(cs, Reached(cs, maxResults)) <= P3_SEARCH_MAX_FILES
    ensures BytesRead(cs, Reached(cs, maxResults)) <= P3_SEARCH_MAX_BYTES
  {
    CapsHold(cs, maxResults, Reached(cs, maxResults));
  }

  /** However many candidates are scanned, what is kept begins all matches. */
  lemma BeginningOfAll(cs: seq<Candidate>, maxResults: nat, n: nat)
    requires n <= |cs|
    ensures Upto(AllMatches(cs, n), maxResults) <= AllMatches(cs, |cs|)
  {
    MatchesGrow(cs, n, |cs|);
  }

  // ---- when a silent result is complete ----

  /** The scan found every match and kept it. */
  predicate Complete(cs: seq<Candidate>, maxResults: nat) {
    Upto(AllMatches(cs, Reached(cs, maxResults)), maxResults) == AllMatches(cs, |cs|)
  }

  /** Whatever the candidates, a silent scan short of the limit is complete. */
  lemma ShortIsComplete(cs: seq<Candidate>, maxResults: nat)
    requires !EndOf(cs, maxResults).CannotRead? && !Reports(EndOf(cs, maxResults))
    requires |Upto(AllMatches(cs, Reached(cs, maxResults)), maxResults)| < maxResults
    ensures Complete(cs, maxResults)
  {
    var stop := StopFrom(cs, maxResults, 0);
    if stop < |cs| { SilentFillIsFull(cs, maxResults, stop); }
  }

  lemma SilentFillIsFull(cs: seq<Candidate>, maxResults: nat, k: nat)
    requires k < |cs|
    ensures FateAt(cs, maxResults, k).FillsSilently? ==> |AllMatches(cs, k + 1)| >= maxResults
  {
  }

  /** A candidate that is scanned, has no line, and matches by its path. */
  predicate EmptyHit(c: Candidate) {
    !c.skipped && !c.hasLines && c.matches != []
  }

  ghost predicate AllValid(cs: seq<Candidate>) {
    forall c :: c in cs ==> c.Valid()
  }

  /** With all before it scanned, candidate `k` is within both caps and readable. */
  predicate CanScan(cs: seq<Candidate>, k: nat)
    requires k < |cs|
  {
    cs[k].skipped || (
      && FilesRead(cs, k) < P3_SEARCH_MAX_FILES
      && cs[k].regular && cs[k].readable
      && BytesRead(cs, k) + cs[k].size <= P3_SEARCH_MAX_BYTES)
  }

  /** So are all candidates up to this one. */
  ghost predicate CanScanUpTo(cs: seq<Candidate>, k: nat)
    requires k < |cs|
  {
    forall j :: 0 <= j <= k ==> CanScan(cs, j)
  }

  /** What can be scanned passes as long as there are too few matches, and
      otherwise only one without lines goes unreported. */
  lemma FateOfScanned(cs: seq<Candidate>, maxResults: nat, k: nat)
    requires AllValid(cs) && k < |cs| && |AllMatches(cs, k)| < maxResults
    ensures
      var fate, found := FateAt(cs, maxResults, k), |AllMatches(cs, k + 1)|;
      && (CanScan(cs, k) <==> Scanned(fate))
      && (fate.Passes? ==> found < maxResults)
      && (CanScan(cs, k) && found < maxResults ==> fate.Passes?)
      && (fate.FillsSilently? <==> CanScan(cs, k) && found >= maxResults && EmptyHit(cs[k]))
      && (fate.FillsSilently? ==> found == maxResults)
  {
    assert cs[k] in cs;
  }

  /** While candidates pass, there are too few matches, and each can be scanned. */
  lemma {:induction false} FewWhilePassing(cs: seq<Candidate>, maxResults: nat, n: nat)
    requires AllValid(cs) && n <= |cs| && maxResults >= 1
    requires forall j :: 0 <= j < n ==> FateAt(cs, maxResults, j).Passes?
    ensures |AllMatches(cs, n)| < maxResults && forall j :: 0 <= j < n ==> CanScan(cs, j)
  {
    if n > 0 {
      FewWhilePassing(cs, maxResults, n - 1);
      FateOfScanned(cs, maxResults, n - 1);
    }
  }

  /** While there are too few matches, what can be scanned passes. */
  lemma PassesAt(cs: seq<Candidate>, maxResults: nat, n: nat, j: nat)
    requires AllValid(cs) && j < n <= |cs| && |AllMatches(cs, n)| < maxResults && CanScan(cs, j)
    ensures FateAt(cs, maxResults, j).Passes?
  {
    FewerBefore(cs, j, n);
    FewerBefore(cs, j + 1, n);
    FateOfScanned(cs, maxResults, j);
  }

  /** Candidate `k` has no line, its path match brings the matches to the limit,
      and another match follows it. */
  predicate MissesAfter(cs: seq<Candidate>, maxResults: nat, k: nat)
    requires k < |cs|
  {
    EmptyHit(cs[k]) && |AllMatches(cs, k + 1)| == maxResults < |AllMatches(cs, |cs|)|
  }

  lemma CauseMisses(cs: seq<Candidate>, maxResults: nat, k: nat)
    requires AllValid(cs) && k < |cs| && CanScanUpTo(cs, k) && MissesAfter(cs, maxResults, k)
    ensures EndOf(cs, maxResults).FillsSilently? && !Complete(cs, maxResults)
  {
    assert cs[k] in cs && CanScan(cs, k);
    forall j | 0 <= j < k ensures FateAt(cs, maxResults, j).Passes? {
      assert CanScan(cs, j);
      PassesAt(cs, maxResults, k, j);
    }
    FateOfScanned(cs, maxResults, k);
    EndsAt(cs, maxResults, k);
  }

  /** The scan neither breaks nor reports anything, and yet misses matches. */
  predicate SilentMiss(cs: seq<Candidate>, maxResults: nat) {
    var end := EndOf(cs, maxResults);
    !end.CannotRead? && !Reports(end) && !Complete(cs, maxResults)
  }

  /** A scan misses matches silently if and only if, with everything up to it
      readable within the caps, a candidate without lines brings the matches to
      the limit with its path and another match follows. */
  lemma SilentMissIff(cs: seq<Candidate>, maxResults: nat)
    requires AllValid(cs) && maxResults >= 1
    ensures SilentMiss(cs, maxResults)
       <==> exists k :: 0 <= k < |cs| && CanScanUpTo(cs, k) && MissesAfter(cs, maxResults, k)
  {
    var stop := StopFrom(cs, maxResults, 0);
    FewWhilePassing(cs, maxResults, stop);
    if stop < |cs| {
      FateOfScanned(cs, maxResults, stop);
      MatchesGrow(cs, stop + 1, |cs|);
      assert SilentMiss(cs, maxResults) ==> CanScanUpTo(cs, stop) && MissesAfter(cs, maxResults, stop);
    }
    if k :| 0 <= k < |cs| && CanScanUpTo(cs, k) && MissesAfter(cs, maxResults, k) {
      CauseMisses(cs, maxResults, k);
    }
  }

  /** No limit that a caller may give makes the scan miss matches silently. */
  ghost predicate SilenceIsTrue(cs: seq<Candidate>) {
    forall maxResults: nat :: 1 <= maxResults <= P3_SEARCH_MAX_RESULTS ==> !SilentMiss(cs, maxResults)
  }

  /** Candidate `k` can be reached and has no line, its path is among the matches a
      caller may ask for, and another match follows it. */
  ghost predicate EmptyHitFollowed(cs: seq<Candidate>, k: nat)
    requires k < |cs|
  {
    && CanScanUpTo(cs, k) && EmptyHit(cs[k])
    && |AllMatches(cs, k + 1)| <= P3_SEARCH_MAX_RESULTS && |AllMatches(cs, k + 1)| < |AllMatches(cs, |cs|)|
  }

  lemma FollowedIsUntrue(cs: seq<Candidate>, k: nat)
    requires AllValid(cs) && k < |cs| && EmptyHitFollowed(cs, k)
    ensures 1 <= |AllMatches(cs, k + 1)| <= P3_SEARCH_MAX_RESULTS && SilentMiss(cs, |AllMatches(cs, k + 1)|)
  {
    CauseMisses(cs, |AllMatches(cs, k + 1)|, k);
  }

  lemma MissIsFollowed(cs: seq<Candidate>, maxResults: nat)
    requires maxResults <= P3_SEARCH_MAX_RESULTS && forall k :: 0 <= k < |cs| ==> !EmptyHitFollowed(cs, k)
    ensures forall k :: 0 <= k < |cs| && CanScanUpTo(cs, k) ==> !MissesAfter(cs, maxResults, k)
  {
    forall k | 0 <= k < |cs| && CanScanUpTo(cs, k) ensures MissesAfter(cs, maxResults, k) ==> EmptyHitFollowed(cs, k) {
    }
  }

  /** Silence can be trusted at every limit if and only if no candidate without
      lines that matches early enough is followed by a match. */
  lemma SilenceIsTrueIff(cs: seq<Candidate>)
    requires AllValid(cs)
    ensures SilenceIsTrue(cs) <==> forall k :: 0 <= k < |cs| ==> !EmptyHitFollowed(cs, k)
  {
    if SilenceIsTrue(cs) {
      forall k | 0 <= k < |cs| ensures !EmptyHitFollowed(cs, k) {
        if EmptyHitFollowed(cs, k) { FollowedIsUntrue(cs, k); }
      }
    }
    if forall k :: 0 <= k < |cs| ==> !EmptyHitFollowed(cs, k) {
      forall maxResults: nat | 1 <= maxResults <= P3_SEARCH_MAX_RESULTS ensures !SilentMiss(cs, maxResults) {
        SilentMissIff(cs, maxResults);
        MissIsFollowed(cs, maxResults);
      }
    }
  }
}
