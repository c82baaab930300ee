/**
 * Suggesting a block of lines that tells one match from the others: in the smallest window that has a
 * line no other match's window has, the block from the nearest such line to the match.
 */
module SuggestContext {
  import opened Numbers
  import opened Options
  import opened Sequences
  import opened Text
  import opened Whitespace

  const SOFT_CONTEXT_LINES := 5
  const HARD_CONTEXT_LINES := 30
  const EXPANSION_STEP := 5

  type Lines = seq<Text>

  /** Lines are counted from 1. */
  type LineNumber = n: int | n >= 1 witness 1

  datatype Match = Match(filePath: string, line: LineNumber)

  /** The files that can be read. */
  type Files = map<string, Lines>

  function WindowStart(line: LineNumber, window: nat): nat {
    Max(0, line - 1 - window)
  }

  /** The lines up to `window` before and after a line. */
  function Window(lines: Lines, line: LineNumber, window: nat): Lines {
    Slice(lines, WindowStart(line, window), line + window)
  }

  /** A line with these characters, apart from white space around them, is in the window. */
  predicate Shows(window: Lines, trimmed: Text) {
    exists i | 0 <= i < |window| :: Trim(window[i]) == trimmed
  }

  /** A different match in a readable file. */
  predicate Rivals(files: Files, m: Match, other: Match) {
    other != m && other.filePath in files
  }

  function WindowOf(files: Files, m: Match, window: nat): Lines {
    if m.filePath in files then Window(files[m.filePath], m.line, window) else []
  }

  /** No window of a rival among these matches has the line. */
  predicate NoRivalShows(files: Files, m: Match, all: seq<Match>, window: nat, trimmed: Text) {
    if all == [] then true
    else
      var last := all[|all| - 1];
      && NoRivalShows(files, m, all[..|all| - 1], window, trimmed)
      && (Rivals(files, m, last) ==> !Shows(WindowOf(files, last, window), trimmed))
  }

  lemma {:induction false} NoRivalShowsMeans(files: Files, m: Match, all: seq<Match>, window: nat, trimmed: Text)
    ensures NoRivalShows(files, m, all, window, trimmed)
      <==> forall o | o in all && Rivals(files, m, o) :: !Shows(WindowOf(files, o, window), trimmed)
    decreases |all|
  {
    if all != [] {
      var before, last := all[..|all| - 1], all[|all| - 1];
      NoRivalShowsMeans(files, m, before, window, trimmed);
      assert all == before + [last];
    }
  }

  /** The `i`-th line of the match's window is not blank, and in no rival's window. */
  predicate IsUnique(files: Files, m: Match, all: seq<Match>, window: nat, i: nat) {
    var lines := WindowOf(files, m, window);
    && i < |lines|
    && Trim(lines[i]) != []
    && NoRivalShows(files, m, all, window, Trim(lines[i]))
  }

  function UniqueIn(files: Files, m: Match, all: seq<Match>, window: nat): nat -> bool {
    (i: nat) => IsUnique(files, m, all, window, i)
  }

  /** Of the first `n` offsets that are `unique`, the one nearest to `at`, the earlier of two; or None. */
  function Nearest(unique: nat -> bool, at: int, n: nat): (u: Option<nat>)
    ensures u.Some? ==> u.value < n && unique(u.value)
    ensures forall i: nat | i < n && unique(i) :: u.Some? && Abs(u.value - at) <= Abs(i - at)
  {
    if n == 0 then None
    else
      var before := Nearest(unique, at, n - 1);
      if !unique(n - 1) then before
      else if before.Some? && Abs(before.value - at) <= Abs(n - 1 - at) then before
      else Some(n - 1)
  }

  /** The lines between two offsets of a window, both included. */
  function Block(lines: Lines, a: nat, b: nat): Lines {
    Slice(lines, Min(a, b), Max(a, b) + 1)
  }

  /** The offset of the match's line in its window. */
  function MatchIndex(m: Match, window: nat): nat {
    m.line - 1 - WindowStart(m.line, window)
  }

  /** The block suggested at one window size, if the window has a unique line. */
  function SuggestAt(files: Files, m: Match, all: seq<Match>, window: nat): Option<Lines> {
    var lines, at := WindowOf(files, m, window), MatchIndex(m, window);
    match Nearest(UniqueIn(files, m, all, window), at, |lines|)
    case None => None
    case Some(u) => Some(Block(lines, u, at))
  }

  function Suggester(files: Files, m: Match, all: seq<Match>): nat -> Option<Lines> {
    (window: nat) => SuggestAt(files, m, all, window)
  }

  /** The first suggestion among the window sizes from `window` on. */
  function SuggestFrom(suggest: nat -> Option<Lines>, window: nat): Option<Lines>
    decreases HARD_CONTEXT_LINES - window
  {
    if window > HARD_CONTEXT_LINES then None
    else if suggest(window).Some? then suggest(window)
    else SuggestFrom(suggest, window + EXPANSION_STEP)
  }

  function Suggested(files: Files, m: Match, all: seq<Match>): Option<Lines> {
    if m.filePath !in files then None else SuggestFrom(Suggester(files, m, all), SOFT_CONTEXT_LINES)
  }

  // ---------------------------------------------------------------- what a suggestion promises

  /** The `j`-th line, counted from 0, is no further from the match than the window size. */
  predicate InReach(j: nat, line: LineNumber, window: nat) {
    Abs(j + 1 - line) <= window
  }

  /** A window is the stretch of the lines that are in reach of the match. */
  lemma WindowIsNeighbourhood(lines: Lines, line: LineNumber, window: nat) returns (lo: nat, hi: nat)
    ensures lo <= hi <= |lines| && Window(lines, line, window) == lines[lo..hi]
    ensures forall j | 0 <= j < |lines| :: lo <= j < hi <==> InReach(j, line, window)
  {
    lo := Min(WindowStart(line, window), |lines|);
    hi := Max(lo, Min(line + window, |lines|));
    assert lo == hi ==> lines[lo..hi] == [];
  }

  /** A line with something to see that no other match's window has, in any file that can be read. */
  ghost predicate Distinctive(files: Files, m: Match, all: seq<Match>, window: nat, line: Text) {
    && (exists k :: 0 <= k < |line| && !IsSpace(line[k]))
    && forall o | o in all && o != m && o.filePath in files ::
         var lines := Window(files[o.filePath], o.line, window);
         forall j | 0 <= j < |lines| :: Trim(lines[j]) != Trim(line)
  }

  lemma UniqueMeansDistinctive(files: Files, m: Match, all: seq<Match>, window: nat, i: nat)
    requires m.filePath in files && i < |Window(files[m.filePath], m.line, window)|
    ensures IsUnique(files, m, all, window, i)
      <==> Distinctive(files, m, all, window, Window(files[m.filePath], m.line, window)[i])
  {
    var line := Window(files[m.filePath], m.line, window)[i];
    NoRivalShowsMeans(files, m, all, window, Trim(line));
    var lo, hi := TrimIsTrimmed(line);
    forall o | o in all && Rivals(files, m, o)
      ensures WindowOf(files, o, window) == Window(files[o.filePath], o.line, window)
    {
    }
  }

  ghost predicate HasUnique(files: Files, m: Match, all: seq<Match>, window: nat) {
    exists i: nat :: IsUnique(files, m, all, window, i)
  }

  predicate IsWindowSize(window: nat) {
    window in {5, 10, 15, 20, 25, 30}
  }

  /** A block of consecutive lines stands in a window, lines compared after trimming. */
  ghost predicate OccursAt(window: Lines, block: Lines, k: nat) {
    k + |block| <= |window| && forall i | 0 <= i < |block| :: Trim(window[k + i]) == Trim(block[i])
  }

  /** No smaller window size from `from` on has a suggestion. */
  ghost predicate FirstWith(suggest: nat -> Option<Lines>, from: nat, w: nat) {
    IsWindowSize(w) && suggest(w).Some? && forall v: nat | IsWindowSize(v) && from <= v < w :: suggest(v).None?
  }

  /** Window sizes are tried in order, and the first with a suggestion is used. */
  lemma {:induction false} SmallestWindowIsUsed(suggest: nat -> Option<Lines>, window: nat) returns (w: nat)
    requires IsWindowSize(window)
    ensures match SuggestFrom(suggest, window)
      case None => forall v: nat | IsWindowSize(v) && window <= v :: suggest(v).None?
      case Some(block) => window <= w && FirstWith(suggest, window, w) && suggest(w) == Some(block)
    decreases HARD_CONTEXT_LINES - window
  {
    w := window;
    if suggest(window).None? && window < 30 {
      w := SmallestWindowIsUsed(suggest, window + EXPANSION_STEP);
    }
  }

  lemma SuggestsExactlyWithUnique(files: Files, m: Match, all: seq<Match>, window: nat)
    ensures SuggestAt(files, m, all, window).Some? <==> HasUnique(files, m, all, window)
  {
    var unique := UniqueIn(files, m, all, window);
    if HasUnique(files, m, all, window) {
      var i: nat :| IsUnique(files, m, all, window, i);
      assert unique(i);
    } else {
      assert forall i: nat :: !unique(i) by {
        forall i: nat ensures !unique(i) {
          assert !IsUnique(files, m, all, window, i);
        }
      }
    }
  }

  /** A match at a line of its file is in its window. */
  lemma MatchIsInWindow(files: Files, m: Match, window: nat)
    requires m.filePath in files && m.line <= |files[m.filePath]|
    ensures var lines, at := WindowOf(files, m, window), MatchIndex(m, window);
      at < |lines| && lines[at] == files[m.filePath][m.line - 1]
  {
  }

  /** The stretch `lo..hi` of a window of `n` lines holds two of its offsets. */
  predicate Joins(lo: nat, hi: nat, at: int, i: nat, n: nat) {
    lo <= at < hi <= n && lo <= i < hi
  }

  /** No stretch that joins `at` to a unique offset is shorter than the one to the nearest. */
  lemma NearestIsShortest(unique: nat -> bool, lines: Lines, at: nat, lo: nat, hi: nat, i: nat)
    requires at < |lines| && Joins(lo, hi, at, i, |lines|) && unique(i)
    ensures var u := Nearest(unique, at, |lines|);
      u.Some? && |Block(lines, u.value, at)| == Abs(u.value - at) + 1 <= hi - lo
  {
    var u := Nearest(unique, at, |lines|).value;
    assert Abs(u - at) <= Abs(i - at);
  }

  /**
   * The suggested block is a stretch of the window that joins the match's line to a unique line, and no
   * stretch that does is shorter.
   */
  lemma BlockIsShortest(
      files: Files, m: Match, all: seq<Match>, window: nat, lo: nat, hi: nat, i: nat)
    requires m.filePath in files && m.line <= |files[m.filePath]|
    requires Joins(lo, hi, MatchIndex(m, window), i, |WindowOf(files, m, window)|)
    requires IsUnique(files, m, all, window, i)
    ensures SuggestAt(files, m, all, window).Some?
    ensures |SuggestAt(files, m, all, window).value| <= hi - lo
  {
    MatchIsInWindow(files, m, window);
    NearestIsShortest(UniqueIn(files, m, all, window), WindowOf(files, m, window), MatchIndex(m, window), lo, hi, i);
  }

  lemma BlockJoins(files: Files, m: Match, all: seq<Match>, window: nat) returns (lo: nat, hi: nat, u: nat)
    requires m.filePath in files && m.line <= |files[m.filePath]|
    requires SuggestAt(files, m, all, window).Some?
    ensures Joins(lo, hi, MatchIndex(m, window), u, |WindowOf(files, m, window)|)
    ensures IsUnique(files, m, all, window, u)
    ensures SuggestAt(files, m, all, window).value == WindowOf(files, m, window)[lo..hi]
  {
    MatchIsInWindow(files, m, window);
    var lines, at := WindowOf(files, m, window), MatchIndex(m, window);
    u := Nearest(UniqueIn(files, m, all, window), at, |lines|).value;
    lo, hi := Min(u, at), Max(u, at) + 1;
  }

  lemma OccursShows(window: Lines, block: Lines, k: nat, i: nat)
    requires OccursAt(window, block, k) && i < |block|
    ensures Shows(window, Trim(block[i]))
  {
    assert Trim(window[k + i]) == Trim(block[i]);
  }

  /** A block that holds a unique line occurs in no rival's window. */
  lemma UniqueLineDisambiguates(
      files: Files, m: Match, all: seq<Match>, window: nat, block: Lines, i: nat, u: nat, other: Match, k: nat)
    requires IsUnique(files, m, all, window, u) && i < |block| && block[i] == WindowOf(files, m, window)[u]
    requires other in all && Rivals(files, m, other)
    ensures !OccursAt(WindowOf(files, other, window), block, k)
  {
    if OccursAt(WindowOf(files, other, window), block, k) {
      NoRivalShowsMeans(files, m, all, window, Trim(block[i]));
      OccursShows(WindowOf(files, other, window), block, k, i);
    }
  }

  lemma SliceHolds(lines: Lines, lo: nat, hi: nat, u: nat)
    requires lo <= u < hi <= |lines|
    ensures lines[lo..hi][u - lo] == lines[u]
  {
  }

  /** The suggested block tells the match from every other one whose file can be read. */
  lemma BlockDisambiguates(
      files: Files, m: Match, all: seq<Match>, window: nat, block: Lines, other: Match, k: nat)
    requires m.filePath in files && m.line <= |files[m.filePath]|
    requires SuggestAt(files, m, all, window) == Some(block) && other in all && Rivals(files, m, other)
    ensures !OccursAt(WindowOf(files, other, window), block, k)
  {
    var lo, hi, u := BlockJoins(files, m, all, window);
    SliceHolds(WindowOf(files, m, window), lo, hi, u);
    UniqueLineDisambiguates(files, m, all, window, block, u - lo, u, other, k);
  }

  lemma BlockHoldsMatch(files: Files, m: Match, all: seq<Match>, window: nat)
    requires m.filePath in files && m.line <= |files[m.filePath]|
    requires SuggestAt(files, m, all, window).Some?
    ensures files[m.filePath][m.line - 1] in SuggestAt(files, m, all, window).value
  {
    var lo, hi, u := BlockJoins(files, m, all, window);
    MatchIsInWindow(files, m, window);
    var at := MatchIndex(m, window);
    assert WindowOf(files, m, window)[lo..hi][at - lo] == files[m.filePath][m.line - 1];
  }

  /** The block has the match's line and occurs in no rival's window of this size. */
  ghost predicate Disambiguates(files: Files, m: Match, all: seq<Match>, window: nat, block: Lines) {
    && m.filePath in files && m.line <= |files[m.filePath]|
    && files[m.filePath][m.line - 1] in block
    && forall other, k: nat | other in all && Rivals(files, m, other) ::
         !OccursAt(WindowOf(files, other, window), block, k)
  }

  /**
   * The suggestion comes from the smallest window that has a unique line, holds the match's line and
   * occurs in no rival's window of that size; there is none exactly when no window has a unique line.
   */
  lemma SuggestionDisambiguates(files: Files, m: Match, all: seq<Match>) returns (w: nat)
    requires m.filePath in files && m.line <= |files[m.filePath]|
    ensures match Suggested(files, m, all)
      case None => forall v: nat | IsWindowSize(v) :: !HasUnique(files, m, all, v)
      case Some(block) =>
        && IsWindowSize(w) && HasUnique(files, m, all, w)
        && (forall v: nat | IsWindowSize(v) && v < w :: !HasUnique(files, m, all, v))
        && Disambiguates(files, m, all, w, block)
  {
    var suggest := Suggester(files, m, all);
    w := SmallestWindowIsUsed(suggest, SOFT_CONTEXT_LINES);
    forall v: nat ensures suggest(v).Some? <==> HasUnique(files, m, all, v) {
      SuggestsExactlyWithUnique(files, m, all, v);
    }
    if Suggested(files, m, all).Some? {
      assert SuggestAt(files, m, all, w) == suggest(w);
      BlockHoldsMatch(files, m, all, w);
      forall other, k: nat | other in all && Rivals(files, m, other)
        ensures !OccursAt(WindowOf(files, other, w), Suggested(files, m, all).value, k)
      {
        BlockDisambiguates(files, m, all, w, Suggested(files, m, all).value, other, k);
      }
    }
  }

  // ---------------------------------------------------------------- blocks without a unique line

  const A: Text := [97]
  const B: Text := [98]
  const X: Text := [120]

  lemma TrimOfLetter(line: Text)
    requires line == A || line == B || line == X
    ensures Trim(line) == line
  {
  }

  /** Two files with the same two lines in opposite order. */
  function TwoFiles(): Files {
    map["f" := [A, B], "g" := [B, A]]
  }

  lemma NoLineIsUnique(window: nat, i: nat)
    requires window >= 2
    ensures !IsUnique(TwoFiles(), Match("f", 1), [Match("f", 1), Match("g", 1)], window, i)
  {
    var files, m, other := TwoFiles(), Match("f", 1), Match("g", 1);
    var lines, rival := WindowOf(files, m, window), WindowOf(files, other, window);
    assert lines == [A, B] && rival == [B, A];
    TrimOfLetter(A);
    TrimOfLetter(B);
    if i < 2 {
      assert Trim(rival[1 - i]) == Trim(lines[i]);
      assert Shows(rival, Trim(lines[i]));
      assert Rivals(files, m, other) && other in [m, other];
      NoRivalShowsMeans(files, m, [m, other], window, Trim(lines[i]));
    }
  }

  /**
   * A block can tell a match from the others without a unique line in it: here the two lines of one file
   * do not occur in this order in the other, and still nothing is suggested.
   */
  lemma BlocksWithoutUniqueLinesAreMissed(window: nat, k: nat)
    requires IsWindowSize(window)
    ensures Suggested(TwoFiles(), Match("f", 1), [Match("f", 1), Match("g", 1)]).None?
    ensures !OccursAt(WindowOf(TwoFiles(), Match("g", 1), window), [A, B], k)
  {
    var files, m, all := TwoFiles(), Match("f", 1), [Match("f", 1), Match("g", 1)];
    var w := SuggestionDisambiguates(files, m, all);
    forall v: nat | IsWindowSize(v) ensures !HasUnique(files, m, all, v) {
      forall i: nat ensures !IsUnique(files, m, all, v, i) {
        NoLineIsUnique(v, i);
      }
    }
    var rival := WindowOf(files, Match("g", 1), window);
    assert rival == [B, A];
    TrimOfLetter(A);
    TrimOfLetter(B);
    assert k == 0 ==> Trim(rival[k + 0]) != Trim([A, B][0]);
  }

  // ---------------------------------------------------------------- blocks that could be smaller

  /** The first file has a line of its own in front. */
  function FilesWithX(): Files {
    map["f" := [X, A, B], "g" := [B, A]]
  }

  const LAST_OF_THREE := Match("f", 3)
  const FIRST_OF_TWO := Match("g", 1)

  lemma WindowsWithX()
    ensures WindowOf(FilesWithX(), LAST_OF_THREE, 5) == [X, A, B] && MatchIndex(LAST_OF_THREE, 5) == 2
    ensures WindowOf(FilesWithX(), FIRST_OF_TWO, 5) == [B, A]
  {
  }

  lemma OnlyXIsUnique(i: nat)
    ensures IsUnique(FilesWithX(), LAST_OF_THREE, [LAST_OF_THREE, FIRST_OF_TWO], 5, i) <==> i == 0
  {
    var files, all := FilesWithX(), [LAST_OF_THREE, FIRST_OF_TWO];
    WindowsWithX();
    TrimOfLetter(A);
    TrimOfLetter(B);
    TrimOfLetter(X);
    var lines, rival := [X, A, B], [B, A];
    if i < 3 {
      NoRivalShowsMeans(files, LAST_OF_THREE, all, 5, Trim(lines[i]));
      assert Rivals(files, LAST_OF_THREE, FIRST_OF_TWO) && FIRST_OF_TWO in all;
      assert i > 0 ==> Trim(rival[2 - i]) == Trim(lines[i]);
    }
  }

  /** The nearest unique line is two lines up, so all three are suggested. */
  lemma ThreeLinesSuggested()
    ensures SuggestAt(FilesWithX(), LAST_OF_THREE, [LAST_OF_THREE, FIRST_OF_TWO], 5) == Some([X, A, B])
  {
    var files, all := FilesWithX(), [LAST_OF_THREE, FIRST_OF_TWO];
    var unique := UniqueIn(files, LAST_OF_THREE, all, 5);
    WindowsWithX();
    forall i: nat ensures unique(i) <==> i == 0 {
      OnlyXIsUnique(i);
    }
    assert Nearest(unique, 2, 3) == Some(0);
  }

  /**
   * The block need not be the smallest that tells the match from the others: here three lines are
   * suggested, though the last two, the match's among them, occur in no rival's window either.
   */
  lemma SmallerBlocksAreMissed(k: nat)
    ensures Suggested(FilesWithX(), LAST_OF_THREE, [LAST_OF_THREE, FIRST_OF_TWO]) == Some([X, A, B])
    ensures FilesWithX()["f"][LAST_OF_THREE.line - 1] in [A, B]
    ensures !OccursAt(WindowOf(FilesWithX(), FIRST_OF_TWO, 5), [A, B], k)
  {
    ThreeLinesSuggested();
    WindowTried(Suggester(FilesWithX(), LAST_OF_THREE, [LAST_OF_THREE, FIRST_OF_TWO]), 5, Some([X, A, B]));
    WindowsWithX();
    TrimOfLetter(A);
    TrimOfLetter(B);
    assert k == 0 ==> Trim([B, A][k + 0]) != Trim([A, B][0]);
  }

  // ---------------------------------------------------------------- the loops

  lemma RivalShows(files: Files, m: Match, all: seq<Match>, window: nat, trimmed: Text, k: nat)
    requires k < |all| && Rivals(files, m, all[k]) && Shows(WindowOf(files, all[k], window), trimmed)
    ensures !NoRivalShows(files, m, all, window, trimmed)
  {
    NoRivalShowsMeans(files, m, all, window, trimmed);
  }

  method CheckUnique(files: Files, m: Match, all: seq<Match>, window: nat, i: nat) returns (unique: bool)
    requires i < |WindowOf(files, m, window)|
    ensures unique == IsUnique(files, m, all, window, i)
  {
    var trimmed := Trim(WindowOf(files, m, window)[i]);
    if trimmed == [] {
      return false;
    }
    for k := 0 to |all|
      invariant NoRivalShows(files, m, all[..k], window, trimmed)
    {
      var other := all[k];
      assert all[..k + 1][..k] == all[..k];
      if other != m && other.filePath in files {
        if Shows(WindowOf(files, other, window), trimmed) {
          RivalShows(files, m, all, window, trimmed, k);
          return false;
        }
      }
    }
    assert all[..|all|] == all;
    return true;
  }

  /** The nearest of the offsets found, the first of two. */
  function FirstNearest(found: seq<nat>, at: int): Option<nat> {
    if found == [] then None
    else
      var before, last := FirstNearest(found[..|found| - 1], at), found[|found| - 1];
      if before.Some? && Abs(before.value - at) <= Abs(last - at) then before else Some(last)
  }

  /** The unique ones of the first `n` offsets, in order. */
  function Offsets(unique: nat -> bool, n: nat): seq<nat> {
    if n == 0 then [] else Offsets(unique, n - 1) + if unique(n - 1) then [n - 1] else []
  }

  lemma {:induction false} NearestOfOffsets(unique: nat -> bool, at: int, n: nat)
    ensures FirstNearest(Offsets(unique, n), at) == Nearest(unique, at, n)
    decreases n
  {
    if n > 0 {
      NearestOfOffsets(unique, at, n - 1);
      var found := Offsets(unique, n - 1);
      if unique(n - 1) {
        assert Offsets(unique, n) == found + [n - 1];
        assert (found + [n - 1])[..|found|] == found;
      } else {
        assert Offsets(unique, n) == found;
      }
    }
  }

  /** The loop over the lines of a window collects its unique offsets. */
  method FindUnique(files: Files, m: Match, all: seq<Match>, window: nat, ghost unique: nat -> bool)
    returns (uniqueLines: seq<nat>)
    requires forall i: nat | i < |WindowOf(files, m, window)| :: unique(i) == IsUnique(files, m, all, window, i)
    ensures uniqueLines == Offsets(unique, |WindowOf(files, m, window)|)
  {
    uniqueLines := [];
    for i := 0 to |WindowOf(files, m, window)|
      invariant uniqueLines == Offsets(unique, i)
    {
      var isUnique := CheckUnique(files, m, all, window, i);
      if isUnique {
        uniqueLines := uniqueLines + [i];
      }
    }
  }

  method PickNearest(found: seq<nat>, at: int) returns (nearest: Option<nat>)
    ensures nearest == FirstNearest(found, at)
  {
    if |found| == 0 {
      return None;
    }
    var best := found[0];
    assert found[..1] == [found[0]] && [found[0]][..0] == [];
    for k := 1 to |found|
      invariant FirstNearest(found[..k], at) == Some(best)
    {
      assert found[..k + 1][..k] == found[..k];
      if Abs(found[k] - at) < Abs(best - at) {
        best := found[k];
      }
    }
    assert found[..|found|] == found;
    return Some(best);
  }

  method SuggestInWindow(files: Files, m: Match, all: seq<Match>, window: nat) returns (suggestion: Option<Lines>)
    ensures suggestion == Suggester(files, m, all)(window)
  {
    var lines, at := WindowOf(files, m, window), MatchIndex(m, window);
    var uniqueLines := FindUnique(files, m, all, window, UniqueIn(files, m, all, window));
    NearestOfOffsets(UniqueIn(files, m, all, window), at, |lines|);
    var nearest := PickNearest(uniqueLines, at);
    return if nearest.None? then None else Some(Block(lines, nearest.value, at));
  }

  lemma WindowTried(suggest: nat -> Option<Lines>, window: nat, found: Option<Lines>)
    requires window <= HARD_CONTEXT_LINES && found == suggest(window)
    ensures SuggestFrom(suggest, window) == if found.Some? then found else SuggestFrom(suggest, window + EXPANSION_STEP)
  {
  }

  /** The loop over window sizes. */
  method TryWindows(files: Files, m: Match, all: seq<Match>, soft: nat) returns (suggestion: Option<Lines>)
    ensures suggestion == SuggestFrom(Suggester(files, m, all), soft)
  {
    ghost var suggest := Suggester(files, m, all);
    var window := soft;
    while window <= HARD_CONTEXT_LINES
      invariant SuggestFrom(suggest, soft) == SuggestFrom(suggest, window)
      decreases HARD_CONTEXT_LINES - window
    {
      suggestion := SuggestInWindow(files, m, all, window);
      WindowTried(suggest, window, suggestion);
      if suggestion.Some? {
        return;
      }
      window := window + EXPANSION_STEP;
    }
    return None;
  }

  method SuggestContext(files: Files, m: Match, all: seq<Match>) returns (suggestion: Option<Lines>)
    ensures suggestion == Suggested(files, m, all)
  {
    if m.filePath !in files {
      return None;
    }
    suggestion := TryWindows(files, m, all, SOFT_CONTEXT_LINES);
  }
}
