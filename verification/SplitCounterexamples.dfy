/**
 * Where the splitter's comments promise more than it does. Skipping a window of line breaks lets a
 * larger reservation get by with fewer chunks, so the reservation loop can swing between two counts
 * for ever, and the plan it stops on can hold messages over the chunk budget.
 */
module SplitCounterexamples {
  import opened Text
  import opened Headings
  import opened Options
  import opened PackChunks
  import opened Sequences
  import opened SplitMessage
  import opened SplitTheorems

  const CHUNK_BUDGET := 13

  /** A first line that fills the budget, seven short words far apart, and a short end. */
  predicate Letter(k: nat) {
    || k < 13
    || 15 <= k < 18 || 26 <= k < 29 || 37 <= k < 40 || 48 <= k < 51
    || 59 <= k < 62 || 70 <= k < 73 || 81 <= k < 84
    || 105 <= k < 107 || k == 109
  }

  function Swinging(): (t: Text)
    ensures |t| == 110
    ensures forall k | 0 <= k < 110 :: t[k] == if Letter(k) then 97 else LF
  {
    seq(110, k requires 0 <= k < 110 => if Letter(k) then 97 else LF)
  }

  /** The text ruled: a text without `#` has no headings. */
  ghost predicate IsSwinging(d: Doc) {
    && |d.text| == 110
    && (forall k | 0 <= k < 110 :: d.text[k] == if Letter(k) then 97 else LF)
    && (forall e | 0 <= e <= 110 :: !d.headingEnds[e])
  }

  lemma NoHashNoHeading(line: Text)
    requires HASH !in line
    ensures !IsHeadingLine(line)
  {
    assert forall k | 0 <= k < |line| :: line[k] != HASH;
    assert RunEnd(line, IsHash, RunEnd(line, IsSpaceBar, 0)) == RunEnd(line, IsSpaceBar, 0);
  }

  lemma NoHashInLastLine(text: Text, end: nat)
    requires 0 < end <= |text| && HASH !in text
    ensures HASH !in LastLine(text, end)
  {
  }

  lemma NoHashNoHeadingEnd(text: Text, e: nat)
    requires e <= |text| && HASH !in text
    ensures !EndsWithHeadingLine(text, e)
  {
    if e > 0 {
      NoHashInLastLine(text, e);
      NoHashNoHeading(LastLine(text, e));
    }
  }

  lemma NoHeadings(text: Text, e: nat)
    requires e <= |text| && HASH !in text
    ensures !Rule(text).headingEnds[e]
  {
    TabulateAt(HeadingJudge(text), |text|, e);
    NoHashNoHeadingEnd(text, e);
  }

  lemma SwingingRuled()
    ensures IsSwinging(Rule(Swinging()))
  {
    forall e: nat | e <= 110 ensures !Rule(Swinging()).headingEnds[e] {
      NoHeadings(Swinging(), e);
    }
  }

  /** The offsets `lo..hi` lie in one run of line feeds. */
  predicate Gap(lo: nat, hi: nat) {
    && 13 <= lo
    && (hi <= 15 || 18 <= lo) && (hi <= 26 || 29 <= lo) && (hi <= 37 || 40 <= lo) && (hi <= 48 || 51 <= lo)
    && (hi <= 59 || 62 <= lo) && (hi <= 70 || 73 <= lo) && (hi <= 81 || 84 <= lo)
    && (hi <= 105 || 107 <= lo) && hi <= 109
  }

  /** The paragraph breaks at which the windows of a run are cut, each with a letter of the window. */
  datatype Cuts = LastWindow | At(a: nat, letter: nat, next: Cuts) | Blank(a: nat, next: Cuts)

  /** The window of `budget` at `pos` has its last paragraph break at `a`. */
  predicate CutAt(budget: nat, pos: nat, a: nat) {
    && pos <= a < pos + budget < 110
    && !Letter(a) && !Letter(a + 1)
    && forall b | a < b < pos + budget :: Letter(b) || Letter(b + 1)
  }

  /** There is a letter before the break. */
  predicate Wordy(pos: nat, letter: nat, a: nat) {
    pos <= letter < a && Letter(letter)
  }

  /** From `pos` on the windows of `budget` are cut at these breaks, and `n` of them hold words. */
  predicate Route(budget: nat, pos: nat, cuts: Cuts, n: int)
    decreases cuts
  {
    match cuts
    case LastWindow => pos < 110 <= pos + budget && n == 1
    case At(a, letter, next) =>
      CutAt(budget, pos, a) && Wordy(pos, letter, a) && Route(budget, a + 2, next, n - 1)
    case Blank(a, next) =>
      CutAt(budget, pos, a) && Gap(pos, a + 1) && Route(budget, a + 2, next, n)
  }

  lemma WindowTurn(d: Doc, budget: nat, pos: nat, a: nat)
    requires IsSwinging(d) && CutAt(budget, pos, a)
    ensures TurnAt(d, pos, budget, true)
         == Turn(if AllBreaks(d.text, pos, a + 1) then [] else [Chunk(pos, a + 1 - pos)], a + 2)
  {
    assert ParagraphBreakAt(d, a);
    assert NoParagraphBreak(d, a + 1, pos + budget);
    assert LastParagraphBreak(d, pos, pos + budget - 1) == a;
  }

  lemma PackWindowTurn(d: Doc, budget: nat, pos: nat, a: nat, rest: int)
    requires IsSwinging(d) && 1 <= budget <= CHUNK_BUDGET && CutAt(budget, pos, a)
    requires |Pack(d, a + 2, true, CHUNK_BUDGET, CHUNK_BUDGET - budget)| == rest
    ensures |Pack(d, pos, true, CHUNK_BUDGET, CHUNK_BUDGET - budget)|
         == if AllBreaks(d.text, pos, a + 1) then rest else rest + 1
  {
    assert Budget(CHUNK_BUDGET, CHUNK_BUDGET - budget, true) == budget;
    WindowTurn(d, budget, pos, a);
  }

  lemma LastTurn(d: Doc, budget: nat, pos: nat)
    requires IsSwinging(d) && 1 <= budget <= CHUNK_BUDGET && pos < 110 <= pos + budget
    ensures |Pack(d, pos, true, CHUNK_BUDGET, CHUNK_BUDGET - budget)| == 1
  {
    assert Budget(CHUNK_BUDGET, CHUNK_BUDGET - budget, true) == budget;
    assert Letter(109);
    assert !AllBreaks(d.text, pos, 110);
    assert Pack(d, 110, true, CHUNK_BUDGET, CHUNK_BUDGET - budget) == [];
  }

  /** How many chunks are packed from each offset on, for windows of `budget`. */
  ghost function CountFrom(d: Doc, budget: nat): nat -> nat
    requires budget <= CHUNK_BUDGET
  {
    (pos: nat) => if pos <= |d.text| then |Pack(d, pos, true, CHUNK_BUDGET, CHUNK_BUDGET - budget)| else 0
  }

  /** A count that goes up by one over a window with words, stays over a blank one, and ends on one. */
  ghost predicate CountsWindows(count: nat -> nat, budget: nat) {
    && (forall pos: nat | pos < 110 <= pos + budget :: count(pos) == 1)
    && (forall pos: nat, a: nat, letter: nat | CutAt(budget, pos, a) && Wordy(pos, letter, a) ::
          count(pos) == count(a + 2) + 1)
    && (forall pos: nat, a: nat | CutAt(budget, pos, a) && Gap(pos, a + 1) :: count(pos) == count(a + 2))
  }

  lemma PackingCountsWindows(d: Doc, budget: nat)
    requires IsSwinging(d) && 1 <= budget <= CHUNK_BUDGET
    ensures CountsWindows(CountFrom(d, budget), budget)
  {
    var count := CountFrom(d, budget);
    forall pos: nat | pos < 110 <= pos + budget ensures count(pos) == 1 {
      LastTurn(d, budget, pos);
    }
    forall pos: nat, a: nat, letter: nat | CutAt(budget, pos, a) && Wordy(pos, letter, a)
      ensures count(pos) == count(a + 2) + 1
    {
      assert !AllBreaks(d.text, pos, a + 1);
      PackWindowTurn(d, budget, pos, a, count(a + 2));
    }
    forall pos: nat, a: nat | CutAt(budget, pos, a) && Gap(pos, a + 1)
      ensures count(pos) == count(a + 2)
    {
      PackWindowTurn(d, budget, pos, a, count(a + 2));
    }
  }

  lemma {:induction false} RouteCount(count: nat -> nat, budget: nat, pos: nat, cuts: Cuts, n: int)
    requires CountsWindows(count, budget) && Route(budget, pos, cuts, n)
    ensures count(pos) == n
    decreases cuts
  {
    match cuts
    case LastWindow =>
    case At(a, letter, next) =>
      RouteCount(count, budget, a + 2, next, n - 1);
    case Blank(a, next) =>
      RouteCount(count, budget, a + 2, next, n);
  }

  /** The first window is cut at the line feed after the first line, whatever is reserved. */
  lemma FirstWindow(d: Doc, reserve: nat)
    requires IsSwinging(d)
    ensures Pack(d, 0, false, CHUNK_BUDGET, reserve)
         == [Chunk(0, 13)] + Pack(d, 14, true, CHUNK_BUDGET, reserve)
  {
    assert NoParagraphBreak(d, 0, 13);
    assert LineBreakAt(d, 13);
    assert LastLineBreak(d, 0, 13) == 13;
    assert Letter(0);
    assert TurnAt(d, 0, 13, false) == Turn([Chunk(0, 13)], 14);
  }

  lemma RuledCountOnRoute(d: Doc, budget: nat, cuts: Cuts, n: int)
    requires IsSwinging(d) && 1 <= budget <= CHUNK_BUDGET && Route(budget, 14, cuts, n)
    ensures |Pack(d, 0, false, CHUNK_BUDGET, CHUNK_BUDGET - budget)| == 1 + n
  {
    FirstWindow(d, CHUNK_BUDGET - budget);
    PackingCountsWindows(d, budget);
    RouteCount(CountFrom(d, budget), budget, 14, cuts, n);
  }

  lemma CountOnRoute(budget: nat, cuts: Cuts, n: int)
    requires 1 <= budget <= CHUNK_BUDGET && Route(budget, 14, cuts, n)
    ensures |PackAll(Swinging(), CHUNK_BUDGET, CHUNK_BUDGET - budget)| == 1 + n
  {
    SwingingRuled();
    RuledCountOnRoute(Rule(Swinging()), budget, cuts, n);
  }

  lemma RouteUnreservedEnd() returns (cuts: Cuts)
    ensures Route(13, 37, cuts, 7)
  {
    cuts := At(93, 81, At(107, 105, LastWindow));
    assert Route(13, 81, cuts, 3);
    cuts := At(68, 59, At(79, 70, cuts));
    assert Route(13, 59, cuts, 5);
    cuts := At(46, 37, At(57, 48, cuts));
  }

  lemma RouteUnreserved() returns (cuts: Cuts)
    ensures Route(13, 14, cuts, 9)
  {
    cuts := RouteUnreservedEnd();
    cuts := At(24, 15, At(35, 26, cuts));
  }

  lemma CountUnreserved()
    ensures |PackAll(Swinging(), CHUNK_BUDGET, 0)| == 10
  {
    var cuts := RouteUnreserved();
    CountOnRoute(13, cuts, 9);
  }

  lemma RouteForOneDigitEnd1() returns (cuts: Cuts)
    ensures Route(7, 64, cuts, 4)
  {
    cuts := Blank(100, At(107, 105, LastWindow));
    assert Route(7, 94, cuts, 2);
    cuts := At(84, 81, Blank(92, cuts));
    assert Route(7, 78, cuts, 3);
    cuts := Blank(68, At(76, 70, cuts));
  }

  lemma RouteForOneDigitEnd2() returns (cuts: Cuts)
    ensures Route(7, 22, cuts, 8)
  {
    cuts := RouteForOneDigitEnd1();
    cuts := At(54, 48, At(62, 59, cuts));
    assert Route(7, 48, cuts, 6);
    cuts := At(40, 37, Blank(46, cuts));
    assert Route(7, 34, cuts, 7);
    cuts := Blank(24, At(32, 26, cuts));
  }

  lemma RouteForOneDigit() returns (cuts: Cuts)
    ensures Route(7, 14, cuts, 9)
  {
    cuts := RouteForOneDigitEnd2();
    cuts := At(20, 15, cuts);
  }

  lemma CountForOneDigit()
    ensures |PackAll(Swinging(), CHUNK_BUDGET, 6)| == 10
  {
    var cuts := RouteForOneDigit();
    CountOnRoute(7, cuts, 9);
  }

  lemma RouteForTwoDigitsEnd1() returns (cuts: Cuts)
    ensures Route(5, 70, cuts, 3)
  {
    cuts := Blank(97, Blank(103, LastWindow));
    assert Route(5, 93, cuts, 1);
    cuts := At(85, 81, Blank(91, cuts));
    assert Route(5, 81, cuts, 2);
    cuts := At(74, 70, Blank(79, cuts));
  }

  lemma RouteForTwoDigitsEnd2() returns (cuts: Cuts)
    ensures Route(5, 37, cuts, 6)
  {
    cuts := RouteForTwoDigitsEnd1();
    cuts := At(63, 59, Blank(68, cuts));
    assert Route(5, 59, cuts, 4);
    cuts := At(52, 48, Blank(57, cuts));
    assert Route(5, 48, cuts, 5);
    cuts := At(41, 37, Blank(46, cuts));
  }

  lemma RouteForTwoDigits() returns (cuts: Cuts)
    ensures Route(5, 14, cuts, 8)
  {
    cuts := RouteForTwoDigitsEnd2();
    cuts := At(30, 26, Blank(35, cuts));
    assert Route(5, 26, cuts, 7);
    cuts := At(18, 15, Blank(24, cuts));
  }

  lemma CountForTwoDigits()
    ensures |PackAll(Swinging(), CHUNK_BUDGET, 8)| == 9
  {
    var cuts := RouteForTwoDigits();
    CountOnRoute(5, cuts, 8);
  }

  /** A larger reservation can pack fewer chunks. */
  lemma CountCanFall()
    ensures |PackAll(Swinging(), CHUNK_BUDGET, 8)| < |PackAll(Swinging(), CHUNK_BUDGET, 6)|
  {
    CountForOneDigit();
    CountForTwoDigits();
  }

  /** Where a number and another one lead to each other the loop swings between them. */
  lemma {:induction false} FixSwings(f: nat -> nat, a: nat, b: nat, turns: nat)
    requires f(a) == b && f(b) == a && a != b && turns >= 1
    ensures FixFrom(f, a, 2 * turns) == b
    decreases turns
  {
    assert FixFrom(f, a, 2 * turns) == FixFrom(f, b, 2 * turns - 1);
    if turns > 1 {
      assert FixFrom(f, b, 2 * turns - 1) == FixFrom(f, a, 2 * (turns - 1));
      FixSwings(f, a, b, turns - 1);
    }
  }

  lemma WidthsForNineAndTen()
    ensures |DefaultContinuation(9, 9)| == 6 && |DefaultContinuation(10, 10)| == 8
  {
    assert Digits(9) == 1 && Digits(10) == 2;
  }

  lemma PackedForNineAndTen()
    ensures PackFor(Swinging(), CHUNK_BUDGET, DefaultContinuation, 9) == PackAll(Swinging(), CHUNK_BUDGET, 6)
    ensures |PackFor(Swinging(), CHUNK_BUDGET, DefaultContinuation, 9)| == 10
    ensures |PackFor(Swinging(), CHUNK_BUDGET, DefaultContinuation, 10)| == 9
  {
    WidthsForNineAndTen();
    CountForOneDigit();
    CountForTwoDigits();
  }

  /** With the default markers the reservation loop never becomes self-consistent. */
  lemma ReservationCanSwing()
    ensures Reserve(Swinging(), CHUNK_BUDGET, DefaultContinuation)
         == (PackAll(Swinging(), CHUNK_BUDGET, 6), 9)
    ensures |PackAll(Swinging(), CHUNK_BUDGET, 6)| == 10
  {
    CountUnreserved();
    PackedForNineAndTen();
    FixSwings(CountFor(Swinging(), CHUNK_BUDGET, DefaultContinuation), 10, 9, 32);
    ReserveIsFix(Swinging(), CHUNK_BUDGET, DefaultContinuation, 10, MAX_MARKER_RESERVE_ITERATIONS);
  }

  lemma SecondWindow(d: Doc)
    requires IsSwinging(d)
    ensures |Pack(d, 14, true, CHUNK_BUDGET, 6)| > 0 && Pack(d, 14, true, CHUNK_BUDGET, 6)[0] == Chunk(14, 7)
  {
    assert Budget(CHUNK_BUDGET, 6, true) == 7;
    WindowTurn(d, 7, 14, 20);
    assert Letter(15);
    assert !AllBreaks(d.text, 14, 21);
  }

  /** Ten chunks, the second of them as long as the reservation for one digit allows. */
  ghost predicate TenChunks(packed: seq<Chunk>) {
    && |packed| == 10
    && packed[1] == Chunk(14, 7)
    && FitsBudgets(packed, false, CHUNK_BUDGET, 6)
  }

  lemma PackedIsTenChunks()
    ensures TenChunks(PackAll(Swinging(), CHUNK_BUDGET, 6))
  {
    SwingingRuled();
    CountForOneDigit();
    FirstWindow(Rule(Swinging()), 6);
    SecondWindow(Rule(Swinging()));
    PackSizes(Rule(Swinging()), 0, false, CHUNK_BUDGET, 6);
  }

  lemma {:induction false} CostBound(packed: seq<Chunk>, marker: ContinuationMarker, count: nat, total: nat)
    requires count <= |packed| && FitsBudgets(packed, false, CHUNK_BUDGET, 6)
    requires forall n: nat | n <= count :: |marker(n, total)| <= 8
    ensures FullCost(packed, marker, count, total) <= 21 * count
    decreases count
  {
    if count > 0 {
      CostBound(packed, marker, count - 1, total);
    }
  }

  lemma TenMessages(text: Text, packed: seq<Chunk>, truncation: TruncationMarker)
    requires TenChunks(packed) && forall c | c in packed :: c.End() <= |text|
    ensures var out := Render(text,
        PlanFor(text, packed, CHUNK_BUDGET, 1000, DefaultContinuation, truncation),
        DefaultContinuation, truncation);
      |out| == 10 && |out[1]| == CHUNK_BUDGET + 1
  {
    forall n: nat | n <= 10 ensures |DefaultContinuation(n, 10)| <= 8 {
      DigitsMonotone(n, 10);
    }
    CostBound(packed, DefaultContinuation, 10, 10);
    MessagesAt(text, packed, DefaultContinuation, 10);
    assert Digits(2) == 1 && Digits(10) == 2;
  }

  /** The default markers and a ceiling that is out of reach. */
  function Roomy(): SplitOptions {
    SplitOptions(CHUNK_BUDGET, 1000, None, None)
  }

  /** With the default markers the second message of this text is one character over the chunk budget. */
  lemma MarkerCanPushAMessageOverBudget()
    ensures var out := Split(Swinging(), Roomy()).value;
      |out| == 10 && |out[1]| == CHUNK_BUDGET + 1
  {
    ReservationCanSwing();
    PackedIsTenChunks();
    PackedWithin(Swinging(), CHUNK_BUDGET, DefaultContinuation);
    TenMessages(Swinging(), PackAll(Swinging(), CHUNK_BUDGET, 6), DefaultTruncation);
  }

  // ---------------------------------------------------------------- what makes counts grow cannot be relaxed

  /** Four line feeds in a row, behind a first chunk that fills the budget. */
  const FOUR_BREAKS: Text := [97, 97, 97, 97, 97, LF, LF, LF, LF, 97, LF, LF, 97]

  lemma FourBreaksUnreserved(d: Doc)
    requires d.text == FOUR_BREAKS && forall e | 0 <= e <= 13 :: !d.headingEnds[e]
    ensures Pack(d, 0, false, 5, 0) == [Chunk(0, 5), Chunk(6, 5), Chunk(12, 1)]
  {
    assert LastParagraphBreak(d, 0, 4) == -1 && LineBreakAt(d, 5);
    assert d.text[0] != LF && TurnAt(d, 0, 5, false) == Turn([Chunk(0, 5)], 6);
    assert ParagraphBreakAt(d, 10);
    assert d.text[9] != LF && TurnAt(d, 6, 5, true) == Turn([Chunk(6, 5)], 12);
    assert d.text[12] != LF && TurnAt(d, 12, 5, true) == Turn([Chunk(12, 1)], 13);
    assert Pack(d, 13, true, 5, 0) == [];
    assert Pack(d, 12, true, 5, 0) == [Chunk(12, 1)];
    assert Pack(d, 6, true, 5, 0) == [Chunk(6, 5), Chunk(12, 1)];
  }

  lemma FourBreaksReserved(d: Doc)
    requires d.text == FOUR_BREAKS && forall e | 0 <= e <= 13 :: !d.headingEnds[e]
    ensures Pack(d, 0, false, 5, 1) == [Chunk(0, 5), Chunk(9, 4)]
  {
    assert LastParagraphBreak(d, 0, 4) == -1 && LineBreakAt(d, 5);
    assert d.text[0] != LF && TurnAt(d, 0, 5, false) == Turn([Chunk(0, 5)], 6);
    assert ParagraphBreakAt(d, 7) && !ParagraphBreakAt(d, 8) && !ParagraphBreakAt(d, 9);
    assert LastParagraphBreak(d, 6, 9) == 7;
    assert TurnAt(d, 6, 4, true) == Turn([], 9);
    assert d.text[9] != LF && TurnAt(d, 9, 4, true) == Turn([Chunk(9, 4)], 13);
    assert Pack(d, 13, true, 5, 1) == [];
    assert Pack(d, 9, true, 5, 1) == [Chunk(9, 4)];
    assert Pack(d, 6, true, 5, 1) == [Chunk(9, 4)];
  }

  /** With four line feeds in a row, and no heading, a larger reservation can pack fewer chunks. */
  lemma FourBreaksCanShrink()
    ensures |PackAll(FOUR_BREAKS, 5, 0)| == 3 && |PackAll(FOUR_BREAKS, 5, 1)| == 2
    ensures HASH !in FOUR_BREAKS
  {
    forall e: nat | e <= 13 ensures !Rule(FOUR_BREAKS).headingEnds[e] {
      NoHeadings(FOUR_BREAKS, e);
    }
    FourBreaksUnreserved(Rule(FOUR_BREAKS));
    FourBreaksReserved(Rule(FOUR_BREAKS));
  }

  /** A heading line with two line feeds behind it. */
  const HEADING_FIRST: Text := [HASH, HASH, HASH, LF, LF, 97, 97]

  lemma HashesAreHeading(line: Text)
    requires |line| == 3 && forall k | 0 <= k < 3 :: line[k] == HASH
    ensures IsHeadingLine(line)
  {
    assert AtxOpening(line, 0, 3);
    HeadingLineIsAtx(line);
  }

  lemma FirstLineEnds(text: Text, e: nat)
    requires |text| >= 4 && 3 <= e <= 4 && text[3] == LF && forall k | 0 <= k < 3 :: text[k] == HASH
    ensures LastLine(text, e) == text[..3]
  {
    assert LastLineFeed(text, 0) == -1;
    assert LastLineFeed(text, 1) == -1;
    assert LastLineFeed(text, 2) == -1;
  }

  lemma HeadingEndsFirst(e: nat)
    requires 3 <= e <= 4
    ensures Rule(HEADING_FIRST).headingEnds[e]
  {
    FirstLineEnds(HEADING_FIRST, e);
    HashesAreHeading(LastLine(HEADING_FIRST, e));
    TabulateAt(HeadingJudge(HEADING_FIRST), |HEADING_FIRST|, e);
  }

  lemma HeadingUnreserved(d: Doc)
    requires d.text == HEADING_FIRST && d.headingEnds[3] && d.headingEnds[4]
    ensures Pack(d, 0, false, 3, 0) == [Chunk(0, 3), Chunk(3, 3), Chunk(6, 1)]
  {
    assert NoLineBreak(d, 0, 7);
    assert d.text[0] != LF && TurnAt(d, 0, 3, false) == Turn([Chunk(0, 3)], 3);
    assert d.text[5] != LF && TurnAt(d, 3, 3, true) == Turn([Chunk(3, 3)], 6);
    assert d.text[6] != LF && TurnAt(d, 6, 3, true) == Turn([Chunk(6, 1)], 7);
    assert Pack(d, 7, true, 3, 0) == [];
    assert Pack(d, 6, true, 3, 0) == [Chunk(6, 1)];
    assert Pack(d, 3, true, 3, 0) == [Chunk(3, 3), Chunk(6, 1)];
  }

  lemma HeadingReserved(d: Doc)
    requires d.text == HEADING_FIRST && d.headingEnds[3] && d.headingEnds[4]
    ensures Pack(d, 0, false, 3, 1) == [Chunk(0, 3), Chunk(5, 2)]
  {
    assert NoLineBreak(d, 0, 7);
    assert d.text[0] != LF && TurnAt(d, 0, 3, false) == Turn([Chunk(0, 3)], 3);
    assert TurnAt(d, 3, 2, true) == Turn([], 5);
    assert d.text[5] != LF && TurnAt(d, 5, 2, true) == Turn([Chunk(5, 2)], 7);
    assert Pack(d, 7, true, 3, 1) == [];
    assert Pack(d, 5, true, 3, 1) == [Chunk(5, 2)];
    assert Pack(d, 3, true, 3, 1) == [Chunk(5, 2)];
  }

  lemma TwoBreaksAtMost(d: Doc)
    requires d.text == HEADING_FIRST
    ensures forall k: nat :: FewBreaksAt(d, k)
  {
    forall k: nat ensures FewBreaksAt(d, k) {
      assert k < 5 ==> d.text[k] != LF || d.text[k + 2] != LF;
    }
  }

  /** So it can with two line feeds behind a heading line, and never more than two in a row. */
  lemma BreakBehindHeadingCanShrink()
    ensures |PackAll(HEADING_FIRST, 3, 0)| == 3 && |PackAll(HEADING_FIRST, 3, 1)| == 2
    ensures forall k: nat :: FewBreaksAt(Rule(HEADING_FIRST), k)
  {
    HeadingEndsFirst(3);
    HeadingEndsFirst(4);
    HeadingUnreserved(Rule(HEADING_FIRST));
    HeadingReserved(Rule(HEADING_FIRST));
    TwoBreaksAtMost(Rule(HEADING_FIRST));
  }

  // ---------------------------------------------------------------- a tail that could be longer

  const LETTERS := 111
  const TAIL_BUDGET := 60

  function Letters(): (t: Text)
    ensures |t| == LETTERS && forall k | 0 <= k < LETTERS :: t[k] == 97
  {
    seq(LETTERS, _ => 97)
  }

  function TwoChunks(): seq<Chunk> {
    [Chunk(0, 60), Chunk(60, 51)]
  }

  ghost predicate OnlyLetters(d: Doc) {
    |d.text| == LETTERS && forall k | 0 <= k < LETTERS :: d.text[k] != LF
  }

  lemma LetterTurns(d: Doc, budget: nat)
    requires OnlyLetters(d) && 51 <= budget
    ensures TurnAt(d, 0, 60, false) == Turn([Chunk(0, 60)], 60)
    ensures TurnAt(d, 60, budget, true) == Turn([Chunk(60, 51)], 111)
  {
    assert NoLineBreak(d, 0, 61);
    assert d.text[0] != LF && d.text[60] != LF;
  }

  /** Cut at both budgets without a break: two chunks. */
  lemma LettersPackedFrom(d: Doc, reserve: nat)
    requires OnlyLetters(d) && reserve <= 9
    ensures Pack(d, 0, false, TAIL_BUDGET, reserve) == TwoChunks()
  {
    LetterTurns(d, 60 - reserve);
    assert Pack(d, 111, true, TAIL_BUDGET, reserve) == [];
    assert Pack(d, 60, true, TAIL_BUDGET, reserve) == [Chunk(60, 51)];
  }

  lemma LettersPacked(reserve: nat)
    requires reserve <= 9
    ensures PackAll(Letters(), TAIL_BUDGET, reserve) == TwoChunks()
  {
    LettersPackedFrom(Rule(Letters()), reserve);
  }

  /** A count that the first packing already has is kept. */
  lemma ReservedAtOnce(text: Text, maxChunk: nat, marker: ContinuationMarker, packed: seq<Chunk>)
    requires maxChunk >= 1
    requires PackAll(text, maxChunk, 0) == packed == PackFor(text, maxChunk, marker, |packed|)
    ensures Reserve(text, maxChunk, marker) == (packed, |packed|)
  {
  }

  lemma LettersReserved()
    ensures Reserve(Letters(), TAIL_BUDGET, DefaultContinuation).0 == TwoChunks()
  {
    LettersPacked(0);
    LettersPacked(6);
    assert |DefaultContinuation(2, 2)| == 6;
    ReservedAtOnce(Letters(), TAIL_BUDGET, DefaultContinuation, TwoChunks());
  }

  lemma TwoChunksAreOver(marker: ContinuationMarker)
    ensures FullCost(TwoChunks(), marker, 2, 2) > TAIL_BUDGET
  {
    assert FullCost(TwoChunks(), marker, 1, 2) == 60;
  }

  lemma OneMessageFits(truncation: TruncationMarker, marker: ContinuationMarker)
    requires |truncation(LETTERS)| == 49
    ensures WalkFrom(LETTERS, TwoChunks(), TAIL_BUDGET, TAIL_BUDGET, marker, truncation, 1) == 1
  {
    assert Feasible(LETTERS, TwoChunks(), TAIL_BUDGET, TAIL_BUDGET, marker, truncation, 1);
    assert WalkFrom(LETTERS, TwoChunks(), TAIL_BUDGET, TAIL_BUDGET, marker, truncation, 2) == 1;
  }

  /** The two chunks with their marker are over the ceiling, and a message that is cut off fits. */
  lemma LettersPlan()
    ensures PlanFor(Letters(), TwoChunks(), TAIL_BUDGET, TAIL_BUDGET, DefaultContinuation, DefaultTruncation)
      == Truncated([], 1, 0, TailCut(LETTERS, TAIL_BUDGET, DefaultTruncation))
  {
    assert Digits(111) == 3;
    TwoChunksAreOver(DefaultContinuation);
    OneMessageFits(DefaultTruncation, DefaultContinuation);
    assert TwoChunks()[..0] == [];
  }

  lemma SettledAtOnce(remaining: nat, budget: int, truncation: TruncationMarker, cut: nat)
    requires cut == Fit(remaining, budget, truncation, remaining) == Fit(remaining, budget, truncation, remaining - cut)
    ensures TailCut(remaining, budget, truncation) == cut
  {
  }

  lemma LettersCut()
    ensures TailCut(LETTERS, TAIL_BUDGET, DefaultTruncation) == 11
  {
    assert Digits(111) == 3 && Digits(100) == 3;
    SettledAtOnce(LETTERS, TAIL_BUDGET, DefaultTruncation, 11);
  }

  function SixtyAndSixty(): SplitOptions {
    SplitOptions(TAIL_BUDGET, TAIL_BUDGET, None, None)
  }

  lemma LettersChosen()
    ensures ChoosePlan(Letters(), TAIL_BUDGET, TAIL_BUDGET, DefaultContinuation, DefaultTruncation)
         == Truncated([], 1, 0, 11)
  {
    LettersReserved();
    LettersPlan();
    LettersCut();
    PackedWithin(Letters(), TAIL_BUDGET, DefaultContinuation);
  }

  lemma RenderedTail(text: Text, cut: nat, marker: ContinuationMarker, truncation: TruncationMarker)
    requires cut <= |text|
    ensures Render(text, Truncated([], 1, 0, cut), marker, truncation) == [text[..cut] + truncation(|text| - cut)]
  {
    assert text[0..0 + cut] == text[..cut];
  }

  /** 11 letters are sent and 100 reported as dropped, where 12 beside a report of 99 would have fitted too. */
  lemma TailCanBeTooShort()
    ensures Split(Letters(), SixtyAndSixty()) == Ok([Letters()[..11] + DefaultTruncation(100)])
    ensures |Letters()[..12] + DefaultTruncation(99)| == TAIL_BUDGET
  {
    LettersChosen();
    RenderedTail(Letters(), 11, DefaultContinuation, DefaultTruncation);
    assert Digits(99) == 2;
  }
}
