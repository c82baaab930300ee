/** Whether a chunk would leave a markdown heading as its last line. */
module Headings {
  import opened Text
  import opened Sequences

  /** `text.lastIndexOf('\n', from)`: a negative start position is clamped to 0. */
  function LastLineFeed(text: Text, from: int): (k: int)
    requires text != [] && from < |text|
    ensures -1 <= k < |text|
    decreases if from < 0 then 0 else from
  {
    if from <= 0 then (if text[0] == LF then 0 else -1)
    else if text[from] == LF then from
    else LastLineFeed(text, from - 1)
  }

  /** The expression `^ {0,3}#{1,6}(?:\t| |$)`, matched by measuring the two runs. */
  predicate IsHeadingLine(line: Text) {
    var spaces := RunEnd(line, IsSpaceBar, 0);
    var end := RunEnd(line, IsHash, spaces);
    && spaces <= 3
    && 1 <= end - spaces <= 6
    && (end == |line| || line[end] in {TAB, SPACE})
  }

  /** An ATX heading opening in the sense of section 4.2 of the CommonMark Spec. */
  ghost predicate AtxOpening(line: Text, spaces: nat, hashes: nat) {
    && spaces <= 3
    && 1 <= hashes <= 6
    && spaces + hashes <= |line|
    && (forall k | 0 <= k < spaces :: line[k] == SPACE)
    && (forall k | spaces <= k < spaces + hashes :: line[k] == HASH)
    && (spaces + hashes == |line| || line[spaces + hashes] in {TAB, SPACE})
  }

  /** Measuring maximal runs finds an opening exactly when some split of the line is one. */
  lemma HeadingLineIsAtx(line: Text)
    ensures IsHeadingLine(line) <==> exists s: nat, h: nat :: AtxOpening(line, s, h)
  {
    var spaces := RunEnd(line, IsSpaceBar, 0);
    var end := RunEnd(line, IsHash, spaces);
    if IsHeadingLine(line) {
      assert AtxOpening(line, spaces, end - spaces);
    }
    forall s: nat, h: nat | AtxOpening(line, s, h)
      ensures IsHeadingLine(line)
    {
      assert line[s] == HASH;
      assert s == spaces;
      assert s + h < |line| ==> line[s + h] != HASH;
      assert s + h == end;
    }
  }

  /** The offset less a line feed that closes the line. */
  function LineEnd(text: Text, end: nat): (e: nat)
    requires 0 < end <= |text|
    ensures e <= end
  {
    if text[end - 1] == LF then end - 1 else end
  }

  /** The last line of `text[..end]`, which a line feed may close. */
  function LastLine(text: Text, end: nat): Text
    requires 0 < end <= |text|
  {
    Slice(text, LastLineFeed(text, LineEnd(text, end) - 1) + 1, LineEnd(text, end))
  }

  predicate EndsWithHeadingLine(text: Text, end: nat)
    requires end <= |text|
  {
    end > 0 && IsHeadingLine(LastLine(text, end))
  }

  /** `text[lo..hi]` is a line up to `hi`: it starts the text or follows a line feed, and holds none. */
  ghost predicate LineUpTo(text: Text, lo: nat, hi: nat) {
    && lo <= hi <= |text|
    && (lo == 0 || text[lo - 1] == LF)
    && forall k | lo <= k < hi :: text[k] != LF
  }

  /** Without one line feed at its end, if it has one, `text[..end]` ends with an ATX heading line. */
  ghost predicate HeadingBehind(text: Text, end: nat) {
    && 0 < end <= |text|
    && exists lo: nat, hi: nat, spaces: nat, hashes: nat ::
         HeadingLineAt(text, lo, hi, spaces, hashes) && hi == if text[end - 1] == LF then end - 1 else end
  }

  ghost predicate HeadingLineAt(text: Text, lo: nat, hi: nat, spaces: nat, hashes: nat) {
    LineUpTo(text, lo, hi) && AtxOpening(text[lo..hi], spaces, hashes)
  }

  lemma {:induction false} LastLineFeedIsLast(text: Text, from: nat)
    requires from < |text|
    ensures var k := LastLineFeed(text, from);
      k <= from && (k >= 0 ==> text[k] == LF) && forall j | k < j <= from :: text[j] != LF
    decreases from
  {
    if from > 0 && text[from] != LF {
      LastLineFeedIsLast(text, from - 1);
    }
  }

  /** The last line is the one line up to the end, where that is not blank. */
  lemma LastLineIsLine(text: Text, end: nat, lo: nat)
    requires 0 < end <= |text| && LineEnd(text, end) > 0
    ensures LineUpTo(text, lo, LineEnd(text, end)) <==> lo == LastLineFeed(text, LineEnd(text, end) - 1) + 1
  {
    LastLineFeedIsLast(text, LineEnd(text, end) - 1);
  }

  /** The test holds exactly where the line up to the offset is an ATX heading line. */
  lemma EndsWithHeadingLineMeans(text: Text, end: nat)
    requires end <= |text|
    ensures EndsWithHeadingLine(text, end) <==> HeadingBehind(text, end)
  {
    if end > 0 && LineEnd(text, end) > 0 {
      var hi := LineEnd(text, end);
      var lo := LastLineFeed(text, hi - 1) + 1;
      LastLineIsLine(text, end, lo);
      assert LastLine(text, end) == text[lo..hi];
      HeadingLineIsAtx(text[lo..hi]);
      if EndsWithHeadingLine(text, end) {
        var spaces: nat, hashes: nat :| AtxOpening(text[lo..hi], spaces, hashes);
        assert HeadingLineAt(text, lo, hi, spaces, hashes);
      }
      forall lo': nat, spaces: nat, hashes: nat | HeadingLineAt(text, lo', hi, spaces, hashes)
        ensures EndsWithHeadingLine(text, end)
      {
        LastLineIsLine(text, end, lo');
        assert lo' == lo;
      }
    } else if end > 0 {
      assert LastLine(text, end) == [];
      HeadingLineIsAtx([]);
    }
  }

  /**
   * A text together with the judgement, for each offset, whether a chunk ending there would end on
   * a heading line. Packing reads nothing else of the text's lines.
   */
  datatype RuledText = RuledText(text: Text, headingEnds: seq<bool>)

  type Doc = d: RuledText | |d.headingEnds| == |d.text| + 1 witness RuledText([], [false])

  /** The values of `f` at 0 to `end`. */
  function Tabulate(f: nat -> bool, end: nat): (t: seq<bool>)
    ensures |t| == end + 1
  {
    (if end == 0 then [] else Tabulate(f, end - 1)) + [f(end)]
  }

  lemma {:induction false} TabulateAt(f: nat -> bool, end: nat, e: nat)
    requires e <= end
    ensures Tabulate(f, end)[e] == f(e)
  {
    if e < end {
      TabulateAt(f, end - 1, e);
    }
  }

  function HeadingJudge(text: Text): nat -> bool {
    (e: nat) => e <= |text| && EndsWithHeadingLine(text, e)
  }

  function Rule(text: Text): (d: Doc)
    ensures d.text == text
  {
    RuledText(text, Tabulate(HeadingJudge(text), |text|))
  }

  /** From `n` on the values are those of `f`. */
  ghost predicate TabulatesFrom(t: seq<bool>, f: nat -> bool, n: nat)
    decreases |t| - n
  {
    n >= |t| || (t[n] == f(n) && TabulatesFrom(t, f, n + 1))
  }

  lemma {:induction false} TabulatesAt(t: seq<bool>, f: nat -> bool, n: nat, e: nat)
    requires TabulatesFrom(t, f, n) && n <= e < |t|
    ensures t[e] == f(e)
    decreases e - n
  {
    if n < e {
      TabulatesAt(t, f, n + 1, e);
    }
  }

  lemma {:induction false} TabulateTabulates(f: nat -> bool, end: nat, n: nat)
    ensures TabulatesFrom(Tabulate(f, end), f, n)
    decreases end + 1 - n
  {
    if n <= end {
      TabulateAt(f, end, n);
      TabulateTabulates(f, end, n + 1);
    }
  }

  /** `d` is the text with the judgement of every offset. */
  ghost predicate IsRuled(d: Doc, text: Text) {
    d.text == text && TabulatesFrom(d.headingEnds, HeadingJudge(text), 0)
  }

  /** The ruled text says of each offset whether an ATX heading line ends there. */
  lemma RuledMeans(text: Text, e: nat)
    requires e <= |text|
    ensures Rule(text).headingEnds[e] <==> HeadingBehind(text, e)
  {
    TabulateAt(HeadingJudge(text), |text|, e);
    EndsWithHeadingLineMeans(text, e);
  }

  lemma RuleIsRuled(text: Text)
    ensures IsRuled(Rule(text), text)
  {
    TabulateTabulates(HeadingJudge(text), |text|, 0);
  }

  /** The judgement made on demand at an offset. */
  method JudgeHeading(text: Text, end: nat, ghost d: Doc) returns (heading: bool)
    requires end <= |text| && IsRuled(d, text)
    ensures heading == d.headingEnds[end]
  {
    TabulatesAt(d.headingEnds, HeadingJudge(text), 0, end);
    return HeadingJudge(text)(end);
  }
}
