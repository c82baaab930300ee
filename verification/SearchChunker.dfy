/**
 * Chunking of text for search: split at paragraphs, headings or lines, pack greedily up to a budget,
 * and split what is still too long at sentences.
 */
module SearchChunker {
  import opened Sequences
  import opened Text
  import opened Whitespace

  predicate IsStop(c: CodeUnit) {
    c == 46 || c == 33 || c == 63
  }

  /** Full stops, exclamation marks and question marks end sentences. */
  lemma StopsAre(c: CodeUnit)
    ensures IsStop(c) <==> c as int in {'.' as int, '!' as int, '?' as int}
  {
  }

  // ---------------------------------------------------------------- splitting

  /** The length of the separator that starts at an offset, or 0. */
  type Separator = (Text, nat) -> nat

  /** A single line feed, as in `split('\n')`. */
  function LineFeedAt(text: Text, i: nat): nat {
    if i < |text| && text[i] == LF then 1 else 0
  }

  /** `\n\n+` */
  function BlankLinesAt(text: Text, i: nat): nat {
    if i < |text| && text[i] == LF && RunEnd(text, IsLineFeed, i) >= i + 2 then RunEnd(text, IsLineFeed, i) - i else 0
  }

  /** The last line feed of `text[i..k]`, which starts with one. */
  function LastFeed(text: Text, i: nat, k: nat): (last: nat)
    requires i < k <= |text| && text[i] == LF
    ensures i <= last < k && text[last] == LF
    ensures forall j | last < j < k :: text[j] != LF
    decreases k
  {
    if text[k - 1] == LF then k - 1 else LastFeed(text, i, k - 1)
  }

  /** `\n\s*\n+`: from a line feed to the last one of the white space it stands in, if that is another. */
  function BlankStretchAt(text: Text, i: nat): nat {
    if i < |text| && text[i] == LF then
      var last := LastFeed(text, i, RunEnd(text, IsSpace, i));
      if last > i then last - i + 1 else 0
    else 0
  }

  /** `text.split(separator)`, with the piece that started at `start` still open at `i`. */
  function SplitFrom(text: Text, sep: Separator, start: nat, i: nat): (pieces: seq<Text>)
    requires start <= i <= |text|
    ensures |pieces| >= 1
    decreases |text| - i
  {
    if i == |text| then [text[start..]]
    else if 0 < sep(text, i) <= |text| - i then
      [text[start..i]] + SplitFrom(text, sep, i + sep(text, i), i + sep(text, i))
    else SplitFrom(text, sep, start, i + 1)
  }

  function Split(text: Text, sep: Separator): (pieces: seq<Text>)
    ensures |pieces| >= 1
  {
    SplitFrom(text, sep, 0, 0)
  }

  /** The pieces that are not blank, trimmed. */
  function Trimmed(pieces: seq<Text>): seq<Text> {
    if pieces == [] then []
    else (if |Trim(pieces[0])| > 0 then [Trim(pieces[0])] else []) + Trimmed(pieces[1..])
  }

  // ---------------------------------------------------------------- packing and sentences

  /** Greedy packing behind a buffer: a piece that does not fit with its separator closes the buffer. */
  function PackFrom(pieces: seq<Text>, sep: Text, max: int, buf: Text): seq<Text>
    decreases |pieces|
  {
    if pieces == [] then (if buf == [] then [] else [buf])
    else
      var p, rest := pieces[0], pieces[1..];
      if buf == [] then PackFrom(rest, sep, max, p)
      else if |buf| + |p| + |sep| > max then [buf] + PackFrom(rest, sep, max, p)
      else PackFrom(rest, sep, max, buf + sep + p)
  }

  predicate BreaksSentence(c: CodeUnit) {
    IsStop(c) || c == LF
  }

  /** The matches of `[^.!?\n]+[.!?]*` from `i` on. */
  function SentencesFrom(text: Text, i: nat): seq<Text>
    requires i <= |text|
    decreases |text| - i
  {
    if i == |text| then []
    else if BreaksSentence(text[i]) then SentencesFrom(text, i + 1)
    else
      var end := RunEnd(text, IsStop, RunEnd(text, (c: CodeUnit) => !BreaksSentence(c), i));
      [text[i..end]] + SentencesFrom(text, end)
  }

  function Sentences(text: Text): seq<Text> {
    var found := SentencesFrom(text, 0);
    if found == [] then [text] else found
  }

  function TrimAll(pieces: seq<Text>): (out: seq<Text>)
    ensures |out| == |pieces|
    ensures forall i | 0 <= i < |pieces| :: out[i] == Trim(pieces[i])
  {
    seq(|pieces|, i requires 0 <= i < |pieces| => Trim(pieces[i]))
  }

  const BLANK_LINE: Text := [LF, LF]
  const BLANK: Text := [SPACE]

  function BySentences(text: Text, max: int): seq<Text> {
    PackFrom(TrimAll(Sentences(text)), BLANK, max, [])
  }

  /** The chunks over the budget are split at sentences. */
  function Refined(chunks: seq<Text>, max: int): seq<Text> {
    if chunks == [] then []
    else (if |chunks[0]| > max then BySentences(chunks[0], max) else [chunks[0]]) + Refined(chunks[1..], max)
  }

  function ParagraphChunks(text: Text, sep: Separator, max: int): seq<Text> {
    PackFrom(Trimmed(Split(text, sep)), BLANK_LINE, max, [])
  }

  function ChunkedText(text: Text, maxTokens: int): seq<Text> {
    Refined(ParagraphChunks(text, BlankLinesAt, maxTokens * 4), maxTokens * 4)
  }

  // ---------------------------------------------------------------- markdown

  /** `^#{1,6}\s+` */
  predicate StartsHeading(line: Text) {
    var hashes := RunEnd(line, IsHash, 0);
    1 <= hashes <= 6 && hashes < |line| && IsSpace(line[hashes])
  }

  function Join(lines: seq<Text>): Text {
    if lines == [] then []
    else if |lines| == 1 then lines[0]
    else Join(lines[..|lines| - 1]) + [LF] + lines[|lines| - 1]
  }

  /** The sections from a list of lines on, with the lines of the open one. */
  function SectionsFrom(lines: seq<Text>, current: seq<Text>): seq<Text>
    decreases |lines|
  {
    if lines == [] then (if current == [] then [] else [Trim(Join(current))])
    else if StartsHeading(lines[0]) && current != [] then
      [Trim(Join(current))] + SectionsFrom(lines[1..], [lines[0]])
    else SectionsFrom(lines[1..], current + [lines[0]])
  }

  function SectionChunk(section: Text, max: int): seq<Text> {
    if |section| <= max then [section] else ParagraphChunks(section, BlankStretchAt, max)
  }

  function SectionChunks(sections: seq<Text>, max: int): seq<Text> {
    if sections == [] then [] else SectionChunk(sections[0], max) + SectionChunks(sections[1..], max)
  }

  function ChunkedMarkdown(text: Text, maxTokens: int): seq<Text> {
    Refined(SectionChunks(SectionsFrom(Split(text, LineFeedAt), []), maxTokens * 4), maxTokens * 4)
  }

  // ---------------------------------------------------------------- what survives

  /** The characters other than white space and stops, in order. */
  function Essence(s: Text): Text {
    if s == [] then []
    else (if IsSpace(s[0]) || IsStop(s[0]) then [] else [s[0]]) + Essence(s[1..])
  }

  function EssenceOf(pieces: seq<Text>): Text {
    if pieces == [] then [] else Essence(pieces[0]) + EssenceOf(pieces[1..])
  }

  lemma {:induction false} EssenceConcat(a: Text, b: Text)
    ensures Essence(a + b) == Essence(a) + Essence(b)
    decreases |a|
  {
    if a == [] {
      assert a + b == b;
    } else {
      assert (a + b)[1..] == a[1..] + b;
      EssenceConcat(a[1..], b);
      var first: Text := if IsSpace(a[0]) || IsStop(a[0]) then [] else [a[0]];
      assert first + (Essence(a[1..]) + Essence(b)) == (first + Essence(a[1..])) + Essence(b);
    }
  }

  lemma {:induction false} EssenceOfAppended(a: seq<Text>, b: seq<Text>)
    ensures EssenceOf(a + b) == EssenceOf(a) + EssenceOf(b)
    decreases |a|
  {
    if a == [] {
      assert a + b == b;
    } else {
      assert (a + b)[1..] == a[1..] + b;
      EssenceOfAppended(a[1..], b);
      assert Essence(a[0]) + (EssenceOf(a[1..]) + EssenceOf(b)) == (Essence(a[0]) + EssenceOf(a[1..])) + EssenceOf(b);
    }
  }

  lemma {:induction false} EssenceOfNothing(s: Text)
    requires forall i | 0 <= i < |s| :: IsSpace(s[i]) || IsStop(s[i])
    ensures Essence(s) == []
    decreases |s|
  {
    if s != [] {
      EssenceOfNothing(s[1..]);
    }
  }

  lemma EssenceOfOne(s: Text)
    ensures EssenceOf([s]) == Essence(s)
  {
    assert Essence(s) + [] == Essence(s);
  }

  lemma {:induction false} EssenceOfTrimStart(s: Text)
    ensures Essence(TrimStart(s)) == Essence(s)
    decreases |s|
  {
    if s != [] && IsSpace(s[0]) {
      EssenceOfTrimStart(s[1..]);
    }
  }

  lemma {:induction false} EssenceOfTrimEnd(s: Text)
    ensures Essence(TrimEnd(s)) == Essence(s)
    decreases |s|
  {
    if s != [] && IsSpace(s[|s| - 1]) {
      EssenceOfTrimEnd(s[..|s| - 1]);
      assert s == s[..|s| - 1] + [s[|s| - 1]];
      EssenceConcat(s[..|s| - 1], [s[|s| - 1]]);
      EssenceOfNothing([s[|s| - 1]]);
    }
  }

  lemma EssenceOfTrim(s: Text)
    ensures Essence(Trim(s)) == Essence(s)
  {
    EssenceOfTrimStart(s);
    EssenceOfTrimEnd(TrimStart(s));
  }

  /** Separators consist of white space. */
  ghost predicate Blank(sep: Separator) {
    forall text: Text, i: nat, k: nat | i <= |text| && sep(text, i) <= |text| - i && i <= k < i + sep(text, i) ::
      IsSpace(text[k])
  }

  lemma SeparatorsAreBlank()
    ensures Blank(LineFeedAt) && Blank(BlankLinesAt) && Blank(BlankStretchAt)
  {
  }

  lemma {:induction false} SplitKeepsEssence(text: Text, sep: Separator, start: nat, i: nat)
    requires start <= i <= |text| && Blank(sep)
    ensures EssenceOf(SplitFrom(text, sep, start, i)) == Essence(text[start..])
    decreases |text| - i
  {
    if i == |text| {
      EssenceOfOne(text[start..]);
    } else if 0 < sep(text, i) <= |text| - i {
      var j := i + sep(text, i);
      SplitKeepsEssence(text, sep, j, j);
      SplitSeparates(text, sep, start, i);
      var rest := SplitFrom(text, sep, j, j);
      assert ([text[start..i]] + rest)[1..] == rest;
    } else {
      SplitKeepsEssence(text, sep, start, i + 1);
    }
  }

  lemma EssenceOfRest(text: Text, i: nat, j: nat)
    requires i <= j <= |text|
    ensures Essence(text[i..]) == Essence(text[i..j]) + Essence(text[j..])
  {
    EssenceConcat(text[i..j], text[j..]);
    assert text[i..j] + text[j..] == text[i..];
  }

  lemma SplitSeparates(text: Text, sep: Separator, start: nat, i: nat)
    requires start <= i <= |text| && Blank(sep) && sep(text, i) <= |text| - i
    ensures Essence(text[start..]) == Essence(text[start..i]) + Essence(text[i + sep(text, i)..])
  {
    var j := i + sep(text, i);
    EssenceOfNothing(text[i..j]);
    EssenceOfRest(text, start, i);
    EssenceOfRest(text, i, j);
  }

  lemma {:induction false} TrimmedKeepsEssence(pieces: seq<Text>)
    ensures EssenceOf(Trimmed(pieces)) == EssenceOf(pieces)
    decreases |pieces|
  {
    if pieces != [] {
      TrimmedKeepsEssence(pieces[1..]);
      EssenceOfTrim(pieces[0]);
      if |Trim(pieces[0])| > 0 {
        assert ([Trim(pieces[0])] + Trimmed(pieces[1..]))[1..] == Trimmed(pieces[1..]);
      } else {
        assert Essence(pieces[0]) == [];
        assert [] + Trimmed(pieces[1..]) == Trimmed(pieces[1..]);
      }
    }
  }

  lemma {:induction false} TrimAllKeepsEssence(pieces: seq<Text>)
    ensures EssenceOf(TrimAll(pieces)) == EssenceOf(pieces)
    decreases |pieces|
  {
    if pieces != [] {
      TrimAllKeepsEssence(pieces[1..]);
      EssenceOfTrim(pieces[0]);
      assert TrimAll(pieces)[1..] == TrimAll(pieces[1..]);
    }
  }

  lemma JoinedEssence(buf: Text, sep: Text, p: Text)
    requires Essence(sep) == []
    ensures Essence(buf + sep + p) == Essence(buf) + Essence(p)
  {
    EssenceConcat(buf + sep, p);
    EssenceConcat(buf, sep);
    assert Essence(buf) + [] == Essence(buf);
  }

  lemma {:induction false} PackKeepsEssence(pieces: seq<Text>, sep: Text, max: int, buf: Text)
    requires Essence(sep) == []
    ensures EssenceOf(PackFrom(pieces, sep, max, buf)) == Essence(buf) + EssenceOf(pieces)
    decreases |pieces|
  {
    if pieces == [] {
      EssenceOfOne(buf);
    } else {
      var p, rest := pieces[0], pieces[1..];
      if buf == [] {
        PackKeepsEssence(rest, sep, max, p);
      } else if |buf| + |p| + |sep| > max {
        PackKeepsEssence(rest, sep, max, p);
        assert ([buf] + PackFrom(rest, sep, max, p))[1..] == PackFrom(rest, sep, max, p);
      } else {
        PackKeepsEssence(rest, sep, max, buf + sep + p);
        JoinedEssence(buf, sep, p);
        ConcatAssoc(Essence(buf), Essence(p), EssenceOf(rest));
      }
    }
  }

  lemma {:induction false} SentencesKeepEssence(text: Text, i: nat)
    requires i <= |text|
    ensures EssenceOf(SentencesFrom(text, i)) == Essence(text[i..])
    decreases |text| - i
  {
    if i < |text| {
      if BreaksSentence(text[i]) {
        SentencesKeepEssence(text, i + 1);
        assert text[i..][1..] == text[i + 1..];
      } else {
        var end := RunEnd(text, IsStop, RunEnd(text, (c: CodeUnit) => !BreaksSentence(c), i));
        SentencesKeepEssence(text, end);
        EssenceOfRest(text, i, end);
        assert ([text[i..end]] + SentencesFrom(text, end))[1..] == SentencesFrom(text, end);
      }
    }
  }

  lemma BySentencesKeepsEssence(text: Text, max: int)
    ensures EssenceOf(BySentences(text, max)) == Essence(text)
  {
    var found := SentencesFrom(text, 0);
    SentencesKeepEssence(text, 0);
    assert text[0..] == text;
    EssenceOfOne(text);
    TrimAllKeepsEssence(Sentences(text));
    EssenceOfNothing(BLANK);
    PackKeepsEssence(TrimAll(Sentences(text)), BLANK, max, []);
    assert [] + EssenceOf(TrimAll(Sentences(text))) == EssenceOf(TrimAll(Sentences(text)));
  }

  lemma {:induction false} RefinedKeepsEssence(chunks: seq<Text>, max: int)
    ensures EssenceOf(Refined(chunks, max)) == EssenceOf(chunks)
    decreases |chunks|
  {
    if chunks != [] {
      RefinedKeepsEssence(chunks[1..], max);
      var first := if |chunks[0]| > max then BySentences(chunks[0], max) else [chunks[0]];
      if |chunks[0]| > max {
        BySentencesKeepsEssence(chunks[0], max);
      } else {
        EssenceOfOne(chunks[0]);
      }
      EssenceOfAppended(first, Refined(chunks[1..], max));
    }
  }

  lemma ParagraphsKeepEssence(text: Text, sep: Separator, max: int)
    requires Blank(sep)
    ensures EssenceOf(ParagraphChunks(text, sep, max)) == Essence(text)
  {
    SplitKeepsEssence(text, sep, 0, 0);
    assert text[0..] == text;
    TrimmedKeepsEssence(Split(text, sep));
    EssenceOfNothing(BLANK_LINE);
    PackKeepsEssence(Trimmed(Split(text, sep)), BLANK_LINE, max, []);
    assert [] + EssenceOf(Trimmed(Split(text, sep))) == EssenceOf(Trimmed(Split(text, sep)));
  }

  /** Chunking text at paragraphs loses nothing but white space and stops, and keeps the order. */
  lemma TextSurvives(text: Text, maxTokens: int)
    ensures EssenceOf(ChunkedText(text, maxTokens)) == Essence(text)
  {
    SeparatorsAreBlank();
    ParagraphsKeepEssence(text, BlankLinesAt, maxTokens * 4);
    RefinedKeepsEssence(ParagraphChunks(text, BlankLinesAt, maxTokens * 4), maxTokens * 4);
  }

  lemma {:induction false} JoinKeepsEssence(lines: seq<Text>)
    ensures Essence(Join(lines)) == EssenceOf(lines)
    decreases |lines|
  {
    if |lines| == 1 {
      assert lines == [lines[0]];
      EssenceOfOne(lines[0]);
    } else if |lines| > 1 {
      var before, last := lines[..|lines| - 1], lines[|lines| - 1];
      JoinKeepsEssence(before);
      EssenceConcat(Join(before) + [LF], last);
      EssenceConcat(Join(before), [LF]);
      EssenceOfNothing([LF]);
      assert lines == before + [last];
      EssenceOfAppended(before, [last]);
      EssenceOfOne(last);
      assert Essence(Join(before)) + [] == Essence(Join(before));
    }
  }

  lemma SectionKeepsEssence(lines: seq<Text>, rest: seq<Text>)
    ensures EssenceOf([Trim(Join(lines))] + rest) == EssenceOf(lines) + EssenceOf(rest)
  {
    EssenceOfTrim(Join(lines));
    JoinKeepsEssence(lines);
    assert ([Trim(Join(lines))] + rest)[1..] == rest;
  }

  lemma EssenceOfMoved(current: seq<Text>, line: Text, rest: seq<Text>)
    ensures EssenceOf(current + [line]) + EssenceOf(rest) == EssenceOf(current) + EssenceOf([line] + rest)
  {
    EssenceOfAppended(current, [line]);
    EssenceOfAppended([line], rest);
    assert (EssenceOf(current) + EssenceOf([line])) + EssenceOf(rest)
        == EssenceOf(current) + (EssenceOf([line]) + EssenceOf(rest));
  }

  lemma {:induction false} SectionsKeepEssence(lines: seq<Text>, current: seq<Text>)
    ensures EssenceOf(SectionsFrom(lines, current)) == EssenceOf(current) + EssenceOf(lines)
    decreases |lines|
  {
    if lines == [] {
      SectionKeepsEssence(current, []);
      assert [Trim(Join(current))] + [] == [Trim(Join(current))];
    } else {
      assert lines == [lines[0]] + lines[1..];
      if StartsHeading(lines[0]) && current != [] {
        SectionsKeepEssence(lines[1..], [lines[0]]);
        SectionKeepsEssence(current, SectionsFrom(lines[1..], [lines[0]]));
        EssenceOfMoved([], lines[0], lines[1..]);
        assert [] + [lines[0]] == [lines[0]];
        assert [] + EssenceOf(lines) == EssenceOf(lines);
      } else {
        SectionsKeepEssence(lines[1..], current + [lines[0]]);
        EssenceOfMoved(current, lines[0], lines[1..]);
      }
    }
  }

  lemma {:induction false} SectionChunksKeepEssence(sections: seq<Text>, max: int)
    ensures EssenceOf(SectionChunks(sections, max)) == EssenceOf(sections)
    decreases |sections|
  {
    if sections != [] {
      SectionChunksKeepEssence(sections[1..], max);
      if |sections[0]| <= max {
        EssenceOfOne(sections[0]);
      } else {
        SeparatorsAreBlank();
        ParagraphsKeepEssence(sections[0], BlankStretchAt, max);
      }
      EssenceOfAppended(SectionChunk(sections[0], max), SectionChunks(sections[1..], max));
    }
  }

  /** Chunking markdown at headings loses nothing but white space and stops, and keeps the order. */
  lemma MarkdownSurvives(text: Text, maxTokens: int)
    ensures EssenceOf(ChunkedMarkdown(text, maxTokens)) == Essence(text)
  {
    SeparatorsAreBlank();
    var lines, max := Split(text, LineFeedAt), maxTokens * 4;
    SplitKeepsEssence(text, LineFeedAt, 0, 0);
    assert text[0..] == text;
    SectionsKeepEssence(lines, []);
    assert [] + EssenceOf(lines) == EssenceOf(lines);
    SectionChunksKeepEssence(SectionsFrom(lines, []), max);
    RefinedKeepsEssence(SectionChunks(SectionsFrom(lines, []), max), max);
  }

  // ---------------------------------------------------------------- size

  /** Characters that do not break a sentence, then stops; or nothing that is not a sentence break. */
  ghost predicate OneSentence(s: Text) {
    || (exists k: nat | k <= |s| :: SentenceTo(s, k))
    || (forall i | 0 <= i < |s| :: BreaksSentence(s[i]))
  }

  ghost predicate SentenceTo(s: Text, k: nat)
    requires k <= |s|
  {
    && (forall i | 0 <= i < k :: !BreaksSentence(s[i]))
    && (forall i | k <= i < |s| :: IsStop(s[i]))
  }

  /** Within the budget, or one trimmed sentence of a paragraph that is over it. */
  ghost predicate Bounded(c: Text, max: int, paragraphs: seq<Text>) {
    |c| <= max || exists p :: p in paragraphs && |p| > max && c in TrimAll(Sentences(p))
  }

  ghost predicate AllBounded(chunks: seq<Text>, max: int, paragraphs: seq<Text>) {
    forall c | c in chunks :: Bounded(c, max, paragraphs)
  }

  lemma SliceOfSentence(s: Text, lo: nat, hi: nat)
    requires OneSentence(s) && lo <= hi <= |s|
    ensures OneSentence(s[lo..hi])
  {
    var t := s[lo..hi];
    if !forall i | 0 <= i < |s| :: BreaksSentence(s[i]) {
      var k: nat :| k <= |s| && SentenceTo(s, k);
      var k' := if k <= lo then 0 else if k <= hi then k - lo else hi - lo;
      assert SentenceTo(t, k');
    }
  }

  lemma TrimmedSentence(s: Text)
    requires OneSentence(s)
    ensures OneSentence(Trim(s))
  {
    var lo := TrimStartIsSlice(s);
    var hi := TrimEndIsSlice(TrimStart(s));
    assert Trim(s) == s[lo..lo + hi];
    SliceOfSentence(s, lo, lo + hi);
  }

  lemma MatchIsSentence(text: Text, i: nat)
    requires i < |text| && !BreaksSentence(text[i])
    ensures var body := RunEnd(text, (c: CodeUnit) => !BreaksSentence(c), i);
      OneSentence(text[i..RunEnd(text, IsStop, body)])
  {
    var body := RunEnd(text, (c: CodeUnit) => !BreaksSentence(c), i);
    var s := text[i..RunEnd(text, IsStop, body)];
    assert SentenceTo(s, body - i);
  }

  lemma {:induction false} MatchesAreSentences(text: Text, i: nat)
    requires i <= |text|
    ensures forall s | s in SentencesFrom(text, i) :: OneSentence(s)
    decreases |text| - i
  {
    if i < |text| {
      if BreaksSentence(text[i]) {
        MatchesAreSentences(text, i + 1);
      } else {
        var end := RunEnd(text, IsStop, RunEnd(text, (c: CodeUnit) => !BreaksSentence(c), i));
        MatchesAreSentences(text, end);
        MatchIsSentence(text, i);
      }
    }
  }

  /** Without a match the text holds nothing but sentence breaks. */
  lemma {:induction false} NoMatchMeansBreaks(text: Text, i: nat)
    requires i <= |text| && SentencesFrom(text, i) == []
    ensures forall k | i <= k < |text| :: BreaksSentence(text[k])
    decreases |text| - i
  {
    if i < |text| {
      NoMatchMeansBreaks(text, i + 1);
    }
  }

  /** The trimmed sentences hold no sentence break but the stops at their end. */
  lemma SentencesAreSentences(text: Text)
    ensures forall s | s in TrimAll(Sentences(text)) :: OneSentence(s)
  {
    MatchesAreSentences(text, 0);
    if SentencesFrom(text, 0) == [] {
      NoMatchMeansBreaks(text, 0);
    }
    forall s | s in TrimAll(Sentences(text)) ensures OneSentence(s) {
      var i :| 0 <= i < |Sentences(text)| && s == Trim(Sentences(text)[i]);
      assert Sentences(text)[i] in Sentences(text);
      TrimmedSentence(Sentences(text)[i]);
    }
  }

  /** Packing is greedy: no two chunks in a row would fit together. */
  ghost predicate NoTwoFit(chunks: seq<Text>, sep: Text, max: int) {
    forall i | 0 <= i < |chunks| - 1 :: |chunks[i]| + |sep| + |chunks[i + 1]| > max
  }

  lemma {:induction false} PackIsGreedy(pieces: seq<Text>, sep: Text, max: int, buf: Text)
    requires forall k | 0 <= k < |pieces| :: pieces[k] != []
    ensures NoTwoFit(PackFrom(pieces, sep, max, buf), sep, max)
    ensures var packed := PackFrom(pieces, sep, max, buf);
      buf != [] || pieces != [] ==>
        packed != [] && buf <= packed[0] && (buf == [] ==> pieces[0] <= packed[0])
    decreases |pieces|
  {
    if pieces != [] {
      var p, rest := pieces[0], pieces[1..];
      if buf == [] {
        PackIsGreedy(rest, sep, max, p);
      } else if |buf| + |p| + |sep| > max {
        PackIsGreedy(rest, sep, max, p);
      } else {
        PackIsGreedy(rest, sep, max, buf + sep + p);
        assert buf <= buf + sep + p;
      }
    }
  }

  /** A packed chunk is within the budget, or a single piece. */
  lemma {:induction false} PackedAreBounded(pieces: seq<Text>, sep: Text, max: int, buf: Text, all: seq<Text>)
    requires forall p | p in pieces :: p in all
    requires buf == [] || |buf| <= max || buf in all
    ensures forall c | c in PackFrom(pieces, sep, max, buf) :: |c| <= max || c in all
    decreases |pieces|
  {
    if pieces != [] {
      var p, rest := pieces[0], pieces[1..];
      if buf == [] || |buf| + |p| + |sep| > max {
        PackedAreBounded(rest, sep, max, p, all);
      } else {
        PackedAreBounded(rest, sep, max, buf + sep + p, all);
      }
    }
  }

  lemma BySentencesIsBounded(text: Text, max: int, paragraphs: seq<Text>)
    requires |text| > max && text in paragraphs
    ensures AllBounded(BySentences(text, max), max, paragraphs)
  {
    var pieces := TrimAll(Sentences(text));
    PackedAreBounded(pieces, BLANK, max, [], pieces);
  }

  lemma {:induction false} RefinedIsBounded(chunks: seq<Text>, max: int, paragraphs: seq<Text>)
    requires forall c | c in chunks :: |c| <= max || c in paragraphs
    ensures AllBounded(Refined(chunks, max), max, paragraphs)
    decreases |chunks|
  {
    if chunks != [] {
      RefinedIsBounded(chunks[1..], max, paragraphs);
      if |chunks[0]| > max {
        BySentencesIsBounded(chunks[0], max, paragraphs);
      }
    }
  }

  /** The trimmed paragraphs of each text. */
  function ParagraphsOf(texts: seq<Text>, sep: Separator): seq<Text> {
    if texts == [] then [] else Trimmed(Split(texts[0], sep)) + ParagraphsOf(texts[1..], sep)
  }

  lemma {:induction false} SectionChunksAreParagraphs(sections: seq<Text>, max: int)
    ensures forall c | c in SectionChunks(sections, max) :: |c| <= max || c in ParagraphsOf(sections, BlankStretchAt)
    decreases |sections|
  {
    if sections != [] {
      var paragraphs := Trimmed(Split(sections[0], BlankStretchAt));
      PackedAreBounded(paragraphs, BLANK_LINE, max, [], paragraphs);
      SectionChunksAreParagraphs(sections[1..], max);
    }
  }

  /** Every chunk is within the budget unless it is a single sentence of a paragraph, longer by itself. */
  lemma ChunksAreBounded(text: Text, maxTokens: int)
    ensures AllBounded(ChunkedText(text, maxTokens), maxTokens * 4, Trimmed(Split(text, BlankLinesAt)))
    ensures AllBounded(ChunkedMarkdown(text, maxTokens), maxTokens * 4,
      ParagraphsOf(SectionsFrom(Split(text, LineFeedAt), []), BlankStretchAt))
  {
    var max := maxTokens * 4;
    var paragraphs, sections := Trimmed(Split(text, BlankLinesAt)), SectionsFrom(Split(text, LineFeedAt), []);
    PackedAreBounded(paragraphs, BLANK_LINE, max, [], paragraphs);
    RefinedIsBounded(ParagraphChunks(text, BlankLinesAt, max), max, paragraphs);
    SectionChunksAreParagraphs(sections, max);
    RefinedIsBounded(SectionChunks(sections, max), max, ParagraphsOf(sections, BlankStretchAt));
  }

  // ---------------------------------------------------------------- text that needs no sentences

  lemma {:induction false} RefinedKeepsShort(chunks: seq<Text>, max: int)
    requires forall c | c in chunks :: |c| <= max
    ensures Refined(chunks, max) == chunks
    decreases |chunks|
  {
    if chunks != [] {
      RefinedKeepsShort(chunks[1..], max);
    }
  }

  lemma {:induction false} TrimmedAreNotEmpty(pieces: seq<Text>)
    ensures forall p | p in Trimmed(pieces) :: p != []
    decreases |pieces|
  {
    if pieces != [] {
      TrimmedAreNotEmpty(pieces[1..]);
    }
  }

  /** Where every paragraph fits four characters a token, no two chunks in a row would fit together. */
  lemma ShortParagraphsArePacked(text: Text, maxTokens: int)
    requires forall p | p in Trimmed(Split(text, BlankLinesAt)) :: |p| <= 4 * maxTokens
    ensures forall c | c in ChunkedText(text, maxTokens) :: |c| <= 4 * maxTokens
    ensures NoTwoFit(ChunkedText(text, maxTokens), [LF, LF], 4 * maxTokens)
  {
    var paragraphs, max := Trimmed(Split(text, BlankLinesAt)), maxTokens * 4;
    TrimmedAreNotEmpty(Split(text, BlankLinesAt));
    assert forall k | 0 <= k < |paragraphs| :: paragraphs[k] in paragraphs;
    PackIsGreedy(paragraphs, BLANK_LINE, max, []);
    PackedAreBounded(paragraphs, BLANK_LINE, max, [], paragraphs);
    RefinedKeepsShort(ParagraphChunks(text, BlankLinesAt, max), max);
  }

  lemma {:induction false} ShortSectionsStay(sections: seq<Text>, max: int)
    requires forall s | s in sections :: |s| <= max
    ensures SectionChunks(sections, max) == sections
    decreases |sections|
  {
    if sections != [] {
      ShortSectionsStay(sections[1..], max);
    }
  }

  /** Where every section fits four characters a token, the chunks of markdown are its sections. */
  lemma ShortSectionsAreChunks(text: Text, maxTokens: int)
    requires forall s | s in SectionsFrom(Split(text, LineFeedAt), []) :: |s| <= 4 * maxTokens
    ensures ChunkedMarkdown(text, maxTokens) == SectionsFrom(Split(text, LineFeedAt), [])
  {
    ShortSectionsStay(SectionsFrom(Split(text, LineFeedAt), []), maxTokens * 4);
    RefinedKeepsShort(SectionsFrom(Split(text, LineFeedAt), []), maxTokens * 4);
  }

  // ---------------------------------------------------------------- where text is split

  /** From `i` on stand so many line feeds, at least two, and no other one behind them. */
  ghost predicate BlankLines(text: Text, i: nat, length: nat) {
    && length >= 2 && i + length <= |text|
    && (forall k | i <= k < i + length :: text[k] == LF)
    && (i + length < |text| ==> text[i + length] != LF)
  }

  /** Paragraphs of plain text are parted by all the line feeds, two or more, that stand in a row. */
  lemma BlankLinesMeans(text: Text, i: nat, length: nat)
    requires i <= |text| && length > 0
    ensures BlankLinesAt(text, i) == length <==> BlankLines(text, i, length)
  {
    if i < |text| && BlankLines(text, i, length) {
      var end := RunEnd(text, IsLineFeed, i);
      assert end < |text| ==> text[end] != LF;
      assert forall j | i <= j < end :: IsLineFeed(text[j]);
    }
  }

  /** White space from one line feed to another, and no third one in the white space behind. */
  ghost predicate BlankStretch(text: Text, i: nat, length: nat) {
    && length >= 2 && i + length <= |text|
    && text[i] == LF && text[i + length - 1] == LF
    && AllSpace(text, i, i + length)
    && forall j | i + length <= j < |text| && text[j] == LF :: !AllSpace(text, i, j)
  }

  ghost predicate AllSpace(text: Text, i: nat, j: nat)
    requires j <= |text|
  {
    forall k | i <= k < j :: IsSpace(text[k])
  }

  /** Paragraphs of markdown are parted by white space from one line feed to the last that it reaches. */
  lemma BlankStretchMeans(text: Text, i: nat, length: nat)
    requires i <= |text| && length > 0
    ensures BlankStretchAt(text, i) == length <==> BlankStretch(text, i, length)
  {
    if i < |text| && text[i] == LF {
      var end := RunEnd(text, IsSpace, i);
      var last := LastFeed(text, i, end);
      if last > i {
        assert end < |text| ==> !IsSpace(text[end]);
        assert IsSpace(LF);
        assert BlankStretch(text, i, last - i + 1);
      }
      if BlankStretch(text, i, length) {
        LongerStretch(text, i, length, last, end);
      }
    }
  }

  lemma LongerStretch(text: Text, i: nat, length: nat, last: nat, end: nat)
    requires i < |text| && text[i] == LF && BlankStretch(text, i, length)
    requires end == RunEnd(text, IsSpace, i) && last == LastFeed(text, i, end)
    ensures last == i + length - 1
  {
    assert end < |text| ==> !IsSpace(text[end]);
    assert AllSpace(text, i, last);
  }

  /** Sections start at one to six hashes and white space behind them. */
  lemma StartsHeadingMeans(line: Text)
    ensures StartsHeading(line) <==>
      exists h | 1 <= h <= 6 && h < |line| :: IsSpace(line[h]) && forall k | 0 <= k < h :: line[k] == HASH
  {
    var hashes := RunEnd(line, IsHash, 0);
    assert forall k | 0 <= k < hashes :: IsHash(line[k]);
    assert hashes < |line| ==> line[hashes] != HASH;
    assert !IsSpace(HASH);
  }

  /** The piece is the text from `start` up to `k`, and no separator starts within it. */
  ghost predicate PieceTo(text: Text, sep: Separator, start: nat, k: nat, piece: Text) {
    && start <= k <= |text| && piece == text[start..k]
    && forall j | start <= j < k :: sep(text, j) == 0
  }

  /** The pieces and the separators between them make up the text from `start` on. */
  ghost predicate Parted(text: Text, sep: Separator, start: nat, pieces: seq<Text>)
    decreases |pieces|, 1
  {
    && pieces != []
    && if |pieces| == 1 then PieceTo(text, sep, start, |text|, pieces[0])
       else exists k: nat :: ThenParted(text, sep, start, k, pieces)
  }

  /** The first piece ends at `k`, a separator stands there, and the rest follows behind it. */
  ghost predicate ThenParted(text: Text, sep: Separator, start: nat, k: nat, pieces: seq<Text>)
    requires |pieces| > 1
    decreases |pieces|, 0
  {
    && PieceTo(text, sep, start, k, pieces[0])
    && sep(text, k) > 0 && Parted(text, sep, k + sep(text, k), pieces[1..])
  }

  /** No separator reaches past the end of the text. */
  ghost predicate StaysInside(sep: Separator) {
    forall text: Text, i: nat | i <= |text| :: i + sep(text, i) <= |text|
  }

  lemma {:induction false} PartedFrom(text: Text, sep: Separator, start: nat, i: nat)
    requires StaysInside(sep) && start <= i <= |text| && forall j | start <= j < i :: sep(text, j) == 0
    ensures Parted(text, sep, start, SplitFrom(text, sep, start, i))
    decreases |text| - i
  {
    if i == |text| {
    } else if sep(text, i) > 0 {
      var next := i + sep(text, i);
      PartedFrom(text, sep, next, next);
      var pieces := [text[start..i]] + SplitFrom(text, sep, next, next);
      assert pieces[1..] == SplitFrom(text, sep, next, next);
      assert ThenParted(text, sep, start, i, pieces);
    } else {
      PartedFrom(text, sep, start, i + 1);
    }
  }

  /** Text is split at the first separator, then at the first one behind it, and so on, and nowhere else. */
  lemma SplitIsParted(text: Text, sep: Separator)
    requires StaysInside(sep)
    ensures Parted(text, sep, 0, Split(text, sep))
    ensures StaysInside(LineFeedAt) && StaysInside(BlankLinesAt) && StaysInside(BlankStretchAt)
  {
    PartedFrom(text, sep, 0, 0);
  }

  lemma NoFeedIn(text: Text, start: nat, k: nat)
    requires start <= k <= |text| && forall j | start <= j < k :: LineFeedAt(text, j) == 0
    ensures LF !in text[start..k]
  {
    forall j | start <= j < k ensures text[j] != LF {
      assert LineFeedAt(text, j) == 0;
    }
  }

  lemma {:induction false} JoinBehind(first: Text, rest: seq<Text>)
    requires rest != []
    ensures Join([first] + rest) == first + [LF] + Join(rest)
    decreases |rest|
  {
    var lines, before, last := [first] + rest, rest[..|rest| - 1], rest[|rest| - 1];
    assert lines[..|lines| - 1] == [first] + before && lines[|lines| - 1] == last;
    if before == [] {
      assert rest == [last] && [first] + before == [first];
    } else {
      JoinBehind(first, before);
      assert (first + [LF] + Join(before)) + [LF] + last == first + [LF] + (Join(before) + [LF] + last);
    }
  }

  /** Lines hold no line feed, and joined by line feeds they are the text. */
  lemma {:induction false} LinesFrom(text: Text, start: nat, lines: seq<Text>)
    requires start <= |text| && Parted(text, LineFeedAt, start, lines)
    ensures Join(lines) == text[start..] && forall line | line in lines :: LF !in line
    decreases |lines|
  {
    if |lines| == 1 {
      NoFeedIn(text, start, |text|);
      assert text[start..|text|] == text[start..];
    } else {
      var k: nat :| ThenParted(text, LineFeedAt, start, k, lines);
      LinesFrom(text, k + 1, lines[1..]);
      NoFeedIn(text, start, k);
      assert lines == [lines[0]] + lines[1..];
      JoinBehind(lines[0], lines[1..]);
      assert text[start..] == text[start..k] + [LF] + text[k + 1..];
    }
  }

  lemma SplitIntoLines(text: Text)
    ensures var lines := Split(text, LineFeedAt);
      Join(lines) == text && forall line | line in lines :: LF !in line
  {
    SplitIsParted(text, LineFeedAt);
    LinesFrom(text, 0, Split(text, LineFeedAt));
    assert text[0..] == text;
  }

  /** The pieces with the separator between them; nothing is put before the first that is not empty. */
  function Strung(sep: Text, pieces: seq<Text>): Text {
    if pieces == [] then []
    else
      var before, last := Strung(sep, pieces[..|pieces| - 1]), pieces[|pieces| - 1];
      if before == [] then last else before + sep + last
  }

  lemma StrungBy(sep: Text, pieces: seq<Text>, p: Text)
    ensures Strung(sep, pieces + [p])
         == if Strung(sep, pieces) == [] then p else Strung(sep, pieces) + sep + p
  {
    assert (pieces + [p])[..|pieces|] == pieces;
  }

  /**
   * Each chunk of a packing is a run of pieces with the separator between them, and the runs are all pieces
   * in order, but for empty ones at the end.
   */
  lemma {:induction false} PackStrings(pieces: seq<Text>, sep: Text, max: int, open: seq<Text>)
    returns (groups: seq<seq<Text>>, tail: seq<Text>)
    ensures |groups| == |PackFrom(pieces, sep, max, Strung(sep, open))|
    ensures forall i | 0 <= i < |groups| :: PackFrom(pieces, sep, max, Strung(sep, open))[i] == Strung(sep, groups[i])
    ensures Concat(groups) + tail == open + pieces && Strung(sep, tail) == []
    decreases |pieces|
  {
    var buf := Strung(sep, open);
    if pieces == [] {
      groups, tail := if buf == [] then [] else [open], if buf == [] then open else [];
      assert open + pieces == open;
      assert Concat([open]) == open + Concat([]);
    } else {
      var p, rest := pieces[0], pieces[1..];
      assert pieces == [p] + rest;
      if buf != [] && |buf| + |p| + |sep| > max {
        assert Strung(sep, [p]) == p;
        groups, tail := PackStrings(rest, sep, max, [p]);
        assert Concat([open] + groups) == open + Concat(groups);
        groups := [open] + groups;
        ConcatAssoc(open, Concat(groups[1..]), tail);
      } else {
        StrungBy(sep, open, p);
        groups, tail := PackStrings(rest, sep, max, open + [p]);
        ConcatAssoc(open, [p], rest);
      }
    }
  }

  /** Chunks are runs of trimmed paragraphs with a blank line, or of trimmed sentences with a space, between them. */
  lemma ChunksAreStrung(text: Text, sep: Separator, max: int, sentences: bool)
    returns (groups: seq<seq<Text>>, tail: seq<Text>)
    ensures var chunks := if sentences then BySentences(text, max) else ParagraphChunks(text, sep, max);
      && |groups| == |chunks|
      && forall i | 0 <= i < |groups| ::
           chunks[i] == Strung(if sentences then [SPACE] else [LF, LF], groups[i])
    ensures Concat(groups) + tail == if sentences then TrimAll(Sentences(text)) else Trimmed(Split(text, sep))
    ensures forall p | p in tail :: p == []
  {
    var pieces := if sentences then TrimAll(Sentences(text)) else Trimmed(Split(text, sep));
    var between := if sentences then BLANK else BLANK_LINE;
    groups, tail := PackStrings(pieces, between, max, []);
    assert [] + pieces == pieces;
    StrungOfNothing(between, tail);
  }

  lemma {:induction false} StrungOfNothing(sep: Text, pieces: seq<Text>)
    requires sep != [] && Strung(sep, pieces) == []
    ensures forall p | p in pieces :: p == []
    decreases |pieces|
  {
    if pieces != [] {
      StrungOfNothing(sep, pieces[..|pieces| - 1]);
      assert forall p | p in pieces :: p in pieces[..|pieces| - 1] || p == pieces[|pieces| - 1];
    }
  }

  // ---------------------------------------------------------------- sections

  /** The lines of each section. */
  ghost function Groups(lines: seq<Text>, current: seq<Text>): seq<seq<Text>>
    decreases |lines|
  {
    if lines == [] then (if current == [] then [] else [current])
    else if StartsHeading(lines[0]) && current != [] then [current] + Groups(lines[1..], [lines[0]])
    else Groups(lines[1..], current + [lines[0]])
  }

  /** Sections hold all lines in order, no heading but at their start, and one at the start of all but the first. */
  ghost predicate SplitsAtHeadings(groups: seq<seq<Text>>, lines: seq<Text>, opens: bool) {
    && Concat(groups) == lines
    && (forall g | g in groups :: g != [] && HeadsOnly(g))
    && (forall i | (if opens then 1 else 0) <= i < |groups| :: groups[i] != [] && StartsHeading(groups[i][0]))
  }

  ghost predicate HeadsOnly(lines: seq<Text>) {
    forall i | 1 <= i < |lines| :: !StartsHeading(lines[i])
  }

  lemma {:induction false} GroupsSplitAtHeadings(lines: seq<Text>, current: seq<Text>)
    requires HeadsOnly(current)
    ensures SplitsAtHeadings(Groups(lines, current), current + lines, true)
    ensures current != [] ==> Groups(lines, current) != [] && current <= Groups(lines, current)[0]
    decreases |lines|
  {
    if lines == [] {
      assert current + lines == current;
      assert current != [] ==> Concat([current]) == current + Concat([]);
    } else if StartsHeading(lines[0]) && current != [] {
      var rest := Groups(lines[1..], [lines[0]]);
      GroupsSplitAtHeadings(lines[1..], [lines[0]]);
      assert ([current] + rest)[1..] == rest;
      assert current + ([lines[0]] + lines[1..]) == current + lines;
      assert rest[0][0] == lines[0];
    } else {
      GroupsSplitAtHeadings(lines[1..], current + [lines[0]]);
      assert current + [lines[0]] + lines[1..] == current + lines;
    }
  }

  /** Every section is the lines of one group, joined and trimmed. */
  lemma {:induction false} SectionsAreGroups(lines: seq<Text>, current: seq<Text>)
    ensures var groups, sections := Groups(lines, current), SectionsFrom(lines, current);
      |sections| == |groups| && forall i | 0 <= i < |groups| :: sections[i] == Trim(Join(groups[i]))
    decreases |lines|
  {
    if lines != [] {
      if StartsHeading(lines[0]) && current != [] {
        SectionsAreGroups(lines[1..], [lines[0]]);
      } else {
        SectionsAreGroups(lines[1..], current + [lines[0]]);
      }
    }
  }

  // ---------------------------------------------------------------- blank markdown

  ghost predicate IsBlank(s: Text) {
    forall k | 0 <= k < |s| :: IsSpace(s[k])
  }

  lemma {:induction false} BlankLinesStayBlank(text: Text, start: nat, i: nat)
    requires start <= i <= |text| && IsBlank(text)
    ensures forall l | l in SplitFrom(text, LineFeedAt, start, i) :: IsBlank(l)
    decreases |text| - i
  {
    if i < |text| {
      if 0 < LineFeedAt(text, i) {
        BlankLinesStayBlank(text, i + 1, i + 1);
      } else {
        BlankLinesStayBlank(text, start, i + 1);
      }
    }
  }

  lemma BlankLineIsNoHeading(line: Text)
    requires IsBlank(line)
    ensures !StartsHeading(line)
  {
    assert RunEnd(line, IsHash, 0) == 0;
  }

  lemma {:induction false} BlankLinesAreOneSection(lines: seq<Text>, current: seq<Text>)
    requires forall l | l in lines :: IsBlank(l)
    requires lines + current != []
    ensures SectionsFrom(lines, current) == [Trim(Join(current + lines))]
    decreases |lines|
  {
    if lines == [] {
      assert current + lines == current;
    } else {
      BlankLineIsNoHeading(lines[0]);
      BlankLinesAreOneSection(lines[1..], current + [lines[0]]);
      assert current + [lines[0]] + lines[1..] == current + lines;
    }
  }

  lemma {:induction false} TrimOfBlank(s: Text)
    requires IsBlank(s)
    ensures TrimStart(s) == [] && Trim(s) == []
    decreases |s|
  {
    if s != [] {
      TrimOfBlank(s[1..]);
    }
  }

  lemma {:induction false} JoinOfBlank(lines: seq<Text>)
    requires forall l | l in lines :: IsBlank(l)
    ensures IsBlank(Join(lines))
    decreases |lines|
  {
    if |lines| > 1 {
      JoinOfBlank(lines[..|lines| - 1]);
      assert IsBlank(lines[|lines| - 1]);
    } else if |lines| == 1 {
      assert IsBlank(lines[0]);
    }
  }

  /** A blank page is not without chunks: it has one, and that is empty. */
  lemma BlankMarkdownIsOneEmptyChunk(text: Text, maxTokens: int)
    requires maxTokens >= 0 && IsBlank(text)
    ensures ChunkedMarkdown(text, maxTokens) == [[]]
  {
    var lines, max := Split(text, LineFeedAt), maxTokens * 4;
    BlankLinesStayBlank(text, 0, 0);
    BlankLinesAreOneSection(lines, []);
    assert [] + lines == lines;
    JoinOfBlank(lines);
    TrimOfBlank(Join(lines));
    assert SectionsFrom(lines, []) == [[]];
    assert SectionChunks([[]], max) == [[]] + SectionChunks([], max);
    assert Refined([[]], max) == [[]] + Refined([], max);
  }

  // ---------------------------------------------------------------- windows of lines

  /** How far the window moves. */
  function WindowStep(linesPerChunk: nat, overlap: int): (step: nat)
    ensures step >= 1
  {
    if linesPerChunk - overlap < 1 then 1 else linesPerChunk - overlap
  }

  function Window(lines: seq<Text>, i: nat, linesPerChunk: nat): seq<Text>
    requires i <= |lines|
  {
    lines[i..if i + linesPerChunk < |lines| then i + linesPerChunk else |lines|]
  }

  function WindowText(lines: seq<Text>, i: nat, linesPerChunk: nat): Text
    requires i <= |lines|
  {
    Trim(Join(Window(lines, i, linesPerChunk)))
  }

  /** The chunks of one window; a blank window has none. */
  function WindowChunk(lines: seq<Text>, i: nat, linesPerChunk: nat, max: int): seq<Text>
    requires i <= |lines|
  {
    var chunk := WindowText(lines, i, linesPerChunk);
    if chunk == [] then [] else if |chunk| > max then BySentences(chunk, max) else [chunk]
  }

  /** The chunks of each window, by its first line. */
  function WindowChunker(lines: seq<Text>, linesPerChunk: nat, max: int): nat -> seq<Text> {
    (i: nat) => if i <= |lines| then WindowChunk(lines, i, linesPerChunk, max) else []
  }

  /** What the windows of `n` lines from the `i`-th on give, by the first line of each. */
  function Windowed(give: nat -> seq<Text>, n: nat, i: nat, step: nat): seq<Text>
    requires step >= 1
    decreases n - i
  {
    if i >= n then [] else give(i) + Windowed(give, n, i + step, step)
  }

  function ChunkedLines(text: Text, maxTokens: int, linesPerChunk: nat, overlap: int): seq<Text> {
    var lines := Split(text, LineFeedAt);
    Windowed(WindowChunker(lines, linesPerChunk, maxTokens * 4), |lines|, 0, WindowStep(linesPerChunk, overlap))
  }

  /** First lines of windows: from `i` on, so far apart, up to the last that is below `n`. */
  ghost predicate Starts(starts: seq<nat>, i: nat, apart: int, n: nat) {
    && (i < n ==> starts != [] && starts[0] == i && starts[|starts| - 1] + apart >= n)
    && (i >= n ==> starts == [])
    && (forall j | 0 <= j < |starts| :: starts[j] < n)
    && (forall j | 0 <= j < |starts| - 1 :: starts[j + 1] == starts[j] + apart)
  }

  lemma {:induction false} WindowedIsConcat(give: nat -> seq<Text>, n: nat, i: nat, step: nat)
    returns (starts: seq<nat>, parts: seq<seq<Text>>)
    requires step >= 1
    ensures Starts(starts, i, step, n) && |parts| == |starts|
    ensures forall j | 0 <= j < |starts| :: parts[j] == give(starts[j])
    ensures Windowed(give, n, i, step) == Concat(parts)
    decreases n - i
  {
    if i >= n {
      starts, parts := [], [];
    } else {
      var laterStarts, laterParts := WindowedIsConcat(give, n, i + step, step);
      starts, parts := [i] + laterStarts, [give(i)] + laterParts;
      assert parts[1..] == laterParts;
    }
  }

  /** The window's lines, joined and trimmed: nothing if blank, at once if they fit, else by sentences. */
  ghost predicate WindowGives(window: seq<Text>, max: int, part: seq<Text>) {
    var text := Trim(Join(window));
    && (text == [] ==> part == [])
    && (text != [] && |text| <= max ==> part == [text])
    && (text != [] && |text| > max ==> part == BySentences(text, max))
  }

  /** The part is that of the window of so many lines, or as many as are left, at the `i`-th. */
  ghost predicate WindowGivesAt(lines: seq<Text>, i: nat, linesPerChunk: nat, max: int, part: seq<Text>) {
    i < |lines| &&
    WindowGives(lines[i..if i + linesPerChunk <= |lines| then i + linesPerChunk else |lines|], max, part)
  }

  lemma ChunkerGives(lines: seq<Text>, i: nat, linesPerChunk: nat, max: int)
    requires i < |lines|
    ensures WindowGivesAt(lines, i, linesPerChunk, max, WindowChunker(lines, linesPerChunk, max)(i))
  {
    var end := if i + linesPerChunk <= |lines| then i + linesPerChunk else |lines|;
    assert Window(lines, i, linesPerChunk) == lines[i..end];
  }

  lemma WindowsGive(lines: seq<Text>, linesPerChunk: nat, max: int, step: nat)
    returns (starts: seq<nat>, parts: seq<seq<Text>>)
    requires step >= 1
    ensures Starts(starts, 0, step, |lines|) && |parts| == |starts|
    ensures Windowed(WindowChunker(lines, linesPerChunk, max), |lines|, 0, step) == Concat(parts)
    ensures forall j | 0 <= j < |starts| :: WindowGivesAt(lines, starts[j], linesPerChunk, max, parts[j])
  {
    starts, parts := WindowedIsConcat(WindowChunker(lines, linesPerChunk, max), |lines|, 0, step);
    forall j | 0 <= j < |starts| ensures WindowGivesAt(lines, starts[j], linesPerChunk, max, parts[j]) {
      ChunkerGives(lines, starts[j], linesPerChunk, max);
    }
  }

  /**
   * The chunks are those of windows of so many lines, or as many as are left, the first at the first line
   * and each the size less the overlap behind the one before, but at least a line.
   */
  lemma LinesAreWindowed(text: Text, maxTokens: int, linesPerChunk: nat, overlap: int)
    returns (starts: seq<nat>, parts: seq<seq<Text>>)
    ensures var lines, apart := Split(text, LineFeedAt), linesPerChunk - overlap;
      && Starts(starts, 0, if apart > 1 then apart else 1, |lines|)
      && |parts| == |starts|
      && ChunkedLines(text, maxTokens, linesPerChunk, overlap) == Concat(parts)
      && forall j | 0 <= j < |starts| :: WindowGivesAt(lines, starts[j], linesPerChunk, maxTokens * 4, parts[j])
  {
    starts, parts := WindowsGive(
      Split(text, LineFeedAt), linesPerChunk, maxTokens * 4, WindowStep(linesPerChunk, overlap));
  }

  /** Of `n` lines, the `k`-th is in one of the windows taken from the `i`-th line on. */
  predicate InWindows(n: nat, linesPerChunk: nat, step: nat, i: nat, k: nat)
    requires step >= 1
    decreases n - i
  {
    i < n && (i <= k < i + linesPerChunk || InWindows(n, linesPerChunk, step, i + step, k))
  }

  ghost predicate WindowsCover(n: nat, linesPerChunk: nat, step: nat)
    requires step >= 1
  {
    forall k: nat | k < n :: InWindows(n, linesPerChunk, step, 0, k)
  }

  lemma {:induction false} LaterLinesAreIn(n: nat, linesPerChunk: nat, step: nat, i: nat, k: nat)
    requires 1 <= step <= linesPerChunk && i <= k < n
    ensures InWindows(n, linesPerChunk, step, i, k)
    decreases n - i
  {
    if i + linesPerChunk <= k {
      LaterLinesAreIn(n, linesPerChunk, step, i + step, k);
    }
  }

  lemma {:induction false} EarlierLinesAreOut(n: nat, linesPerChunk: nat, step: nat, i: nat, k: nat)
    requires 1 <= step && k < i
    ensures !InWindows(n, linesPerChunk, step, i, k)
    decreases n - i
  {
    if i < n {
      EarlierLinesAreOut(n, linesPerChunk, step, i + step, k);
    }
  }

  /** The windows leave out no line exactly when they move by no more than their size, or one takes all lines. */
  lemma WindowsCoverUnlessTheyJump(n: nat, linesPerChunk: nat, step: nat)
    requires step >= 1
    ensures WindowsCover(n, linesPerChunk, step) <==> step <= linesPerChunk || n <= linesPerChunk
  {
    if step <= linesPerChunk {
      forall k: nat | k < n ensures InWindows(n, linesPerChunk, step, 0, k) {
        LaterLinesAreIn(n, linesPerChunk, step, 0, k);
      }
    } else if n > linesPerChunk {
      EarlierLinesAreOut(n, linesPerChunk, step, step, linesPerChunk);
      assert !InWindows(n, linesPerChunk, step, 0, linesPerChunk);
    }
  }

  /** With windows that are not empty and an overlap that is not negative no line is left out. */
  lemma OverlappingWindowsCover(n: nat, linesPerChunk: nat, overlap: int)
    requires linesPerChunk >= 1 && overlap >= 0
    ensures WindowsCover(n, linesPerChunk, WindowStep(linesPerChunk, overlap))
  {
    WindowsCoverUnlessTheyJump(n, linesPerChunk, WindowStep(linesPerChunk, overlap));
  }

  // ---------------------------------------------------------------- what windows promise

  /** The text of each window. */
  function WindowTexts(lines: seq<Text>, linesPerChunk: nat): nat -> seq<Text> {
    (i: nat) => if i <= |lines| then [WindowText(lines, i, linesPerChunk)] else []
  }

  lemma WindowIsBounded(lines: seq<Text>, i: nat, linesPerChunk: nat, max: int)
    requires i <= |lines|
    ensures AllBounded(WindowChunk(lines, i, linesPerChunk, max), max, [WindowText(lines, i, linesPerChunk)])
  {
    var chunk := WindowText(lines, i, linesPerChunk);
    if |chunk| > max {
      BySentencesIsBounded(chunk, max, [chunk]);
    }
  }

  lemma MoreParagraphsBound(chunks: seq<Text>, max: int, some: seq<Text>, all: seq<Text>)
    requires AllBounded(chunks, max, some) && forall p | p in some :: p in all
    ensures AllBounded(chunks, max, all)
  {
    forall c | c in chunks ensures Bounded(c, max, all) {
      assert Bounded(c, max, some);
    }
  }

  lemma {:induction false} WindowedIsBounded(
      give: nat -> seq<Text>, texts: nat -> seq<Text>, n: nat, i: nat, step: nat, max: int)
    requires step >= 1 && forall j: nat | j < n :: AllBounded(give(j), max, texts(j))
    ensures AllBounded(Windowed(give, n, i, step), max, Windowed(texts, n, i, step))
    decreases n - i
  {
    if i < n {
      var all := Windowed(texts, n, i, step);
      WindowedIsBounded(give, texts, n, i + step, step, max);
      assert AllBounded(give(i), max, texts(i));
      MoreParagraphsBound(give(i), max, texts(i), all);
      MoreParagraphsBound(Windowed(give, n, i + step, step), max, Windowed(texts, n, i + step, step), all);
    }
  }

  /** Chunks of lines, too, are within the budget unless they are single sentences of a window. */
  lemma LineChunksAreBounded(text: Text, maxTokens: int, linesPerChunk: nat, overlap: int)
    ensures var lines, step := Split(text, LineFeedAt), WindowStep(linesPerChunk, overlap);
      AllBounded(ChunkedLines(text, maxTokens, linesPerChunk, overlap), maxTokens * 4,
        Windowed(WindowTexts(lines, linesPerChunk), |lines|, 0, step))
  {
    var lines, max := Split(text, LineFeedAt), maxTokens * 4;
    var give, texts := WindowChunker(lines, linesPerChunk, max), WindowTexts(lines, linesPerChunk);
    forall j: nat | j < |lines| ensures AllBounded(give(j), max, texts(j)) {
      WindowIsBounded(lines, j, linesPerChunk, max);
    }
    WindowedIsBounded(give, texts, |lines|, 0, WindowStep(linesPerChunk, overlap), max);
  }

  /** A window's chunks hold everything its lines do but white space and stops. */
  lemma WindowSurvives(lines: seq<Text>, i: nat, linesPerChunk: nat, max: int)
    requires i <= |lines|
    ensures EssenceOf(WindowChunk(lines, i, linesPerChunk, max)) == EssenceOf(Window(lines, i, linesPerChunk))
  {
    var window := Window(lines, i, linesPerChunk);
    var chunk := Trim(Join(window));
    JoinKeepsEssence(window);
    EssenceOfTrim(Join(window));
    BySentencesKeepsEssence(chunk, max);
    EssenceOfOne(chunk);
  }

  predicate Framed(whole: Text, part: Text, before: Text, after: Text) {
    whole == before + part + after
  }

  lemma FramedBehind(first: Text, whole: Text, part: Text, before: Text, after: Text)
    requires Framed(whole, part, before, after)
    ensures Framed(first + whole, part, first + before, after)
  {
    assert first + (before + part + after) == (first + before) + part + after;
  }

  /** Where each window's chunks have some essence, that of a window with the `k`-th line stands in the whole. */
  lemma {:induction false} WindowStands(
      give: nat -> seq<Text>, essence: nat -> Text, n: nat, linesPerChunk: nat, i: nat, step: nat, k: nat)
    returns (w: nat, before: Text, after: Text)
    requires step >= 1 && InWindows(n, linesPerChunk, step, i, k)
    requires forall j: nat | j < n :: EssenceOf(give(j)) == essence(j)
    ensures w <= k < w + linesPerChunk && w < n
    ensures Framed(EssenceOf(Windowed(give, n, i, step)), essence(w), before, after)
    decreases n - i
  {
    var rest := Windowed(give, n, i + step, step);
    EssenceOfAppended(give(i), rest);
    if i <= k < i + linesPerChunk {
      w, before, after := i, [], EssenceOf(rest);
      assert [] + essence(i) + after == essence(i) + after;
    } else {
      w, before, after := WindowStands(give, essence, n, linesPerChunk, i + step, step, k);
      FramedBehind(essence(i), EssenceOf(rest), essence(w), before, after);
      before := essence(i) + before;
    }
  }

  function WindowEssence(lines: seq<Text>, linesPerChunk: nat): nat -> Text {
    (i: nat) => if i <= |lines| then EssenceOf(Window(lines, i, linesPerChunk)) else []
  }

  /** The window at the `w`-th line has the `k`-th, and its lines stand in the chunks, between `before` and `after`. */
  ghost predicate HoldsWindow(
      chunks: seq<Text>, lines: seq<Text>, linesPerChunk: nat, w: nat, k: nat, before: Text, after: Text)
  {
    && w <= k < w + linesPerChunk && w <= |lines|
    && Framed(EssenceOf(chunks), EssenceOf(Window(lines, w, linesPerChunk)), before, after)
  }

  /** A line in one of the windows stands in the chunks, with the other lines of that window around it. */
  lemma CoveredLinesSurvive(text: Text, maxTokens: int, linesPerChunk: nat, overlap: int, k: nat)
    returns (w: nat, before: Text, after: Text)
    requires InWindows(|Split(text, LineFeedAt)|, linesPerChunk, WindowStep(linesPerChunk, overlap), 0, k)
    ensures HoldsWindow(ChunkedLines(text, maxTokens, linesPerChunk, overlap),
      Split(text, LineFeedAt), linesPerChunk, w, k, before, after)
  {
    var lines, max := Split(text, LineFeedAt), maxTokens * 4;
    var give, essence := WindowChunker(lines, linesPerChunk, max), WindowEssence(lines, linesPerChunk);
    forall j: nat | j < |lines| ensures EssenceOf(give(j)) == essence(j) {
      WindowSurvives(lines, j, linesPerChunk, max);
    }
    w, before, after := WindowStands(give, essence, |lines|, linesPerChunk, 0, WindowStep(linesPerChunk, overlap), k);
  }

  lemma {:induction false} SameWindows(
      give: nat -> seq<Text>, give': nat -> seq<Text>, n: nat, linesPerChunk: nat, i: nat, step: nat, k: nat)
    requires step >= 1 && !InWindows(n, linesPerChunk, step, i, k)
    requires forall j: nat | j < n && !(j <= k < j + linesPerChunk) :: give(j) == give'(j)
    ensures Windowed(give, n, i, step) == Windowed(give', n, i, step)
    decreases n - i
  {
    if i < n {
      SameWindows(give, give', n, linesPerChunk, i + step, step, k);
    }
  }

  /** A line in no window leaves no trace: the windows give the same chunks whatever it holds. */
  lemma UncoveredLinesAreLost(
      lines: seq<Text>, line: Text, linesPerChunk: nat, max: int, step: nat, k: nat)
    requires step >= 1 && k < |lines| && !InWindows(|lines|, linesPerChunk, step, 0, k)
    ensures Windowed(WindowChunker(lines, linesPerChunk, max), |lines|, 0, step)
         == Windowed(WindowChunker(lines[k := line], linesPerChunk, max), |lines|, 0, step)
  {
    var give, give' := WindowChunker(lines, linesPerChunk, max), WindowChunker(lines[k := line], linesPerChunk, max);
    forall j: nat | j < |lines| && !(j <= k < j + linesPerChunk) ensures give(j) == give'(j) {
      assert Window(lines, j, linesPerChunk) == Window(lines[k := line], j, linesPerChunk);
    }
    SameWindows(give, give', |lines|, linesPerChunk, 0, step, k);
  }

  /** With windows that are not empty and an overlap that is not negative every line stands in the chunks. */
  lemma OverlappingWindowsKeepLines(text: Text, maxTokens: int, linesPerChunk: nat, overlap: int, k: nat)
    returns (w: nat, before: Text, after: Text)
    requires linesPerChunk >= 1 && overlap >= 0 && k < |Split(text, LineFeedAt)|
    ensures HoldsWindow(ChunkedLines(text, maxTokens, linesPerChunk, overlap),
      Split(text, LineFeedAt), linesPerChunk, w, k, before, after)
  {
    OverlappingWindowsCover(|Split(text, LineFeedAt)|, linesPerChunk, overlap);
    w, before, after := CoveredLinesSurvive(text, maxTokens, linesPerChunk, overlap, k);
  }

  // ---------------------------------------------------------------- the loops

  /** The loop over trimmed paragraphs. */
  method PackParagraphs(paragraphs: seq<Text>, maxChars: int) returns (chunks: seq<Text>)
    ensures chunks == PackFrom(Trimmed(paragraphs), BLANK_LINE, maxChars, [])
  {
    chunks := [];
    var current: Text := [];
    for i := 0 to |paragraphs|
      invariant PackFrom(Trimmed(paragraphs), BLANK_LINE, maxChars, [])
             == chunks + PackFrom(Trimmed(paragraphs[i..]), BLANK_LINE, maxChars, current)
    {
      ghost var rest := Trimmed(paragraphs[i + 1..]);
      TrimmedOne(paragraphs, i);
      var p := Trim(paragraphs[i]);
      if |p| > 0 {
        if |current| > 0 && |current| + |p| + 2 > maxChars {
          ConcatAssoc(chunks, [current], PackFrom(rest, BLANK_LINE, maxChars, p));
          chunks := chunks + [current];
          current := p;
        } else if |current| == 0 {
          current := p;
        } else {
          current := current + BLANK_LINE + p;
        }
      }
    }
    assert paragraphs[|paragraphs|..] == [];
    if |current| > 0 {
      chunks := chunks + [current];
    }
  }

  lemma TrimmedOne(pieces: seq<Text>, i: nat)
    requires i < |pieces|
    ensures var p, rest := Trim(pieces[i]), Trimmed(pieces[i + 1..]);
      if |p| > 0 then Trimmed(pieces[i..]) != [] && Trimmed(pieces[i..])[0] == p && Trimmed(pieces[i..])[1..] == rest
      else Trimmed(pieces[i..]) == rest
  {
    assert pieces[i..][0] == pieces[i] && pieces[i..][1..] == pieces[i + 1..];
  }

  method SplitBySentences(text: Text, maxChars: int) returns (result: seq<Text>)
    ensures result == BySentences(text, maxChars)
  {
    var sentences := Sentences(text);
    ghost var trimmed := TrimAll(sentences);
    result := [];
    var buf: Text := [];
    for i := 0 to |sentences|
      invariant BySentences(text, maxChars) == result + PackFrom(trimmed[i..], BLANK, maxChars, buf)
    {
      assert trimmed[i..][0] == trimmed[i] && trimmed[i..][1..] == trimmed[i + 1..];
      var s := Trim(sentences[i]);
      if |buf| + |s| + 1 > maxChars {
        if |buf| > 0 {
          ConcatAssoc(result, [buf], PackFrom(trimmed[i + 1..], BLANK, maxChars, s));
          result := result + [buf];
        }
        buf := s;
      } else if |buf| == 0 {
        buf := s;
      } else {
        buf := buf + BLANK + s;
      }
    }
    assert trimmed[|sentences|..] == [];
    if |buf| > 0 {
      result := result + [buf];
    }
  }

  method RefineChunks(chunks: seq<Text>, maxChars: int) returns (result: seq<Text>)
    ensures result == Refined(chunks, maxChars)
  {
    result := [];
    for i := 0 to |chunks|
      invariant Refined(chunks, maxChars) == result + Refined(chunks[i..], maxChars)
    {
      assert chunks[i..][0] == chunks[i] && chunks[i..][1..] == chunks[i + 1..];
      ghost var rest := Refined(chunks[i + 1..], maxChars);
      if |chunks[i]| > maxChars {
        var parts := SplitBySentences(chunks[i], maxChars);
        ConcatAssoc(result, parts, rest);
        result := result + parts;
      } else {
        ConcatAssoc(result, [chunks[i]], rest);
        result := result + [chunks[i]];
      }
    }
    assert chunks[|chunks|..] == [];
  }

  method ChunkText(text: Text, maxTokens: int) returns (result: seq<Text>)
    ensures result == ChunkedText(text, maxTokens)
  {
    var chunks := PackParagraphs(Split(text, BlankLinesAt), maxTokens * 4);
    result := RefineChunks(chunks, maxTokens * 4);
  }

  /** One turn of the loop that groups lines into sections. */
  lemma SectionsStep(lines: seq<Text>, i: nat, sections: seq<Text>, current: seq<Text>)
    requires i < |lines|
    ensures sections + SectionsFrom(lines[i..], current)
         == if StartsHeading(lines[i]) && current != []
            then sections + [Trim(Join(current))] + SectionsFrom(lines[i + 1..], [] + [lines[i]])
            else sections + SectionsFrom(lines[i + 1..], current + [lines[i]])
  {
    assert lines[i..][0] == lines[i] && lines[i..][1..] == lines[i + 1..];
    assert [] + [lines[i]] == [lines[i]];
    if StartsHeading(lines[i]) && current != [] {
      ConcatAssoc(sections, [Trim(Join(current))], SectionsFrom(lines[i + 1..], [lines[i]]));
    }
  }

  /** The loop that groups lines into sections. */
  method CollectSections(lines: seq<Text>) returns (sections: seq<Text>)
    ensures sections == SectionsFrom(lines, [])
  {
    sections := [];
    var current: seq<Text> := [];
    for i := 0 to |lines|
      invariant SectionsFrom(lines, []) == sections + SectionsFrom(lines[i..], current)
    {
      SectionsStep(lines, i, sections, current);
      if StartsHeading(lines[i]) {
        if |current| > 0 {
          sections := sections + [Trim(Join(current))];
        }
        current := [];
      }
      current := current + [lines[i]];
    }
    assert lines[|lines|..] == [];
    if |current| > 0 {
      sections := sections + [Trim(Join(current))];
    }
  }

  method ChunkSections(sections: seq<Text>, maxChars: int) returns (chunks: seq<Text>)
    ensures chunks == SectionChunks(sections, maxChars)
  {
    chunks := [];
    for i := 0 to |sections|
      invariant SectionChunks(sections, maxChars) == chunks + SectionChunks(sections[i..], maxChars)
    {
      assert sections[i..][0] == sections[i] && sections[i..][1..] == sections[i + 1..];
      ConcatAssoc(chunks, SectionChunk(sections[i], maxChars), SectionChunks(sections[i + 1..], maxChars));
      if |sections[i]| <= maxChars {
        chunks := chunks + [sections[i]];
      } else {
        var parts := PackParagraphs(Split(sections[i], BlankStretchAt), maxChars);
        chunks := chunks + parts;
      }
    }
    assert sections[|sections|..] == [];
  }

  method ChunkMarkdown(text: Text, maxTokens: int) returns (result: seq<Text>)
    ensures result == ChunkedMarkdown(text, maxTokens)
  {
    var sections := CollectSections(Split(text, LineFeedAt));
    var chunks := ChunkSections(sections, maxTokens * 4);
    result := RefineChunks(chunks, maxTokens * 4);
  }

  /** `all` is what the windows gave so far and what those from the `i`-th line on give. */
  ghost predicate SoFar(
      chunker: nat -> seq<Text>, n: nat, step: nat, all: seq<Text>, done: seq<Text>, i: nat)
    requires step >= 1
  {
    all == done + Windowed(chunker, n, i, step)
  }

  lemma OneWindowMore(chunker: nat -> seq<Text>, n: nat, step: nat, all: seq<Text>, done: seq<Text>, i: nat)
    requires step >= 1 && i < n && SoFar(chunker, n, step, all, done, i)
    ensures SoFar(chunker, n, step, all, done + chunker(i), i + step)
  {
    ConcatAssoc(done, chunker(i), Windowed(chunker, n, i + step, step));
  }

  /** The loop over windows; `chunker` gives the chunks of the window at a line. */
  method SlideWindow(n: nat, step: nat, chunker: nat -> seq<Text>) returns (chunks: seq<Text>)
    requires step >= 1
    ensures chunks == Windowed(chunker, n, 0, step)
  {
    chunks := [];
    var i := 0;
    ghost var all := Windowed(chunker, n, 0, step);
    while i < n
      invariant SoFar(chunker, n, step, all, chunks, i)
      decreases n - i
    {
      OneWindowMore(chunker, n, step, all, chunks, i);
      chunks := chunks + chunker(i);
      i := i + step;
    }
  }

  method ChunkLines(text: Text, maxTokens: int, linesPerChunk: nat, overlap: int) returns (chunks: seq<Text>)
    ensures chunks == ChunkedLines(text, maxTokens, linesPerChunk, overlap)
  {
    var lines := Split(text, LineFeedAt);
    chunks := SlideWindow(|lines|, WindowStep(linesPerChunk, overlap),
      WindowChunker(lines, linesPerChunk, maxTokens * 4));
  }
}
