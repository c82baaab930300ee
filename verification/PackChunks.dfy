/**
 * Greedy packing of a message into chunks: every window of the text is cut at its last paragraph
 * break, else at its last line break, else hard at the budget; a break that would leave a heading
 * as the last line is not a break, and a window holding only line breaks is skipped.
 */
module PackChunks {
  import opened Sequences
  import opened Text
  import opened Headings

  // ---------------------------------------------------------------- one window

  predicate AllBreaks(text: Text, lo: nat, hi: nat)
    requires hi <= |text|
  {
    forall k | lo <= k < hi :: text[k] == LF
  }

  predicate ParagraphBreakAt(d: Doc, a: nat) {
    a + 1 < |d.text| && d.text[a] == LF && d.text[a + 1] == LF && !d.headingEnds[a + 1]
  }

  predicate LineBreakAt(d: Doc, a: nat) {
    a < |d.text| && d.text[a] == LF && !d.headingEnds[a]
  }

  ghost predicate NoParagraphBreak(d: Doc, lo: nat, hi: int) {
    forall a: nat | lo <= a < hi :: !ParagraphBreakAt(d, a)
  }

  ghost predicate NoLineBreak(d: Doc, lo: nat, hi: int) {
    forall a: nat | lo <= a < hi :: !LineBreakAt(d, a)
  }

  /** The last usable paragraph break in `lo..=hi`, or -1. */
  function LastParagraphBreak(d: Doc, lo: nat, hi: int): (k: int)
    ensures k == -1 || (lo <= k <= hi && ParagraphBreakAt(d, k))
    ensures NoParagraphBreak(d, if k < 0 then lo else k + 1, hi + 1)
    decreases hi - lo
  {
    if hi < lo then -1
    else if ParagraphBreakAt(d, hi) then hi
    else LastParagraphBreak(d, lo, hi - 1)
  }

  /** The last usable line break in `lo..=hi`, or -1. */
  function LastLineBreak(d: Doc, lo: nat, hi: int): (k: int)
    ensures k == -1 || (lo <= k <= hi && LineBreakAt(d, k))
    ensures NoLineBreak(d, if k < 0 then lo else k + 1, hi + 1)
    decreases hi - lo
  {
    if hi < lo then -1
    else if LineBreakAt(d, hi) then hi
    else LastLineBreak(d, lo, hi - 1)
  }

  /** Where a window's chunk ends and where the next window starts, as offsets into the text. */
  datatype Cut = Cut(end: nat, resume: nat)

  function CutWindow(d: Doc, pos: nat, budget: nat): (c: Cut)
    requires budget >= 1 && pos + budget < |d.text|
    ensures pos <= c.end <= c.resume <= |d.text| && pos < c.resume
    ensures c.end <= pos + budget
    ensures c.resume <= c.end + 1 && AllBreaks(d.text, c.end, c.resume)
  {
    var para := LastParagraphBreak(d, pos, pos + budget - 1);
    if para >= 0 then Cut(para + 1, para + 2)
    else
      var line := LastLineBreak(d, pos, pos + budget);
      if line >= 0 then Cut(line, line + 1) else Cut(pos + budget, pos + budget)
  }

  /**
   * A chunk is cut short of the budget only at the window's last usable paragraph break (whose first
   * line feed it keeps), else at its last usable line break; a hard cut is made only where the
   * window holds no usable break at all. A usable break never ends a heading line.
   */
  lemma CutsAtLastUsableBreak(d: Doc, pos: nat, budget: nat)
    requires budget >= 1 && pos + budget < |d.text|
    ensures var c := CutWindow(d, pos, budget);
      if !NoParagraphBreak(d, pos, pos + budget) then
        && c.end > pos && c.resume == c.end + 1
        && ParagraphBreakAt(d, c.end - 1) && NoParagraphBreak(d, c.end, pos + budget)
      else if !NoLineBreak(d, pos, pos + budget + 1) then
        && c.resume == c.end + 1
        && LineBreakAt(d, c.end) && NoLineBreak(d, c.end + 1, pos + budget + 1)
      else
        c == Cut(pos + budget, pos + budget)
  {
    var para := LastParagraphBreak(d, pos, pos + budget - 1);
    if para < 0 {
      var line := LastLineBreak(d, pos, pos + budget);
    }
  }

  // ---------------------------------------------------------------- packing

  /** A packed chunk: the `len` characters of the text from `start`. */
  datatype Chunk = Chunk(start: nat, len: nat) {
    function End(): (e: nat)
      ensures start <= e
    {
      start + len
    }

    function Body(text: Text): (body: Text)
      requires End() <= |text|
      ensures |body| == len
    {
      text[start..End()]
    }
  }

  /** Budget of the next window; `some` says that a chunk has been packed already. */
  function Budget(maxChunk: nat, reserve: nat, some: bool): (b: nat)
    requires maxChunk >= 1
    ensures 1 <= b <= maxChunk
  {
    if !some then maxChunk else if maxChunk - reserve < 1 then 1 else maxChunk - reserve
  }

  /** One turn of the packing loop: the chunk gained, if any, and where the next window starts. */
  datatype Turn = Turn(gained: seq<Chunk>, resume: nat)

  function TurnAt(d: Doc, pos: nat, budget: nat, some: bool): (t: Turn)
    requires budget >= 1 && pos < |d.text|
    ensures pos < t.resume <= |d.text|
    ensures |t.gained| <= 1
  {
    var last := |d.text| - pos <= budget;
    var c := if last then Cut(|d.text|, |d.text|) else CutWindow(d, pos, budget);
    if AllBreaks(d.text, pos, c.end) && (some || !last) then Turn([], c.resume)
    else Turn([Chunk(pos, c.end - pos)], c.resume)
  }

  /** The chunks packed from offset `pos` on. */
  function Pack(d: Doc, pos: nat, some: bool, maxChunk: nat, reserve: nat): seq<Chunk>
    requires maxChunk >= 1 && pos <= |d.text|
    decreases |d.text| - pos
  {
    if pos == |d.text| then []
    else
      var t := TurnAt(d, pos, Budget(maxChunk, reserve, some), some);
      t.gained + Pack(d, t.resume, some || t.gained != [], maxChunk, reserve)
  }

  function PackAll(text: Text, maxChunk: nat, reserve: nat): seq<Chunk>
    requires maxChunk >= 1
  {
    Pack(Rule(text), 0, false, maxChunk, reserve)
  }

  /** Whether `text.slice(lo, hi)` holds only line breaks. */
  method IsAllBreaks(text: Text, lo: nat, hi: nat) returns (all: bool)
    requires lo <= hi <= |text|
    ensures all <==> AllBreaks(text, lo, hi)
  {
    for i := lo to hi
      invariant AllBreaks(text, lo, i)
    {
      if text[i] != LF {
        return false;
      }
    }
    return true;
  }

  method IsParagraphBreak(text: Text, a: nat, ghost d: Doc) returns (usable: bool)
    requires a + 1 < |text| && IsRuled(d, text)
    ensures usable == ParagraphBreakAt(d, a)
  {
    if text[a] != LF || text[a + 1] != LF {
      return false;
    }
    var heading := JudgeHeading(text, a + 1, d);
    return !heading;
  }

  method IsLineBreak(text: Text, a: nat, ghost d: Doc) returns (usable: bool)
    requires a < |text| && IsRuled(d, text)
    ensures usable == LineBreakAt(d, a)
  {
    if text[a] != LF {
      return false;
    }
    var heading := JudgeHeading(text, a, d);
    return !heading;
  }

  /** The backward scan for a paragraph break; -1 when there is none. */
  method ScanParagraphBreak(text: Text, pos: nat, limit: int, ghost d: Doc) returns (split: int)
    requires limit >= -1 && pos + limit + 1 < |text| && IsRuled(d, text)
    ensures split >= -1
    ensures LastParagraphBreak(d, pos, pos + limit) == if split >= 0 then pos + split else -1
  {
    var i := limit;
    while i >= 0
      invariant -1 <= i <= limit
      invariant LastParagraphBreak(d, pos, pos + limit) == LastParagraphBreak(d, pos, pos + i)
    {
      var usable := IsParagraphBreak(text, pos + i, d);
      if usable {
        return i;
      }
      i := i - 1;
    }
    return -1;
  }

  /** The backward scan for a line break; -1 when there is none. */
  method ScanLineBreak(text: Text, pos: nat, limit: int, ghost d: Doc) returns (split: int)
    requires limit >= -1 && pos + limit < |text| && IsRuled(d, text)
    ensures split >= -1
    ensures LastLineBreak(d, pos, pos + limit) == if split >= 0 then pos + split else -1
  {
    var i := limit;
    while i >= 0
      invariant -1 <= i <= limit
      invariant LastLineBreak(d, pos, pos + limit) == LastLineBreak(d, pos, pos + i)
    {
      var usable := IsLineBreak(text, pos + i, d);
      if usable {
        return i;
      }
      i := i - 1;
    }
    return -1;
  }

  /** The choice between paragraph break, line break and hard cut, from the two scans. */
  lemma CutOfScans(d: Doc, pos: nat, budget: nat, para: int, line: int)
    requires budget >= 1 && pos + budget < |d.text|
    requires LastParagraphBreak(d, pos, pos + budget - 1) == para
    requires para < 0 ==> LastLineBreak(d, pos, pos + budget) == line
    ensures CutWindow(d, pos, budget)
         == if para >= 0 then Cut(para + 1, para + 2)
            else if line >= 0 then Cut(line, line + 1) else Cut(pos + budget, pos + budget)
  {
  }

  /** A window without a paragraph break. */
  method FindLineCut(text: Text, pos: nat, budget: nat, ghost d: Doc) returns (chunkLen: nat, resume: nat)
    requires budget >= 1 && pos + budget < |text| && IsRuled(d, text)
    requires LastParagraphBreak(d, pos, pos + budget - 1) == -1
    ensures CutWindow(d, pos, budget) == Cut(pos + chunkLen, pos + resume)
  {
    var remaining := |text| - pos;
    var lineLimit := if budget < remaining - 1 then budget else remaining - 1;
    var split := ScanLineBreak(text, pos, lineLimit, d);
    CutOfScans(d, pos, budget, -1, if split >= 0 then pos + split else -1);
    if split >= 0 {
      return split, split + 1;
    }
    return budget, budget;
  }

  /** The chunk's length and where the next window starts, as offsets into the window. */
  method FindCut(text: Text, pos: nat, budget: nat, ghost d: Doc) returns (chunkLen: nat, resume: nat)
    requires budget >= 1 && pos + budget < |text| && IsRuled(d, text)
    ensures CutWindow(d, pos, budget) == Cut(pos + chunkLen, pos + resume)
  {
    var remaining := |text| - pos;
    var paraLimit := if budget - 1 < remaining - 2 then budget - 1 else remaining - 2;
    var split := ScanParagraphBreak(text, pos, paraLimit, d);
    if split >= 0 {
      CutOfScans(d, pos, budget, pos + split, -1);
      return split + 1, split + 2;
    }
    chunkLen, resume := FindLineCut(text, pos, budget, d);
  }

  /** A turn, from the window's cut and whether the cut-off part is blank. */
  lemma TurnOfCut(d: Doc, pos: nat, budget: nat, some: bool, c: Cut, blank: bool)
    requires budget >= 1 && pos < |d.text| && pos <= c.end <= |d.text|
    requires c == if |d.text| - pos <= budget then Cut(|d.text|, |d.text|) else CutWindow(d, pos, budget)
    requires blank == AllBreaks(d.text, pos, c.end)
    ensures TurnAt(d, pos, budget, some)
         == Turn(if blank && (some || budget < |d.text| - pos) then [] else [Chunk(pos, c.end - pos)], c.resume)
  {
  }

  /** The body of the packing loop: one window is measured, cut, and kept or skipped. */
  method PackWindow(text: Text, pos: nat, budget: nat, some: bool, ghost d: Doc)
    returns (gained: seq<Chunk>, next: nat)
    requires budget >= 1 && pos < |text| && IsRuled(d, text)
    ensures Turn(gained, next) == TurnAt(d, pos, budget, some)
  {
    var remaining := |text| - pos;
    var last := remaining <= budget;
    var chunkLen, resume := remaining, remaining;
    if !last {
      chunkLen, resume := FindCut(text, pos, budget, d);
    }
    var blank := IsAllBreaks(text, pos, pos + chunkLen);
    TurnOfCut(d, pos, budget, some, Cut(pos + chunkLen, pos + resume), blank);
    next := pos + resume;
    gained := if blank && (some || !last) then [] else [Chunk(pos, chunkLen)];
  }

  lemma PackTurn(packed: seq<Chunk>, d: Doc, pos: nat, maxChunk: nat, reserve: nat)
    requires maxChunk >= 1 && pos < |d.text|
    ensures var t := TurnAt(d, pos, Budget(maxChunk, reserve, |packed| > 0), |packed| > 0);
      packed + Pack(d, pos, |packed| > 0, maxChunk, reserve)
      == (packed + t.gained) + Pack(d, t.resume, |packed + t.gained| > 0, maxChunk, reserve)
  {
    var some := |packed| > 0;
    var t := TurnAt(d, pos, Budget(maxChunk, reserve, some), some);
    assert |packed + t.gained| > 0 <==> some || t.gained != [];
    ConcatAssoc(packed, t.gained, Pack(d, t.resume, some || t.gained != [], maxChunk, reserve));
  }

  method PackRuled(text: Text, maxChunk: nat, continuationReserve: nat, ghost d: Doc) returns (chunks: seq<Chunk>)
    requires maxChunk >= 1 && IsRuled(d, text)
    ensures chunks == Pack(d, 0, false, maxChunk, continuationReserve)
  {
    ghost var all := Pack(d, 0, false, maxChunk, continuationReserve);
    chunks := [];
    var pos := 0;
    while pos < |text|
      invariant pos <= |text|
      invariant all == chunks + Pack(d, pos, |chunks| > 0, maxChunk, continuationReserve)
      decreases |text| - pos
    {
      PackTurn(chunks, d, pos, maxChunk, continuationReserve);
      var budget := if |chunks| == 0 then maxChunk
                    else if maxChunk - continuationReserve < 1 then 1
                    else maxChunk - continuationReserve;
      var gained, next := PackWindow(text, pos, budget, |chunks| > 0, d);
      chunks := chunks + gained;
      pos := next;
    }
  }

  /** The packing loop computes `PackAll`. */
  method PackLoop(text: Text, maxChunk: nat, continuationReserve: nat) returns (chunks: seq<Chunk>)
    requires maxChunk >= 1
    ensures chunks == PackAll(text, maxChunk, continuationReserve)
  {
    RuleIsRuled(text);
    chunks := PackRuled(text, maxChunk, continuationReserve, Rule(text));
  }

  // ---------------------------------------------------------------- conservation

  /** Chunks are non-empty, ordered and disjoint from `pos` on; characters between them are breaks. */
  ghost predicate Tiles(text: Text, pos: nat, chunks: seq<Chunk>)
    requires pos <= |text|
    decreases |chunks|
  {
    if chunks == [] then AllBreaks(text, pos, |text|)
    else
      && pos <= chunks[0].start
      && chunks[0].len >= 1
      && chunks[0].End() <= |text|
      && AllBreaks(text, pos, chunks[0].start)
      && Tiles(text, chunks[0].End(), chunks[1..])
  }

  /** A gap of line breaks may be put in front of a tiling. */
  lemma TilesFromEarlier(text: Text, pos: nat, pos': nat, chunks: seq<Chunk>)
    requires pos <= pos' <= |text| && AllBreaks(text, pos, pos') && Tiles(text, pos', chunks)
    ensures Tiles(text, pos, chunks)
  {
  }

  lemma TurnTiles(d: Doc, pos: nat, budget: nat, some: bool, rest: seq<Chunk>)
    requires budget >= 1 && pos < |d.text|
    requires Tiles(d.text, TurnAt(d, pos, budget, some).resume, rest)
    ensures Tiles(d.text, pos, TurnAt(d, pos, budget, some).gained + rest)
  {
    var t := TurnAt(d, pos, budget, some);
    if t.gained == [] {
      assert t.gained + rest == rest;
      TilesFromEarlier(d.text, pos, t.resume, rest);
    } else {
      TilesFromEarlier(d.text, t.gained[0].End(), t.resume, rest);
      assert (t.gained + rest)[1..] == rest;
    }
  }

  lemma {:induction false} PackTiles(d: Doc, pos: nat, some: bool, maxChunk: nat, reserve: nat)
    requires maxChunk >= 1 && pos <= |d.text|
    ensures Tiles(d.text, pos, Pack(d, pos, some, maxChunk, reserve))
    decreases |d.text| - pos
  {
    if pos < |d.text| {
      var budget := Budget(maxChunk, reserve, some);
      var t := TurnAt(d, pos, budget, some);
      PackTiles(d, t.resume, some || t.gained != [], maxChunk, reserve);
      TurnTiles(d, pos, budget, some, Pack(d, t.resume, some || t.gained != [], maxChunk, reserve));
    }
  }

  ghost predicate FitsBudgets(chunks: seq<Chunk>, some: bool, maxChunk: nat, reserve: nat)
    requires maxChunk >= 1
  {
    forall k | 0 <= k < |chunks| :: chunks[k].len <= Budget(maxChunk, reserve, some || k > 0)
  }

  /** Every chunk fits its window's budget: the first the whole, the others the reduced one. */
  lemma {:induction false} PackSizes(d: Doc, pos: nat, some: bool, maxChunk: nat, reserve: nat)
    requires maxChunk >= 1 && pos <= |d.text|
    ensures FitsBudgets(Pack(d, pos, some, maxChunk, reserve), some, maxChunk, reserve)
    decreases |d.text| - pos
  {
    if pos < |d.text| {
      var t := TurnAt(d, pos, Budget(maxChunk, reserve, some), some);
      PackSizes(d, t.resume, some || t.gained != [], maxChunk, reserve);
    }
  }

  /** The chunks' texts, in order. */
  function Bodies(text: Text, chunks: seq<Chunk>): (bodies: seq<Text>)
    requires forall c | c in chunks :: c.End() <= |text|
    ensures |bodies| == |chunks|
    ensures forall k | 0 <= k < |chunks| :: bodies[k] == chunks[k].Body(text)
  {
    seq(|chunks|, k requires 0 <= k < |chunks| && chunks[k].End() <= |text| => chunks[k].Body(text))
  }

  lemma {:induction false} TilesBounds(text: Text, pos: nat, chunks: seq<Chunk>)
    requires pos <= |text| && Tiles(text, pos, chunks)
    ensures forall k | 0 <= k < |chunks| :: pos <= chunks[k].start < chunks[k].End() <= |text|
    ensures forall j, k | 0 <= j < k < |chunks| :: chunks[j].End() <= chunks[k].start
    ensures |chunks| <= |text| - pos
    decreases |chunks|
  {
    if chunks != [] {
      TilesBounds(text, chunks[0].End(), chunks[1..]);
      assert forall k | 1 <= k < |chunks| :: chunks[k] == chunks[1..][k - 1];
    }
  }

  /** The first `n` chunks hold, in order, every non-break character up to where they end. */
  lemma {:induction false} TilesConserve(text: Text, pos: nat, chunks: seq<Chunk>, n: nat)
    requires pos <= |text| && Tiles(text, pos, chunks) && n <= |chunks|
    requires forall c | c in chunks :: c.End() <= |text|
    requires n > 0 ==> pos <= chunks[n - 1].End()
    ensures NonBreaks(Concat(Bodies(text, chunks[..n])))
         == NonBreaks(text[pos..if n == 0 then pos else chunks[n - 1].End()])
    decreases |chunks|
  {
    if n == 0 {
      assert text[pos..pos] == [];
    } else {
      var first, rest := chunks[0], chunks[1..];
      TilesBounds(text, pos, chunks);
      TilesConserve(text, first.End(), rest, n - 1);
      assert Bodies(text, chunks[..n])[1..] == Bodies(text, rest[..n - 1]);
      NonBreaksConcat(first.Body(text), Concat(Bodies(text, rest[..n - 1])));
      NonBreaksSplit(text, pos, first, chunks[n - 1].End());
    }
  }

  /** Splitting a stretch of text at one chunk with only breaks before it. */
  lemma NonBreaksSplit(text: Text, pos: nat, c: Chunk, end: nat)
    requires pos <= c.start <= c.End() <= end <= |text|
    requires AllBreaks(text, pos, c.start)
    ensures NonBreaks(text[pos..end]) == NonBreaks(c.Body(text)) + NonBreaks(text[c.End()..end])
  {
    var gap, body, rest := text[pos..c.start], c.Body(text), text[c.End()..end];
    assert text[pos..end] == gap + (body + rest);
    NonBreaksConcat(gap, body + rest);
    NonBreaksConcat(body, rest);
    NonBreaksOfBreaks(gap);
  }

  /** After the last chunk only breaks are left. */
  lemma {:induction false} TilesLeftover(text: Text, pos: nat, chunks: seq<Chunk>)
    requires pos <= |text| && Tiles(text, pos, chunks)
    ensures chunks != [] ==> chunks[|chunks| - 1].End() <= |text|
    ensures AllBreaks(text, if chunks == [] then pos else chunks[|chunks| - 1].End(), |text|)
    decreases |chunks|
  {
    if chunks != [] {
      TilesLeftover(text, chunks[0].End(), chunks[1..]);
    }
  }

  // ---------------------------------------------------------------- where chunks end

  /** A line feed at which a chunk may be cut: no heading line ends there. */
  ghost predicate UsableBreak(text: Text, a: nat) {
    a < |text| && text[a] == LF && !HeadingBehind(text, a)
  }

  /** The first of two line feeds between which a chunk may be cut. */
  ghost predicate UsablePair(text: Text, a: nat) {
    a + 1 < |text| && text[a] == LF && text[a + 1] == LF && !HeadingBehind(text, a + 1)
  }

  ghost predicate NoUsablePair(text: Text, lo: nat, hi: nat) {
    forall a: nat | lo <= a < hi :: !UsablePair(text, a)
  }

  ghost predicate NoUsableBreak(text: Text, lo: nat, hi: nat) {
    forall a: nat | lo <= a < hi :: !UsableBreak(text, a)
  }

  /**
   * The chunk takes the rest of the text where that fits the budget; else it ends behind the first of the
   * last usable pair of line feeds in its window, else at the last usable line feed up to the budget, and is
   * as long as the budget where there is none.
   */
  ghost predicate EndsRight(text: Text, c: Chunk, budget: nat) {
    if |text| <= c.start + budget then c.End() == |text|
    else if !NoUsablePair(text, c.start, c.start + budget) then
      && c.len >= 1 && UsablePair(text, c.End() - 1) && c.len <= budget
      && NoUsablePair(text, c.End(), c.start + budget)
    else if !NoUsableBreak(text, c.start, c.start + budget + 1) then
      && UsableBreak(text, c.End()) && c.len <= budget
      && NoUsableBreak(text, c.End() + 1, c.start + budget + 1)
    else c.len == budget
  }

  /** The breaks of a ruled text are those of the text. */
  lemma BreaksMean(text: Text, a: nat)
    ensures ParagraphBreakAt(Rule(text), a) <==> UsablePair(text, a)
    ensures LineBreakAt(Rule(text), a) <==> UsableBreak(text, a)
  {
    if a < |text| {
      RuledMeans(text, a);
      RuledMeans(text, a + 1);
    }
  }

  lemma NoBreaksMean(text: Text, lo: nat, hi: nat)
    ensures NoParagraphBreak(Rule(text), lo, hi) <==> NoUsablePair(text, lo, hi)
    ensures NoLineBreak(Rule(text), lo, hi) <==> NoUsableBreak(text, lo, hi)
  {
    forall a: nat ensures ParagraphBreakAt(Rule(text), a) <==> UsablePair(text, a) {
      BreaksMean(text, a);
    }
    forall a: nat ensures LineBreakAt(Rule(text), a) <==> UsableBreak(text, a) {
      BreaksMean(text, a);
    }
  }

  lemma PairEndsRight(text: Text, c: Chunk, budget: nat)
    requires c.start + budget < |text| && 1 <= c.len <= budget
    requires ParagraphBreakAt(Rule(text), c.End() - 1)
    requires NoParagraphBreak(Rule(text), c.End(), c.start + budget)
    ensures EndsRight(text, c, budget)
  {
    BreaksMean(text, c.End() - 1);
    NoBreaksMean(text, c.End(), c.start + budget);
  }

  lemma LineEndsRight(text: Text, c: Chunk, budget: nat)
    requires c.start + budget < |text| && c.len <= budget && LineBreakAt(Rule(text), c.End())
    requires NoParagraphBreak(Rule(text), c.start, c.start + budget)
    requires NoLineBreak(Rule(text), c.End() + 1, c.start + budget + 1)
    ensures EndsRight(text, c, budget)
  {
    BreaksMean(text, c.End());
    NoBreaksMean(text, c.start, c.start + budget);
    NoBreaksMean(text, c.End() + 1, c.start + budget + 1);
  }

  lemma HardEndsRight(text: Text, c: Chunk, budget: nat)
    requires c.start + budget < |text| && c.len == budget
    requires NoParagraphBreak(Rule(text), c.start, c.start + budget)
    requires NoLineBreak(Rule(text), c.start, c.start + budget + 1)
    ensures EndsRight(text, c, budget)
  {
    NoBreaksMean(text, c.start, c.start + budget);
    NoBreaksMean(text, c.start, c.start + budget + 1);
  }

  lemma CutEndsRight(text: Text, pos: nat, budget: nat)
    requires budget >= 1 && pos + budget < |text|
    ensures EndsRight(text, Chunk(pos, CutWindow(Rule(text), pos, budget).end - pos), budget)
  {
    var c := Chunk(pos, CutWindow(Rule(text), pos, budget).end - pos);
    CutsAtLastUsableBreak(Rule(text), pos, budget);
    if !NoParagraphBreak(Rule(text), pos, pos + budget) {
      PairEndsRight(text, c, budget);
    } else if !NoLineBreak(Rule(text), pos, pos + budget + 1) {
      LineEndsRight(text, c, budget);
    } else {
      HardEndsRight(text, c, budget);
    }
  }

  lemma TurnEndsRight(text: Text, pos: nat, budget: nat, some: bool)
    requires budget >= 1 && pos < |text| && TurnAt(Rule(text), pos, budget, some).gained != []
    ensures EndsRight(text, TurnAt(Rule(text), pos, budget, some).gained[0], budget)
  {
    if pos + budget < |text| {
      CutEndsRight(text, pos, budget);
    }
  }

  /** What the next window may hold: the whole budget before the first chunk, then what the reservation leaves. */
  function WindowBudget(maxChunk: nat, reserve: nat, packed: nat): (budget: nat)
    ensures maxChunk >= 1 ==> budget >= 1
  {
    if packed == 0 then maxChunk else if maxChunk <= reserve then 1 else maxChunk - reserve
  }

  /** A turn gains the chunk when `n` have been packed. */
  ghost predicate GainedBehind(d: Doc, c: Chunk, maxChunk: nat, reserve: nat, n: nat)
    requires maxChunk >= 1
  {
    c.start < |d.text| && TurnAt(d, c.start, WindowBudget(maxChunk, reserve, n), n > 0).gained == [c]
  }

  /** Each of these chunks is gained by a turn when those before it, and `n` others, have been packed. */
  ghost predicate AllGained(d: Doc, chunks: seq<Chunk>, maxChunk: nat, reserve: nat, n: nat)
    requires maxChunk >= 1
    decreases |chunks|
  {
    chunks == [] ||
    (GainedBehind(d, chunks[0], maxChunk, reserve, n) && AllGained(d, chunks[1..], maxChunk, reserve, n + 1))
  }

  lemma {:induction false} AllGainedAt(d: Doc, chunks: seq<Chunk>, maxChunk: nat, reserve: nat, n: nat, k: nat)
    requires maxChunk >= 1 && AllGained(d, chunks, maxChunk, reserve, n) && k < |chunks|
    ensures GainedBehind(d, chunks[k], maxChunk, reserve, n + k)
    decreases k
  {
    if k > 0 {
      AllGainedAt(d, chunks[1..], maxChunk, reserve, n + 1, k - 1);
    }
  }

  lemma TurnThenRest(
      d: Doc, gained: seq<Chunk>, pos: nat, rest: seq<Chunk>, maxChunk: nat, reserve: nat, n: nat)
    requires maxChunk >= 1 && pos < |d.text|
    requires gained == TurnAt(d, pos, WindowBudget(maxChunk, reserve, n), n > 0).gained
    requires AllGained(d, rest, maxChunk, reserve, n + |gained|)
    ensures AllGained(d, gained + rest, maxChunk, reserve, n)
  {
    if gained == [] {
      assert gained + rest == rest;
    } else {
      assert gained == [gained[0]] && (gained + rest)[1..] == rest;
    }
  }

  /** Every packed chunk is gained by a turn with its window's budget. */
  lemma {:induction false} PackIsGained(d: Doc, pos: nat, n: nat, maxChunk: nat, reserve: nat)
    requires maxChunk >= 1 && pos <= |d.text|
    ensures AllGained(d, Pack(d, pos, n > 0, maxChunk, reserve), maxChunk, reserve, n)
    decreases |d.text| - pos
  {
    if pos < |d.text| {
      var t := TurnAt(d, pos, Budget(maxChunk, reserve, n > 0), n > 0);
      assert n > 0 || t.gained != [] <==> n + |t.gained| > 0;
      PackIsGained(d, t.resume, n + |t.gained|, maxChunk, reserve);
      TurnThenRest(d, t.gained, pos, Pack(d, t.resume, n + |t.gained| > 0, maxChunk, reserve), maxChunk, reserve, n);
    }
  }

  /** Every chunk of a text ends where its window's last usable pair, line feed, or budget says. */
  lemma ChunksEndRight(text: Text, maxChunk: nat, reserve: nat, k: nat)
    requires maxChunk >= 1 && k < |PackAll(text, maxChunk, reserve)|
    ensures EndsRight(text, PackAll(text, maxChunk, reserve)[k], WindowBudget(maxChunk, reserve, k))
  {
    var c, budget := PackAll(text, maxChunk, reserve)[k], WindowBudget(maxChunk, reserve, k);
    PackIsGained(Rule(text), 0, 0, maxChunk, reserve);
    AllGainedAt(Rule(text), PackAll(text, maxChunk, reserve), maxChunk, reserve, 0, k);
    TurnEndsRight(text, c.start, budget, k > 0);
  }

  /**
   * A chunk ends with a heading line only at the end of the text, or where its window is cut at the budget
   * because each of its line feeds stands behind a heading line.
   */
  lemma HeadingsStayWithTheirText(text: Text, maxChunk: nat, reserve: nat, k: nat)
    requires maxChunk >= 1 && k < |PackAll(text, maxChunk, reserve)|
    requires PackAll(text, maxChunk, reserve)[k].End() < |text|
    requires HeadingBehind(text, PackAll(text, maxChunk, reserve)[k].End())
    ensures var c := PackAll(text, maxChunk, reserve)[k];
      && c.len == WindowBudget(maxChunk, reserve, k)
      && forall a | c.start <= a <= c.End() && text[a] == LF :: HeadingBehind(text, a)
  {
    ChunksEndRight(text, maxChunk, reserve, k);
    HeadingMeansHardCut(text, PackAll(text, maxChunk, reserve)[k], WindowBudget(maxChunk, reserve, k));
  }

  lemma HeadingMeansHardCut(text: Text, c: Chunk, budget: nat)
    requires EndsRight(text, c, budget) && c.End() < |text| && HeadingBehind(text, c.End())
    ensures c.len == budget
    ensures forall a | c.start <= a <= c.End() && text[a] == LF :: HeadingBehind(text, a)
  {
    forall a | c.start <= a <= c.End() && text[a] == LF ensures HeadingBehind(text, a) {
      assert NoUsableBreak(text, c.start, c.start + budget + 1);
      assert !UsableBreak(text, a);
    }
  }

  // ---------------------------------------------------------------- monotonicity

  /** A later start or a larger budget never gives an earlier resume point. */
  lemma ResumeMonotone(d: Doc, pos: nat, budget: nat, some: bool, pos': nat, budget': nat, some': bool)
    requires 1 <= budget <= budget' && pos <= pos' < |d.text|
    ensures TurnAt(d, pos, budget, some).resume <= TurnAt(d, pos', budget', some').resume
  {
    if pos' + budget' < |d.text| {
      var para := LastParagraphBreak(d, pos, pos + budget - 1);
      var para' := LastParagraphBreak(d, pos', pos' + budget' - 1);
      assert para >= 0 && pos' <= para ==> para <= para';
      assert para == -1 && para' >= 0 ==> para' >= pos + budget;
      var line := LastLineBreak(d, pos, pos + budget);
      var line' := LastLineBreak(d, pos', pos' + budget');
      assert line >= 0 && pos' <= line ==> line <= line';
      assert para == line == -1 && para' == -1 && line' >= 0 ==> line' > pos + budget;
    }
  }

  /** Number of windows visited from `pos`. */
  ghost function Windows(d: Doc, pos: nat, some: bool, maxChunk: nat, reserve: nat): nat
    requires maxChunk >= 1 && pos <= |d.text|
    decreases |d.text| - pos
  {
    if pos == |d.text| then 0
    else
      var t := TurnAt(d, pos, Budget(maxChunk, reserve, some), some);
      1 + Windows(d, t.resume, some || t.gained != [], maxChunk, reserve)
  }

  /** Number of windows skipped because they hold only line breaks. */
  ghost function Skips(d: Doc, pos: nat, some: bool, maxChunk: nat, reserve: nat): nat
    requires maxChunk >= 1 && pos <= |d.text|
    decreases |d.text| - pos
  {
    if pos == |d.text| then 0
    else
      var t := TurnAt(d, pos, Budget(maxChunk, reserve, some), some);
      (if t.gained == [] then 1 else 0) + Skips(d, t.resume, some || t.gained != [], maxChunk, reserve)
  }

  /** Every window is either a chunk or skipped. */
  lemma {:induction false} CountIsWindowsLessSkips(d: Doc, pos: nat, some: bool, maxChunk: nat, reserve: nat)
    requires maxChunk >= 1 && pos <= |d.text|
    ensures |Pack(d, pos, some, maxChunk, reserve)| + Skips(d, pos, some, maxChunk, reserve)
         == Windows(d, pos, some, maxChunk, reserve)
    decreases |d.text| - pos
  {
    if pos < |d.text| {
      var t := TurnAt(d, pos, Budget(maxChunk, reserve, some), some);
      CountIsWindowsLessSkips(d, t.resume, some || t.gained != [], maxChunk, reserve);
    }
  }

  /** Once both runs pack continuations, the one further on with the smaller reserve stays ahead. */
  lemma {:induction false} WindowsAhead(
      d: Doc, pos: nat, reserve: nat, pos': nat, reserve': nat, maxChunk: nat)
    requires maxChunk >= 1 && reserve <= reserve' && pos' <= pos <= |d.text|
    ensures Windows(d, pos, true, maxChunk, reserve) <= Windows(d, pos', true, maxChunk, reserve')
    decreases |d.text| - pos'
  {
    if pos < |d.text| {
      var b, b' := Budget(maxChunk, reserve, true), Budget(maxChunk, reserve', true);
      ResumeMonotone(d, pos', b', true, pos, b, true);
      var r, r' := TurnAt(d, pos, b, true).resume, TurnAt(d, pos', b', true).resume;
      WindowsAhead(d, r, reserve, r', reserve', maxChunk);
    }
  }

  /** A larger reservation never visits fewer windows, on any text. */
  lemma {:induction false} WindowsMonotone(d: Doc, pos: nat, maxChunk: nat, reserve: nat, reserve': nat)
    requires maxChunk >= 1 && reserve <= reserve' && pos <= |d.text|
    ensures Windows(d, pos, false, maxChunk, reserve) <= Windows(d, pos, false, maxChunk, reserve')
    decreases |d.text| - pos
  {
    if pos < |d.text| {
      var t := TurnAt(d, pos, maxChunk, false);
      if t.gained == [] {
        WindowsMonotone(d, t.resume, maxChunk, reserve, reserve');
      } else {
        WindowsAhead(d, t.resume, reserve, t.resume, reserve', maxChunk);
      }
    }
  }

  /** Chunks are windows less skips, and windows grow with the reservation: a count that falls has more skips. */
  lemma CountFallsOnlyBySkipping(text: Text, maxChunk: nat, reserve: nat, reserve': nat)
    requires maxChunk >= 1 && reserve <= reserve'
    ensures var d := Rule(text);
      |PackAll(text, maxChunk, reserve')| < |PackAll(text, maxChunk, reserve)| <==>
      Skips(d, 0, false, maxChunk, reserve') - Skips(d, 0, false, maxChunk, reserve)
      > Windows(d, 0, false, maxChunk, reserve') - Windows(d, 0, false, maxChunk, reserve)
    ensures Windows(Rule(text), 0, false, maxChunk, reserve) <= Windows(Rule(text), 0, false, maxChunk, reserve')
  {
    CountIsWindowsLessSkips(Rule(text), 0, false, maxChunk, reserve);
    CountIsWindowsLessSkips(Rule(text), 0, false, maxChunk, reserve');
    WindowsMonotone(Rule(text), 0, maxChunk, reserve, reserve');
  }

  ghost predicate NoSkippedWindow(text: Text, maxChunk: nat, reserve: nat)
    requires maxChunk >= 1
  {
    Skips(Rule(text), 0, false, maxChunk, reserve) == 0
  }

  /** Where the larger reservation skips no window, it packs at least as many chunks. */
  lemma CountMonotone(text: Text, maxChunk: nat, reserve: nat, reserve': nat)
    requires maxChunk >= 1 && reserve <= reserve'
    requires NoSkippedWindow(text, maxChunk, reserve')
    ensures |PackAll(text, maxChunk, reserve)| <= |PackAll(text, maxChunk, reserve')|
  {
    var d := Rule(text);
    CountIsWindowsLessSkips(d, 0, false, maxChunk, reserve);
    CountIsWindowsLessSkips(d, 0, false, maxChunk, reserve');
    WindowsMonotone(d, 0, maxChunk, reserve, reserve');
  }

  // ---------------------------------------------------------------- texts without skipped windows

  /** From `pos` on every line feed is a usable break with another character before it. */
  ghost predicate SpacedFrom(d: Doc, pos: nat) {
    forall k | pos <= k < |d.text| && d.text[k] == LF :: k > pos && d.text[k - 1] != LF && !d.headingEnds[k]
  }

  /** A cut in a spaced stretch leaves a chunk that starts with a character, and a spaced rest. */
  lemma SpacedTurn(d: Doc, pos: nat, budget: nat, some: bool)
    requires budget >= 1 && pos < |d.text| && SpacedFrom(d, pos)
    ensures TurnAt(d, pos, budget, some).gained != []
    ensures SpacedFrom(d, TurnAt(d, pos, budget, some).resume)
  {
    assert d.text[pos] != LF;
    if pos + budget < |d.text| {
      CutsAtLastUsableBreak(d, pos, budget);
      assert NoParagraphBreak(d, pos, pos + budget);
      var c := CutWindow(d, pos, budget);
      if NoLineBreak(d, pos, pos + budget + 1) {
        assert !LineBreakAt(d, pos + budget);
      } else {
        assert LineBreakAt(d, c.end);
      }
      assert pos < c.end && !AllBreaks(d.text, pos, c.end);
    }
  }

  lemma {:induction false} SpacedNeverSkips(d: Doc, pos: nat, some: bool, maxChunk: nat, reserve: nat)
    requires maxChunk >= 1 && pos <= |d.text| && SpacedFrom(d, pos)
    ensures Skips(d, pos, some, maxChunk, reserve) == 0
    decreases |d.text| - pos
  {
    if pos < |d.text| {
      var t := TurnAt(d, pos, Budget(maxChunk, reserve, some), some);
      SpacedTurn(d, pos, Budget(maxChunk, reserve, some), some);
      SpacedNeverSkips(d, t.resume, some || t.gained != [], maxChunk, reserve);
    }
  }

  /** With windows of one character, one that starts with a line feed is skipped unless it is the whole text. */
  lemma NarrowWindowSkipsBreak(d: Doc, pos: nat, some: bool)
    requires pos < |d.text| && d.text[pos] == LF && (some || |d.text| - pos != 1)
    ensures TurnAt(d, pos, 1, some).gained == []
  {
    if pos + 1 < |d.text| {
      CutsAtLastUsableBreak(d, pos, 1);
      var c := CutWindow(d, pos, 1);
      assert c.end <= pos + 1 && AllBreaks(d.text, pos, c.end);
    }
  }

  /** One that starts with another character takes it, and the line feed after it if that is usable. */
  lemma NarrowWindowTakesOne(d: Doc, pos: nat, some: bool)
    requires pos < |d.text| && d.text[pos] != LF
    ensures TurnAt(d, pos, 1, some)
         == Turn([Chunk(pos, 1)], if pos + 1 < |d.text| && LineBreakAt(d, pos + 1) then pos + 2 else pos + 1)
  {
    if pos + 1 < |d.text| {
      assert LastParagraphBreak(d, pos, pos) == -1;
      assert LastLineBreak(d, pos, pos + 1) == if LineBreakAt(d, pos + 1) then pos + 1 else -1;
    }
    assert !AllBreaks(d.text, pos, pos + 1);
  }

  lemma SpacedFromNext(d: Doc, pos: nat)
    requires pos < |d.text| && d.text[pos] != LF
    requires SpacedFrom(d, if pos + 1 < |d.text| && LineBreakAt(d, pos + 1) then pos + 2 else pos + 1)
    ensures SpacedFrom(d, pos)
  {
  }

  lemma {:induction false} NeverSkippingIsSpaced(d: Doc, pos: nat, some: bool)
    requires pos <= |d.text| && Skips(d, pos, some, 1, 0) == 0 && (some || |d.text| - pos != 1)
    ensures SpacedFrom(d, pos)
    decreases |d.text| - pos
  {
    if pos < |d.text| {
      assert Budget(1, 0, some) == 1;
      if d.text[pos] == LF {
        NarrowWindowSkipsBreak(d, pos, some);
      } else {
        NarrowWindowTakesOne(d, pos, some);
        NeverSkippingIsSpaced(d, TurnAt(d, pos, 1, some).resume, true);
        SpacedFromNext(d, pos);
      }
    }
  }

  /**
   * No window is skipped, whatever the budgets, exactly when the text is a single character or has no
   * line feed at its start, behind another line feed or behind a heading line.
   */
  lemma NoWindowIsSkippedExactlyWhenSpaced(text: Text)
    ensures (forall maxChunk: nat, reserve: nat | maxChunk >= 1 :: NoSkippedWindow(text, maxChunk, reserve))
       <==> |text| == 1 || SpacedFrom(Rule(text), 0)
  {
    var d := Rule(text);
    if |text| == 1 || SpacedFrom(d, 0) {
      forall maxChunk: nat, reserve: nat | maxChunk >= 1 ensures NoSkippedWindow(text, maxChunk, reserve) {
        if |text| == 1 {
          assert Skips(d, 1, true, maxChunk, reserve) == 0;
        } else {
          SpacedNeverSkips(d, 0, false, maxChunk, reserve);
        }
      }
    } else if NoSkippedWindow(text, 1, 0) {
      NeverSkippingIsSpaced(d, 0, false);
    }
  }

  // ---------------------------------------------------------------- texts whose counts grow with the reservation

  predicate FourBreaksAt(d: Doc, k: nat) {
    k + 3 < |d.text| && AllBreaks(d.text, k, k + 4)
  }

  /** No other line feed stands next to this offset. */
  predicate StandsAlone(d: Doc, k: nat)
    requires k < |d.text|
  {
    (k > 0 ==> d.text[k - 1] != LF) && (k + 1 < |d.text| ==> d.text[k + 1] != LF)
  }

  /** A line feed behind a heading line stands alone, and no four stand in a row. */
  ghost predicate PlainBreaks(d: Doc) {
    && (forall k: nat | k < |d.text| && d.text[k] == LF && d.headingEnds[k] :: StandsAlone(d, k))
    && (forall k: nat :: !FourBreaksAt(d, k))
  }

  /** Texts in which no window is ever skipped are among these. */
  lemma SpacedIsPlain(d: Doc)
    requires SpacedFrom(d, 0)
    ensures PlainBreaks(d)
  {
    forall k: nat ensures !FourBreaksAt(d, k) {
      assert k + 3 < |d.text| && d.text[k] == LF ==> d.text[k + 1] != LF;
    }
  }

  /** At most two line feeds stand here. */
  predicate FewBreaksAt(d: Doc, k: nat) {
    k + 2 < |d.text| ==> !AllBreaks(d.text, k, k + 3)
  }

  /** A window is cut behind the first line feed of a row, if it reaches that far. */
  lemma FewBreaksBehindCut(d: Doc, pos: nat, budget: nat, some: bool)
    requires PlainBreaks(d) && budget >= 1 && pos < |d.text|
    ensures FewBreaksAt(d, TurnAt(d, pos, budget, some).resume)
  {
    if pos + budget < |d.text| {
      CutsAtLastUsableBreak(d, pos, budget);
      var c := CutWindow(d, pos, budget);
      assert c.end < c.resume ==> !FourBreaksAt(d, c.resume - 1);
    }
  }

  /** A window that is skipped starts with one line feed or two, and ends behind them. */
  lemma SkippedTurn(d: Doc, pos: nat, budget: nat)
    requires PlainBreaks(d) && budget >= 1 && pos < |d.text| && FewBreaksAt(d, pos)
    requires TurnAt(d, pos, budget, true).gained == []
    ensures var q := TurnAt(d, pos, budget, true).resume;
      && q <= pos + 2 && AllBreaks(d.text, pos, q)
      && (q < |d.text| ==> d.text[q] != LF)
  {
    if pos + budget < |d.text| {
      CutsAtLastUsableBreak(d, pos, budget);
      var c := CutWindow(d, pos, budget);
      assert AllBreaks(d.text, pos, c.resume);
      assert c.resume < |d.text| && d.text[c.resume] == LF ==> c.resume == pos + 1 && ParagraphBreakAt(d, pos);
    }
  }

  lemma LetterIsKept(d: Doc, pos: nat, budget: nat)
    requires budget >= 1 && pos < |d.text| && d.text[pos] != LF
    ensures TurnAt(d, pos, budget, true).gained != []
  {
    if pos + budget < |d.text| {
      CutsAtLastUsableBreak(d, pos, budget);
    }
  }

  /** A window that is kept holds more than line feeds. */
  lemma KeptIsNotBlank(d: Doc, pos: nat, budget: nat)
    requires budget >= 1 && pos < |d.text| && TurnAt(d, pos, budget, true).gained != []
    ensures !AllBreaks(d.text, pos, |d.text|)
  {
  }

  /** A window that lies in one that is kept, behind the line feeds that one starts with, ends no later. */
  lemma InnerResume(d: Doc, pos: nat, budget: nat, q: nat, budget': nat)
    requires PlainBreaks(d) && budget' >= 1 && pos < q && q + budget' <= pos + budget < |d.text|
    requires AllBreaks(d.text, pos, q) && TurnAt(d, pos, budget, true).gained != []
    ensures TurnAt(d, q, budget', true).resume <= TurnAt(d, pos, budget, true).resume
  {
    var para := LastParagraphBreak(d, pos, pos + budget - 1);
    var para' := LastParagraphBreak(d, q, q + budget' - 1);
    if para' >= 0 {
      assert para' <= para;
    } else if para >= 0 {
      assert para >= q;
      assert para >= q + budget';
    } else {
      var line := LastLineBreak(d, pos, pos + budget);
      var line' := LastLineBreak(d, q, q + budget');
      assert line >= 0 ==> line >= q;
      assert line' >= 0 ==> line' <= line;
      assert line >= 0 && line' < 0 ==> line > q + budget';
    }
  }

  /** The narrower run is behind the wider one, or ahead of it by line feeds that its window makes up for. */
  ghost predicate Near(d: Doc, pos: nat, budget: nat, pos': nat, budget': nat) {
    && pos <= |d.text| && pos' <= |d.text|
    && (pos' <= pos ||
        (&& AllBreaks(d.text, pos, pos') && pos' + budget' <= pos + budget
         && (pos' < |d.text| ==> d.text[pos'] != LF)))
  }

  /** From a paragraph break that the narrower window skips, the wider one sees the next just beyond it. */
  lemma NextParagraph(d: Doc, pos: nat, budget: nat)
    requires PlainBreaks(d) && budget >= 1 && pos + budget + 1 < |d.text|
    requires ParagraphBreakAt(d, pos) && FewBreaksAt(d, pos)
    requires TurnAt(d, pos, budget, true).gained == [] && TurnAt(d, pos, budget + 1, true).gained != []
    ensures budget >= 2 && ParagraphBreakAt(d, pos + budget)
    ensures TurnAt(d, pos, budget + 1, true).resume == pos + budget + 2
  {
    var para := LastParagraphBreak(d, pos, pos + budget - 1);
    var para' := LastParagraphBreak(d, pos, pos + budget);
    assert para >= 0 && AllBreaks(d.text, pos, para + 1);
    assert para == pos;
    assert para' == pos + budget;
  }

  /** The window behind the paragraph break ends at the same break, or one line feed later. */
  lemma NextResume(d: Doc, pos: nat, budget: nat)
    requires PlainBreaks(d) && budget >= 1 && pos + budget + 1 < |d.text|
    requires ParagraphBreakAt(d, pos) && FewBreaksAt(d, pos)
    requires TurnAt(d, pos, budget, true).gained == [] && TurnAt(d, pos, budget + 1, true).gained != []
    ensures Near(d, TurnAt(d, pos, budget + 1, true).resume, budget + 1,
      TurnAt(d, pos + 2, budget, true).resume, budget)
  {
    NextParagraph(d, pos, budget);
    assert !FourBreaksAt(d, pos + budget);
    if pos + 2 + budget < |d.text| {
      var last := if d.text[pos + budget + 2] == LF then pos + budget + 1 else pos + budget;
      assert LastParagraphBreak(d, pos + 2, pos + budget + 1) == last;
    }
  }

  lemma PairIsParagraphBreak(d: Doc, pos: nat)
    requires PlainBreaks(d) && pos + 2 < |d.text| && AllBreaks(d.text, pos, pos + 2)
    ensures ParagraphBreakAt(d, pos)
  {
  }

  lemma LastWindowTakesAll(d: Doc, pos: nat, budget: nat)
    requires budget >= 1 && pos < |d.text| <= pos + budget
    ensures TurnAt(d, pos, budget, true).resume == |d.text|
  {
  }

  /** The narrower run skips two line feeds that the wider window, one character wider, does not stop at. */
  lemma ResumeFromPair(d: Doc, pos: nat, wide: nat, budget: nat, q: nat)
    requires PlainBreaks(d) && budget >= 1 && wide == budget + 1 && q == pos + 2 < |d.text| && FewBreaksAt(d, pos)
    requires AllBreaks(d.text, pos, q)
    requires TurnAt(d, pos, budget, true).gained == [] && TurnAt(d, pos, wide, true).gained != []
    ensures Near(d, TurnAt(d, pos, wide, true).resume, wide, TurnAt(d, q, budget, true).resume, budget)
  {
    if pos + wide < |d.text| {
      PairIsParagraphBreak(d, pos);
      NextResume(d, pos, budget);
    } else {
      LastWindowTakesAll(d, pos, wide);
    }
  }

  lemma BehindIsNear(d: Doc, pos: nat, budget: nat, pos': nat, budget': nat)
    requires pos' <= pos <= |d.text|
    ensures Near(d, pos, budget, pos', budget')
  {
  }

  /** A window in the wider one, behind the line feeds that one starts with. */
  lemma ResumeFromInside(d: Doc, pos: nat, budget: nat, q: nat, budget': nat)
    requires PlainBreaks(d) && 1 <= budget' && pos < q < |d.text| && q + budget' <= pos + budget
    requires TurnAt(d, pos, budget, true).gained != [] && AllBreaks(d.text, pos, q)
    ensures TurnAt(d, q, budget', true).resume <= TurnAt(d, pos, budget, true).resume
  {
    if pos + budget < |d.text| {
      InnerResume(d, pos, budget, q, budget');
    } else {
      LastWindowTakesAll(d, pos, budget);
    }
  }

  /** `q` is where the skipped window of the narrower run ends. */
  lemma ResumeNear(d: Doc, pos: nat, budget: nat, pos': nat, budget': nat, q: nat)
    requires PlainBreaks(d) && 1 <= budget' < budget && pos' <= pos < |d.text| && FewBreaksAt(d, pos')
    requires q < |d.text| && q <= pos' + 2 && AllBreaks(d.text, pos', q)
    requires pos == pos' ==> TurnAt(d, pos, budget', true).gained == []
    requires TurnAt(d, pos, budget, true).gained != []
    ensures Near(d, TurnAt(d, pos, budget, true).resume, budget, TurnAt(d, q, budget', true).resume, budget')
  {
    var r, r' := TurnAt(d, pos, budget, true).resume, TurnAt(d, q, budget', true).resume;
    if q <= pos {
      ResumeMonotone(d, q, budget', true, pos, budget, true);
      BehindIsNear(d, r, budget, r', budget');
    } else if q + budget' <= pos + budget {
      ResumeFromInside(d, pos, budget, q, budget');
      BehindIsNear(d, r, budget, r', budget');
    } else {
      ResumeFromPair(d, pos, budget, budget', q);
    }
  }

  /** Where the narrower run skips and the wider one does not, the next window of the narrower is kept and ends near. */
  lemma ResumeBehindSkip(d: Doc, pos: nat, budget: nat, pos': nat, budget': nat, q: nat)
    requires PlainBreaks(d) && 1 <= budget' < budget && pos' <= pos < |d.text| && FewBreaksAt(d, pos')
    requires TurnAt(d, pos', budget', true) == Turn([], q) && TurnAt(d, pos, budget, true).gained != []
    ensures q < |d.text| && TurnAt(d, q, budget', true).gained != []
    ensures Near(d, TurnAt(d, pos, budget, true).resume, budget, TurnAt(d, q, budget', true).resume, budget')
  {
    SkippedTurn(d, pos', budget');
    KeptIsNotBlank(d, pos, budget);
    LetterIsKept(d, q, budget');
    ResumeNear(d, pos, budget, pos', budget', q);
  }

  /** Where the narrower run is ahead, it stays so while the wider one skips, and is near again once that does not. */
  lemma ResumeFromBehind(d: Doc, pos: nat, budget: nat, pos': nat, budget': nat)
    requires PlainBreaks(d) && 1 <= budget' < budget && pos < pos' && Near(d, pos, budget, pos', budget')
    requires FewBreaksAt(d, pos)
    ensures var t := TurnAt(d, pos, budget, true);
      if t.gained == [] then Near(d, t.resume, budget, pos', budget')
      else
        && pos' < |d.text| && TurnAt(d, pos', budget', true).gained != []
        && TurnAt(d, pos', budget', true).resume <= t.resume
  {
    if TurnAt(d, pos, budget, true).gained == [] {
      SkippedTurn(d, pos, budget);
    } else {
      KeptIsNotBlank(d, pos, budget);
      LetterIsKept(d, pos', budget');
      if pos + budget < |d.text| {
        InnerResume(d, pos, budget, pos', budget');
      }
    }
  }

  /** Once both runs pack continuations and are near, the one with the wider windows packs no more. */
  lemma {:induction false} CountNear(d: Doc, pos: nat, reserve: nat, pos': nat, reserve': nat, maxChunk: nat)
    requires PlainBreaks(d) && maxChunk >= 1 && FewBreaksAt(d, pos) && FewBreaksAt(d, pos')
    requires Budget(maxChunk, reserve', true) < Budget(maxChunk, reserve, true)
    requires Near(d, pos, Budget(maxChunk, reserve, true), pos', Budget(maxChunk, reserve', true))
    ensures |Pack(d, pos, true, maxChunk, reserve)| <= |Pack(d, pos', true, maxChunk, reserve')|
    decreases 2 * |d.text| - pos - pos', 1
  {
    if pos < |d.text| {
      var b, b' := Budget(maxChunk, reserve, true), Budget(maxChunk, reserve', true);
      var t := TurnAt(d, pos, b, true);
      FewBreaksBehindCut(d, pos, b, true);
      if pos < pos' {
        ResumeFromBehind(d, pos, b, pos', b');
        if t.gained == [] {
          CountNear(d, t.resume, reserve, pos', reserve', maxChunk);
        } else {
          FewBreaksBehindCut(d, pos', b', true);
          CountNear(d, t.resume, reserve, TurnAt(d, pos', b', true).resume, reserve', maxChunk);
        }
      } else {
        CountBehind(d, pos, reserve, pos', reserve', maxChunk);
      }
    }
  }

  lemma {:induction false} CountBehind(d: Doc, pos: nat, reserve: nat, pos': nat, reserve': nat, maxChunk: nat)
    requires PlainBreaks(d) && maxChunk >= 1 && pos' <= pos < |d.text| && FewBreaksAt(d, pos) && FewBreaksAt(d, pos')
    requires Budget(maxChunk, reserve', true) < Budget(maxChunk, reserve, true)
    ensures |Pack(d, pos, true, maxChunk, reserve)| <= |Pack(d, pos', true, maxChunk, reserve')|
    decreases 2 * |d.text| - pos - pos', 0
  {
    var b, b' := Budget(maxChunk, reserve, true), Budget(maxChunk, reserve', true);
    var t, t' := TurnAt(d, pos, b, true), TurnAt(d, pos', b', true);
    FewBreaksBehindCut(d, pos, b, true);
    FewBreaksBehindCut(d, pos', b', true);
    if t.gained != [] && t'.gained == [] {
      ResumeBehindSkip(d, pos, b, pos', b', t'.resume);
      FewBreaksBehindCut(d, t'.resume, b', true);
      CountNear(d, t.resume, reserve, TurnAt(d, t'.resume, b', true).resume, reserve', maxChunk);
    } else {
      ResumeMonotone(d, pos', b', true, pos, b, true);
      CountNear(d, t.resume, reserve, t'.resume, reserve', maxChunk);
    }
  }

  lemma {:induction false} SameBudgetSamePack(d: Doc, pos: nat, some: bool, maxChunk: nat, reserve: nat, reserve': nat)
    requires maxChunk >= 1 && pos <= |d.text| && Budget(maxChunk, reserve, true) == Budget(maxChunk, reserve', true)
    ensures Pack(d, pos, some, maxChunk, reserve) == Pack(d, pos, some, maxChunk, reserve')
    decreases |d.text| - pos
  {
    if pos < |d.text| {
      var t := TurnAt(d, pos, Budget(maxChunk, reserve, some), some);
      SameBudgetSamePack(d, t.resume, some || t.gained != [], maxChunk, reserve, reserve');
    }
  }

  lemma {:induction false} CountGrows(d: Doc, pos: nat, maxChunk: nat, reserve: nat, reserve': nat)
    requires PlainBreaks(d) && maxChunk >= 1 && reserve <= reserve' && pos <= |d.text|
    ensures |Pack(d, pos, false, maxChunk, reserve)| <= |Pack(d, pos, false, maxChunk, reserve')|
    decreases |d.text| - pos
  {
    if Budget(maxChunk, reserve, true) == Budget(maxChunk, reserve', true) {
      SameBudgetSamePack(d, pos, false, maxChunk, reserve, reserve');
    } else if pos < |d.text| {
      var t := TurnAt(d, pos, maxChunk, false);
      if t.gained == [] {
        CountGrows(d, t.resume, maxChunk, reserve, reserve');
      } else {
        FewBreaksBehindCut(d, pos, maxChunk, false);
        CountNear(d, t.resume, reserve, t.resume, reserve', maxChunk);
      }
    }
  }

  /**
   * Where no four line feeds stand in a row and those behind heading lines stand alone, a larger
   * reservation never packs fewer chunks.
   */
  lemma PlainCountMonotone(text: Text, maxChunk: nat, reserve: nat, reserve': nat)
    requires maxChunk >= 1 && reserve <= reserve' && PlainBreaks(Rule(text))
    ensures |PackAll(text, maxChunk, reserve)| <= |PackAll(text, maxChunk, reserve')|
  {
    CountGrows(Rule(text), 0, maxChunk, reserve, reserve');
  }
}
