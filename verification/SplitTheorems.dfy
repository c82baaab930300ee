/** What a split message promises: nothing but breaks is lost, every bound holds, the plan is the largest. */
module SplitTheorems {
  import opened Text
  import opened Numbers
  import opened Options
  import opened PackChunks
  import opened Sequences
  import opened SplitMessage
  import Headings

  // ---------------------------------------------------------------- widths of markers

  ghost predicate GrowingTruncation(truncation: TruncationMarker) {
    forall a: nat, b: nat | a <= b :: |truncation(a)| <= |truncation(b)|
  }

  /** No marker of a smaller plan is wider than the one reserved for. */
  ghost predicate GrowingContinuation(marker: ContinuationMarker) {
    forall n: nat, t: nat, c: nat | n <= t <= c :: |marker(n, t)| <= |marker(c, c)|
  }

  ghost predicate DefaultTruncationWidths(truncation: TruncationMarker) {
    forall d: nat :: |truncation(d)| == 46 + Digits(d)
  }

  ghost predicate DefaultContinuationWidths(marker: ContinuationMarker) {
    forall n: nat, t: nat :: |marker(n, t)| == 4 + Digits(n) + Digits(t)
  }

  /** The widths of the default markers: fixed words around decimal numerals. */
  ghost predicate DefaultWidths(marker: ContinuationMarker, truncation: TruncationMarker) {
    DefaultContinuationWidths(marker) && DefaultTruncationWidths(truncation)
  }

  lemma DefaultMarkersHaveDefaultWidths()
    ensures DefaultWidths(DefaultContinuation, DefaultTruncation)
  {
  }

  /** The default markers name the message and the total, in this order, and the characters dropped. */
  lemma DefaultMarkersSay(n: nat, total: nat, dropped: nat) returns (first: Text, second: Text, third: Text)
    ensures IsNumeral(first, n) && IsNumeral(second, total) && IsNumeral(third, dropped)
    ensures DefaultContinuation(n, total) == Units(" (") + first + Units("/") + second + Units(")")
    ensures DefaultTruncation(dropped)
         == Units("[message truncated \U{2014} ") + third + Units(" characters were dropped]")
  {
    first, second, third := Decimal(n), Decimal(total), Decimal(dropped);
    DecimalIsNumeral(n);
    DecimalIsNumeral(total);
    DecimalIsNumeral(dropped);
    assert Units(" (") == [32, 40] && Units("/") == [47] && Units(")") == [41];
  }

  lemma DefaultWidthsGrow(marker: ContinuationMarker, truncation: TruncationMarker)
    requires DefaultWidths(marker, truncation)
    ensures GrowingTruncation(truncation) && GrowingContinuation(marker)
  {
    forall a: nat, b: nat | a <= b ensures |truncation(a)| <= |truncation(b)| {
      DigitsMonotone(a, b);
    }
    forall n: nat, t: nat, c: nat | n <= t <= c ensures |marker(n, t)| <= |marker(c, c)| {
      DigitsMonotone(n, c);
      DigitsMonotone(t, c);
    }
  }

  // ---------------------------------------------------------------- conservation

  /** What message `k` (from 0) carries after its body. */
  function Suffix(
      k: nat, count: nat, truncated: bool, dropped: nat,
      marker: ContinuationMarker, truncation: TruncationMarker): Text
  {
    if truncated && k == count - 1 then truncation(dropped)
    else if k == 0 then []
    else marker(k + 1, count)
  }

  /**
   * Stripped of their markers the messages hold, in order, every non-break character of the first
   * `sent` characters of the text; a truncation marker reports exactly the characters after those.
   */
  ghost predicate Delivers(
      text: Text, out: seq<Text>, bodies: seq<Text>, sent: nat, truncated: bool,
      marker: ContinuationMarker, truncation: TruncationMarker)
  {
    && sent <= |text|
    && (!truncated ==> sent == |text|)
    && Marked(out, bodies, truncated, |text| - sent, marker, truncation)
    && NonBreaks(Concat(bodies)) == NonBreaks(text[..sent])
  }

  ghost predicate Marked(
      out: seq<Text>, bodies: seq<Text>, truncated: bool, dropped: nat,
      marker: ContinuationMarker, truncation: TruncationMarker)
  {
    && |bodies| == |out|
    && forall k | 0 <= k < |out| ::
         out[k] == bodies[k] + Suffix(k, |out|, truncated, dropped, marker, truncation)
  }

  lemma {:induction false} MessagesAt(text: Text, chunks: seq<Chunk>, marker: ContinuationMarker, total: nat)
    requires forall c | c in chunks :: c.End() <= |text|
    ensures forall k | 0 <= k < |chunks| ::
      Messages(text, chunks, marker, total)[k] == Message(text, chunks[k], marker, k + 1, total)
    decreases |chunks|
  {
    if chunks != [] {
      MessagesAt(text, chunks[..|chunks| - 1], marker, total);
    }
  }

  lemma FullConserves(text: Text, chunks: seq<Chunk>)
    requires Tiles(text, 0, chunks) && forall c | c in chunks :: c.End() <= |text|
    ensures NonBreaks(Concat(Bodies(text, chunks))) == NonBreaks(text[..|text|])
  {
    TilesConserve(text, 0, chunks, |chunks|);
    TilesLeftover(text, 0, chunks);
    assert chunks[..|chunks|] == chunks;
    var end := if chunks == [] then 0 else chunks[|chunks| - 1].End();
    NonBreaksOfBreaks(text[end..]);
    NonBreaksConcat(text[..end], text[end..]);
    assert text[..end] + text[end..] == text[..|text|];
    assert text[0..end] == text[..end];
  }

  lemma TailConserves(text: Text, bodies: seq<Text>, start: nat, cut: nat)
    requires start + cut <= |text|
    requires NonBreaks(Concat(bodies)) == NonBreaks(text[0..start])
    ensures NonBreaks(Concat(bodies + [text[start..start + cut]])) == NonBreaks(text[..start + cut])
  {
    var tail := text[start..start + cut];
    ConcatAppend(bodies, tail);
    NonBreaksConcat(Concat(bodies), tail);
    NonBreaksConcat(text[0..start], tail);
    assert text[0..start] + tail == text[..start + cut];
  }

  lemma TailMarked(
      messages: seq<Text>, bodies: seq<Text>, best: nat, body: Text, dropped: nat,
      marker: ContinuationMarker, truncation: TruncationMarker)
    requires |messages| == |bodies| == FullCount(best)
    requires forall k | 0 <= k < |messages| ::
      messages[k] == bodies[k] + if k == 0 then [] else marker(k + 1, best)
    ensures Marked(messages + [body + truncation(dropped)], bodies + [body], true, dropped, marker, truncation)
  {
  }

  lemma FullDelivers(text: Text, packed: seq<Chunk>, marker: ContinuationMarker, truncation: TruncationMarker)
    requires Tiles(text, 0, packed) && forall c | c in packed :: c.End() <= |text|
    ensures Delivers(text, Messages(text, packed, marker, |packed|), Bodies(text, packed), |text|, false,
      marker, truncation)
  {
    MessagesAt(text, packed, marker, |packed|);
    FullConserves(text, packed);
  }

  /** The first `n` chunks and a tail that starts where they end. */
  lemma CutOffConserves(text: Text, packed: seq<Chunk>, n: nat, start: nat, cut: nat)
    requires Tiles(text, 0, packed) && forall c | c in packed :: c.End() <= |text|
    requires n <= |packed| && start == (if n == 0 then 0 else packed[n - 1].End()) && start + cut <= |text|
    ensures NonBreaks(Concat(Bodies(text, packed[..n]) + [text[start..start + cut]])) == NonBreaks(text[..start + cut])
  {
    TilesConserve(text, 0, packed, n);
    TailConserves(text, Bodies(text, packed[..n]), start, cut);
  }

  lemma CutOffMarked(
      text: Text, chunks: seq<Chunk>, best: nat, start: nat, cut: nat,
      marker: ContinuationMarker, truncation: TruncationMarker)
    requires (forall c | c in chunks :: c.End() <= |text|) && |chunks| == FullCount(best) && start + cut <= |text|
    ensures Marked(Render(text, Truncated(chunks, best, start, cut), marker, truncation),
      Bodies(text, chunks) + [text[start..start + cut]], true, |text| - (start + cut), marker, truncation)
  {
    MessagesAt(text, chunks, marker, best);
    TailMarked(Messages(text, chunks, marker, best), Bodies(text, chunks), best,
      text[start..start + cut], |text| - start - cut, marker, truncation);
  }

  lemma MarkedDelivers(
      text: Text, out: seq<Text>, bodies: seq<Text>, sent: nat, truncated: bool,
      marker: ContinuationMarker, truncation: TruncationMarker)
    requires sent <= |text| && (!truncated ==> sent == |text|)
    requires Marked(out, bodies, truncated, |text| - sent, marker, truncation)
    requires NonBreaks(Concat(bodies)) == NonBreaks(text[..sent])
    ensures Delivers(text, out, bodies, sent, truncated, marker, truncation)
  {
  }

  lemma CutOffDelivers(
      text: Text, chunks: seq<Chunk>, best: nat, start: nat, cut: nat,
      marker: ContinuationMarker, truncation: TruncationMarker)
    requires (forall c | c in chunks :: c.End() <= |text|) && |chunks| == FullCount(best) && start + cut <= |text|
    requires NonBreaks(Concat(Bodies(text, chunks) + [text[start..start + cut]])) == NonBreaks(text[..start + cut])
    ensures Delivers(text, Render(text, Truncated(chunks, best, start, cut), marker, truncation),
      Bodies(text, chunks) + [text[start..start + cut]], start + cut, true, marker, truncation)
  {
    CutOffMarked(text, chunks, best, start, cut, marker, truncation);
    MarkedDelivers(text, Render(text, Truncated(chunks, best, start, cut), marker, truncation),
      Bodies(text, chunks) + [text[start..start + cut]], start + cut, true, marker, truncation);
  }

  lemma WholeDelivers(text: Text, marker: ContinuationMarker, truncation: TruncationMarker)
    ensures Delivers(text, [text], [text], |text|, false, marker, truncation)
  {
    assert text[..|text|] == text;
    assert Concat([text]) == text + Concat([]) == text;
  }

  /** A cut-off plan sends first chunks of the packing, and its tail starts where they end. */
  predicate CutsOff(packed: seq<Chunk>, plan: Plan) {
    && plan.Truncated?
    && plan.total <= |packed|
    && plan.chunks == packed[..FullCount(plan.total)]
    && plan.start == TailStart(packed, plan.total)
  }

  lemma CutOffPlanDelivers(
      text: Text, packed: seq<Chunk>, plan: Plan, marker: ContinuationMarker, truncation: TruncationMarker)
    returns (bodies: seq<Text>, sent: nat)
    requires Tiles(text, 0, packed) && forall c | c in packed :: c.End() <= |text|
    requires PlanOf(text, plan) && CutsOff(packed, plan)
    ensures Delivers(text, Render(text, plan, marker, truncation), bodies, sent, true, marker, truncation)
  {
    bodies, sent := Bodies(text, plan.chunks) + [text[plan.start..plan.start + plan.cut]], plan.start + plan.cut;
    CutOffConserves(text, packed, FullCount(plan.total), plan.start, plan.cut);
    CutOffDelivers(text, plan.chunks, plan.total, plan.start, plan.cut, marker, truncation);
  }

  lemma PlanDelivers(
      text: Text, packed: seq<Chunk>, plan: Plan, marker: ContinuationMarker, truncation: TruncationMarker)
    returns (bodies: seq<Text>, sent: nat, truncated: bool)
    requires Tiles(text, 0, packed) && forall c | c in packed :: c.End() <= |text|
    requires PlanOf(text, plan)
    requires plan.Full? ==> plan.chunks == packed
    requires plan.Truncated? ==> CutsOff(packed, plan)
    ensures Delivers(text, Render(text, plan, marker, truncation), bodies, sent, truncated, marker, truncation)
  {
    match plan
    case Whole =>
      bodies, sent, truncated := [text], |text|, false;
      WholeDelivers(text, marker, truncation);
    case Full(_) =>
      bodies, sent, truncated := Bodies(text, packed), |text|, false;
      FullDelivers(text, packed, marker, truncation);
    case Truncated(_, _, _, _) =>
      truncated := true;
      bodies, sent := CutOffPlanDelivers(text, packed, plan, marker, truncation);
  }

  /** Nothing but line breaks is lost before the point a truncation marker reports. */
  lemma Conservation(text: Text, options: SplitOptions) returns (bodies: seq<Text>, sent: nat, truncated: bool)
    requires options.maxChunkChars >= 1 && options.maxTotalChars >= 1
    ensures Delivers(text, Split(text, options).value, bodies, sent, truncated,
      ContinuationOf(options), TruncationOf(options))
  {
    var marker, truncation := ContinuationOf(options), TruncationOf(options);
    var plan := ChoosePlan(text, options.maxChunkChars, options.maxTotalChars, marker, truncation);
    var packed := Reserve(text, options.maxChunkChars, marker).0;
    PackedWithin(text, options.maxChunkChars, marker);
    bodies, sent, truncated := PlanDelivers(text, packed, plan, marker, truncation);
  }

  /** The markers sent are the caller's where given, and the default ones where not. */
  lemma ChosenMarkersAreSent(
      text: Text, options: SplitOptions, marker: ContinuationMarker, truncation: TruncationMarker)
    returns (bodies: seq<Text>, sent: nat, truncated: bool)
    requires options.maxChunkChars >= 1 && options.maxTotalChars >= 1
    requires options.continuationMarker == Some(marker)
      || (options.continuationMarker == None && marker == DefaultContinuation)
    requires options.truncationMarker == Some(truncation)
      || (options.truncationMarker == None && truncation == DefaultTruncation)
    ensures Delivers(text, Split(text, options).value, bodies, sent, truncated, marker, truncation)
  {
    bodies, sent, truncated := Conservation(text, options);
  }

  /** A text within both budgets, the empty one included, is sent as it is. */
  lemma ShortTextIsSentAsItIs(text: Text, options: SplitOptions)
    requires options.maxChunkChars >= 1 && options.maxTotalChars >= 1
    requires |text| <= options.maxChunkChars && |text| <= options.maxTotalChars
    ensures Split(text, options) == Ok([text])
  {
  }

  /** A split fails exactly when a budget is below one, the chunk budget being looked at first. */
  lemma FailsExactlyOnBudgetsBelowOne(text: Text, options: SplitOptions)
    ensures var chunkIsLow, totalIsLow := options.maxChunkChars <= 0, options.maxTotalChars <= 0;
      && (Split(text, options) == Err(ChunkBudgetTooSmall) <==> chunkIsLow)
      && (Split(text, options) == Err(TotalCeilingTooSmall) <==> !chunkIsLow && totalIsLow)
      && (Split(text, options).Ok? <==> !chunkIsLow && !totalIsLow)
  {
  }

  // ---------------------------------------------------------------- size

  lemma {:induction false} MessagesTotal(
      text: Text, packed: seq<Chunk>, marker: ContinuationMarker, count: nat, total: nat)
    requires count <= |packed| && forall c | c in packed :: c.End() <= |text|
    ensures TotalLength(Messages(text, packed[..count], marker, total)) == FullCost(packed, marker, count, total)
    decreases count
  {
    if count > 0 {
      assert packed[..count][..count - 1] == packed[..count - 1];
      MessagesTotal(text, packed, marker, count - 1, total);
      TotalLengthAppend(Messages(text, packed[..count - 1], marker, total),
        Message(text, packed[count - 1], marker, count, total));
    }
  }

  /** At every turn of the tail loop the cut and the marker it implies fit the budget. */
  lemma {:induction false} TailFits(remaining: nat, budget: int, truncation: TruncationMarker, cut: nat, turns: nat)
    requires GrowingTruncation(truncation) && cut <= remaining
    requires cut + |truncation(remaining - cut)| <= budget
    ensures var c := TailCutFrom(remaining, budget, truncation, cut, turns);
      cut <= c && c + |truncation(remaining - c)| <= budget
    decreases turns
  {
    if turns > 0 {
      var next := Fit(remaining, budget, truncation, remaining - cut);
      assert cut <= next;
      assert |truncation(remaining - next)| <= |truncation(remaining - cut)|;
      TailFits(remaining, budget, truncation, next, turns - 1);
    }
  }

  lemma TailCutFits(remaining: nat, budget: int, truncation: TruncationMarker)
    requires GrowingTruncation(truncation) && |truncation(remaining)| <= budget
    ensures var c := TailCut(remaining, budget, truncation);
      c + |truncation(remaining - c)| <= budget
  {
    var first := Fit(remaining, budget, truncation, remaining);
    assert |truncation(remaining - first)| <= |truncation(remaining)|;
    TailFits(remaining, budget, truncation, first, MAX_TRUNCATION_FIT_ITERATIONS);
  }

  /** The walk stops at a size whose predecessor it found feasible. */
  lemma {:induction false} WalkFeasible(
      length: nat, packed: seq<Chunk>, maxChunk: nat, maxTotal: nat,
      marker: ContinuationMarker, truncation: TruncationMarker, n: nat)
    requires 1 <= n && (n <= |packed| || n == 1)
    requires forall c | c in packed :: c.End() <= length
    ensures var best := WalkFrom(length, packed, maxChunk, maxTotal, marker, truncation, n);
      && n - 1 <= best
      && (forall m | n <= m <= best :: m < |packed| &&
            Feasible(length, packed, maxChunk, maxTotal, marker, truncation, m))
      && (best + 1 < |packed| ==>
            !Feasible(length, packed, maxChunk, maxTotal, marker, truncation, best + 1))
    decreases |packed| - n
  {
    if n < |packed| && Feasible(length, packed, maxChunk, maxTotal, marker, truncation, n) {
      WalkFeasible(length, packed, maxChunk, maxTotal, marker, truncation, n + 1);
    }
  }

  /** The tail's budget has room for the marker that reports the whole remaining text as dropped. */
  lemma TailHasRoom(
      length: nat, packed: seq<Chunk>, maxChunk: nat, maxTotal: nat,
      marker: ContinuationMarker, truncation: TruncationMarker)
    requires forall c | c in packed :: c.End() <= length
    requires |truncation(length)| <= maxChunk && |truncation(length)| <= maxTotal
    ensures var best := WalkFrom(length, packed, maxChunk, maxTotal, marker, truncation, 1);
      && best <= |packed|
      && |truncation(length - TailStart(packed, best))|
         <= Min(maxChunk, maxTotal - FullCost(packed, marker, FullCount(best), best))
  {
    var best := WalkFrom(length, packed, maxChunk, maxTotal, marker, truncation, 1);
    WalkFeasible(length, packed, maxChunk, maxTotal, marker, truncation, 1);
    if best >= 1 {
      assert Feasible(length, packed, maxChunk, maxTotal, marker, truncation, best);
    }
  }

  /** A truncated plan whose tail has room for its marker stays under the ceiling and the chunk budget. */
  lemma CutOffFits(
      text: Text, packed: seq<Chunk>, maxChunk: nat, maxTotal: nat,
      marker: ContinuationMarker, truncation: TruncationMarker, best: nat)
    requires forall c | c in packed :: c.End() <= |text|
    requires best <= |packed| && GrowingTruncation(truncation)
    requires |truncation(|text| - TailStart(packed, best))|
          <= Min(maxChunk, maxTotal - FullCost(packed, marker, FullCount(best), best))
    ensures var plan := CutOff(text, packed, maxChunk, maxTotal, marker, truncation, best);
      && |LastMessage(text, plan, truncation)| <= maxChunk
      && TotalLength(Render(text, plan, marker, truncation)) <= maxTotal
  {
    var plan := CutOff(text, packed, maxChunk, maxTotal, marker, truncation, best);
    var full := FullCount(best);
    var budget := Min(maxChunk, maxTotal - FullCost(packed, marker, full, best));
    TailCutFits(|text| - plan.start, budget, truncation);
    assert |LastMessage(text, plan, truncation)| <= budget;
    MessagesTotal(text, packed, marker, full, best);
    TotalLengthAppend(Messages(text, plan.chunks, marker, best), LastMessage(text, plan, truncation));
  }

  function LastMessage(text: Text, plan: Plan, truncation: TruncationMarker): Text
    requires plan.Truncated? && PlanOf(text, plan)
  {
    text[plan.start..plan.start + plan.cut] + truncation(|text| - plan.start - plan.cut)
  }

  lemma PlanWithinCeiling(
      text: Text, packed: seq<Chunk>, maxChunk: nat, maxTotal: nat,
      marker: ContinuationMarker, truncation: TruncationMarker)
    requires forall c | c in packed :: c.End() <= |text|
    requires GrowingTruncation(truncation)
    requires |truncation(|text|)| <= maxChunk && |truncation(|text|)| <= maxTotal
    ensures var plan := PlanFor(text, packed, maxChunk, maxTotal, marker, truncation);
      TotalLength(Render(text, plan, marker, truncation)) <= maxTotal
  {
    match PlanFor(text, packed, maxChunk, maxTotal, marker, truncation)
    case Full(_) =>
      MessagesTotal(text, packed, marker, |packed|, |packed|);
      assert packed[..|packed|] == packed;
    case Truncated(_, best, _, _) =>
      TailHasRoom(|text|, packed, maxChunk, maxTotal, marker, truncation);
      CutOffFits(text, packed, maxChunk, maxTotal, marker, truncation, best);
  }

  /** With a truncation marker that fits both budgets, the messages never total more than the ceiling. */
  lemma TotalWithinCeiling(text: Text, options: SplitOptions)
    requires options.maxChunkChars >= 1 && options.maxTotalChars >= 1
    requires GrowingTruncation(TruncationOf(options))
    requires |TruncationOf(options)(|text|)| <= options.maxChunkChars
    requires |TruncationOf(options)(|text|)| <= options.maxTotalChars
    ensures TotalLength(Split(text, options).value) <= options.maxTotalChars
  {
    var maxChunk, maxTotal := options.maxChunkChars, options.maxTotalChars;
    var marker, truncation := ContinuationOf(options), TruncationOf(options);
    PackedWithin(text, maxChunk, marker);
    PlanWithinCeiling(text, Reserve(text, maxChunk, marker).0, maxChunk, maxTotal, marker, truncation);
    assert TotalLength([text]) == |text| + TotalLength([]);
  }

  lemma MarkedWithin(
      text: Text, packed: seq<Chunk>, count: nat, total: nat, maxChunk: nat, reserve: nat,
      marker: ContinuationMarker)
    requires maxChunk >= 1 && GrowingContinuation(marker)
    requires count <= total <= |packed| && forall c | c in packed :: c.End() <= |text|
    requires |marker(|packed|, |packed|)| <= reserve < maxChunk
    requires FitsBudgets(packed, false, maxChunk, reserve)
    ensures forall m | m in Messages(text, packed[..count], marker, total) :: |m| <= maxChunk
  {
    MessagesAt(text, packed[..count], marker, total);
    var out := Messages(text, packed[..count], marker, total);
    forall k | 0 <= k < |out| ensures |out[k]| <= maxChunk {
      assert packed[k].len <= Budget(maxChunk, reserve, k > 0);
      assert |marker(k + 1, total)| <= |marker(|packed|, |packed|)|;
    }
  }

  lemma CutOffWithinBudget(
      text: Text, packed: seq<Chunk>, maxChunk: nat, maxTotal: nat, reserve: nat,
      marker: ContinuationMarker, truncation: TruncationMarker)
    requires maxChunk >= 1 && forall c | c in packed :: c.End() <= |text|
    requires GrowingTruncation(truncation) && GrowingContinuation(marker)
    requires |truncation(|text|)| <= maxChunk && |truncation(|text|)| <= maxTotal
    requires |marker(|packed|, |packed|)| <= reserve < maxChunk
    requires FitsBudgets(packed, false, maxChunk, reserve)
    ensures var best := WalkFrom(|text|, packed, maxChunk, maxTotal, marker, truncation, 1);
      && best <= |packed|
      && forall m | m in Render(text, CutOff(text, packed, maxChunk, maxTotal, marker, truncation, best),
            marker, truncation) :: |m| <= maxChunk
  {
    var best := WalkFrom(|text|, packed, maxChunk, maxTotal, marker, truncation, 1);
    TailHasRoom(|text|, packed, maxChunk, maxTotal, marker, truncation);
    CutOffFits(text, packed, maxChunk, maxTotal, marker, truncation, best);
    MarkedWithin(text, packed, FullCount(best), best, maxChunk, reserve, marker);
  }

  lemma PlanWithinBudget(
      text: Text, packed: seq<Chunk>, maxChunk: nat, maxTotal: nat, reserve: nat,
      marker: ContinuationMarker, truncation: TruncationMarker)
    requires maxChunk >= 1 && forall c | c in packed :: c.End() <= |text|
    requires GrowingTruncation(truncation) && GrowingContinuation(marker)
    requires |truncation(|text|)| <= maxChunk && |truncation(|text|)| <= maxTotal
    requires |marker(|packed|, |packed|)| <= reserve < maxChunk
    requires FitsBudgets(packed, false, maxChunk, reserve)
    ensures var plan := PlanFor(text, packed, maxChunk, maxTotal, marker, truncation);
      forall m | m in Render(text, plan, marker, truncation) :: |m| <= maxChunk
  {
    if FullCost(packed, marker, |packed|, |packed|) <= maxTotal {
      MarkedWithin(text, packed, |packed|, |packed|, maxChunk, reserve, marker);
      assert packed[..|packed|] == packed;
    } else {
      CutOffWithinBudget(text, packed, maxChunk, maxTotal, reserve, marker, truncation);
    }
  }

  /**
   * Where the markers of the plan are no wider than those it was packed for, as they are once the
   * reservation is self-consistent, every message fits the chunk budget, marker included.
   */
  lemma MessagesWithinBudget(text: Text, options: SplitOptions)
    requires options.maxChunkChars >= 1 && options.maxTotalChars >= 1
    requires GrowingTruncation(TruncationOf(options)) && GrowingContinuation(ContinuationOf(options))
    requires |TruncationOf(options)(|text|)| <= options.maxChunkChars
    requires |TruncationOf(options)(|text|)| <= options.maxTotalChars
    requires var r := Reserve(text, options.maxChunkChars, ContinuationOf(options));
      |ContinuationOf(options)(|r.0|, |r.0|)| <= |ContinuationOf(options)(r.1, r.1)| < options.maxChunkChars
    ensures forall m | m in Split(text, options).value :: |m| <= options.maxChunkChars
  {
    var maxChunk, maxTotal := options.maxChunkChars, options.maxTotalChars;
    var marker, truncation := ContinuationOf(options), TruncationOf(options);
    var r := Reserve(text, maxChunk, marker);
    var reserve := |marker(r.1, r.1)|;
    PackedWithin(text, maxChunk, marker);
    PackSizes(Headings.Rule(text), 0, false, maxChunk, reserve);
    PlanWithinBudget(text, r.0, maxChunk, maxTotal, reserve, marker, truncation);
  }

  /** A message is cut off exactly when neither the text itself nor all its chunks fit. */
  lemma CutsOffOnlyWhatDoesNotFit(
      text: Text, maxChunk: nat, maxTotal: nat, marker: ContinuationMarker, truncation: TruncationMarker)
    requires maxChunk >= 1
    ensures var packed := Reserve(text, maxChunk, marker).0;
      && (forall c | c in packed :: c.End() <= |text|)
      && (ChoosePlan(text, maxChunk, maxTotal, marker, truncation).Truncated? <==>
            (|text| > maxChunk || |text| > maxTotal)
            && TotalLength(Messages(text, packed, marker, |packed|)) > maxTotal)
  {
    var packed := Reserve(text, maxChunk, marker).0;
    PackedWithin(text, maxChunk, marker);
    MessagesTotal(text, packed, marker, |packed|, |packed|);
    assert packed[..|packed|] == packed;
  }

  // ---------------------------------------------------------------- the largest plan

  /** What a plan of `n` messages cannot go below: its full chunks and the marker of its tail. */
  function LeastCost(
      length: nat, packed: seq<Chunk>, marker: ContinuationMarker, truncation: TruncationMarker, n: nat): nat
    requires 1 <= n <= |packed| && TailStart(packed, n) <= length
  {
    FullCost(packed, marker, n - 1, n) + |truncation(length - TailStart(packed, n))|
  }

  ghost predicate WiderWithTotal(marker: ContinuationMarker) {
    forall n: nat, total: nat :: |marker(n, total)| <= |marker(n, total + 1)|
  }

  lemma DefaultWiderWithTotal(marker: ContinuationMarker)
    requires DefaultContinuationWidths(marker)
    ensures WiderWithTotal(marker)
  {
    forall n: nat, total: nat ensures |marker(n, total)| <= |marker(n, total + 1)| {
      DigitsMonotone(total, total + 1);
    }
  }

  lemma {:induction false} CostGrowsWithTotal(packed: seq<Chunk>, marker: ContinuationMarker, count: nat, total: nat)
    requires WiderWithTotal(marker) && count <= |packed|
    ensures FullCost(packed, marker, count, total) <= FullCost(packed, marker, count, total + 1)
  {
    if count > 0 {
      CostGrowsWithTotal(packed, marker, count - 1, total);
    }
  }

  /** From two messages on, one more full chunk costs at least the digits the tail's marker can lose. */
  lemma LeastCostGrows(
      text: Text, packed: seq<Chunk>, marker: ContinuationMarker, truncation: TruncationMarker, n: nat)
    requires DefaultWidths(marker, truncation)
    requires Tiles(text, 0, packed) && 2 <= n < |packed| && Digits(|text|) <= 8
    requires forall c | c in packed :: c.End() <= |text|
    ensures LeastCost(|text|, packed, marker, truncation, n)
         <= LeastCost(|text|, packed, marker, truncation, n + 1)
  {
    TilesBounds(text, 0, packed);
    DefaultWiderWithTotal(marker);
    CostGrowsWithTotal(packed, marker, n - 1, n);
    assert packed[n - 1].len >= 1;
    assert |marker(n, n + 1)| >= 6;
    DigitsMonotone(|text| - TailStart(packed, n), |text|);
  }

  lemma {:induction false} LeastCostGrowsTo(
      text: Text, packed: seq<Chunk>, marker: ContinuationMarker, truncation: TruncationMarker, n: nat, m: nat)
    requires DefaultWidths(marker, truncation)
    requires Tiles(text, 0, packed) && forall c | c in packed :: c.End() <= |text|
    requires 2 <= n <= m < |packed| && Digits(|text|) <= 8
    ensures LeastCost(|text|, packed, marker, truncation, n)
         <= LeastCost(|text|, packed, marker, truncation, m)
    decreases m
  {
    if n < m {
      LeastCostGrowsTo(text, packed, marker, truncation, n, m - 1);
      LeastCostGrows(text, packed, marker, truncation, m - 1);
    }
  }

  lemma FeasibleIsLeastCost(
      length: nat, packed: seq<Chunk>, maxChunk: nat, maxTotal: nat,
      marker: ContinuationMarker, truncation: TruncationMarker, n: nat)
    requires GrowingTruncation(truncation) && |truncation(length)| <= maxChunk
    requires 1 <= n <= |packed| && TailStart(packed, n) <= length
    ensures Feasible(length, packed, maxChunk, maxTotal, marker, truncation, n)
        <==> LeastCost(length, packed, marker, truncation, n) <= maxTotal
  {
    assert |truncation(length - TailStart(packed, n))| <= |truncation(length)|;
  }

  lemma InfeasibleStaysSo(
      text: Text, packed: seq<Chunk>, maxChunk: nat, maxTotal: nat,
      marker: ContinuationMarker, truncation: TruncationMarker, n: nat, m: nat)
    requires DefaultWidths(marker, truncation) && |truncation(|text|)| <= maxChunk
    requires Tiles(text, 0, packed) && forall c | c in packed :: c.End() <= |text|
    requires 2 <= n <= m < |packed| && Digits(|text|) <= 8
    requires !Feasible(|text|, packed, maxChunk, maxTotal, marker, truncation, n)
    ensures !Feasible(|text|, packed, maxChunk, maxTotal, marker, truncation, m)
  {
    DefaultWidthsGrow(marker, truncation);
    FeasibleIsLeastCost(|text|, packed, maxChunk, maxTotal, marker, truncation, n);
    FeasibleIsLeastCost(|text|, packed, maxChunk, maxTotal, marker, truncation, m);
    LeastCostGrowsTo(text, packed, marker, truncation, n, m);
  }

  /** Some cut of the rest fits, with its marker, what the full chunks of a plan of `n` messages leave. */
  ghost predicate SomeTailFits(
      length: nat, packed: seq<Chunk>, maxChunk: nat, maxTotal: nat,
      marker: ContinuationMarker, truncation: TruncationMarker, n: nat)
    requires 1 <= n <= |packed| && TailStart(packed, n) <= length
  {
    SomeCutFits(length - TailStart(packed, n), Min(maxChunk, maxTotal - FullCost(packed, marker, n - 1, n)), truncation)
  }

  ghost predicate SomeCutFits(remaining: nat, budget: int, truncation: TruncationMarker) {
    exists cut: nat :: cut <= remaining && TailFitsBudget(remaining, budget, truncation, cut)
  }

  /** A character sent narrows the marker by at most one: if any cut fits, so does sending nothing. */
  lemma NoCutFitsBest(remaining: nat, budget: int, truncation: TruncationMarker)
    requires SlowTruncation(truncation)
    ensures SomeCutFits(remaining, budget, truncation) <==> TailFitsBudget(remaining, budget, truncation, 0)
  {
    if cut: nat :| cut <= remaining && TailFitsBudget(remaining, budget, truncation, cut) {
      StepsAddUp((d: nat) => |truncation(d)|, remaining, cut);
    }
  }

  /** The walk's test accepts a plan size exactly when some cut of its tail fits. */
  lemma FeasibleMeansSomeTailFits(
      length: nat, packed: seq<Chunk>, maxChunk: nat, maxTotal: nat,
      marker: ContinuationMarker, truncation: TruncationMarker, n: nat)
    requires SlowTruncation(truncation) && 1 <= n <= |packed| && TailStart(packed, n) <= length
    ensures Feasible(length, packed, maxChunk, maxTotal, marker, truncation, n)
      <==> SomeTailFits(length, packed, maxChunk, maxTotal, marker, truncation, n)
  {
    NoCutFitsBest(length - TailStart(packed, n), Min(maxChunk, maxTotal - FullCost(packed, marker, n - 1, n)),
      truncation);
  }

  /** Of the truncated plans with a tail that fits, `best` is the largest. */
  ghost predicate LargestFitting(
      length: nat, packed: seq<Chunk>, maxChunk: nat, maxTotal: nat,
      marker: ContinuationMarker, truncation: TruncationMarker, best: nat)
    requires forall c | c in packed :: c.End() <= length
  {
    && 1 <= best < |packed|
    && SomeTailFits(length, packed, maxChunk, maxTotal, marker, truncation, best)
    && forall m | best < m < |packed| :: !SomeTailFits(length, packed, maxChunk, maxTotal, marker, truncation, m)
  }

  lemma BelowHundredMillion(n: nat)
    requires n < Pow10(8)
    ensures Digits(n) <= 8
  {
    DigitsBound(n, 8);
  }

  lemma NoLaterTailFits(
      text: Text, packed: seq<Chunk>, maxChunk: nat, maxTotal: nat,
      marker: ContinuationMarker, truncation: TruncationMarker, n: nat, m: nat)
    requires DefaultWidths(marker, truncation) && |truncation(|text|)| <= maxChunk
    requires Tiles(text, 0, packed) && forall c | c in packed :: c.End() <= |text|
    requires 2 <= n <= m < |packed| && Digits(|text|) <= 8
    requires !Feasible(|text|, packed, maxChunk, maxTotal, marker, truncation, n)
    ensures !SomeTailFits(|text|, packed, maxChunk, maxTotal, marker, truncation, m)
  {
    InfeasibleStaysSo(text, packed, maxChunk, maxTotal, marker, truncation, n, m);
    DefaultTruncationSteps(truncation);
    FeasibleMeansSomeTailFits(|text|, packed, maxChunk, maxTotal, marker, truncation, m);
  }

  /** The size the walk ends on is feasible, and the next one is not. */
  lemma WalkEnds(
      length: nat, packed: seq<Chunk>, maxChunk: nat, maxTotal: nat,
      marker: ContinuationMarker, truncation: TruncationMarker)
    requires |packed| > 1 && forall c | c in packed :: c.End() <= length
    requires |truncation(length)| <= maxChunk && |truncation(length)| <= maxTotal
    ensures var best := WalkFrom(length, packed, maxChunk, maxTotal, marker, truncation, 1);
      && 1 <= best < |packed|
      && Feasible(length, packed, maxChunk, maxTotal, marker, truncation, best)
      && (best + 1 < |packed| ==> !Feasible(length, packed, maxChunk, maxTotal, marker, truncation, best + 1))
  {
    WalkFeasible(length, packed, maxChunk, maxTotal, marker, truncation, 1);
    assert Feasible(length, packed, maxChunk, maxTotal, marker, truncation, 1);
  }

  /**
   * Stopping at the first infeasible size loses nothing: with the default markers, a truncation
   * marker that fits both budgets and a text below a hundred million characters, the walk ends on
   * the largest truncated plan that fits whenever there is more than one chunk.
   */
  lemma WalkFindsLargestPlan(
      text: Text, packed: seq<Chunk>, maxChunk: nat, maxTotal: nat,
      marker: ContinuationMarker, truncation: TruncationMarker)
    requires DefaultWidths(marker, truncation)
    requires Tiles(text, 0, packed) && forall c | c in packed :: c.End() <= |text|
    requires |truncation(|text|)| <= maxChunk && |truncation(|text|)| <= maxTotal
    requires |text| < Pow10(8) && |packed| > 1
    ensures LargestFitting(|text|, packed, maxChunk, maxTotal, marker, truncation,
      WalkFrom(|text|, packed, maxChunk, maxTotal, marker, truncation, 1))
  {
    var best := WalkFrom(|text|, packed, maxChunk, maxTotal, marker, truncation, 1);
    WalkEnds(|text|, packed, maxChunk, maxTotal, marker, truncation);
    BelowHundredMillion(|text|);
    DefaultTruncationSteps(truncation);
    FeasibleMeansSomeTailFits(|text|, packed, maxChunk, maxTotal, marker, truncation, best);
    forall m | best < m < |packed|
      ensures !SomeTailFits(|text|, packed, maxChunk, maxTotal, marker, truncation, m)
    {
      NoLaterTailFits(text, packed, maxChunk, maxTotal, marker, truncation, best + 1, m);
    }
  }

  // ---------------------------------------------------------------- the truncated tail

  /** The tail loop settles once it has a turn for every unit of width the marker can still lose. */
  lemma {:induction false} TailSettles(
      remaining: nat, budget: int, truncation: TruncationMarker, least: nat, prev: nat, cut: nat, turns: nat)
    requires GrowingTruncation(truncation) && least < |truncation(0)| && |truncation(prev)| <= least + turns
    requires cut <= remaining && remaining - cut <= prev
    requires cut == Fit(remaining, budget, truncation, prev)
    ensures var c := TailCutFrom(remaining, budget, truncation, cut, turns);
      c == Fit(remaining, budget, truncation, remaining - c)
    decreases turns
  {
    assert |truncation(0)| <= |truncation(remaining - cut)| <= |truncation(prev)|;
    var next := Fit(remaining, budget, truncation, remaining - cut);
    if next != cut {
      assert cut <= next;
      TailSettles(remaining, budget, truncation, least, remaining - cut, next, turns - 1);
    }
  }

  predicate TailFitsBudget(remaining: nat, budget: int, truncation: TruncationMarker, cut: nat)
    requires cut <= remaining
  {
    cut + |truncation(remaining - cut)| <= budget
  }

  ghost predicate NoLongerTail(remaining: nat, budget: int, truncation: TruncationMarker, cut: nat) {
    forall c: nat | cut < c <= remaining :: !TailFitsBudget(remaining, budget, truncation, c)
  }

  /** One character more to report widens the marker by at most one. */
  ghost predicate SlowTruncation(truncation: TruncationMarker) {
    forall d: nat :: |truncation(d + 1)| <= |truncation(d)| + 1
  }

  ghost predicate Settled(remaining: nat, budget: int, truncation: TruncationMarker, cut: nat) {
    cut <= remaining && cut == Fit(remaining, budget, truncation, remaining - cut)
  }

  lemma LongerTailMisses(remaining: nat, budget: int, truncation: TruncationMarker, cut: nat, c: nat)
    requires SlowTruncation(truncation) && Settled(remaining, budget, truncation, cut) && cut < c <= remaining
    requires TailFitsBudget(remaining, budget, truncation, cut)
    requires |truncation(remaining - cut - 1)| >= |truncation(remaining - cut)|
    ensures !TailFitsBudget(remaining, budget, truncation, c)
  {
    StepsAddUp((d: nat) => |truncation(d)|, remaining - cut - 1, c - cut - 1);
  }

  /** A settled cut can be bettered exactly when dropping one character less shortens the marker. */
  lemma SettledCutIsLongest(remaining: nat, budget: int, truncation: TruncationMarker, cut: nat)
    requires SlowTruncation(truncation) && Settled(remaining, budget, truncation, cut)
    requires TailFitsBudget(remaining, budget, truncation, cut)
    ensures NoLongerTail(remaining, budget, truncation, cut)
        <==> (remaining == cut || |truncation(remaining - cut - 1)| >= |truncation(remaining - cut)|)
  {
    if remaining > cut {
      if |truncation(remaining - cut - 1)| < |truncation(remaining - cut)| {
        assert TailFitsBudget(remaining, budget, truncation, cut + 1);
      } else {
        forall c: nat | cut < c <= remaining ensures !TailFitsBudget(remaining, budget, truncation, c) {
          LongerTailMisses(remaining, budget, truncation, cut, c);
        }
      }
    }
  }

  /** The loop climbs, and never past a settled cut. */
  lemma {:induction false} TailStaysBelow(
      remaining: nat, budget: int, truncation: TruncationMarker, cut: nat, turns: nat, other: nat)
    requires GrowingTruncation(truncation) && cut <= other && Settled(remaining, budget, truncation, other)
    ensures TailCutFrom(remaining, budget, truncation, cut, turns) <= other
    decreases turns
  {
    if turns > 0 {
      assert |truncation(remaining - other)| <= |truncation(remaining - cut)|;
      var next := Fit(remaining, budget, truncation, remaining - cut);
      TailStaysBelow(remaining, budget, truncation, next, turns - 1, other);
    }
  }

  /** The cut is settled, fits beside its marker, and is the least that is settled. */
  lemma TailCutIsLeastSettled(remaining: nat, budget: int, truncation: TruncationMarker, other: nat)
    requires GrowingTruncation(truncation) && 46 < |truncation(0)|
    requires |truncation(remaining)| <= Min(budget, 46 + MAX_TRUNCATION_FIT_ITERATIONS)
    ensures var cut := TailCut(remaining, budget, truncation);
      && Settled(remaining, budget, truncation, cut)
      && TailFitsBudget(remaining, budget, truncation, cut)
      && (Settled(remaining, budget, truncation, other) ==> cut <= other)
  {
    var first := Fit(remaining, budget, truncation, remaining);
    TailSettles(remaining, budget, truncation, 46, remaining, first, MAX_TRUNCATION_FIT_ITERATIONS);
    TailCutFits(remaining, budget, truncation);
    if Settled(remaining, budget, truncation, other) {
      assert |truncation(remaining - other)| <= |truncation(remaining)|;
      TailStaysBelow(remaining, budget, truncation, first, MAX_TRUNCATION_FIT_ITERATIONS, other);
    }
  }

  /** Dropping `10^k` characters leaves exactly the room their marker takes. */
  predicate DropsPower(remaining: nat, budget: int, k: nat) {
    k >= 1 && Pow10(k) <= remaining && remaining + 47 + k - budget == Pow10(k)
  }

  ghost predicate DropsSomePower(remaining: nat, budget: int) {
    exists k: nat :: DropsPower(remaining, budget, k)
  }

  /** What the widths of the default truncation marker come to. */
  lemma DefaultTruncationSteps(truncation: TruncationMarker)
    requires DefaultTruncationWidths(truncation)
    ensures GrowingTruncation(truncation) && SlowTruncation(truncation) && 46 < |truncation(0)|
  {
    forall a: nat, b: nat | a <= b ensures |truncation(a)| <= |truncation(b)| {
      DigitsMonotone(a, b);
    }
    forall d: nat ensures |truncation(d + 1)| <= |truncation(d)| + 1 {
      DigitsStep(d + 1);
    }
  }

  lemma WidthAtPower(truncation: TruncationMarker, k: nat)
    requires DefaultTruncationWidths(truncation) && k >= 1
    ensures |truncation(Pow10(k))| == 47 + k
  {
    DigitsOfPower(k);
  }

  lemma WideMarkerReportsMuch(truncation: TruncationMarker, d: nat, m: nat)
    requires DefaultTruncationWidths(truncation)
    ensures m >= 1 && |truncation(d)| > 46 + m ==> d >= Pow10(m)
  {
    if m >= 1 {
      DigitsBound(d, m);
    }
  }

  lemma WidthGrowsAtPowers(truncation: TruncationMarker, d: nat)
    requires DefaultTruncationWidths(truncation) && d >= 1
    ensures |truncation(d - 1)| < |truncation(d)| <==> IsHigherPowerOfTen(d)
  {
    DigitsGrowAtPowers(d);
  }

  lemma SettledAtPower(remaining: nat, budget: int, truncation: TruncationMarker, cut: nat, k: nat)
    requires Settled(remaining, budget, truncation, cut) && TailFitsBudget(remaining, budget, truncation, cut)
    requires k >= 1 && remaining - cut == Pow10(k) && |truncation(Pow10(k))| == 47 + k
    ensures DropsPower(remaining, budget, k)
  {
  }

  lemma PowerIsSettled(remaining: nat, budget: int, truncation: TruncationMarker, k: nat)
    requires DropsPower(remaining, budget, k) && |truncation(Pow10(k))| == 47 + k
    ensures Settled(remaining, budget, truncation, remaining - Pow10(k))
  {
  }

  lemma SettledDrops(remaining: nat, budget: int, truncation: TruncationMarker, cut: nat, k: nat)
    requires Settled(remaining, budget, truncation, cut) && TailFitsBudget(remaining, budget, truncation, cut)
    requires DropsPower(remaining, budget, k) && cut < remaining
    ensures remaining - cut == Pow10(k) + |truncation(remaining - cut)| - 47 - k
  {
  }

  /** A marker `j` wider than that of `10^k` would report far more than `j` above it. */
  lemma NoWiderMarker(dropped: nat, k: nat, j: nat)
    requires dropped == Pow10(k) + j && (j >= 1 ==> dropped >= Pow10(k + j))
    ensures j == 0
  {
    if j >= 1 {
      PowersAreFarApart(k, j);
    }
  }

  lemma ReportsPower(truncation: TruncationMarker, d: nat, k: nat, j: nat)
    requires DefaultTruncationWidths(truncation) && |truncation(d)| == 47 + k + j && d == Pow10(k) + j
    ensures j == 0
  {
    WideMarkerReportsMuch(truncation, d, k + j);
    NoWiderMarker(d, k, j);
  }

  /** The least settled cut drops the power of ten that just fits. */
  lemma NoSmallerSettled(remaining: nat, budget: int, truncation: TruncationMarker, cut: nat, k: nat)
    requires DefaultTruncationWidths(truncation) && GrowingTruncation(truncation)
    requires Settled(remaining, budget, truncation, cut) && TailFitsBudget(remaining, budget, truncation, cut)
    requires DropsPower(remaining, budget, k) && |truncation(Pow10(k))| == 47 + k
    requires cut <= remaining - Pow10(k)
    ensures remaining - cut == Pow10(k)
  {
    SettledDrops(remaining, budget, truncation, cut, k);
    ReportsPower(truncation, remaining - cut, k, |truncation(remaining - cut)| - 47 - k);
  }

  lemma SettledDropsPowerExactly(remaining: nat, budget: int, truncation: TruncationMarker, cut: nat)
    requires DefaultTruncationWidths(truncation) && GrowingTruncation(truncation)
    requires Settled(remaining, budget, truncation, cut) && TailFitsBudget(remaining, budget, truncation, cut)
    requires forall other: nat | Settled(remaining, budget, truncation, other) :: cut <= other
    ensures IsHigherPowerOfTen(remaining - cut) <==> DropsSomePower(remaining, budget)
  {
    if IsHigherPowerOfTen(remaining - cut) {
      var k: nat :| k >= 1 && remaining - cut == Pow10(k);
      WidthAtPower(truncation, k);
      SettledAtPower(remaining, budget, truncation, cut, k);
    } else if DropsSomePower(remaining, budget) {
      var k: nat :| DropsPower(remaining, budget, k);
      WidthAtPower(truncation, k);
      PowerIsSettled(remaining, budget, truncation, k);
      NoSmallerSettled(remaining, budget, truncation, cut, k);
    }
  }

  /**
   * The tail is cut as late as the budget allows, unless dropping 10, 100, 1000, ... characters leaves
   * exactly the room their marker takes: one character more would shorten the marker by the digit that
   * makes it fit.
   */
  lemma TailIsLongestUnlessPowerOfTen(remaining: nat, budget: int, truncation: TruncationMarker)
    requires DefaultTruncationWidths(truncation)
    requires |truncation(remaining)| <= Min(budget, 46 + MAX_TRUNCATION_FIT_ITERATIONS)
    ensures NoLongerTail(remaining, budget, truncation, TailCut(remaining, budget, truncation))
      <==> !DropsSomePower(remaining, budget)
  {
    var cut := TailCut(remaining, budget, truncation);
    DefaultTruncationSteps(truncation);
    forall other: nat ensures Settled(remaining, budget, truncation, other) ==> cut <= other {
      TailCutIsLeastSettled(remaining, budget, truncation, other);
    }
    TailCutIsLeastSettled(remaining, budget, truncation, 0);
    SettledCutIsLongest(remaining, budget, truncation, cut);
    SettledDropsPowerExactly(remaining, budget, truncation, cut);
    if remaining > cut {
      WidthGrowsAtPowers(truncation, remaining - cut);
    }
  }

  // ---------------------------------------------------------------- the truncated plan that is sent

  /** The last message is the text from `start` on, cut for what the budget and the other messages leave. */
  ghost predicate EndsInTail(
      text: Text, out: seq<Text>, start: nat, cut: nat, maxChunk: nat, maxTotal: nat, truncation: TruncationMarker)
  {
    && out != [] && start + cut <= |text|
    && out[|out| - 1] == text[start..start + cut] + truncation(|text| - start - cut)
    && cut == TailCut(|text| - start, Min(maxChunk, maxTotal - TotalLength(out[..|out| - 1])), truncation)
  }

  lemma CutOffParts(
      text: Text, packed: seq<Chunk>, maxChunk: nat, maxTotal: nat,
      marker: ContinuationMarker, truncation: TruncationMarker, best: nat)
    requires best <= |packed| && forall c | c in packed :: c.End() <= |text|
    ensures var plan := CutOff(text, packed, maxChunk, maxTotal, marker, truncation, best);
      && plan.Truncated? && plan.start == TailStart(packed, best) && |plan.chunks| == FullCount(best)
      && plan.cut == TailCut(|text| - plan.start,
           Min(maxChunk, maxTotal - TotalLength(Messages(text, plan.chunks, marker, plan.total))), truncation)
  {
    MessagesTotal(text, packed, marker, FullCount(best), best);
  }

  lemma RenderedEndsInTail(
      text: Text, plan: Plan, maxChunk: nat, maxTotal: nat, marker: ContinuationMarker, truncation: TruncationMarker)
    requires PlanOf(text, plan) && plan.Truncated?
    requires plan.cut == TailCut(|text| - plan.start,
      Min(maxChunk, maxTotal - TotalLength(Messages(text, plan.chunks, marker, plan.total))), truncation)
    ensures var out := Render(text, plan, marker, truncation);
      && |out| == |plan.chunks| + 1
      && EndsInTail(text, out, plan.start, plan.cut, maxChunk, maxTotal, truncation)
  {
    var out, others := Render(text, plan, marker, truncation), Messages(text, plan.chunks, marker, plan.total);
    assert out[..|out| - 1] == others;
  }

  lemma CutOffEndsInTail(
      text: Text, packed: seq<Chunk>, maxChunk: nat, maxTotal: nat,
      marker: ContinuationMarker, truncation: TruncationMarker, best: nat)
    requires best <= |packed| && forall c | c in packed :: c.End() <= |text|
    ensures var plan := CutOff(text, packed, maxChunk, maxTotal, marker, truncation, best);
      var out := Render(text, plan, marker, truncation);
      && |out| == FullCount(best) + 1
      && EndsInTail(text, out, TailStart(packed, best), plan.cut, maxChunk, maxTotal, truncation)
  {
    CutOffParts(text, packed, maxChunk, maxTotal, marker, truncation, best);
    RenderedEndsInTail(text, CutOff(text, packed, maxChunk, maxTotal, marker, truncation, best),
      maxChunk, maxTotal, marker, truncation);
  }

  /** The messages of a truncated plan: as many as the walk found, and the last one cut for what is left. */
  ghost predicate SentTruncated(
      text: Text, packed: seq<Chunk>, out: seq<Text>, maxChunk: nat, maxTotal: nat,
      marker: ContinuationMarker, truncation: TruncationMarker)
    requires forall c | c in packed :: c.End() <= |text|
  {
    && 1 <= |out| <= |packed| + 1
    && (|packed| <= 1 ==> |out| == 1)
    && (|packed| > 1 ==> LargestFitting(|text|, packed, maxChunk, maxTotal, marker, truncation, |out|))
    && exists cut: nat :: EndsInTail(text, out, TailStart(packed, |out|), cut, maxChunk, maxTotal, truncation)
  }

  lemma WalkedPlanIsSent(
      text: Text, packed: seq<Chunk>, maxChunk: nat, maxTotal: nat,
      marker: ContinuationMarker, truncation: TruncationMarker, best: nat)
    requires best <= |packed| && forall c | c in packed :: c.End() <= |text|
    requires |packed| <= 1 ==> best == 0
    requires |packed| > 1 ==> LargestFitting(|text|, packed, maxChunk, maxTotal, marker, truncation, best)
    ensures SentTruncated(text, packed,
      Render(text, CutOff(text, packed, maxChunk, maxTotal, marker, truncation, best), marker, truncation),
      maxChunk, maxTotal, marker, truncation)
  {
    CutOffEndsInTail(text, packed, maxChunk, maxTotal, marker, truncation, best);
    assert |packed| <= 1 ==> TailStart(packed, best) == TailStart(packed, 1);
  }

  /**
   * With the default markers, a truncation marker that fits both budgets and a text below a hundred million
   * characters, a plan that is cut off has the most messages any such plan with a tail that fits has, or
   * just the tail if there is one chunk, and its tail is cut for what its other messages leave.
   */
  lemma TruncatedPlanIsBest(
      text: Text, packed: seq<Chunk>, maxChunk: nat, maxTotal: nat,
      marker: ContinuationMarker, truncation: TruncationMarker)
    requires DefaultWidths(marker, truncation)
    requires Tiles(text, 0, packed) && forall c | c in packed :: c.End() <= |text|
    requires |truncation(|text|)| <= maxChunk && |truncation(|text|)| <= maxTotal && |text| < Pow10(8)
    requires PlanFor(text, packed, maxChunk, maxTotal, marker, truncation).Truncated?
    ensures SentTruncated(text, packed,
      Render(text, PlanFor(text, packed, maxChunk, maxTotal, marker, truncation), marker, truncation),
      maxChunk, maxTotal, marker, truncation)
  {
    if |packed| > 1 {
      WalkFindsLargestPlan(text, packed, maxChunk, maxTotal, marker, truncation);
    }
    WalkedPlanIsSent(text, packed, maxChunk, maxTotal, marker, truncation,
      WalkFrom(|text|, packed, maxChunk, maxTotal, marker, truncation, 1));
  }

  // ---------------------------------------------------------------- the reservation loop

  /** No window is skipped at any reservation the loop can try. */
  ghost predicate NeverSkips(text: Text, maxChunk: nat, marker: ContinuationMarker)
    requires maxChunk >= 1
  {
    forall c: nat | c <= |text| :: NoSkippedWindow(text, maxChunk, |marker(c, c)|)
  }

  predicate PacksNoMore(text: Text, maxChunk: nat, reserve: nat, reserve': nat)
    requires maxChunk >= 1
  {
    |PackAll(text, maxChunk, reserve)| <= |PackAll(text, maxChunk, reserve')|
  }

  /** No reservation the loop can try packs fewer chunks than a smaller one. */
  ghost predicate CountsGrow(text: Text, maxChunk: nat, marker: ContinuationMarker)
    requires maxChunk >= 1
  {
    forall c: nat, reserve: nat | c <= |text| && reserve <= |marker(c, c)| ::
      PacksNoMore(text, maxChunk, reserve, |marker(c, c)|)
  }

  lemma NeverSkippingGrows(text: Text, maxChunk: nat, marker: ContinuationMarker)
    requires maxChunk >= 1 && NeverSkips(text, maxChunk, marker)
    ensures CountsGrow(text, maxChunk, marker)
  {
    forall c: nat, reserve: nat | c <= |text| && reserve <= |marker(c, c)|
      ensures PacksNoMore(text, maxChunk, reserve, |marker(c, c)|)
    {
      CountMonotone(text, maxChunk, reserve, |marker(c, c)|);
    }
  }

  lemma PlainTextsGrow(text: Text, maxChunk: nat, marker: ContinuationMarker)
    requires maxChunk >= 1 && PlainBreaks(Headings.Rule(text))
    ensures CountsGrow(text, maxChunk, marker)
  {
    forall c: nat, reserve: nat | c <= |text| && reserve <= |marker(c, c)|
      ensures PacksNoMore(text, maxChunk, reserve, |marker(c, c)|)
    {
      PlainCountMonotone(text, maxChunk, reserve, |marker(c, c)|);
    }
  }

  lemma CountBound(text: Text, maxChunk: nat, reserve: nat)
    requires maxChunk >= 1
    ensures |PackAll(text, maxChunk, reserve)| <= |text|
  {
    PackTiles(Headings.Rule(text), 0, false, maxChunk, reserve);
    TilesBounds(text, 0, PackAll(text, maxChunk, reserve));
  }

  /** Reservations grow with the level of the count, and only with it. */
  ghost predicate StepsWith(marker: ContinuationMarker, level: nat -> nat) {
    && (forall a: nat, b: nat | a <= b :: level(a) <= level(b))
    && (forall a: nat, b: nat | level(a) <= level(b) :: |marker(a, a)| <= |marker(b, b)|)
  }

  lemma DefaultSteps(marker: ContinuationMarker)
    requires DefaultContinuationWidths(marker)
    ensures StepsWith(marker, Digits)
  {
    forall a: nat, b: nat | a <= b ensures Digits(a) <= Digits(b) {
      DigitsMonotone(a, b);
    }
  }

  /** The number of chunks packed for the markers of a count. */
  function CountFor(text: Text, maxChunk: nat, marker: ContinuationMarker): nat -> nat
    requires maxChunk >= 1
  {
    (count: nat) => |PackFor(text, maxChunk, marker, count)|
  }

  /** The count at which the loop `count := f(count)` stops. */
  function FixFrom(f: nat -> nat, count: nat, turns: nat): nat
    requires turns >= 1
    decreases turns
  {
    if f(count) == count || turns == 1 then count else FixFrom(f, f(count), turns - 1)
  }

  lemma {:induction false} ReserveIsFix(text: Text, maxChunk: nat, marker: ContinuationMarker, count: nat, turns: nat)
    requires maxChunk >= 1 && turns >= 1
    ensures ReserveFrom(text, maxChunk, marker, count, turns).1
         == FixFrom(CountFor(text, maxChunk, marker), count, turns)
    decreases turns
  {
    var f := CountFor(text, maxChunk, marker);
    assert f(count) == |PackFor(text, maxChunk, marker, count)|;
    if f(count) != count && turns > 1 {
      ReserveIsFix(text, maxChunk, marker, f(count), turns - 1);
    }
  }

  /** A count that grows with the level of what it is taken for, and only with it. */
  ghost predicate Climbs(f: nat -> nat, level: nat -> nat, top: nat) {
    && (forall a: nat, b: nat | a <= b :: level(a) <= level(b))
    && (forall a: nat | a <= top :: f(a) <= top)
    && (forall a: nat, b: nat | a <= top && b <= top && level(a) <= level(b) :: f(a) <= f(b))
  }

  /**
   * From below the loop reaches a fixed point with at most one turn per level climbed and two more, and
   * no smaller number is a fixed point.
   */
  lemma {:induction false} ClimbSettles(
      f: nat -> nat, level: nat -> nat, top: nat, count: nat, turns: nat, other: nat)
    requires Climbs(f, level, top) && count <= f(count) && count <= top
    requires turns >= 2 + level(top) - level(count) && turns >= 1
    requires other <= top && f(other) == other ==> count <= other
    ensures var c := FixFrom(f, count, turns);
      c <= top && f(c) == c && (other <= top && f(other) == other ==> c <= other)
    decreases turns
  {
    var next := f(count);
    assert level(count) <= level(next) <= level(top);
    if next != count {
      if level(next) > level(count) {
        ClimbSettles(f, level, top, next, turns - 1, other);
      } else {
        assert f(next) <= f(count) <= f(next);
      }
    }
  }

  lemma CountClimbs(text: Text, maxChunk: nat, marker: ContinuationMarker, level: nat -> nat)
    requires maxChunk >= 1 && CountsGrow(text, maxChunk, marker) && StepsWith(marker, level)
    ensures Climbs(CountFor(text, maxChunk, marker), level, |text|)
  {
    var f := CountFor(text, maxChunk, marker);
    forall a: nat | a <= |text| ensures f(a) <= |text| {
      CountBound(text, maxChunk, |marker(a, a)|);
    }
    forall a: nat, b: nat | a <= |text| && b <= |text| && level(a) <= level(b) ensures f(a) <= f(b) {
      assert PacksNoMore(text, maxChunk, |marker(a, a)|, |marker(b, b)|);
    }
  }

  /** The reservation loop ends self-consistent, on the least count that is. */
  lemma ReservationSettles(text: Text, maxChunk: nat, marker: ContinuationMarker, level: nat -> nat, other: nat)
    requires maxChunk >= 1 && CountsGrow(text, maxChunk, marker) && StepsWith(marker, level)
    requires 2 + level(|text|) <= MAX_MARKER_RESERVE_ITERATIONS
    ensures var r := Reserve(text, maxChunk, marker);
      |r.0| == r.1 && (SelfConsistent(text, maxChunk, marker, other) ==> r.1 <= other)
  {
    var f, count := CountFor(text, maxChunk, marker), |PackAll(text, maxChunk, 0)|;
    CountClimbs(text, maxChunk, marker, level);
    CountBound(text, maxChunk, 0);
    assert PacksNoMore(text, maxChunk, 0, |marker(count, count)|);
    assert f(other) == |PackFor(text, maxChunk, marker, other)|;
    if SelfConsistent(text, maxChunk, marker, other) {
      CountBound(text, maxChunk, |marker(other, other)|);
      assert PacksNoMore(text, maxChunk, 0, |marker(other, other)|);
    }
    ClimbSettles(f, level, |text|, count, MAX_MARKER_RESERVE_ITERATIONS, other);
    ReserveIsFix(text, maxChunk, marker, count, MAX_MARKER_RESERVE_ITERATIONS);
  }

  /** Where the count grows with the reservation the default reservation is the least self-consistent count. */
  lemma ReservationIsLeastSelfConsistent(text: Text, maxChunk: nat, marker: ContinuationMarker)
    requires DefaultContinuationWidths(marker)
    requires maxChunk >= 1 && CountsGrow(text, maxChunk, marker)
    requires Digits(|text|) <= 62
    ensures var r := Reserve(text, maxChunk, marker);
      && |r.0| == r.1
      && SelfConsistent(text, maxChunk, marker, r.1)
      && forall other: nat | SelfConsistent(text, maxChunk, marker, other) :: r.1 <= other
  {
    DefaultSteps(marker);
    ReservationSettles(text, maxChunk, marker, Digits, 0);
    forall other: nat | SelfConsistent(text, maxChunk, marker, other)
      ensures Reserve(text, maxChunk, marker).1 <= other
    {
      ReservationSettles(text, maxChunk, marker, Digits, other);
    }
  }

  /** There is room for the truncation marker of the whole text and for the widest continuation marker. */
  ghost predicate RoomForMarkers(text: Text, options: SplitOptions) {
    && DefaultWidths(ContinuationOf(options), TruncationOf(options))
    && |TruncationOf(options)(|text|)| <= options.maxChunkChars
    && |TruncationOf(options)(|text|)| <= options.maxTotalChars
    && |ContinuationOf(options)(|text|, |text|)| < options.maxChunkChars
    && Digits(|text|) <= 62
  }

  /** Where the count grows with the reservation, every message fits the chunk budget, marker included. */
  lemma GrowingMessagesFit(text: Text, options: SplitOptions)
    requires options.maxChunkChars >= 1 && options.maxTotalChars >= 1 && RoomForMarkers(text, options)
    requires CountsGrow(text, options.maxChunkChars, ContinuationOf(options))
    ensures forall m | m in Split(text, options).value :: |m| <= options.maxChunkChars
  {
    var maxChunk, marker := options.maxChunkChars, ContinuationOf(options);
    var r := Reserve(text, maxChunk, marker);
    ReservationIsLeastSelfConsistent(text, maxChunk, marker);
    CountBound(text, maxChunk, |marker(r.1, r.1)|);
    DefaultWidthsGrow(marker, TruncationOf(options));
    assert |marker(r.1, r.1)| <= |marker(|text|, |text|)|;
    MessagesWithinBudget(text, options);
  }

  /** So it is where no window is skipped. */
  lemma UnskippedMessagesFit(text: Text, options: SplitOptions)
    requires options.maxChunkChars >= 1 && options.maxTotalChars >= 1 && RoomForMarkers(text, options)
    requires NeverSkips(text, options.maxChunkChars, ContinuationOf(options))
    ensures forall m | m in Split(text, options).value :: |m| <= options.maxChunkChars
  {
    NeverSkippingGrows(text, options.maxChunkChars, ContinuationOf(options));
    GrowingMessagesFit(text, options);
  }

  /** The reservation loop ends on the least count that is consistent with itself. */
  ghost predicate ReservesLeast(text: Text, maxChunk: nat, marker: ContinuationMarker)
    requires maxChunk >= 1
  {
    var r := Reserve(text, maxChunk, marker);
    |r.0| == r.1 && forall other: nat | SelfConsistent(text, maxChunk, marker, other) :: r.1 <= other
  }

  /**
   * For the default markers and a text in which no four line feeds stand in a row and those behind
   * heading lines stand alone: every message fits the chunk budget, and the reservation is the least
   * count that is consistent with itself.
   */
  lemma PlainTextsAreSplitAsPromised(text: Text, options: SplitOptions)
    requires options.maxChunkChars >= 1 && options.maxTotalChars >= 1 && RoomForMarkers(text, options)
    requires PlainBreaks(Headings.Rule(text))
    ensures forall m | m in Split(text, options).value :: |m| <= options.maxChunkChars
    ensures ReservesLeast(text, options.maxChunkChars, ContinuationOf(options))
  {
    PlainTextsGrow(text, options.maxChunkChars, ContinuationOf(options));
    GrowingMessagesFit(text, options);
    ReservationIsLeastSelfConsistent(text, options.maxChunkChars, ContinuationOf(options));
  }
}
