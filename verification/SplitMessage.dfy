/**
 * Splitting an outbound message for a service with a per-message budget and a ceiling on the total:
 * reserve room for continuation markers, choose the largest plan under the ceiling, cut the tail.
 */
module SplitMessage {
  import opened Text
  import Headings
  import opened Numbers
  import opened Options
  import opened PackChunks

  datatype Error = ChunkBudgetTooSmall | TotalCeilingTooSmall

  type ContinuationMarker = (nat, nat) -> Text
  type TruncationMarker = nat -> Text

  datatype SplitOptions = SplitOptions(
    maxChunkChars: int,
    maxTotalChars: int,
    continuationMarker: Option<ContinuationMarker>,
    truncationMarker: Option<TruncationMarker>)

  const MAX_MARKER_RESERVE_ITERATIONS := 64
  const MAX_TRUNCATION_FIT_ITERATIONS := 16

  type Words21 = t: Text | |t| == 21 witness Units("[message truncated \U{2014} ")
  type Words25 = t: Text | |t| == 25 witness Units(" characters were dropped]")

  const TRUNCATED: Words21 := Units("[message truncated \U{2014} ")
  const WERE_DROPPED: Words25 := Units(" characters were dropped]")

  /** ` (n/total)` */
  function DefaultContinuation(n: nat, total: nat): (m: Text)
    ensures |m| == 4 + Digits(n) + Digits(total)
  {
    [SPACE, 40] + Decimal(n) + [47] + Decimal(total) + [41]
  }

  /** `[message truncated (em dash) N characters were dropped]` */
  function DefaultTruncation(dropped: nat): (m: Text)
    ensures |m| == 46 + Digits(dropped)
  {
    TRUNCATED + Decimal(dropped) + WERE_DROPPED
  }

  // ---------------------------------------------------------------- marker reservation

  /** Pack with room for the markers of `count` messages. */
  function PackFor(text: Text, maxChunk: nat, marker: ContinuationMarker, count: nat): seq<Chunk>
    requires maxChunk >= 1
  {
    PackAll(text, maxChunk, |marker(count, count)|)
  }

  /** The plan and the count it was packed for after at most `turns` turns of the reservation loop. */
  function ReserveFrom(text: Text, maxChunk: nat, marker: ContinuationMarker, count: nat, turns: nat)
      : (r: (seq<Chunk>, nat))
    requires maxChunk >= 1 && turns >= 1
    ensures r.0 == PackFor(text, maxChunk, marker, r.1)
    decreases turns, |text|
  {
    var packed := PackFor(text, maxChunk, marker, count);
    if |packed| == count || turns == 1 then (packed, count)
    else ReserveFrom(text, maxChunk, marker, |packed|, turns - 1)
  }

  function Reserve(text: Text, maxChunk: nat, marker: ContinuationMarker): (r: (seq<Chunk>, nat))
    requires maxChunk >= 1
    ensures r.0 == PackFor(text, maxChunk, marker, r.1)
  {
    ReserveFrom(text, maxChunk, marker, |PackAll(text, maxChunk, 0)|, MAX_MARKER_RESERVE_ITERATIONS)
  }

  /** Packing with room for the markers of `count` messages gives exactly `count` messages. */
  ghost predicate SelfConsistent(text: Text, maxChunk: nat, marker: ContinuationMarker, count: nat)
    requires maxChunk >= 1
  {
    |PackFor(text, maxChunk, marker, count)| == count
  }

  method ReserveLoop(text: Text, maxChunk: nat, marker: ContinuationMarker)
    returns (packed: seq<Chunk>)
    requires maxChunk >= 1
    ensures packed == Reserve(text, maxChunk, marker).0
  {
    packed := PackLoop(text, maxChunk, 0);
    var chunkCount: nat := |packed|;
    ghost var all := Reserve(text, maxChunk, marker);
    for i := 0 to MAX_MARKER_RESERVE_ITERATIONS
      invariant i < MAX_MARKER_RESERVE_ITERATIONS ==>
        all == ReserveFrom(text, maxChunk, marker, chunkCount, MAX_MARKER_RESERVE_ITERATIONS - i)
      invariant i == MAX_MARKER_RESERVE_ITERATIONS ==> packed == all.0
    {
      var reserve := |marker(chunkCount, chunkCount)|;
      packed := PackLoop(text, maxChunk, reserve);
      if |packed| == chunkCount {
        break;
      }
      chunkCount := |packed|;
    }
  }

  // ---------------------------------------------------------------- plans

  /** Cost of the first `count` messages of a plan of `total`: message 1 unmarked, the rest marked. */
  function FullCost(packed: seq<Chunk>, marker: ContinuationMarker, count: nat, total: nat): nat
    requires count <= |packed|
  {
    if count == 0 then 0
    else
      FullCost(packed, marker, count - 1, total) + packed[count - 1].len
      + (if count >= 2 then |marker(count, total)| else 0)
  }

  method FullChunksCost(packed: seq<Chunk>, marker: ContinuationMarker, count: nat, total: nat)
    returns (cost: nat)
    requires count <= |packed|
    ensures cost == FullCost(packed, marker, count, total)
  {
    cost := 0;
    for i := 1 to count + 1
      invariant cost == FullCost(packed, marker, i - 1, total)
    {
      cost := cost + packed[i - 1].len;
      if i >= 2 {
        cost := cost + |marker(i, total)|;
      }
    }
  }

  /** Where the truncated tail of a plan of `n` messages starts. */
  function TailStart(packed: seq<Chunk>, n: nat): nat
    requires n <= |packed| + 1
  {
    if n <= 1 then 0 else packed[n - 2].End()
  }

  /** How many full chunks precede the tail of a truncated plan of `best` messages. */
  function FullCount(best: nat): nat { if best == 0 then 0 else best - 1 }

  /** A plan of `n` messages whose last is cut off fits: full chunks, then at least the marker. */
  predicate Feasible(
      length: nat, packed: seq<Chunk>, maxChunk: nat, maxTotal: nat,
      marker: ContinuationMarker, truncation: TruncationMarker, n: nat)
    requires 1 <= n <= |packed| && TailStart(packed, n) <= length
  {
    var fullCost := FullCost(packed, marker, n - 1, n);
    var markerLen := |truncation(length - TailStart(packed, n))|;
    fullCost + markerLen <= maxTotal && markerLen <= Min(maxChunk, maxTotal - fullCost)
  }

  /** The walk over plan sizes from `n` on, with `n - 1` the last feasible size. */
  function WalkFrom(
      length: nat, packed: seq<Chunk>, maxChunk: nat, maxTotal: nat,
      marker: ContinuationMarker, truncation: TruncationMarker, n: nat): (best: nat)
    requires 1 <= n && (n <= |packed| || n == 1)
    requires forall c | c in packed :: c.End() <= length
    ensures best < n || best < |packed|
    decreases |packed| - n
  {
    if n < |packed| && Feasible(length, packed, maxChunk, maxTotal, marker, truncation, n)
    then WalkFrom(length, packed, maxChunk, maxTotal, marker, truncation, n + 1)
    else n - 1
  }

  method PlanWalk(
      length: nat, packed: seq<Chunk>, maxChunk: nat, maxTotal: nat,
      marker: ContinuationMarker, truncation: TruncationMarker) returns (bestCount: nat)
    requires forall c | c in packed :: c.End() <= length
    ensures bestCount == WalkFrom(length, packed, maxChunk, maxTotal, marker, truncation, 1)
  {
    bestCount := 0;
    var n := 1;
    while n < |packed|
      invariant bestCount == n - 1 && (n <= |packed| || n == 1)
      invariant WalkFrom(length, packed, maxChunk, maxTotal, marker, truncation, 1)
             == WalkFrom(length, packed, maxChunk, maxTotal, marker, truncation, n)
      decreases |packed| - n
    {
      var fullCost := FullChunksCost(packed, marker, n - 1, n);
      var tailStart := if n == 1 then 0 else packed[n - 2].End();
      var markerLen := |truncation(length - tailStart)|;
      var tailBudget := Min(maxChunk, maxTotal - fullCost);
      if fullCost + markerLen > maxTotal || markerLen > tailBudget {
        break;
      }
      bestCount := n;
      n := n + 1;
    }
  }

  // ---------------------------------------------------------------- the truncated tail

  /** How much of `remaining` fits `budget` beside a marker that reports `dropped` characters. */
  function Fit(remaining: nat, budget: int, truncation: TruncationMarker, dropped: nat): (cut: nat)
    ensures cut <= remaining
  {
    Min(remaining, Max(0, budget - |truncation(dropped)|))
  }

  function TailCutFrom(remaining: nat, budget: int, truncation: TruncationMarker, cut: nat, turns: nat)
      : (c: nat)
    requires cut <= remaining
    ensures c <= remaining
    decreases turns, remaining
  {
    if turns == 0 then cut
    else
      var next := Fit(remaining, budget, truncation, remaining - cut);
      if next == cut then cut else TailCutFrom(remaining, budget, truncation, next, turns - 1)
  }

  function TailCut(remaining: nat, budget: int, truncation: TruncationMarker): (c: nat)
    ensures c <= remaining
  {
    TailCutFrom(remaining, budget, truncation,
      Fit(remaining, budget, truncation, remaining), MAX_TRUNCATION_FIT_ITERATIONS)
  }

  method TruncatedTail(length: nat, start: nat, budget: int, truncation: TruncationMarker)
    returns (cut: nat, dropped: nat)
    requires start <= length
    ensures cut == TailCut(length - start, budget, truncation)
    ensures cut + dropped == length - start
  {
    var remaining := length - start;
    cut := Min(remaining, Max(0, budget - |truncation(remaining)|));
    ghost var all := TailCut(remaining, budget, truncation);
    for i := 0 to MAX_TRUNCATION_FIT_ITERATIONS
      invariant cut <= remaining
      invariant all == TailCutFrom(remaining, budget, truncation, cut, MAX_TRUNCATION_FIT_ITERATIONS - i)
    {
      var next := Min(remaining, Max(0, budget - |truncation(remaining - cut)|));
      if next == cut {
        break;
      }
      cut := next;
    }
    dropped := remaining - cut;
  }

  // ---------------------------------------------------------------- the whole split

  /** What is sent: the text itself, every chunk, or some chunks and a cut-off tail. */
  datatype Plan =
    | Whole
    | Full(chunks: seq<Chunk>)
    | Truncated(chunks: seq<Chunk>, total: nat, start: nat, cut: nat)

  /** `best - 1` full chunks, then as much of the rest as fits beside the truncation marker. */
  function CutOff(
      text: Text, packed: seq<Chunk>, maxChunk: nat, maxTotal: nat,
      marker: ContinuationMarker, truncation: TruncationMarker, best: nat): (p: Plan)
    requires forall c | c in packed :: c.End() <= |text|
    requires best <= |packed|
    ensures PlanOf(text, p)
  {
    var full := FullCount(best);
    var start := if full > 0 then packed[full - 1].End() else 0;
    var budget := Min(maxChunk, maxTotal - FullCost(packed, marker, full, best));
    Truncated(packed[..full], best, start, TailCut(|text| - start, budget, truncation))
  }

  /** Every chunk when that fits the ceiling, else the largest plan the walk reached. */
  function PlanFor(
      text: Text, packed: seq<Chunk>, maxChunk: nat, maxTotal: nat,
      marker: ContinuationMarker, truncation: TruncationMarker): (p: Plan)
    requires forall c | c in packed :: c.End() <= |text|
    ensures PlanOf(text, p)
  {
    if FullCost(packed, marker, |packed|, |packed|) <= maxTotal then Full(packed)
    else
      CutOff(text, packed, maxChunk, maxTotal, marker, truncation,
        WalkFrom(|text|, packed, maxChunk, maxTotal, marker, truncation, 1))
  }

  function ChoosePlan(
      text: Text, maxChunk: nat, maxTotal: nat,
      marker: ContinuationMarker, truncation: TruncationMarker): (p: Plan)
    requires maxChunk >= 1
    ensures PlanOf(text, p)
  {
    if |text| <= maxChunk && |text| <= maxTotal then Whole
    else
      PackedWithin(text, maxChunk, marker);
      PlanFor(text, Reserve(text, maxChunk, marker).0, maxChunk, maxTotal, marker, truncation)
  }

  /** Message `k` of a plan of `total`: its body, and the continuation marker unless it is the first. */
  function Message(text: Text, c: Chunk, marker: ContinuationMarker, k: nat, total: nat): Text
    requires c.End() <= |text|
  {
    c.Body(text) + (if k >= 2 then marker(k, total) else [])
  }

  function Messages(text: Text, chunks: seq<Chunk>, marker: ContinuationMarker, total: nat): (out: seq<Text>)
    requires forall c | c in chunks :: c.End() <= |text|
    ensures |out| == |chunks|
  {
    if chunks == [] then []
    else
      var last := |chunks| - 1;
      Messages(text, chunks[..last], marker, total) + [Message(text, chunks[last], marker, |chunks|, total)]
  }

  predicate PlanOf(text: Text, p: Plan) {
    match p
    case Whole => true
    case Full(chunks) => forall c | c in chunks :: c.End() <= |text|
    case Truncated(chunks, total, start, cut) =>
      (forall c | c in chunks :: c.End() <= |text|) && start + cut <= |text|
  }

  function Render(text: Text, p: Plan, marker: ContinuationMarker, truncation: TruncationMarker): seq<Text>
    requires PlanOf(text, p)
  {
    match p
    case Whole => [text]
    case Full(chunks) => Messages(text, chunks, marker, |chunks|)
    case Truncated(chunks, total, start, cut) =>
      Messages(text, chunks, marker, total)
      + [text[start..start + cut] + truncation(|text| - start - cut)]
  }

  lemma PackedWithin(text: Text, maxChunk: nat, marker: ContinuationMarker)
    requires maxChunk >= 1
    ensures var packed := Reserve(text, maxChunk, marker).0;
      Tiles(text, 0, packed) && forall c | c in packed :: c.End() <= |text|
  {
    var r := Reserve(text, maxChunk, marker);
    PackTiles(Headings.Rule(text), 0, false, maxChunk, |marker(r.1, r.1)|);
    TilesBounds(text, 0, r.0);
  }

  function ContinuationOf(options: SplitOptions): ContinuationMarker {
    match options.continuationMarker
    case Some(m) => m
    case None => DefaultContinuation
  }

  function TruncationOf(options: SplitOptions): TruncationMarker {
    match options.truncationMarker
    case Some(m) => m
    case None => DefaultTruncation
  }

  function Split(text: Text, options: SplitOptions): Result<seq<Text>, Error> {
    if options.maxChunkChars < 1 then Err(ChunkBudgetTooSmall)
    else if options.maxTotalChars < 1 then Err(TotalCeilingTooSmall)
    else
      var marker, truncation := ContinuationOf(options), TruncationOf(options);
      var plan := ChoosePlan(text, options.maxChunkChars, options.maxTotalChars, marker, truncation);
      Ok(Render(text, plan, marker, truncation))
  }

  method FullMessages(text: Text, packed: seq<Chunk>, marker: ContinuationMarker, count: nat, total: nat)
    returns (out: seq<Text>)
    requires count <= |packed| && forall c | c in packed :: c.End() <= |text|
    ensures out == Messages(text, packed[..count], marker, total)
  {
    out := [];
    for i := 1 to count + 1
      invariant out == Messages(text, packed[..i - 1], marker, total)
    {
      assert packed[..i][..i - 1] == packed[..i - 1];
      out := out + [packed[i - 1].Body(text) + if i >= 2 then marker(i, total) else []];
    }
  }

  /** The messages of a plan that is cut off after `bestCount` messages. */
  method SendTruncated(
      text: Text, packed: seq<Chunk>, maxChunk: nat, maxTotal: nat,
      marker: ContinuationMarker, truncation: TruncationMarker, bestCount: nat) returns (out: seq<Text>)
    requires forall c | c in packed :: c.End() <= |text|
    requires bestCount < |packed|
    ensures out == Render(text, CutOff(text, packed, maxChunk, maxTotal, marker, truncation, bestCount),
      marker, truncation)
  {
    var fullCount := Max(0, bestCount - 1);
    out := FullMessages(text, packed, marker, fullCount, bestCount);
    var start := if fullCount > 0 then packed[fullCount - 1].End() else 0;
    var fullCost := FullChunksCost(packed, marker, fullCount, bestCount);
    var budget := Min(maxChunk, maxTotal - fullCost);
    var cut, dropped := TruncatedTail(|text|, start, budget, truncation);
    out := out + [text[start..start + cut] + truncation(dropped)];
  }

  /** The plan walk, the preference for sending everything, and the messages of the plan chosen. */
  method SendPlan(
      text: Text, packed: seq<Chunk>, maxChunk: nat, maxTotal: nat,
      marker: ContinuationMarker, truncation: TruncationMarker) returns (out: seq<Text>)
    requires forall c | c in packed :: c.End() <= |text|
    ensures out == Render(text, PlanFor(text, packed, maxChunk, maxTotal, marker, truncation), marker, truncation)
  {
    var packedCount := |packed|;
    var bestCount := PlanWalk(|text|, packed, maxChunk, maxTotal, marker, truncation);
    var allCost := FullChunksCost(packed, marker, packedCount, packedCount);
    if allCost <= maxTotal {
      bestCount := packedCount;
    }
    if bestCount < packedCount {
      out := SendTruncated(text, packed, maxChunk, maxTotal, marker, truncation, bestCount);
    } else {
      out := FullMessages(text, packed, marker, packedCount, packedCount);
      assert packed[..packedCount] == packed;
    }
  }

  method SplitMessage(text: Text, options: SplitOptions) returns (r: Result<seq<Text>, Error>)
    ensures r == Split(text, options)
  {
    var maxChunk, maxTotal := options.maxChunkChars, options.maxTotalChars;
    if maxChunk < 1 {
      return Err(ChunkBudgetTooSmall);
    }
    if maxTotal < 1 {
      return Err(TotalCeilingTooSmall);
    }
    if |text| == 0 {
      return Ok([[]]);
    }
    if |text| <= maxChunk && |text| <= maxTotal {
      return Ok([text]);
    }
    var marker, truncation := ContinuationOf(options), TruncationOf(options);
    var packed := ReserveLoop(text, maxChunk, marker);
    PackedWithin(text, maxChunk, marker);
    var out := SendPlan(text, packed, maxChunk, maxTotal, marker, truncation);
    return Ok(out);
  }
}
