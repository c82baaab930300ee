/**
 * Splitting an oversized declaration along its syntax tree. Children are packed greedily into groups
 * that span at most the budget; a child over the budget is split in turn; a node with a block keeps
 * what precedes the block as a header of the block's first chunk.
 */
module CodeChunker {
  import opened Sequences
  import opened Text
  import opened Whitespace

  /** A syntax node with its extent and its named children; `isBlock` marks a `statement_block`. */
  datatype Node = Node(start: nat, end: nat, isBlock: bool, children: seq<Node>) {
    function Size(): int { end - start }
  }

  datatype Range = Range(start: nat, end: nat)

  /** A chunk: the headers put before it, outermost first, and the stretch of the file it holds. */
  datatype Piece = Piece(headers: seq<Range>, body: Range)

  ghost predicate WellFormed(n: Node) {
    && n.start <= n.end
    && (forall i | 0 <= i < |n.children| :: WellFormed(n.children[i]))
    && (forall i | 0 <= i < |n.children| :: n.start <= n.children[i].start && n.children[i].end <= n.end)
    && (forall i, j | 0 <= i < j < |n.children| :: n.children[i].end <= n.children[j].start)
  }

  /** The first block among the children from the `i`-th on, or the number of children. */
  function BlockFrom(n: Node, i: nat): (b: nat)
    requires i <= |n.children|
    ensures i <= b <= |n.children|
    ensures b < |n.children| ==> n.children[b].isBlock
    ensures forall k | i <= k < b :: !n.children[k].isBlock
    decreases |n.children| - i
  {
    if i == |n.children| || n.children[i].isBlock then i else BlockFrom(n, i + 1)
  }

  predicate HasBlock(n: Node) {
    BlockFrom(n, 0) < |n.children|
  }

  function Block(n: Node): (b: Node)
    requires HasBlock(n)
    ensures b in n.children && b < n
  {
    n.children[BlockFrom(n, 0)]
  }

  function WithHeader(header: Range, pieces: seq<Piece>): (out: seq<Piece>)
    ensures |out| == |pieces|
  {
    if pieces == [] then [] else [Piece([header] + pieces[0].headers, pieces[0].body)] + pieces[1..]
  }

  function Split(n: Node, max: int): (pieces: seq<Piece>)
    ensures |pieces| >= 1
    decreases n, 2, 0
  {
    if n.Size() <= max then [Piece([], Range(n.start, n.end))]
    else if HasBlock(n) then WithHeader(Range(n.start, Block(n).start), Split(Block(n), max))
    else if n.children == [] then [Piece([], Range(n.start, n.end))]
    else SplitChildren(n, max, 0, 1)
  }

  /** The group `g..i` is open and the `i`-th child is next. */
  function SplitChildren(n: Node, max: int, g: nat, i: nat): (pieces: seq<Piece>)
    requires g < i <= |n.children|
    ensures |pieces| >= 1
    decreases n, 1, |n.children| - i
  {
    if i == |n.children| then Emit(n, max, g, i)
    else if n.children[i].end - n.children[g].start <= max then SplitChildren(n, max, g, i + 1)
    else Emit(n, max, g, i) + SplitChildren(n, max, i, i + 1)
  }

  function Emit(n: Node, max: int, g: nat, i: nat): (pieces: seq<Piece>)
    requires g < i <= |n.children|
    ensures |pieces| >= 1
    decreases n, 0, 0
  {
    if n.children[i - 1].end - n.children[g].start <= max
    then [Piece([], Range(n.children[g].start, n.children[i - 1].end))]
    else Split(n.children[g], max)
  }

  // ---------------------------------------------------------------- the text of chunks

  function TextOf(content: Text, r: Range): Text {
    Trim(Slice(content, r.start, r.end))
  }

  function Rendered(content: Text, headers: seq<Range>, body: Range): Text
    decreases |headers|
  {
    if headers == [] then TextOf(content, body)
    else TextOf(content, headers[0]) + [LF] + Rendered(content, headers[1..], body)
  }

  function Texts(content: Text, pieces: seq<Piece>): (texts: seq<Text>)
    ensures |texts| == |pieces|
  {
    if pieces == [] then []
    else [Rendered(content, pieces[0].headers, pieces[0].body)] + Texts(content, pieces[1..])
  }

  lemma {:induction false} TextsConcat(content: Text, a: seq<Piece>, b: seq<Piece>)
    ensures Texts(content, a + b) == Texts(content, a) + Texts(content, b)
    decreases |a|
  {
    if a == [] {
      assert a + b == b;
    } else {
      assert (a + b)[1..] == a[1..] + b;
      TextsConcat(content, a[1..], b);
    }
  }

  lemma TextsWithHeader(content: Text, header: Range, pieces: seq<Piece>)
    requires pieces != []
    ensures Texts(content, WithHeader(header, pieces))
         == [TextOf(content, header) + [LF] + Texts(content, pieces)[0]] + Texts(content, pieces)[1..]
  {
    var first := Piece([header] + pieces[0].headers, pieces[0].body);
    assert first.headers[1..] == pieces[0].headers;
    assert WithHeader(header, pieces)[1..] == pieces[1..];
  }

  method FindBlock(n: Node) returns (b: nat)
    ensures b == BlockFrom(n, 0)
  {
    b := 0;
    while b < |n.children| && !n.children[b].isBlock
      invariant b <= |n.children| && BlockFrom(n, 0) == BlockFrom(n, b)
    {
      b := b + 1;
    }
  }

  method SplitOversized(n: Node, content: Text, maxChars: int) returns (chunks: seq<Text>)
    ensures chunks == Texts(content, Split(n, maxChars))
    decreases n, 2
  {
    if n.end - n.start <= maxChars {
      return [TextOf(content, Range(n.start, n.end))];
    }
    var b := FindBlock(n);
    if b < |n.children| {
      var body := n.children[b];
      var header := TextOf(content, Range(n.start, body.start));
      chunks := SplitOversized(body, content, maxChars);
      TextsWithHeader(content, Range(n.start, body.start), Split(body, maxChars));
      if |chunks| > 0 {
        chunks := [header + [LF] + chunks[0]] + chunks[1..];
      }
      return;
    }
    if |n.children| == 0 {
      return [TextOf(content, Range(n.start, n.end))];
    }
    chunks := PackStatements(n, content, maxChars);
  }

  /** The chunks so far and those of the groups still open. */
  ghost function WithRest(n: Node, content: Text, max: int, g: nat, i: nat, chunks: seq<Text>): seq<Text>
    requires g < i <= |n.children|
  {
    chunks + Texts(content, SplitChildren(n, max, g, i))
  }

  /** Closing a group puts its chunks behind those so far. */
  lemma GroupClosed(n: Node, content: Text, max: int, g: nat, i: nat, chunks: seq<Text>)
    requires g < i < |n.children| && n.children[i].end - n.children[g].start > max
    ensures WithRest(n, content, max, g, i, chunks)
         == WithRest(n, content, max, i, i + 1, chunks + Texts(content, Emit(n, max, g, i)))
  {
    TextsConcat(content, Emit(n, max, g, i), SplitChildren(n, max, i, i + 1));
    ConcatAssoc(chunks, Texts(content, Emit(n, max, g, i)), Texts(content, SplitChildren(n, max, i, i + 1)));
  }

  lemma GroupKept(n: Node, content: Text, max: int, g: nat, i: nat, chunks: seq<Text>)
    requires g < i < |n.children| && n.children[i].end - n.children[g].start <= max
    ensures WithRest(n, content, max, g, i, chunks) == WithRest(n, content, max, g, i + 1, chunks)
  {
  }

  /** The loop that packs a node's children into groups. */
  method PackStatements(n: Node, content: Text, maxChars: int) returns (chunks: seq<Text>)
    requires n.children != []
    ensures chunks == Texts(content, SplitChildren(n, maxChars, 0, 1))
    decreases n, 1
  {
    chunks := [];
    var g := 0;
    ghost var all := WithRest(n, content, maxChars, 0, 1, []);
    for i := 1 to |n.children|
      invariant g < i
      invariant all == WithRest(n, content, maxChars, g, i, chunks)
    {
      if n.children[i].end - n.children[g].start > maxChars {
        GroupClosed(n, content, maxChars, g, i, chunks);
        var emitted := EmitGroup(n, g, i, content, maxChars);
        chunks := chunks + emitted;
        g := i;
      } else {
        GroupKept(n, content, maxChars, g, i, chunks);
      }
    }
    var emitted := EmitGroup(n, g, |n.children|, content, maxChars);
    chunks := chunks + emitted;
  }

  method EmitGroup(n: Node, g: nat, i: nat, content: Text, maxChars: int) returns (chunks: seq<Text>)
    requires g < i <= |n.children|
    ensures chunks == Texts(content, Emit(n, maxChars, g, i))
    decreases n, 0
  {
    var start, end := n.children[g].start, n.children[i - 1].end;
    if end - start <= maxChars {
      return [TextOf(content, Range(start, end))];
    }
    chunks := SplitOversized(n.children[g], content, maxChars);
  }

  // ---------------------------------------------------------------- groups

  /** The children from `first` up to `next`. */
  datatype Group = Group(first: nat, next: nat)

  /** The groups closed from here on, in order. */
  function Groups(n: Node, max: int, g: nat, i: nat): (groups: seq<Group>)
    requires g < i <= |n.children|
    ensures |groups| >= 1
    decreases |n.children| - i
  {
    if i == |n.children| then [Group(g, i)]
    else if n.children[i].end - n.children[g].start <= max then Groups(n, max, g, i + 1)
    else [Group(g, i)] + Groups(n, max, i, i + 1)
  }

  /** A group over the budget is a single child. */
  predicate GroupFits(n: Node, max: int, g: nat, i: nat)
    requires g < i <= |n.children|
  {
    i == g + 1 || n.children[i - 1].end - n.children[g].start <= max
  }

  /** The groups are runs of children from the `g`-th to the last, each starting where the one before ends. */
  ghost predicate Consecutive(n: Node, g: nat, groups: seq<Group>)
    decreases |groups|
  {
    if groups == [] then g == |n.children|
    else groups[0].first == g < groups[0].next <= |n.children| && Consecutive(n, groups[0].next, groups[1..])
  }

  /** What is emitted for the groups, one after the other. */
  function Emitted(n: Node, max: int, g: nat, groups: seq<Group>): seq<Piece>
    requires Consecutive(n, g, groups)
    decreases |groups|
  {
    if groups == [] then []
    else Emit(n, max, g, groups[0].next) + Emitted(n, max, groups[0].next, groups[1..])
  }

  /** No group but a single child is over the budget, and each but the last has no room for the next child. */
  ghost predicate Packed(n: Node, max: int, g: nat, groups: seq<Group>)
    requires Consecutive(n, g, groups)
    decreases |groups|
  {
    groups == [] ||
    (&& GroupFits(n, max, g, groups[0].next)
     && (groups[0].next < |n.children| ==> n.children[groups[0].next].end - n.children[g].start > max)
     && Packed(n, max, groups[0].next, groups[1..]))
  }

  /**
   * Children are emitted in consecutive groups that cover them all: a group over the budget is a single
   * child, and no group could have taken the next child too.
   */
  lemma {:induction false} GroupsArePacked(n: Node, max: int, g: nat, i: nat)
    requires g < i <= |n.children| && GroupFits(n, max, g, i)
    ensures var groups := Groups(n, max, g, i);
      && Consecutive(n, g, groups)
      && Packed(n, max, g, groups)
      && SplitChildren(n, max, g, i) == Emitted(n, max, g, groups)
    decreases |n.children| - i
  {
    if i == |n.children| {
      assert [Group(g, i)][1..] == [];
    } else if n.children[i].end - n.children[g].start <= max {
      GroupsArePacked(n, max, g, i + 1);
    } else {
      GroupsArePacked(n, max, i, i + 1);
      assert ([Group(g, i)] + Groups(n, max, i, i + 1))[1..] == Groups(n, max, i, i + 1);
    }
  }

  // ---------------------------------------------------------------- order and size

  /** The stretches of the file a list of chunks holds, headers included. */
  function Ranges(pieces: seq<Piece>): seq<Range> {
    if pieces == [] then [] else pieces[0].headers + [pieces[0].body] + Ranges(pieces[1..])
  }

  /** Ranges in the order of the file, disjoint, between `lo` and `hi`. */
  ghost predicate InOrder(ranges: seq<Range>, lo: nat, hi: nat)
    decreases |ranges|
  {
    if ranges == [] then lo <= hi
    else lo <= ranges[0].start <= ranges[0].end && InOrder(ranges[1..], ranges[0].end, hi)
  }

  lemma {:induction false} InOrderConcat(a: seq<Range>, b: seq<Range>, lo: nat, mid: nat, hi: nat)
    requires InOrder(a, lo, mid) && InOrder(b, mid, hi)
    ensures InOrder(a + b, lo, hi)
    decreases |a|
  {
    if a == [] {
      assert a + b == b;
      InOrderFromEarlier(b, lo, mid, hi);
    } else {
      assert (a + b)[1..] == a[1..] + b;
      InOrderConcat(a[1..], b, a[0].end, mid, hi);
    }
  }

  lemma InOrderFromEarlier(a: seq<Range>, lo: nat, lo': nat, hi: nat)
    requires lo <= lo' && InOrder(a, lo', hi)
    ensures InOrder(a, lo, hi)
  {
    if a == [] {
    } else {
      assert InOrder(a[1..], a[0].end, hi);
    }
  }

  lemma {:induction false} InOrderToLater(a: seq<Range>, lo: nat, hi: nat, hi': nat)
    requires hi <= hi' && InOrder(a, lo, hi)
    ensures InOrder(a, lo, hi')
    decreases |a|
  {
    if a != [] {
      InOrderToLater(a[1..], a[0].end, hi, hi');
    }
  }

  lemma {:induction false} RangesConcat(a: seq<Piece>, b: seq<Piece>)
    ensures Ranges(a + b) == Ranges(a) + Ranges(b)
    decreases |a|
  {
    if a == [] {
      assert a + b == b;
    } else {
      assert (a + b)[1..] == a[1..] + b;
      RangesConcat(a[1..], b);
      assert a[0].headers + [a[0].body] + (Ranges(a[1..]) + Ranges(b))
          == (a[0].headers + [a[0].body] + Ranges(a[1..])) + Ranges(b);
    }
  }

  lemma RangesWithHeader(header: Range, pieces: seq<Piece>)
    requires pieces != []
    ensures Ranges(WithHeader(header, pieces)) == [header] + Ranges(pieces)
  {
    assert WithHeader(header, pieces)[1..] == pieces[1..];
    assert [header] + pieces[0].headers + [pieces[0].body] + Ranges(pieces[1..])
        == [header] + (pieces[0].headers + [pieces[0].body] + Ranges(pieces[1..]));
  }

  lemma RangesOfOne(r: Range)
    ensures Ranges([Piece([], r)]) == [r]
  {
    assert Ranges([Piece([], r)]) == [] + [r] + Ranges([]);
  }

  /** The chunks of a node are stretches of it, in the order of the file and disjoint. */
  lemma {:induction false} SplitInOrder(n: Node, max: int)
    requires WellFormed(n)
    ensures InOrder(Ranges(Split(n, max)), n.start, n.end)
    decreases n, 2, 0
  {
    RangesOfOne(Range(n.start, n.end));
    if n.Size() <= max {
      assert InOrder([Range(n.start, n.end)], n.start, n.end);
    } else if HasBlock(n) {
      var b, header := Block(n), Range(n.start, Block(n).start);
      SplitInOrder(b, max);
      RangesWithHeader(header, Split(b, max));
      InOrderToLater(Ranges(Split(b, max)), b.start, b.end, n.end);
      assert ([header] + Ranges(Split(b, max)))[1..] == Ranges(Split(b, max));
    } else if n.children == [] {
      assert InOrder([Range(n.start, n.end)], n.start, n.end);
    } else {
      GroupsArePacked(n, max, 0, 1);
      EmittedInOrder(n, max, 0, Groups(n, max, 0, 1), n.start);
    }
  }

  /** What is emitted for groups from the `g`-th child on lies behind `lo` and in order. */
  lemma {:induction false} EmittedInOrder(n: Node, max: int, g: nat, groups: seq<Group>, lo: nat)
    requires WellFormed(n) && Consecutive(n, g, groups)
    requires if groups == [] then lo <= n.end else lo <= n.children[g].start
    ensures InOrder(Ranges(Emitted(n, max, g, groups)), lo, n.end)
    decreases n, 1, |groups|
  {
    if groups != [] {
      var next := groups[0].next;
      var first, rest := Emit(n, max, g, next), Emitted(n, max, next, groups[1..]);
      EmitInOrder(n, max, g, next);
      InOrderFromEarlier(Ranges(first), lo, n.children[g].start, n.children[next - 1].end);
      EmittedInOrder(n, max, next, groups[1..], n.children[next - 1].end);
      RangesConcat(first, rest);
      InOrderConcat(Ranges(first), Ranges(rest), lo, n.children[next - 1].end, n.end);
    }
  }

  lemma {:induction false} EmitInOrder(n: Node, max: int, g: nat, i: nat)
    requires WellFormed(n) && g < i <= |n.children|
    ensures InOrder(Ranges(Emit(n, max, g, i)), n.children[g].start, n.children[i - 1].end)
    decreases n, 0, 0
  {
    var first, last := n.children[g], n.children[i - 1];
    assert first.start <= last.end by {
      assert g < i - 1 ==> first.end <= last.start;
    }
    if last.end - first.start <= max {
      RangesOfOne(Range(first.start, last.end));
      assert InOrder([Range(first.start, last.end)], first.start, last.end);
    } else {
      SplitInOrder(first, max);
      assert first.end <= last.end by {
        assert g < i - 1 ==> first.end <= last.start;
      }
      InOrderToLater(Ranges(Split(first, max)), first.start, first.end, last.end);
    }
  }

  function RangeOf(n: Node): Range {
    Range(n.start, n.end)
  }

  /** A childless named descendant of `n`, or `n` itself, has the extent `r`. */
  ghost predicate HasLeaf(n: Node, r: Range)
    decreases n
  {
    if n.children == [] then r == RangeOf(n)
    else exists i | 0 <= i < |n.children| :: HasLeaf(n.children[i], r)
  }

  /** Every body is within the budget or that of a childless node in the tree of `n`. */
  ghost predicate BodiesFitIn(n: Node, pieces: seq<Piece>, max: int) {
    forall p | p in pieces :: p.body.end - p.body.start <= max || HasLeaf(n, p.body)
  }

  lemma HeaderKeepsFit(n: Node, header: Range, pieces: seq<Piece>, max: int)
    requires pieces != [] && BodiesFitIn(n, pieces, max)
    ensures BodiesFitIn(n, WithHeader(header, pieces), max)
  {
    assert pieces[0] in pieces;
  }

  /** A leaf of a child is a leaf. */
  lemma ChildFits(n: Node, i: nat, pieces: seq<Piece>, max: int)
    requires i < |n.children| && BodiesFitIn(n.children[i], pieces, max)
    ensures BodiesFitIn(n, pieces, max)
  {
  }

  /** Without its headers, every chunk is within the budget unless it is a single childless node of the tree. */
  lemma {:induction false} BodiesFit(n: Node, max: int)
    ensures BodiesFitIn(n, Split(n, max), max)
    decreases n, 2, 0
  {
    if n.Size() > max {
      if HasBlock(n) {
        BodiesFit(Block(n), max);
        ChildFits(n, BlockFrom(n, 0), Split(Block(n), max), max);
        HeaderKeepsFit(n, Range(n.start, Block(n).start), Split(Block(n), max), max);
      } else if n.children == [] {
        assert RangeOf(n) == Split(n, max)[0].body;
      } else {
        GroupsArePacked(n, max, 0, 1);
        EmittedFit(n, max, 0, Groups(n, max, 0, 1));
      }
    }
  }

  lemma {:induction false} EmittedFit(n: Node, max: int, g: nat, groups: seq<Group>)
    requires Consecutive(n, g, groups)
    ensures BodiesFitIn(n, Emitted(n, max, g, groups), max)
    decreases n, 1, |groups|
  {
    if groups != [] {
      var next := groups[0].next;
      if n.children[next - 1].end - n.children[g].start > max {
        BodiesFit(n.children[g], max);
        ChildFits(n, g, Split(n.children[g], max), max);
      }
      EmittedFit(n, max, next, groups[1..]);
    }
  }

  // ---------------------------------------------------------------- coverage

  lemma {:induction false} LeafWithin(n: Node, r: Range)
    requires WellFormed(n) && HasLeaf(n, r)
    ensures n.start <= r.start <= r.end <= n.end
    decreases n
  {
    if n.children != [] {
      var i :| 0 <= i < |n.children| && HasLeaf(n.children[i], r);
      LeafWithin(n.children[i], r);
    }
  }

  ghost predicate Covered(ranges: seq<Range>, r: Range) {
    exists k :: 0 <= k < |ranges| && ranges[k].start <= r.start && r.end <= ranges[k].end
  }

  lemma CoveredConcat(a: seq<Range>, b: seq<Range>, r: Range)
    ensures Covered(a + b, r) <==> Covered(a, r) || Covered(b, r)
  {
    var c := a + b;
    assert forall k | 0 <= k < |a| :: c[k] == a[k];
    assert forall k | 0 <= k < |b| :: c[|a| + k] == b[k];
  }

  /** Stretches that lie before or after a range of positive width do not cover it. */
  lemma {:induction false} OutsideIsUncovered(ranges: seq<Range>, lo: nat, hi: nat, r: Range)
    requires InOrder(ranges, lo, hi) && r.start < r.end && (hi <= r.start || r.end <= lo)
    ensures !Covered(ranges, r)
    decreases |ranges|
  {
    InOrderBounds(ranges, lo, hi);
  }

  lemma {:induction false} InOrderBounds(ranges: seq<Range>, lo: nat, hi: nat)
    requires InOrder(ranges, lo, hi)
    ensures lo <= hi && forall k | 0 <= k < |ranges| :: lo <= ranges[k].start <= ranges[k].end <= hi
    decreases |ranges|
  {
    if ranges != [] {
      InOrderBounds(ranges[1..], ranges[0].end, hi);
      assert forall k | 1 <= k < |ranges| :: ranges[k] == ranges[1..][k - 1];
    }
  }

  /** Every named thing after the block of a split node is of zero width, here and wherever splitting recurses. */
  ghost predicate NothingBehindBlocks(n: Node, max: int)
    decreases n
  {
    n.Size() <= max ||
    if HasBlock(n) then
      && NothingBehindBlocks(Block(n), max)
      && forall i, r: Range | BlockFrom(n, 0) < i < |n.children| && HasLeaf(n.children[i], r) :: r.start == r.end
    else
      forall i | 0 <= i < |n.children| :: NothingBehindBlocks(n.children[i], max)
  }

  ghost predicate CoversLeaves(n: Node, max: int) {
    forall r: Range | HasLeaf(n, r) && r.start < r.end :: Covered(Ranges(Split(n, max)), r)
  }

  lemma CoveredByOne(b: Range, r: Range)
    requires b.start <= r.start && r.end <= b.end
    ensures Covered(Ranges([Piece([], b)]), r)
  {
    RangesOfOne(b);
    assert [b][0] == b;
  }

  /** Where nothing follows a block, every leaf is in a chunk or a header. */
  lemma {:induction false} SplitCovers(n: Node, max: int, r: Range)
    requires WellFormed(n) && NothingBehindBlocks(n, max) && HasLeaf(n, r) && r.start < r.end
    ensures Covered(Ranges(Split(n, max)), r)
    decreases n, 2, 0
  {
    LeafWithin(n, r);
    if n.Size() <= max || n.children == [] {
      CoveredByOne(RangeOf(n), r);
    } else {
      var i :| 0 <= i < |n.children| && HasLeaf(n.children[i], r);
      if HasBlock(n) {
        BlockCovers(n, max, r, i);
      } else {
        GroupsArePacked(n, max, 0, 1);
        EmittedCovers(n, max, 0, Groups(n, max, 0, 1), r, i);
      }
    }
  }

  lemma {:induction false} BlockCovers(n: Node, max: int, r: Range, i: nat)
    requires WellFormed(n) && NothingBehindBlocks(n, max) && n.Size() > max && HasBlock(n)
    requires i < |n.children| && HasLeaf(n.children[i], r) && r.start < r.end
    ensures Covered(Ranges(Split(n, max)), r)
    decreases n, 1, 0
  {
    var b, header := BlockFrom(n, 0), Range(n.start, Block(n).start);
    RangesWithHeader(header, Split(Block(n), max));
    CoveredConcat([header], Ranges(Split(Block(n), max)), r);
    LeafWithin(n.children[i], r);
    if i < b {
      assert [header][0].start <= r.start && r.end <= [header][0].end;
    } else {
      assert i == b;
      SplitCovers(Block(n), max, r);
    }
  }

  /** What is covered is covered by the first group or by the rest. */
  lemma FirstOrRestCovers(n: Node, max: int, g: nat, groups: seq<Group>, r: Range)
    requires Consecutive(n, g, groups) && groups != []
    ensures Covered(Ranges(Emitted(n, max, g, groups)), r) <==>
      || Covered(Ranges(Emit(n, max, g, groups[0].next)), r)
      || Covered(Ranges(Emitted(n, max, groups[0].next, groups[1..])), r)
  {
    var first, rest := Emit(n, max, g, groups[0].next), Emitted(n, max, groups[0].next, groups[1..]);
    RangesConcat(first, rest);
    CoveredConcat(Ranges(first), Ranges(rest), r);
  }

  lemma {:induction false} EmittedCovers(n: Node, max: int, g: nat, groups: seq<Group>, r: Range, k: nat)
    requires WellFormed(n) && Consecutive(n, g, groups) && Packed(n, max, g, groups)
    requires forall c | 0 <= c < |n.children| :: NothingBehindBlocks(n.children[c], max)
    requires g <= k < |n.children| && HasLeaf(n.children[k], r) && r.start < r.end
    ensures Covered(Ranges(Emitted(n, max, g, groups)), r)
    decreases n, 1, |groups|
  {
    FirstOrRestCovers(n, max, g, groups, r);
    if k < groups[0].next {
      EmitCovers(n, max, g, groups[0].next, r, k);
    } else {
      EmittedCovers(n, max, groups[0].next, groups[1..], r, k);
    }
  }

  lemma GroupSpans(n: Node, g: nat, k: nat, i: nat)
    requires WellFormed(n) && g <= k < i <= |n.children|
    ensures n.children[g].start <= n.children[k].start && n.children[k].end <= n.children[i - 1].end
  {
    assert WellFormed(n.children[g]) && WellFormed(n.children[i - 1]);
    assert g < k ==> n.children[g].end <= n.children[k].start;
    assert k < i - 1 ==> n.children[k].end <= n.children[i - 1].start;
  }

  lemma {:induction false} EmitCovers(n: Node, max: int, g: nat, i: nat, r: Range, k: nat)
    requires WellFormed(n) && g < i <= |n.children| && GroupFits(n, max, g, i)
    requires forall c | 0 <= c < |n.children| :: NothingBehindBlocks(n.children[c], max)
    requires g <= k < i && HasLeaf(n.children[k], r) && r.start < r.end
    ensures Covered(Ranges(Emit(n, max, g, i)), r)
    decreases n, 0, 0
  {
    if n.children[i - 1].end - n.children[g].start <= max {
      LeafWithin(n.children[k], r);
      GroupSpans(n, g, k, i);
      CoveredByOne(Range(n.children[g].start, n.children[i - 1].end), r);
    } else {
      SplitCovers(n.children[g], max, r);
    }
  }

  /** Where something follows a block, a leaf is in no chunk and no header. */
  lemma {:induction false} SplitMisses(n: Node, max: int) returns (r: Range)
    requires WellFormed(n) && !NothingBehindBlocks(n, max)
    ensures HasLeaf(n, r) && r.start < r.end && !Covered(Ranges(Split(n, max)), r)
    decreases n, 1
  {
    if HasBlock(n) {
      r := BlockMisses(n, max);
    } else {
      var k :| 0 <= k < |n.children| && !NothingBehindBlocks(n.children[k], max);
      r := SplitMisses(n.children[k], max);
      LeafWithin(n.children[k], r);
      GroupsArePacked(n, max, 0, 1);
      EmittedMisses(n, max, 0, Groups(n, max, 0, 1), k, r);
    }
  }

  lemma {:induction false} BlockMisses(n: Node, max: int) returns (r: Range)
    requires WellFormed(n) && !NothingBehindBlocks(n, max) && HasBlock(n)
    ensures HasLeaf(n, r) && r.start < r.end && !Covered(Ranges(Split(n, max)), r)
    decreases n, 0
  {
    var b, header := Block(n), Range(n.start, Block(n).start);
    RangesWithHeader(header, Split(b, max));
    if !NothingBehindBlocks(b, max) {
      r := SplitMisses(b, max);
      LeafWithin(b, r);
      CoveredConcat([header], Ranges(Split(b, max)), r);
    } else {
      var i, q: Range :|
        BlockFrom(n, 0) < i < |n.children| && HasLeaf(n.children[i], q) && q.start != q.end;
      r := q;
      LeafWithin(n.children[i], r);
      SplitInOrder(b, max);
      assert ([header] + Ranges(Split(b, max)))[1..] == Ranges(Split(b, max));
      OutsideIsUncovered(Ranges(Split(n, max)), n.start, b.end, r);
    }
  }

  lemma {:induction false} EmittedMisses(n: Node, max: int, g: nat, groups: seq<Group>, k: nat, r: Range)
    requires WellFormed(n) && Consecutive(n, g, groups) && Packed(n, max, g, groups)
    requires g <= k < |n.children| && n.children[k].Size() > max
    requires n.children[k].start <= r.start < r.end <= n.children[k].end
    requires !Covered(Ranges(Split(n.children[k], max)), r)
    ensures !Covered(Ranges(Emitted(n, max, g, groups)), r)
    decreases |groups|
  {
    var next := groups[0].next;
    FirstOrRestCovers(n, max, g, groups, r);
    EmitMisses(n, max, g, next, k, r);
    if k < next {
      RestMisses(n, max, next, groups[1..], k, r);
    } else {
      EmittedMisses(n, max, next, groups[1..], k, r);
    }
  }

  /** Groups behind a child hold nothing of it. */
  lemma RestMisses(n: Node, max: int, next: nat, rest: seq<Group>, k: nat, r: Range)
    requires WellFormed(n) && Consecutive(n, next, rest) && k < next <= |n.children|
    requires r.start < r.end <= n.children[k].end
    ensures !Covered(Ranges(Emitted(n, max, next, rest)), r)
  {
    EmittedInOrder(n, max, next, rest, n.children[k].end);
    OutsideIsUncovered(Ranges(Emitted(n, max, next, rest)), n.children[k].end, n.end, r);
  }

  lemma EmitMisses(n: Node, max: int, g: nat, i: nat, k: nat, r: Range)
    requires WellFormed(n) && g < i <= |n.children| && GroupFits(n, max, g, i)
    requires g <= k < |n.children| && n.children[k].Size() > max
    requires n.children[k].start <= r.start < r.end <= n.children[k].end
    requires !Covered(Ranges(Split(n.children[k], max)), r)
    ensures !Covered(Ranges(Emit(n, max, g, i)), r)
  {
    if k < i {
      GroupSpans(n, g, k, i);
    } else {
      EmitInOrder(n, max, g, i);
      OutsideIsUncovered(Ranges(Emit(n, max, g, i)), n.children[g].start, n.children[i - 1].end, r);
    }
  }

  /** Splitting drops nothing exactly when nothing named follows the block of a node it splits. */
  lemma CoversUnlessSomethingFollowsABlock(n: Node, max: int)
    requires WellFormed(n)
    ensures CoversLeaves(n, max) <==> NothingBehindBlocks(n, max)
  {
    if NothingBehindBlocks(n, max) {
      forall r: Range | HasLeaf(n, r) && r.start < r.end ensures Covered(Ranges(Split(n, max)), r) {
        SplitCovers(n, max, r);
      }
    } else {
      var r := SplitMisses(n, max);
    }
  }

  /** Every block is the last named child of its parent. */
  ghost predicate BlocksAreLast(n: Node)
    decreases n
  {
    && (forall i | 0 <= i < |n.children| :: BlocksAreLast(n.children[i]))
    && (forall i | 0 <= i < |n.children| - 1 :: !n.children[i].isBlock)
  }

  lemma {:induction false} LastBlocksHideNothing(n: Node, max: int)
    requires WellFormed(n) && BlocksAreLast(n)
    ensures NothingBehindBlocks(n, max)
    decreases n
  {
    forall i | 0 <= i < |n.children| ensures NothingBehindBlocks(n.children[i], max) {
      LastBlocksHideNothing(n.children[i], max);
    }
  }

  // ---------------------------------------------------------------- what the texts hold

  /** `t` is the stretch `r` of the file without the white space at its two ends. */
  ghost predicate HoldsStretch(t: Text, content: Text, r: Range) {
    && r.start <= r.end <= |content|
    && exists lo, hi :: IsTrimmedTo(t, content[r.start..r.end], lo, hi)
  }

  /** `t` holds the headers, one line feed behind each, and then the body. */
  ghost predicate Assembled(t: Text, content: Text, headers: seq<Range>, body: Range)
    decreases |headers|
  {
    if headers == [] then HoldsStretch(t, content, body)
    else
      exists k | 0 <= k < |t| ::
        HeaderTo(t, content, headers[0], k) && Assembled(t[k + 1..], content, headers[1..], body)
  }

  /** `t` begins with the header, and behind it, at `k`, stands a line feed. */
  ghost predicate HeaderTo(t: Text, content: Text, header: Range, k: nat) {
    k < |t| && t[k] == LF && HoldsStretch(t[..k], content, header)
  }

  predicate Within(ranges: seq<Range>, length: nat) {
    forall r | r in ranges :: r.start <= r.end <= length
  }

  /** The file's characters in the stretches, one stretch after the other. */
  function Stretches(content: Text, ranges: seq<Range>): Text
    requires Within(ranges, |content|)
  {
    if ranges == [] then []
    else content[ranges[0].start..ranges[0].end] + Stretches(content, ranges[1..])
  }

  lemma {:induction false} StretchesConcat(content: Text, a: seq<Range>, b: seq<Range>)
    requires Within(a, |content|) && Within(b, |content|)
    ensures Stretches(content, a + b) == Stretches(content, a) + Stretches(content, b)
    decreases |a|
  {
    if a == [] {
      assert a + b == b;
    } else {
      var first := content[a[0].start..a[0].end];
      assert (a + b)[1..] == a[1..] + b;
      StretchesConcat(content, a[1..], b);
      ConcatAssoc(first, Stretches(content, a[1..]), Stretches(content, b));
    }
  }

  lemma SliceIsStretch(content: Text, r: Range)
    requires r.start <= r.end <= |content|
    ensures Slice(content, r.start, r.end) == content[r.start..r.end]
  {
  }

  lemma TextHoldsStretch(content: Text, r: Range)
    requires r.start <= r.end <= |content|
    ensures HoldsStretch(TextOf(content, r), content, r)
    ensures NonSpace(TextOf(content, r)) == NonSpace(content[r.start..r.end])
  {
    SliceIsStretch(content, r);
    var lo, hi := TrimIsTrimmed(content[r.start..r.end]);
    NonSpaceOfTrim(content[r.start..r.end]);
  }

  lemma {:induction false} RenderedIsAssembled(content: Text, headers: seq<Range>, body: Range)
    requires Within(headers, |content|) && Within([body], |content|)
    ensures Assembled(Rendered(content, headers, body), content, headers, body)
    decreases |headers|
  {
    assert body in [body];
    if headers == [] {
      TextHoldsStretch(content, body);
    } else {
      var header, rest := TextOf(content, headers[0]), Rendered(content, headers[1..], body);
      var t := header + [LF] + rest;
      RenderedIsAssembled(content, headers[1..], body);
      TextHoldsStretch(content, headers[0]);
      assert t[..|header|] == header && t[|header| + 1..] == rest;
      assert HeaderTo(t, content, headers[0], |header|);
    }
  }

  lemma {:induction false} RenderedKeepsNonSpace(content: Text, headers: seq<Range>, body: Range)
    requires Within(headers, |content|) && Within([body], |content|)
    ensures Within(headers + [body], |content|)
    ensures NonSpace(Rendered(content, headers, body)) == NonSpace(Stretches(content, headers + [body]))
    decreases |headers|
  {
    assert body in [body];
    if headers == [] {
      assert headers + [body] == [body] && [body][1..] == [];
      assert Stretches(content, [body]) == content[body.start..body.end];
      TextHoldsStretch(content, body);
    } else {
      var all, header, rest := headers + [body], TextOf(content, headers[0]), Rendered(content, headers[1..], body);
      var slice := content[headers[0].start..headers[0].end];
      assert all[0] == headers[0] && all[1..] == headers[1..] + [body];
      RenderedKeepsNonSpace(content, headers[1..], body);
      TextHoldsStretch(content, headers[0]);
      assert NonSpace(header + [LF]) == NonSpace(slice) by {
        NonSpaceConcat(header, [LF]);
        NonSpaceOfSpace([LF]);
      }
      NonSpaceConcat(header + [LF], rest);
      assert Stretches(content, all) == slice + Stretches(content, all[1..]);
      NonSpaceConcat(slice, Stretches(content, all[1..]));
    }
  }

  lemma {:induction false} TextsAreAssembled(content: Text, pieces: seq<Piece>)
    requires Within(Ranges(pieces), |content|)
    ensures forall i | 0 <= i < |pieces| ::
      Assembled(Texts(content, pieces)[i], content, pieces[i].headers, pieces[i].body)
    ensures NonSpace(Concat(Texts(content, pieces))) == NonSpace(Stretches(content, Ranges(pieces)))
    decreases |pieces|
  {
    if pieces != [] {
      var p, rest := pieces[0], pieces[1..];
      var own := p.headers + [p.body];
      assert Ranges(pieces) == own + Ranges(rest);
      assert Within(own, |content|) && Within(Ranges(rest), |content|);
      assert p.body in own && Within(p.headers, |content|);
      TextsAreAssembled(content, rest);
      RenderedIsAssembled(content, p.headers, p.body);
      RenderedKeepsNonSpace(content, p.headers, p.body);
      StretchesConcat(content, own, Ranges(rest));
      NonSpaceConcat(Stretches(content, own), Stretches(content, Ranges(rest)));
      var texts := Texts(content, pieces);
      assert texts[1..] == Texts(content, rest);
      NonSpaceConcat(texts[0], Concat(texts[1..]));
    }
  }

  /**
   * The texts are, piece by piece, the trimmed stretches of the file the pieces name, each header with one
   * line feed behind it; and they lose and add none of the other characters of those stretches.
   */
  lemma TextsHoldTheStretches(n: Node, content: Text, max: int)
    requires WellFormed(n) && n.end <= |content|
    ensures var pieces := Split(n, max);
      && Within(Ranges(pieces), |content|)
      && (forall i | 0 <= i < |pieces| ::
            Assembled(Texts(content, pieces)[i], content, pieces[i].headers, pieces[i].body))
      && NonSpace(Concat(Texts(content, pieces))) == NonSpace(Stretches(content, Ranges(pieces)))
  {
    SplitInOrder(n, max);
    InOrderBounds(Ranges(Split(n, max)), n.start, n.end);
    TextsAreAssembled(content, Split(n, max));
  }
}
