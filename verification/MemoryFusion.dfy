/**
 * Fusion of search results into one ranked list: the best score of each document over all inputs, plus
 * keyword coverage and anchor boosts, above a floor, best first, and no more than asked for.
 */
module MemoryFusion {
  datatype Document = Wiki(origin: string, pageId: string) | File(filePath: string)

  /** A search result; a file's title is its path and it has no tags. */
  datatype Hit = Hit(doc: Document, title: string, tags: seq<string>, score: real, pitch: string)

  datatype Anchors = Anchors(tags: seq<string>, boostPerTag: real, boostTitle: real)

  /** `lower` is the lower-casing of strings. */
  datatype Ranking = Ranking(
    keywordBoost: real, anchors: Anchors, minScore: real, topK: nat, lower: string -> string)

  type Coverage = map<Document, real>

  // ---------------------------------------------------------------- collecting

  /** The position of a document's entry, or the number of entries. */
  function Find(entries: seq<Hit>, doc: Document): (i: nat)
    ensures i <= |entries|
    ensures i < |entries| ==> entries[i].doc == doc
    ensures forall k | 0 <= k < i :: entries[k].doc != doc
  {
    if entries == [] || entries[0].doc == doc then 0 else 1 + Find(entries[1..], doc)
  }

  /** A better hit replaces its document's entry in place; a hit of a new document is added at the end. */
  function Inserted(entries: seq<Hit>, hit: Hit): seq<Hit> {
    var i := Find(entries, hit.doc);
    if i == |entries| then entries + [hit]
    else if entries[i].score >= hit.score then entries
    else entries[i := hit]
  }

  function Collected(hits: seq<Hit>): seq<Hit> {
    if hits == [] then [] else Inserted(Collected(hits[..|hits| - 1]), hits[|hits| - 1])
  }

  ghost predicate OnePerDocument(entries: seq<Hit>) {
    forall i, j | 0 <= i < j < |entries| :: entries[i].doc != entries[j].doc
  }

  /** `best` is one of the hits, and no hit of its document scores higher. */
  ghost predicate IsBest(hits: seq<Hit>, best: Hit) {
    best in hits && forall h | h in hits && h.doc == best.doc :: h.score <= best.score
  }

  predicate Has(entries: seq<Hit>, doc: Document) {
    Find(entries, doc) < |entries|
  }

  lemma FindFinds(entries: seq<Hit>, k: nat)
    requires k < |entries|
    ensures Has(entries, entries[k].doc)
  {
  }

  ghost predicate Represents(entries: seq<Hit>, hits: seq<Hit>) {
    && OnePerDocument(entries)
    && (forall k | 0 <= k < |entries| :: IsBest(hits, entries[k]))
    && (forall h | h in hits :: Has(entries, h.doc))
  }

  lemma InsertKeepsOnePerDocument(entries: seq<Hit>, hit: Hit)
    requires OnePerDocument(entries)
    ensures OnePerDocument(Inserted(entries, hit))
  {
    var i := Find(entries, hit.doc);
  }

  lemma InsertHas(entries: seq<Hit>, hit: Hit, doc: Document)
    requires Has(entries, doc) || doc == hit.doc
    ensures Has(Inserted(entries, hit), doc)
  {
    var after := Inserted(entries, hit);
    var k := if doc == hit.doc then Find(entries, hit.doc) else Find(entries, doc);
    assert after[k].doc == doc;
    FindFinds(after, k);
  }

  /** An entry that stays is a best hit still; the hit that comes in beats all others of its document. */
  lemma InsertKeepsBest(entries: seq<Hit>, hits: seq<Hit>, hit: Hit, k: nat)
    requires Represents(entries, hits) && k < |Inserted(entries, hit)|
    ensures IsBest(hits + [hit], Inserted(entries, hit)[k])
  {
    var i, e := Find(entries, hit.doc), Inserted(entries, hit)[k];
    if i == |entries| {
      forall h | h in hits ensures h.doc != hit.doc {
        assert Has(entries, h.doc);
      }
    } else {
      assert IsBest(hits, entries[i]);
    }
    if k < |entries| {
      assert IsBest(hits, entries[k]);
    }
  }

  lemma InsertRepresents(entries: seq<Hit>, hits: seq<Hit>, hit: Hit)
    requires Represents(entries, hits)
    ensures Represents(Inserted(entries, hit), hits + [hit])
  {
    InsertKeepsOnePerDocument(entries, hit);
    forall k | 0 <= k < |Inserted(entries, hit)| ensures IsBest(hits + [hit], Inserted(entries, hit)[k]) {
      InsertKeepsBest(entries, hits, hit, k);
    }
    forall h | h in hits + [hit] ensures Has(Inserted(entries, hit), h.doc) {
      InsertHas(entries, hit, h.doc);
    }
  }

  /** There is one entry for every document hit, and it is one of its best hits. */
  lemma {:induction false} CollectedRepresents(hits: seq<Hit>)
    ensures Represents(Collected(hits), hits)
    decreases |hits|
  {
    if hits != [] {
      var before, last := hits[..|hits| - 1], hits[|hits| - 1];
      CollectedRepresents(before);
      InsertRepresents(Collected(before), before, last);
      assert before + [last] == hits;
    }
  }

  // ---------------------------------------------------------------- boosts

  predicate Contains(s: string, part: string) {
    part <= s || (s != "" && Contains(s[1..], part))
  }

  function Lowered(tags: seq<string>, lower: string -> string): seq<string> {
    seq(|tags|, i requires 0 <= i < |tags| => lower(tags[i]))
  }

  /** What the first `n` anchors add to a title with these tags. */
  function AnchorBoost(r: Ranking, title: string, tags: seq<string>, n: nat): real
    requires n <= |r.anchors.tags|
  {
    if n == 0 then 0.0
    else
      var anchor := r.lower(r.anchors.tags[n - 1]);
      AnchorBoost(r, title, tags, n - 1)
      + (if anchor in Lowered(tags, r.lower) then r.anchors.boostPerTag else 0.0)
      + (if Contains(r.lower(title), anchor) then r.anchors.boostTitle else 0.0)
  }

  /** What all anchors add to a hit. */
  function AnchorsOf(r: Ranking, e: Hit): real {
    AnchorBoost(r, e.title, e.tags, |r.anchors.tags|)
  }

  function CoverageBoost(r: Ranking, coverage: Coverage, doc: Document): real {
    if doc.Wiki? && doc in coverage && coverage[doc] > 0.0 then r.keywordBoost * coverage[doc] else 0.0
  }

  function Boosted(r: Ranking, coverage: Coverage, e: Hit): (b: Hit)
    ensures b.doc == e.doc && b.title == e.title && b.tags == e.tags && b.pitch == e.pitch
  {
    e.(score := e.score + CoverageBoost(r, coverage, e.doc) + AnchorsOf(r, e))
  }

  function AllBoosted(r: Ranking, coverage: Coverage, entries: seq<Hit>): (out: seq<Hit>)
    ensures |out| == |entries|
    ensures forall i | 0 <= i < |entries| :: out[i] == Boosted(r, coverage, entries[i])
  {
    seq(|entries|, i requires 0 <= i < |entries| => Boosted(r, coverage, entries[i]))
  }

  // ---------------------------------------------------------------- ranking

  function AboveFloor(entries: seq<Hit>, floor: real): seq<Hit> {
    if entries == [] then []
    else
      AboveFloor(entries[..|entries| - 1], floor)
      + if entries[|entries| - 1].score >= floor then [entries[|entries| - 1]] else []
  }

  /** Behind everything that does not score lower: sorting with this is stable. */
  function InsertedByScore(sorted: seq<Hit>, e: Hit): seq<Hit> {
    if sorted == [] then [e]
    else if sorted[|sorted| - 1].score >= e.score then sorted + [e]
    else InsertedByScore(sorted[..|sorted| - 1], e) + [sorted[|sorted| - 1]]
  }

  function SortedByScore(entries: seq<Hit>): seq<Hit> {
    if entries == [] then [] else InsertedByScore(SortedByScore(entries[..|entries| - 1]), entries[|entries| - 1])
  }

  ghost predicate Descending(s: seq<Hit>) {
    forall i, j | 0 <= i < j < |s| :: s[i].score >= s[j].score
  }

  lemma {:induction false} InsertAdds(sorted: seq<Hit>, e: Hit)
    ensures multiset(InsertedByScore(sorted, e)) == multiset(sorted) + multiset{e}
    decreases |sorted|
  {
    if sorted != [] && sorted[|sorted| - 1].score < e.score {
      InsertAdds(sorted[..|sorted| - 1], e);
      assert sorted == sorted[..|sorted| - 1] + [sorted[|sorted| - 1]];
    }
  }

  lemma {:induction false} InsertSorts(sorted: seq<Hit>, e: Hit)
    requires Descending(sorted)
    ensures Descending(InsertedByScore(sorted, e))
    decreases |sorted|
  {
    if sorted != [] && sorted[|sorted| - 1].score < e.score {
      InsertSorts(sorted[..|sorted| - 1], e);
      InsertBounds(sorted[..|sorted| - 1], e, sorted[|sorted| - 1].score);
    }
  }

  lemma {:induction false} InsertBounds(sorted: seq<Hit>, e: Hit, low: real)
    requires forall i | 0 <= i < |sorted| :: sorted[i].score >= low
    requires e.score >= low
    ensures forall i | 0 <= i < |InsertedByScore(sorted, e)| :: InsertedByScore(sorted, e)[i].score >= low
    decreases |sorted|
  {
    if sorted != [] && sorted[|sorted| - 1].score < e.score {
      InsertBounds(sorted[..|sorted| - 1], e, low);
    }
  }

  lemma {:induction false} SortSorts(entries: seq<Hit>)
    ensures Descending(SortedByScore(entries))
    decreases |entries|
  {
    if entries != [] {
      SortSorts(entries[..|entries| - 1]);
      InsertSorts(SortedByScore(entries[..|entries| - 1]), entries[|entries| - 1]);
    }
  }

  lemma {:induction false} SortPermutes(entries: seq<Hit>)
    ensures multiset(SortedByScore(entries)) == multiset(entries)
    decreases |entries|
  {
    if entries != [] {
      var before, last := entries[..|entries| - 1], entries[|entries| - 1];
      SortPermutes(before);
      InsertAdds(SortedByScore(before), last);
      assert entries == before + [last];
    }
  }

  /** The entries with a score, in order. */
  ghost function WithScore(entries: seq<Hit>, score: real): seq<Hit> {
    if entries == [] then []
    else
      WithScore(entries[..|entries| - 1], score)
      + if entries[|entries| - 1].score == score then [entries[|entries| - 1]] else []
  }

  lemma WithScoreAppended(entries: seq<Hit>, e: Hit, score: real)
    ensures WithScore(entries + [e], score) == WithScore(entries, score) + if e.score == score then [e] else []
  {
    assert (entries + [e])[..|entries|] == entries;
  }

  lemma {:induction false} InsertIsStable(sorted: seq<Hit>, e: Hit, score: real)
    ensures WithScore(InsertedByScore(sorted, e), score)
         == WithScore(sorted, score) + if e.score == score then [e] else []
    decreases |sorted|
  {
    if sorted == [] {
      assert [e][..0] == [];
    } else {
      var before, last := sorted[..|sorted| - 1], sorted[|sorted| - 1];
      if last.score >= e.score {
        WithScoreAppended(sorted, e, score);
      } else {
        InsertIsStable(before, e, score);
        WithScoreAppended(InsertedByScore(before, e), last, score);
      }
    }
  }

  /** Entries that score the same keep the order in which their documents were first found. */
  lemma {:induction false} SortIsStable(entries: seq<Hit>, score: real)
    ensures WithScore(SortedByScore(entries), score) == WithScore(entries, score)
    decreases |entries|
  {
    if entries != [] {
      SortIsStable(entries[..|entries| - 1], score);
      InsertIsStable(SortedByScore(entries[..|entries| - 1]), entries[|entries| - 1], score);
    }
  }

  lemma {:induction false} FloorFilters(entries: seq<Hit>, floor: real)
    ensures forall e :: e in AboveFloor(entries, floor) <==> e in entries && e.score >= floor
    decreases |entries|
  {
    if entries != [] {
      var before, last := entries[..|entries| - 1], entries[|entries| - 1];
      FloorFilters(before, floor);
      assert entries == before + [last];
    }
  }

  lemma {:induction false} FloorKeepsOnePerDocument(entries: seq<Hit>, floor: real)
    requires OnePerDocument(entries)
    ensures OnePerDocument(AboveFloor(entries, floor))
    decreases |entries|
  {
    if entries != [] {
      var before, last := entries[..|entries| - 1], entries[|entries| - 1];
      FloorKeepsOnePerDocument(before, floor);
      FloorFilters(before, floor);
      assert forall e | e in before :: e.doc != last.doc;
    }
  }

  function Top(sorted: seq<Hit>, k: nat): seq<Hit> {
    if k < |sorted| then sorted[..k] else sorted
  }

  function Scored(hits: seq<Hit>, coverage: Coverage, r: Ranking): seq<Hit> {
    AllBoosted(r, coverage, Collected(hits))
  }

  /** `fuseMemoryResults`, for the wiki hits followed by the file hits. */
  function Fused(hits: seq<Hit>, coverage: Coverage, r: Ranking): seq<Hit> {
    Top(SortedByScore(AboveFloor(Scored(hits, coverage, r), r.minScore)), r.topK)
  }

  // ---------------------------------------------------------------- what fusion promises

  /** A document's hit with the boosts it gets. */
  ghost predicate ScoredFrom(hits: seq<Hit>, coverage: Coverage, r: Ranking, e: Hit) {
    exists best :: IsBest(hits, best) && e == Boosted(r, coverage, best)
  }

  lemma ScoredAt(hits: seq<Hit>, coverage: Coverage, r: Ranking, i: nat)
    requires i < |Collected(hits)| && IsBest(hits, Collected(hits)[i])
    ensures ScoredFrom(hits, coverage, r, Scored(hits, coverage, r)[i])
  {
    assert Scored(hits, coverage, r)[i] == Boosted(r, coverage, Collected(hits)[i]);
  }

  lemma ScoredHas(entries: seq<Hit>, coverage: Coverage, r: Ranking, doc: Document)
    requires Has(entries, doc)
    ensures exists e :: e in AllBoosted(r, coverage, entries) && e.doc == doc
  {
    var scored := AllBoosted(r, coverage, entries);
    assert scored[Find(entries, doc)] in scored;
  }

  lemma ScoredIsBoostedBest(hits: seq<Hit>, coverage: Coverage, r: Ranking)
    ensures OnePerDocument(Scored(hits, coverage, r))
    ensures forall e | e in Scored(hits, coverage, r) :: ScoredFrom(hits, coverage, r, e)
    ensures forall h | h in hits :: exists e :: e in Scored(hits, coverage, r) && e.doc == h.doc
  {
    CollectedRepresents(hits);
    forall i | 0 <= i < |Collected(hits)| ensures ScoredFrom(hits, coverage, r, Scored(hits, coverage, r)[i]) {
      ScoredAt(hits, coverage, r, i);
    }
    forall h | h in hits ensures exists e :: e in Scored(hits, coverage, r) && e.doc == h.doc {
      ScoredHas(Collected(hits), coverage, r, h.doc);
    }
  }

  lemma DistinctMultiset(a: seq<Hit>, b: seq<Hit>)
    requires multiset(a) == multiset(b) && OnePerDocument(a)
    ensures OnePerDocument(b)
  {
    forall i, j | 0 <= i < j < |b| && b[i].doc == b[j].doc ensures false {
      assert b[i] in multiset(b) && b[j] in multiset(b);
      assert b[i] in a && b[j] in a;
      assert b[i] == b[j];
      MultisetTwice(b, i, j);
      OncePerSequence(a, b[i]);
    }
  }

  lemma MultisetTwice(b: seq<Hit>, i: nat, j: nat)
    requires i < j < |b| && b[i] == b[j]
    ensures multiset(b)[b[i]] >= 2
  {
    assert b == b[..i] + [b[i]] + b[i + 1..j] + [b[j]] + b[j + 1..];
  }

  lemma {:induction false} OncePerSequence(a: seq<Hit>, e: Hit)
    requires OnePerDocument(a)
    ensures multiset(a)[e] <= 1
    decreases |a|
  {
    if a != [] {
      assert a == a[..|a| - 1] + [a[|a| - 1]];
      OncePerSequence(a[..|a| - 1], e);
      if a[|a| - 1] == e {
        assert e !in a[..|a| - 1];
      }
    }
  }

  lemma TopOutscores(sorted: seq<Hit>, k: nat, e: Hit, o: Hit)
    requires Descending(sorted) && e in sorted && e !in Top(sorted, k) && o in Top(sorted, k)
    ensures |Top(sorted, k)| == k && e.score <= o.score
  {
    var i :| 0 <= i < |sorted| && sorted[i] == e;
    var j :| 0 <= j < |Top(sorted, k)| && Top(sorted, k)[j] == o;
    assert i >= k && sorted[j] == o;
  }

  lemma TopIsPrefix(sorted: seq<Hit>, k: nat)
    ensures |Top(sorted, k)| <= k && Top(sorted, k) <= sorted
    ensures Descending(sorted) ==> Descending(Top(sorted, k))
    ensures OnePerDocument(sorted) ==> OnePerDocument(Top(sorted, k))
  {
  }

  /** The qualified entries, sorted: each at or above the floor, one per document, best first. */
  lemma QualifiedSorted(scored: seq<Hit>, floor: real)
    requires OnePerDocument(scored)
    ensures var sorted := SortedByScore(AboveFloor(scored, floor));
      && Descending(sorted)
      && OnePerDocument(sorted)
      && forall e :: e in sorted <==> e in scored && e.score >= floor
  {
    var qualified := AboveFloor(scored, floor);
    FloorFilters(scored, floor);
    FloorKeepsOnePerDocument(scored, floor);
    SortSorts(qualified);
    SortPermutes(qualified);
    DistinctMultiset(qualified, SortedByScore(qualified));
    SameElements(qualified, SortedByScore(qualified));
  }

  /**
   * The ranked list: one entry per document, each a best hit of its document with its boosts, best
   * first, all at or above the floor, at most as many as asked for; and whatever qualifies but is not
   * in it scores no more than anything that is.
   */
  lemma FusionRanks(hits: seq<Hit>, coverage: Coverage, r: Ranking)
    ensures var out := Fused(hits, coverage, r);
      && |out| <= r.topK
      && Descending(out)
      && OnePerDocument(out)
      && (forall e | e in out :: e.score >= r.minScore && ScoredFrom(hits, coverage, r, e))
      && (forall e, o | e in Scored(hits, coverage, r) && e.score >= r.minScore && e !in out && o in out ::
            |out| == r.topK && e.score <= o.score)
  {
    var scored := Scored(hits, coverage, r);
    var sorted := SortedByScore(AboveFloor(scored, r.minScore));
    ScoredIsBoostedBest(hits, coverage, r);
    QualifiedSorted(scored, r.minScore);
    TopIsPrefix(sorted, r.topK);
    forall e, o | e in scored && e.score >= r.minScore && e !in Top(sorted, r.topK) && o in Top(sorted, r.topK)
      ensures |Top(sorted, r.topK)| == r.topK && e.score <= o.score
    {
      TopOutscores(sorted, r.topK, e, o);
    }
  }

  lemma SameElements(a: seq<Hit>, b: seq<Hit>)
    requires multiset(a) == multiset(b)
    ensures forall e :: e in a <==> e in b
  {
    forall e ensures e in a <==> e in b {
      assert e in multiset(a) <==> e in multiset(b);
    }
  }

  /** Every document hit that qualifies is in the list, or the list is full of others that score no less. */
  lemma QualifiedAreListedOrOutscored(hits: seq<Hit>, coverage: Coverage, r: Ranking, e: Hit)
    requires e in Scored(hits, coverage, r) && e.score >= r.minScore
    ensures var out := Fused(hits, coverage, r);
      e in out || (|out| == r.topK && forall o | o in out :: o.score >= e.score)
  {
    FusionRanks(hits, coverage, r);
    ScoredIsBoostedBest(hits, coverage, r);
    QualifiedSorted(Scored(hits, coverage, r), r.minScore);
  }

  /** The best hits of a document get the same anchor boosts. */
  ghost predicate TiesAgree(hits: seq<Hit>, r: Ranking) {
    forall a, b | IsBest(hits, a) && IsBest(hits, b) && a.doc == b.doc :: AnchorsOf(r, a) == AnchorsOf(r, b)
  }

  /** The same hits, in any order and any number of times. */
  ghost predicate SameHits(hits: seq<Hit>, hits': seq<Hit>) {
    forall h :: h in hits <==> h in hits'
  }

  /** Every document scores the same whatever the order and repetition of the hits. */
  ghost predicate OrderFree(hits: seq<Hit>, coverage: Coverage, r: Ranking) {
    forall hits', e, e' |
      SameHits(hits, hits') && e in Scored(hits, coverage, r) && e' in Scored(hits', coverage, r) && e.doc == e'.doc ::
      e.score == e'.score
  }

  lemma BestHitsScoreTheSame(hits: seq<Hit>, hits': seq<Hit>, coverage: Coverage, r: Ranking, e: Hit, e': Hit)
    requires SameHits(hits, hits') && TiesAgree(hits, r)
    requires ScoredFrom(hits, coverage, r, e) && ScoredFrom(hits', coverage, r, e') && e.doc == e'.doc
    ensures e.score == e'.score
  {
    var best :| IsBest(hits, best) && e == Boosted(r, coverage, best);
    var best' :| IsBest(hits', best') && e' == Boosted(r, coverage, best');
    assert IsBest(hits, best');
    assert best.score == best'.score;
  }

  /** Of equal best hits the first one collected stays. */
  lemma {:induction false} FirstBestStays(first: Hit, hits: seq<Hit>)
    requires IsBest([first] + hits, first)
    ensures first in Collected([first] + hits)
    decreases |hits|
  {
    if hits == [] {
      assert ([first] + [])[..0] == [];
      assert Collected([first] + []) == Inserted([], first);
    } else {
      var before, last := hits[..|hits| - 1], hits[|hits| - 1];
      assert ([first] + hits)[..|hits|] == [first] + before;
      assert IsBest([first] + before, first) && last in [first] + hits;
      FirstBestStays(first, before);
      CollectedRepresents([first] + before);
      BestStays(Collected([first] + before), first, last);
    }
  }

  lemma BestStays(entries: seq<Hit>, best: Hit, hit: Hit)
    requires best in entries && (hit.doc == best.doc ==> hit.score <= best.score)
    requires OnePerDocument(entries)
    ensures best in Inserted(entries, hit)
  {
    var k :| 0 <= k < |entries| && entries[k] == best;
    assert Inserted(entries, hit)[k] == best;
  }

  /** A best hit that comes first makes its document's score. */
  lemma FirstBestScores(first: Hit, hits: seq<Hit>, coverage: Coverage, r: Ranking)
    requires IsBest(hits, first)
    ensures SameHits(hits, [first] + hits)
    ensures Boosted(r, coverage, first) in Scored([first] + hits, coverage, r)
  {
    assert IsBest([first] + hits, first);
    FirstBestStays(first, hits);
    var entries := Collected([first] + hits);
    var k :| 0 <= k < |entries| && entries[k] == first;
    assert Scored([first] + hits, coverage, r)[k] == Boosted(r, coverage, first);
  }

  lemma OrderFreeWhereTiesAgree(hits: seq<Hit>, hits': seq<Hit>, coverage: Coverage, r: Ranking, e: Hit, e': Hit)
    requires TiesAgree(hits, r) && SameHits(hits, hits')
    requires e in Scored(hits, coverage, r) && e' in Scored(hits', coverage, r) && e.doc == e'.doc
    ensures e.score == e'.score
  {
    ScoredIsBoostedBest(hits, coverage, r);
    ScoredIsBoostedBest(hits', coverage, r);
    BestHitsScoreTheSame(hits, hits', coverage, r, e, e');
  }

  /** Where order does not matter, a best hit of a document has its score, boosts included. */
  lemma BestHitScores(hits: seq<Hit>, coverage: Coverage, r: Ranking, best: Hit, e: Hit)
    requires OrderFree(hits, coverage, r) && IsBest(hits, best)
    requires e in Scored(hits, coverage, r) && e.doc == best.doc
    ensures e.score == Boosted(r, coverage, best).score
  {
    FirstBestScores(best, hits, coverage, r);
  }

  lemma EqualScoresEqualBoosts(coverage: Coverage, r: Ranking, a: Hit, b: Hit)
    requires a.doc == b.doc && a.score == b.score
    requires Boosted(r, coverage, a).score == Boosted(r, coverage, b).score
    ensures AnchorsOf(r, a) == AnchorsOf(r, b)
  {
  }

  lemma TiesAgreeWhereOrderFree(hits: seq<Hit>, coverage: Coverage, r: Ranking, a: Hit, b: Hit)
    requires OrderFree(hits, coverage, r) && IsBest(hits, a) && IsBest(hits, b) && a.doc == b.doc
    ensures AnchorsOf(r, a) == AnchorsOf(r, b)
  {
    var e := ScoredOf(hits, coverage, r, a);
    BestHitScores(hits, coverage, r, a, e);
    BestHitScores(hits, coverage, r, b, e);
    EqualScoresEqualBoosts(coverage, r, a, b);
  }

  lemma ScoredOf(hits: seq<Hit>, coverage: Coverage, r: Ranking, h: Hit) returns (e: Hit)
    requires h in hits
    ensures e in Scored(hits, coverage, r) && e.doc == h.doc
  {
    ScoredIsBoostedBest(hits, coverage, r);
    e :| e in Scored(hits, coverage, r) && e.doc == h.doc;
  }

  /** Scores do not depend on the order and repetition of the hits exactly when equal best hits get equal boosts. */
  lemma ScoresIgnoreOrder(hits: seq<Hit>, coverage: Coverage, r: Ranking)
    ensures OrderFree(hits, coverage, r) <==> TiesAgree(hits, r)
  {
    if TiesAgree(hits, r) {
      forall hits', e, e' |
        SameHits(hits, hits') && e in Scored(hits, coverage, r) && e' in Scored(hits', coverage, r) && e.doc == e'.doc
        ensures e.score == e'.score
      {
        OrderFreeWhereTiesAgree(hits, hits', coverage, r, e, e');
      }
    } else if OrderFree(hits, coverage, r) {
      forall a, b | IsBest(hits, a) && IsBest(hits, b) && a.doc == b.doc
        ensures AnchorsOf(r, a) == AnchorsOf(r, b)
      {
        TiesAgreeWhereOrderFree(hits, coverage, r, a, b);
      }
    }
  }

  /** So it is for the documents that are returned. */
  lemma RankedScoresIgnoreOrder(hits: seq<Hit>, hits': seq<Hit>, coverage: Coverage, r: Ranking, e: Hit, e': Hit)
    requires SameHits(hits, hits') && TiesAgree(hits, r)
    requires e in Fused(hits, coverage, r) && e' in Fused(hits', coverage, r) && e.doc == e'.doc
    ensures e.score == e'.score
  {
    FusionRanks(hits, coverage, r);
    FusionRanks(hits', coverage, r);
    BestHitsScoreTheSame(hits, hits', coverage, r, e, e');
  }

  /** Where they do not, the order matters: of two equal hits the first one's title and tags are boosted. */
  lemma FirstOfEqualHitsWins(a: Hit, b: Hit, coverage: Coverage, r: Ranking)
    requires a.doc == b.doc && a.score == b.score
    ensures Scored([a, b], coverage, r) == [Boosted(r, coverage, a)]
    ensures Scored([b, a], coverage, r) == [Boosted(r, coverage, b)]
  {
    assert [a, b][..1] == [a] && [b, a][..1] == [b];
    assert [a][..0] == [] && [b][..0] == [];
    assert Collected([a]) == Inserted([], a) && Collected([b]) == Inserted([], b);
    assert Collected([a, b]) == Inserted([a], b) && Collected([b, a]) == Inserted([b], a);
  }

  // ---------------------------------------------------------------- what a score is

  /** `part` stands in `s`, at `k`. */
  predicate StandsAt(s: string, part: string, k: nat) {
    k + |part| <= |s| && s[k..k + |part|] == part
  }

  lemma OneFurther(s: string, part: string, k: nat)
    requires s != ""
    ensures StandsAt(s[1..], part, k) <==> StandsAt(s, part, k + 1)
  {
    if k + 1 + |part| <= |s| {
      assert s[1..][k..k + |part|] == s[k + 1..k + 1 + |part|];
    }
  }

  lemma {:induction false} ContainsMeans(s: string, part: string)
    ensures Contains(s, part) <==> exists k: nat :: StandsAt(s, part, k)
    decreases |s|
  {
    if part <= s {
      assert StandsAt(s, part, 0);
    } else if s == "" {
      assert part != "" && forall k: nat :: !StandsAt(s, part, k);
    } else {
      ContainsMeans(s[1..], part);
      assert !StandsAt(s, part, 0);
      if k: nat :| StandsAt(s[1..], part, k) {
        OneFurther(s, part, k);
      }
      if k: nat :| StandsAt(s, part, k) {
        OneFurther(s, part, k - 1);
      }
    }
  }

  /** Cases aside, the `i`-th anchor is one of the tags. */
  ghost predicate InATag(r: Ranking, e: Hit, i: nat)
    requires i < |r.anchors.tags|
  {
    exists t | t in e.tags :: r.lower(t) == r.lower(r.anchors.tags[i])
  }

  /** Cases aside, the `i`-th anchor stands in the title. */
  ghost predicate InTheTitle(r: Ranking, e: Hit, i: nat)
    requires i < |r.anchors.tags|
  {
    exists k: nat :: StandsAt(r.lower(e.title), r.lower(r.anchors.tags[i]), k)
  }

  ghost function AnchorsInTags(r: Ranking, e: Hit, n: nat): set<nat>
    requires n <= |r.anchors.tags|
  {
    set i: nat | i < n && InATag(r, e, i)
  }

  ghost function AnchorsInTitle(r: Ranking, e: Hit, n: nat): set<nat>
    requires n <= |r.anchors.tags|
  {
    set i: nat | i < n && InTheTitle(r, e, i)
  }

  /** The boost, added so many times. */
  ghost function Times(n: nat, boost: real): real {
    if n == 0 then 0.0 else Times(n - 1, boost) + boost
  }

  lemma {:induction false} TimesMultiplies(n: nat, boost: real)
    ensures Times(n, boost) == n as real * boost
  {
    if n > 0 {
      TimesMultiplies(n - 1, boost);
    }
  }

  lemma TimesOneMore(before: set<nat>, after: set<nat>, n: nat, more: bool, boost: real)
    requires n !in before && after == if more then before + {n} else before
    ensures Times(|after|, boost) == if more then Times(|before|, boost) + boost else Times(|before|, boost)
  {
    assert more ==> |after| == |before| + 1;
  }

  lemma OneMoreInTags(r: Ranking, e: Hit, n: nat)
    requires n < |r.anchors.tags|
    ensures var boost, before := r.anchors.boostPerTag, Times(|AnchorsInTags(r, e, n)|, r.anchors.boostPerTag);
      Times(|AnchorsInTags(r, e, n + 1)|, boost) == if InATag(r, e, n) then before + boost else before
  {
    var before, after := AnchorsInTags(r, e, n), AnchorsInTags(r, e, n + 1);
    assert after == if InATag(r, e, n) then before + {n} else before;
    TimesOneMore(before, after, n, InATag(r, e, n), r.anchors.boostPerTag);
  }

  lemma OneMoreInTitle(r: Ranking, e: Hit, n: nat)
    requires n < |r.anchors.tags|
    ensures var boost, before := r.anchors.boostTitle, Times(|AnchorsInTitle(r, e, n)|, r.anchors.boostTitle);
      Times(|AnchorsInTitle(r, e, n + 1)|, boost) == if InTheTitle(r, e, n) then before + boost else before
  {
    var before, after := AnchorsInTitle(r, e, n), AnchorsInTitle(r, e, n + 1);
    assert after == if InTheTitle(r, e, n) then before + {n} else before;
    TimesOneMore(before, after, n, InTheTitle(r, e, n), r.anchors.boostTitle);
  }

  lemma TagOrTitle(r: Ranking, e: Hit, n: nat)
    requires n < |r.anchors.tags|
    ensures r.lower(r.anchors.tags[n]) in Lowered(e.tags, r.lower) <==> InATag(r, e, n)
    ensures Contains(r.lower(e.title), r.lower(r.anchors.tags[n])) <==> InTheTitle(r, e, n)
  {
    ContainsMeans(r.lower(e.title), r.lower(r.anchors.tags[n]));
    var lowered := Lowered(e.tags, r.lower);
    forall t | t in e.tags ensures r.lower(t) in lowered {
      var i :| 0 <= i < |e.tags| && e.tags[i] == t;
      assert lowered[i] == r.lower(t);
    }
    assert forall i | 0 <= i < |lowered| :: lowered[i] == r.lower(e.tags[i]) && e.tags[i] in e.tags;
  }

  lemma {:induction false} AnchorsAdd(r: Ranking, e: Hit, n: nat)
    requires n <= |r.anchors.tags|
    ensures AnchorBoost(r, e.title, e.tags, n)
         == Times(|AnchorsInTags(r, e, n)|, r.anchors.boostPerTag)
            + Times(|AnchorsInTitle(r, e, n)|, r.anchors.boostTitle)
    decreases n
  {
    if n == 0 {
      assert AnchorsInTags(r, e, 0) == {} && AnchorsInTitle(r, e, 0) == {};
    } else {
      AnchorsAdd(r, e, n - 1);
      TagOrTitle(r, e, n - 1);
      OneMoreInTags(r, e, n - 1);
      OneMoreInTitle(r, e, n - 1);
    }
  }

  /** What a page's coverage adds; files and pages without any get nothing. */
  ghost predicate CoverageAdds(r: Ranking, coverage: Coverage, doc: Document, added: real) {
    if doc.Wiki? && doc in coverage && coverage[doc] > 0.0 then added == r.keywordBoost * coverage[doc]
    else added == 0.0
  }

  /**
   * Every ranked entry is a best hit of its document whose score has grown by the keyword boost times the
   * page's coverage, by the tag boost for every anchor that is one of its tags, and by the title boost for
   * every anchor that stands in its title.
   */
  lemma ScoresAddUp(hits: seq<Hit>, coverage: Coverage, r: Ranking, e: Hit) returns (best: Hit, covered: real)
    requires e in Fused(hits, coverage, r)
    ensures IsBest(hits, best) && e == best.(score := e.score) && CoverageAdds(r, coverage, best.doc, covered)
    ensures var n := |r.anchors.tags|;
      e.score == best.score + covered
        + Times(|AnchorsInTags(r, best, n)|, r.anchors.boostPerTag)
        + Times(|AnchorsInTitle(r, best, n)|, r.anchors.boostTitle)
  {
    FusionRanks(hits, coverage, r);
    best :| IsBest(hits, best) && e == Boosted(r, coverage, best);
    covered := CoverageBoost(r, coverage, best.doc);
    AnchorsAdd(r, best, |r.anchors.tags|);
  }

  // ---------------------------------------------------------------- the loops

  /** The loops over wiki and file candidates. */
  method Collect(wiki: seq<Hit>, files: seq<Hit>) returns (byKey: seq<Hit>)
    ensures byKey == Collected(wiki + files)
  {
    byKey := [];
    var hits := wiki + files;
    for n := 0 to |hits|
      invariant byKey == Collected(hits[..n])
    {
      assert hits[..n + 1][..n] == hits[..n];
      var hit := hits[n];
      var i := Find(byKey, hit.doc);
      if i < |byKey| {
        if byKey[i].score < hit.score {
          byKey := byKey[i := hit];
        }
      } else {
        byKey := byKey + [hit];
      }
    }
    assert hits[..|hits|] == hits;
  }

  /** The inner loop over anchors. */
  method BoostByAnchors(r: Ranking, e: Hit) returns (boost: real)
    ensures boost == AnchorsOf(r, e)
  {
    boost := 0.0;
    var titleLower := r.lower(e.title);
    var tagsLower := Lowered(e.tags, r.lower);
    for n := 0 to |r.anchors.tags|
      invariant boost == AnchorBoost(r, e.title, e.tags, n)
    {
      var anchor := r.lower(r.anchors.tags[n]);
      if anchor in tagsLower {
        boost := boost + r.anchors.boostPerTag;
      }
      if Contains(titleLower, anchor) {
        boost := boost + r.anchors.boostTitle;
      }
    }
  }

  method FuseMemoryResults(wiki: seq<Hit>, files: seq<Hit>, coverage: Coverage, r: Ranking)
    returns (ranked: seq<Hit>)
    ensures ranked == Fused(wiki + files, coverage, r)
  {
    var entries := Collect(wiki, files);
    var boosted: seq<Hit> := [];
    for i := 0 to |entries|
      invariant |boosted| == i
      invariant forall k | 0 <= k < i :: boosted[k] == Boosted(r, coverage, entries[k])
    {
      var e := entries[i];
      var score := e.score;
      if e.doc.Wiki? && e.doc in coverage && coverage[e.doc] > 0.0 {
        score := score + r.keywordBoost * coverage[e.doc];
      }
      var anchors := BoostByAnchors(r, e);
      boosted := boosted + [e.(score := score + anchors)];
    }
    assert boosted == AllBoosted(r, coverage, entries);
    return Top(SortedByScore(AboveFloor(boosted, r.minScore)), r.topK);
  }
}
