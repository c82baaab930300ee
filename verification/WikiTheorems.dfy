/** An incremental pass leaves what indexing from scratch would, from every store a run can reach. */
module WikiTheorems {
  import opened Options
  import opened WikiStore
  import opened WikiIndexer

  // ---------------------------------------------------------------- the world around the index

  datatype Version = Version(title: string, tags: seq<string>, pitch: Option<string>, body: string)

  /** A page is determined by its key and time of update, and an embedding model by its fingerprint. */
  datatype World = World(
    version: (Key, string) -> Version, embedder: string -> Embedder,
    digest: string -> string, chunk: string -> seq<string>)

  function ToolsOf(w: World, fingerprint: string): Tools {
    Tools(fingerprint, w.embedder(fingerprint), w.digest, w.chunk)
  }

  /** The page as collected, and the body served for it, are the version of that time of update. */
  ghost predicate Matches(w: World, e: Entry, f: Effects) {
    var v := w.version(e.key, e.updatedAt);
    && e.title == v.title && e.tags == v.tags && e.pitch == v.pitch
    && (e.content.Some? ==> e.content.value == v.body)
    && (f.served.Some? ==> f.served.value == v.body)
  }

  ghost predicate Injective(f: string -> string) {
    forall a: string, b: string | f(a) == f(b) :: a == b
  }

  ghost predicate NulFree(s: string) {
    forall i | 0 <= i < |s| :: s[i] != '\0'
  }

  function FirstNul(s: string): nat {
    if s == "" || s[0] == '\0' then 0 else 1 + FirstNul(s[1..])
  }

  lemma {:induction false} FirstNulAfter(a: string, b: string)
    requires NulFree(a)
    ensures FirstNul(a + "\0" + b) == |a|
  {
    if a != "" {
      assert (a + "\0" + b)[1..] == a[1..] + "\0" + b;
      FirstNulAfter(a[1..], b);
    }
  }

  lemma NulSeparates(a: string, b: string, c: string, d: string)
    requires NulFree(a) && NulFree(c) && a + "\0" + b == c + "\0" + d
    ensures a == c && b == d
  {
    var s := a + "\0" + b;
    FirstNulAfter(a, b);
    FirstNulAfter(c, d);
    assert a == s[..|a|] && c == s[..|c|];
    assert b == s[|a| + 1..] && d == s[|c| + 1..];
  }

  /** Keys differ exactly when the strings they are looked up by differ. */
  lemma SourceKeyIsInjective(k: Key, k': Key)
    requires SourceKey(k) == SourceKey(k')
    ensures k == k'
  {
    var s := SourceKey(k);
    assert s[|s| - 1] == if k.origin == Beacon then 'n' else 'r';
    assert s[|s| - 1] == if k'.origin == Beacon then 'n' else 'r';
    var n := |s| - 1 - |OriginText(k.origin)|;
    assert k.id == s[..n] && k'.id == s[..n];
  }

  /** Equal hashes of one page mean the same fingerprint and the same time of update. */
  lemma HashIdentifiesVersion(digest: string -> string, f: string, f': string, k: Key, u: string, u': string)
    requires Injective(digest) && NulFree(f) && NulFree(f')
    requires PageHash(digest, f, k, u) == PageHash(digest, f', k, u')
    ensures f == f' && u == u'
  {
    NulSeparates(f, SourceKey(k) + "\0" + u, f', SourceKey(k) + "\0" + u');
    var prefix := SourceKey(k) + "\0";
    assert u == (prefix + u)[|prefix|..] && u' == (prefix + u')[|prefix|..];
  }

  // ---------------------------------------------------------------- indexing from scratch

  /** The rows a page gets when it is indexed into empty tables. */
  function Fresh(w: World, fingerprint: string, k: Key, updatedAt: string): PageRows {
    var v := w.version(k, updatedAt);
    var texts := w.chunk(v.body);
    if texts == [] then NO_ROWS
    else
      WithKeywords(
        PageRows(Some(SourceRow(v.title, updatedAt, PageHash(w.digest, fingerprint, k, updatedAt))),
          ChunkRows(texts, v.title, w.embedder(fingerprint)), [], []),
        VersionKeywords(w, k, updatedAt))
  }

  function VersionKeywords(w: World, k: Key, updatedAt: string): KeywordRow {
    var v := w.version(k, updatedAt);
    KeywordRowFor(v.title, v.tags, v.pitch, w.chunk(v.body))
  }

  /** The page's keyword and trigram rows are those of this row, and there are no others. */
  predicate HasKeywords(rows: PageRows, row: KeywordRow) {
    rows == WithKeywords(rows, row)
  }

  lemma IndexChangesReplace(t: Tools, rows: PageRows, e: Entry, texts: seq<string>)
    ensures ChangedAll(rows, IndexChanges(t, e, texts))
         == WithKeywords(
              PageRows(Some(SourceRow(e.title, e.updatedAt, PageHash(t.digest, t.fingerprint, e.key, e.updatedAt))),
                ChunkRows(texts, e.title, t.embed), [], []),
              KeywordRowOf(e, texts))
  {
    var c := IndexChanges(t, e, texts)[0];
    ChangedFirst(rows, c, KeywordReplacement(KeywordRowOf(e, texts)));
    KeywordReplacementReplaces(Changed(rows, c), KeywordRowOf(e, texts));
  }

  /** A page that is indexed or emptied gets the rows of indexing from scratch. */
  lemma IndexedPageIsFresh(w: World, fingerprint: string, rows: PageRows, stored: Option<Stored>, e: Entry, f: Effects)
    requires Matches(w, e, f)
    requires var o := PageStep(ToolsOf(w, fingerprint), stored, rows, e, f).outcome; o.Emptied? || o.Indexed?
    ensures ChangedAll(rows, PageStep(ToolsOf(w, fingerprint), stored, rows, e, f).changes)
         == Fresh(w, fingerprint, e.key, e.updatedAt)
  {
    var texts := w.chunk(w.version(e.key, e.updatedAt).body);
    if texts == [] {
      RemovalClears(rows);
    } else {
      IndexChangesReplace(ToolsOf(w, fingerprint), rows, e, texts);
    }
  }

  // ---------------------------------------------------------------- what every store satisfies

  ghost predicate IndexedWith(w: World, k: Key, rows: PageRows, fingerprint: string) {
    && NulFree(fingerprint)
    && rows.source.Some?
    && SameIndex(rows, Fresh(w, fingerprint, k, rows.source.value.updatedAt))
  }

  /** The same source row and the same chunks. */
  predicate SameIndex(rows: PageRows, rows': PageRows) {
    rows.source == rows'.source && rows.chunks == rows'.chunks
  }

  /** No rows without a source row, and chunks only as some completed write left them. */
  ghost predicate Sound(w: World, k: Key, rows: PageRows) {
    && (rows.source.None? ==> rows == NO_ROWS)
    && (rows.chunks != [] ==> exists fingerprint: string :: IndexedWith(w, k, rows, fingerprint))
  }

  /** Rows that look current hold the source row and the chunks of the collected version. */
  lemma CurrentRowsAreFresh(w: World, fingerprint: string, rows: PageRows, e: Entry)
    requires Injective(w.digest) && NulFree(fingerprint) && Sound(w, e.key, rows)
    requires IsCurrent(ToolsOf(w, fingerprint), StoredOf(rows), e)
    ensures SameIndex(rows, Fresh(w, fingerprint, e.key, e.updatedAt))
  {
    var f :| IndexedWith(w, e.key, rows, f);
    HashIdentifiesVersion(w.digest, f, fingerprint, e.key, rows.source.value.updatedAt, e.updatedAt);
  }

  /** The step of one page, given its rows. */
  function StepOn(w: World, fingerprint: string, rows: PageRows, e: Entry, f: Effects): Step {
    PageStep(ToolsOf(w, fingerprint), StoredOf(rows), rows, e, f)
  }

  lemma RepairedPageIsFresh(w: World, fingerprint: string, rows: PageRows, e: Entry, f: Effects)
    requires Injective(w.digest) && NulFree(fingerprint) && Sound(w, e.key, rows) && Matches(w, e, f)
    requires StepOn(w, fingerprint, rows, e, f).outcome == Skipped(true)
    ensures ChangedAll(rows, StepOn(w, fingerprint, rows, e, f).changes) == Fresh(w, fingerprint, e.key, e.updatedAt)
  {
    CurrentRowsAreFresh(w, fingerprint, rows, e);
    var texts := w.chunk(w.version(e.key, e.updatedAt).body);
    TextsOfChunkRows(texts, e.title, w.embedder(fingerprint));
    KeywordReplacementReplaces(rows, KeywordRowOf(e, texts));
  }

  /**
   * A page that does not fail ends with the source row and chunks of a rebuild and with keyword
   * rows; all its rows are those of a rebuild unless it was skipped over other keyword rows.
   */
  lemma PageEndsFresh(w: World, fingerprint: string, rows: PageRows, e: Entry, f: Effects)
    requires Injective(w.digest) && NulFree(fingerprint) && Sound(w, e.key, rows) && Matches(w, e, f)
    requires !StepOn(w, fingerprint, rows, e, f).outcome.Failed?
    ensures var step := StepOn(w, fingerprint, rows, e, f);
      var after, anew := ChangedAll(rows, step.changes), Fresh(w, fingerprint, e.key, e.updatedAt);
      && SameIndex(after, anew)
      && (anew.chunks != [] ==> after.keywords != [])
      && (after == anew <==>
           step.outcome != Skipped(false) || HasKeywords(rows, VersionKeywords(w, e.key, e.updatedAt)))
  {
    var step := StepOn(w, fingerprint, rows, e, f);
    match step.outcome
    case Skipped(repaired) =>
      CurrentRowsAreFresh(w, fingerprint, rows, e);
      if repaired {
        RepairedPageIsFresh(w, fingerprint, rows, e, f);
      }
    case _ =>
      IndexedPageIsFresh(w, fingerprint, rows, StoredOf(rows), e, f);
  }

  // ---------------------------------------------------------------- stopping at any statement

  /** A statement after which the rows are sound if they were before. */
  ghost predicate Harmless(w: World, k: Key, rows: PageRows, c: Change) {
    match c
    case DeleteSource => rows.chunks == [] && rows.keywords == [] && rows.trigrams == []
    case ReplacePage(row, chunks) => IndexedWithSome(w, k, PageRows(Some(row), chunks, [], []))
    case InsertKeywords(_) => rows.source.Some?
    case InsertTrigrams(_) => rows.source.Some?
    case _ => true
  }

  ghost predicate IndexedWithSome(w: World, k: Key, rows: PageRows) {
    exists fingerprint: string :: IndexedWith(w, k, rows, fingerprint)
  }

  lemma HarmlessKeepsSound(w: World, k: Key, rows: PageRows, c: Change)
    requires Sound(w, k, rows) && Harmless(w, k, rows, c)
    ensures Sound(w, k, Changed(rows, c))
  {
    var after := Changed(rows, c);
    if after.chunks != [] {
      if c.ReplacePage? {
        var f :| IndexedWith(w, k, PageRows(Some(c.row), c.chunks, [], []), f);
        assert IndexedWith(w, k, after, f);
      } else {
        var f :| IndexedWith(w, k, rows, f);
        assert IndexedWith(w, k, after, f);
      }
    }
  }

  ghost predicate AllHarmless(w: World, k: Key, rows: PageRows, changes: seq<Change>)
    decreases |changes|
  {
    changes == [] ||
    (Harmless(w, k, rows, changes[0]) && AllHarmless(w, k, Changed(rows, changes[0]), changes[1..]))
  }

  lemma HarmlessFirst(w: World, k: Key, rows: PageRows, c: Change, rest: seq<Change>)
    requires Harmless(w, k, rows, c) && AllHarmless(w, k, Changed(rows, c), rest)
    ensures AllHarmless(w, k, rows, [c] + rest)
  {
    assert ([c] + rest)[1..] == rest;
  }

  lemma HarmlessFour(w: World, k: Key, rows: PageRows, a: Change, b: Change, c: Change, d: Change)
    requires Harmless(w, k, rows, a) && Harmless(w, k, Changed(rows, a), b)
    requires Harmless(w, k, Changed(Changed(rows, a), b), c)
    requires Harmless(w, k, Changed(Changed(Changed(rows, a), b), c), d)
    ensures AllHarmless(w, k, rows, [a, b, c, d])
  {
    var ra := Changed(rows, a);
    var rb := Changed(ra, b);
    HarmlessFirst(w, k, Changed(rb, c), d, []);
    HarmlessFirst(w, k, rb, c, [d]);
    HarmlessFirst(w, k, ra, b, [c] + [d]);
    HarmlessFirst(w, k, rows, a, [b] + ([c] + [d]));
    assert [a, b, c, d] == [a] + ([b] + ([c] + [d]));
  }

  lemma {:induction false} StoppedIsSound(w: World, k: Key, rows: PageRows, changes: seq<Change>, n: nat)
    requires Sound(w, k, rows) && AllHarmless(w, k, rows, changes) && n <= |changes|
    ensures Sound(w, k, ChangedAll(rows, changes[..n]))
    decreases n
  {
    if n > 0 {
      HarmlessKeepsSound(w, k, rows, changes[0]);
      StoppedIsSound(w, k, Changed(rows, changes[0]), changes[1..], n - 1);
      assert changes[..n][1..] == changes[1..][..n - 1];
    }
  }

  lemma RemovalIsHarmless(w: World, k: Key, rows: PageRows)
    ensures AllHarmless(w, k, rows, Removal())
  {
    HarmlessFour(w, k, rows, DeleteChunks, DeleteKeywords, DeleteTrigrams, DeleteSource);
  }

  lemma KeywordReplacementIsHarmless(w: World, k: Key, rows: PageRows, row: KeywordRow)
    requires rows.source.Some?
    ensures AllHarmless(w, k, rows, KeywordReplacement(row))
  {
    HarmlessFour(w, k, rows, DeleteKeywords, DeleteTrigrams, InsertKeywords(row),
      InsertTrigrams(TrigramRow(row.title, row.tags, row.body)));
  }

  lemma StepIsHarmless(
      w: World, fingerprint: string, stored: Option<Stored>, rows: PageRows, e: Entry, f: Effects)
    requires NulFree(fingerprint) && Matches(w, e, f) && (stored.Some? ==> rows.source.Some?)
    ensures AllHarmless(w, e.key, rows, PageStep(ToolsOf(w, fingerprint), stored, rows, e, f).changes)
  {
    var t := ToolsOf(w, fingerprint);
    match PageStep(t, stored, rows, e, f).outcome
    case Skipped(repaired) =>
      if repaired {
        KeywordReplacementIsHarmless(w, e.key, rows, KeywordRowOf(e, Texts(rows.chunks)));
      }
    case Emptied => RemovalIsHarmless(w, e.key, rows);
    case Indexed(_) =>
      var texts := w.chunk(w.version(e.key, e.updatedAt).body);
      var c := IndexChanges(t, e, texts)[0];
      assert IndexedWith(w, e.key, PageRows(Some(c.row), c.chunks, [], []), fingerprint);
      KeywordReplacementIsHarmless(w, e.key, Changed(rows, c), KeywordRowOf(e, texts));
      HarmlessFirst(w, e.key, rows, c, KeywordReplacement(KeywordRowOf(e, texts)));
    case Failed =>
  }

  /** A history of the store: each entry applied some first part of the statements of one operation. */
  datatype History = Created | Worked(before: History, key: Key, changes: seq<Change>)

  function StoreAfter(h: History): Store {
    match h
    case Created => map[]
    case Worked(before, key, changes) => Updated(StoreAfter(before), key, changes)
  }

  /** The statements are the first `n` of a removal or of a page's step, for any fingerprint. */
  ghost predicate StoppedOperation(w: World, s: Store, key: Key, changes: seq<Change>) {
    || (exists n: nat | n <= |Removal()| :: changes == Removal()[..n])
    || (exists fingerprint: string, e: Entry, f: Effects, n: nat ::
          StoppedStep(w, fingerprint, s, e, f, n, key, changes))
  }

  ghost predicate StoppedStep(
      w: World, fingerprint: string, s: Store, e: Entry, f: Effects, n: nat, key: Key, changes: seq<Change>)
  {
    var step := StepOn(w, fingerprint, At(s, e.key), e, f);
    && NulFree(fingerprint) && Matches(w, e, f) && e.key == key
    && n <= |step.changes| && changes == step.changes[..n]
  }

  ghost predicate Possible(w: World, h: History) {
    h.Worked? ==> Possible(w, h.before) && StoppedOperation(w, StoreAfter(h.before), h.key, h.changes)
  }

  /** Whatever was indexed, removed or stopped half-way before, the rows of every page are sound. */
  lemma {:induction false} ReachableStoresAreSound(w: World, h: History, k: Key)
    requires Possible(w, h)
    ensures Sound(w, k, At(StoreAfter(h), k))
    decreases h
  {
    if h.Worked? {
      var s := StoreAfter(h.before);
      ReachableStoresAreSound(w, h.before, k);
      if k == h.key {
        OperationKeepsSound(w, s, k, h.changes);
      }
    }
  }

  lemma OperationKeepsSound(w: World, s: Store, k: Key, changes: seq<Change>)
    requires StoppedOperation(w, s, k, changes) && Sound(w, k, At(s, k))
    ensures Sound(w, k, ChangedAll(At(s, k), changes))
  {
    if n: nat :| n <= |Removal()| && changes == Removal()[..n] {
      RemovalIsHarmless(w, k, At(s, k));
      StoppedIsSound(w, k, At(s, k), Removal(), n);
    } else {
      var fingerprint: string, e: Entry, f: Effects, n: nat :|
        StoppedStep(w, fingerprint, s, e, f, n, k, changes);
      StepIsHarmless(w, fingerprint, StoredOf(At(s, k)), At(s, k), e, f);
      StoppedIsSound(w, k, At(s, k), StepOn(w, fingerprint, At(s, k), e, f).changes, n);
    }
  }

  // ---------------------------------------------------------------- a whole pass

  ghost predicate DistinctPages(entries: seq<Entry>) {
    forall i, j | 0 <= i < j < |entries| :: entries[i].key != entries[j].key
  }

  lemma {:induction false} VisitedLeavesOthers(
      t: Tools, snapshot: Store, start: Report, entries: seq<Entry>, effects: seq<Effects>, n: nat, k: Key)
    requires n <= |entries| == |effects| && forall i | 0 <= i < n :: entries[i].key != k
    ensures At(Visited(t, snapshot, start, entries, effects, n).store, k) == At(snapshot, k)
    decreases n
  {
    if n > 0 {
      VisitedLeavesOthers(t, snapshot, start, entries, effects, n - 1, k);
    }
  }

  /** Visiting each page once, the snapshot says of every page what a live lookup would. */
  lemma {:induction false} VisitedPage(
      t: Tools, snapshot: Store, start: Report, entries: seq<Entry>, effects: seq<Effects>, n: nat, j: nat)
    requires j < n <= |entries| == |effects| && DistinctPages(entries)
    ensures var e := entries[j];
      var rows := At(snapshot, e.key);
      At(Visited(t, snapshot, start, entries, effects, n).store, e.key)
      == ChangedAll(rows, PageStep(t, StoredOf(rows), rows, e, effects[j]).changes)
    decreases n
  {
    if j < n - 1 {
      VisitedPage(t, snapshot, start, entries, effects, n - 1, j);
    } else {
      VisitedLeavesOthers(t, snapshot, start, entries, effects, j, entries[j].key);
    }
  }

  ghost predicate SoundStore(w: World, s: Store) {
    forall k: Key :: Sound(w, k, At(s, k))
  }

  ghost predicate Collects(w: World, entries: seq<Entry>, effects: seq<Effects>) {
    && |entries| == |effects|
    && DistinctPages(entries)
    && forall i | 0 <= i < |entries| :: Matches(w, entries[i], effects[i])
  }

  ghost function PassStore(
      w: World, fingerprint: string, s: Store, entries: seq<Entry>, origins: set<Origin>, effects: seq<Effects>): Store
    requires |entries| == |effects|
  {
    Pass(ToolsOf(w, fingerprint), s, entries, origins, effects).store
  }

  /** A collected page starts its step from the rows it had before the pass. */
  lemma PassPage(
      w: World, fingerprint: string, s: Store, entries: seq<Entry>, origins: set<Origin>, effects: seq<Effects>, j: nat)
    requires Collects(w, entries, effects) && j < |entries|
    ensures var e := entries[j];
      At(PassStore(w, fingerprint, s, entries, origins, effects), e.key)
      == ChangedAll(At(s, e.key), StepOn(w, fingerprint, At(s, e.key), e, effects[j]).changes)
  {
    var e := entries[j];
    var gone := Gone(s, ActiveKeys(entries, origins), origins);
    assert e.key !in gone by {
      assert e in entries;
    }
    assert At(Reconciled(s, gone), e.key) == At(s, e.key);
    VisitedPage(ToolsOf(w, fingerprint), Reconciled(s, gone), NOTHING_DONE.(removed := |gone|),
      entries, effects, |entries|, j);
  }

  /** A page that was not collected is removed when its origin is in scope and untouched otherwise. */
  lemma PassLeavesOthers(
      w: World, fingerprint: string, s: Store, entries: seq<Entry>, origins: set<Origin>, effects: seq<Effects>, k: Key)
    requires |entries| == |effects| && Sound(w, k, At(s, k))
    requires forall i | 0 <= i < |entries| :: entries[i].key != k
    ensures At(PassStore(w, fingerprint, s, entries, origins, effects), k)
         == if k.origin in origins then NO_ROWS else At(s, k)
  {
    var gone := Gone(s, ActiveKeys(entries, origins), origins);
    RemovalClears(At(s, k));
    assert k in gone <==> At(s, k).source.Some? && k.origin in origins;
    VisitedLeavesOthers(ToolsOf(w, fingerprint), Reconciled(s, gone), NOTHING_DONE.(removed := |gone|),
      entries, effects, |entries|, k);
  }

  /** The step of the `j`-th page fails: its body cannot be read or its chunks not embedded. */
  ghost predicate Fails(w: World, fingerprint: string, s: Store, e: Entry, f: Effects) {
    StepOn(w, fingerprint, At(s, e.key), e, f).outcome.Failed?
  }

  /** What a rebuild leaves: the collected pages indexed from scratch, and nothing else. */
  ghost predicate IsRebuild(w: World, fingerprint: string, entries: seq<Entry>, s: Store) {
    && (forall j | 0 <= j < |entries| ::
          At(s, entries[j].key) == Fresh(w, fingerprint, entries[j].key, entries[j].updatedAt))
    && (forall k: Key | (forall j | 0 <= j < |entries| :: entries[j].key != k) :: At(s, k) == NO_ROWS)
  }

  /** Indexing into empty tables with nothing failing is a rebuild. */
  lemma PassFromNothingRebuilds(
      w: World, fingerprint: string, entries: seq<Entry>, origins: set<Origin>, effects: seq<Effects>)
    requires Collects(w, entries, effects)
    requires forall j | 0 <= j < |entries| :: effects[j].served.Some? && effects[j].embeds
    ensures IsRebuild(w, fingerprint, entries, PassStore(w, fingerprint, map[], entries, origins, effects))
  {
    forall j | 0 <= j < |entries|
      ensures At(PassStore(w, fingerprint, map[], entries, origins, effects), entries[j].key)
           == Fresh(w, fingerprint, entries[j].key, entries[j].updatedAt)
    {
      PassPage(w, fingerprint, map[], entries, origins, effects, j);
      IndexedPageIsFresh(w, fingerprint, NO_ROWS, None, entries[j], effects[j]);
    }
    forall k: Key | (forall j | 0 <= j < |entries| :: entries[j].key != k)
      ensures At(PassStore(w, fingerprint, map[], entries, origins, effects), k) == NO_ROWS
    {
      PassLeavesOthers(w, fingerprint, map[], entries, origins, effects, k);
    }
  }

  /**
   * The index after a pass, page by page: a failed page keeps its rows, any other collected page has
   * the source row and chunks of a rebuild and, if it has chunks, keyword rows; its keyword rows are
   * the rebuild's exactly when it was not skipped over other ones.
   */
  lemma CollectedPagesAreRebuilt(
      w: World, fingerprint: string, s: Store, entries: seq<Entry>, origins: set<Origin>, effects: seq<Effects>, j: nat)
    requires Injective(w.digest) && NulFree(fingerprint) && SoundStore(w, s)
    requires Collects(w, entries, effects) && j < |entries|
    ensures var e := entries[j];
      var before, after := At(s, e.key), At(PassStore(w, fingerprint, s, entries, origins, effects), e.key);
      var anew := Fresh(w, fingerprint, e.key, e.updatedAt);
      if Fails(w, fingerprint, s, e, effects[j]) then after == before
      else
        && SameIndex(after, anew)
        && (anew.chunks != [] ==> after.keywords != [])
        && (after == anew <==>
             || StepOn(w, fingerprint, before, e, effects[j]).outcome != Skipped(false)
             || HasKeywords(before, VersionKeywords(w, e.key, e.updatedAt)))
  {
    PassPage(w, fingerprint, s, entries, origins, effects, j);
    var e := entries[j];
    if !Fails(w, fingerprint, s, e, effects[j]) {
      PageEndsFresh(w, fingerprint, At(s, e.key), e, effects[j]);
    }
  }

  // ---------------------------------------------------------------- keyword rows

  /** Keyword rows, where there are any, are those of the version the source row names. */
  ghost predicate KeywordsCurrent(w: World, k: Key, rows: PageRows) {
    rows.source.Some? && rows.chunks != [] && rows.keywords != [] ==>
      HasKeywords(rows, VersionKeywords(w, k, rows.source.value.updatedAt))
  }

  ghost predicate KeywordsCurrentIn(w: World, s: Store) {
    forall k: Key :: KeywordsCurrent(w, k, At(s, k))
  }

  /** With current keyword rows before, a page that does not fail ends with exactly the rows of a rebuild. */
  lemma CurrentPageEndsFresh(w: World, fingerprint: string, rows: PageRows, e: Entry, f: Effects)
    requires Injective(w.digest) && NulFree(fingerprint) && Sound(w, e.key, rows) && Matches(w, e, f)
    requires KeywordsCurrent(w, e.key, rows)
    requires !StepOn(w, fingerprint, rows, e, f).outcome.Failed?
    ensures ChangedAll(rows, StepOn(w, fingerprint, rows, e, f).changes)
         == Fresh(w, fingerprint, e.key, e.updatedAt)
  {
    PageEndsFresh(w, fingerprint, rows, e, f);
    if StepOn(w, fingerprint, rows, e, f).outcome == Skipped(false) {
      CurrentRowsAreFresh(w, fingerprint, rows, e);
    }
  }

  /**
   * An incremental pass equals a rebuild: from every sound store whose keyword rows are current, a
   * pass over both origins in which no page fails leaves exactly the rebuilt index.
   */
  lemma IncrementalEqualsRebuild(
      w: World, fingerprint: string, s: Store, entries: seq<Entry>, effects: seq<Effects>)
    requires Injective(w.digest) && NulFree(fingerprint) && SoundStore(w, s) && KeywordsCurrentIn(w, s)
    requires Collects(w, entries, effects)
    requires forall j | 0 <= j < |entries| :: !Fails(w, fingerprint, s, entries[j], effects[j])
    ensures IsRebuild(w, fingerprint, entries, PassStore(w, fingerprint, s, entries, {Beacon, Coordinator}, effects))
  {
    var origins := {Beacon, Coordinator};
    forall j | 0 <= j < |entries|
      ensures At(PassStore(w, fingerprint, s, entries, origins, effects), entries[j].key)
           == Fresh(w, fingerprint, entries[j].key, entries[j].updatedAt)
    {
      PassPage(w, fingerprint, s, entries, origins, effects, j);
      CurrentPageEndsFresh(w, fingerprint, At(s, entries[j].key), entries[j], effects[j]);
    }
    forall k: Key | (forall j | 0 <= j < |entries| :: entries[j].key != k)
      ensures At(PassStore(w, fingerprint, s, entries, origins, effects), k) == NO_ROWS
    {
      PassLeavesOthers(w, fingerprint, s, entries, origins, effects, k);
      assert k.origin == Beacon || k.origin == Coordinator;
    }
  }

  /** A completed pass keeps keyword rows current, whatever fails in it. */
  lemma PassKeepsKeywordsCurrent(
      w: World, fingerprint: string, s: Store, entries: seq<Entry>, origins: set<Origin>, effects: seq<Effects>, k: Key)
    requires Injective(w.digest) && NulFree(fingerprint) && SoundStore(w, s) && KeywordsCurrentIn(w, s)
    requires Collects(w, entries, effects)
    ensures KeywordsCurrent(w, k, At(PassStore(w, fingerprint, s, entries, origins, effects), k))
  {
    if j: nat :| j < |entries| && entries[j].key == k {
      PassPage(w, fingerprint, s, entries, origins, effects, j);
      if !Fails(w, fingerprint, s, entries[j], effects[j]) {
        CurrentPageEndsFresh(w, fingerprint, At(s, k), entries[j], effects[j]);
      }
    } else {
      PassLeavesOthers(w, fingerprint, s, entries, origins, effects, k);
    }
  }

  /** The rows after the first `m` statements of a keyword replacement. */
  function StoppedKeywords(rows: PageRows, row: KeywordRow, m: nat): PageRows {
    if m == 0 then rows
    else if m == 1 then rows.(keywords := [])
    else if m == 2 then rows.(keywords := [], trigrams := [])
    else if m == 3 then rows.(keywords := [row], trigrams := [])
    else WithKeywords(rows, row)
  }

  lemma KeywordReplacementStops(rows: PageRows, row: KeywordRow, m: nat)
    requires m <= |KeywordReplacement(row)|
    ensures ChangedAll(rows, KeywordReplacement(row)[..m]) == StoppedKeywords(rows, row, m)
  {
    var cs := KeywordReplacement(row);
    var r1 := Changed(rows, cs[0]);
    var r2 := Changed(r1, cs[1]);
    if m == 4 {
      KeywordReplacementReplaces(rows, row);
      assert cs[..4] == cs;
    } else if m > 0 {
      ChangedFirst(rows, cs[0], cs[1..m]);
      assert cs[..m] == [cs[0]] + cs[1..m];
      if m > 1 {
        ChangedFirst(r1, cs[1], cs[2..m]);
        assert cs[1..m] == [cs[1]] + cs[2..m];
        if m > 2 {
          ChangedFirst(r2, cs[2], []);
          assert cs[2..m] == [cs[2]] + [];
        }
      }
    }
  }

  /** A step stopped here leaves keyword rows that no later pass over the same version corrects. */
  predicate StopsOnStaleKeywords(w: World, rows: PageRows, e: Entry, step: Step, n: nat) {
    match step.outcome
    case Indexed(_) =>
      || n == 4
      || (n == 1 && rows.keywords != [] && !HasKeywords(rows, VersionKeywords(w, e.key, e.updatedAt)))
    case Skipped(repaired) => repaired && n == 3
    case _ => false
  }

  /** The rows after a page transaction and the first `n - 1` statements of a keyword replacement. */
  lemma ReplacementStops(rows: PageRows, page: SourceRow, chunks: seq<ChunkRow>, row: KeywordRow, n: nat)
    requires 1 <= n <= 5
    ensures var changes := [ReplacePage(page, chunks)] + KeywordReplacement(row);
      && |changes| == 5
      && ChangedAll(rows, changes[..n])
         == StoppedKeywords(rows.(source := Some(page), chunks := chunks), row, n - 1)
  {
    var c := ReplacePage(page, chunks);
    ChangedFirst(rows, c, KeywordReplacement(row)[..n - 1]);
    assert ([c] + KeywordReplacement(row))[..n] == [c] + KeywordReplacement(row)[..n - 1];
    KeywordReplacementStops(Changed(rows, c), row, n - 1);
  }

  /** The statements of an indexing are those of the rebuild's rows. */
  lemma IndexStatements(w: World, fingerprint: string, rows: PageRows, e: Entry, f: Effects)
    requires Matches(w, e, f) && StepOn(w, fingerprint, rows, e, f).outcome.Indexed?
    ensures var anew := Fresh(w, fingerprint, e.key, e.updatedAt);
      && anew.source.Some? && anew.chunks != []
      && StepOn(w, fingerprint, rows, e, f).changes
         == [ReplacePage(anew.source.value, anew.chunks)]
            + KeywordReplacement(VersionKeywords(w, e.key, e.updatedAt))
  {
  }

  lemma IndexStops(w: World, fingerprint: string, rows: PageRows, e: Entry, f: Effects, n: nat)
    requires Matches(w, e, f) && StepOn(w, fingerprint, rows, e, f).outcome.Indexed? && 1 <= n <= 5
    ensures var anew := Fresh(w, fingerprint, e.key, e.updatedAt);
      |StepOn(w, fingerprint, rows, e, f).changes| == 5
      && anew.chunks != []
      && ChangedAll(rows, StepOn(w, fingerprint, rows, e, f).changes[..n])
         == StoppedKeywords(rows.(source := anew.source, chunks := anew.chunks),
              VersionKeywords(w, e.key, e.updatedAt), n - 1)
  {
    var anew := Fresh(w, fingerprint, e.key, e.updatedAt);
    IndexStatements(w, fingerprint, rows, e, f);
    ReplacementStops(rows, anew.source.value, anew.chunks, VersionKeywords(w, e.key, e.updatedAt), n);
  }

  lemma RepairStops(w: World, fingerprint: string, rows: PageRows, e: Entry, f: Effects, n: nat)
    requires Injective(w.digest) && NulFree(fingerprint) && Sound(w, e.key, rows) && Matches(w, e, f)
    requires StepOn(w, fingerprint, rows, e, f).outcome == Skipped(true)
    requires n <= |StepOn(w, fingerprint, rows, e, f).changes|
    ensures |StepOn(w, fingerprint, rows, e, f).changes| == 4
    ensures rows.source.value.updatedAt == e.updatedAt
    ensures ChangedAll(rows, StepOn(w, fingerprint, rows, e, f).changes[..n])
         == StoppedKeywords(rows, VersionKeywords(w, e.key, e.updatedAt), n)
  {
    CurrentRowsAreFresh(w, fingerprint, rows, e);
    TextsOfChunkRows(w.chunk(w.version(e.key, e.updatedAt).body), e.title, w.embedder(fingerprint));
    KeywordReplacementStops(rows, VersionKeywords(w, e.key, e.updatedAt), n);
  }

  lemma RemovalStops(rows: PageRows, n: nat)
    requires 1 <= n <= |Removal()|
    ensures ChangedAll(rows, Removal()[..n]).chunks == []
  {
    var cs := Removal();
    ChangedFirst(rows, cs[0], cs[1..n]);
    assert cs[..n] == [cs[0]] + cs[1..n];
    NoChunksStay(Changed(rows, cs[0]), cs[1..n]);
  }

  lemma {:induction false} NoChunksStay(rows: PageRows, changes: seq<Change>)
    requires rows.chunks == [] && forall c | c in changes :: !c.ReplacePage?
    ensures ChangedAll(rows, changes).chunks == []
    decreases |changes|
  {
    if changes != [] {
      NoChunksStay(Changed(rows, changes[0]), changes[1..]);
    }
  }

  /**
   * A stop can leave keyword rows of another version, or none in the trigram table, exactly at two
   * places: after the page transaction of a changed page, and before the last insert.
   */
  lemma StoppedStepKeepsKeywordsCurrent(
      w: World, fingerprint: string, rows: PageRows, e: Entry, f: Effects, n: nat)
    requires Injective(w.digest) && NulFree(fingerprint) && Sound(w, e.key, rows) && Matches(w, e, f)
    requires KeywordsCurrent(w, e.key, rows)
    requires n <= |StepOn(w, fingerprint, rows, e, f).changes|
    ensures var step := StepOn(w, fingerprint, rows, e, f);
      KeywordsCurrent(w, e.key, ChangedAll(rows, step.changes[..n]))
      <==> !StopsOnStaleKeywords(w, rows, e, step, n)
  {
    var step := StepOn(w, fingerprint, rows, e, f);
    if n == 0 {
      assert step.changes[..0] == [];
    } else {
      match step.outcome
      case Skipped(_) => RepairStops(w, fingerprint, rows, e, f, n);
      case Emptied => RemovalStops(rows, n);
      case Indexed(_) => IndexStops(w, fingerprint, rows, e, f, n);
    }
  }

  /** Rows that look current and have keyword rows are left alone, whatever version those are of. */
  lemma CurrentRowsStay(w: World, fingerprint: string, rows: PageRows, e: Entry, f: Effects)
    requires SameIndex(rows, Fresh(w, fingerprint, e.key, e.updatedAt)) && rows.chunks != [] && rows.keywords != []
    ensures StepOn(w, fingerprint, rows, e, f) == Step([], Skipped(false))
  {
  }

  /** What a pass works on. */
  datatype Work = Work(entries: seq<Entry>, origins: set<Origin>, effects: seq<Effects>)

  type PassInput = p: Work | |p.entries| == |p.effects| witness Work([], {}, [])

  /** The store after passes one after the other, with one embedding model. */
  ghost function AfterPasses(w: World, fingerprint: string, s: Store, passes: seq<PassInput>): Store
    decreases |passes|
  {
    if passes == [] then s
    else
      var before := AfterPasses(w, fingerprint, s, passes[..|passes| - 1]);
      var last := passes[|passes| - 1];
      PassStore(w, fingerprint, before, last.entries, last.origins, last.effects)
  }

  /** The pass collects the page in its version of this time, or has its origin out of scope. */
  ghost predicate KeepsVersion(w: World, p: PassInput, k: Key, updatedAt: string) {
    && Collects(w, p.entries, p.effects)
    && (forall j | 0 <= j < |p.entries| && p.entries[j].key == k :: p.entries[j].updatedAt == updatedAt)
    && ((exists j :: 0 <= j < |p.entries| && p.entries[j].key == k) || k.origin !in p.origins)
  }

  ghost predicate LooksCurrent(w: World, fingerprint: string, k: Key, updatedAt: string, rows: PageRows) {
    SameIndex(rows, Fresh(w, fingerprint, k, updatedAt)) && rows.chunks != [] && rows.keywords != []
  }

  lemma PassLeavesCurrentRows(w: World, fingerprint: string, s: Store, p: PassInput, k: Key, updatedAt: string)
    requires NulFree(fingerprint) && KeepsVersion(w, p, k, updatedAt)
    requires LooksCurrent(w, fingerprint, k, updatedAt, At(s, k))
    ensures At(PassStore(w, fingerprint, s, p.entries, p.origins, p.effects), k) == At(s, k)
  {
    if j :| 0 <= j < |p.entries| && p.entries[j].key == k {
      PassPage(w, fingerprint, s, p.entries, p.origins, p.effects, j);
      CurrentRowsStay(w, fingerprint, At(s, k), p.entries[j], p.effects[j]);
    } else {
      assert IndexedWith(w, k, At(s, k), fingerprint);
      PassLeavesOthers(w, fingerprint, s, p.entries, p.origins, p.effects, k);
    }
  }

  /** Rows that look current outlast all passes that collect this version. */
  lemma {:induction false} PassesLeaveCurrentRows(
      w: World, fingerprint: string, s: Store, passes: seq<PassInput>, k: Key, updatedAt: string)
    requires NulFree(fingerprint) && forall p | p in passes :: KeepsVersion(w, p, k, updatedAt)
    requires LooksCurrent(w, fingerprint, k, updatedAt, At(s, k))
    ensures At(AfterPasses(w, fingerprint, s, passes), k) == At(s, k)
    decreases |passes|
  {
    if passes != [] {
      var before, last := passes[..|passes| - 1], passes[|passes| - 1];
      PassesLeaveCurrentRows(w, fingerprint, s, before, k, updatedAt);
      PassLeavesCurrentRows(w, fingerprint, AfterPasses(w, fingerprint, s, before), last, k, updatedAt);
    }
  }

  /**
   * An update stopped between its page transaction and its keyword rows is never caught up on: after
   * any passes over the new version the page has its chunks with the keyword rows of the old one.
   */
  lemma StoppedUpdateStaysStale(
      w: World, fingerprint: string, s: Store, u: string, e: Entry, f: Effects, passes: seq<PassInput>)
    requires Injective(w.digest) && NulFree(fingerprint) && u != e.updatedAt
    requires Matches(w, e, f) && f.embeds && f.served.Some?
    requires At(s, e.key) == Fresh(w, fingerprint, e.key, u)
    requires At(s, e.key).chunks != [] && Fresh(w, fingerprint, e.key, e.updatedAt).chunks != []
    requires forall p | p in passes :: KeepsVersion(w, p, e.key, e.updatedAt)
    ensures var changes := StepOn(w, fingerprint, At(s, e.key), e, f).changes;
      && |changes| == 5
      && var rows := At(AfterPasses(w, fingerprint, Updated(s, e.key, changes[..1]), passes), e.key);
        && SameIndex(rows, Fresh(w, fingerprint, e.key, e.updatedAt))
        && rows.keywords == [VersionKeywords(w, e.key, u)]
  {
    var before := At(s, e.key);
    if IsCurrent(ToolsOf(w, fingerprint), StoredOf(before), e) {
      HashIdentifiesVersion(w.digest, fingerprint, fingerprint, e.key, u, e.updatedAt);
    }
    IndexStops(w, fingerprint, before, e, f, 1);
    var stopped := Updated(s, e.key, StepOn(w, fingerprint, before, e, f).changes[..1]);
    PassesLeaveCurrentRows(w, fingerprint, stopped, passes, e.key, e.updatedAt);
  }

  /** A first indexing stopped before the trigram insert: after any passes over the version there is no trigram row. */
  lemma StoppedIndexingStaysWithoutTrigrams(
      w: World, fingerprint: string, s: Store, e: Entry, f: Effects, passes: seq<PassInput>)
    requires NulFree(fingerprint) && Matches(w, e, f) && f.embeds && f.served.Some?
    requires At(s, e.key) == NO_ROWS && Fresh(w, fingerprint, e.key, e.updatedAt).chunks != []
    requires forall p | p in passes :: KeepsVersion(w, p, e.key, e.updatedAt)
    ensures var changes := StepOn(w, fingerprint, At(s, e.key), e, f).changes;
      && |changes| == 5
      && var rows := At(AfterPasses(w, fingerprint, Updated(s, e.key, changes[..4]), passes), e.key);
        && SameIndex(rows, Fresh(w, fingerprint, e.key, e.updatedAt))
        && rows.keywords != [] && rows.trigrams == []
  {
    IndexStops(w, fingerprint, NO_ROWS, e, f, 4);
    var stopped := Updated(s, e.key, StepOn(w, fingerprint, NO_ROWS, e, f).changes[..4]);
    PassesLeaveCurrentRows(w, fingerprint, stopped, passes, e.key, e.updatedAt);
  }

  /** A page that did not fail is left alone by the next pass, and skipped unless it is empty. */
  lemma SecondVisitChangesNothing(
      w: World, fingerprint: string, rows: PageRows, e: Entry, f: Effects, f': Effects)
    requires Injective(w.digest) && NulFree(fingerprint) && Sound(w, e.key, rows)
    requires Matches(w, e, f) && Matches(w, e, f')
    requires !StepOn(w, fingerprint, rows, e, f).outcome.Failed?
    ensures var after := ChangedAll(rows, StepOn(w, fingerprint, rows, e, f).changes);
      var again := StepOn(w, fingerprint, after, e, f');
      && ChangedAll(after, again.changes) == after
      && (after.chunks != [] ==> again == Step([], Skipped(false)))
  {
    PageEndsFresh(w, fingerprint, rows, e, f);
    var after := ChangedAll(rows, StepOn(w, fingerprint, rows, e, f).changes);
    if after.chunks == [] && StepOn(w, fingerprint, after, e, f').outcome.Emptied? {
      RemovalClears(after);
      RemovalClears(rows);
    }
  }

  // ---------------------------------------------------------------- passes are histories

  lemma ReachableStore(w: World, h: History)
    requires Possible(w, h)
    ensures SoundStore(w, StoreAfter(h))
  {
    forall k: Key ensures Sound(w, k, At(StoreAfter(h), k)) {
      ReachableStoresAreSound(w, h, k);
    }
  }

  lemma {:induction false} RemovalsHappen(w: World, h: History, gone: set<Key>) returns (h': History)
    requires Possible(w, h)
    ensures Possible(w, h') && SameRows(StoreAfter(h'), Reconciled(StoreAfter(h), gone))
    decreases gone
  {
    if gone == {} {
      h' := h;
    } else {
      var k :| k in gone;
      var before := RemovalsHappen(w, h, gone - {k});
      assert Removal()[..|Removal()|] == Removal();
      h' := Worked(before, k, Removal());
      forall k': Key ensures At(StoreAfter(h'), k') == At(Reconciled(StoreAfter(h), gone), k') {
        assert At(StoreAfter(before), k') == At(Reconciled(StoreAfter(h), gone - {k}), k');
        RemovalClears(At(StoreAfter(before), k));
        RemovalClears(At(StoreAfter(h), k));
      }
    }
  }

  lemma SameUpdate(s: Store, t: Store, k: Key, changes: seq<Change>)
    requires SameRows(s, t)
    ensures SameRows(Updated(s, k, changes), Updated(t, k, changes))
  {
    assert At(s, k) == At(t, k);
    forall k': Key ensures At(Updated(s, k, changes), k') == At(Updated(t, k, changes), k') {
      assert At(s, k') == At(t, k');
    }
  }

  /** A whole step of a page is an operation. */
  lemma StepHappens(w: World, fingerprint: string, h: History, e: Entry, f: Effects) returns (h': History)
    requires Possible(w, h) && NulFree(fingerprint) && Matches(w, e, f)
    ensures Possible(w, h')
    ensures StoreAfter(h')
         == Updated(StoreAfter(h), e.key, StepOn(w, fingerprint, At(StoreAfter(h), e.key), e, f).changes)
  {
    var s := StoreAfter(h);
    var step := StepOn(w, fingerprint, At(s, e.key), e, f);
    assert step.changes[..|step.changes|] == step.changes;
    assert StoppedStep(w, fingerprint, s, e, f, |step.changes|, e.key, step.changes);
    h' := Worked(h, e.key, step.changes);
  }

  /** The next page's step starts from the store as it is. */
  lemma VisitIsStep(
      w: World, fingerprint: string, snapshot: Store, start: Report, entries: seq<Entry>, effects: seq<Effects>, n: nat)
    requires |entries| == |effects| && DistinctPages(entries) && 1 <= n <= |entries|
    ensures var e, before := entries[n - 1], Visited(ToolsOf(w, fingerprint), snapshot, start, entries, effects, n - 1);
      Visited(ToolsOf(w, fingerprint), snapshot, start, entries, effects, n).store
      == Updated(before.store, e.key, StepOn(w, fingerprint, At(before.store, e.key), e, effects[n - 1]).changes)
  {
    VisitedLeavesOthers(ToolsOf(w, fingerprint), snapshot, start, entries, effects, n - 1, entries[n - 1].key);
  }

  lemma VisitHappens(w: World, fingerprint: string, h: History, visited: Store, e: Entry, f: Effects)
    returns (h': History)
    requires Possible(w, h) && SameRows(StoreAfter(h), visited) && NulFree(fingerprint) && Matches(w, e, f)
    ensures Possible(w, h')
    ensures SameRows(StoreAfter(h'),
      Updated(visited, e.key, StepOn(w, fingerprint, At(visited, e.key), e, f).changes))
  {
    assert At(StoreAfter(h), e.key) == At(visited, e.key);
    h' := StepHappens(w, fingerprint, h, e, f);
    SameUpdate(StoreAfter(h), visited, e.key, StepOn(w, fingerprint, At(visited, e.key), e, f).changes);
  }

  lemma {:induction false} VisitsHappen(
      w: World, fingerprint: string, h: History, snapshot: Store, start: Report,
      entries: seq<Entry>, effects: seq<Effects>, n: nat) returns (h': History)
    requires Possible(w, h) && SameRows(StoreAfter(h), snapshot) && NulFree(fingerprint)
    requires Collects(w, entries, effects) && n <= |entries|
    ensures Possible(w, h')
    ensures SameRows(StoreAfter(h'),
      Visited(ToolsOf(w, fingerprint), snapshot, start, entries, effects, n).store)
    decreases n
  {
    if n == 0 {
      h' := h;
    } else {
      var before := VisitsHappen(w, fingerprint, h, snapshot, start, entries, effects, n - 1);
      var visited := Visited(ToolsOf(w, fingerprint), snapshot, start, entries, effects, n - 1).store;
      VisitIsStep(w, fingerprint, snapshot, start, entries, effects, n);
      h' := VisitHappens(w, fingerprint, before, visited, entries[n - 1], effects[n - 1]);
    }
  }

  /** What a pass leaves is again a store some history reaches: every run of passes keeps all of the above. */
  lemma PassContinuesHistory(
      w: World, fingerprint: string, h: History, entries: seq<Entry>, origins: set<Origin>, effects: seq<Effects>)
      returns (h': History)
    requires Possible(w, h) && NulFree(fingerprint) && Collects(w, entries, effects)
    ensures Possible(w, h')
    ensures SameRows(StoreAfter(h'), PassStore(w, fingerprint, StoreAfter(h), entries, origins, effects))
  {
    var s := StoreAfter(h);
    var gone := Gone(s, ActiveKeys(entries, origins), origins);
    var reconciled := RemovalsHappen(w, h, gone);
    h' := VisitsHappen(w, fingerprint, reconciled, Reconciled(s, gone), NOTHING_DONE.(removed := |gone|),
      entries, effects, |entries|);
  }

  // ---------------------------------------------------------------- an unreachable coordinator

  lemma LocalInputsAreLocal(local: seq<Meta>)
    ensures forall i | 0 <= i < |Collected(local, None)| :: Collected(local, None)[i].key.origin == Beacon
  {
    assert Collected(local, None) == Inputs(local, Beacon);
  }

  /** A coordinator listing that could not be fetched removes nothing and changes nothing of the coordinator's. */
  lemma UnreachableCoordinatorKeepsItsPages(
      w: World, fingerprint: string, s: Store, local: seq<Meta>, effects: seq<Effects>, id: string)
    requires |effects| == |Collected(local, None)|
    ensures var k := Key(id, Coordinator);
      At(PassStore(w, fingerprint, s, Collected(local, None), ReconcileOrigins(None), effects), k) == At(s, k)
  {
    var k := Key(id, Coordinator);
    var entries := Collected(local, None);
    LocalInputsAreLocal(local);
    var gone := Gone(s, ActiveKeys(entries, ReconcileOrigins(None)), ReconcileOrigins(None));
    VisitedLeavesOthers(ToolsOf(w, fingerprint), Reconciled(s, gone), NOTHING_DONE.(removed := |gone|),
      entries, effects, |entries|, k);
  }
}
