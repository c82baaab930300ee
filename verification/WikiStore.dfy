/**
 * The tables behind the wiki index. A page's rows are kept in four tables (source row, chunks with
 * their vectors, keyword rows, trigram rows); every statement changes the rows of one page.
 */
module WikiStore {
  import opened Options
  import opened Uniqueness

  datatype Origin = Beacon | Coordinator

  datatype Key = Key(id: string, origin: Origin)

  type Vector = seq<real>

  datatype SourceRow = SourceRow(title: string, updatedAt: string, hash: string)

  datatype ChunkRow = ChunkRow(index: nat, text: string, embedding: Vector)

  datatype KeywordRow = KeywordRow(title: string, tags: string, pitch: string, body: string)

  datatype TrigramRow = TrigramRow(title: string, tags: string, body: string)

  /** All rows of one page. */
  datatype PageRows = PageRows(
    source: Option<SourceRow>, chunks: seq<ChunkRow>, keywords: seq<KeywordRow>, trigrams: seq<TrigramRow>)

  /** A source row as the snapshot of a pass shows it: its hash and how many chunks the page has. */
  datatype Stored = Stored(hash: string, chunkCount: nat)

  function StoredOf(rows: PageRows): Option<Stored> {
    match rows.source
    case None => None
    case Some(row) => Some(Stored(row.hash, |rows.chunks|))
  }

  const NO_ROWS := PageRows(None, [], [], [])

  type Store = map<Key, PageRows>

  function At(s: Store, k: Key): PageRows {
    if k in s then s[k] else NO_ROWS
  }

  ghost predicate SameRows(s: Store, t: Store) {
    forall k: Key :: At(s, k) == At(t, k)
  }

  // ---------------------------------------------------------------- statements

  /** A statement, or a transaction, on the rows of one page. */
  datatype Change =
    | DeleteChunks
    | DeleteKeywords
    | DeleteTrigrams
    | DeleteSource
    | ReplacePage(row: SourceRow, chunks: seq<ChunkRow>)
    | InsertKeywords(keywords: KeywordRow)
    | InsertTrigrams(trigrams: TrigramRow)

  function Changed(rows: PageRows, c: Change): PageRows {
    match c
    case DeleteChunks => rows.(chunks := [])
    case DeleteKeywords => rows.(keywords := [])
    case DeleteTrigrams => rows.(trigrams := [])
    case DeleteSource => rows.(source := None)
    case ReplacePage(row, chunks) => rows.(source := Some(row), chunks := chunks)
    case InsertKeywords(row) => rows.(keywords := rows.keywords + [row])
    case InsertTrigrams(row) => rows.(trigrams := rows.trigrams + [row])
  }

  function ChangedAll(rows: PageRows, changes: seq<Change>): PageRows
    decreases |changes|
  {
    if changes == [] then rows else ChangedAll(Changed(rows, changes[0]), changes[1..])
  }

  function Removal(): seq<Change> {
    [DeleteChunks, DeleteKeywords, DeleteTrigrams, DeleteSource]
  }

  function KeywordReplacement(row: KeywordRow): seq<Change> {
    [DeleteKeywords, DeleteTrigrams, InsertKeywords(row), InsertTrigrams(TrigramRow(row.title, row.tags, row.body))]
  }

  /** The keyword rows of a page after their replacement has run to its end. */
  function WithKeywords(rows: PageRows, row: KeywordRow): PageRows {
    rows.(keywords := [row], trigrams := [TrigramRow(row.title, row.tags, row.body)])
  }

  lemma ChangedFirst(rows: PageRows, c: Change, rest: seq<Change>)
    ensures ChangedAll(rows, [c] + rest) == ChangedAll(Changed(rows, c), rest)
  {
    assert ([c] + rest)[1..] == rest;
  }

  lemma ChangedFour(rows: PageRows, a: Change, b: Change, c: Change, d: Change)
    ensures ChangedAll(rows, [a, b, c, d]) == Changed(Changed(Changed(Changed(rows, a), b), c), d)
  {
    assert [a, b, c, d] == [a] + ([b] + ([c] + ([d] + [])));
    ChangedFirst(rows, a, [b] + ([c] + ([d] + [])));
    ChangedFirst(Changed(rows, a), b, [c] + ([d] + []));
    ChangedFirst(Changed(Changed(rows, a), b), c, [d] + []);
    ChangedFirst(Changed(Changed(Changed(rows, a), b), c), d, []);
  }

  lemma RemovalClears(rows: PageRows)
    ensures ChangedAll(rows, Removal()) == NO_ROWS
  {
    ChangedFour(rows, DeleteChunks, DeleteKeywords, DeleteTrigrams, DeleteSource);
  }

  lemma KeywordReplacementReplaces(rows: PageRows, row: KeywordRow)
    ensures ChangedAll(rows, KeywordReplacement(row)) == WithKeywords(rows, row)
  {
    ChangedFour(rows, DeleteKeywords, DeleteTrigrams, InsertKeywords(row),
      InsertTrigrams(TrigramRow(row.title, row.tags, row.body)));
  }

  // ---------------------------------------------------------------- the database

  class Database {
    var sources: map<Key, SourceRow>
    var chunks: map<Key, seq<ChunkRow>>
    var keywords: map<Key, seq<KeywordRow>>
    var trigrams: map<Key, seq<TrigramRow>>
    ghost var Contents: Store

    ghost function Rows(k: Key): PageRows
      reads this
    {
      PageRows(
        if k in sources then Some(sources[k]) else None,
        if k in chunks then chunks[k] else [],
        if k in keywords then keywords[k] else [],
        if k in trigrams then trigrams[k] else [])
    }

    /** The four tables hold, page by page, the rows of `Contents`. */
    ghost predicate Valid()
      reads this
    {
      forall k: Key :: Rows(k) == At(Contents, k)
    }

    constructor ()
      ensures Valid() && Contents == map[]
    {
      sources, chunks, keywords, trigrams, Contents := map[], map[], map[], map[], map[];
    }

    method ListWikiSources() returns (keys: seq<Key>)
      requires Valid()
      ensures forall k: Key :: k in keys <==> At(Contents, k).source.Some?
      ensures NoDuplicates(keys)
    {
      keys := [];
      var rest := sources.Keys;
      while rest != {}
        invariant rest <= sources.Keys
        invariant forall k: Key :: k in keys <==> k in sources && k !in rest
        invariant NoDuplicates(keys)
        decreases |rest|
      {
        var k :| k in rest;
        keys, rest := keys + [k], rest - {k};
      }
      assert forall k: Key :: k in sources <==> Rows(k).source.Some?;
    }

    method GetWikiSourcesWithChunkCounts() returns (storedByKey: map<Key, Stored>)
      requires Valid()
      ensures forall k: Key ::
        (if k in storedByKey then Some(storedByKey[k]) else None) == StoredOf(At(Contents, k))
    {
      storedByKey := map k | k in sources ::
        Stored(sources[k].hash, if k in chunks then |chunks[k]| else 0);
      assert forall k: Key :: (if k in storedByKey then Some(storedByKey[k]) else None) == StoredOf(Rows(k));
    }

    method RemoveWikiSource(key: Key)
      requires Valid()
      modifies this
      ensures Valid() && Contents == old(Contents)[key := ChangedAll(old(At(Contents, key)), Removal())]
    {
      chunks := chunks - {key};
      keywords := keywords - {key};
      trigrams := trigrams - {key};
      sources := sources - {key};
      RemovalClears(At(Contents, key));
      Contents := Contents[key := NO_ROWS];
      assert Rows(key) == NO_ROWS;
      assert forall k: Key | k != key :: Rows(k) == old(Rows(k));
    }

    /** One transaction: upsert the source row, delete the page's chunks, insert the new ones. */
    method ReplaceWikiPage(key: Key, row: SourceRow, rows: seq<ChunkRow>)
      requires Valid()
      modifies this
      ensures Valid() && Contents == old(Contents)[key := Changed(old(At(Contents, key)), ReplacePage(row, rows))]
    {
      sources := sources[key := row];
      chunks := chunks - {key};
      InsertWikiChunks(key, rows);
      Contents := Contents[key := Changed(At(Contents, key), ReplacePage(row, rows))];
      assert Rows(key) == Changed(old(Rows(key)), ReplacePage(row, rows));
      assert forall k: Key | k != key :: Rows(k) == old(Rows(k));
    }

    method InsertWikiChunks(key: Key, rows: seq<ChunkRow>)
      requires key !in chunks
      modifies `chunks
      ensures (if key in chunks then chunks[key] else []) == rows
      ensures forall k: Key | k != key :: k in chunks <==> k in old(chunks)
      ensures forall k: Key | k != key && k in chunks :: chunks[k] == old(chunks)[k]
    {
      for i := 0 to |rows|
        invariant (if key in chunks then chunks[key] else []) == rows[..i]
        invariant forall k: Key | k != key :: k in chunks <==> k in old(chunks)
        invariant forall k: Key | k != key && k in chunks :: chunks[k] == old(chunks)[k]
      {
        chunks := chunks[key := (if key in chunks then chunks[key] else []) + [rows[i]]];
      }
    }

    method ReplaceWikiFtsRows(key: Key, row: KeywordRow)
      requires Valid()
      modifies this
      ensures Valid() && Contents == old(Contents)[key := ChangedAll(old(At(Contents, key)), KeywordReplacement(row))]
    {
      keywords := keywords - {key};
      trigrams := trigrams - {key};
      keywords := keywords[key := [row]];
      trigrams := trigrams[key := [TrigramRow(row.title, row.tags, row.body)]];
      KeywordReplacementReplaces(At(Contents, key), row);
      Contents := Contents[key := WithKeywords(At(Contents, key), row)];
      assert Rows(key) == WithKeywords(old(Rows(key)), row);
      assert forall k: Key | k != key :: Rows(k) == old(Rows(k));
    }

    method HasWikiFtsRows(key: Key) returns (present: bool)
      requires Valid()
      ensures present <==> At(Contents, key).keywords != []
    {
      assert Rows(key) == At(Contents, key);
      return key in keywords && keywords[key] != [];
    }

    method GetWikiChunks(key: Key) returns (rows: seq<ChunkRow>)
      requires Valid()
      ensures rows == At(Contents, key).chunks
    {
      assert Rows(key) == At(Contents, key);
      return if key in chunks then chunks[key] else [];
    }
  }
}
