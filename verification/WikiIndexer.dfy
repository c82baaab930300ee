/**
 * The incremental wiki index: reconcile against the collected page set, then index the pages whose
 * hash changed, repairing keyword rows of pages that are indexed but not in the keyword tables.
 */
module WikiIndexer {
  import opened Options
  import opened Uniqueness
  import opened WikiStore

  /** Embedding of a chunk's text under its page's title. */
  type Embedder = (string, string) -> Vector

  /** What the indexer computes with: the embedding model, its fingerprint, hashing and chunking. */
  datatype Tools = Tools(
    fingerprint: string, embed: Embedder, digest: string -> string, chunk: string -> seq<string>)

  /** A collected page; its body, unless given, is read when the page has to be indexed. */
  datatype Entry = Entry(
    key: Key, updatedAt: string, title: string, tags: seq<string>, pitch: Option<string>,
    content: Option<string>)

  /** What the outside world does to one page: the body it serves, if any, and whether embedding works. */
  datatype Effects = Effects(served: Option<string>, embeds: bool)

  datatype Report = Report(indexed: nat, skipped: nat, removed: nat, chunks: nat, repaired: nat)

  const NOTHING_DONE := Report(0, 0, 0, 0, 0)

  // ---------------------------------------------------------------- keys, hashes, rows

  function OriginText(o: Origin): string {
    if o == Beacon then "beacon" else "coordinator"
  }

  /** The key under which the stored rows are looked up. */
  function SourceKey(k: Key): string {
    k.id + "\0" + OriginText(k.origin)
  }

  function PageHash(digest: string -> string, fingerprint: string, k: Key, updatedAt: string): string {
    digest(fingerprint + "\0" + (SourceKey(k) + "\0" + updatedAt))
  }

  function Joined(parts: seq<string>, separator: string): string {
    if parts == [] then ""
    else if |parts| == 1 then parts[0]
    else parts[0] + separator + Joined(parts[1..], separator)
  }

  function KeywordRowFor(title: string, tags: seq<string>, pitch: Option<string>, texts: seq<string>): KeywordRow {
    KeywordRow(title, Joined(tags, " "), if pitch.Some? then pitch.value else "", Joined(texts, "\n\n"))
  }

  function ChunkRows(texts: seq<string>, title: string, embed: Embedder): (rows: seq<ChunkRow>)
    ensures |rows| == |texts|
  {
    seq(|texts|, i requires 0 <= i < |texts| => ChunkRow(i, texts[i], embed(texts[i], title)))
  }

  function Texts(rows: seq<ChunkRow>): (texts: seq<string>)
    ensures |texts| == |rows|
  {
    seq(|rows|, i requires 0 <= i < |rows| => rows[i].text)
  }

  lemma TextsOfChunkRows(texts: seq<string>, title: string, embed: Embedder)
    ensures Texts(ChunkRows(texts, title, embed)) == texts
  {
  }

  // ---------------------------------------------------------------- one page

  datatype Outcome = Skipped(repaired: bool) | Emptied | Indexed(chunks: nat) | Failed

  /** What is done about one page: the changes to its rows and the outcome that is counted. */
  datatype Step = Step(changes: seq<Change>, outcome: Outcome)

  predicate IsCurrent(t: Tools, stored: Option<Stored>, e: Entry) {
    && stored.Some?
    && stored.value.hash == PageHash(t.digest, t.fingerprint, e.key, e.updatedAt)
    && stored.value.chunkCount > 0
  }

  function BodyOf(e: Entry, f: Effects): Option<string> {
    if e.content.Some? then e.content else f.served
  }

  function KeywordRowOf(e: Entry, texts: seq<string>): KeywordRow {
    KeywordRowFor(e.title, e.tags, e.pitch, texts)
  }

  function IndexChanges(t: Tools, e: Entry, texts: seq<string>): seq<Change> {
    [ReplacePage(
      SourceRow(e.title, e.updatedAt, PageHash(t.digest, t.fingerprint, e.key, e.updatedAt)),
      ChunkRows(texts, e.title, t.embed))]
    + KeywordReplacement(KeywordRowOf(e, texts))
  }

  /** `stored` is what the snapshot taken before the first page says about this one. */
  function PageStep(t: Tools, stored: Option<Stored>, rows: PageRows, e: Entry, f: Effects): Step {
    if IsCurrent(t, stored, e) then
      if rows.keywords == [] && |rows.chunks| > 0
      then Step(KeywordReplacement(KeywordRowOf(e, Texts(rows.chunks))), Skipped(true))
      else Step([], Skipped(false))
    else
      match BodyOf(e, f)
      case None => Step([], Failed)
      case Some(body) =>
        var texts := t.chunk(body);
        if texts == [] then Step(Removal(), Emptied)
        else if !f.embeds then Step([], Failed)
        else Step(IndexChanges(t, e, texts), Indexed(|texts|))
  }

  function Counted(r: Report, o: Outcome): Report {
    match o
    case Skipped(repaired) => r.(skipped := r.skipped + 1, repaired := r.repaired + if repaired then 1 else 0)
    case Emptied => r.(removed := r.removed + 1)
    case Indexed(n) => r.(indexed := r.indexed + 1, chunks := r.chunks + n)
    case Failed => r
  }

  // ---------------------------------------------------------------- what indexing writes

  /** Joining puts the separator between neighbours and nowhere else. */
  lemma {:induction false} JoinedJoins(a: seq<string>, b: seq<string>, separator: string, part: string)
    ensures Joined([], separator) == "" && Joined([part], separator) == part
    ensures a != [] && b != [] ==> Joined(a + b, separator) == Joined(a, separator) + separator + Joined(b, separator)
    decreases |a|
  {
    if a != [] && b != [] {
      assert (a + b)[1..] == a[1..] + b;
      if |a| > 1 {
        JoinedJoins(a[1..], b, separator, part);
        assert a[0] + separator + (Joined(a[1..], separator) + separator + Joined(b, separator))
            == (a[0] + separator + Joined(a[1..], separator)) + separator + Joined(b, separator);
      } else {
        assert a[1..] + b == b;
      }
    }
  }

  /** The keyword rows a page is to have: its title and pitch, its tags, and the texts of its chunks. */
  ghost predicate KeywordsOf(rows: PageRows, e: Entry, texts: seq<string>) {
    && |rows.keywords| == 1 && |rows.trigrams| == 1
    && rows.keywords[0].title == rows.trigrams[0].title == e.title
    && rows.keywords[0].pitch == (match e.pitch case None => "" case Some(pitch) => pitch)
    && rows.keywords[0].tags == rows.trigrams[0].tags == Joined(e.tags, " ")
    && rows.keywords[0].body == rows.trigrams[0].body == Joined(texts, "\n\n")
    && |texts| == |rows.chunks|
    && forall i | 0 <= i < |texts| :: texts[i] == rows.chunks[i].text
  }

  lemma ReplacementWrites(rows: PageRows, e: Entry, texts: seq<string>)
    requires |texts| == |rows.chunks| && forall i | 0 <= i < |texts| :: texts[i] == rows.chunks[i].text
    ensures KeywordsOf(ChangedAll(rows, KeywordReplacement(KeywordRowOf(e, texts))), e, texts)
    ensures ChangedAll(rows, KeywordReplacement(KeywordRowOf(e, texts))).chunks == rows.chunks
    ensures ChangedAll(rows, KeywordReplacement(KeywordRowOf(e, texts))).source == rows.source
  {
    KeywordReplacementReplaces(rows, KeywordRowOf(e, texts));
  }

  /** A repaired page keeps its source row and chunks and gets the keyword rows of those chunks. */
  lemma RepairWrites(t: Tools, stored: Option<Stored>, rows: PageRows, e: Entry, f: Effects)
    returns (texts: seq<string>)
    requires PageStep(t, stored, rows, e, f).outcome == Skipped(true)
    ensures var after := ChangedAll(rows, PageStep(t, stored, rows, e, f).changes);
      after.source == rows.source && after.chunks == rows.chunks && KeywordsOf(after, e, texts)
  {
    texts := Texts(rows.chunks);
    ReplacementWrites(rows, e, texts);
  }

  /** A chunk row for each text of the page's body, with its place, and embedded under the page's title. */
  ghost predicate ChunksOf(rows: PageRows, t: Tools, e: Entry, texts: seq<string>) {
    && |rows.chunks| == |texts|
    && forall i | 0 <= i < |texts| ::
         && rows.chunks[i].index == i && rows.chunks[i].text == texts[i]
         && rows.chunks[i].embedding == t.embed(texts[i], e.title)
  }

  /** An indexed page has the chunks of its body, the collected title and time of update, and their keyword rows. */
  lemma IndexingWrites(t: Tools, stored: Option<Stored>, rows: PageRows, e: Entry, f: Effects)
    returns (texts: seq<string>)
    requires PageStep(t, stored, rows, e, f).outcome.Indexed?
    ensures e.content.Some? || f.served.Some?
    ensures texts == t.chunk(if e.content.Some? then e.content.value else f.served.value) != []
    ensures PageStep(t, stored, rows, e, f).outcome == Indexed(|texts|)
    ensures var after := ChangedAll(rows, PageStep(t, stored, rows, e, f).changes);
      && after.source == Some(SourceRow(e.title, e.updatedAt, VersionHash(t, e)))
      && ChunksOf(after, t, e, texts)
      && KeywordsOf(after, e, texts)
  {
    texts := t.chunk(BodyOf(e, f).value);
    HashIsOfVersion(t, e);
    var c := IndexChanges(t, e, texts)[0];
    ChangedFirst(rows, c, KeywordReplacement(KeywordRowOf(e, texts)));
    ReplacementWrites(Changed(rows, c), e, texts);
  }

  /** The hash of a page's version: what the digest makes of the fingerprint, the page and its time of update. */
  function VersionHash(t: Tools, e: Entry): string {
    var origin := match e.key.origin case Beacon => "beacon" case Coordinator => "coordinator";
    t.digest(t.fingerprint + "\0" + (e.key.id + "\0" + origin + "\0" + e.updatedAt))
  }

  /** The snapshot has the page under the hash of this version, and with chunks. */
  ghost predicate UpToDate(t: Tools, stored: Option<Stored>, e: Entry) {
    exists count: nat :: count > 0 && stored == Some(Stored(VersionHash(t, e), count))
  }

  /** The texts of the body that was collected or is served, if there is one. */
  ghost predicate HasTexts(t: Tools, e: Entry, f: Effects, texts: seq<string>) {
    exists body :: (e.content == Some(body) || (e.content == None && f.served == Some(body))) && t.chunk(body) == texts
  }

  /**
   * When a page is skipped, repaired, emptied, indexed or left because something failed: every page that is
   * up to date is skipped, and repaired if it has chunks but no keyword rows; any other is emptied if its
   * body has no texts, indexed if they can be embedded, and fails if they cannot or there is no body.
   */
  lemma StepDecides(t: Tools, stored: Option<Stored>, rows: PageRows, e: Entry, f: Effects)
    ensures var step, current := PageStep(t, stored, rows, e, f), UpToDate(t, stored, e);
      && (step.outcome.Skipped? <==> current)
      && (step.outcome == Skipped(true) <==> current && rows.keywords == [] && rows.chunks != [])
      && (step.outcome == Emptied <==> !current && HasTexts(t, e, f, []))
      && (step.outcome.Indexed? <==> !current && f.embeds && exists texts :: texts != [] && HasTexts(t, e, f, texts))
      && (step.outcome == Emptied ==> ChangedAll(rows, step.changes) == NO_ROWS)
      && (step.outcome == Failed || step.outcome == Skipped(false) ==> ChangedAll(rows, step.changes) == rows)
  {
    HashIsOfVersion(t, e);
    if IsCurrent(t, stored, e) {
      assert stored == Some(Stored(VersionHash(t, e), stored.value.chunkCount));
    }
    if BodyOf(e, f).Some? {
      assert HasTexts(t, e, f, t.chunk(BodyOf(e, f).value));
    }
    RemovalClears(rows);
  }

  lemma HashIsOfVersion(t: Tools, e: Entry)
    ensures VersionHash(t, e) == PageHash(t.digest, t.fingerprint, e.key, e.updatedAt)
  {
  }

  // ---------------------------------------------------------------- a pass

  function ActiveKeys(entries: seq<Entry>, origins: set<Origin>): set<Key> {
    set e | e in entries && e.key.origin in origins :: e.key
  }

  predicate IsGone(k: Key, active: set<Key>, origins: set<Origin>) {
    k.origin in origins && k !in active
  }

  /** The stored pages a pass removes first: in scope, and absent from the collected set. */
  function Gone(s: Store, active: set<Key>, origins: set<Origin>): set<Key> {
    set k | k in s && s[k].source.Some? && IsGone(k, active, origins)
  }

  ghost function GoneAmong(listed: seq<Key>, n: nat, active: set<Key>, origins: set<Origin>): set<Key>
    requires n <= |listed|
  {
    set i | 0 <= i < n && IsGone(listed[i], active, origins) :: listed[i]
  }

  lemma GoneAmongOneMore(listed: seq<Key>, n: nat, active: set<Key>, origins: set<Origin>)
    requires n < |listed| && NoDuplicates(listed)
    ensures listed[n] !in GoneAmong(listed, n, active, origins)
    ensures GoneAmong(listed, n + 1, active, origins)
         == GoneAmong(listed, n, active, origins) + if IsGone(listed[n], active, origins) then {listed[n]} else {}
  {
  }

  lemma GoneAmongAll(s: Store, listed: seq<Key>, active: set<Key>, origins: set<Origin>)
    requires forall k: Key :: k in listed <==> At(s, k).source.Some?
    ensures GoneAmong(listed, |listed|, active, origins) == Gone(s, active, origins)
  {
    assert forall k | k in Gone(s, active, origins) :: At(s, k).source.Some?;
    forall k | k in GoneAmong(listed, |listed|, active, origins) ensures k in Gone(s, active, origins) {
      assert k in listed;
    }
  }

  function Reconciled(s: Store, gone: set<Key>): Store {
    map k | k in s :: if k in gone then ChangedAll(s[k], Removal()) else s[k]
  }

  lemma ReconciledOneMore(s: Store, gone: set<Key>, key: Key)
    requires At(s, key).source.Some? && key !in gone
    ensures Reconciled(s, gone + {key})
         == Reconciled(s, gone)[key := ChangedAll(At(Reconciled(s, gone), key), Removal())]
  {
  }

  /** The store after changes to one page's rows. */
  function Updated(s: Store, k: Key, changes: seq<Change>): Store {
    if changes == [] then s else s[k := ChangedAll(At(s, k), changes)]
  }

  datatype Progress = Progress(store: Store, report: Report)

  /** After the first `n` pages, from the reconciled store `snapshot`. */
  function Visited(t: Tools, snapshot: Store, start: Report, entries: seq<Entry>, effects: seq<Effects>, n: nat)
      : Progress
    requires n <= |entries| == |effects|
  {
    if n == 0 then Progress(snapshot, start)
    else
      var p := Visited(t, snapshot, start, entries, effects, n - 1);
      var e := entries[n - 1];
      var step := PageStep(t, StoredOf(At(snapshot, e.key)), At(p.store, e.key), e, effects[n - 1]);
      Progress(Updated(p.store, e.key, step.changes), Counted(p.report, step.outcome))
  }

  function Pass(t: Tools, s: Store, entries: seq<Entry>, origins: set<Origin>, effects: seq<Effects>): Progress
    requires |entries| == |effects|
  {
    var active := ActiveKeys(entries, origins);
    var gone := Gone(s, active, origins);
    Visited(t, Reconciled(s, gone), NOTHING_DONE.(removed := |gone|), entries, effects, |entries|)
  }

  // ---------------------------------------------------------------- what a pass reports

  /** What came of each of the first `n` pages. */
  function Outcomes(t: Tools, snapshot: Store, start: Report, entries: seq<Entry>, effects: seq<Effects>, n: nat)
      : (outcomes: seq<Outcome>)
    requires n <= |entries| == |effects|
    ensures |outcomes| == n
  {
    if n == 0 then []
    else
      var p := Visited(t, snapshot, start, entries, effects, n - 1);
      var e := entries[n - 1];
      Outcomes(t, snapshot, start, entries, effects, n - 1)
      + [PageStep(t, StoredOf(At(snapshot, e.key)), At(p.store, e.key), e, effects[n - 1]).outcome]
  }

  function HowMany(outcomes: seq<Outcome>, p: Outcome -> bool): nat {
    if outcomes == [] then 0
    else HowMany(outcomes[..|outcomes| - 1], p) + if p(outcomes[|outcomes| - 1]) then 1 else 0
  }

  function ChunksIn(outcomes: seq<Outcome>): nat {
    if outcomes == [] then 0
    else
      ChunksIn(outcomes[..|outcomes| - 1])
      + match outcomes[|outcomes| - 1] case Indexed(n) => n case _ => 0
  }

  /** The report counts the pages by what came of them. */
  ghost predicate Counts(r: Report, start: Report, outcomes: seq<Outcome>) {
    && r.indexed == start.indexed + HowMany(outcomes, (o: Outcome) => o.Indexed?)
    && r.skipped == start.skipped + HowMany(outcomes, (o: Outcome) => o.Skipped?)
    && r.repaired == start.repaired + HowMany(outcomes, (o: Outcome) => o == Skipped(true))
    && r.removed == start.removed + HowMany(outcomes, (o: Outcome) => o.Emptied?)
    && r.chunks == start.chunks + ChunksIn(outcomes)
  }

  lemma CountedOneMore(r: Report, start: Report, outcomes: seq<Outcome>, o: Outcome)
    requires Counts(r, start, outcomes)
    ensures Counts(Counted(r, o), start, outcomes + [o])
  {
    assert (outcomes + [o])[..|outcomes|] == outcomes;
  }

  lemma {:induction false} VisitedCounts(
      t: Tools, snapshot: Store, start: Report, entries: seq<Entry>, effects: seq<Effects>, n: nat)
    requires n <= |entries| == |effects|
    ensures Counts(Visited(t, snapshot, start, entries, effects, n).report, start,
      Outcomes(t, snapshot, start, entries, effects, n))
    decreases n
  {
    if n > 0 {
      VisitedCounts(t, snapshot, start, entries, effects, n - 1);
      var p, e := Visited(t, snapshot, start, entries, effects, n - 1), entries[n - 1];
      var o := PageStep(t, StoredOf(At(snapshot, e.key)), At(p.store, e.key), e, effects[n - 1]).outcome;
      CountedOneMore(p.report, start, Outcomes(t, snapshot, start, entries, effects, n - 1), o);
    }
  }

  /** The report of a pass: pages by what came of them, and the removed ones that were not collected. */
  lemma PassReports(t: Tools, s: Store, entries: seq<Entry>, origins: set<Origin>, effects: seq<Effects>)
    requires |entries| == |effects|
    ensures var gone := Gone(s, ActiveKeys(entries, origins), origins);
      var start := Report(0, 0, |gone|, 0, 0);
      Counts(Pass(t, s, entries, origins, effects).report, start,
        Outcomes(t, Reconciled(s, gone), start, entries, effects, |entries|))
  {
    var gone := Gone(s, ActiveKeys(entries, origins), origins);
    VisitedCounts(t, Reconciled(s, gone), NOTHING_DONE.(removed := |gone|), entries, effects, |entries|);
  }

  // ---------------------------------------------------------------- collecting pages

  /** What a page listing says about a page. */
  datatype Meta = Meta(id: string, updatedAt: string, title: string, tags: seq<string>, pitch: Option<string>)

  function Inputs(metas: seq<Meta>, origin: Origin): (entries: seq<Entry>)
    ensures |entries| == |metas|
    ensures forall i | 0 <= i < |entries| ::
      && entries[i].key == Key(metas[i].id, origin) && entries[i].updatedAt == metas[i].updatedAt
      && entries[i].title == metas[i].title && entries[i].tags == metas[i].tags && entries[i].pitch == metas[i].pitch
      && entries[i].content.None?
  {
    seq(|metas|, i requires 0 <= i < |metas| =>
      Entry(Key(metas[i].id, origin), metas[i].updatedAt, metas[i].title, metas[i].tags, metas[i].pitch, None))
  }

  /** The merged corpus; `remote` is the coordinator's listing, absent when it could not be fetched. */
  function Collected(local: seq<Meta>, remote: Option<seq<Meta>>): seq<Entry> {
    Inputs(local, Beacon) + if remote.Some? then Inputs(remote.value, Coordinator) else []
  }

  function ReconcileOrigins(remote: Option<seq<Meta>>): set<Origin> {
    if remote.Some? then {Beacon, Coordinator} else {Beacon}
  }

  // ---------------------------------------------------------------- the indexer

  class Indexer {
    var embed: Option<Embedder>
    const fingerprint: string
    const digest: string -> string
    const chunk: string -> seq<string>
    const db: Database

    constructor (
        embed: Option<Embedder>, fingerprint: string, digest: string -> string, chunk: string -> seq<string>,
        db: Database)
      ensures this.embed == embed && this.db == db
      ensures this.fingerprint == fingerprint && this.digest == digest && this.chunk == chunk
    {
      this.embed, this.fingerprint, this.digest, this.chunk, this.db := embed, fingerprint, digest, chunk, db;
    }

    function ToolsWith(e: Embedder): Tools {
      Tools(fingerprint, e, digest, chunk)
    }

    /** Remove every stored page that is in scope and absent from the collected set. */
    method Reconcile(active: set<Key>, origins: set<Origin>) returns (removed: nat)
      requires db.Valid()
      modifies db
      ensures db.Valid() && db.Contents == Reconciled(old(db.Contents), Gone(old(db.Contents), active, origins))
      ensures removed == |Gone(old(db.Contents), active, origins)|
    {
      ghost var before := db.Contents;
      var listed := db.ListWikiSources();
      removed := 0;
      for i := 0 to |listed|
        invariant removed == |GoneAmong(listed, i, active, origins)|
        invariant db.Valid() && db.Contents == Reconciled(before, GoneAmong(listed, i, active, origins))
      {
        GoneAmongOneMore(listed, i, active, origins);
        var key := listed[i];
        if IsGone(key, active, origins) {
          ReconciledOneMore(before, GoneAmong(listed, i, active, origins), key);
          db.RemoveWikiSource(key);
          removed := removed + 1;
        }
      }
      GoneAmongAll(before, listed, active, origins);
    }

    /** The page transaction and the keyword rows of a changed page. */
    method WriteIndex(e: Embedder, entry: Entry, texts: seq<string>)
      requires db.Valid()
      modifies db
      ensures db.Valid()
      ensures db.Contents == old(db.Contents)[entry.key :=
        ChangedAll(At(old(db.Contents), entry.key), IndexChanges(ToolsWith(e), entry, texts))]
    {
      var hash := PageHash(digest, fingerprint, entry.key, entry.updatedAt);
      var row := SourceRow(entry.title, entry.updatedAt, hash);
      var chunks := ChunkRows(texts, entry.title, e);
      ChangedFirst(At(db.Contents, entry.key), ReplacePage(row, chunks),
        KeywordReplacement(KeywordRowOf(entry, texts)));
      db.ReplaceWikiPage(entry.key, row, chunks);
      db.ReplaceWikiFtsRows(entry.key, KeywordRowOf(entry, texts));
    }

    method IndexPage(e: Embedder, stored: Option<Stored>, entry: Entry, effects: Effects) returns (outcome: Outcome)
      requires db.Valid()
      modifies db
      ensures var rows := At(old(db.Contents), entry.key);
        var step := PageStep(ToolsWith(e), stored, rows, entry, effects);
        && outcome == step.outcome
        && db.Valid() && db.Contents == Updated(old(db.Contents), entry.key, step.changes)
    {
      var hash := PageHash(digest, fingerprint, entry.key, entry.updatedAt);
      if stored.Some? && stored.value.hash == hash && stored.value.chunkCount > 0 {
        var present := db.HasWikiFtsRows(entry.key);
        if !present {
          var chunks := db.GetWikiChunks(entry.key);
          if |chunks| > 0 {
            db.ReplaceWikiFtsRows(entry.key, KeywordRowOf(entry, Texts(chunks)));
            return Skipped(true);
          }
        }
        return Skipped(false);
      }
      var body := BodyOf(entry, effects);
      if body.None? {
        return Failed;
      }
      var texts := chunk(body.value);
      if |texts| == 0 {
        db.RemoveWikiSource(entry.key);
        return Emptied;
      }
      if !effects.embeds {
        return Failed;
      }
      WriteIndex(e, entry, texts);
      return Indexed(|texts|);
    }

    method IndexWiki(entries: seq<Entry>, origins: set<Origin>, effects: seq<Effects>) returns (report: Report)
      requires |entries| == |effects| && db.Valid()
      modifies db
      ensures db.Valid()
      ensures embed.None? ==> db.Contents == old(db.Contents) && report == NOTHING_DONE
      ensures embed.Some? ==>
        Progress(db.Contents, report) == Pass(ToolsWith(embed.value), old(db.Contents), entries, origins, effects)
    {
      report := NOTHING_DONE;
      if embed.None? {
        return;
      }
      var removed := Reconcile(ActiveKeys(entries, origins), origins);
      report := report.(removed := removed);
      var storedByKey := db.GetWikiSourcesWithChunkCounts();
      ghost var t, start, snapshot := ToolsWith(embed.value), report, db.Contents;
      for i := 0 to |entries|
        invariant db.Valid()
        invariant Progress(db.Contents, report) == Visited(t, snapshot, start, entries, effects, i)
      {
        var key := entries[i].key;
        var stored := if key in storedByKey then Some(storedByKey[key]) else None;
        assert stored == StoredOf(At(snapshot, key));
        var outcome := IndexPage(embed.value, stored, entries[i], effects[i]);
        report := Counted(report, outcome);
      }
    }
  }
}
