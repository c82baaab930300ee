/**
 * Secret references in stored configuration values: finding them, substituting them, and building the
 * payload that is distributed, from which rows with unknown references are dropped whole.
 */
module ConfigResolve {
  import opened Options
  import opened Uniqueness
  import opened Sequences
  import opened Text

  // ---------------------------------------------------------------- references

  /** `[A-Za-z0-9_]` */
  predicate IsNameChar(c: char) {
    'A' <= c <= 'Z' || 'a' <= c <= 'z' || '0' <= c <= '9' || c == '_'
  }

  type Opening = s: string | |s| == 9 && s[0] == '$' && forall i | 1 <= i < 9 :: s[i] != '$' witness "${secret:"

  const OPENING: Opening := "${secret:"

  /** The end of the longest run of name characters from `i` on. */
  function NameEnd(v: string, i: nat): (k: nat)
    requires i <= |v|
    ensures i <= k <= |v|
    ensures forall j | i <= j < k :: IsNameChar(v[j])
    ensures k < |v| ==> !IsNameChar(v[k])
    decreases |v| - i
  {
    if i < |v| && IsNameChar(v[i]) then NameEnd(v, i + 1) else i
  }

  predicate OpensAt(v: string, i: nat) {
    i + |OPENING| <= |v| && v[i..i + |OPENING|] == OPENING
  }

  /** `\$\{secret:([A-Za-z0-9_]+)\}` matches at `i`. */
  predicate RefersAt(v: string, i: nat) {
    OpensAt(v, i) &&
    var end := NameEnd(v, i + |OPENING|);
    end > i + |OPENING| && end < |v| && v[end] == '}'
  }

  function NameAt(v: string, i: nat): (name: string)
    requires RefersAt(v, i)
    ensures |name| >= 1 && forall j | 0 <= j < |name| :: IsNameChar(name[j])
  {
    v[i + |OPENING|..NameEnd(v, i + |OPENING|)]
  }

  /** The offset behind the reference at `i`. */
  function RefEnd(v: string, i: nat): (end: nat)
    requires RefersAt(v, i)
    ensures i < end <= |v|
  {
    NameEnd(v, i + |OPENING|) + 1
  }

  function Reference(name: string): string {
    OPENING + name + "}"
  }

  ghost predicate IsName(name: string) {
    name != "" && forall j | 0 <= j < |name| :: IsNameChar(name[j])
  }

  /** A reference stands at `i` exactly when the text of one with some name does. */
  lemma RefersMeansReference(v: string, i: nat)
    requires i <= |v|
    ensures RefersAt(v, i) ==> IsName(NameAt(v, i)) && v[i..RefEnd(v, i)] == Reference(NameAt(v, i))
    ensures forall name: string | IsName(name) && Reference(name) <= v[i..] :: RefersAt(v, i) && NameAt(v, i) == name
  {
    if RefersAt(v, i) {
      var end := NameEnd(v, i + |OPENING|);
      assert v[i..end + 1] == v[i..i + |OPENING|] + v[i + |OPENING|..end] + [v[end]];
    }
    forall name: string | IsName(name) && Reference(name) <= v[i..] ensures RefersAt(v, i) && NameAt(v, i) == name {
      ReferenceRefers(v, i, name);
    }
  }

  lemma {:induction false} NameEndIs(v: string, i: nat, end: nat)
    requires i <= end < |v| && !IsNameChar(v[end]) && forall j | i <= j < end :: IsNameChar(v[j])
    ensures NameEnd(v, i) == end
    decreases end - i
  {
    if i < end {
      NameEndIs(v, i + 1, end);
    }
  }

  lemma PrefixAt(v: string, i: nat, r: string, j: nat)
    requires i <= |v| && r <= v[i..] && j < |r|
    ensures i + j < |v| && v[i + j] == r[j]
  {
    assert v[i..][j] == v[i + j];
  }

  lemma OpeningOfReference(v: string, i: nat, name: string)
    requires i <= |v| && Reference(name) <= v[i..]
    ensures OpensAt(v, i)
  {
    forall j: nat | j < |OPENING| ensures i + j < |v| && v[i + j] == OPENING[j] {
      PrefixAt(v, i, Reference(name), j);
    }
    PrefixAt(v, i, Reference(name), |OPENING| - 1);
    assert v[i..i + |OPENING|] == OPENING;
  }

  lemma NameOfReference(v: string, i: nat, name: string)
    requires i <= |v| && Reference(name) <= v[i..]
    ensures var start := i + |OPENING|;
      && start + |name| < |v| && v[start + |name|] == '}'
      && v[start..start + |name|] == name
  {
    var start := i + |OPENING|;
    PrefixAt(v, i, Reference(name), |OPENING| + |name|);
    forall j: nat | j < |name| ensures v[start + j] == name[j] {
      PrefixAt(v, i, Reference(name), |OPENING| + j);
    }
  }

  lemma ReferenceRefers(v: string, i: nat, name: string)
    requires i <= |v| && IsName(name) && Reference(name) <= v[i..]
    ensures RefersAt(v, i) && NameAt(v, i) == name
  {
    var start := i + |OPENING|;
    OpeningOfReference(v, i, name);
    NameOfReference(v, i, name);
    forall j | start <= j < start + |name| ensures IsNameChar(v[j]) {
      assert v[j] == v[start..start + |name|][j - start];
    }
    NameEndIs(v, start, start + |name|);
  }

  /** The text of a reference, written out. */
  ghost predicate Written(t: string, name: string) {
    t == ['$', '{', 's', 'e', 'c', 'r', 'e', 't', ':'] + name + ['}']
  }

  /** A reference stands at `i` exactly when some name does there between `${secret:` and a closing brace. */
  lemma RefersWhereWritten(v: string, i: nat)
    requires i <= |v|
    ensures RefersAt(v, i) <==>
      exists name, end: nat :: IsName(name) && i <= end <= |v| && Written(v[i..end], name)
    ensures RefersAt(v, i) ==> Written(v[i..RefEnd(v, i)], NameAt(v, i))
  {
    RefersMeansReference(v, i);
    if RefersAt(v, i) {
      assert Written(Reference(NameAt(v, i)), NameAt(v, i));
    }
    forall name: string, end: nat | IsName(name) && i <= end <= |v| && Written(v[i..end], name) ensures RefersAt(v, i) {
      assert Reference(name) == v[i..end] <= v[i..];
    }
  }

  lemma OpensWithDollar(v: string, i: nat)
    requires OpensAt(v, i)
    ensures v[i] == '$'
  {
    assert v[i] == v[i..i + |OPENING|][0];
  }

  lemma NoDollarInside(v: string, i: nat, j: nat)
    requires RefersAt(v, i) && i < j < RefEnd(v, i)
    ensures v[j] != '$'
  {
    if j < i + |OPENING| {
      assert v[j] == v[i..i + |OPENING|][j - i];
    }
  }

  /** References do not overlap: none starts inside another. */
  lemma NoReferenceInside(v: string, i: nat, j: nat)
    requires RefersAt(v, i) && i < j < RefEnd(v, i)
    ensures !RefersAt(v, j)
  {
    NoDollarInside(v, i, j);
    if OpensAt(v, j) {
      OpensWithDollar(v, j);
    }
  }

  // ---------------------------------------------------------------- pieces of a value

  /** A value read as single characters and references. */
  datatype Piece = Plain(c: char) | Ref(name: string)

  function Pieces(v: string, i: nat): seq<Piece>
    requires i <= |v|
    decreases |v| - i
  {
    if i == |v| then []
    else if RefersAt(v, i) then [Ref(NameAt(v, i))] + Pieces(v, RefEnd(v, i))
    else [Plain(v[i])] + Pieces(v, i + 1)
  }

  /** The names of the references, in order. */
  function Names(pieces: seq<Piece>): seq<string> {
    if pieces == [] then []
    else (if pieces[0].Ref? then [pieces[0].name] else []) + Names(pieces[1..])
  }

  /** The text of the pieces, each reference replaced once; what is inserted is not read again. */
  function Rendered(pieces: seq<Piece>, value: string -> string): string {
    if pieces == [] then ""
    else (if pieces[0].Ref? then value(pieces[0].name) else [pieces[0].c]) + Rendered(pieces[1..], value)
  }

  lemma RenderedFirst(p: Piece, rest: seq<Piece>, value: string -> string)
    ensures Rendered([p] + rest, value) == (if p.Ref? then value(p.name) else [p.c]) + Rendered(rest, value)
  {
    assert ([p] + rest)[1..] == rest;
  }

  lemma ReferenceThenRest(v: string, i: nat)
    requires RefersAt(v, i)
    ensures v[i..] == Reference(NameAt(v, i)) + v[RefEnd(v, i)..]
  {
    RefersMeansReference(v, i);
    assert v[i..] == v[i..RefEnd(v, i)] + v[RefEnd(v, i)..];
  }

  /** Reading a value into pieces loses nothing: with every reference put back it is the value. */
  lemma {:induction false} PiecesRoundTrip(v: string, i: nat)
    requires i <= |v|
    ensures Rendered(Pieces(v, i), Reference) == v[i..]
    decreases |v| - i
  {
    if i < |v| {
      if RefersAt(v, i) {
        PiecesRoundTrip(v, RefEnd(v, i));
        RenderedFirst(Ref(NameAt(v, i)), Pieces(v, RefEnd(v, i)), Reference);
        ReferenceThenRest(v, i);
      } else {
        PiecesRoundTrip(v, i + 1);
        RenderedFirst(Plain(v[i]), Pieces(v, i + 1), Reference);
        assert v[i..] == [v[i]] + v[i + 1..];
      }
    }
  }

  /** The names read are those of all references in the value, wherever they stand. */
  lemma {:induction false} NamesAreOfAllReferences(v: string, i: nat, name: string)
    requires i <= |v|
    ensures name in Names(Pieces(v, i)) <==> exists k: nat :: i <= k && RefersAt(v, k) && NameAt(v, k) == name
    decreases |v| - i
  {
    if i < |v| {
      var next := if RefersAt(v, i) then RefEnd(v, i) else i + 1;
      NamesAreOfAllReferences(v, next, name);
      NamesStep(v, i);
      forall k: nat | i <= k && RefersAt(v, k) && NameAt(v, k) == name ensures k == i || next <= k {
        if i < k < next {
          NoReferenceInside(v, i, k);
        }
      }
    }
  }

  lemma NamesStep(v: string, i: nat)
    requires i < |v|
    ensures Names(Pieces(v, i)) ==
      if RefersAt(v, i) then [NameAt(v, i)] + Names(Pieces(v, RefEnd(v, i))) else Names(Pieces(v, i + 1))
  {
    if RefersAt(v, i) {
      assert Pieces(v, i)[1..] == Pieces(v, RefEnd(v, i));
    } else {
      assert Pieces(v, i)[1..] == Pieces(v, i + 1);
    }
  }

  /** `extractSecretRefs`: the names referenced, each once, in the order of first occurrence. */
  function SecretRefs(v: string): seq<string> {
    Dedup(Names(Pieces(v, 0)))
  }

  /** `found` are the names read before `i`, and `unique` those without duplicates. */
  ghost predicate ReadSoFar(v: string, i: nat, found: seq<string>, unique: seq<string>) {
    i <= |v| && unique == Dedup(found) && Names(Pieces(v, 0)) == found + Names(Pieces(v, i))
  }

  lemma ReadPlain(v: string, i: nat, found: seq<string>, unique: seq<string>)
    requires ReadSoFar(v, i, found, unique) && i < |v| && !RefersAt(v, i)
    ensures ReadSoFar(v, i + 1, found, unique)
  {
    NamesStep(v, i);
  }

  lemma ReadReference(v: string, i: nat, found: seq<string>, unique: seq<string>)
    requires ReadSoFar(v, i, found, unique) && i < |v| && RefersAt(v, i)
    ensures var name := NameAt(v, i);
      ReadSoFar(v, RefEnd(v, i), found + [name], if name in unique then unique else unique + [name])
  {
    var name, rest := NameAt(v, i), Names(Pieces(v, RefEnd(v, i)));
    NamesStep(v, i);
    DedupOneMore(found, name);
    ConcatAssoc(found, [name], rest);
  }

  method ExtractSecretRefs(v: string) returns (names: seq<string>)
    ensures names == SecretRefs(v)
  {
    names := [];
    var i := 0;
    ghost var found: seq<string> := [];
    while i < |v|
      invariant ReadSoFar(v, i, found, names)
      decreases |v| - i
    {
      if RefersAt(v, i) {
        ReadReference(v, i, found, names);
        var name := NameAt(v, i);
        found := found + [name];
        if name !in names {
          names := names + [name];
        }
        i := RefEnd(v, i);
      } else {
        ReadPlain(v, i, found, names);
        i := i + 1;
      }
    }
    assert found + [] == found;
  }

  // ---------------------------------------------------------------- substitution

  datatype Resolution = Resolved(value: string) | Missing(names: seq<string>)

  function Unknown(names: seq<string>, secrets: map<string, string>): seq<string> {
    if names == [] then []
    else
      Unknown(names[..|names| - 1], secrets)
      + if names[|names| - 1] in secrets then [] else [names[|names| - 1]]
  }

  lemma {:induction false} UnknownAreNotKnown(names: seq<string>, secrets: map<string, string>)
    ensures forall n :: n in Unknown(names, secrets) <==> n in names && n !in secrets
    decreases |names|
  {
    if names != [] {
      UnknownAreNotKnown(names[..|names| - 1], secrets);
      assert names == names[..|names| - 1] + [names[|names| - 1]];
    }
  }

  function ValueIn(secrets: map<string, string>): string -> string {
    (name: string) => if name in secrets then secrets[name] else ""
  }

  function ResolveSecretRefs(v: string, secrets: map<string, string>): Resolution {
    var refs := SecretRefs(v);
    if refs == [] then Resolved(v)
    else if Unknown(refs, secrets) != [] then Missing(Unknown(refs, secrets))
    else Resolved(Rendered(Pieces(v, 0), ValueIn(secrets)))
  }

  lemma RefsAreNames(v: string)
    ensures NoDuplicates(SecretRefs(v))
    ensures forall n :: n in SecretRefs(v) <==> n in Names(Pieces(v, 0))
    ensures SecretRefs(v) == [] <==> Names(Pieces(v, 0)) == []
  {
    DedupKeepsFirst(Names(Pieces(v, 0)));
  }

  lemma {:induction false} RenderedWithoutRefs(pieces: seq<Piece>, f: string -> string, g: string -> string)
    requires forall n | n in Names(pieces) :: f(n) == g(n)
    ensures Rendered(pieces, f) == Rendered(pieces, g)
    decreases |pieces|
  {
    if pieces != [] {
      RenderedWithoutRefs(pieces[1..], f, g);
    }
  }

  /**
   * `out` is the value from `i` on, character by character, with the secret itself in the place of every
   * reference; what was put in is not looked at again.
   */
  ghost predicate Substitutes(v: string, i: nat, out: string, secrets: map<string, string>)
    decreases |v| - i
  {
    if i >= |v| then out == ""
    else if RefersAt(v, i) then
      var name := NameAt(v, i);
      && name in secrets && secrets[name] <= out
      && Substitutes(v, RefEnd(v, i), out[|secrets[name]|..], secrets)
    else out != "" && out[0] == v[i] && Substitutes(v, i + 1, out[1..], secrets)
  }

  lemma SecretPutIn(v: string, i: nat, rest: string, secrets: map<string, string>)
    requires i < |v| && RefersAt(v, i) && NameAt(v, i) in secrets
    requires Substitutes(v, RefEnd(v, i), rest, secrets)
    ensures Substitutes(v, i, secrets[NameAt(v, i)] + rest, secrets)
  {
    var secret := secrets[NameAt(v, i)];
    assert (secret + rest)[|secret|..] == rest;
  }

  lemma CharacterKept(v: string, i: nat, rest: string, secrets: map<string, string>)
    requires i < |v| && !RefersAt(v, i) && Substitutes(v, i + 1, rest, secrets)
    ensures Substitutes(v, i, [v[i]] + rest, secrets)
  {
    assert ([v[i]] + rest)[1..] == rest;
  }

  lemma {:induction false} RenderedSubstitutes(v: string, i: nat, secrets: map<string, string>)
    requires i <= |v| && forall n | n in Names(Pieces(v, i)) :: n in secrets
    ensures Substitutes(v, i, Rendered(Pieces(v, i), ValueIn(secrets)), secrets)
    decreases |v| - i
  {
    if i < |v| {
      var value := ValueIn(secrets);
      NamesStep(v, i);
      if RefersAt(v, i) {
        var name, rest := NameAt(v, i), Pieces(v, RefEnd(v, i));
        RenderedFirst(Ref(name), rest, value);
        RenderedSubstitutes(v, RefEnd(v, i), secrets);
        assert name in [name] + Names(rest);
        SecretPutIn(v, i, Rendered(rest, value), secrets);
      } else {
        var rest := Pieces(v, i + 1);
        RenderedFirst(Plain(v[i]), rest, value);
        RenderedSubstitutes(v, i + 1, secrets);
        CharacterKept(v, i, Rendered(rest, value), secrets);
      }
    }
  }

  /**
   * A value is resolved exactly when every reference in it is known, then to its text with each
   * reference replaced by its secret; otherwise the unknown names are reported.
   */
  lemma ResolvesExactlyKnownReferences(v: string, secrets: map<string, string>)
    ensures ResolveSecretRefs(v, secrets) ==
      if forall n | n in Names(Pieces(v, 0)) :: n in secrets
      then Resolved(Rendered(Pieces(v, 0), ValueIn(secrets)))
      else Missing(Unknown(SecretRefs(v), secrets))
    ensures ResolveSecretRefs(v, secrets).Missing? ==> ResolveSecretRefs(v, secrets).names != []
    ensures ResolveSecretRefs(v, secrets).Resolved? ==>
      Substitutes(v, 0, ResolveSecretRefs(v, secrets).value, secrets)
  {
    if forall n | n in Names(Pieces(v, 0)) :: n in secrets {
      RenderedSubstitutes(v, 0, secrets);
    }
    RefsAreNames(v);
    UnknownAreNotKnown(SecretRefs(v), secrets);
    if SecretRefs(v) == [] {
      RenderedWithoutRefs(Pieces(v, 0), ValueIn(secrets), Reference);
      PiecesRoundTrip(v, 0);
      assert v[0..] == v;
    } else {
      assert SecretRefs(v)[0] in SecretRefs(v);
      if Unknown(SecretRefs(v), secrets) != [] {
        assert Unknown(SecretRefs(v), secrets)[0] in Unknown(SecretRefs(v), secrets);
      }
    }
  }

  // ---------------------------------------------------------------- distribution

  datatype Row = Row(key: string, value: string, secret: bool)

  datatype Entry = Entry(key: string, value: string, secret: bool, containsSecrets: bool)

  datatype Dropped = Dropped(key: string, missing: seq<string>)

  datatype Distribution = Distribution(entries: seq<Entry>, dropped: seq<Dropped>)

  /** What becomes of one row, looking every reference up in the store. */
  function WithRow(d: Distribution, row: Row, store: map<string, string>): Distribution {
    match ResolveSecretRefs(row.value, store)
    case Missing(names) => d.(dropped := d.dropped + [Dropped(row.key, names)])
    case Resolved(value) =>
      d.(entries := d.entries + [Entry(row.key, value, row.secret, SecretRefs(row.value) != [] || row.secret)])
  }

  function Distributed(rows: seq<Row>, store: map<string, string>): Distribution {
    if rows == [] then Distribution([], [])
    else WithRow(Distributed(rows[..|rows| - 1], store), rows[|rows| - 1], store)
  }

  /** A row is kept exactly when all its references are known. */
  ghost predicate Kept(row: Row, store: map<string, string>) {
    forall n | n in Names(Pieces(row.value, 0)) :: n in store
  }

  ghost function RowsWhere(rows: seq<Row>, kept: bool, store: map<string, string>): seq<Row> {
    if rows == [] then []
    else
      RowsWhere(rows[..|rows| - 1], kept, store)
      + if Kept(rows[|rows| - 1], store) == kept then [rows[|rows| - 1]] else []
  }

  ghost predicate EntryOf(e: Entry, row: Row, store: map<string, string>) {
    && e.key == row.key && e.secret == row.secret
    && Substitutes(row.value, 0, e.value, store)
    && (e.containsSecrets <==> row.secret || Names(Pieces(row.value, 0)) != [])
  }

  ghost predicate DroppedOf(d: Dropped, row: Row, store: map<string, string>) {
    && d.key == row.key && d.missing != [] && NoDuplicates(d.missing)
    && forall n :: n in d.missing <==> n in Names(Pieces(row.value, 0)) && n !in store
  }

  /** Entries and dropped rows partition the rows, each part in order. */
  ghost predicate Partitions(d: Distribution, rows: seq<Row>, store: map<string, string>) {
    var kept, lost := RowsWhere(rows, true, store), RowsWhere(rows, false, store);
    && |d.entries| == |kept| && (forall i | 0 <= i < |kept| :: EntryOf(d.entries[i], kept[i], store))
    && |d.dropped| == |lost| && (forall i | 0 <= i < |lost| :: DroppedOf(d.dropped[i], lost[i], store))
    && |kept| + |lost| == |rows|
  }

  lemma {:induction false} UnknownKeepsDistinct(names: seq<string>, secrets: map<string, string>)
    requires NoDuplicates(names)
    ensures NoDuplicates(Unknown(names, secrets))
    decreases |names|
  {
    if names != [] {
      var before := names[..|names| - 1];
      UnknownKeepsDistinct(before, secrets);
      UnknownAreNotKnown(before, secrets);
      assert names[|names| - 1] !in before;
    }
  }

  lemma RowDistributes(row: Row, store: map<string, string>)
    ensures match ResolveSecretRefs(row.value, store)
      case Missing(names) => !Kept(row, store) && DroppedOf(Dropped(row.key, names), row, store)
      case Resolved(value) =>
        Kept(row, store)
        && EntryOf(Entry(row.key, value, row.secret, SecretRefs(row.value) != [] || row.secret), row, store)
  {
    var names := Names(Pieces(row.value, 0));
    ResolvesExactlyKnownReferences(row.value, store);
    RefsAreNames(row.value);
    UnknownAreNotKnown(SecretRefs(row.value), store);
    UnknownKeepsDistinct(SecretRefs(row.value), store);
    if names != [] {
      assert names[0] in names;
    }
  }

  lemma {:induction false} DistributionPartitions(rows: seq<Row>, store: map<string, string>)
    ensures Partitions(Distributed(rows, store), rows, store)
    decreases |rows|
  {
    if rows != [] {
      DistributionPartitions(rows[..|rows| - 1], store);
      RowDistributes(rows[|rows| - 1], store);
    }
  }

  // ---------------------------------------------------------------- the cached loop

  /** The cache holds only what the store does. */
  ghost predicate CachesFrom(cache: map<string, string>, store: map<string, string>) {
    forall n | n in cache :: n in store && cache[n] == store[n]
  }

  /** The secrets of the names that the store knows. */
  ghost predicate Gathered(secrets: map<string, string>, names: seq<string>, store: map<string, string>) {
    && CachesFrom(secrets, store)
    && (forall n | n in names && n in store :: n in secrets)
  }

  /** The inner loop over a row's references, with the cache across rows. */
  method GatherSecrets(refs: seq<string>, cache: map<string, string>, store: map<string, string>)
    returns (secrets: map<string, string>, missing: seq<string>, cache': map<string, string>)
    requires CachesFrom(cache, store)
    ensures CachesFrom(cache', store) && Gathered(secrets, refs, store)
    ensures missing == Unknown(refs, store)
  {
    secrets, missing, cache' := map[], [], cache;
    for i := 0 to |refs|
      invariant CachesFrom(cache', store) && Gathered(secrets, refs[..i], store)
      invariant missing == Unknown(refs[..i], store)
    {
      assert refs[..i + 1][..i] == refs[..i];
      var name := refs[i];
      if name in cache' {
        secrets := secrets[name := cache'[name]];
      } else if name in store {
        cache' := cache'[name := store[name]];
        secrets := secrets[name := store[name]];
      } else {
        missing := missing + [name];
      }
    }
    assert refs[..|refs|] == refs;
  }

  /** With the gathered secrets a row resolves as with the whole store. */
  lemma GatheredResolves(v: string, secrets: map<string, string>, store: map<string, string>)
    requires Gathered(secrets, SecretRefs(v), store) && Unknown(SecretRefs(v), store) == []
    ensures ResolveSecretRefs(v, secrets) == ResolveSecretRefs(v, store)
    ensures ResolveSecretRefs(v, secrets).Resolved?
  {
    RefsAreNames(v);
    UnknownAreNotKnown(SecretRefs(v), store);
    UnknownAreNotKnown(SecretRefs(v), secrets);
    ResolvesExactlyKnownReferences(v, secrets);
    ResolvesExactlyKnownReferences(v, store);
    forall n | n in Names(Pieces(v, 0)) ensures n in secrets && ValueIn(secrets)(n) == ValueIn(store)(n) {
      assert n in SecretRefs(v) && n !in Unknown(SecretRefs(v), store);
    }
    RenderedWithoutRefs(Pieces(v, 0), ValueIn(secrets), ValueIn(store));
  }

  /** For a store that does not change, the cached loop builds what direct lookups would. */
  method BuildDistributionEntries(rows: seq<Row>, store: map<string, string>) returns (d: Distribution)
    ensures d == Distributed(rows, store)
  {
    d := Distribution([], []);
    var cache: map<string, string> := map[];
    for i := 0 to |rows|
      invariant CachesFrom(cache, store) && d == Distributed(rows[..i], store)
    {
      assert rows[..i + 1][..i] == rows[..i];
      cache, d := AddRow(rows[i], d, cache, store);
    }
    assert rows[..|rows|] == rows;
  }

  method AddRow(row: Row, d: Distribution, cache: map<string, string>, store: map<string, string>)
    returns (cache': map<string, string>, d': Distribution)
    requires CachesFrom(cache, store)
    ensures CachesFrom(cache', store) && d' == WithRow(d, row, store)
  {
    cache' := cache;
    var refs := ExtractSecretRefs(row.value);
    if |refs| == 0 {
      d' := d.(entries := d.entries + [Entry(row.key, row.value, row.secret, row.secret)]);
      return;
    }
    var secrets, missing;
    secrets, missing, cache' := GatherSecrets(refs, cache, store);
    if |missing| > 0 {
      d' := d.(dropped := d.dropped + [Dropped(row.key, missing)]);
      return;
    }
    GatheredResolves(row.value, secrets, store);
    match ResolveSecretRefs(row.value, secrets)
    case Missing(_) =>
      d' := d.(dropped := d.dropped + [Dropped(row.key, missing)]);
    case Resolved(value) =>
      d' := d.(entries := d.entries + [Entry(row.key, value, row.secret, true)]);
  }
}
