/**
 * Merging configuration layers by a specification of per-field rules, and what a cascade of layers
 * amounts to, path by path.
 */
module DeepMerge {
  import opened Options
  import opened Uniqueness

  datatype Value =
    | Undefined
    | Null
    | Scalar(text: string)
    | List(items: seq<Value>)
    | Record(fields: map<string, Value>)

  datatype Spec = Spec(
    replaceNullable: set<string>, replace: set<string>, mergeMaps: set<string>, mergeArrays: set<string>,
    merge: set<string>, deep: map<string, Spec>)

  /** Reading a field of null or undefined, or spreading what is not iterable. */
  datatype Failure = TypeError

  /** `v[key]` for a value of which a field may be read. */
  function FieldOf(v: Value, key: string): Value {
    if v.Record? && key in v.fields then v.fields[key] else Undefined
  }

  predicate Readable(v: Value) {
    !v.Undefined? && !v.Null?
  }

  /** `{...v}` */
  function Spread(v: Value): map<string, Value> {
    if v.Record? then v.fields else map[]
  }

  // ---------------------------------------------------------------- the merge

  datatype Rule = Replace | MergeMap | MergeArray | MergeRecord | Nested(spec: Spec)

  function RuleFor(spec: Spec, key: string, value: Value): (r: Rule)
    ensures r.MergeArray? ==> value.List?
    ensures r.MergeRecord? || r.Nested? ==> value.Record?
    ensures r.Nested? ==> key in spec.deep && r.spec == spec.deep[key]
  {
    if key in spec.replaceNullable || key in spec.replace then Replace
    else if key in spec.mergeMaps then MergeMap
    else if key in spec.mergeArrays && value.List? then MergeArray
    else if key in spec.merge && value.Record? then MergeRecord
    else if key in spec.deep && value.Record? then Nested(spec.deep[key])
    else if value.Record? then MergeRecord
    else Replace
  }

  /** Entries of the layer over entries of the base; null deletes. */
  function MergedEntries(base: map<string, Value>, entries: map<string, Value>): map<string, Value> {
    (base - (set k | k in entries && entries[k].Null?))
    + (map k | k in entries && Readable(entries[k]) :: entries[k])
  }

  /** `base[key] ?? []` as something to spread into an array. */
  function ItemsOf(v: Value): Result<seq<Value>, Failure> {
    match v
    case Undefined => Ok([])
    case Null => Ok([])
    case List(items) => Ok(items)
    case _ => Err(TypeError)
  }

  function Merged(base: Value, key: string, value: Value, spec: Spec): Result<Value, Failure>
    decreases value, 2
  {
    match RuleFor(spec, key, value)
    case Replace => Ok(value)
    case MergeMap =>
      if value.Null? then Ok(Record(map[]))
      else if value.Record? then
        if !Readable(base) then Err(TypeError)
        else Ok(Record(MergedEntries(Spread(FieldOf(base, key)), value.fields)))
      else Ok(value)
    case MergeArray =>
      if !Readable(base) then Err(TypeError)
      else
        (match ItemsOf(FieldOf(base, key))
         case Err(e) => Err(e)
         case Ok(items) => Ok(List(Dedup(items + value.items))))
    case MergeRecord =>
      if !Readable(base) then Err(TypeError) else Ok(Record(Spread(FieldOf(base, key)) + value.fields))
    case Nested(nested) =>
      if !Readable(base) then Err(TypeError)
      else Merge(FieldOf(base, key), value, nested)
  }

  /** What each field of a layer that is not undefined comes to. */
  function Outcomes(base: Value, layer: Value, spec: Spec): map<string, Result<Value, Failure>>
    requires layer.Record?
    decreases layer, 0
  {
    map k | k in layer.fields && !layer.fields[k].Undefined? :: Merged(base, k, layer.fields[k], spec)
  }

  /** The base with the fields among `keys` that came to a value. */
  function Overlaid(
      base: map<string, Value>, outcomes: map<string, Result<Value, Failure>>, keys: set<string>): map<string, Value>
  {
    base + map k | k in keys && k in outcomes && outcomes[k].Ok? :: outcomes[k].value
  }

  /** `deepMerge(base, layer, spec)` */
  function Merge(base: Value, layer: Value, spec: Spec): Result<Value, Failure>
    requires layer.Record?
    decreases layer, 1
  {
    var outcomes := Outcomes(base, layer, spec);
    if exists k | k in outcomes :: outcomes[k].Err? then Err(TypeError)
    else Ok(Record(Overlaid(Spread(base), outcomes, layer.fields.Keys)))
  }

  lemma MergedFieldIs(base: Value, layer: Value, spec: Spec, key: string)
    requires layer.Record? && Merge(base, layer, spec).Ok?
    ensures var v := FieldOf(layer, key);
      if v.Undefined? then FieldOf(Merge(base, layer, spec).value, key) == FieldOf(base, key)
      else Merged(base, key, v, spec) == Ok(FieldOf(Merge(base, layer, spec).value, key))
  {
    var v := FieldOf(layer, key);
    if !v.Undefined? {
      assert key in Outcomes(base, layer, spec);
    }
  }

  // ---------------------------------------------------------------- the effect of a layer on a path

  type Path = seq<string>

  function Get(v: Value, path: Path): Value
    decreases |path|
  {
    if path == [] then v else Get(FieldOf(v, path[0]), path[1..])
  }

  /**
   * What a layer does to the value at a path: nothing, give it a value, or add items to its list.
   * `Mixed` is for paths to a record of which the layer sets some fields.
   */
  datatype Effect = Silent | Sets(value: Value) | Adds(items: seq<Value>) | Mixed

  function EffectOf(spec: Spec, layer: Value, path: Path): Effect
    requires path != []
    decreases |path|
  {
    var v, rest := FieldOf(layer, path[0]), path[1..];
    if v.Undefined? then Silent
    else
      match RuleFor(spec, path[0], v)
      case Replace => Sets(Get(v, rest))
      case MergeMap =>
        if v.Null? then Sets(Get(Record(map[]), rest))
        else if !v.Record? then Sets(Get(v, rest))
        else if rest == [] then Mixed
        else
          var entry := FieldOf(v, rest[0]);
          if entry.Undefined? then Silent
          else if entry.Null? then Sets(Undefined)
          else Sets(Get(entry, rest[1..]))
      case MergeArray => if rest == [] then Adds(v.items) else Mixed
      case MergeRecord =>
        if rest == [] then Mixed
        else if rest[0] in v.fields then Sets(Get(v.fields[rest[0]], rest[1..]))
        else Silent
      case Nested(nested) => if rest == [] then Mixed else EffectOf(nested, v, rest)
  }

  function ListItems(v: Value): seq<Value> {
    if v.List? then v.items else []
  }

  function Applied(before: Value, e: Effect): Value {
    match e
    case Silent => before
    case Sets(v) => v
    case Adds(items) => List(Dedup(ListItems(before) + items))
    case Mixed => before
  }

  lemma GetOfUndefined(path: Path)
    ensures Get(Undefined, path) == Undefined
    decreases |path|
  {
    if path != [] {
      GetOfUndefined(path[1..]);
    }
  }

  lemma GetOfSpread(v: Value, path: Path)
    requires path != []
    ensures Get(Record(Spread(v)), path) == Get(v, path)
  {
  }

  lemma MapEffect(base: Value, key: string, v: Value, spec: Spec, path: Path, after: Value)
    requires path != [] && path[0] == key && v.Record? && !EffectOf(spec, Record(map[key := v]), path).Mixed?
    requires RuleFor(spec, key, v) == MergeMap && Merged(base, key, v, spec) == Ok(after)
    ensures Get(after, path[1..]) == Applied(Get(base, path), EffectOf(spec, Record(map[key := v]), path))
  {
    var rest := path[1..];
    GetOfUndefined(rest[1..]);
    GetOfSpread(FieldOf(base, key), rest);
  }

  /** One field of a layer: the value after the merge is the one the effect describes. */
  lemma FieldEffect(base: Value, layer: Value, spec: Spec, path: Path, after: Value)
    requires path != [] && layer.Record? && !EffectOf(spec, layer, path).Mixed?
    requires !FieldOf(layer, path[0]).Undefined?
    requires Merged(base, path[0], FieldOf(layer, path[0]), spec) == Ok(after)
    ensures Get(after, path[1..]) == Applied(Get(base, path), EffectOf(spec, layer, path))
    decreases |path|, 0
  {
    var key, v, rest := path[0], FieldOf(layer, path[0]), path[1..];
    match RuleFor(spec, key, v)
    case Replace =>
    case MergeMap =>
      if v.Record? {
        assert FieldOf(Record(map[key := v]), key) == v;
        assert EffectOf(spec, Record(map[key := v]), path) == EffectOf(spec, layer, path);
        MapEffect(base, key, v, spec, path, after);
      }
    case MergeArray =>
      assert Get(base, path) == FieldOf(base, key);
    case MergeRecord =>
      GetOfSpread(FieldOf(base, key), rest);
    case Nested(nested) =>
      MergeEffect(FieldOf(base, key), v, nested, rest);
  }

  /** After a merge every path holds what the layer's effect on it makes of the value before. */
  lemma {:induction false} MergeEffect(base: Value, layer: Value, spec: Spec, path: Path)
    requires path != [] && layer.Record? && !EffectOf(spec, layer, path).Mixed?
    requires Merge(base, layer, spec).Ok?
    ensures Get(Merge(base, layer, spec).value, path) == Applied(Get(base, path), EffectOf(spec, layer, path))
    decreases |path|, 1
  {
    var after := FieldOf(Merge(base, layer, spec).value, path[0]);
    MergedFieldIs(base, layer, spec, path[0]);
    if !FieldOf(layer, path[0]).Undefined? {
      FieldEffect(base, layer, spec, path, after);
    }
  }

  // ---------------------------------------------------------------- each rule in the specification's own terms

  /** The layer gives the field a value, and no rule of higher precedence than maps takes it. */
  ghost predicate Ruled(layer: Value, spec: Spec, key: string) {
    !FieldOf(layer, key).Undefined? && key !in spec.replaceNullable && key !in spec.replace
  }

  /** Fields that a layer does not have, or has as undefined, keep the base's value. */
  lemma UnmentionedFieldStays(base: Value, layer: Value, spec: Spec, key: string)
    requires layer.Record? && Merge(base, layer, spec).Ok? && FieldOf(layer, key).Undefined?
    ensures FieldOf(Merge(base, layer, spec).value, key) == FieldOf(base, key)
  {
    MergedFieldIs(base, layer, spec, key);
  }

  /** Fields listed as replaced take the layer's value, whatever it is and however else they are listed. */
  lemma ReplacedFieldIsLayers(base: Value, layer: Value, spec: Spec, key: string)
    requires layer.Record? && Merge(base, layer, spec).Ok? && !FieldOf(layer, key).Undefined?
    requires key in spec.replaceNullable || key in spec.replace
    ensures FieldOf(Merge(base, layer, spec).value, key) == FieldOf(layer, key)
  {
    MergedFieldIs(base, layer, spec, key);
  }

  /** An entry of a merged map: null deletes, undefined is skipped, a value is set, and others are the base's. */
  ghost predicate EntryMerged(before: Value, v: Value, merged: Value, entry: string)
    requires v.Record? && merged.Record?
  {
    if entry !in v.fields || v.fields[entry].Undefined? then
      && (entry in merged.fields <==> before.Record? && entry in before.fields)
      && (entry in merged.fields ==> merged.fields[entry] == before.fields[entry])
    else if v.fields[entry].Null? then entry !in merged.fields
    else entry in merged.fields && merged.fields[entry] == v.fields[entry]
  }

  /** Fields listed as maps: null clears, a record is merged entry by entry, anything else replaces. */
  lemma MapFieldIsMerged(base: Value, layer: Value, spec: Spec, key: string)
    requires layer.Record? && Merge(base, layer, spec).Ok? && Ruled(layer, spec, key) && key in spec.mergeMaps
    ensures var v, merged := FieldOf(layer, key), FieldOf(Merge(base, layer, spec).value, key);
      && (v.Null? ==> merged == Record(map[]))
      && (v.Scalar? || v.List? ==> merged == v)
      && (v.Record? ==>
            merged.Record? && forall entry :: EntryMerged(FieldOf(base, key), v, merged, entry))
  {
    MergedFieldIs(base, layer, spec, key);
  }

  /** Lists of fields listed as arrays are united with the base's. */
  lemma ArrayFieldIsUnited(base: Value, layer: Value, spec: Spec, key: string)
    requires layer.Record? && Merge(base, layer, spec).Ok? && Ruled(layer, spec, key)
    requires key !in spec.mergeMaps && key in spec.mergeArrays && FieldOf(layer, key).List?
    ensures var before, merged := FieldOf(base, key), FieldOf(Merge(base, layer, spec).value, key);
      && (before.Undefined? || before.Null? || before.List?)
      && merged.List? && NoDuplicates(merged.items)
      && (forall x :: x in merged.items <==> x in ListItems(before) || x in FieldOf(layer, key).items)
      && merged.items == Dedup(ListItems(before) + FieldOf(layer, key).items)
  {
    MergedFieldIs(base, layer, spec, key);
    DedupKeepsFirst(ListItems(FieldOf(base, key)) + FieldOf(layer, key).items);
  }

  /** A field has a record that is spread over the base's: listed for that, or listed for no rule that fits. */
  ghost predicate SpreadOver(layer: Value, spec: Spec, key: string) {
    && Ruled(layer, spec, key) && key !in spec.mergeMaps && FieldOf(layer, key).Record?
    && (key in spec.merge || key !in spec.deep)
  }

  /**
   * Such a record keeps the base's value on every path through a field that the layer's record does not
   * have, and has the layer's on every other.
   */
  lemma RecordFieldIsSpread(base: Value, layer: Value, spec: Spec, key: string, f: string, rest: Path)
    requires layer.Record? && Merge(base, layer, spec).Ok? && SpreadOver(layer, spec, key)
    ensures var v, after := FieldOf(layer, key), Merge(base, layer, spec).value;
      && FieldOf(after, key).Record?
      && Get(after, [key, f] + rest) == if f in v.fields then Get(v.fields[f], rest) else Get(base, [key, f] + rest)
  {
    var after := Merge(base, layer, spec).value;
    MergedFieldIs(base, layer, spec, key);
    GetThrough(after, key, f, rest);
    GetThrough(base, key, f, rest);
  }

  lemma GetThrough(v: Value, key: string, f: string, rest: Path)
    ensures Get(v, [key, f] + rest) == Get(FieldOf(FieldOf(v, key), f), rest)
  {
    var path := [key, f] + rest;
    assert path[1..] == [f] + rest && path[1..][1..] == rest;
    assert Get(v, path) == Get(FieldOf(v, key), path[1..]);
    assert Get(FieldOf(v, key), path[1..]) == Get(FieldOf(FieldOf(v, key), f), path[1..][1..]);
  }

  /** Records of fields with rules of their own are merged by those rules. */
  lemma NestedFieldIsMerged(base: Value, layer: Value, spec: Spec, key: string)
    requires layer.Record? && Merge(base, layer, spec).Ok? && Ruled(layer, spec, key)
    requires key !in spec.mergeMaps && key !in spec.merge && key in spec.deep && FieldOf(layer, key).Record?
    ensures Merge(FieldOf(base, key), FieldOf(layer, key), spec.deep[key])
         == Ok(FieldOf(Merge(base, layer, spec).value, key))
  {
    MergedFieldIs(base, layer, spec, key);
  }

  /** Scalars and null, and lists of fields not listed as arrays, replace unless the field is a map. */
  lemma OtherFieldIsLayers(base: Value, layer: Value, spec: Spec, key: string)
    requires layer.Record? && Merge(base, layer, spec).Ok? && Ruled(layer, spec, key) && key !in spec.mergeMaps
    requires !FieldOf(layer, key).Record? && (FieldOf(layer, key).List? ==> key !in spec.mergeArrays)
    ensures FieldOf(Merge(base, layer, spec).value, key) == FieldOf(layer, key)
  {
    MergedFieldIs(base, layer, spec, key);
  }

  /** Merging this field throws: a field of nothing is read, or what is no list is spread into one. */
  ghost predicate FieldThrows(base: Value, key: string, v: Value, spec: Spec)
    decreases v
  {
    && !v.Undefined? && key !in spec.replaceNullable && key !in spec.replace
    && if key in spec.mergeMaps then v.Record? && !Readable(base)
       else if key in spec.mergeArrays && v.List? then
         !Readable(base) || FieldOf(base, key).Scalar? || FieldOf(base, key).Record?
       else
         && v.Record?
         && (|| !Readable(base)
             || (&& key !in spec.merge && key in spec.deep
                 && exists k | k in v.fields :: FieldThrows(FieldOf(base, key), k, v.fields[k], spec.deep[key])))
  }

  lemma {:induction false} FieldThrowsIfMerged(base: Value, key: string, v: Value, spec: Spec)
    requires !v.Undefined?
    ensures Merged(base, key, v, spec).Err? <==> FieldThrows(base, key, v, spec)
    decreases v, 1
  {
    if v.Record? && key in spec.deep {
      ThrowsExactlyWhenAFieldDoes(FieldOf(base, key), v, spec.deep[key]);
    }
  }

  /** A merge throws exactly when one of its fields does. */
  lemma {:induction false} ThrowsExactlyWhenAFieldDoes(base: Value, layer: Value, spec: Spec)
    requires layer.Record?
    ensures Merge(base, layer, spec).Err? <==>
      exists k | k in layer.fields :: FieldThrows(base, k, layer.fields[k], spec)
    decreases layer, 0
  {
    var outcomes := Outcomes(base, layer, spec);
    forall k | k in layer.fields && !layer.fields[k].Undefined?
      ensures k in outcomes && (outcomes[k].Err? <==> FieldThrows(base, k, layer.fields[k], spec))
    {
      FieldThrowsIfMerged(base, k, layer.fields[k], spec);
    }
    assert forall k | k in outcomes :: k in layer.fields && !layer.fields[k].Undefined?;
  }

  // ---------------------------------------------------------------- cascades

  function Cascade(base: Value, layers: seq<Value>, spec: Spec): Result<Value, Failure>
    requires forall l | l in layers :: l.Record?
  {
    if layers == [] then Ok(base)
    else
      match Cascade(base, layers[..|layers| - 1], spec)
      case Err(e) => Err(e)
      case Ok(below) => Merge(below, layers[|layers| - 1], spec)
  }

  ghost predicate Decided(spec: Spec, layers: seq<Value>, path: Path)
    requires path != []
  {
    forall i | 0 <= i < |layers| :: !EffectOf(spec, layers[i], path).Mixed?
  }

  /** The effects of the layers, one after the other. */
  function AppliedAll(before: Value, spec: Spec, layers: seq<Value>, path: Path): Value
    requires path != []
  {
    if layers == [] then before
    else
      Applied(AppliedAll(before, spec, layers[..|layers| - 1], path), EffectOf(spec, layers[|layers| - 1], path))
  }

  lemma {:induction false} CascadeEffect(base: Value, layers: seq<Value>, spec: Spec, path: Path)
    requires (forall l | l in layers :: l.Record?) && path != [] && Decided(spec, layers, path)
    requires Cascade(base, layers, spec).Ok?
    ensures Get(Cascade(base, layers, spec).value, path) == AppliedAll(Get(base, path), spec, layers, path)
    decreases |layers|
  {
    if layers != [] {
      var below, last := layers[..|layers| - 1], layers[|layers| - 1];
      assert Decided(spec, below, path) by {
        assert forall i | 0 <= i < |below| :: below[i] == layers[i];
      }
      CascadeEffect(base, below, spec, path);
      MergeEffect(Cascade(base, below, spec).value, last, spec, path);
    }
  }

  /** The index of the last layer that sets the path, or -1. */
  function LastSetting(spec: Spec, layers: seq<Value>, path: Path): (k: int)
    requires path != []
    ensures -1 <= k < |layers|
    ensures k >= 0 ==> EffectOf(spec, layers[k], path).Sets?
    ensures forall i | k < i < |layers| :: !EffectOf(spec, layers[i], path).Sets?
  {
    if layers == [] then -1
    else if EffectOf(spec, layers[|layers| - 1], path).Sets? then |layers| - 1
    else LastSetting(spec, layers[..|layers| - 1], path)
  }

  /** The items the layers add to the list at a path, in the order of the layers. */
  function Added(spec: Spec, layers: seq<Value>, path: Path): seq<Value>
    requires path != []
  {
    if layers == [] then []
    else
      var e := EffectOf(spec, layers[|layers| - 1], path);
      Added(spec, layers[..|layers| - 1], path) + if e.Adds? then e.items else []
  }

  ghost predicate AddsSome(spec: Spec, layers: seq<Value>, path: Path)
    requires path != []
  {
    exists i :: 0 <= i < |layers| && EffectOf(spec, layers[i], path).Adds?
  }

  /**
   * A path at which no list is merged has the value of the last layer that mentions it, and the
   * base's value when no layer does: null entries of a map are gone, null maps empty.
   */
  lemma {:induction false} LastMentionWins(base: Value, layers: seq<Value>, spec: Spec, path: Path)
    requires (forall l | l in layers :: l.Record?) && path != [] && Decided(spec, layers, path)
    requires Cascade(base, layers, spec).Ok? && !AddsSome(spec, layers, path)
    ensures var k := LastSetting(spec, layers, path);
      Get(Cascade(base, layers, spec).value, path)
      == if k < 0 then Get(base, path) else EffectOf(spec, layers[k], path).value
  {
    CascadeEffect(base, layers, spec, path);
    AppliedIsLast(Get(base, path), spec, layers, path);
  }

  lemma {:induction false} AppliedIsLast(before: Value, spec: Spec, layers: seq<Value>, path: Path)
    requires path != [] && Decided(spec, layers, path) && !AddsSome(spec, layers, path)
    ensures var k := LastSetting(spec, layers, path);
      AppliedAll(before, spec, layers, path) == if k < 0 then before else EffectOf(spec, layers[k], path).value
    decreases |layers|
  {
    if layers != [] {
      var below := layers[..|layers| - 1];
      assert forall i | 0 <= i < |below| :: below[i] == layers[i];
      AppliedIsLast(before, spec, below, path);
      assert !EffectOf(spec, layers[|layers| - 1], path).Adds?;
    }
  }

  /** Merged arrays are the duplicate-free union of the base's items and all layers', by first occurrence. */
  lemma {:induction false} ArraysAreUnited(base: Value, layers: seq<Value>, spec: Spec, path: Path)
    requires (forall l | l in layers :: l.Record?) && path != [] && Decided(spec, layers, path)
    requires Cascade(base, layers, spec).Ok?
    requires LastSetting(spec, layers, path) < 0 && AddsSome(spec, layers, path)
    ensures Get(Cascade(base, layers, spec).value, path)
         == List(Dedup(ListItems(Get(base, path)) + Added(spec, layers, path)))
  {
    CascadeEffect(base, layers, spec, path);
    AppliedIsUnion(Get(base, path), spec, layers, path);
  }

  function United(before: Value, some: bool, added: seq<Value>): Value {
    if some then List(Dedup(ListItems(before) + added)) else before
  }

  lemma UnitedOneMore(before: Value, some: bool, added: seq<Value>, items: seq<Value>)
    requires !some ==> added == []
    ensures Applied(United(before, some, added), Adds(items)) == United(before, true, added + items)
  {
    if some {
      DedupAbsorbs(ListItems(before) + added, items);
      assert ListItems(before) + added + items == ListItems(before) + (added + items);
    } else {
      assert added + items == items;
    }
  }

  lemma AddsSomeOneMore(spec: Spec, layers: seq<Value>, path: Path)
    requires path != [] && layers != []
    ensures AddsSome(spec, layers, path) <==>
      AddsSome(spec, layers[..|layers| - 1], path) || EffectOf(spec, layers[|layers| - 1], path).Adds?
  {
    var below := layers[..|layers| - 1];
    assert forall i | 0 <= i < |below| :: below[i] == layers[i];
    if AddsSome(spec, below, path) {
      var i :| 0 <= i < |below| && EffectOf(spec, below[i], path).Adds?;
      assert EffectOf(spec, layers[i], path).Adds?;
    }
  }

  lemma {:induction false} AppliedIsUnion(before: Value, spec: Spec, layers: seq<Value>, path: Path)
    requires path != [] && Decided(spec, layers, path) && LastSetting(spec, layers, path) < 0
    ensures AppliedAll(before, spec, layers, path)
         == United(before, AddsSome(spec, layers, path), Added(spec, layers, path))
    decreases |layers|
  {
    if layers == [] {
      assert !AddsSome(spec, layers, path);
    } else {
      var below, e := layers[..|layers| - 1], EffectOf(spec, layers[|layers| - 1], path);
      assert Decided(spec, below, path) by {
        assert forall i | 0 <= i < |below| :: below[i] == layers[i];
      }
      AppliedIsUnion(before, spec, below, path);
      AddsSomeOneMore(spec, layers, path);
      if e.Adds? {
        if !AddsSome(spec, below, path) {
          NothingAdded(spec, below, path);
        }
        UnitedOneMore(before, AddsSome(spec, below, path), Added(spec, below, path), e.items);
      } else {
        assert Added(spec, layers, path) == Added(spec, below, path);
      }
    }
  }

  lemma {:induction false} NothingAdded(spec: Spec, layers: seq<Value>, path: Path)
    requires path != [] && !AddsSome(spec, layers, path)
    ensures Added(spec, layers, path) == []
    decreases |layers|
  {
    if layers != [] {
      var below := layers[..|layers| - 1];
      assert forall i | 0 <= i < |below| :: below[i] == layers[i];
      NothingAdded(spec, below, path);
      assert !EffectOf(spec, layers[|layers| - 1], path).Adds?;
    }
  }

  // ---------------------------------------------------------------- when a cascade succeeds

  /** A base that holds a record for every nested rule, and nothing but lists where arrays are merged. */
  ghost predicate Carries(base: Value, spec: Spec)
    decreases spec
  {
    && base.Record?
    && (forall k | k in spec.deep :: Carries(FieldOf(base, k), spec.deep[k]))
    && (forall k | k in spec.mergeArrays :: ItemsOf(FieldOf(base, k)).Ok?)
  }

  /** A layer that gives records where the rules nest, and lists where arrays are merged. */
  ghost predicate Respects(layer: Value, spec: Spec)
    decreases layer
  {
    && layer.Record?
    && forall k | k in layer.fields && !layer.fields[k].Undefined? ::
         && (k in spec.mergeArrays ==> RuleFor(spec, k, layer.fields[k]).MergeArray?)
         && (k in spec.deep ==>
               RuleFor(spec, k, layer.fields[k]).Nested? && Respects(layer.fields[k], spec.deep[k]))
  }

  lemma {:induction false} FieldSucceeds(base: Value, key: string, value: Value, spec: Spec)
    requires Carries(base, spec) && !value.Undefined?
    requires key in spec.mergeArrays ==> RuleFor(spec, key, value).MergeArray?
    requires key in spec.deep ==> RuleFor(spec, key, value).Nested? && Respects(value, spec.deep[key])
    requires RuleFor(spec, key, value).MergeArray? ==> key in spec.mergeArrays
    ensures Merged(base, key, value, spec).Ok?
    ensures key in spec.deep ==> Carries(Merged(base, key, value, spec).value, spec.deep[key])
    ensures key in spec.mergeArrays ==> ItemsOf(Merged(base, key, value, spec).value).Ok?
    decreases value, 1
  {
    if RuleFor(spec, key, value).Nested? {
      MergeSucceeds(FieldOf(base, key), value, spec.deep[key]);
    }
  }

  /** On such bases every merge succeeds, and leaves such a base for the next layer. */
  lemma {:induction false} MergeSucceeds(base: Value, layer: Value, spec: Spec)
    requires Carries(base, spec) && Respects(layer, spec)
    ensures Merge(base, layer, spec).Ok? && Carries(Merge(base, layer, spec).value, spec)
    decreases layer, 0
  {
    forall k | k in layer.fields && !layer.fields[k].Undefined?
      ensures Merged(base, k, layer.fields[k], spec).Ok?
      ensures k in spec.deep ==> Carries(Merged(base, k, layer.fields[k], spec).value, spec.deep[k])
      ensures k in spec.mergeArrays ==> ItemsOf(Merged(base, k, layer.fields[k], spec).value).Ok?
    {
      FieldSucceeds(base, k, layer.fields[k], spec);
    }
    assert forall k | k in Outcomes(base, layer, spec) :: Outcomes(base, layer, spec)[k].Ok?;
    var after := Merge(base, layer, spec).value;
    forall k | k in spec.deep ensures Carries(FieldOf(after, k), spec.deep[k]) {
      MergedFieldIs(base, layer, spec, k);
    }
    forall k | k in spec.mergeArrays ensures ItemsOf(FieldOf(after, k)).Ok? {
      MergedFieldIs(base, layer, spec, k);
    }
  }

  lemma {:induction false} CascadeSucceeds(base: Value, layers: seq<Value>, spec: Spec)
    requires Carries(base, spec) && forall l | l in layers :: Respects(l, spec)
    ensures forall l | l in layers :: l.Record?
    ensures Cascade(base, layers, spec).Ok? && Carries(Cascade(base, layers, spec).value, spec)
    decreases |layers|
  {
    if layers != [] {
      CascadeSucceeds(base, layers[..|layers| - 1], spec);
      MergeSucceeds(Cascade(base, layers[..|layers| - 1], spec).value, layers[|layers| - 1], spec);
    }
  }

  // ---------------------------------------------------------------- the loops

  /** `[...new Set(items)]` */
  method Unique(items: seq<Value>) returns (out: seq<Value>)
    ensures out == Dedup(items)
  {
    out := [];
    for i := 0 to |items|
      invariant out == Dedup(items[..i])
    {
      assert items[..i + 1][..i] == items[..i];
      if items[i] !in out {
        out := out + [items[i]];
      }
    }
    assert items[..|items|] == items;
  }

  /** The loop over the entries of a map: null deletes, a value sets. */
  method MergeEntries(base: map<string, Value>, entries: map<string, Value>) returns (merged: map<string, Value>)
    ensures merged == MergedEntries(base, entries)
  {
    merged := base;
    var rest := entries.Keys;
    while rest != {}
      invariant rest <= entries.Keys
      invariant forall k | k in entries.Keys - rest ::
        if entries[k].Null? then k !in merged
        else if entries[k].Undefined? then (k in merged <==> k in base) && (k in base ==> merged[k] == base[k])
        else k in merged && merged[k] == entries[k]
      invariant forall k | k !in entries.Keys - rest ::
        (k in merged <==> k in base) && (k in base ==> merged[k] == base[k])
      decreases |rest|
    {
      var key :| key in rest;
      rest := rest - {key};
      if entries[key].Null? {
        merged := merged - {key};
      } else if !entries[key].Undefined? {
        merged := merged[key := entries[key]];
      }
    }
  }

  method MergeField(base: Value, key: string, value: Value, spec: Spec) returns (r: Result<Value, Failure>)
    ensures r == Merged(base, key, value, spec)
    decreases value, 2
  {
    if key in spec.replaceNullable || key in spec.replace {
      return Ok(value);
    }
    if key in spec.mergeMaps {
      if value.Null? {
        return Ok(Record(map[]));
      }
      if !value.Record? {
        return Ok(value);
      }
      if !Readable(base) {
        return Err(TypeError);
      }
      var merged := MergeEntries(Spread(FieldOf(base, key)), value.fields);
      return Ok(Record(merged));
    }
    if key in spec.mergeArrays && value.List? {
      if !Readable(base) {
        return Err(TypeError);
      }
      var items := ItemsOf(FieldOf(base, key));
      if items.Err? {
        return Err(TypeError);
      }
      var unique := Unique(items.value + value.items);
      return Ok(List(unique));
    }
    if key !in spec.merge && key in spec.deep && value.Record? {
      if !Readable(base) {
        return Err(TypeError);
      }
      r := DeepMerge(FieldOf(base, key), value, spec.deep[key]);
      return;
    }
    if value.Record? {
      return if Readable(base) then Ok(Record(Spread(FieldOf(base, key)) + value.fields)) else Err(TypeError);
    }
    return Ok(value);
  }

  lemma OverlaidOneMore(
      base: map<string, Value>, outcomes: map<string, Result<Value, Failure>>, keys: set<string>, key: string)
    requires key !in keys
    ensures Overlaid(base, outcomes, keys + {key})
         == if key in outcomes && outcomes[key].Ok? then Overlaid(base, outcomes, keys)[key := outcomes[key].value]
            else Overlaid(base, outcomes, keys)
  {
  }

  lemma OverlaidNothing(base: map<string, Value>, outcomes: map<string, Result<Value, Failure>>)
    ensures Overlaid(base, outcomes, {}) == base
  {
  }

  lemma MergeFails(base: Value, layer: Value, spec: Spec, key: string)
    requires layer.Record? && key in Outcomes(base, layer, spec) && Outcomes(base, layer, spec)[key].Err?
    ensures Merge(base, layer, spec) == Err(TypeError)
  {
  }

  lemma MergeSucceedsWith(base: Value, layer: Value, spec: Spec, outcomes: map<string, Result<Value, Failure>>)
    requires layer.Record? && outcomes == Outcomes(base, layer, spec)
    requires forall k | k in layer.fields.Keys && k in outcomes :: outcomes[k].Ok?
    ensures Merge(base, layer, spec) == Ok(Record(Overlaid(Spread(base), outcomes, layer.fields.Keys)))
  {
  }

  /** One field: its outcome, if it has one. */
  method MergeKey(base: Value, layer: Value, spec: Spec, key: string) returns (o: Option<Result<Value, Failure>>)
    requires layer.Record? && key in layer.fields
    ensures var outcomes := Outcomes(base, layer, spec);
      o == if key in outcomes then Some(outcomes[key]) else None
    decreases layer, 0
  {
    var value := layer.fields[key];
    if value.Undefined? {
      return None;
    }
    var merged := MergeField(base, key, value, spec);
    return Some(merged);
  }

  /** The loop over the layer's keys, in whatever order they come. */
  method DeepMerge(base: Value, layer: Value, spec: Spec) returns (r: Result<Value, Failure>)
    requires layer.Record?
    ensures r == Merge(base, layer, spec)
    decreases layer, 1
  {
    ghost var outcomes := Outcomes(base, layer, spec);
    var result := Spread(base);
    var rest := layer.fields.Keys;
    ghost var done: set<string> := {};
    OverlaidNothing(result, outcomes);
    while rest != {}
      invariant rest <= layer.fields.Keys && done == layer.fields.Keys - rest
      invariant forall k | k in done && k in outcomes :: outcomes[k].Ok?
      invariant result == Overlaid(Spread(base), outcomes, done)
      decreases |rest|
    {
      var key :| key in rest;
      var merged := MergeKey(base, layer, spec, key);
      if merged.Some? {
        if merged.value.Err? {
          MergeFails(base, layer, spec, key);
          return Err(TypeError);
        }
        result := result[key := merged.value.value];
      }
      OverlaidOneMore(Spread(base), outcomes, done, key);
      done, rest := done + {key}, rest - {key};
    }
    assert done == layer.fields.Keys;
    MergeSucceedsWith(base, layer, spec, outcomes);
    return Ok(Record(result));
  }
}
