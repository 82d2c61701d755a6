/** The model factory: how each kind of model property is generated, how the
    fluent factory maps property names to record keys, and how the synthetic
    record of a new model is assembled from generated values and from ids of
    parent rows that already exist. */
module ModelFactory {
  import opened Values
  import opened Store

  /** The type of a generated value: a scalar, an enum (generated from its
      registered cases) or a nested structure. */
  datatype TypeRef = Scalar(name: string) | EnumType(name: string) | Nested(name: string)

  /** The property wrappers a Fluent model declares, one constructor per kind.
      `PlainProperty` is a property whose type has no generation strategy. */
  datatype PropertyKind =
    | IdProperty
    | FieldProperty(valueType: TypeRef)
    | OptionalFieldProperty
    | EnumProperty(valueType: TypeRef)
    | OptionalEnumProperty
    | GroupProperty(valueType: TypeRef)
    | ParentProperty(target: string)
    | OptionalParentProperty(target: string)
    | ChildrenProperty
    | OptionalChildProperty
    | SiblingsProperty
    | TimestampProperty
    | PlainProperty(valueType: TypeRef)

  /** A declared property: its stored name (`_name` for a property wrapper) and its kind. */
  datatype Property = Property(name: string, kind: PropertyKind)

  /** A model type with the properties it declares, in declaration order. */
  datatype ModelType = ModelType(name: string, properties: seq<Property>)

  datatype GenerationStrategy =
    | Skip
    | Factory(generatedType: TypeRef)
    | Custom(output: Value)
    | AsyncGenerator(target: string)

  /** The strategy each property kind declares; none for a property type that
      is not generatable. */
  function Strategy(kind: PropertyKind): (s: Option<GenerationStrategy>)
    ensures s.None? <==> kind.PlainProperty?
    ensures s == Some(Skip) <==>
              kind.IdProperty? || kind.OptionalFieldProperty? || kind.OptionalEnumProperty? ||
              kind.TimestampProperty? || kind.ChildrenProperty? || kind.OptionalChildProperty? ||
              kind.SiblingsProperty?
    ensures (s.Some? && s.value.Factory?) <==> kind.FieldProperty? || kind.EnumProperty? || kind.GroupProperty?
    ensures s.Some? && s.value.Factory? ==> s.value.generatedType == kind.valueType
    ensures (s.Some? && s.value.AsyncGenerator?) <==> kind.ParentProperty?
    ensures kind.ParentProperty? ==> s == Some(AsyncGenerator(kind.target))
    ensures (s.Some? && s.value.Custom?) <==> kind.OptionalParentProperty?
    ensures kind.OptionalParentProperty? ==> s == Some(Custom(Obj(map["id" := Null])))
  {
    match kind
    case IdProperty => Some(Skip)
    case FieldProperty(t) => Some(Factory(t))
    case OptionalFieldProperty => Some(Skip)
    case EnumProperty(t) => Some(Factory(t))
    case OptionalEnumProperty => Some(Skip)
    case ParentProperty(target) => Some(AsyncGenerator(target))
    case GroupProperty(t) => Some(Factory(t))
    case TimestampProperty => Some(Skip)
    case OptionalParentProperty(_) => Some(Custom(Obj(map["id" := Null])))
    case ChildrenProperty => Some(Skip)
    case OptionalChildProperty => Some(Skip)
    case SiblingsProperty => Some(Skip)
    case PlainProperty(_) => None
  }

  /** The fluent factory's key mapper: a property wrapper stores `name` as
      `_name`, and the record key drops that one leading underscore. */
  function MapKey(key: string): (r: string)
    ensures |key| > 0 && key[0] == '_' ==> key == "_" + r
    ensures !(|key| > 0 && key[0] == '_') ==> r == key
  {
    if |key| > 0 && key[0] == '_' then key[1..] else key
  }

  lemma MapKeyUndoesUnderscore(key: string)
    ensures MapKey("_" + key) == key
  {
  }

  lemma MapKeyIsNotIdempotent()
    ensures MapKey("__a") == "_a" && MapKey(MapKey("__a")) == "a"
  {
  }

  function Key(p: Property): string
  {
    MapKey(p.name)
  }

  function KeysOf(props: seq<Property>): set<string>
  {
    set i | 0 <= i < |props| :: Key(props[i])
  }

  /** No later property maps to the same key as `props[i]`. */
  predicate LastWithKey(props: seq<Property>, i: nat)
    requires i < |props|
  {
    forall j :: i < j < |props| ==> Key(props[j]) != Key(props[i])
  }

  /** No earlier parent property maps to the same key as `props[i]`. */
  predicate FirstAsyncWithKey(props: seq<Property>, i: nat)
    requires i < |props|
  {
    forall j :: 0 <= j < i && IsAsync(props[j]) ==> Key(props[j]) != Key(props[i])
  }

  /** The mapped names of the parent properties. */
  function AsyncKeys(props: seq<Property>): set<string>
  {
    set i | 0 <= i < |props| && IsAsync(props[i]) :: Key(props[i])
  }

  predicate DistinctKeys(props: seq<Property>)
  {
    forall i, j :: 0 <= i < j < |props| ==> Key(props[i]) != Key(props[j])
  }

  /** What the fluent factory's override produces for a property: a fixed
      value, or a random value of a type. */
  datatype Generation = Explicit(value: Value) | RandomOf(valueType: TypeRef)

  /** The fluent factory's override closure; `None` leaves the property to the
      default generation. */
  function Override(p: Property): (r: Option<Generation>)
    ensures r.None? <==> p.kind.PlainProperty?
    ensures r == Some(Explicit(Null)) <==>
              Strategy(p.kind) == Some(Skip) || p.kind.ParentProperty?
    ensures (r.Some? && r.value.RandomOf?) <==> p.kind.FieldProperty? || p.kind.EnumProperty? || p.kind.GroupProperty?
    ensures r.Some? && r.value.RandomOf? ==> r.value.valueType == p.kind.valueType
    ensures p.kind.OptionalParentProperty? ==> r == Some(Explicit(Obj(map["id" := Null])))
  {
    match Strategy(p.kind)
    case None => None
    case Some(Skip) => Some(Explicit(Null))
    case Some(AsyncGenerator(_)) => Some(Explicit(Null))
    case Some(Factory(t)) => Some(RandomOf(t))
    case Some(Custom(out)) => Some(Explicit(out))
  }

  /** Whether a value of `t` can be generated: an enum type needs a non-empty
      registered case list. */
  predicate CanGenerate(enums: map<string, seq<Value>>, t: TypeRef)
  {
    !t.EnumType? || (t.name in enums && |enums[t.name]| > 0)
  }

  /** `v` is a value the generator may produce for `t`. */
  predicate IsGenerated(enums: map<string, seq<Value>>, t: TypeRef, v: Value)
  {
    if t.EnumType? then t.name in enums && v in enums[t.name] else v == Generated(t.name)
  }

  /** Whether the generated dictionary can hold a value for `p`. */
  predicate Generatable(enums: map<string, seq<Value>>, p: Property)
  {
    match Override(p)
    case None => CanGenerate(enums, p.kind.valueType)
    case Some(Explicit(_)) => true
    case Some(RandomOf(t)) => CanGenerate(enums, t)
  }

  /** `v` is a value the generated dictionary may hold for `p`. */
  predicate Fits(enums: map<string, seq<Value>>, p: Property, v: Value)
  {
    match Override(p)
    case None => IsGenerated(enums, p.kind.valueType, v)
    case Some(Explicit(x)) => v == x
    case Some(RandomOf(t)) => IsGenerated(enums, t, v)
  }

  /** The properties with an async generator: exactly the parent properties
      (see `AsyncIsParent`). */
  predicate IsAsync(p: Property)
  {
    p.kind.ParentProperty?
  }

  function Target(p: Property): string
    requires IsAsync(p)
  {
    p.kind.target
  }

  lemma AsyncIsParent(p: Property)
    ensures IsAsync(p) <==> Strategy(p.kind).Some? && Strategy(p.kind).value.AsyncGenerator?
    ensures IsAsync(p) ==> Strategy(p.kind) == Some(AsyncGenerator(Target(p)))
  {
  }

  /** `v` refers, as `["id": id]`, to one of `rows`. */
  ghost predicate IsIdEntryOf(v: Value, rows: seq<Row>)
  {
    exists row :: row in rows && v == IdEntry(row.id)
  }

  /** `v` is a value the finished record may hold for `p`: a reference to an
      existing row of the target type for a parent property, what the
      dictionary holds otherwise. */
  ghost predicate FieldFits(enums: map<string, seq<Value>>, tables: map<string, seq<Row>>, p: Property, v: Value)
  {
    if IsAsync(p) then IsIdEntryOf(v, Rows(tables, Target(p))) else Fits(enums, p, v)
  }

  /** A record holds one entry per mapped property name, each of the kind
      its property's strategy calls for. */
  ghost predicate RecordFits(enums: map<string, seq<Value>>, tables: map<string, seq<Row>>,
                             props: seq<Property>, record: map<string, Value>)
  {
    && record.Keys == KeysOf(props)
    && (DistinctKeys(props) ==>
          forall i :: 0 <= i < |props| ==> FieldFits(enums, tables, props[i], record[Key(props[i])]))
  }

  /** Every value can be generated and every parent type already has a row. */
  ghost predicate CanRandomize(enums: map<string, seq<Value>>, tables: map<string, seq<Row>>, props: seq<Property>)
  {
    && (forall i :: 0 <= i < |props| ==> Generatable(enums, props[i]))
    && (forall i :: 0 <= i < |props| && IsAsync(props[i]) ==> Rows(tables, Target(props[i])) != [])
  }

  /** Inserting rows never takes away a parent row, so a model that could be
      generated still can. */
  lemma CanRandomizeGrows(enums: map<string, seq<Value>>, tables: map<string, seq<Row>>, t: string,
                          added: seq<Row>, props: seq<Property>)
    requires CanRandomize(enums, tables, props)
    ensures CanRandomize(enums, Grown(tables, t, added), props)
  {
    forall i | 0 <= i < |props| && IsAsync(props[i])
      ensures Rows(Grown(tables, t, added), Target(props[i])) != []
    {
      assert |Rows(Grown(tables, t, added), Target(props[i]))| >= |Rows(tables, Target(props[i]))|;
    }
  }

  /** The factory configuration: the fluent key mapper and override (the
      functions above) and the registry of enum cases. */
  class Config {
    var enumFactory: map<string, seq<Value>>

    /** `ModelFactory.fluentFactory()`. */
    constructor Fluent()
      ensures enumFactory == map[]
    {
      enumFactory := map[];
    }

    /** `register(enumType:)`: values of the enum type are drawn from its raw values. */
    method Register(enumName: string, rawValues: seq<Value>)
      modifies this
      ensures enumFactory == old(enumFactory)[enumName := rawValues]
    {
      enumFactory := enumFactory[enumName := rawValues];
    }
  }

  lemma RegisteredEnumYieldsItsCases(enums: map<string, seq<Value>>, enumName: string, rawValues: seq<Value>, v: Value)
    requires |rawValues| > 0
    ensures CanGenerate(enums[enumName := rawValues], EnumType(enumName))
    ensures IsGenerated(enums[enumName := rawValues], EnumType(enumName), v) <==> v in rawValues
  {
  }

  /** `randomValue(ofType:)`: a random value of the type; an enum value is one
      of the registered cases. */
  method RandomValue(config: Config, t: TypeRef) returns (r: Result<Value>)
    ensures r.Ok? <==> CanGenerate(config.enumFactory, t)
    ensures r.Ok? ==> IsGenerated(config.enumFactory, t, r.value)
    ensures r.Err? ==> r.error == if t.name in config.enumFactory then EmptyEnum(t.name) else UnregisteredEnum(t.name)
  {
    if !t.EnumType? {
      return Ok(Generated(t.name));
    }
    if t.name !in config.enumFactory {
      return Err(UnregisteredEnum(t.name));
    }
    var cases := config.enumFactory[t.name];
    if |cases| == 0 {
      return Err(EmptyEnum(t.name));
    }
    var i :| 0 <= i < |cases|;
    return Ok(cases[i]);
  }

  /** The value the generated dictionary holds for one property. */
  method PropertyValue(config: Config, p: Property) returns (r: Result<Value>)
    ensures r.Ok? <==> Generatable(config.enumFactory, p)
    ensures r.Ok? ==> Fits(config.enumFactory, p, r.value)
  {
    match Override(p)
    case None =>
      r := RandomValue(config, p.kind.valueType);
    case Some(Explicit(v)) =>
      r := Ok(v);
    case Some(RandomOf(t)) =>
      r := RandomValue(config, t);
  }

  /** `randomDictionary(decodableTo:)`: one entry per property under its
      mapped name; when two names map to the same key the later property's
      value stays. */
  method RandomDictionary(config: Config, props: seq<Property>) returns (r: Result<map<string, Value>>)
    ensures r.Ok? <==> forall i :: 0 <= i < |props| ==> Generatable(config.enumFactory, props[i])
    ensures r.Ok? ==> r.value.Keys == KeysOf(props)
    ensures r.Ok? ==> forall i :: 0 <= i < |props| && LastWithKey(props, i) ==>
                        Fits(config.enumFactory, props[i], r.value[Key(props[i])])
  {
    var dict: map<string, Value> := map[];
    ghost var last: map<string, nat> := map[];
    r := Ok(dict);
    var i := 0;
    while i < |props| && r.Ok?
      invariant 0 <= i <= |props|
      invariant r.Ok? <==> forall k :: 0 <= k < i ==> Generatable(config.enumFactory, props[k])
      invariant r.Ok? ==> r.value == dict && LastWritten(config.enumFactory, props, i, dict, last)
    {
      var v := PropertyValue(config, props[i]);
      if v.Err? {
        r := Err(v.error);
      } else {
        LastWrittenOneMore(config.enumFactory, props, i, dict, last, v.value);
        dict := dict[Key(props[i]) := v.value];
        last := last[Key(props[i]) := i];
        r := Ok(dict);
      }
      i := i + 1;
    }
    if r.Ok? {
      LastWrittenFits(config.enumFactory, props, dict, last);
    }
  }

  /** After the first `i` properties were written into `dict`, `last` tells,
      for every key, which property wrote it last. */
  ghost predicate LastWritten(enums: map<string, seq<Value>>, props: seq<Property>, i: nat,
                              dict: map<string, Value>, last: map<string, nat>)
  {
    && i <= |props|
    && dict.Keys == last.Keys
    && (forall key :: key in last ==>
          last[key] < i && Key(props[last[key]]) == key && Fits(enums, props[last[key]], dict[key]))
    && (forall k :: 0 <= k < i ==> Key(props[k]) in last && last[Key(props[k])] >= k)
  }

  /** Writing the value of the next property keeps `last` up to date. */
  lemma LastWrittenOneMore(enums: map<string, seq<Value>>, props: seq<Property>, i: nat,
                           dict: map<string, Value>, last: map<string, nat>, v: Value)
    requires LastWritten(enums, props, i, dict, last) && i < |props| && Fits(enums, props[i], v)
    ensures LastWritten(enums, props, i + 1, dict[Key(props[i]) := v], last[Key(props[i]) := i])
  {
  }

  /** Once every property was written, the dictionary has every mapped name
      and, under each, the value of the last property with that name. */
  lemma LastWrittenFits(enums: map<string, seq<Value>>, props: seq<Property>,
                        dict: map<string, Value>, last: map<string, nat>)
    requires LastWritten(enums, props, |props|, dict, last)
    ensures dict.Keys == KeysOf(props)
    ensures forall i :: 0 <= i < |props| && LastWithKey(props, i) ==> Fits(enums, props[i], dict[Key(props[i])])
  {
    forall key | key in dict
      ensures key in KeysOf(props)
    {
      var k := last[key];
      assert Key(props[k]) == key;
    }
    forall i | 0 <= i < |props| && LastWithKey(props, i)
      ensures Fits(enums, props[i], dict[Key(props[i])])
    {
      var k := last[Key(props[i])];
      assert Key(props[k]) == Key(props[i]);
    }
  }

  /** `lhs.merging(rhs, uniquingKeysWith: { lhs, _ in lhs })`. */
  function Merging(lhs: map<string, Value>, rhs: map<string, Value>): (m: map<string, Value>)
    ensures m.Keys == lhs.Keys + rhs.Keys
    ensures forall k :: k in lhs ==> m[k] == lhs[k]
    ensures forall k :: k in rhs && k !in lhs ==> m[k] == rhs[k]
  {
    map k | k in lhs.Keys + rhs.Keys :: if k in lhs then lhs[k] else rhs[k]
  }

  /** Folding `Merging` over the dictionaries from the left. */
  function MergeAll(values: seq<map<string, Value>>): map<string, Value>
  {
    if values == [] then map[] else Merging(MergeAll(values[..|values| - 1]), values[|values| - 1])
  }

  /** The index of the first dictionary that has `k`, or -1 when none has it. */
  function FirstWith(values: seq<map<string, Value>>, k: string): (f: int)
    ensures -1 <= f < |values|
    ensures f >= 0 ==> k in values[f] && forall e :: 0 <= e < f ==> k !in values[e]
    ensures f < 0 ==> forall e :: 0 <= e < |values| ==> k !in values[e]
  {
    if values == [] then -1
    else
      var n := |values| - 1;
      var f := FirstWith(values[..n], k);
      if f >= 0 then f else if k in values[n] then n else -1
  }

  /** The merged dictionary has a key when some dictionary has it, and then
      the value of the first dictionary that has it. */
  lemma {:induction false} MergeAllFirstWins(values: seq<map<string, Value>>, k: string)
    ensures k in MergeAll(values) <==> FirstWith(values, k) >= 0
    ensures k in MergeAll(values) ==> MergeAll(values)[k] == values[FirstWith(values, k)][k]
  {
    if values != [] {
      var n := |values| - 1;
      MergeAllFirstWins(values[..n], k);
    }
  }

  /** `resolveRelationships(for:on:)`: for every parent property, in order,
      the id of a random existing row of the parent type under the mapped
      name, as `["id": id]`; the earliest property wins a shared name. With no
      row of a parent type the run traps. */
  method ResolveRelationships(db: Database, props: seq<Property>) returns (r: Result<map<string, Value>>)
    ensures r.Ok? <==> forall i :: 0 <= i < |props| && IsAsync(props[i]) ==> Rows(db.tables, Target(props[i])) != []
    ensures r.Err? ==> r.error.MustSeedBefore?
    ensures r.Ok? ==> r.value.Keys == AsyncKeys(props)
    ensures r.Ok? ==> forall i :: 0 <= i < |props| && IsAsync(props[i]) && FirstAsyncWithKey(props, i) ==>
                        IsIdEntryOf(r.value[Key(props[i])], Rows(db.tables, Target(props[i])))
  {
    var collected, origin := CollectParentIds(db, props);
    if collected.Err? {
      return Err(collected.error);
    }
    var values := collected.value;
    if |values| == 0 {
      ResolvedKeys(props, values, origin, map[], db.tables);
      return Ok(map[]);
    }
    var allValues := MergeKeepingFirst(values);
    ResolvedKeys(props, values, origin, allValues, db.tables);
    forall i | 0 <= i < |props| && IsAsync(props[i]) && FirstAsyncWithKey(props, i)
      ensures IsIdEntryOf(allValues[Key(props[i])], Rows(db.tables, Target(props[i])))
    {
      ResolvedValues(props, values, origin, db.tables, i);
    }
    return Ok(allValues);
  }

  /** The positions of the parent properties, in declaration order. */
  function ParentPositions(props: seq<Property>): seq<nat>
  {
    if props == [] then []
    else
      var n := |props| - 1;
      ParentPositions(props[..n]) + (if IsAsync(props[n]) then [n] else [])
  }

  /** Every listed position holds a parent property. */
  lemma {:induction false} ParentPositionIsParent(props: seq<Property>, j: nat)
    requires j < |ParentPositions(props)|
    ensures ParentPositions(props)[j] < |props| && IsAsync(props[ParentPositions(props)[j]])
  {
    var n := |props| - 1;
    var init := props[..n];
    if j < |ParentPositions(init)| {
      ParentPositionIsParent(init, j);
      assert init[ParentPositions(init)[j]] == props[ParentPositions(init)[j]];
    }
  }

  /** The positions are listed in increasing order. */
  lemma {:induction false} ParentPositionsIncrease(props: seq<Property>, j: nat, j': nat)
    requires j < j' < |ParentPositions(props)|
    ensures ParentPositions(props)[j] < ParentPositions(props)[j']
  {
    var n := |props| - 1;
    var init := props[..n];
    if j' < |ParentPositions(init)| {
      ParentPositionsIncrease(init, j, j');
    } else {
      ParentPositionIsParent(init, j);
    }
  }

  /** Every parent property is listed. */
  lemma {:induction false} ParentPositionOf(props: seq<Property>, k: nat) returns (j: nat)
    requires k < |props| && IsAsync(props[k])
    ensures j < |ParentPositions(props)| && ParentPositions(props)[j] == k
  {
    var n := |props| - 1;
    var init := props[..n];
    if k == n {
      j := |ParentPositions(init)|;
    } else {
      assert init[k] == props[k];
      j := ParentPositionOf(init, k);
    }
  }

  /** `v` is the entry resolved for the parent property `props[k]`: its
      mapped name and a reference to a row of its parent type. */
  ghost predicate IsParentEntry(v: map<string, Value>, props: seq<Property>, k: int, tables: map<string, seq<Row>>)
  {
    && 0 <= k < |props|
    && IsAsync(props[k])
    && v.Keys == {Key(props[k])}
    && IsIdEntryOf(v[Key(props[k])], Rows(tables, Target(props[k])))
  }

  /** The body of the first loop of `resolveRelationships` for the parent
      property `props[i]`: the id of a random row of the parent type, which
      traps when the type has no row yet. */
  method ResolveParent(db: Database, props: seq<Property>, i: nat) returns (r: Result<map<string, Value>>)
    requires i < |props| && IsAsync(props[i])
    ensures r.Ok? <==> Rows(db.tables, Target(props[i])) != []
    ensures r.Err? ==> r.error == MustSeedBefore(Target(props[i]))
    ensures r.Ok? ==> IsParentEntry(r.value, props, i, db.tables)
  {
    var target := Target(props[i]);
    var parent := db.Random(target, OrAll(None));
    if parent.None? {
      SelectAll(Rows(db.tables, target));
      return Err(MustSeedBefore(target));
    }
    r := Ok(map[Key(props[i]) := IdEntry(parent.value.id)]);
  }

  /** The first loop of `resolveRelationships`: one single-entry dictionary
      per parent property, in order; `origin` tells which property each came
      from. */
  method CollectParentIds(db: Database, props: seq<Property>)
    returns (r: Result<seq<map<string, Value>>>, ghost origin: seq<nat>)
    ensures r.Ok? <==> forall i :: 0 <= i < |props| && IsAsync(props[i]) ==> Rows(db.tables, Target(props[i])) != []
    ensures r.Err? ==> r.error.MustSeedBefore?
    ensures r.Ok? ==> origin == ParentPositions(props) && |r.value| == |origin|
    ensures r.Ok? ==> forall j :: 0 <= j < |r.value| ==> IsParentEntry(r.value[j], props, origin[j], db.tables)
  {
    var values: seq<map<string, Value>> := [];
    origin := [];
    for i := 0 to |props|
      invariant origin == ParentPositions(props[..i]) && |origin| == |values|
      invariant forall j :: 0 <= j < |values| ==> IsParentEntry(values[j], props, origin[j], db.tables)
    {
      assert props[..i + 1][..i] == props[..i];
      if IsAsync(props[i]) {
        var entry := ResolveParent(db, props, i);
        if entry.Err? {
          return Err(entry.error), origin;
        }
        values := values + [entry.value];
        origin := origin + [i];
      }
    }
    assert props[..|props|] == props;
    EntriesNameSeededParents(props, values, origin, db.tables);
    return Ok(values), origin;
  }

  /** When every parent property has its entry, every parent type has a row. */
  lemma EntriesNameSeededParents(props: seq<Property>, values: seq<map<string, Value>>, origin: seq<nat>,
                                 tables: map<string, seq<Row>>)
    requires origin == ParentPositions(props) && |origin| == |values|
    requires forall j :: 0 <= j < |values| ==> IsParentEntry(values[j], props, origin[j], tables)
    ensures forall i :: 0 <= i < |props| && IsAsync(props[i]) ==> Rows(tables, Target(props[i])) != []
  {
    forall i | 0 <= i < |props| && IsAsync(props[i])
      ensures Rows(tables, Target(props[i])) != []
    {
      var j := ParentPositionOf(props, i);
      assert IsParentEntry(values[j], props, i, tables);
    }
  }

  /** The second loop of `resolveRelationships`: merging the dictionaries in
      order, keeping the value already present on a shared key. */
  method MergeKeepingFirst(values: seq<map<string, Value>>) returns (merged: map<string, Value>)
    ensures forall k :: k in merged <==> FirstWith(values, k) >= 0
    ensures forall k :: k in merged ==> merged[k] == values[FirstWith(values, k)][k]
  {
    merged := map[];
    for j := 0 to |values|
      invariant merged == MergeAll(values[..j])
    {
      assert values[..j + 1][..j] == values[..j];
      merged := Merging(merged, values[j]);
    }
    assert values[..|values|] == values;
    forall k
      ensures k in merged <==> FirstWith(values, k) >= 0
      ensures k in merged ==> merged[k] == values[FirstWith(values, k)][k]
    {
      MergeAllFirstWins(values, k);
    }
  }

  /** The keys the two loops of `ResolveRelationships` produce are the
      mapped names of the parent properties. */
  lemma ResolvedKeys(props: seq<Property>, values: seq<map<string, Value>>, origin: seq<nat>,
                     merged: map<string, Value>, tables: map<string, seq<Row>>)
    requires origin == ParentPositions(props) && |origin| == |values|
    requires forall j :: 0 <= j < |values| ==> IsParentEntry(values[j], props, origin[j], tables)
    requires forall k :: k in merged <==> FirstWith(values, k) >= 0
    ensures merged.Keys == AsyncKeys(props)
  {
    forall k | k in merged
      ensures k in AsyncKeys(props)
    {
      var j := FirstWith(values, k);
      assert IsParentEntry(values[j], props, origin[j], tables);
      var i := origin[j];
      assert k == Key(props[i]) && IsAsync(props[i]);
    }
    forall k | k in AsyncKeys(props)
      ensures k in merged
    {
      var i :| 0 <= i < |props| && IsAsync(props[i]) && k == Key(props[i]);
      var j := ParentPositionOf(props, i);
      assert IsParentEntry(values[j], props, i, tables);
      assert k in values[j];
    }
  }

  /** The value the two loops of `ResolveRelationships` produce under the
      name of the first parent property that maps to it refers to a row of
      that property's parent type. */
  lemma ResolvedValues(props: seq<Property>, values: seq<map<string, Value>>, origin: seq<nat>,
                       tables: map<string, seq<Row>>, i: nat)
    requires origin == ParentPositions(props) && |origin| == |values|
    requires forall j :: 0 <= j < |values| ==> IsParentEntry(values[j], props, origin[j], tables)
    requires i < |props| && IsAsync(props[i]) && FirstAsyncWithKey(props, i)
    ensures FirstWith(values, Key(props[i])) >= 0
    ensures IsIdEntryOf(values[FirstWith(values, Key(props[i]))][Key(props[i])], Rows(tables, Target(props[i])))
  {
    var j := ParentPositionOf(props, i);
    var k := Key(props[i]);
    ParentEntryKey(values[j], props, i, tables, k);
    var f := FirstWith(values, k);
    ParentEntryKey(values[f], props, origin[f], tables, k);
    if f < j {
      ParentPositionsIncrease(props, f, j);
    } else {
      assert f == j;
      assert IsIdEntryOf(values[j][k], Rows(tables, Target(props[i])));
    }
  }

  /** A resolved entry has no key but its property's mapped name. */
  lemma ParentEntryKey(v: map<string, Value>, props: seq<Property>, k: int, tables: map<string, seq<Row>>, key: string)
    requires IsParentEntry(v, props, k, tables)
    ensures key in v <==> key == Key(props[k])
  {
  }

  /** The overlay loop of `randomEncodedData`: every resolved entry replaces
      the generated entry under the same key. */
  method Overlay(dict: map<string, Value>, asyncDict: map<string, Value>) returns (merged: map<string, Value>)
    ensures merged.Keys == dict.Keys + asyncDict.Keys
    ensures forall k :: k in asyncDict ==> merged[k] == asyncDict[k]
    ensures forall k :: k in dict && k !in asyncDict ==> merged[k] == dict[k]
  {
    merged := dict;
    var pending := asyncDict.Keys;
    while pending != {}
      invariant pending <= asyncDict.Keys
      invariant merged.Keys == dict.Keys + (asyncDict.Keys - pending)
      invariant forall k :: k in asyncDict && k !in pending ==> merged[k] == asyncDict[k]
      invariant forall k :: k in dict && (k !in asyncDict || k in pending) ==> merged[k] == dict[k]
      decreases pending
    {
      var k :| k in pending;
      merged := merged[k := asyncDict[k]];
      pending := pending - {k};
    }
  }

  /** `randomEncodedData(decodableTo:on:)` up to the JSON encoding: the
      generated dictionary with the resolved parent references laid over it. */
  method RandomEncodedData(config: Config, db: Database, m: ModelType) returns (r: Result<map<string, Value>>)
    ensures r.Ok? <==> CanRandomize(config.enumFactory, db.tables, m.properties)
    ensures r.Ok? ==> RecordFits(config.enumFactory, db.tables, m.properties, r.value)
  {
    var props := m.properties;
    var dict := RandomDictionary(config, props);
    if dict.Err? {
      return Err(dict.error);
    }
    var asyncDict := ResolveRelationships(db, props);
    if asyncDict.Err? {
      return Err(asyncDict.error);
    }
    var merged := Overlay(dict.value, asyncDict.value);
    EncodedRecordFits(config.enumFactory, db.tables, props, dict.value, asyncDict.value, merged);
    return Ok(merged);
  }

  lemma EncodedRecordFits(enums: map<string, seq<Value>>, tables: map<string, seq<Row>>, props: seq<Property>,
                          dict: map<string, Value>, asyncDict: map<string, Value>, merged: map<string, Value>)
    requires dict.Keys == KeysOf(props)
    requires forall i :: 0 <= i < |props| && LastWithKey(props, i) ==> Fits(enums, props[i], dict[Key(props[i])])
    requires asyncDict.Keys == AsyncKeys(props)
    requires forall i :: 0 <= i < |props| && IsAsync(props[i]) && FirstAsyncWithKey(props, i) ==>
               IsIdEntryOf(asyncDict[Key(props[i])], Rows(tables, Target(props[i])))
    requires merged.Keys == dict.Keys + asyncDict.Keys
    requires forall k :: k in asyncDict ==> merged[k] == asyncDict[k]
    requires forall k :: k in dict && k !in asyncDict ==> merged[k] == dict[k]
    ensures RecordFits(enums, tables, props, merged)
  {
    forall k | k in asyncDict
      ensures k in KeysOf(props)
    {
      var i :| 0 <= i < |props| && IsAsync(props[i]) && Key(props[i]) == k;
    }
    if DistinctKeys(props) {
      forall i | 0 <= i < |props|
        ensures FieldFits(enums, tables, props[i], merged[Key(props[i])])
      {
        if IsAsync(props[i]) {
          assert FirstAsyncWithKey(props, i);
          assert Key(props[i]) in AsyncKeys(props);
        } else {
          assert LastWithKey(props, i);
          assert Key(props[i]) !in asyncDict by {
            forall j | 0 <= j < |props| && IsAsync(props[j])
              ensures Key(props[j]) != Key(props[i])
            {
              assert j != i;
            }
          }
        }
      }
    }
  }

  /** The id a decoded model takes from the record's `id` entry. */
  function DecodedId(record: map<string, Value>): Option<IdValue>
  {
    if "id" !in record then None
    else match record["id"]
      case Int(n) => Some(IntId(n))
      case Str(s) => Some(StringId(s))
      case _ => None
  }

  /** `randomized(type:on:)`: a model decoded from a random record. */
  method Randomized(config: Config, db: Database, m: ModelType) returns (r: Result<Instance>)
    ensures r.Ok? <==> CanRandomize(config.enumFactory, db.tables, m.properties)
    ensures r.Ok? ==> RecordFits(config.enumFactory, db.tables, m.properties, r.value.fields)
    ensures r.Ok? ==> r.value.id == DecodedId(r.value.fields)
  {
    var data := RandomEncodedData(config, db, m);
    if data.Err? {
      return Err(data.error);
    }
    return Ok(Instance(DecodedId(data.value), data.value));
  }

  /** `initializeModel(id:on:)`: a random model whose id is the one given, or
      none, whatever the record held. */
  method InitializeModel(config: Config, db: Database, m: ModelType, id: Option<IdValue>) returns (r: Result<Instance>)
    ensures r.Ok? <==> CanRandomize(config.enumFactory, db.tables, m.properties)
    ensures r.Ok? ==> r.value.id == id
    ensures r.Ok? ==> RecordFits(config.enumFactory, db.tables, m.properties, r.value.fields)
  {
    var model := Randomized(config, db, m);
    if model.Err? {
      return model;
    }
    return Ok(model.value.(id := id));
  }
}
