/** The creation helpers on a model type: create one model or a batch of
    models from a factory, or find the model with an id and create it only
    when it is missing. The synchronous variants only trap. */
module ModelExtensions {
  import opened Values
  import opened Store
  import opened ModelFactory

  const CreateSyncMessage := "Use async create instead of createSync"
  const CreateBatchSyncMessage := "Use async createBatch instead of createBatchSync"
  const FindOrCreateSyncMessage := "Use async findOrCreate instead of findOrCreateSync"
  const FindOrCreateBatchSyncMessage := "Use async findOrCreateBatch instead of findOrCreateBatchSync"

  /** `createSync(id:factory:on:)`: always traps, before touching the store. */
  method CreateSync(id: Option<IdValue>, config: Config, db: Database, m: ModelType) returns (r: Result<Row>)
    ensures r.Err? && r.error == UseAsync(CreateSyncMessage)
  {
    return Err(UseAsync(CreateSyncMessage));
  }

  /** `createBatchSync(size:factory:on:)`: always traps, before touching the store. */
  method CreateBatchSync(size: int, config: Config, db: Database, m: ModelType) returns (r: Result<seq<Row>>)
    ensures r.Err? && r.error == UseAsync(CreateBatchSyncMessage)
  {
    return Err(UseAsync(CreateBatchSyncMessage));
  }

  /** `findOrCreateSync(id:factory:on:)`: always traps, before touching the store. */
  method FindOrCreateSync(id: IdValue, config: Config, db: Database, m: ModelType) returns (r: Result<Row>)
    ensures r.Err? && r.error == UseAsync(FindOrCreateSyncMessage)
  {
    return Err(UseAsync(FindOrCreateSyncMessage));
  }

  /** `findOrCreateBatchSync(ids:factory:on:)`: always traps, before touching the store. */
  method FindOrCreateBatchSync(ids: seq<IdValue>, config: Config, db: Database, m: ModelType) returns (r: Result<seq<Row>>)
    ensures r.Err? && r.error == UseAsync(FindOrCreateBatchSyncMessage)
  {
    return Err(UseAsync(FindOrCreateBatchSyncMessage));
  }

  /** `create(id:factory:on:)`: a random model with the given id (or a fresh
      one), inserted into the model's table. */
  method Create(config: Config, db: Database, m: ModelType, id: Option<IdValue>) returns (r: Result<Row>)
    requires db.Valid()
    modifies db
    ensures db.Valid() && db.links == old(db.links)
    ensures r.Ok? <==> CanRandomize(config.enumFactory, old(db.tables), m.properties) &&
                       !(id.Some? && id.value in IdsOf(old(Rows(db.tables, m.name))))
    ensures r.Err? ==> db.tables == old(db.tables)
    ensures r.Ok? ==> db.tables == Grown(old(db.tables), m.name, [r.value])
    ensures r.Ok? ==> r.value.id !in IdsOf(old(Rows(db.tables, m.name)))
    ensures r.Ok? && id.Some? ==> r.value.id == id.value
    ensures r.Ok? ==> RecordFits(config.enumFactory, old(db.tables), m.properties, r.value.fields)
  {
    var model := InitializeModel(config, db, m, id);
    if model.Err? {
      return Err(model.error);
    }
    r := db.Create(m.name, model.value);
  }

  /** `createBatch(size:factory:on:)`: `size` models created one after the
      other, or none when `size` is not positive. Each model's parents are
      drawn from the store as it is when that model is created. */
  method CreateBatch(config: Config, db: Database, m: ModelType, size: int) returns (r: Result<seq<Row>>)
    requires db.Valid()
    modifies db
    ensures db.Valid() && db.links == old(db.links)
    ensures r.Ok? <==> size <= 0 || CanRandomize(config.enumFactory, old(db.tables), m.properties)
    ensures r.Err? ==> db.tables == old(db.tables)
    ensures r.Ok? ==> |r.value| == if size > 0 then size else 0
    ensures r.Ok? ==> db.tables == Grown(old(db.tables), m.name, r.value)
    ensures r.Ok? ==> UniqueIds(r.value) && BatchFits(config.enumFactory, old(db.tables), m, r.value)
  {
    var models: seq<Row> := [];
    if size > 0 {
      for i := 0 to size
        invariant db.Valid() && db.links == old(db.links)
        invariant |models| == i
        invariant db.tables == Grown(old(db.tables), m.name, models)
        invariant BatchFits(config.enumFactory, old(db.tables), m, models)
        invariant i > 0 ==> CanRandomize(config.enumFactory, old(db.tables), m.properties)
      {
        var row := CreateNext(config, db, m, old(db.tables), models);
        if row.Err? {
          return Err(row.error);
        }
        models := models + [row.value];
      }
    }
    if models != [] {
      assert m.name in db.tables;
      FreshBatchUnique(Rows(old(db.tables), m.name), models);
    }
    return Ok(models);
  }

  /** A model created after the models `done` of its batch: its id is one
      the table did not hold before, and its record fits the store as `done`
      left it. */
  ghost predicate CreatedAfter(enums: map<string, seq<Value>>, tables: map<string, seq<Row>>, m: ModelType,
                               done: seq<Row>, row: Row)
  {
    && row.id !in IdsOf(Rows(tables, m.name))
    && RecordFits(enums, Grown(tables, m.name, done), m.properties, row.fields)
  }

  /** Every model of a batch was created after the models before it. */
  ghost predicate BatchFits(enums: map<string, seq<Value>>, tables: map<string, seq<Row>>, m: ModelType, models: seq<Row>)
    decreases |models|
  {
    models != [] ==>
      var n := |models| - 1;
      BatchFits(enums, tables, m, models[..n]) && CreatedAfter(enums, tables, m, models[..n], models[n])
  }

  /** The k-th model of a fitting batch was created after the models before it. */
  lemma {:induction false} BatchFitsEach(enums: map<string, seq<Value>>, tables: map<string, seq<Row>>, m: ModelType,
                                         models: seq<Row>, k: nat)
    requires BatchFits(enums, tables, m, models) && k < |models|
    ensures CreatedAfter(enums, tables, m, models[..k], models[k])
  {
    var n := |models| - 1;
    if k < n {
      BatchFitsEach(enums, tables, m, models[..n], k);
      assert models[..n][..k] == models[..k] && models[..n][k] == models[k];
    }
  }

  /** One iteration of `createBatch`: the next model, created in the store as
      the earlier iterations left it. */
  method CreateNext(config: Config, db: Database, m: ModelType, ghost tables0: map<string, seq<Row>>,
                    ghost models: seq<Row>) returns (r: Result<Row>)
    requires db.Valid() && db.tables == Grown(tables0, m.name, models)
    requires BatchFits(config.enumFactory, tables0, m, models)
    requires models != [] ==> CanRandomize(config.enumFactory, tables0, m.properties)
    modifies db
    ensures db.Valid() && db.links == old(db.links)
    ensures r.Ok? <==> CanRandomize(config.enumFactory, tables0, m.properties)
    ensures r.Err? ==> db.tables == old(db.tables)
    ensures r.Ok? ==> db.tables == Grown(tables0, m.name, models + [r.value])
    ensures r.Ok? ==> BatchFits(config.enumFactory, tables0, m, models + [r.value])
  {
    if models != [] {
      CanRandomizeGrows(config.enumFactory, tables0, m.name, models, m.properties);
    }
    r := Create(config, db, m, None);
    if r.Ok? {
      GrownTwice(tables0, m.name, models, [r.value]);
      BatchFitsOneMore(config.enumFactory, tables0, m, models, r.value);
    }
  }

  /** Appending a model whose id is new and whose record fits the store as
      the batch left it keeps the batch fitting. */
  lemma BatchFitsOneMore(enums: map<string, seq<Value>>, tables: map<string, seq<Row>>, m: ModelType,
                         models: seq<Row>, row: Row)
    requires BatchFits(enums, tables, m, models)
    requires row.id !in IdsOf(Rows(Grown(tables, m.name, models), m.name))
    requires RecordFits(enums, Grown(tables, m.name, models), m.properties, row.fields)
    ensures BatchFits(enums, tables, m, models + [row])
  {
    IdsOfAppend(Rows(tables, m.name), models);
    assert (models + [row])[..|models|] == models;
  }

  /** Rows appended to a table of unique ids have unique ids themselves. */
  lemma FreshBatchUnique(before: seq<Row>, models: seq<Row>)
    requires UniqueIds(before + models)
    ensures UniqueIds(models)
  {
    forall j, k | 0 <= j < k < |models|
      ensures models[j].id != models[k].id
    {
      assert (before + models)[|before| + j] == models[j];
      assert (before + models)[|before| + k] == models[k];
    }
  }

  /** The ids a batch has created so far are the ids listed so far that were
      not stored before; one more listed id adds itself only when it is new. */
  lemma SeenStep(ids: seq<IdValue>, i: nat, before: set<IdValue>, createdIds: set<IdValue>)
    requires i < |ids|
    requires createdIds == (set x | x in ids[..i]) - before
    ensures var seen := ids[..i + 1];
            ids[i] in before + createdIds ==> createdIds == (set x | x in seen) - before
    ensures var seen := ids[..i + 1];
            ids[i] !in before + createdIds ==> createdIds + {ids[i]} == (set x | x in seen) - before
  {
    assert ids[..i + 1] == ids[..i] + [ids[i]];
  }

  /** `findOrCreate(id:factory:on:)`: the stored model with the id, or a new
      model created with that id. */
  method FindOrCreate(config: Config, db: Database, m: ModelType, id: IdValue) returns (r: Result<Row>)
    requires db.Valid()
    modifies db
    ensures db.Valid() && db.links == old(db.links)
    ensures id in IdsOf(old(Rows(db.tables, m.name))) ==>
              r.Ok? && db.tables == old(db.tables) && r.value in old(Rows(db.tables, m.name))
    ensures id !in IdsOf(old(Rows(db.tables, m.name))) ==>
              (r.Ok? <==> CanRandomize(config.enumFactory, old(db.tables), m.properties))
    ensures id !in IdsOf(old(Rows(db.tables, m.name))) && r.Ok? ==>
              db.tables == Grown(old(db.tables), m.name, [r.value]) &&
              RecordFits(config.enumFactory, old(db.tables), m.properties, r.value.fields)
    ensures r.Err? ==> db.tables == old(db.tables)
    ensures r.Ok? ==> r.value.id == id
  {
    var existing := db.Find(m.name, id);
    if existing.Some? {
      return Ok(existing.value);
    }
    r := Create(config, db, m, Some(id));
  }

  /** `findOrCreateBatch(ids:factory:on:)`: one model per id, in order; an id
      that is missing is created once, however often it is listed. */
  method FindOrCreateBatch(config: Config, db: Database, m: ModelType, ids: seq<IdValue>)
    returns (r: Result<seq<Row>>, ghost created: seq<Row>)
    requires db.Valid()
    modifies db
    ensures db.Valid() && db.links == old(db.links)
    ensures CanRandomize(config.enumFactory, old(db.tables), m.properties) ==> r.Ok?
    ensures r.Err? ==> !CanRandomize(config.enumFactory, db.tables, m.properties)
    ensures db.tables == Grown(old(db.tables), m.name, created)
    ensures r.Ok? ==> |r.value| == |ids| && forall i :: 0 <= i < |ids| ==> r.value[i].id == ids[i]
    ensures r.Ok? ==> forall i :: 0 <= i < |ids| ==> r.value[i] in Rows(db.tables, m.name)
    ensures r.Ok? ==> IdsOf(created) == (set x | x in ids) - IdsOf(old(Rows(db.tables, m.name)))
    ensures r.Ok? ==> |created| == |(set x | x in ids) - IdsOf(old(Rows(db.tables, m.name)))|
  {
    ghost var before := Rows(db.tables, m.name);
    var models: seq<Row> := [];
    created := [];
    for i := 0 to |ids|
      invariant db.Valid() && db.links == old(db.links)
      invariant db.tables == Grown(old(db.tables), m.name, created)
      invariant UniqueIds(created)
      invariant IdsOf(created) == (set x | x in ids[..i]) - IdsOf(before)
      invariant |models| == i && Answered(ids, models, before + created)
      invariant CanRandomize(config.enumFactory, old(db.tables), m.properties) ==>
                  CanRandomize(config.enumFactory, db.tables, m.properties)
    {
      var model;
      model, created := FindOrCreateNext(config, db, m, ids, i, old(db.tables), created, models);
      if model.Err? {
        return Err(model.error), created;
      }
      models := models + [model.value];
    }
    UniqueIdsCount(created);
    assert ids[..|ids|] == ids;
    assert Rows(db.tables, m.name) == before + created;
    return Ok(models), created;
  }

  /** The j-th model answers the j-th id: it has that id and is one of `rows`. */
  ghost predicate Answered(ids: seq<IdValue>, models: seq<Row>, rows: seq<Row>)
  {
    |models| <= |ids| && forall j :: 0 <= j < |models| ==> models[j].id == ids[j] && models[j] in rows
  }

  lemma AnsweredOneMore(ids: seq<IdValue>, models: seq<Row>, rows: seq<Row>, v: Row)
    requires Answered(ids, models, rows) && |models| < |ids| && v.id == ids[|models|] && v in rows
    ensures Answered(ids, models + [v], rows)
  {
  }

  lemma AnsweredGrows(ids: seq<IdValue>, models: seq<Row>, rows: seq<Row>, more: seq<Row>)
    requires Answered(ids, models, rows) && forall x :: x in rows ==> x in more
    ensures Answered(ids, models, more)
  {
  }

  /** One iteration of `findOrCreateBatch`: the model with the next id, found
      or created in the store as the earlier iterations left it; `created`
      are the models the batch has created so far. */
  method FindOrCreateNext(config: Config, db: Database, m: ModelType, ids: seq<IdValue>, i: nat,
                          ghost tables0: map<string, seq<Row>>, ghost created: seq<Row>, ghost models: seq<Row>)
    returns (r: Result<Row>, ghost created': seq<Row>)
    requires db.Valid() && i < |ids| && |models| == i && Answered(ids, models, Rows(tables0, m.name) + created)
    requires db.tables == Grown(tables0, m.name, created)
    requires UniqueIds(created) && IdsOf(created) == (set x | x in ids[..i]) - IdsOf(Rows(tables0, m.name))
    modifies db
    ensures db.Valid() && db.links == old(db.links)
    ensures db.tables == Grown(tables0, m.name, created')
    ensures r.Err? ==> !CanRandomize(config.enumFactory, db.tables, m.properties)
    ensures r.Ok? ==> Answered(ids, models + [r.value], Rows(tables0, m.name) + created')
    ensures var seen := ids[..i + 1];
            r.Ok? ==> UniqueIds(created') && IdsOf(created') == (set x | x in seen) - IdsOf(Rows(tables0, m.name))
    ensures CanRandomize(config.enumFactory, old(db.tables), m.properties) ==>
              CanRandomize(config.enumFactory, db.tables, m.properties)
  {
    ghost var before := Rows(tables0, m.name);
    ghost var current := db.tables;
    r := FindOrCreate(config, db, m, ids[i]);
    created' := created;
    if r.Err? {
      return;
    }
    SeenStep(ids, i, IdsOf(before), IdsOf(created));
    assert Rows(current, m.name) == before + created;
    IdsOfAppend(before, created);
    if ids[i] !in IdsOf(Rows(current, m.name)) {
      GrownTwice(tables0, m.name, created, [r.value]);
      AppendKeepsUnique(created, r.value);
      created' := created + [r.value];
      AnsweredGrows(ids, models, before + created, before + created');
      AnsweredOneMore(ids, models, before + created', r.value);
      if CanRandomize(config.enumFactory, current, m.properties) {
        CanRandomizeGrows(config.enumFactory, current, m.name, [r.value], m.properties);
      }
    } else {
      AnsweredOneMore(ids, models, before + created, r.value);
    }
  }
}
