# FluentSeeder, modelled in Dafny

FluentSeeder fills a Fluent (Vapor) database with random data. A **seeder** is
a migration whose `prepare` runs a list of **seeds** in order:

- a `Seed` creates `count` random models of one type;
- a `SiblingSeed` links rows of two types through a pivot (join) table;
- a `ChildSeed` gives random children a parent's id;
- a `ParentSeed` gives every child the id of a random parent.

A `ModelFactory` builds the record of a random model. It picks a generation
strategy for each property wrapper, maps wrapper names (`_name`) to record keys,
and resolves parent properties to the ids of rows that already exist.

The model replaces the database with an in-memory store (`Store.Database`):

- one table of rows per model type, and one list of links per pivot type;
- queries are row filters;
- `random()` and `random(count:)` are nondeterministic choices among the rows
  a query returns.

Modules follow the source files:

| module | file |
|---|---|
| `Values` | shared value types |
| `Store` | the Fluent operations the core calls |
| `ModelFactory` | `Sources/FluentSeeder/ModelFactory.swift` |
| `ModelExtensions` | `Sources/FluentSeeder/ModelExtensions.swift` |
| `Seed` | `Sources/FluentSeeder/Seed.swift` |
| `Seeder` | `Sources/FluentSeeder/Seeder.swift` |

A thrown error or a trap (`fatalError`, `try!`, `randomElement()!`) becomes an
`Err`/`Fail` value that ends the operation. Futures and `async` calls run one
after the other.

**Sibling direction.** The direction follows the code. `.rightToLeft` passes `from: rightQuery,
to: leftQuery`, which selects the overload at
`Sources/FluentSeeder/Seed.swift:240-252`; that overload iterates the LEFT
rows and samples RIGHT rows. `.leftToRight` selects the overload at
`Sources/FluentSeeder/Seed.swift:254-266`, which iterates the RIGHT rows and
samples LEFT rows, as the doc comments on the two cases at
`Sources/FluentSeeder/Seed.swift:58-59` say.

## Model

| member | source | states |
|---|---|---|
| Store.Database.Find | Sources/FluentSeeder/ModelExtensions.swift:55 | `find` returns a row exactly when the table holds one with that id, and then that row |
| Store.Database.Random | Sources/FluentSeeder/Seed.swift:194 | `random()` returns none exactly when the query returns no row, otherwise one of the rows it returns |
| Store.Database.RandomSample | Sources/FluentSeeder/Seed.swift:210 | `random(count:)` returns distinct rows of the query: `count` of them, all of them when there are fewer, none for a non-positive count |
| Store.Database.Create | Sources/FluentSeeder/ModelExtensions.swift:34 | `create` appends the row with its id, or a fresh id when it has none; an id the table already holds is refused and nothing changes; ids stay unique |
| Store.Database.Save | Sources/FluentSeeder/Seed.swift:198 | `save` replaces the stored row that has the same id; no other row and no link changes |
| Store.Database.Attach | Sources/FluentSeeder/Seed.swift:249 | `attach` appends the new pivot rows to the pivot's table and leaves every model table alone |
| Store.Select | Sources/FluentSeeder/Seed.swift:192 | a query returns only rows of the table, and exactly those its filter keeps; distinct ids stay distinct |
| Store.SelectAll | Sources/FluentSeeder/Seed.swift:192 | the default `query(on:)` returns every row of the table |
| Store.FreshId | Sources/FluentSeeder/ModelExtensions.swift:34 | an auto-assigned id is not already in the table |
| Store.UniqueIdsCount | Sources/FluentSeeder/ModelExtensions.swift:62-71 | rows with distinct ids have as many ids as rows |
| ModelFactory.Strategy | Sources/FluentSeeder/ModelFactory.swift:107-200 | the table is total. `skip` for id, optional field, optional enum, timestamp, children, optional child and siblings. `factory(Value)` for field, enum and group. `asyncGenerator` for parent. `custom` producing `["id": nil]` for optional parent. No strategy for a non-generatable type |
| ModelFactory.MapKey | Sources/FluentSeeder/ModelFactory.swift:71-76 | a key that starts with `_` loses exactly that one underscore; every other key is unchanged |
| ModelFactory.MapKeyUndoesUnderscore | Sources/FluentSeeder/ModelFactory.swift:71-76 | the mapper undoes the underscore a property wrapper adds to its name |
| ModelFactory.MapKeyIsNotIdempotent | Sources/FluentSeeder/ModelFactory.swift:71-76 | `"__a"` maps to `"_a"`, which maps on to `"a"`: mapping twice differs from mapping once |
| ModelFactory.Override | Sources/FluentSeeder/ModelFactory.swift:77-90 | the override is an explicit nil for `skip` and `asyncGenerator`, a random value of the strategy's type for `factory`, the generator's output for `custom`, and nothing (default generation) for a non-generatable property |
| ModelFactory.AsyncIsParent | Sources/FluentSeeder/ModelFactory.swift:131-144 | parent properties, and only they, have an async generator, whose target is the parent type |
| ModelFactory.Config.Fluent | Sources/FluentSeeder/ModelFactory.swift:69-93 | the fluent factory starts with no registered enum |
| ModelFactory.Config.Register | Sources/FluentSeeder/ModelFactory.swift:61-64 | registering an enum sets its entry to the enum's raw values and keeps the other entries |
| ModelFactory.RegisteredEnumYieldsItsCases | Sources/FluentSeeder/ModelFactory.swift:61-64 | after registration a value of the enum can be generated, and the generated values are exactly the enum's raw values |
| ModelFactory.RandomValue | Sources/FluentSeeder/ModelFactory.swift:82-84 | `randomValue(ofType:)` succeeds unless the type is an enum with no cases or no registration, and then yields a value of that type (a registered case for an enum) |
| ModelFactory.PropertyValue | Sources/FluentSeeder/ModelFactory.swift:77-90 | a property's dictionary value exists exactly when it can be generated, and is the override's value or a random value of the type it names |
| ModelFactory.RandomDictionary | Sources/FluentSeeder/ModelFactory.swift:50 | the generated dictionary exists exactly when every property can be generated. It has one key per mapped name. Under each key is the value of the last property with that name |
| ModelFactory.LastWrittenFits | Sources/FluentSeeder/ModelFactory.swift:50 | once every property is written, the dictionary has every mapped name and holds, under each, a value fitting the last property with that name |
| ModelFactory.Merging | Sources/FluentSeeder/ModelFactory.swift:44 | `merging(_:uniquingKeysWith: { lhs, _ in lhs })` has the keys of both and keeps the left value on a shared key |
| ModelFactory.FirstWith | Sources/FluentSeeder/ModelFactory.swift:42-46 | the first dictionary in the list that has the key, or none |
| ModelFactory.MergeAllFirstWins | Sources/FluentSeeder/ModelFactory.swift:42-46 | folding the merge over the list keeps, for every key, the value of the first dictionary that has it |
| ModelFactory.MergeKeepingFirst | Sources/FluentSeeder/ModelFactory.swift:42-46 | the merge loop's result has exactly the keys some dictionary has, each with its first dictionary's value |
| ModelFactory.ResolveParent | Sources/FluentSeeder/ModelFactory.swift:133-144 | the parent generator traps exactly when the parent type has no row; otherwise it yields `mappedName: ["id": id]` for a stored row, a UUID rendered as its string |
| ModelFactory.CollectParentIds | Sources/FluentSeeder/ModelFactory.swift:32-39 | the first loop yields one single-entry dictionary per parent property, in declaration order, or traps when some parent type has no row |
| ModelFactory.ParentPositionOf | Sources/FluentSeeder/ModelFactory.swift:33-39 | every parent property has its place in the list of resolved entries |
| ModelFactory.ParentPositionsIncrease | Sources/FluentSeeder/ModelFactory.swift:33-39 | the resolved entries keep the properties' declaration order |
| ModelFactory.EntriesNameSeededParents | Sources/FluentSeeder/ModelFactory.swift:33-39 | when every parent property produced its entry, every parent type has a row |
| ModelFactory.ResolvedKeys | Sources/FluentSeeder/ModelFactory.swift:31-47 | the resolved dictionary's keys are exactly the mapped names of the parent properties |
| ModelFactory.ResolvedValues | Sources/FluentSeeder/ModelFactory.swift:40-46 | on a shared name the earliest parent property's entry wins, and it refers to a row of that property's parent type |
| ModelFactory.ResolveRelationships | Sources/FluentSeeder/ModelFactory.swift:31-47 | `resolveRelationships` succeeds exactly when every parent type has a row. It returns one entry per parent property name, `[:]` when there are none, and the earliest property's entry on a shared name, which refers to an existing row |
| ModelFactory.Overlay | Sources/FluentSeeder/ModelFactory.swift:52-54 | every resolved entry replaces the generated entry under its key; other keys keep their generated values |
| ModelFactory.RandomEncodedData | Sources/FluentSeeder/ModelFactory.swift:49-57 | the record exists exactly when every value can be generated and every parent type has a row. It has one key per mapped name, parent properties refer to existing rows, and every other value fits its strategy |
| ModelFactory.EncodedRecordFits | Sources/FluentSeeder/ModelFactory.swift:49-57 | the generated dictionary with the resolved entries laid over it is a record that fits the model |
| ModelFactory.CanRandomizeGrows | Sources/FluentSeeder/ModelFactory.swift:134-136 | inserting rows never empties a parent table, so a model that could be generated still can |
| ModelFactory.Randomized | Sources/FluentSeeder/ModelFactory.swift:26-29 | `randomized` decodes a model from a fitting random record, taking its id from the record |
| ModelFactory.InitializeModel | Sources/FluentSeeder/ModelFactory.swift:20-24 | the model's id is the one supplied, or nil, whatever the record held; the rest fits the model |
| ModelExtensions.CreateSync | Sources/FluentSeeder/ModelExtensions.swift:16-20 | always fails with its message and never touches the store |
| ModelExtensions.CreateBatchSync | Sources/FluentSeeder/ModelExtensions.swift:23-27 | always fails with its message and never touches the store |
| ModelExtensions.FindOrCreateSync | Sources/FluentSeeder/ModelExtensions.swift:74-78 | always fails with its message and never touches the store |
| ModelExtensions.FindOrCreateBatchSync | Sources/FluentSeeder/ModelExtensions.swift:81-85 | always fails with its message and never touches the store |
| ModelExtensions.Create | Sources/FluentSeeder/ModelExtensions.swift:30-35 | `create(id:)` adds exactly one row, with the given id when there is one and a new id otherwise, and a fitting record. It fails, changing nothing, when the model cannot be generated or the id is taken |
| ModelExtensions.CreateBatch | Sources/FluentSeeder/ModelExtensions.swift:38-49 | `createBatch(size:)` returns `size` new models in creation order (none for `size <= 0`). The table grows by exactly those rows, with distinct new ids, each fitting the store as it was when it was created. On failure nothing changes |
| ModelExtensions.CreateNext | Sources/FluentSeeder/ModelExtensions.swift:43-45 | one iteration creates the next model after the earlier ones, or fails, changing nothing, exactly when the model cannot be generated |
| ModelExtensions.BatchFitsEach | Sources/FluentSeeder/ModelExtensions.swift:38-49 | every model of a batch has a new id and a record fitting the store as the models before it left it |
| ModelExtensions.BatchFitsOneMore | Sources/FluentSeeder/ModelExtensions.swift:43-45 | a model created after the batch extends the batch |
| ModelExtensions.FreshBatchUnique | Sources/FluentSeeder/ModelExtensions.swift:38-49 | the rows a batch appended have distinct ids |
| ModelExtensions.FindOrCreate | Sources/FluentSeeder/ModelExtensions.swift:52-59 | an id the table holds returns that stored row and writes nothing. A missing id creates exactly one row with that id, or fails, changing nothing, when the model cannot be generated |
| ModelExtensions.FindOrCreateBatch | Sources/FluentSeeder/ModelExtensions.swift:62-71 | one model per id, in input order, with `result[i].id == ids[i]`, each stored. The rows created are exactly the listed ids that were missing, each created once however often it is listed |
| ModelExtensions.FindOrCreateNext | Sources/FluentSeeder/ModelExtensions.swift:66-68 | one iteration answers the next id with a stored row and creates it only when it was neither stored before nor created earlier in the batch |
| ModelExtensions.SeenStep | Sources/FluentSeeder/ModelExtensions.swift:66-68 | one more listed id joins the created ids exactly when it is new |
| ModelExtensions.AnsweredOneMore | Sources/FluentSeeder/ModelExtensions.swift:67-68 | appending the model found or created for the next id keeps every model answering its id |
| Seed.Iterate | Sources/FluentSeeder/Seed.swift:175-184 | `iterate` applies the closure to every row the query returns and gives the results in query order; it fails with the first iteration that fails |
| Seed.IterateVoid | Sources/FluentSeeder/Seed.swift:171-173 | `iterateVoid` succeeds exactly when every iteration does, and otherwise fails with the error of the first iteration that fails |
| Seed.SaveChildren | Sources/FluentSeeder/Seed.swift:212-216 | setting the key on each child and saving it sets that field, on exactly the children's rows, to the value; nothing else changes |
| Seed.DrawParent | Sources/FluentSeeder/Seed.swift:194-195 | the drawn parent is a stored row of the parent type. For a parent type other than the child type, there is none exactly when the parent query returns no row, and otherwise it is one of the rows it returns |
| Seed.SaveWithParent | Sources/FluentSeeder/Seed.swift:196-198 | saving a child with the drawn parent's id extends the run of assignments by that child |
| Seed.AttachOneMore | Sources/FluentSeeder/Seed.swift:196-198 | with distinct children, saving the next child after setting its key is one more single-child assignment |
| Seed.AdoptChildren | Sources/FluentSeeder/Seed.swift:193-200 | the loop gives each child in turn a drawn parent's id, stopping with status 500 at the first draw that finds no parent |
| Seed.AttachRandomParent | Sources/FluentSeeder/Seed.swift:188-201 | every child of the child query, by default every child, ends up with the id of a parent drawn from the parent query under the key. Only that field of child rows changes, and parent rows and links are untouched. It fails with `Abort(500)` exactly when there are children and the parent query returns no row |
| Seed.EveryChildAdopted | Sources/FluentSeeder/Seed.swift:188-201 | after the single-child assignments every child's row holds its own chosen parent's id |
| Seed.LastAssignmentWins | Sources/FluentSeeder/Seed.swift:209-217 | after a run of key assignments a row holds the value of the last batch that named it, and is untouched when none did |
| Seed.AssignAllReassigns | Sources/FluentSeeder/Seed.swift:188-236 | every row of the child table is untouched or differs only by a reference to a parent under the key |
| Seed.SaveBatch | Sources/FluentSeeder/Seed.swift:211-217 | saving one fetched batch with the parent's id extends the run of assignments by that batch |
| Seed.SaveSample | Sources/FluentSeeder/Seed.swift:209-217 | one iteration of `attachRandomChildren` draws `random(count:)` from the child query as the table stands at that moment (`count` distinct rows of its result, all of them when fewer) and saves them with the parent's id |
| Seed.AttachRandomChildren | Sources/FluentSeeder/Seed.swift:203-219 | for every parent of the parent query in turn, a sample drawn from the child query, run on the table the earlier batches left, gets that parent's id under the key and is saved. Each batch is also distinct rows of the table as it was before the run, at most `count` (exactly as many as `count` allows without a child query). Only the child table changes |
| Seed.SaveAll | Sources/FluentSeeder/Seed.swift:226-234 | one iteration of `attachAllChildren` fetches exactly the rows the child query returns at that moment and saves them with the parent's id |
| Seed.AttachAllChildren | Sources/FluentSeeder/Seed.swift:221-236 | for every parent in turn, every row the child query returns on the table the earlier batches left gets that parent's id. Without a child query, and with at least one parent, every child ends with the last parent's id |
| Seed.SampleForEach | Sources/FluentSeeder/Seed.swift:207-218 | the iteration over the parents of `attachRandomChildren`: one batch per parent, each drawn from the child query on the table as the earlier batches left it |
| Seed.FetchForEach | Sources/FluentSeeder/Seed.swift:225-235 | the iteration over the parents of `attachAllChildren`: one batch per parent, each the child query's full result on the table as the earlier batches left it |
| Seed.DrawnOneMore | Sources/FluentSeeder/Seed.swift:207-235 | a batch drawn after the earlier ones extends the record of draws by one |
| Seed.DrawnBatchFromTable | Sources/FluentSeeder/Seed.swift:208-209 | a batch drawn from the child query at any point of the run is distinct rows of the child table as it was before the run, at most `count` of them, exactly `SampleSize` or the whole table without a child query |
| Seed.DrawnFromTable | Sources/FluentSeeder/Seed.swift:207-235 | the same holds for every batch of a run of draws |
| Seed.LastBatchWins | Sources/FluentSeeder/Seed.swift:221-236 | when the last batch names every child, every child holds the last parent's id |
| Seed.AttachSampledSiblings | Sources/FluentSeeder/Seed.swift:240-266 | every iterated row is linked, through the pivot, to a sample of `count` distinct rows of the sampled query (all of them when fewer). Every new link joins an iterated row and a row of the sampled query. Model tables are unchanged |
| Seed.AttachBatch | Sources/FluentSeeder/Seed.swift:247-250 | `siblings.attach` adds one pivot row between the iterated row and each sampled row, after the earlier ones |
| Seed.AttachRandomSiblingsToLeft | Sources/FluentSeeder/Seed.swift:240-252 | the overload taking `from rightQuery` iterates the LEFT query and gives each left row sampled RIGHT rows as links |
| Seed.AttachRandomSiblingsToRight | Sources/FluentSeeder/Seed.swift:254-266 | the overload taking `from leftQuery` iterates the RIGHT query and gives each right row sampled LEFT rows as links |
| Seed.SiblingLinksOneMore | Sources/FluentSeeder/Seed.swift:245-250 | one more iterated row adds its batch's links at the end |
| Seed.SiblingLinksPerRow | Sources/FluentSeeder/Seed.swift:245-250 | each iterated row, among rows of distinct ids, is on exactly as many new links as rows were attached to it |
| Seed.AttachEach | Sources/FluentSeeder/Seed.swift:245-250 | the iteration of `attachRandomSiblings`: every iterated row gets links to a sample of the sampled query; model tables are unchanged |
| Seed.SampledLinksEnds | Sources/FluentSeeder/Seed.swift:245-250 | every new link joins an iterated row and a row of the sampled query |
| Seed.SiblingLinksEnds | Sources/FluentSeeder/Seed.swift:245-250 | every new link joins an iterated row and one of the rows attached to it |
| Seed.EveryRowGetsItsSiblings | Tests/FluentSeederTests/FluentSeederTests.swift:24-29 | every iterated row gains exactly `count` links when the sampled query has at least `count` rows, and all of them otherwise |
| Seed.PrepareModelSeed | Sources/FluentSeeder/Seed.swift:32-34 | `Seed.prepare` creates `count` models (default 100) through `createBatch`, or fails, changing nothing |
| Seed.PrepareSiblingSeed | Sources/FluentSeeder/Seed.swift:76-83 | `rightToLeft` (the default) links sampled right rows to every left row; `leftToRight` links sampled left rows to every right row |
| Seed.PrepareChildSeed | Sources/FluentSeeder/Seed.swift:123-129 | `ChildSeed.prepare` is `attachRandomChildren` with the seed's count, queries and key: one batch per parent of the parent query, each drawn from the child query on the table the earlier batches left, given that parent's id |
| Seed.PrepareParentSeed | Sources/FluentSeeder/Seed.swift:151-156 | `ParentSeed.prepare` is `attachRandomParent` with the seed's queries and key: for distinct parent and child types, every chosen parent is a row of the parent query, and the seed fails exactly when there are children but no parent |
| Seed.PrepareUnit | Sources/FluentSeeder/Seed.swift:19-22 | `prepare` of any seed has that seed's effect on the store |
| Seed.RevertUnit | Sources/FluentSeeder/Seed.swift:36-38 | `revert` of every seed kind succeeds and cannot touch the store |
| Seeder.Prepare | Sources/FluentSeeder/Seeder.swift:16-20 | the seeds run in list order, each on the store the previous one left. The run stops at the first failure, which is its result, and every earlier seed passed. It passes exactly when every seed passed. With no seeds the store is unchanged |
| Seeder.PrepareNext | Sources/FluentSeeder/Seeder.swift:17-19 | one step of `asyncForEach` runs the next seed on the current store and records it in the run |
| Seeder.RanOneMore | Sources/FluentSeeder/Seeder.swift:17-19 | a run extended by one seed's effect is a run |
| Seeder.RanPrefix | Sources/FluentSeeder/Seeder.swift:16-20 | the first seeds of a run form a run |
| Seeder.RanEach | Sources/FluentSeeder/Seeder.swift:16-20 | every seed of a run took the store from the state before it to the state after it by its own `prepare` |
| Seeder.Revert | Sources/FluentSeeder/Seeder.swift:21-25 | `revert` passes and cannot touch the store, because every seed's `revert` is a no-op |

## Left out

- Fluent and Vapor internals: the in-memory `Store.Database` stands in for query builders, `find`, `create`, `save`, `random()`, `random(count:)` and `Siblings.attach`. Integer ids are auto-assigned as the largest id plus one. UUID generation is not modelled.
- Store.Database.RandomSample: Fluent's sampling algorithm is not modelled. It is any choice of distinct rows of the right size, with no order or distribution promised.
- Runtime reflection (`properties(type)`, `Runtime.typeInfo`): a model type is an explicit list of properties.
- RandomFactory's own value generation is not modelled. A scalar or nested value is the opaque `Generated(typeName)`; an enum value is one of its registered cases.
- JSON encoding and decoding (`encodeAsJSONData`, `decode(fromJSON:)`): the record is the dictionary itself, and decoding reads only the `id` entry.
- ModelFactory.RandomDictionary: `randomDictionary(decodableTo:)` lives in RandomFactory, which is not part of this model. It is modelled as writing the properties in declaration order, so a later property wins a shared key.
- ModelFactory.RandomEncodedData: the value of every property is stated only when no two properties map to the same key. Otherwise only the key set is stated, because generated and resolved entries then overwrite each other.
- Concurrency: the fan-out of futures in `iterate` and of `async` calls runs sequentially, one row at a time. Interleavings between iterations are not modelled.
- Seed.AttachRandomParent: when the parent type is the child type, the contract states only that each chosen parent's id is an id of that table. It does not state that the parent came from the parent query or when the draw fails, because earlier saves rewrite the rows the parent query draws from.
- Children fetched by `attachRandomChildren` and `attachAllChildren` are treated as references, so setting the key in `forEach` (`var child = child`) is what `children.save(on:)` stores. For value-type models the source would save the unmodified originals.
- Database failures: the model's `create`, `save`, `attach` and queries do not fail, except `create` on an id the table already holds. A database error partway through `createBatch`, `findOrCreateBatch` or an attach loop, which in the source leaves the earlier writes in place with no rollback, is not modelled. The "nothing changes on failure" clauses of `create`, `createBatch`, `findOrCreate` and a model seed cover only the failures the model has, which all arise before the first write.
- The `Migration` conformances of `Seed` and `SiblingSeed` (`Sources/FluentSeeder/Seed.swift:41-55`, `90-104`) are not modelled. The static `count` and the static `prepare`/`revert` on a default-initialised seed are wiring only.
- `FluentTestModelsSeeder` calls a `SiblingSeed(count:through:)` initializer that `Sources/FluentSeeder/Seed.swift` does not declare. `SiblingSeed` is modelled as written, with the initializer at `Sources/FluentSeeder/Seed.swift:69`.
- `Seed.swift` is written against the older futures API, while the other core files are `async`. Both are modelled as sequential operations on the same store.
- The default `factory: .random` of `Seed` is not modelled: a model seed always carries its factory configuration.
- Seed.Iterate: the iteration closure is a pure function of the row. The attach algorithms do not use `Iterate`; each inlines its own loop so that the closure's writes to the store can be stated.
- Seeder.Prepare: `seeds(on:)` is the list of seed units passed in.
