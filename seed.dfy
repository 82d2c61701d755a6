/** The seed units a seeder runs: a seed of new models, and seeds that link
    rows that already exist, as siblings through a pivot table or as
    children of a parent through a key field. The relationship seeds are
    built on the attach algorithms below, which iterate the rows of one
    query and, for each, write rows drawn from another. */
module Seed {
  import opened Values
  import opened Store
  import opened ModelFactory
  import opened ModelExtensions

  const DefaultSeedCount := 100
  const DefaultSiblingCount := 5

  datatype SiblingSeedDirection =
    | RightToLeft   // every row of the left query gets rows of the right query
    | LeftToRight   // every row of the right query gets rows of the left query

  /** A pivot (join) model: its table and the two model types it joins. */
  datatype Pivot = Pivot(name: string, left: string, right: string)

  /** One seed of a seeder, with the parameters its initializer takes. */
  datatype SeedUnit =
    | ModelSeed(model: ModelType, factory: Config, count: int := DefaultSeedCount)
    | SiblingSeed(pivot: Pivot, count: int := DefaultSiblingCount, leftQuery: Option<Query> := None,
                  rightQuery: Option<Query> := None, direction: SiblingSeedDirection := RightToLeft)
    | ChildSeed(parentType: string, childType: string, count: int, keyPath: string,
                childQuery: Option<Query> := None, parentQuery: Option<Query> := None)
    | ParentSeed(parentType: string, childType: string, keyPath: string,
                 parentQuery: Option<Query> := None, childQuery: Option<Query> := None)

  /** The side of a pivot link that holds the id of the iterated row. */
  datatype Side = LeftSide | RightSide

  /** The table `t` replaced by `rows`, when there is such a table. */
  function WithTable(tables: map<string, seq<Row>>, t: string, rows: seq<Row>): map<string, seq<Row>>
  {
    if t in tables then tables[t := rows] else tables
  }

  /** The tables after table `t` went through `AssignAll`, the i-th batch
      getting a reference to `parents[i]`. */
  function Reassigned(tables: map<string, seq<Row>>, t: string, batches: seq<set<IdValue>>, key: string,
                      parents: seq<Row>): map<string, seq<Row>>
    requires |batches| == |parents|
  {
    WithTable(tables, t, AssignAll(Rows(tables, t), batches, key, Refs(parents)))
  }

  /** Reassigning keys keeps every table's ids, and every other table. */
  lemma ReassignedIds(tables: map<string, seq<Row>>, t: string, batches: seq<set<IdValue>>, key: string,
                      parents: seq<Row>, x: string)
    requires |batches| == |parents|
    ensures x != t ==> Rows(Reassigned(tables, t, batches, key, parents), x) == Rows(tables, x)
    ensures IdsOf(Rows(Reassigned(tables, t, batches, key, parents), x)) == IdsOf(Rows(tables, x))
    ensures UniqueIds(Rows(tables, x)) ==> UniqueIds(Rows(Reassigned(tables, t, batches, key, parents), x))
  {
    if x == t {
      SameIds(Rows(tables, t), AssignAll(Rows(tables, t), batches, key, Refs(parents)));
    }
  }

  lemma ReassignedTable(tables: map<string, seq<Row>>, t: string, batches: seq<set<IdValue>>, key: string,
                        parents: seq<Row>)
    requires |batches| == |parents|
    ensures Rows(Reassigned(tables, t, batches, key, parents), t) == AssignAll(Rows(tables, t), batches, key, Refs(parents))
  {
  }

  /** `rows` after every row whose id is in `ids` had its field `key` set to `v`. */
  function Assign(rows: seq<Row>, ids: set<IdValue>, key: string, v: Value): (r: seq<Row>)
    ensures |r| == |rows|
    ensures forall j :: 0 <= j < |rows| ==> r[j] == if rows[j].id in ids then WithField(rows[j], key, v) else rows[j]
  {
    seq(|rows|, j requires 0 <= j < |rows| => if rows[j].id in ids then WithField(rows[j], key, v) else rows[j])
  }

  /** `rows` after each batch of ids in turn, the i-th batch setting the field
      `key` to `values[i]`. */
  function AssignAll(rows: seq<Row>, batches: seq<set<IdValue>>, key: string, values: seq<Value>): (r: seq<Row>)
    requires |batches| == |values|
    ensures |r| == |rows|
    ensures forall j :: 0 <= j < |rows| ==> r[j].id == rows[j].id
  {
    if batches == [] then rows
    else
      var n := |batches| - 1;
      Assign(AssignAll(rows, batches[..n], key, values[..n]), batches[n], key, values[n])
  }

  /** The index of the last batch that holds `id`, or -1 when none does. */
  function LastWith(batches: seq<set<IdValue>>, id: IdValue): (i: int)
    ensures -1 <= i < |batches|
    ensures i >= 0 ==> id in batches[i] && forall i' :: i < i' < |batches| ==> id !in batches[i']
    ensures i < 0 ==> forall i' :: 0 <= i' < |batches| ==> id !in batches[i']
  {
    if batches == [] then -1
    else if id in batches[|batches| - 1] then |batches| - 1
    else LastWith(batches[..|batches| - 1], id)
  }

  function IdSets(batches: seq<seq<Row>>): (r: seq<set<IdValue>>)
    ensures |r| == |batches| && forall i :: 0 <= i < |batches| ==> r[i] == IdsOf(batches[i])
  {
    seq(|batches|, i requires 0 <= i < |batches| => IdsOf(batches[i]))
  }

  /** One singleton batch per row. */
  function Singletons(rows: seq<Row>): (r: seq<set<IdValue>>)
    ensures |r| == |rows| && forall i :: 0 <= i < |rows| ==> r[i] == {rows[i].id}
  {
    seq(|rows|, i requires 0 <= i < |rows| => {rows[i].id})
  }

  /** The key values referring to the rows: `parent.fluentID` for each. */
  function Refs(parents: seq<Row>): (r: seq<Value>)
    ensures |r| == |parents| && forall i :: 0 <= i < |parents| ==> r[i] == Ref(parents[i].id)
  {
    seq(|parents|, i requires 0 <= i < |parents| => Ref(parents[i].id))
  }

  /** Setting a key twice keeps the second value. */
  lemma WithFieldTwice(row: Row, key: string, a: Value, b: Value)
    ensures WithField(WithField(row, key, a), key, b) == WithField(row, key, b)
  {
    assert row.fields[key := a][key := b] == row.fields[key := b];
  }

  /** After a sequence of key assignments a row holds the value of the last
      batch that named it, and is untouched when no batch named it. */
  lemma {:induction false} LastAssignmentWins(rows: seq<Row>, batches: seq<set<IdValue>>, key: string,
                                              values: seq<Value>, j: nat)
    requires |batches| == |values| && j < |rows|
    ensures var i := LastWith(batches, rows[j].id);
            AssignAll(rows, batches, key, values)[j] == if i < 0 then rows[j] else WithField(rows[j], key, values[i])
  {
    if batches != [] {
      var n := |batches| - 1;
      LastAssignmentWins(rows, batches[..n], key, values[..n], j);
      var prev := AssignAll(rows, batches[..n], key, values[..n]);
      var i := LastWith(batches[..n], rows[j].id);
      if rows[j].id in batches[n] {
        if i >= 0 {
          WithFieldTwice(rows[j], key, values[..n][i], values[n]);
        }
      } else {
        assert LastWith(batches, rows[j].id) == i;
      }
    }
  }

  /** Saving a row of a table with unique ids, after setting its key, is the
      assignment of the key to that one id. */
  lemma ReplacedIsAssign(rows: seq<Row>, c: Row, key: string, v: Value)
    requires UniqueIds(rows) && c in rows
    ensures Replaced(rows, WithField(c, key, v)) == Assign(rows, {c.id}, key, v)
  {
    var r := Replaced(rows, WithField(c, key, v));
    var a := Assign(rows, {c.id}, key, v);
    forall j | 0 <= j < |rows|
      ensures r[j] == a[j]
    {
      if rows[j].id == c.id {
        var k :| 0 <= k < |rows| && rows[k] == c;
        assert j == k;
      }
    }
  }

  /** Assigning one value to more ids, one id at a time. */
  lemma AssignOneMore(rows: seq<Row>, ids: set<IdValue>, c: Row, key: string, v: Value)
    requires UniqueIds(rows) && c in rows && c.id !in ids
    ensures UniqueIds(Assign(rows, ids, key, v))
    ensures Replaced(Assign(rows, ids, key, v), WithField(c, key, v)) == Assign(rows, ids + {c.id}, key, v)
  {
    var x := Assign(rows, ids, key, v);
    SameIds(rows, x);
    var k :| 0 <= k < |rows| && rows[k] == c;
    assert x[k] == c;
    ReplacedIsAssign(x, c, key, v);
  }

  /** Every row is untouched or holds a reference to one of `pool` under `key`. */
  ghost predicate ReassignedRows(before: seq<Row>, after: seq<Row>, key: string, pool: set<IdValue>)
  {
    && |after| == |before|
    && forall j :: 0 <= j < |before| ==>
         after[j] == before[j] || exists p :: p in pool && after[j] == WithField(before[j], key, Ref(p))
  }

  lemma AssignAllReassigns(rows: seq<Row>, batches: seq<set<IdValue>>, key: string, parents: seq<Row>,
                           pool: set<IdValue>)
    requires |batches| == |parents|
    requires forall i :: 0 <= i < |parents| ==> parents[i].id in pool
    ensures ReassignedRows(rows, AssignAll(rows, batches, key, Refs(parents)), key, pool)
  {
    forall j | 0 <= j < |rows|
      ensures var after := AssignAll(rows, batches, key, Refs(parents));
              after[j] == rows[j] || exists p :: p in pool && after[j] == WithField(rows[j], key, Ref(p))
    {
      LastAssignmentWins(rows, batches, key, Refs(parents), j);
      var i := LastWith(batches, rows[j].id);
      if i >= 0 {
        assert parents[i].id in pool;
      }
    }
  }

  /** The pivot link between the iterated row and an attached row. */
  function LinkFor(side: Side, model: IdValue, other: IdValue): Link
  {
    if side == LeftSide then Link(model, other) else Link(other, model)
  }

  /** The id a link holds on one side. */
  function End(side: Side, l: Link): IdValue
  {
    if side == LeftSide then l.left else l.right
  }

  function BatchLinks(side: Side, model: IdValue, batch: seq<Row>): (r: seq<Link>)
    ensures |r| == |batch| && forall k :: 0 <= k < |batch| ==> r[k] == LinkFor(side, model, batch[k].id)
  {
    seq(|batch|, k requires 0 <= k < |batch| => LinkFor(side, model, batch[k].id))
  }

  /** The links `attach` adds when the i-th iterated row gets the i-th batch. */
  function SiblingLinks(side: Side, iterated: seq<Row>, batches: seq<seq<Row>>): seq<Link>
    requires |iterated| == |batches|
  {
    if batches == [] then []
    else
      var n := |batches| - 1;
      SiblingLinks(side, iterated[..n], batches[..n]) + BatchLinks(side, iterated[n].id, batches[n])
  }

  /** How many links hold `id` on the given side. */
  function CountAt(links: seq<Link>, side: Side, id: IdValue): nat
  {
    if links == [] then 0
    else CountAt(links[..|links| - 1], side, id) + (if End(side, links[|links| - 1]) == id then 1 else 0)
  }

  lemma {:induction false} CountAtAppend(a: seq<Link>, b: seq<Link>, side: Side, id: IdValue)
    ensures CountAt(a + b, side, id) == CountAt(a, side, id) + CountAt(b, side, id)
  {
    if b != [] {
      var n := |b| - 1;
      CountAtAppend(a, b[..n], side, id);
      assert (a + b)[..|a + b| - 1] == a + b[..n];
    } else {
      assert a + b == a;
    }
  }

  lemma {:induction false} CountAtBatch(side: Side, model: IdValue, batch: seq<Row>, id: IdValue)
    ensures CountAt(BatchLinks(side, model, batch), side, id) == if id == model then |batch| else 0
  {
    if batch != [] {
      var n := |batch| - 1;
      CountAtBatch(side, model, batch[..n], id);
      assert BatchLinks(side, model, batch)[..n] == BatchLinks(side, model, batch[..n]);
    }
  }

  /** Every iterated row, when the iterated rows have distinct ids, ends up
      on one side of exactly as many new links as rows were attached to it. */
  lemma {:induction false} SiblingLinksPerRow(side: Side, iterated: seq<Row>, batches: seq<seq<Row>>, i: nat)
    requires |iterated| == |batches| && i < |iterated| && UniqueIds(iterated)
    ensures CountAt(SiblingLinks(side, iterated, batches), side, iterated[i].id) == |batches[i]|
  {
    var n := |batches| - 1;
    var x := iterated[i].id;
    CountAtAppend(SiblingLinks(side, iterated[..n], batches[..n]), BatchLinks(side, iterated[n].id, batches[n]), side, x);
    CountAtBatch(side, iterated[n].id, batches[n], x);
    if i < n {
      assert UniqueIds(iterated[..n]);
      SiblingLinksPerRow(side, iterated[..n], batches[..n], i);
      assert iterated[n].id != x;
    } else {
      SiblingLinksAbsent(side, iterated[..n], batches[..n], x);
    }
  }

  lemma {:induction false} SiblingLinksAbsent(side: Side, iterated: seq<Row>, batches: seq<seq<Row>>, x: IdValue)
    requires |iterated| == |batches| && forall i :: 0 <= i < |iterated| ==> iterated[i].id != x
    ensures CountAt(SiblingLinks(side, iterated, batches), side, x) == 0
  {
    if batches != [] {
      var n := |batches| - 1;
      CountAtAppend(SiblingLinks(side, iterated[..n], batches[..n]), BatchLinks(side, iterated[n].id, batches[n]), side, x);
      CountAtBatch(side, iterated[n].id, batches[n], x);
      SiblingLinksAbsent(side, iterated[..n], batches[..n], x);
    }
  }

  /** Every link joins an iterated row and a row of its batch. */
  lemma {:induction false} SiblingLinksEnds(side: Side, iterated: seq<Row>, batches: seq<seq<Row>>,
                                            models: set<IdValue>, others: set<IdValue>)
    requires |iterated| == |batches|
    requires forall i :: 0 <= i < |iterated| ==> iterated[i].id in models && IdsOf(batches[i]) <= others
    ensures forall l :: l in SiblingLinks(side, iterated, batches) ==>
              End(side, l) in models && End(if side == LeftSide then RightSide else LeftSide, l) in others
  {
    if batches != [] {
      var n := |batches| - 1;
      SiblingLinksEnds(side, iterated[..n], batches[..n], models, others);
      forall k | 0 <= k < |batches[n]|
        ensures batches[n][k].id in others
      {
        assert batches[n][k].id in IdsOf(batches[n]);
      }
    }
  }

  /** `QueryBuilder.iterate(on:_:)`: the iteration applied to every row the
      query returns, the results in query order; it fails with the first
      iteration that fails. */
  method Iterate<T>(db: Database, t: string, q: Query, iteration: Row -> Result<T>) returns (r: Result<seq<T>>)
    ensures r.Ok? <==> forall i :: 0 <= i < |db.Results(t, q)| ==> iteration(db.Results(t, q)[i]).Ok?
    ensures r.Ok? ==> |r.value| == |db.Results(t, q)| &&
                      forall i :: 0 <= i < |r.value| ==> r.value[i] == iteration(db.Results(t, q)[i]).value
    ensures r.Err? ==> exists i :: 0 <= i < |db.Results(t, q)| && iteration(db.Results(t, q)[i]) == Err(r.error) &&
                                   forall k :: 0 <= k < i ==> iteration(db.Results(t, q)[k]).Ok?
  {
    var models := db.Results(t, q);
    var results: seq<T> := [];
    for i := 0 to |models|
      invariant |results| == i
      invariant forall k :: 0 <= k < i ==> iteration(models[k]).Ok? && results[k] == iteration(models[k]).value
    {
      var result := iteration(models[i]);
      if result.Err? {
        return Err(result.error);
      }
      results := results + [result.value];
    }
    return Ok(results);
  }

  /** `QueryBuilder.iterateVoid(on:_:)`: `Iterate` with its results dropped. */
  method IterateVoid(db: Database, t: string, q: Query, iteration: Row -> Result<()>) returns (o: Outcome)
    ensures o.Pass? <==> forall i :: 0 <= i < |db.Results(t, q)| ==> iteration(db.Results(t, q)[i]).Ok?
    ensures o.Fail? ==> exists i :: 0 <= i < |db.Results(t, q)| && iteration(db.Results(t, q)[i]) == Err(o.error) &&
                                    forall k :: 0 <= k < i ==> iteration(db.Results(t, q)[k]).Ok?
  {
    var r := Iterate(db, t, q, iteration);
    o := if r.Ok? then Pass else Fail(r.error);
  }

  /** Setting `key` on every child to the parent's id and saving them, one
      after the other (`children.forEach` then `children.save(on:)`, with
      the children as references). */
  method SaveChildren(db: Database, t: string, children: seq<Row>, key: string, v: Value) returns (saved: seq<Row>)
    requires db.Valid()
    requires UniqueIds(children) && forall c :: c in children ==> c in Rows(db.tables, t)
    modifies db
    ensures db.Valid() && db.links == old(db.links)
    ensures db.tables == WithTable(old(db.tables), t, Assign(Rows(old(db.tables), t), IdsOf(children), key, v))
    ensures |saved| == |children| && forall k :: 0 <= k < |children| ==> saved[k] == WithField(children[k], key, v)
  {
    ghost var rows := Rows(db.tables, t);
    saved := [];
    assert IdsOf(children[..0]) == {};
    assert Assign(rows, {}, key, v) == rows;
    for k := 0 to |children|
      invariant db.Valid() && db.links == old(db.links)
      invariant db.tables == WithTable(old(db.tables), t, Assign(rows, IdsOf(children[..k]), key, v))
      invariant |saved| == k && forall k' :: 0 <= k' < k ==> saved[k'] == WithField(children[k'], key, v)
    {
      assert children[k] in rows;
      assert children[k].id !in IdsOf(children[..k]) by {
        forall k' | 0 <= k' < k
          ensures children[k'].id != children[k].id
        {
        }
      }
      AssignOneMore(rows, IdsOf(children[..k]), children[k], key, v);
      var child := WithField(children[k], key, v);
      db.Save(t, child);
      assert IdsOf(children[..k + 1]) == IdsOf(children[..k]) + {children[k].id} by {
        assert children[..k + 1] == children[..k] + [children[k]];
      }
      saved := saved + [child];
    }
    assert children[..|children|] == children;
  }

  /** Assigning one more batch is one more `Assign` on top. */
  lemma AssignAllOneMore(rows: seq<Row>, batches: seq<set<IdValue>>, key: string, values: seq<Value>,
                         b: set<IdValue>, v: Value)
    requires |batches| == |values|
    ensures AssignAll(rows, batches + [b], key, values + [v]) == Assign(AssignAll(rows, batches, key, values), b, key, v)
  {
    assert (batches + [b])[..|batches|] == batches;
    assert (values + [v])[..|values|] == values;
  }

  lemma SingletonsOneMore(done: seq<Row>, c: Row)
    ensures Singletons(done + [c]) == Singletons(done) + [{c.id}]
  {
  }

  lemma RefsOneMore(chosen: seq<Row>, p: Row)
    ensures Refs(chosen + [p]) == Refs(chosen) + [Ref(p.id)]
  {
  }

  /** A child no earlier batch named is still as it was. */
  lemma StillUnassigned(rows: seq<Row>, done: seq<Row>, chosen: seq<Row>, c: Row, key: string)
    requires UniqueIds(rows) && c in rows && |done| == |chosen|
    requires forall k :: 0 <= k < |done| ==> done[k].id != c.id
    ensures UniqueIds(AssignAll(rows, Singletons(done), key, Refs(chosen)))
    ensures c in AssignAll(rows, Singletons(done), key, Refs(chosen))
  {
    var x := AssignAll(rows, Singletons(done), key, Refs(chosen));
    SameIds(rows, x);
    var k :| 0 <= k < |rows| && rows[k] == c;
    LastAssignmentWins(rows, Singletons(done), key, Refs(chosen), k);
    assert x[k] == c;
  }

  /** A batch of ids assigned one after another, when no two children share
      an id: the next child's row is still as it was, and saving it with its
      key assigns one more batch. */
  lemma AttachOneMore(rows: seq<Row>, done: seq<Row>, chosen: seq<Row>, c: Row, p: Row, key: string)
    requires UniqueIds(rows) && c in rows && |done| == |chosen|
    requires forall k :: 0 <= k < |done| ==> done[k].id != c.id
    ensures UniqueIds(AssignAll(rows, Singletons(done), key, Refs(chosen)))
    ensures Replaced(AssignAll(rows, Singletons(done), key, Refs(chosen)), WithField(c, key, Ref(p.id))) ==
            AssignAll(rows, Singletons(done + [c]), key, Refs(chosen + [p]))
  {
    StillUnassigned(rows, done, chosen, c, key);
    ReplacedIsAssign(AssignAll(rows, Singletons(done), key, Refs(chosen)), c, key, Ref(p.id));
    SingletonsOneMore(done, c);
    RefsOneMore(chosen, p);
    AssignAllOneMore(rows, Singletons(done), key, Refs(chosen), {c.id}, Ref(p.id));
  }

  /** With singleton batches of distinct ids, the batch of a child is the
      last (and only) one that names it. */
  lemma SingletonsLast(children: seq<Row>, i: nat)
    requires UniqueIds(children) && i < |children|
    ensures LastWith(Singletons(children), children[i].id) == i
  {
    var r := LastWith(Singletons(children), children[i].id);
    assert children[i].id in Singletons(children)[i];
    assert children[r].id == children[i].id;
  }

  /** The row of every child holds, under `key`, the id of the parent chosen
      for that child. */
  ghost predicate EachChildHasItsParent(before: seq<Row>, after: seq<Row>, children: seq<Row>, chosen: seq<Row>, key: string)
  {
    && |chosen| == |children|
    && |after| == |before|
    && forall i, j :: 0 <= i < |children| && 0 <= j < |before| && before[j].id == children[i].id ==>
         after[j] == WithField(before[j], key, Ref(chosen[i].id))
  }

  /** Assigning each child, one at a time, the id of its chosen parent leaves
      every child with the id of its own parent. */
  lemma EveryChildAdopted(rows: seq<Row>, children: seq<Row>, chosen: seq<Row>, key: string)
    requires UniqueIds(children) && |chosen| == |children|
    ensures EachChildHasItsParent(rows, AssignAll(rows, Singletons(children), key, Refs(chosen)), children, chosen, key)
  {
    forall i, j | 0 <= i < |children| && 0 <= j < |rows| && rows[j].id == children[i].id
      ensures AssignAll(rows, Singletons(children), key, Refs(chosen))[j] == WithField(rows[j], key, Ref(chosen[i].id))
    {
      LastAssignmentWins(rows, Singletons(children), key, Refs(chosen), j);
      SingletonsLast(children, i);
    }
  }

  /** The draw of `attachRandomParent`'s iteration: a random row of the parent
      query, in the store as the earlier iterations left it. Reassigning keys
      keeps the ids of every table and leaves the other tables as they were. */
  method DrawParent(db: Database, parentType: string, parentQuery: Option<Query>, childType: string, keyPath: string,
                    ghost tables0: map<string, seq<Row>>, ghost batches: seq<set<IdValue>>, ghost chosen: seq<Row>)
    returns (parent: Option<Row>)
    requires |batches| == |chosen| && db.tables == Reassigned(tables0, childType, batches, keyPath, chosen)
    ensures parent.Some? ==> parent.value.id in IdsOf(Rows(tables0, parentType))
    ensures parentType != childType ==>
              (parent.None? <==> Select(Rows(tables0, parentType), OrAll(parentQuery)) == [])
    ensures parentType != childType && parent.Some? ==> parent.value in Select(Rows(tables0, parentType), OrAll(parentQuery))
  {
    ReassignedIds(tables0, childType, batches, keyPath, chosen, parentType);
    parent := db.Random(parentType, OrAll(parentQuery));
    if parent.Some? {
      assert parent.value.id in IdsOf(Rows(db.tables, parentType));
    }
  }

  /** Taking one more element of a sequence appends it. */
  lemma PrefixGrows<T>(s: seq<T>, i: nat)
    requires i < |s|
    ensures s[..i + 1] == s[..i] + [s[i]]
  {
  }

  /** With distinct ids, the i-th row's id is none of the earlier rows' ids. */
  lemma DistinctFromPrefix(rows: seq<Row>, i: nat)
    requires UniqueIds(rows) && i < |rows|
    ensures forall k :: 0 <= k < |rows[..i]| ==> rows[..i][k].id != rows[i].id
  {
  }

  /** The rest of `attachRandomParent`'s iteration: the i-th child gets the
      drawn parent's id under the key and is saved. */
  method SaveWithParent(db: Database, childType: string, keyPath: string, models: seq<Row>, i: nat, parent: Row,
                        ghost chosen: seq<Row>, ghost tables0: map<string, seq<Row>>)
    requires db.Valid() && i < |models| && |chosen| == i
    requires UniqueIds(models) && models[i] in Rows(tables0, childType) && UniqueIds(Rows(tables0, childType))
    requires db.tables == Reassigned(tables0, childType, Singletons(models[..i]), keyPath, chosen)
    modifies db
    ensures db.Valid() && db.links == old(db.links)
    ensures db.tables == Reassigned(tables0, childType, Singletons(models[..i + 1]), keyPath, chosen + [parent])
  {
    PrefixGrows(models, i);
    DistinctFromPrefix(models, i);
    AttachOneMore(Rows(tables0, childType), models[..i], chosen, models[i], parent, keyPath);
    db.Save(childType, WithField(models[i], keyPath, Ref(parent.id)));
  }

  /** `attachRandomParent(from:to:at:on:)`: every child the child query
      returns gets, under `keyPath`, the id of a random row of the parent
      query, and is saved; a parent query that returns no row aborts the
      seed with status 500. */
  method AttachRandomParent(db: Database, parentType: string, childType: string, keyPath: string,
                            parentQuery: Option<Query>, childQuery: Option<Query>)
    returns (o: Outcome, ghost children: seq<Row>, ghost chosen: seq<Row>)
    requires db.Valid()
    modifies db
    ensures db.Valid() && db.links == old(db.links)
    ensures children == old(db.Results(childType, OrAll(childQuery)))
    ensures o.Pass? <==> |chosen| == |children|
    ensures o.Fail? ==> |chosen| < |children| && o.error == Abort(InternalServerError)
    ensures forall p :: p in chosen ==> p.id in IdsOf(old(Rows(db.tables, parentType)))
    ensures db.tables == Reassigned(old(db.tables), childType, Singletons(children[..|chosen|]), keyPath, chosen)
    ensures o.Pass? ==> EachChildHasItsParent(old(Rows(db.tables, childType)), Rows(db.tables, childType), children, chosen, keyPath)
    ensures parentType != childType ==>
              (o.Fail? <==> children != [] && old(db.Results(parentType, OrAll(parentQuery))) == [])
    ensures parentType != childType ==> forall p :: p in chosen ==> p in old(db.Results(parentType, OrAll(parentQuery)))
  {
    ghost var rows0 := Rows(db.tables, childType);
    var models := db.Results(childType, OrAll(childQuery));
    children := models;
    assert UniqueIds(rows0);
    assert UniqueIds(models) && forall x :: x in models ==> x in rows0;
    o, chosen := AdoptChildren(db, parentType, childType, keyPath, parentQuery, models);
    if o.Pass? {
      assert models[..|models|] == models;
      EveryChildAdopted(rows0, models, chosen, keyPath);
    }
  }

  /** The loop of `attachRandomParent` over the fetched children `models`. */
  method AdoptChildren(db: Database, parentType: string, childType: string, keyPath: string,
                       parentQuery: Option<Query>, models: seq<Row>)
    returns (o: Outcome, ghost chosen: seq<Row>)
    requires db.Valid() && UniqueIds(models) && forall x :: x in models ==> x in Rows(db.tables, childType)
    modifies db
    ensures db.Valid() && db.links == old(db.links)
    ensures o.Pass? <==> |chosen| == |models|
    ensures o.Fail? ==> |chosen| < |models| && o.error == Abort(InternalServerError)
    ensures forall p :: p in chosen ==> p.id in IdsOf(old(Rows(db.tables, parentType)))
    ensures db.tables == Reassigned(old(db.tables), childType, Singletons(models[..|chosen|]), keyPath, chosen)
    ensures parentType != childType ==>
              (o.Fail? <==> models != [] && old(db.Results(parentType, OrAll(parentQuery))) == [])
    ensures parentType != childType ==> forall p :: p in chosen ==> p in old(db.Results(parentType, OrAll(parentQuery)))
  {
    ghost var pool0 := db.Results(parentType, OrAll(parentQuery));
    ghost var tables0 := db.tables;
    chosen := [];
    for i := 0 to |models|
      invariant db.Valid() && db.links == old(db.links)
      invariant |chosen| == i
      invariant db.tables == Reassigned(tables0, childType, Singletons(models[..i]), keyPath, chosen)
      invariant forall p :: p in chosen ==> p.id in IdsOf(Rows(tables0, parentType))
      invariant parentType != childType ==> forall p :: p in chosen ==> p in pool0
    {
      var parent := DrawParent(db, parentType, parentQuery, childType, keyPath, tables0, Singletons(models[..i]), chosen);
      if parent.None? {
        return Fail(Abort(InternalServerError)), chosen;
      }
      SaveWithParent(db, childType, keyPath, models, i, parent.value, chosen, tables0);
      chosen := chosen + [parent.value];
    }
    if parentType != childType && models != [] {
      assert chosen[0] in pool0;
    }
    o := Pass;
  }

  /** Saving one more batch of children with the next parent's id extends the
      reassignment by that batch. */
  lemma ReassignedOneMore(tables0: map<string, seq<Row>>, t: string, batches: seq<set<IdValue>>, key: string,
                          parents: seq<Row>, b: set<IdValue>, p: Row)
    requires |batches| == |parents|
    ensures var before := Reassigned(tables0, t, batches, key, parents);
            WithTable(before, t, Assign(Rows(before, t), b, key, Ref(p.id))) ==
            Reassigned(tables0, t, batches + [b], key, parents + [p])
  {
    assert (batches + [b])[..|batches|] == batches;
    assert Refs(parents + [p])[..|parents|] == Refs(parents);
  }

  /** The iteration of `attachRandomChildren` and `attachAllChildren` once
      the children are fetched: each gets the parent's id under the key, and
      they are saved. */
  method SaveBatch(db: Database, childType: string, keyPath: string, children: seq<Row>, parent: Row,
                   ghost batches: seq<seq<Row>>, ghost parents: seq<Row>, ghost tables0: map<string, seq<Row>>)
    requires db.Valid() && |batches| == |parents|
    requires UniqueIds(children) && forall c :: c in children ==> c in Rows(db.tables, childType)
    requires db.tables == Reassigned(tables0, childType, IdSets(batches), keyPath, parents)
    modifies db
    ensures db.Valid() && db.links == old(db.links)
    ensures db.tables == Reassigned(tables0, childType, IdSets(batches + [children]), keyPath, parents + [parent])
  {
    var saved := SaveChildren(db, childType, children, keyPath, Ref(parent.id));
    ReassignedOneMore(tables0, childType, IdSets(batches), keyPath, parents, IdsOf(children), parent);
    assert IdSets(batches + [children]) == IdSets(batches) + [IdsOf(children)];
  }

  /** The batch `random(count:)` draws for one parent: distinct rows of the
      child table, at most `count` of them, and exactly as many as `count`
      allows when no child query narrows the table. */
  ghost predicate SampledBatch(batch: seq<Row>, rows: seq<Row>, count: int, everyRow: bool)
  {
    && UniqueIds(batch)
    && IdsOf(batch) <= IdsOf(rows)
    && |batch| <= SampleSize(count, |rows|)
    && (everyRow ==> |batch| == SampleSize(count, |rows|))
  }

  /** The rows the child query returns when the batch after `batches` is
      drawn: the query runs on the child table as the earlier batches left it. */
  ghost function DrawPool(tables0: map<string, seq<Row>>, t: string, q: Query, key: string,
                          batches: seq<seq<Row>>, parents: seq<Row>): seq<Row>
    requires |batches| == |parents|
  {
    Select(Rows(Reassigned(tables0, t, IdSets(batches), key, parents), t), q)
  }

  /** `b` was drawn from `pool`: all of it (`all`), or a sample of `count` of its rows. */
  ghost predicate DrawnFrom(b: seq<Row>, pool: seq<Row>, count: int, all: bool)
  {
    if all then b == pool else IsSample(b, pool, SampleSize(count, |pool|))
  }

  /** Every batch was drawn from the child query as it stood at its draw,
      that is, on the child table as the batches before it left it. */
  ghost predicate DrawnEach(tables0: map<string, seq<Row>>, t: string, q: Query, key: string,
                            batches: seq<seq<Row>>, parents: seq<Row>, count: int, all: bool)
    requires |batches| <= |parents|
    decreases |batches|
  {
    batches != [] ==>
      var n := |batches| - 1;
      && DrawnEach(tables0, t, q, key, batches[..n], parents, count, all)
      && DrawnFrom(batches[n], DrawPool(tables0, t, q, key, batches[..n], parents[..n]), count, all)
  }

  /** A batch drawn from the query as the earlier batches left it extends
      `DrawnEach`. */
  lemma DrawnOneMore(tables0: map<string, seq<Row>>, t: string, q: Query, key: string,
                     batches: seq<seq<Row>>, parents: seq<Row>, count: int, all: bool, b: seq<Row>)
    requires |batches| < |parents| && DrawnEach(tables0, t, q, key, batches, parents, count, all)
    requires DrawnFrom(b, DrawPool(tables0, t, q, key, batches, parents[..|batches|]), count, all)
    ensures DrawnEach(tables0, t, q, key, batches + [b], parents, count, all)
  {
    assert (batches + [b])[..|batches|] == batches;
  }

  /** Batches drawn from the child query are distinct rows of the child
      table as it was before the run: a sample holds at most `count` of
      them, and without a child query a fetch holds every one and a sample
      exactly as many as `count` allows. */
  lemma {:induction false} DrawnFromTable(tables0: map<string, seq<Row>>, t: string, q: Option<Query>, key: string,
                                          batches: seq<seq<Row>>, parents: seq<Row>, count: int, all: bool)
    requires |batches| <= |parents| && UniqueIds(Rows(tables0, t))
    requires DrawnEach(tables0, t, OrAll(q), key, batches, parents, count, all)
    ensures forall b :: b in batches ==> UniqueIds(b) && IdsOf(b) <= IdsOf(Rows(tables0, t))
    ensures !all ==> forall b :: b in batches ==> SampledBatch(b, Rows(tables0, t), count, q.None?)
    ensures all && q.None? ==> forall b :: b in batches ==> IdsOf(b) == IdsOf(Rows(tables0, t))
  {
    if batches != [] {
      var n := |batches| - 1;
      var front := batches[..n];
      DrawnFromTable(tables0, t, q, key, front, parents, count, all);
      DrawnBatchFromTable(tables0, t, q, key, front, parents[..n], batches[n], count, all);
      assert forall b :: b in batches ==> b in front || b == batches[n];
    }
  }

  /** One batch drawn from the child query, read against the child table as
      it was before the run. */
  lemma DrawnBatchFromTable(tables0: map<string, seq<Row>>, t: string, q: Option<Query>, key: string,
                            prior: seq<seq<Row>>, priorParents: seq<Row>, b: seq<Row>, count: int, all: bool)
    requires |prior| == |priorParents| && UniqueIds(Rows(tables0, t))
    requires DrawnFrom(b, DrawPool(tables0, t, OrAll(q), key, prior, priorParents), count, all)
    ensures UniqueIds(b) && IdsOf(b) <= IdsOf(Rows(tables0, t))
    ensures !all ==> SampledBatch(b, Rows(tables0, t), count, q.None?)
    ensures all && q.None? ==> IdsOf(b) == IdsOf(Rows(tables0, t))
  {
    ReassignedIds(tables0, t, IdSets(prior), key, priorParents, t);
    if q.None? {
      SelectAll(Rows(Reassigned(tables0, t, IdSets(prior), key, priorParents), t));
    }
  }

  /** `attachRandomChildren(count:from:to:at:on:)`: for every row of the
      parent query, a random sample of `count` rows of the child query gets
      that parent's id under `keyPath`, and is saved. */
  method AttachRandomChildren(db: Database, parentType: string, childType: string, count: int, keyPath: string,
                              childQuery: Option<Query>, parentQuery: Option<Query>)
    returns (ghost parents: seq<Row>, ghost batches: seq<seq<Row>>)
    requires db.Valid()
    modifies db
    ensures db.Valid() && db.links == old(db.links)
    ensures parents == old(db.Results(parentType, OrAll(parentQuery)))
    ensures |batches| == |parents|
    ensures db.tables == Reassigned(old(db.tables), childType, IdSets(batches), keyPath, parents)
    ensures forall b :: b in batches ==> SampledBatch(b, old(Rows(db.tables, childType)), count, childQuery.None?)
    ensures DrawnEach(old(db.tables), childType, OrAll(childQuery), keyPath, batches, parents, count, false)
  {
    assert UniqueIds(Rows(db.tables, childType));
    var models := db.Results(parentType, OrAll(parentQuery));
    parents := models;
    batches := SampleForEach(db, childType, count, keyPath, childQuery, models);
    DrawnFromTable(old(db.tables), childType, childQuery, keyPath, batches, parents, count, false);
  }

  /** The loop of `attachRandomChildren` over the fetched parents `models`. */
  method SampleForEach(db: Database, childType: string, count: int, keyPath: string, childQuery: Option<Query>,
                       models: seq<Row>)
    returns (ghost batches: seq<seq<Row>>)
    requires db.Valid()
    modifies db
    ensures db.Valid() && db.links == old(db.links)
    ensures |batches| == |models|
    ensures db.tables == Reassigned(old(db.tables), childType, IdSets(batches), keyPath, models)
    ensures DrawnEach(old(db.tables), childType, OrAll(childQuery), keyPath, batches, models, count, false)
  {
    ghost var tables0 := db.tables;
    batches := [];
    for i := 0 to |models|
      invariant db.Valid() && db.links == old(db.links)
      invariant |batches| == i
      invariant db.tables == Reassigned(tables0, childType, IdSets(batches), keyPath, models[..i])
      invariant DrawnEach(tables0, childType, OrAll(childQuery), keyPath, batches, models, count, false)
    {
      ghost var children := SaveSample(db, childType, count, keyPath, childQuery, models, i, batches, tables0);
      DrawnOneMore(tables0, childType, OrAll(childQuery), keyPath, batches, models, count, false, children);
      batches := batches + [children];
    }
    assert models[..|models|] == models;
  }

  /** The iteration of `attachRandomChildren` for the i-th parent: a sample
      of the child query gets that parent's id under the key. */
  method SaveSample(db: Database, childType: string, count: int, keyPath: string, childQuery: Option<Query>,
                    models: seq<Row>, i: nat, ghost batches: seq<seq<Row>>, ghost tables0: map<string, seq<Row>>)
    returns (ghost children: seq<Row>)
    requires db.Valid() && i < |models| && |batches| == i
    requires db.tables == Reassigned(tables0, childType, IdSets(batches), keyPath, models[..i])
    modifies db
    ensures db.Valid() && db.links == old(db.links)
    ensures db.tables == Reassigned(tables0, childType, IdSets(batches + [children]), keyPath, models[..i + 1])
    ensures IsSample(children, old(db.Results(childType, OrAll(childQuery))),
                     SampleSize(count, |old(db.Results(childType, OrAll(childQuery)))|))
  {
    var sample := db.RandomSample(childType, OrAll(childQuery), count);
    children := sample;
    SaveBatch(db, childType, keyPath, sample, models[i], batches, models[..i], tables0);
    PrefixGrows(models, i);
  }

  /** When the last batch names every row of the child table, every child
      ends up with the last parent's id. */
  lemma LastBatchWins(tables0: map<string, seq<Row>>, t: string, batches: seq<seq<Row>>, key: string, parents: seq<Row>)
    requires |batches| == |parents| && parents != []
    requires IdsOf(batches[|batches| - 1]) == IdsOf(Rows(tables0, t))
    ensures forall j :: 0 <= j < |Rows(tables0, t)| ==>
              Rows(Reassigned(tables0, t, IdSets(batches), key, parents), t)[j] ==
              WithField(Rows(tables0, t)[j], key, Ref(parents[|parents| - 1].id))
  {
    var rows := Rows(tables0, t);
    ReassignedTable(tables0, t, IdSets(batches), key, parents);
    forall j | 0 <= j < |rows|
      ensures AssignAll(rows, IdSets(batches), key, Refs(parents))[j] == WithField(rows[j], key, Ref(parents[|parents| - 1].id))
    {
      LastAssignmentWins(rows, IdSets(batches), key, Refs(parents), j);
      assert rows[j].id in IdsOf(rows);
    }
  }

  /** `attachAllChildren(from:to:at:on:)`: for every row of the parent query,
      every row of the child query gets that parent's id under `keyPath`, and
      is saved; without a child query every child ends up with the last
      parent's id. */
  method AttachAllChildren(db: Database, parentType: string, childType: string, keyPath: string,
                           childQuery: Option<Query>, parentQuery: Option<Query>)
    returns (ghost parents: seq<Row>, ghost batches: seq<seq<Row>>)
    requires db.Valid()
    modifies db
    ensures db.Valid() && db.links == old(db.links)
    ensures parents == old(db.Results(parentType, OrAll(parentQuery)))
    ensures |batches| == |parents|
    ensures db.tables == Reassigned(old(db.tables), childType, IdSets(batches), keyPath, parents)
    ensures forall b :: b in batches ==> UniqueIds(b) && IdsOf(b) <= IdsOf(old(Rows(db.tables, childType)))
    ensures childQuery.None? ==> forall b :: b in batches ==> IdsOf(b) == IdsOf(old(Rows(db.tables, childType)))
    ensures DrawnEach(old(db.tables), childType, OrAll(childQuery), keyPath, batches, parents, 0, true)
    ensures childQuery.None? && parents != [] ==>
              forall j :: 0 <= j < |old(Rows(db.tables, childType))| ==>
                Rows(db.tables, childType)[j] ==
                WithField(old(Rows(db.tables, childType))[j], keyPath, Ref(parents[|parents| - 1].id))
  {
    assert UniqueIds(Rows(db.tables, childType));
    var models := db.Results(parentType, OrAll(parentQuery));
    parents := models;
    batches := FetchForEach(db, childType, keyPath, childQuery, models);
    DrawnFromTable(old(db.tables), childType, childQuery, keyPath, batches, parents, 0, true);
    if childQuery.None? && parents != [] {
      LastBatchWins(old(db.tables), childType, batches, keyPath, parents);
    }
  }

  /** The loop of `attachAllChildren` over the fetched parents `models`. */
  method FetchForEach(db: Database, childType: string, keyPath: string, childQuery: Option<Query>, models: seq<Row>)
    returns (ghost batches: seq<seq<Row>>)
    requires db.Valid()
    modifies db
    ensures db.Valid() && db.links == old(db.links)
    ensures |batches| == |models|
    ensures db.tables == Reassigned(old(db.tables), childType, IdSets(batches), keyPath, models)
    ensures DrawnEach(old(db.tables), childType, OrAll(childQuery), keyPath, batches, models, 0, true)
  {
    ghost var tables0 := db.tables;
    batches := [];
    for i := 0 to |models|
      invariant db.Valid() && db.links == old(db.links)
      invariant |batches| == i
      invariant db.tables == Reassigned(tables0, childType, IdSets(batches), keyPath, models[..i])
      invariant DrawnEach(tables0, childType, OrAll(childQuery), keyPath, batches, models, 0, true)
    {
      ghost var children := SaveAll(db, childType, keyPath, childQuery, models, i, batches, tables0);
      DrawnOneMore(tables0, childType, OrAll(childQuery), keyPath, batches, models, 0, true, children);
      batches := batches + [children];
    }
    assert models[..|models|] == models;
  }

  /** The iteration of `attachAllChildren` for the i-th parent: every row of
      the child query gets that parent's id under the key. */
  method SaveAll(db: Database, childType: string, keyPath: string, childQuery: Option<Query>,
                 models: seq<Row>, i: nat, ghost batches: seq<seq<Row>>, ghost tables0: map<string, seq<Row>>)
    returns (ghost children: seq<Row>)
    requires db.Valid() && i < |models| && |batches| == i
    requires db.tables == Reassigned(tables0, childType, IdSets(batches), keyPath, models[..i])
    modifies db
    ensures db.Valid() && db.links == old(db.links)
    ensures db.tables == Reassigned(tables0, childType, IdSets(batches + [children]), keyPath, models[..i + 1])
    ensures children == old(db.Results(childType, OrAll(childQuery)))
    ensures UniqueIds(children) && IdsOf(children) <= IdsOf(Rows(tables0, childType))
    ensures childQuery.None? ==> IdsOf(children) == IdsOf(Rows(tables0, childType))
  {
    ReassignedIds(tables0, childType, IdSets(batches), keyPath, models[..i], childType);
    if childQuery.None? {
      SelectAll(Rows(db.tables, childType));
    }
    var fetched := db.Results(childType, OrAll(childQuery));
    children := fetched;
    SaveBatch(db, childType, keyPath, fetched, models[i], batches, models[..i], tables0);
    PrefixGrows(models, i);
  }

  /** One more iterated row and its batch add that batch's links at the end. */
  lemma SiblingLinksOneMore(side: Side, iterated: seq<Row>, batches: seq<seq<Row>>, i: nat, batch: seq<Row>)
    requires i < |iterated| && |batches| == i
    ensures SiblingLinks(side, iterated[..i + 1], batches + [batch]) ==
            SiblingLinks(side, iterated[..i], batches) + BatchLinks(side, iterated[i].id, batch)
  {
    assert iterated[..i + 1][..i] == iterated[..i];
    assert (batches + [batch])[..i] == batches;
  }

  /** The loop shared by both `attachRandomSiblings` overloads: every row of
      the iterated query is attached, through the pivot table, to a random
      sample of `count` rows of the sampled query; `side` is the side of the
      pivot that holds the iterated row. */
  method AttachSampledSiblings(db: Database, pivotName: string, side: Side, iteratedType: string, sampledType: string,
                               count: int, iteratedQuery: Option<Query>, sampledQuery: Option<Query>)
    returns (ghost iterated: seq<Row>, ghost batches: seq<seq<Row>>)
    requires db.Valid()
    modifies db
    ensures db.Valid() && db.tables == old(db.tables)
    ensures iterated == old(db.Results(iteratedType, OrAll(iteratedQuery)))
    ensures |batches| == |iterated|
    ensures db.links == GrownLinks(old(db.links), pivotName, SiblingLinks(side, iterated, batches))
    ensures forall b :: b in batches ==>
              IsSample(b, db.Results(sampledType, OrAll(sampledQuery)), SampleSize(count, |db.Results(sampledType, OrAll(sampledQuery))|))
    ensures forall l :: l in SiblingLinks(side, iterated, batches) ==>
              End(side, l) in IdsOf(iterated) &&
              End(if side == LeftSide then RightSide else LeftSide, l) in IdsOf(db.Results(sampledType, OrAll(sampledQuery)))
  {
    var models := db.Results(iteratedType, OrAll(iteratedQuery));
    iterated := models;
    batches := AttachEach(db, pivotName, side, sampledType, count, sampledQuery, models);
    SampledLinksEnds(side, models, batches, db.Results(sampledType, OrAll(sampledQuery)),
                     SampleSize(count, |db.Results(sampledType, OrAll(sampledQuery))|));
  }

  /** The loop of `attachRandomSiblings` over the iterated rows `models`. */
  method AttachEach(db: Database, pivotName: string, side: Side, sampledType: string, count: int,
                    sampledQuery: Option<Query>, models: seq<Row>)
    returns (ghost batches: seq<seq<Row>>)
    requires db.Valid()
    modifies db
    ensures db.Valid() && db.tables == old(db.tables)
    ensures |batches| == |models|
    ensures db.links == GrownLinks(old(db.links), pivotName, SiblingLinks(side, models, batches))
    ensures forall b :: b in batches ==>
              IsSample(b, db.Results(sampledType, OrAll(sampledQuery)), SampleSize(count, |db.Results(sampledType, OrAll(sampledQuery))|))
  {
    ghost var links0 := db.links;
    ghost var pool := db.Results(sampledType, OrAll(sampledQuery));
    ghost var n := SampleSize(count, |pool|);
    batches := [];
    for i := 0 to |models|
      invariant db.Valid() && db.tables == old(db.tables)
      invariant |batches| == i
      invariant db.links == GrownLinks(links0, pivotName, SiblingLinks(side, models[..i], batches))
      invariant forall b :: b in batches ==> IsSample(b, pool, n)
    {
      var others := db.RandomSample(sampledType, OrAll(sampledQuery), count);
      AttachBatch(db, pivotName, side, models, i, others, batches, links0);
      batches := batches + [others];
    }
    assert models[..|models|] == models;
    assert db.Results(sampledType, OrAll(sampledQuery)) == pool;
  }

  /** With every batch a sample of `pool`, every link joins an iterated row
      and a row of `pool`. */
  lemma SampledLinksEnds(side: Side, iterated: seq<Row>, batches: seq<seq<Row>>, pool: seq<Row>, n: nat)
    requires |iterated| == |batches| && forall b :: b in batches ==> IsSample(b, pool, n)
    ensures forall l :: l in SiblingLinks(side, iterated, batches) ==>
              End(side, l) in IdsOf(iterated) && End(if side == LeftSide then RightSide else LeftSide, l) in IdsOf(pool)
  {
    forall i | 0 <= i < |iterated|
      ensures iterated[i].id in IdsOf(iterated) && IdsOf(batches[i]) <= IdsOf(pool)
    {
      assert batches[i] in batches;
    }
    SiblingLinksEnds(side, iterated, batches, IdsOf(iterated), IdsOf(pool));
  }

  /** The iteration of `attachRandomSiblings` once the sample is drawn: one
      pivot row between the iterated row and each sampled row. */
  method AttachBatch(db: Database, pivotName: string, side: Side, models: seq<Row>, i: nat, others: seq<Row>,
                     ghost batches: seq<seq<Row>>, ghost links0: map<string, seq<Link>>)
    requires i < |models| && |batches| == i
    requires db.links == GrownLinks(links0, pivotName, SiblingLinks(side, models[..i], batches))
    modifies db
    ensures db.tables == old(db.tables)
    ensures db.links == GrownLinks(links0, pivotName, SiblingLinks(side, models[..i + 1], batches + [others]))
  {
    db.Attach(pivotName, BatchLinks(side, models[i].id, others));
    GrownLinksTwice(links0, pivotName, SiblingLinks(side, models[..i], batches), BatchLinks(side, models[i].id, others));
    SiblingLinksOneMore(side, models, batches, i, others);
  }

  /** `attachRandomSiblings(count:from:to:on:)`, the overload whose first
      query is over the right model: every left row of the left query gets
      `count` random rows of the right query. */
  method AttachRandomSiblingsToLeft(db: Database, pivot: Pivot, count: int, rightQuery: Option<Query>,
                                    leftQuery: Option<Query>)
    returns (ghost iterated: seq<Row>, ghost batches: seq<seq<Row>>)
    requires db.Valid()
    modifies db
    ensures db.Valid() && db.tables == old(db.tables)
    ensures iterated == old(db.Results(pivot.left, OrAll(leftQuery)))
    ensures |batches| == |iterated|
    ensures db.links == GrownLinks(old(db.links), pivot.name, SiblingLinks(LeftSide, iterated, batches))
    ensures forall b :: b in batches ==>
              IsSample(b, db.Results(pivot.right, OrAll(rightQuery)), SampleSize(count, |db.Results(pivot.right, OrAll(rightQuery))|))
  {
    iterated, batches := AttachSampledSiblings(db, pivot.name, LeftSide, pivot.left, pivot.right, count, leftQuery, rightQuery);
  }

  /** `attachRandomSiblings(count:from:to:on:)`, the overload whose first
      query is over the left model: every right row of the right query gets
      `count` random rows of the left query. */
  method AttachRandomSiblingsToRight(db: Database, pivot: Pivot, count: int, leftQuery: Option<Query>,
                                     rightQuery: Option<Query>)
    returns (ghost iterated: seq<Row>, ghost batches: seq<seq<Row>>)
    requires db.Valid()
    modifies db
    ensures db.Valid() && db.tables == old(db.tables)
    ensures iterated == old(db.Results(pivot.right, OrAll(rightQuery)))
    ensures |batches| == |iterated|
    ensures db.links == GrownLinks(old(db.links), pivot.name, SiblingLinks(RightSide, iterated, batches))
    ensures forall b :: b in batches ==>
              IsSample(b, db.Results(pivot.left, OrAll(leftQuery)), SampleSize(count, |db.Results(pivot.left, OrAll(leftQuery))|))
  {
    iterated, batches := AttachSampledSiblings(db, pivot.name, RightSide, pivot.right, pivot.left, count, rightQuery, leftQuery);
  }

  /** Every iterated row gains exactly as many links as a sample holds:
      `count` when the sampled query returns at least that many rows. */
  lemma EveryRowGetsItsSiblings(links0: map<string, seq<Link>>, p: string, side: Side, iterated: seq<Row>,
                                batches: seq<seq<Row>>, pool: seq<Row>, count: int, i: nat)
    requires |iterated| == |batches| && UniqueIds(iterated) && i < |iterated|
    requires forall b :: b in batches ==> IsSample(b, pool, SampleSize(count, |pool|))
    ensures CountAt(Links(GrownLinks(links0, p, SiblingLinks(side, iterated, batches)), p), side, iterated[i].id) ==
            CountAt(Links(links0, p), side, iterated[i].id) + SampleSize(count, |pool|)
  {
    CountAtAppend(Links(links0, p), SiblingLinks(side, iterated, batches), side, iterated[i].id);
    SiblingLinksPerRow(side, iterated, batches, i);
    assert batches[i] in batches;
  }

  /** The rows `createBatch` adds for a seed of `count` models: fresh, distinct
      ids, each record fitting the store as it was when it was created. */
  ghost predicate NewModels(enums: map<string, seq<Value>>, tables: map<string, seq<Row>>, m: ModelType, count: int,
                            rows: seq<Row>)
  {
    && |rows| == (if count > 0 then count else 0)
    && UniqueIds(rows)
    && BatchFits(enums, tables, m, rows)
  }

  /** What preparing one seed unit does to the store, and how it ends. */
  ghost predicate SeedEffect(unit: SeedUnit, before: State, after: State, o: Outcome)
    reads if unit.ModelSeed? then {unit.factory} else {}
  {
    match unit
    case ModelSeed(m, factory, count) =>
      && after.links == before.links
      && (o.Pass? <==> count <= 0 || CanRandomize(factory.enumFactory, before.tables, m.properties))
      && (o.Fail? ==> after.tables == before.tables)
      && (o.Pass? ==> exists rows: seq<Row> :: NewModels(factory.enumFactory, before.tables, m, count, rows) &&
                                     after.tables == Grown(before.tables, m.name, rows))
    case SiblingSeed(pivot, count, leftQuery, rightQuery, direction) =>
      var side := if direction == RightToLeft then LeftSide else RightSide;
      var iterated := if direction == RightToLeft then Select(Rows(before.tables, pivot.left), OrAll(leftQuery))
                      else Select(Rows(before.tables, pivot.right), OrAll(rightQuery));
      var pool := if direction == RightToLeft then Select(Rows(before.tables, pivot.right), OrAll(rightQuery))
                  else Select(Rows(before.tables, pivot.left), OrAll(leftQuery));
      && o == Pass
      && after.tables == before.tables
      && exists batches: seq<seq<Row>> :: |batches| == |iterated| &&
                           (forall b :: b in batches ==> IsSample(b, pool, SampleSize(count, |pool|))) &&
                           after.links == GrownLinks(before.links, pivot.name, SiblingLinks(side, iterated, batches))
    case ChildSeed(parentType, childType, count, keyPath, childQuery, parentQuery) =>
      var parents := Select(Rows(before.tables, parentType), OrAll(parentQuery));
      && o == Pass
      && after.links == before.links
      && exists batches: seq<seq<Row>> :: |batches| == |parents| &&
                           (forall b :: b in batches ==> SampledBatch(b, Rows(before.tables, childType), count, childQuery.None?)) &&
                           DrawnEach(before.tables, childType, OrAll(childQuery), keyPath, batches, parents, count, false) &&
                           after.tables == Reassigned(before.tables, childType, IdSets(batches), keyPath, parents)
    case ParentSeed(parentType, childType, keyPath, parentQuery, childQuery) =>
      var children := Select(Rows(before.tables, childType), OrAll(childQuery));
      && after.links == before.links
      && (o.Fail? ==> o.error == Abort(InternalServerError))
      && (parentType != childType ==>
            (o.Fail? <==> children != [] && Select(Rows(before.tables, parentType), OrAll(parentQuery)) == []))
      && exists chosen: seq<Row> :: |chosen| <= |children| &&
                          (o.Pass? <==> |chosen| == |children|) &&
                          (forall p :: p in chosen ==> p.id in IdsOf(Rows(before.tables, parentType))) &&
                          (parentType != childType ==>
                             forall p :: p in chosen ==> p in Select(Rows(before.tables, parentType), OrAll(parentQuery))) &&
                          after.tables == Reassigned(before.tables, childType, Singletons(children[..|chosen|]), keyPath, chosen)
  }

  /** `Seed.prepare(on:)`: `count` new models from the seed's factory; the
      `try!` turns a failure to create them into a failed run. */
  method PrepareModelSeed(db: Database, unit: SeedUnit) returns (o: Outcome)
    requires db.Valid() && unit.ModelSeed?
    modifies db
    ensures db.Valid()
    ensures SeedEffect(unit, old(db.Snapshot()), db.Snapshot(), o)
  {
    var r := CreateBatch(unit.factory, db, unit.model, unit.count);
    o := if r.Ok? then Pass else Fail(r.error);
  }

  /** `SiblingSeed.prepare(on:)`: `rightToLeft` attaches right rows to every
      left row, `leftToRight` left rows to every right row. */
  method PrepareSiblingSeed(db: Database, unit: SeedUnit) returns (o: Outcome)
    requires db.Valid() && unit.SiblingSeed?
    modifies db
    ensures db.Valid()
    ensures SeedEffect(unit, old(db.Snapshot()), db.Snapshot(), o)
  {
    match unit.direction {
      case LeftToRight =>
        ghost var iterated, batches := AttachRandomSiblingsToRight(db, unit.pivot, unit.count, unit.leftQuery, unit.rightQuery);
      case RightToLeft =>
        ghost var iterated, batches := AttachRandomSiblingsToLeft(db, unit.pivot, unit.count, unit.rightQuery, unit.leftQuery);
    }
    o := Pass;
  }

  /** `ChildSeed.prepare(on:)`: `count` random children for every parent. */
  method PrepareChildSeed(db: Database, unit: SeedUnit) returns (o: Outcome)
    requires db.Valid() && unit.ChildSeed?
    modifies db
    ensures db.Valid()
    ensures SeedEffect(unit, old(db.Snapshot()), db.Snapshot(), o)
  {
    ghost var parents, batches := AttachRandomChildren(db, unit.parentType, unit.childType, unit.count, unit.keyPath,
                                                       unit.childQuery, unit.parentQuery);
    o := Pass;
  }

  /** `ParentSeed.prepare(on:)`: a random parent for every child. */
  method PrepareParentSeed(db: Database, unit: SeedUnit) returns (o: Outcome)
    requires db.Valid() && unit.ParentSeed?
    modifies db
    ensures db.Valid()
    ensures SeedEffect(unit, old(db.Snapshot()), db.Snapshot(), o)
  {
    ghost var children, chosen;
    o, children, chosen := AttachRandomParent(db, unit.parentType, unit.childType, unit.keyPath,
                                              unit.parentQuery, unit.childQuery);
  }

  /** `prepare(on:)` of whichever seed the unit is. */
  method PrepareUnit(db: Database, unit: SeedUnit) returns (o: Outcome)
    requires db.Valid()
    modifies db
    ensures db.Valid()
    ensures SeedEffect(unit, old(db.Snapshot()), db.Snapshot(), o)
  {
    match unit
    case ModelSeed(_, _, _) => o := PrepareModelSeed(db, unit);
    case SiblingSeed(_, _, _, _, _) => o := PrepareSiblingSeed(db, unit);
    case ChildSeed(_, _, _, _, _, _) => o := PrepareChildSeed(db, unit);
    case ParentSeed(_, _, _, _, _) => o := PrepareParentSeed(db, unit);
  }

  /** `revert(on:)` of every seed: `.done(on:)`, the store untouched. */
  method RevertUnit(db: Database, unit: SeedUnit) returns (o: Outcome)
    ensures o == Pass
  {
    o := Pass;
  }
}
