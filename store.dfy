/** An in-memory stand-in for the Fluent database the seeder writes through:
    one table of rows per model type, one list of links per pivot (join)
    type, queries as row filters, and random sampling as a nondeterministic
    choice among the rows a query returns. */
module Store {
  import opened Values

  /** A persisted row: its id and its named fields. */
  datatype Row = Row(id: IdValue, fields: map<string, Value>)

  /** A model instance that has not been persisted yet; the store assigns an
      id when it has none. */
  datatype Instance = Instance(id: Option<IdValue>, fields: map<string, Value>)

  /** A row of a pivot table: the id of the left model and of the right model. */
  datatype Link = Link(left: IdValue, right: IdValue)

  /** The whole content of the store at one moment. */
  datatype State = State(tables: map<string, seq<Row>>, links: map<string, seq<Link>>)

  /** A query over one model type: the filter it applies to that type's rows. */
  datatype Query = Query(keep: Row -> bool)

  /** `query ?? Model.query(on: conn)`: an absent query selects every row. */
  function OrAll(q: Option<Query>): Query
  {
    if q.Some? then q.value else Query(_ => true)
  }

  function Rows(tables: map<string, seq<Row>>, t: string): seq<Row>
  {
    if t in tables then tables[t] else []
  }

  function Links(links: map<string, seq<Link>>, p: string): seq<Link>
  {
    if p in links then links[p] else []
  }

  function IdsOf(rows: seq<Row>): set<IdValue>
  {
    set r | r in rows :: r.id
  }

  predicate UniqueIds(rows: seq<Row>)
  {
    forall i, j :: 0 <= i < j < |rows| ==> rows[i].id != rows[j].id
  }

  function WithField(row: Row, key: string, v: Value): Row
  {
    Row(row.id, row.fields[key := v])
  }

  /** The rows a query returns, in table order. */
  function Select(rows: seq<Row>, q: Query): (r: seq<Row>)
    ensures |r| <= |rows|
    ensures forall x :: x in r <==> x in rows && q.keep(x)
    ensures UniqueIds(rows) ==> UniqueIds(r)
  {
    if rows == [] then []
    else
      var rest := Select(rows[1..], q);
      assert UniqueIds(rows) ==> rows[0].id !in IdsOf(rows[1..]);
      (if q.keep(rows[0]) then [rows[0]] else []) + rest
  }

  /** Without a query every row is selected. */
  lemma {:induction false} SelectAll(rows: seq<Row>)
    ensures Select(rows, OrAll(None)) == rows
  {
    if rows != [] {
      SelectAll(rows[1..]);
      assert [rows[0]] + rows[1..] == rows;
    }
  }

  /** Rows that have the same ids position by position have the same id set. */
  lemma SameIds(a: seq<Row>, b: seq<Row>)
    requires |a| == |b| && forall j :: 0 <= j < |a| ==> a[j].id == b[j].id
    ensures IdsOf(a) == IdsOf(b)
    ensures UniqueIds(a) ==> UniqueIds(b)
  {
    forall x | x in IdsOf(a)
      ensures x in IdsOf(b)
    {
      var r :| r in a && r.id == x;
      var j :| 0 <= j < |a| && a[j] == r;
      assert b[j] in b;
    }
    forall x | x in IdsOf(b)
      ensures x in IdsOf(a)
    {
      var r :| r in b && r.id == x;
      var j :| 0 <= j < |b| && b[j] == r;
      assert a[j] in a;
    }
  }

  /** The largest integer id among the rows, or 0. */
  function MaxIntId(rows: seq<Row>): (m: nat)
    ensures forall r :: r in rows && r.id.IntId? ==> r.id.n <= m
  {
    if rows == [] then 0
    else
      var rest := MaxIntId(rows[1..]);
      assert forall r :: r in rows ==> r == rows[0] || r in rows[1..];
      if rows[0].id.IntId? && rows[0].id.n > rest then rows[0].id.n else rest
  }

  /** The id an auto-incrementing primary key gives the next inserted row. */
  function FreshId(rows: seq<Row>): (id: IdValue)
    ensures id !in IdsOf(rows)
  {
    IntId(MaxIntId(rows) + 1)
  }

  /** How many rows `random(count:)` returns from a pool of `available` rows. */
  function SampleSize(count: int, available: nat): (n: nat)
    ensures n <= available
    ensures count <= 0 ==> n == 0
    ensures 0 <= count <= available ==> n == count
    ensures count >= available ==> n == available
  {
    if count <= 0 then 0 else if count < available then count else available
  }

  /** `s` is a sample of `n` distinct rows drawn from `pool`. */
  predicate IsSample(s: seq<Row>, pool: seq<Row>, n: nat)
  {
    |s| == n && (forall x :: x in s ==> x in pool) && UniqueIds(s)
  }

  /** `rows` with the row of the same id as `row` replaced by it. */
  function Replaced(rows: seq<Row>, row: Row): (r: seq<Row>)
    ensures |r| == |rows|
    ensures forall i :: 0 <= i < |rows| ==> r[i] == if rows[i].id == row.id then row else rows[i]
  {
    seq(|rows|, i requires 0 <= i < |rows| => if rows[i].id == row.id then row else rows[i])
  }

  /** The tables after `added` was inserted into table `t`. */
  function Grown(tables: map<string, seq<Row>>, t: string, added: seq<Row>): (r: map<string, seq<Row>>)
    ensures forall x :: Rows(r, x) == if x == t then Rows(tables, t) + added else Rows(tables, x)
    ensures forall x :: x in tables ==> x in r
  {
    if added == [] then tables else tables[t := Rows(tables, t) + added]
  }

  lemma GrownTwice(tables: map<string, seq<Row>>, t: string, a: seq<Row>, b: seq<Row>)
    ensures Grown(Grown(tables, t, a), t, b) == Grown(tables, t, a + b)
  {
    if a == [] {
      assert a + b == b;
    } else if b == [] {
      assert a + b == a;
    } else {
      assert Rows(tables, t) + a + b == Rows(tables, t) + (a + b);
    }
  }

  /** The pivot tables after `added` was inserted into pivot table `p`. */
  function GrownLinks(links: map<string, seq<Link>>, p: string, added: seq<Link>): (r: map<string, seq<Link>>)
    ensures forall x :: Links(r, x) == if x == p then Links(links, p) + added else Links(links, x)
  {
    if added == [] then links else links[p := Links(links, p) + added]
  }

  lemma GrownLinksTwice(links: map<string, seq<Link>>, p: string, a: seq<Link>, b: seq<Link>)
    ensures GrownLinks(GrownLinks(links, p, a), p, b) == GrownLinks(links, p, a + b)
  {
    if a == [] {
      assert a + b == b;
    } else if b == [] {
      assert a + b == a;
    } else {
      assert Links(links, p) + a + b == Links(links, p) + (a + b);
    }
  }

  lemma {:induction false} UniqueIdsCount(rows: seq<Row>)
    requires UniqueIds(rows)
    ensures |IdsOf(rows)| == |rows|
  {
    if rows != [] {
      UniqueIdsCount(rows[1..]);
      assert IdsOf(rows) == {rows[0].id} + IdsOf(rows[1..]);
      assert rows[0].id !in IdsOf(rows[1..]);
    }
  }

  lemma IdsOfAppend(a: seq<Row>, b: seq<Row>)
    ensures IdsOf(a + b) == IdsOf(a) + IdsOf(b)
  {
    assert forall r :: r in a + b <==> r in a || r in b;
  }

  lemma AppendKeepsUnique(rows: seq<Row>, row: Row)
    requires UniqueIds(rows) && row.id !in IdsOf(rows)
    ensures UniqueIds(rows + [row])
    ensures IdsOf(rows + [row]) == IdsOf(rows) + {row.id}
  {
    assert forall i :: 0 <= i < |rows| ==> rows[i].id in IdsOf(rows);
  }

  class Database {
    var tables: map<string, seq<Row>>
    var links: map<string, seq<Link>>

    /** A primary key is unique within its table. */
    ghost predicate Valid()
      reads this
    {
      forall t :: t in tables ==> UniqueIds(tables[t])
    }

    function Snapshot(): State
      reads this
    {
      State(tables, links)
    }

    function Results(t: string, q: Query): seq<Row>
      reads this
    {
      Select(Rows(tables, t), q)
    }

    constructor ()
      ensures Valid() && tables == map[] && links == map[]
    {
      tables := map[];
      links := map[];
    }

    /** `Model.find(id, on:)`. */
    method Find(t: string, id: IdValue) returns (r: Option<Row>)
      ensures r.Some? <==> id in IdsOf(Rows(tables, t))
      ensures r.Some? ==> r.value in Rows(tables, t) && r.value.id == id
    {
      var rows := Rows(tables, t);
      var i := 0;
      while i < |rows|
        invariant 0 <= i <= |rows|
        invariant forall k :: 0 <= k < i ==> rows[k].id != id
      {
        if rows[i].id == id {
          return Some(rows[i]);
        }
        i := i + 1;
      }
      return None;
    }

    /** `query.random()`: some row the query returns, or none when it returns none. */
    method Random(t: string, q: Query) returns (r: Option<Row>)
      ensures r.None? <==> Results(t, q) == []
      ensures r.Some? ==> r.value in Results(t, q)
    {
      var pool := Results(t, q);
      if pool == [] {
        return None;
      }
      var i :| 0 <= i < |pool|;
      return Some(pool[i]);
    }

    /** `query.random(count:)`: as many distinct rows as asked for, or every
        row when the query returns fewer. */
    method RandomSample(t: string, q: Query, count: int) returns (s: seq<Row>)
      requires Valid()
      ensures IsSample(s, Results(t, q), SampleSize(count, |Results(t, q)|))
    {
      var pool := Results(t, q);
      var n := SampleSize(count, |pool|);
      assert IsSample(pool[..n], pool, n);
      s :| IsSample(s, pool, n);
    }

    /** `model.create(on:)`: inserts the instance, giving it a fresh id when it
        has none; an id already in the table violates the primary key. */
    method Create(t: string, inst: Instance) returns (r: Result<Row>)
      requires Valid()
      modifies this
      ensures Valid() && links == old(links)
      ensures r.Err? <==> inst.id.Some? && inst.id.value in IdsOf(old(Rows(tables, t)))
      ensures r.Err? ==> tables == old(tables) && r.error == DuplicateId(t, inst.id.value)
      ensures r.Ok? ==> tables == old(tables)[t := old(Rows(tables, t)) + [r.value]]
      ensures r.Ok? ==> r.value.fields == inst.fields && r.value.id !in IdsOf(old(Rows(tables, t)))
      ensures r.Ok? && inst.id.Some? ==> r.value.id == inst.id.value
    {
      var rows := Rows(tables, t);
      if inst.id.Some? && inst.id.value in IdsOf(rows) {
        return Err(DuplicateId(t, inst.id.value));
      }
      var id := if inst.id.Some? then inst.id.value else FreshId(rows);
      var row := Row(id, inst.fields);
      AppendKeepsUnique(rows, row);
      tables := tables[t := rows + [row]];
      return Ok(row);
    }

    /** `model.save(on:)` on a persisted model: updates the row with its id. */
    method Save(t: string, row: Row)
      requires Valid()
      modifies this
      ensures Valid() && links == old(links)
      ensures tables == if t in old(tables) then old(tables)[t := Replaced(old(tables)[t], row)] else old(tables)
    {
      if t in tables {
        tables := tables[t := Replaced(tables[t], row)];
      }
    }

    /** `siblings.attach(models)`: one new pivot row per attached model. */
    method Attach(p: string, added: seq<Link>)
      modifies this
      ensures tables == old(tables)
      ensures links == GrownLinks(old(links), p, added)
    {
      if added != [] {
        links := links[p := Links(links, p) + added];
      }
    }
  }
}
