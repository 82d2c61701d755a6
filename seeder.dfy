/** A seeder: a migration whose preparation runs its seeds one after the
    other, stopping at the first that fails, and whose revert reverts them
    in the same order. */
module Seeder {
  import opened Values
  import opened Store
  import opened Seed

  /** The objects the effects of the seed units read: their factories. */
  function Factories(units: seq<SeedUnit>): set<object>
  {
    set k | 0 <= k < |units| && units[k].ModelSeed? :: units[k].factory
  }

  /** The first `|outcomes|` seeds ran one after the other: the k-th took the
      store from `trace[k]` to `trace[k + 1]` and ended with `outcomes[k]`. */
  ghost predicate Ran(units: seq<SeedUnit>, trace: seq<State>, outcomes: seq<Outcome>)
    reads Factories(units)
    decreases |outcomes|
  {
    && |outcomes| <= |units|
    && |trace| == |outcomes| + 1
    && (outcomes != [] ==>
          var n := |outcomes| - 1;
          Ran(units, trace[..n + 1], outcomes[..n]) && SeedEffect(units[n], trace[n], trace[n + 1], outcomes[n]))
  }

  /** A run that went one seed further. */
  lemma RanOneMore(units: seq<SeedUnit>, trace: seq<State>, outcomes: seq<Outcome>, s: State, o: Outcome)
    requires Ran(units, trace, outcomes) && |outcomes| < |units|
    requires SeedEffect(units[|outcomes|], trace[|outcomes|], s, o)
    ensures Ran(units, trace + [s], outcomes + [o])
  {
    assert (trace + [s])[..|outcomes| + 1] == trace;
    assert (outcomes + [o])[..|outcomes|] == outcomes;
  }

  /** The first `m` seeds of a run are a run. */
  lemma {:induction false} RanPrefix(units: seq<SeedUnit>, trace: seq<State>, outcomes: seq<Outcome>, m: nat)
    requires Ran(units, trace, outcomes) && m <= |outcomes|
    ensures Ran(units, trace[..m + 1], outcomes[..m])
    decreases |outcomes|
  {
    var n := |outcomes| - 1;
    if m == |outcomes| {
      assert trace[..m + 1] == trace && outcomes[..m] == outcomes;
    } else {
      RanPrefix(units, trace[..n + 1], outcomes[..n], m);
      assert trace[..n + 1][..m + 1] == trace[..m + 1];
      assert outcomes[..n][..m] == outcomes[..m];
    }
  }

  /** `SeedEffect` carried over to arguments equal to the ones it holds for.
      `RanEach` uses it to read one seed's effect off a prefix of the run
      without unfolding `SeedEffect` itself. */
  lemma SameEffect(unit: SeedUnit, before: State, after: State, o: Outcome,
                    unit': SeedUnit, before': State, after': State, o': Outcome)
    requires SeedEffect(unit, before, after, o)
    requires unit == unit' && before == before' && after == after' && o == o'
    ensures SeedEffect(unit', before', after', o')
  {
  }

  /** Every seed of a run had the effect of its `prepare`. */
  lemma RanEach(units: seq<SeedUnit>, trace: seq<State>, outcomes: seq<Outcome>, k: nat)
    requires Ran(units, trace, outcomes) && k < |outcomes|
    ensures SeedEffect(units[k], trace[k], trace[k + 1], outcomes[k])
  {
    RanPrefix(units, trace, outcomes, k + 1);
    var t, os := trace[..k + 2], outcomes[..k + 1];
    assert Ran(units, t, os);
    SameEffect(units[k], t[k], t[k + 1], os[k], units[k], trace[k], trace[k + 1], outcomes[k]);
  }

  /** `n` passed seeds. */
  function Passes(n: nat): (r: seq<Outcome>)
    ensures |r| == n && forall k :: 0 <= k < n ==> r[k] == Pass
  {
    seq(n, _ => Pass)
  }

  /** `Seeder.prepare(on:)`: each seed's `prepare` in list order; the first
      failure ends the run. `trace[k]` is the store before the k-th seed and
      `outcomes[k]` how that seed ended. */
  method Prepare(db: Database, units: seq<SeedUnit>)
    returns (o: Outcome, ghost trace: seq<State>, ghost outcomes: seq<Outcome>)
    requires db.Valid()
    modifies db
    ensures db.Valid()
    ensures Ran(units, trace, outcomes)
    ensures trace[0] == old(db.Snapshot()) && trace[|outcomes|] == db.Snapshot()
    ensures outcomes == [] ==> o == Pass
    ensures outcomes != [] ==> outcomes == Passes(|outcomes| - 1) + [o]
    ensures o.Pass? <==> outcomes == Passes(|units|)
    ensures units == [] ==> o == Pass && db.Snapshot() == old(db.Snapshot())
  {
    trace := [db.Snapshot()];
    outcomes := [];
    o := Pass;
    var i := 0;
    while i < |units| && o == Pass
      invariant 0 <= i <= |units|
      invariant db.Valid()
      invariant |outcomes| == i && |trace| == i + 1
      invariant trace[0] == old(db.Snapshot()) && trace[i] == db.Snapshot()
      invariant Ran(units, trace, outcomes)
      invariant i == 0 ==> o == Pass
      invariant i > 0 ==> outcomes == Passes(i - 1) + [o]
    {
      o, trace, outcomes := PrepareNext(db, units, i, trace, outcomes);
      i := i + 1;
    }
  }

  /** One iteration of `asyncForEach`: the next seed's `prepare`, recorded in
      the run. */
  method PrepareNext(db: Database, units: seq<SeedUnit>, i: nat, ghost trace: seq<State>, ghost outcomes: seq<Outcome>)
    returns (o: Outcome, ghost trace': seq<State>, ghost outcomes': seq<Outcome>)
    requires db.Valid() && Ran(units, trace, outcomes) && i == |outcomes| < |units|
    requires trace[i] == db.Snapshot()
    modifies db
    ensures db.Valid() && Ran(units, trace', outcomes')
    ensures trace' == trace + [db.Snapshot()] && outcomes' == outcomes + [o]
  {
    assert db !in Factories(units);
    o := PrepareUnit(db, units[i]);
    RanOneMore(units, trace, outcomes, db.Snapshot(), o);
    trace' := trace + [db.Snapshot()];
    outcomes' := outcomes + [o];
  }

  /** `Seeder.revert(on:)`: each seed's `revert` in list order; none of them
      touches the store. */
  method Revert(db: Database, units: seq<SeedUnit>) returns (o: Outcome)
    ensures o == Pass
  {
    for i := 0 to |units|
    {
      var step := RevertUnit(db, units[i]);
      if step.Fail? {
        return step;
      }
    }
    o := Pass;
  }
}
