/** `Migrator.migrate_to_latest`: every pending migration in a transaction of its own.

    A schema is a value of any type `S`.  A migration either applies its whole change or is
    interrupted, leaving an arbitrary partial change for the rollback to undo. */
module Migrator {
  import opened Wrappers

  datatype Migration<!S> = Migration(version: int, up: S -> S)

  // `version` is 0 until the version row exists; it is rolled back with the schema.  `log` records
  // the versions in the order their transactions committed.
  datatype Store<S> = Store(schema: S, version: int, log: seq<int>)

  // For every version, how its migration fails in one call: None when it does not.
  type Faults<!S> = int -> Option<S>

  ghost predicate Ascending<S>(ms: seq<Migration<S>>)
  {
    forall i, j :: 0 <= i < j < |ms| ==> ms[i].version < ms[j].version
  }

  // The first migration from i on that is newer than a version.
  function Newer<S>(ms: seq<Migration<S>>, v: int, i: nat): (k: nat)
    requires i <= |ms|
    ensures i <= k <= |ms|
    decreases |ms| - i
  {
    if i < |ms| && ms[i].version <= v then Newer(ms, v, i + 1) else i
  }

  // How many migrations of an ascending list are at or below a version.
  function Below<S>(ms: seq<Migration<S>>, v: int): nat { Newer(ms, v, 0) }

  // Migrations a to b-1 applied in order.
  function Fold<S>(ms: seq<Migration<S>>, a: nat, b: nat, s: S): S
    requires a <= b <= |ms|
  {
    if a == b then s else ms[b - 1].up(Fold(ms, a, b - 1, s))
  }

  function Versions<S>(ms: seq<Migration<S>>, a: nat, b: nat): seq<int>
    requires a <= b <= |ms|
  {
    if a == b then [] else Versions(ms, a, b - 1) + [ms[b - 1].version]
  }

  lemma {:induction false} NewerBounds<S>(ms: seq<Migration<S>>, v: int, i: nat)
    requires i <= |ms|
    ensures var k := Newer(ms, v, i);
            && (k > i ==> ms[k - 1].version <= v)
            && (k < |ms| ==> ms[k].version > v)
    decreases |ms| - i
  {
    if i < |ms| && ms[i].version <= v {
      NewerBounds(ms, v, i + 1);
    }
  }

  lemma {:induction false} NewerIs<S>(ms: seq<Migration<S>>, v: int, i: nat, k: nat)
    requires Ascending(ms) && i <= k <= |ms|
    requires k > 0 ==> ms[k - 1].version <= v
    requires k < |ms| ==> ms[k].version > v
    ensures Newer(ms, v, i) == k
    decreases k - i
  {
    if i < k {
      assert i == k - 1 || ms[i].version < ms[k - 1].version;
      NewerIs(ms, v, i + 1, k);
    }
  }

  /** The store was reached from `base` by exactly the migrations between the two versions. */
  ghost predicate Migrated<S>(ms: seq<Migration<S>>, base: Store<S>, now: Store<S>)
  {
    var a, k := Below(ms, base.version), Below(ms, now.version);
    && a <= k
    && now.schema == Fold(ms, a, k, base.schema)
    && now.version == (if a == k then base.version else ms[k - 1].version)
    && now.log == base.log + Versions(ms, a, k)
  }

  function Commit<S>(now: Store<S>, m: Migration<S>): Store<S>
  {
    Store(m.up(now.schema), m.version, now.log + [m.version])
  }

  // The store after committing the next `n` migrations from index `k` on.
  function Advanced<S>(ms: seq<Migration<S>>, now: Store<S>, k: nat, n: nat): Store<S>
    requires k + n <= |ms|
  {
    if n == 0 then now else Commit(Advanced(ms, now, k, n - 1), ms[k + n - 1])
  }

  // The first pending migration that fails, or the number of them.
  function Reached<S>(ms: seq<Migration<S>>, now: Store<S>, faults: Faults<S>, n: nat): (r: nat)
    requires Below(ms, now.version) + n <= |ms|
    ensures n <= r <= |ms| - Below(ms, now.version)
    decreases |ms| - n
  {
    var k := Below(ms, now.version);
    if k + n < |ms| && faults(ms[k + n].version).None? then Reached(ms, now, faults, n + 1) else n
  }

  /** One call commits the pending migrations before the first that fails, and only those. */
  lemma {:induction false} StopsAtTheFirstFault<S>(ms: seq<Migration<S>>, now: Store<S>, faults: Faults<S>, n: nat)
    requires Below(ms, now.version) + n <= |ms|
    ensures var k, r := Below(ms, now.version), Reached(ms, now, faults, n);
            && (forall j :: k + n <= j < k + r ==> faults(ms[j].version).None?)
            && (k + r < |ms| ==> faults(ms[k + r].version).Some?)
    decreases |ms| - n
  {
    var k := Below(ms, now.version);
    if k + n < |ms| && faults(ms[k + n].version).None? {
      StopsAtTheFirstFault(ms, now, faults, n + 1);
    }
  }

  // One call, as a whole.
  function Migrate<S>(ms: seq<Migration<S>>, now: Store<S>, faults: Faults<S>): Store<S>
  {
    Advanced(ms, now, Below(ms, now.version), Reached(ms, now, faults, 0))
  }

  lemma {:induction false} AdvanceKeepsFold<S>(ms: seq<Migration<S>>, base: Store<S>, now: Store<S>, n: nat)
    requires Ascending(ms) && Migrated(ms, base, now) && Below(ms, now.version) + n <= |ms|
    ensures var t := Advanced(ms, now, Below(ms, now.version), n);
            Migrated(ms, base, t) && Below(ms, t.version) == Below(ms, now.version) + n
  {
    if n > 0 {
      AdvanceKeepsFold(ms, base, now, n - 1);
      var a, b := Below(ms, base.version), Below(ms, now.version) + n;
      NewerIs(ms, ms[b - 1].version, 0, b);
      assert Versions(ms, a, b) == Versions(ms, a, b - 1) + [ms[b - 1].version];
    }
  }

  /** Whatever fails, a call leaves the schema at the fold of exactly the migrations up to the
      version it leaves behind. */
  lemma MigrateKeepsFold<S>(ms: seq<Migration<S>>, base: Store<S>, now: Store<S>, faults: Faults<S>)
    requires Ascending(ms) && Migrated(ms, base, now)
    ensures Migrated(ms, base, Migrate(ms, now, faults))
  {
    AdvanceKeepsFold(ms, base, now, Reached(ms, now, faults, 0));
  }

  function RunAll<S>(ms: seq<Migration<S>>, now: Store<S>, calls: seq<Faults<S>>): Store<S>
    decreases |calls|
  {
    if calls == [] then now else RunAll(ms, Migrate(ms, now, calls[0]), calls[1..])
  }

  lemma {:induction false} RunAllKeepsFold<S>(
    ms: seq<Migration<S>>, base: Store<S>, now: Store<S>, calls: seq<Faults<S>>)
    requires Ascending(ms) && Migrated(ms, base, now)
    ensures Migrated(ms, base, RunAll(ms, now, calls))
    decreases |calls|
  {
    if calls != [] {
      MigrateKeepsFold(ms, base, now, calls[0]);
      RunAllKeepsFold(ms, base, Migrate(ms, now, calls[0]), calls[1..]);
    }
  }

  ghost predicate Harmless<S>(faults: Faults<S>) { forall v :: faults(v).None? }

  lemma {:induction false} ReachedAll<S>(ms: seq<Migration<S>>, now: Store<S>, faults: Faults<S>, n: nat)
    requires Harmless(faults) && Below(ms, now.version) + n <= |ms|
    ensures Reached(ms, now, faults, n) == |ms| - Below(ms, now.version)
    decreases |ms| - n
  {
    if Below(ms, now.version) + n < |ms| {
      ReachedAll(ms, now, faults, n + 1);
    }
  }

  lemma AtTheEnd<S>(ms: seq<Migration<S>>, base: Store<S>, t: Store<S>)
    requires Migrated(ms, base, t) && Below(ms, t.version) == |ms|
    ensures var a := Below(ms, base.version);
            && t.schema == Fold(ms, a, |ms|, base.schema)
            && t.version == (if a == |ms| then base.version else ms[|ms| - 1].version)
            && t.log == base.log + Versions(ms, a, |ms|)
  {
  }

  // A complete call ends at the last migration.
  lemma {:induction false} CompleteCall<S>(ms: seq<Migration<S>>, base: Store<S>, now: Store<S>, faults: Faults<S>)
    requires Ascending(ms) && Migrated(ms, base, now) && Harmless(faults)
    ensures var t := Migrate(ms, now, faults);
            var a := Below(ms, base.version);
            && t.schema == Fold(ms, a, |ms|, base.schema)
            && t.version == (if a == |ms| then base.version else ms[|ms| - 1].version)
            && t.log == base.log + Versions(ms, a, |ms|)
  {
    ReachedAll(ms, now, faults, 0);
    AdvanceKeepsFold(ms, base, now, |ms| - Below(ms, now.version));
    AtTheEnd(ms, base, Migrate(ms, now, faults));
  }

  /** Any number of interrupted calls, each failing wherever it likes, followed by one that succeeds
      ends exactly where a single uninterrupted call would have, each migration committed once. */
  lemma RetryingIsHarmless<S>(
    ms: seq<Migration<S>>, base: Store<S>, calls: seq<Faults<S>>, last: Faults<S>, single: Faults<S>)
    requires Ascending(ms) && Harmless(last) && Harmless(single)
    ensures Migrate(ms, RunAll(ms, base, calls), last) == Migrate(ms, base, single)
  {
    assert Migrated(ms, base, base);
    RunAllKeepsFold(ms, base, base, calls);
    CompleteCall(ms, base, base, single);
    CompleteCall(ms, base, RunAll(ms, base, calls), last);
  }

  // The migrations above a version among the first i.
  function Selected<S>(ms: seq<Migration<S>>, v: int, i: nat): seq<Migration<S>>
    requires i <= |ms|
  {
    if i <= Below(ms, v) then [] else ms[Below(ms, v)..i]
  }

  lemma NewerIffPast<S>(ms: seq<Migration<S>>, v: int, i: nat)
    requires Ascending(ms) && i < |ms|
    ensures ms[i].version > v <==> i >= Below(ms, v)
  {
    var k := Below(ms, v);
    NewerBounds(ms, v, 0);
    if i < k - 1 {
      assert ms[i].version < ms[k - 1].version;
    } else if k < i {
      assert ms[k].version < ms[i].version;
    }
  }

  lemma SelectedNext<S>(ms: seq<Migration<S>>, v: int, i: nat)
    requires Ascending(ms) && i < |ms|
    ensures Selected(ms, v, i + 1) == if ms[i].version > v then Selected(ms, v, i) + [ms[i]] else Selected(ms, v, i)
  {
    NewerIffPast(ms, v, i);
  }

  lemma SelectedAll<S>(ms: seq<Migration<S>>, v: int)
    ensures Selected(ms, v, |ms|) == ms[Below(ms, v)..]
  {
    assert Below(ms, v) <= |ms|;
  }

  class MigrationRunner<S> {
    const migrations: seq<Migration<S>>
    var schema: S
    var version: int
    ghost var log: seq<int>

    ghost function View(): Store<S>
      reads this
    {
      Store(schema, version, log)
    }

    constructor (migrations: seq<Migration<S>>, schema: S, version: int)
      ensures this.migrations == migrations && View() == Store(schema, version, [])
    {
      this.migrations, this.schema, this.version, log := migrations, schema, version, [];
    }

    method Pending() returns (pending: seq<Migration<S>>)
      requires Ascending(migrations)
      ensures pending == migrations[Below(migrations, version)..]
    {
      pending := [];
      for i := 0 to |migrations|
        invariant pending == Selected(migrations, version, i)
      {
        SelectedNext(migrations, version, i);
        if migrations[i].version > version {
          pending := pending + [migrations[i]];
        }
      }
      SelectedAll(migrations, version);
    }

    // One migration in a transaction: an interruption rolls its partial change back.
    method CommitOne(m: Migration<S>, fault: Option<S>) returns (ok: bool)
      modifies this
      ensures ok == fault.None?
      ensures View() == if ok then Commit(old(View()), m) else old(View())
    {
      var savedSchema, savedVersion := schema, version;
      if fault.Some? {
        schema := fault.value;
        schema, version := savedSchema, savedVersion;
        return false;
      }
      schema := m.up(schema);
      version := m.version;
      log := log + [version];
      return true;
    }

    /** The pending migrations commit one by one up to the first that fails. */
    method MigrateToLatest(faults: Faults<S>) returns (ok: bool)
      requires Ascending(migrations)
      modifies this
      ensures View() == Migrate(migrations, old(View()), faults)
      ensures ok <==> Reached(migrations, old(View()), faults, 0) == |migrations| - Below(migrations, old(version))
    {
      ghost var before := View();
      ghost var k := Below(migrations, version);
      var pending := Pending();
      for i := 0 to |pending|
        invariant View() == Advanced(migrations, before, k, i)
        invariant Reached(migrations, before, faults, 0) == Reached(migrations, before, faults, i)
      {
        assert pending[i] == migrations[k + i];
        ok := CommitOne(pending[i], faults(pending[i].version));
        if !ok {
          return;
        }
      }
      return true;
    }
  }
}
