/** The drivers on the tenant chain: no schema is ever left half migrated. */
module Fleet {
  import opened SchemaModel
  import opened History
  import opened TenantHistory
  import opened Drivers

  /** The schema is exactly what its version says. */
  ghost predicate Healthy(h: seq<Revision>, s: Store) {
    s.version <= |h| && Through(h, 0, s.version, EMPTY) == Done(s.schema)
  }

  ghost predicate AllHealthy(h: seq<Revision>, stores: Stores) {
    forall name | name in stores :: Healthy(h, stores[name])
  }

  /** Every healthy schema can be brought to head, where all are alike. */
  ghost predicate Upgradable(h: seq<Revision>) {
    Through(h, 0, |h|, EMPTY).Done? && forall s | Healthy(h, s) :: Attempt(h, s) == Through(h, 0, |h|, EMPTY)
  }

  lemma TenantsUpgradable(h: seq<Revision>)
    requires IsChain(h)
    ensures Upgradable(h)
  {
    ChainChecked(h);
    CheckedUpgradable(h);
  }

  lemma CheckedUpgradable(h: seq<Revision>)
    requires Checked(h)
    ensures Upgradable(h)
  {
    ReachesEvery(h, |h|);
    forall s | Healthy(h, s)
      ensures Attempt(h, s) == Through(h, 0, |h|, EMPTY)
    {
      ThroughFrom(h, 0, s.version, |h|, EMPTY);
    }
  }

  lemma MigratedHealthy(h: seq<Revision>, stores: Stores, name: string, w: Weather)
    requires Upgradable(h) && AllHealthy(h, stores)
    ensures AllHealthy(h, Migrated(h, stores, name, w.valid, w.fault))
    ensures Succeeds(h, stores, name, w.valid, w.fault) <==> w.valid && w.fault.NoFault?
  {
    assert Healthy(h, Store(0, EMPTY));
    assert Healthy(h, Created(stores, name)[name]);
  }

  /** Whatever fails during a run over any tenants, every schema stays exactly what its version says. */
  lemma {:induction false} NeverHalfMigrated(h: seq<Revision>, stores: Stores, tenants: seq<TenantRow>,
      weather: seq<Weather>, n: nat)
    requires Upgradable(h) && AllHealthy(h, stores) && n <= |tenants| == |weather|
    ensures AllHealthy(h, Swept(h, stores, tenants, weather, n))
  {
    if n > 0 {
      NeverHalfMigrated(h, stores, tenants, weather, n - 1);
      MigratedHealthy(h, Swept(h, stores, tenants, weather, n - 1), tenants[n - 1].schemaName, weather[n - 1]);
    }
  }

  /** A safe tenant meets a fault or has an invalid name. */
  predicate Hindered(t: TenantRow, w: Weather) {
    IsSafeSchema(t.schemaName) && !(w.valid && w.fault.NoFault?)
  }

  lemma BrokenByWeather(h: seq<Revision>, stores: Stores, tenants: seq<TenantRow>, weather: seq<Weather>, i: nat)
    requires Upgradable(h) && AllHealthy(h, stores) && i < |tenants| == |weather|
    ensures VerdictAt(h, stores, tenants, weather, i) == Broken <==> Hindered(tenants[i], weather[i])
  {
    NeverHalfMigrated(h, stores, tenants, weather, i);
    MigratedHealthy(h, Swept(h, stores, tenants, weather, i), tenants[i].schemaName, weather[i]);
  }

  /** The failed list of a real run holds exactly the hindered tenants, in order: the revisions
      themselves never fail. */
  lemma {:induction false} FailedAreHindered(h: seq<Revision>, stores: Stores, tenants: seq<TenantRow>,
      weather: seq<Weather>, n: nat)
    requires Upgradable(h) && AllHealthy(h, stores) && n <= |tenants| == |weather|
    ensures SlugsOf(h, stores, tenants, weather, n, Broken) == HinderedSlugs(tenants, weather, n)
  {
    if n > 0 {
      FailedAreHindered(h, stores, tenants, weather, n - 1);
      BrokenByWeather(h, stores, tenants, weather, n - 1);
    }
  }

  function HinderedSlugs(tenants: seq<TenantRow>, weather: seq<Weather>, n: nat): seq<string>
    requires n <= |tenants| == |weather|
  {
    if n == 0 then []
    else HinderedSlugs(tenants, weather, n - 1) +
         if Hindered(tenants[n - 1], weather[n - 1]) then [tenants[n - 1].slug] else []
  }

  /** After such a run every safe tenant has the same schema, that of head. */
  lemma AllAlikeAtHead(h: seq<Revision>, stores: Stores, tenants: seq<TenantRow>, weather: seq<Weather>, i: nat)
    requires Upgradable(h) && AllHealthy(h, stores) && i < |tenants| == |weather|
    requires SlugsOf(h, stores, tenants, weather, |tenants|, Broken) == [] && IsSafeSchema(tenants[i].schemaName)
    ensures var after := Swept(h, stores, tenants, weather, |tenants|);
            && AtHead(h, after, tenants[i].schemaName)
            && Through(h, 0, |h|, EMPTY) == Done(after[tenants[i].schemaName].schema)
  {
    ExitZeroMeansSafeAtHead(h, stores, tenants, weather);
    NeverHalfMigrated(h, stores, tenants, weather, |tenants|);
  }

  // ---------------------------------------------------------------------------------------------
  // A migration that loses its path
  // ---------------------------------------------------------------------------------------------

  /** The migration of a schema whose transaction is given another backend than the SET before it: the
      version table is named in full, the operations are not, so they go to the shared schema. */
  function Misled(h: seq<Revision>, stores: Stores, name: string, shared: Schema): (Stores, Schema) {
    var created := Created(stores, name);
    match Attempt(h, Store(created[name].version, shared))
    case Done(s) => (created[name := Store(|h|, created[name].schema)], s)
    case Failed(_) => (created, shared)
  }

  /** Table 72 is the last one of the last revision. */
  lemma LastTable(r: nat)
    requires |STARTS| == 36 && r <= 35
    ensures STARTS[r].tables > 72 <==> r == 35
    ensures 72 !in STARTS[r].gone
  {
  }

  lemma HeadDiffers(h: seq<Revision>, r: nat)
    requires Checked(h) && r < 35
    ensures Through(h, 0, r, EMPTY) != Through(h, 0, 35, EMPTY)
  {
    ReachesEvery(h, r);
    ReachesEvery(h, 35);
    LastTable(r);
    LastTable(35);
    assert 72 in Through(h, 0, 35, EMPTY).schema.tables;
  }

  ghost predicate LeavesInOrder(h: seq<Revision>, stores: Stores, name: string, shared: Schema) {
    var after := Misled(h, stores, name, shared).0;
    name in after && after[name].schema == Created(stores, name)[name].schema && Healthy(h, after[name])
  }

  predicate Harmless(h: seq<Revision>, stores: Stores, name: string, shared: Schema) {
    var version := Created(stores, name)[name].version;
    version == |h| || Attempt(h, Store(version, shared)).Failed?
  }

  lemma CheckedMisled(h: seq<Revision>, stores: Stores, name: string, shared: Schema)
    requires Checked(h) && AllHealthy(h, stores)
    ensures LeavesInOrder(h, stores, name, shared) <==> Harmless(h, stores, name, shared)
  {
    var before := Created(stores, name)[name];
    assert Healthy(h, before);
    if before.version < |h| {
      HeadDiffers(h, before.version);
    }
  }

  /** Such a migration leaves the schema in order if and only if there was nothing to do or the shared
      schema made it fail; otherwise it records head over a schema it never touched. */
  lemma MisledExactly(h: seq<Revision>, stores: Stores, name: string, shared: Schema)
    requires IsChain(h) && AllHealthy(h, stores)
    ensures LeavesInOrder(h, stores, name, shared) <==> Harmless(h, stores, name, shared)
  {
    ChainChecked(h);
    CheckedMisled(h, stores, name, shared);
  }

  /** The tenant is left empty, marked as being at head, and its tables are in the shared schema. */
  ghost predicate EndsInShared(h: seq<Revision>, stores: Stores, name: string, shared: Schema) {
    var (after, tables) := Misled(h, stores, name, shared);
    name in after && after[name] == Store(|h|, EMPTY) && Through(h, 0, |h|, EMPTY) == Done(tables)
  }

  lemma CheckedFirstMisled(h: seq<Revision>, stores: Stores, name: string)
    requires Checked(h) && name !in stores
    ensures EndsInShared(h, stores, name, EMPTY)
  {
    ReachesEvery(h, |h|);
  }

  /** It does go wrong: the first migration of a tenant while the shared schema is empty. */
  lemma FirstMigrationMisled(h: seq<Revision>, stores: Stores, name: string)
    requires IsChain(h) && name !in stores
    ensures EndsInShared(h, stores, name, EMPTY)
  {
    ChainChecked(h);
    CheckedFirstMisled(h, stores, name);
  }
}
