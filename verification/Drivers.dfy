/**
 The programs that bring tenant schemas to head: one schema (`alembic/env.py`), every targeted tenant
 (`upgrade_all_tenants.py`) and every active tenant up to the first failure (`migrate.py --all`).
 */
module Drivers {
  import opened SchemaModel
  import opened Undo
  import opened History

  /** A tenant's PostgreSQL schema: what is in it, and the revision its version table holds. */
  datatype Store = Store(version: nat, schema: Schema)

  type Stores = map<string, Store>

  /** What may go wrong around one migration: no connection at all, or a failure inside the transaction. */
  datatype Fault = NoFault | NoConnection | Interrupted

  /** What a migration needs from outside: that the schema name is valid, and what goes wrong. */
  datatype Weather = Weather(valid: bool, fault: Fault)

  predicate AtHead(h: seq<Revision>, stores: Stores, name: string) {
    name in stores && stores[name].version == |h|
  }

  // ---------------------------------------------------------------------------------------------
  // One schema
  // ---------------------------------------------------------------------------------------------

  /** CREATE SCHEMA IF NOT EXISTS, committed before the migrations start. */
  function Created(stores: Stores, name: string): (r: Stores)
    ensures name in r
  {
    if name in stores then stores else stores[name := Store(0, EMPTY)]
  }

  function Attempt(h: seq<Revision>, s: Store): Outcome {
    if s.version <= |h| then Through(h, s.version, |h|, s.schema) else Failed(Missing)
  }

  predicate Succeeds(h: seq<Revision>, stores: Stores, name: string, valid: bool, fault: Fault) {
    valid && fault.NoFault? && Attempt(h, Created(stores, name)[name]).Done?
  }

  /** The schemas after one attempt: all pending revisions in one transaction, or none. */
  function Migrated(h: seq<Revision>, stores: Stores, name: string, valid: bool, fault: Fault): Stores {
    if !valid || fault.NoConnection? then stores
    else
      var created := Created(stores, name);
      if Succeeds(h, stores, name, valid, fault)
      then created[name := Store(|h|, Attempt(h, created[name]).schema)]
      else created
  }

  datatype Status = ACTIVE | FAILED | OtherStatus

  datatype TenantRow = TenantRow(schemaName: string, slug: string, status: Status)

  class Database {
    var stores: Stores
    var tenants: seq<TenantRow>     // by time of creation

    constructor (initial: Stores, rows: seq<TenantRow>)
      ensures stores == initial && tenants == rows
    {
      stores, tenants := initial, rows;
    }

    /** Applies every pending operation to a working copy, and keeps it only if none failed. */
    method Migrate(h: seq<Revision>, name: string, valid: bool, fault: Fault) returns (ok: bool)
      modifies this`stores
      ensures ok == Succeeds(h, old(stores), name, valid, fault)
      ensures stores == Migrated(h, old(stores), name, valid, fault)
      ensures var start := if name in old(stores) then old(stores)[name] else Store(0, EMPTY);
              && (ok <==> && valid && fault == NoFault && start.version <= |h|
                          && Through(h, start.version, |h|, start.schema).Done?)
              && (ok ==>
                    stores == old(stores)[name := Store(|h|, Through(h, start.version, |h|, start.schema).schema)])
              && (!ok && valid && fault != NoConnection ==> stores == old(stores)[name := start])
              && (!valid || fault == NoConnection ==> stores == old(stores))
    {
      if !valid || fault.NoConnection? {
        return false;
      }
      stores := Created(stores, name);
      var start := stores[name];
      if fault.Interrupted? || start.version > |h| {
        return false;
      }
      var working, r := start.schema, start.version;
      while r < |h|
        invariant stores == Created(old(stores), name) && start.version <= r <= |h|
        invariant Through(h, start.version, r, start.schema) == Done(working)
      {
        var before, ops, i := working, h[r].Upgrade(), 0;
        while i < |ops|
          invariant stores == Created(old(stores), name) && 0 <= i <= |ops|
          invariant Run(ops[..i], before) == Done(working)
        {
          PrefixStep(ops, i, before, working);
          var next := Apply(ops[i], working);
          if next.Failed? {
            LaterRevisionsFail(h, start.version, r + 1, |h|, start.schema);
            return false;
          }
          working, i := next.schema, i + 1;
        }
        assert ops[..i] == ops;
        r := r + 1;
      }
      stores := stores[name := Store(|h|, working)];
      ok := true;
    }

    /** The tenants of a run; the empty name stands for a run that is not limited to one schema. */
    method FetchTenants(includeFailed: bool, single: string) returns (rows: seq<TenantRow>)
      ensures rows == Targeted(tenants, includeFailed, single)
    {
      var statuses := {ACTIVE};
      if includeFailed {
        statuses := statuses + {FAILED};
      }
      rows := [];
      for i := 0 to |tenants|
        invariant rows == Targeted(tenants[..i], includeFailed, single)
      {
        assert tenants[..i + 1][..i] == tenants[..i];
        if tenants[i].status in statuses && (single == "" || tenants[i].schemaName == single) {
          rows := rows + [tenants[i]];
        }
      }
      assert tenants[..|tenants|] == tenants;
    }
  }

  /** An environment variable. */
  datatype Setting = Unset | Value(text: string)

  /** The process that runs the migrations: Alembic reads its target and schema from the environment. */
  class Process {
    var target: Setting
    var schema: Setting

    constructor (t: Setting, s: Setting)
      ensures target == t && schema == s
    {
      target, schema := t, s;
    }

    /** The tenant branch of `env.py`, on the schema the environment names. */
    method CommandUpgrade(db: Database, h: seq<Revision>, w: Weather) returns (ok: bool)
      modifies db`stores
      ensures target == Value("tenant") && schema.Value? && schema.text != "" ==>
                && ok == Succeeds(h, old(db.stores), schema.text, w.valid, w.fault)
                && db.stores == Migrated(h, old(db.stores), schema.text, w.valid, w.fault)
      ensures target == Value("tenant") && (schema.Unset? || schema.text == "") ==> !ok && db.stores == old(db.stores)
      ensures target != Value("tenant") ==> !ok && db.stores == old(db.stores)
    {
      if target != Value("tenant") || schema == Unset || schema.text == "" {
        return false;
      }
      ok := db.Migrate(h, schema.text, w.valid, w.fault);
    }

    /** `_migrate_sync`: points the environment at one schema and puts it back, whatever happens. */
    method MigrateSync(db: Database, h: seq<Revision>, name: string, w: Weather) returns (ok: bool)
      requires name != ""
      modifies this, db`stores
      ensures target == old(target) && schema == old(schema)
      ensures ok == Succeeds(h, old(db.stores), name, w.valid, w.fault)
      ensures db.stores == Migrated(h, old(db.stores), name, w.valid, w.fault)
    {
      var savedTarget, savedSchema := target, schema;
      target, schema := Value("tenant"), Value(name);
      ok := CommandUpgrade(db, h, w);
      target, schema := savedTarget, savedSchema;
    }
  }

  lemma PrefixStep(ops: seq<Op>, i: nat, before: Schema, working: Schema)
    requires i < |ops| && Run(ops[..i], before) == Done(working)
    ensures Run(ops[..i + 1], before) == Apply(ops[i], working)
    ensures Apply(ops[i], working).Failed? ==> Run(ops, before) == Apply(ops[i], working)
  {
    assert ops[..i + 1] == ops[..i] + [ops[i]];
    RunConcat(ops[..i], [ops[i]], before);
    assert ops == ops[..i + 1] + ops[i + 1..];
    RunConcat(ops[..i + 1], ops[i + 1..], before);
  }

  lemma {:induction false} LaterRevisionsFail(h: seq<Revision>, a: nat, m: nat, b: nat, s: Schema)
    requires a <= m <= b <= |h| && Through(h, a, m, s).Failed?
    ensures Through(h, a, b, s).Failed?
    decreases b
  {
    if m < b { LaterRevisionsFail(h, a, m, b - 1, s); }
  }

  // ---------------------------------------------------------------------------------------------
  // Every targeted tenant
  // ---------------------------------------------------------------------------------------------

  datatype Verdict = Succeeded | Broken | Skipped

  predicate IsTargeted(t: TenantRow, includeFailed: bool, single: string) {
    (t.status == ACTIVE || (includeFailed && t.status == FAILED)) && (single == "" || t.schemaName == single)
  }

  function Targeted(rows: seq<TenantRow>, includeFailed: bool, single: string): seq<TenantRow> {
    if rows == [] then []
    else
      Targeted(rows[..|rows| - 1], includeFailed, single) +
      if IsTargeted(rows[|rows| - 1], includeFailed, single) then [rows[|rows| - 1]] else []
  }

  /** A run is about exactly the tenants with a targeted status and, if a schema is named, that schema. */
  lemma {:induction false} TargetedExactly(rows: seq<TenantRow>, includeFailed: bool, single: string)
    ensures forall t ::
      t in Targeted(rows, includeFailed, single) <==>
      && t in rows && (t.status == ACTIVE || (t.status == FAILED && includeFailed))
      && (single != "" ==> t.schemaName == single)
  {
    if rows != [] {
      var front, last := rows[..|rows| - 1], rows[|rows| - 1];
      TargetedExactly(front, includeFailed, single);
      assert forall t :: t in rows <==> t in front || t == last;
    }
  }

  lemma {:induction false} TargetedConcat(a: seq<TenantRow>, b: seq<TenantRow>, includeFailed: bool, single: string)
    ensures Targeted(a + b, includeFailed, single) ==
            Targeted(a, includeFailed, single) + Targeted(b, includeFailed, single)
  {
    if b == [] {
      assert a + b == a;
    } else {
      assert (a + b)[..|a + b| - 1] == a + b[..|b| - 1];
      TargetedConcat(a, b[..|b| - 1], includeFailed, single);
    }
  }

  /** They come in order of creation, each as often as it is there: a row is kept where it stands or left
      out. */
  lemma TargetedInOrder(a: seq<TenantRow>, t: TenantRow, b: seq<TenantRow>, includeFailed: bool, single: string)
    ensures Targeted(a + [t] + b, includeFailed, single) ==
            Targeted(a, includeFailed, single) +
            (if t.status !in {ACTIVE, FAILED} || (t.status == FAILED && !includeFailed) then []
             else if single != "" && t.schemaName != single then []
             else [t]) +
            Targeted(b, includeFailed, single)
  {
    TargetedConcat(a + [t], b, includeFailed, single);
    TargetedConcat(a, [t], includeFailed, single);
    assert [t][..0] == [];
  }

  predicate IsSafeSchema(name: string)
    ensures IsSafeSchema(name) <==> |name| >= 7 && name[..7] == "tenant_"
  {
    "tenant_" <= name
  }

  function Judge(h: seq<Revision>, stores: Stores, t: TenantRow, w: Weather): Verdict {
    if !IsSafeSchema(t.schemaName) then Skipped
    else if Succeeds(h, stores, t.schemaName, w.valid, w.fault) then Succeeded
    else Broken
  }

  /** The schemas after the first n tenants: an unsafe name is passed over, a failure does not stop the run. */
  function Swept(h: seq<Revision>, stores: Stores, tenants: seq<TenantRow>, weather: seq<Weather>, n: nat): Stores
    requires n <= |tenants| == |weather|
  {
    if n == 0 then stores
    else
      var before := Swept(h, stores, tenants, weather, n - 1);
      if IsSafeSchema(tenants[n - 1].schemaName)
      then Migrated(h, before, tenants[n - 1].schemaName, weather[n - 1].valid, weather[n - 1].fault)
      else before
  }

  function VerdictAt(h: seq<Revision>, stores: Stores, tenants: seq<TenantRow>, weather: seq<Weather>, i: nat): Verdict
    requires i < |tenants| == |weather|
  {
    Judge(h, Swept(h, stores, tenants, weather, i), tenants[i], weather[i])
  }

  /** The slugs of the first n tenants with verdict v, in order. */
  function SlugsOf(h: seq<Revision>, stores: Stores, tenants: seq<TenantRow>, weather: seq<Weather>, n: nat,
      v: Verdict): seq<string>
    requires n <= |tenants| == |weather|
  {
    if n == 0 then []
    else
      Extended(VerdictAt(h, stores, tenants, weather, n - 1), v, SlugsOf(h, stores, tenants, weather, n - 1, v),
               tenants[n - 1].slug)
  }

  /** `upgrade_all_tenants`: the schemas of the targeted tenants change, the rows of the tenants do not. */
  method UpgradeAll(p: Process, db: Database, h: seq<Revision>, weather: seq<Weather>, includeFailed: bool,
      single: string, dryRun: bool)
    returns (exit: int, succeeded: seq<string>, failed: seq<string>, skipped: seq<string>)
    requires |weather| == |Targeted(db.tenants, includeFailed, single)|
    modifies p, db`stores
    ensures p.target == old(p.target) && p.schema == old(p.schema) && db.tenants == old(db.tenants)
    ensures dryRun ==> exit == 0 && succeeded == failed == skipped == [] && db.stores == old(db.stores)
    ensures var tenants := Targeted(db.tenants, includeFailed, single);
            !dryRun ==>
              && db.stores == Swept(h, old(db.stores), tenants, weather, |tenants|)
              && succeeded == SlugsOf(h, old(db.stores), tenants, weather, |tenants|, Succeeded)
              && failed == SlugsOf(h, old(db.stores), tenants, weather, |tenants|, Broken)
              && skipped == SlugsOf(h, old(db.stores), tenants, weather, |tenants|, Skipped)
              && exit == if failed == [] then 0 else 1
  {
    exit, succeeded, failed, skipped := 0, [], [], [];
    var tenants := db.FetchTenants(includeFailed, single);
    if tenants == [] || dryRun {
      return;
    }
    var i := 0;
    while i < |tenants|
      invariant 0 <= i <= |tenants|
      invariant p.target == old(p.target) && p.schema == old(p.schema)
      invariant db.stores == Swept(h, old(db.stores), tenants, weather, i)
      invariant succeeded == SlugsOf(h, old(db.stores), tenants, weather, i, Succeeded)
      invariant failed == SlugsOf(h, old(db.stores), tenants, weather, i, Broken)
      invariant skipped == SlugsOf(h, old(db.stores), tenants, weather, i, Skipped)
    {
      var t := tenants[i];
      if !IsSafeSchema(t.schemaName) {
        skipped := skipped + [t.slug];
      } else {
        var ok := p.MigrateSync(db, h, t.schemaName, weather[i]);
        if ok {
          succeeded := succeeded + [t.slug];
        } else {
          failed := failed + [t.slug];
        }
      }
      i := i + 1;
    }
    if failed != [] {
      exit := 1;
    }
  }

  // ---------------------------------------------------------------------------------------------
  // What a run of upgrade_all_tenants leaves
  // ---------------------------------------------------------------------------------------------

  /** Only the named schema changes; one at head stays as it is; one that is left behind by a failed
      attempt is as it was, or empty if it was not there. */
  lemma MigratedFrame(h: seq<Revision>, stores: Stores, name: string, valid: bool, fault: Fault)
    ensures var after := Migrated(h, stores, name, valid, fault);
            && (forall n :: n != name ==> (n in after <==> n in stores) && (n in stores ==> after[n] == stores[n]))
            && (AtHead(h, stores, name) ==> after == stores)
            && (Succeeds(h, stores, name, valid, fault) ==> AtHead(h, after, name))
            && (!Succeeds(h, stores, name, valid, fault) && name in stores ==> after == stores)
            && (!Succeeds(h, stores, name, valid, fault) && name in after && name !in stores ==>
                  after[name] == Store(0, EMPTY))
  {
  }

  lemma {:induction false} SweptFrame(h: seq<Revision>, stores: Stores, tenants: seq<TenantRow>,
      weather: seq<Weather>, n: nat, name: string)
    requires n <= |tenants| == |weather|
    requires forall i | 0 <= i < n :: tenants[i].schemaName == name ==> !IsSafeSchema(name)
    ensures var after := Swept(h, stores, tenants, weather, n);
            (name in after <==> name in stores) && (name in stores ==> after[name] == stores[name])
  {
    if n > 0 {
      SweptFrame(h, stores, tenants, weather, n - 1, name);
      MigratedFrame(h, Swept(h, stores, tenants, weather, n - 1), tenants[n - 1].schemaName,
                    weather[n - 1].valid, weather[n - 1].fault);
    }
  }

  /** A schema at head stays there as it is, whatever goes wrong: rerunning only adds to them. */
  lemma {:induction false} HeadIsKept(h: seq<Revision>, stores: Stores, tenants: seq<TenantRow>,
      weather: seq<Weather>, n: nat, name: string)
    requires n <= |tenants| == |weather| && AtHead(h, stores, name)
    ensures var after := Swept(h, stores, tenants, weather, n);
            AtHead(h, after, name) && after[name] == stores[name]
  {
    if n > 0 {
      HeadIsKept(h, stores, tenants, weather, n - 1, name);
      MigratedFrame(h, Swept(h, stores, tenants, weather, n - 1), tenants[n - 1].schemaName,
                    weather[n - 1].valid, weather[n - 1].fault);
    }
  }

  /** A tenant that succeeds is at head from then on. */
  lemma {:induction false} SucceededAtHead(h: seq<Revision>, stores: Stores, tenants: seq<TenantRow>,
      weather: seq<Weather>, i: nat, n: nat)
    requires i < n <= |tenants| == |weather| && VerdictAt(h, stores, tenants, weather, i) == Succeeded
    ensures AtHead(h, Swept(h, stores, tenants, weather, n), tenants[i].schemaName)
    decreases n
  {
    var before := Swept(h, stores, tenants, weather, n - 1);
    MigratedFrame(h, before, tenants[n - 1].schemaName, weather[n - 1].valid, weather[n - 1].fault);
    if i < n - 1 {
      SucceededAtHead(h, stores, tenants, weather, i, n - 1);
    }
  }

  /** Every tenant of a run appears in exactly one of the three lists. */
  lemma {:induction false} ListsPartition(h: seq<Revision>, stores: Stores, tenants: seq<TenantRow>,
      weather: seq<Weather>, n: nat)
    requires n <= |tenants| == |weather|
    ensures multiset(SlugsOf(h, stores, tenants, weather, n, Succeeded)) +
            multiset(SlugsOf(h, stores, tenants, weather, n, Broken)) +
            multiset(SlugsOf(h, stores, tenants, weather, n, Skipped)) == multiset(Slugs(tenants, n))
  {
    if n > 0 {
      ListsPartition(h, stores, tenants, weather, n - 1);
      OneMore(VerdictAt(h, stores, tenants, weather, n - 1),
              SlugsOf(h, stores, tenants, weather, n - 1, Succeeded),
              SlugsOf(h, stores, tenants, weather, n - 1, Broken),
              SlugsOf(h, stores, tenants, weather, n - 1, Skipped),
              Slugs(tenants, n - 1), tenants[n - 1].slug);
    }
  }

  function Extended(v: Verdict, w: Verdict, slugs: seq<string>, slug: string): seq<string> {
    slugs + if v == w then [slug] else []
  }

  lemma OneMore(v: Verdict, a: seq<string>, b: seq<string>, c: seq<string>, all: seq<string>, slug: string)
    requires multiset(a) + multiset(b) + multiset(c) == multiset(all)
    ensures multiset(Extended(v, Succeeded, a, slug)) + multiset(Extended(v, Broken, b, slug)) +
            multiset(Extended(v, Skipped, c, slug)) == multiset(all + [slug])
  {
    assert a + [] == a && b + [] == b && c + [] == c;
  }

  function Slugs(tenants: seq<TenantRow>, n: nat): seq<string>
    requires n <= |tenants|
  {
    if n == 0 then [] else Slugs(tenants, n - 1) + [tenants[n - 1].slug]
  }

  lemma {:induction false} NoneWithVerdict(h: seq<Revision>, stores: Stores, tenants: seq<TenantRow>,
      weather: seq<Weather>, n: nat, v: Verdict)
    requires n <= |tenants| == |weather|
    ensures SlugsOf(h, stores, tenants, weather, n, v) == [] <==>
            forall i | 0 <= i < n :: VerdictAt(h, stores, tenants, weather, i) != v
  {
    if n > 0 {
      var m := n - 1;
      NoneWithVerdict(h, stores, tenants, weather, m, v);
      var before := SlugsOf(h, stores, tenants, weather, m, v);
      if VerdictAt(h, stores, tenants, weather, m) == v {
        assert |before + [tenants[m].slug]| > 0;
      } else {
        assert before + [] == before;
      }
    }
  }

  function UnsafeSlugs(tenants: seq<TenantRow>, n: nat): seq<string>
    requires n <= |tenants|
  {
    if n == 0 then []
    else UnsafeSlugs(tenants, n - 1) + if IsSafeSchema(tenants[n - 1].schemaName) then [] else [tenants[n - 1].slug]
  }

  /** The skipped tenants are exactly those with an unsafe schema name, in order. */
  lemma {:induction false} SkippedAreUnsafe(h: seq<Revision>, stores: Stores, tenants: seq<TenantRow>,
      weather: seq<Weather>, n: nat)
    requires n <= |tenants| == |weather|
    ensures SlugsOf(h, stores, tenants, weather, n, Skipped) == UnsafeSlugs(tenants, n)
  {
    if n > 0 { SkippedAreUnsafe(h, stores, tenants, weather, n - 1); }
  }

  /** Exit code 0 of a real run: every tenant with a safe schema name is at head. */
  lemma ExitZeroMeansSafeAtHead(h: seq<Revision>, stores: Stores, tenants: seq<TenantRow>, weather: seq<Weather>)
    requires |tenants| == |weather| && SlugsOf(h, stores, tenants, weather, |tenants|, Broken) == []
    ensures forall i | 0 <= i < |tenants| && IsSafeSchema(tenants[i].schemaName) ::
              AtHead(h, Swept(h, stores, tenants, weather, |tenants|), tenants[i].schemaName)
  {
    NoneWithVerdict(h, stores, tenants, weather, |tenants|, Broken);
    forall i | 0 <= i < |tenants| && IsSafeSchema(tenants[i].schemaName)
      ensures AtHead(h, Swept(h, stores, tenants, weather, |tenants|), tenants[i].schemaName)
    {
      SucceededAtHead(h, stores, tenants, weather, i, |tenants|);
    }
  }

  /** The program's own account of exit code 0, that all targeted schemas are at head, holds exactly if
      every schema it passed over was at head before the run. */
  lemma ExitZeroMeansAllAtHead(h: seq<Revision>, stores: Stores, tenants: seq<TenantRow>, weather: seq<Weather>)
    requires |tenants| == |weather| && SlugsOf(h, stores, tenants, weather, |tenants|, Broken) == []
    ensures (forall i | 0 <= i < |tenants| ::
               AtHead(h, Swept(h, stores, tenants, weather, |tenants|), tenants[i].schemaName)) <==>
            (forall i | 0 <= i < |tenants| && !IsSafeSchema(tenants[i].schemaName) ::
               AtHead(h, stores, tenants[i].schemaName))
  {
    ExitZeroMeansSafeAtHead(h, stores, tenants, weather);
    forall i | 0 <= i < |tenants| && !IsSafeSchema(tenants[i].schemaName)
      ensures AtHead(h, Swept(h, stores, tenants, weather, |tenants|), tenants[i].schemaName) ==
              AtHead(h, stores, tenants[i].schemaName)
    {
      SweptFrame(h, stores, tenants, weather, |tenants|, tenants[i].schemaName);
    }
  }

  /** A run that exits 0 although a targeted schema is not at head. */
  lemma ExitZeroWithoutHead(h: seq<Revision>)
    requires |h| > 0
    ensures var tenants := [TenantRow("legacy", "legacy", ACTIVE)];
            var weather := [Weather(false, NoFault)];
            && SlugsOf(h, map[], tenants, weather, 1, Broken) == []
            && !AtHead(h, Swept(h, map[], tenants, weather, 1), "legacy")
  {
    assert "legacy"[0] != "tenant_"[0];
  }

  // ---------------------------------------------------------------------------------------------
  // migrate.py --all
  // ---------------------------------------------------------------------------------------------

  /** The schemas after the first n names, with a stop at the first that does not succeed. */
  function Prefixed(h: seq<Revision>, stores: Stores, names: seq<string>, weather: seq<Weather>,
      n: nat): (r: (Stores, bool))
    requires n <= |names| == |weather|
  {
    if n == 0 then (stores, true)
    else
      var (before, going) := Prefixed(h, stores, names, weather, n - 1);
      if !going then (before, false)
      else
        (Migrated(h, before, names[n - 1], weather[n - 1].valid, weather[n - 1].fault),
         Succeeds(h, before, names[n - 1], weather[n - 1].valid, weather[n - 1].fault))
  }

  /** The loop of `migrate.py tenant --all`, which ends the process with the first failing exit code. */
  method MigrateAll(db: Database, h: seq<Revision>, names: seq<string>, weather: seq<Weather>) returns (exit: int)
    requires |weather| == |names|
    modifies db`stores
    ensures exit == if Prefixed(h, old(db.stores), names, weather, |names|).1 then 0 else 1
    ensures db.stores == Prefixed(h, old(db.stores), names, weather, |names|).0
  {
    var i := 0;
    while i < |names|
      invariant 0 <= i <= |names|
      invariant Prefixed(h, old(db.stores), names, weather, i) == (db.stores, true)
    {
      var ok := db.Migrate(h, names[i], weather[i].valid, weather[i].fault);
      if !ok {
        StoppedStays(h, old(db.stores), names, weather, i + 1, |names|);
        return 1;
      }
      i := i + 1;
    }
    return 0;
  }

  lemma {:induction false} StoppedStays(h: seq<Revision>, stores: Stores, names: seq<string>, weather: seq<Weather>,
      m: nat, n: nat)
    requires m <= n <= |names| == |weather| && !Prefixed(h, stores, names, weather, m).1
    ensures Prefixed(h, stores, names, weather, n) == Prefixed(h, stores, names, weather, m)
    decreases n
  {
    if m < n { StoppedStays(h, stores, names, weather, m, n - 1); }
  }

  /** How many names the run brings to head. */
  function Reached(h: seq<Revision>, stores: Stores, names: seq<string>, weather: seq<Weather>, n: nat): (k: nat)
    requires n <= |names| == |weather|
    ensures k <= n
  {
    if n > 0 && !Prefixed(h, stores, names, weather, n).1 then Reached(h, stores, names, weather, n - 1) else n
  }

  /** The run migrates exactly a prefix: its names are at head, and the next one, if any, did not succeed. */
  lemma {:induction false} MigratesAPrefix(h: seq<Revision>, stores: Stores, names: seq<string>,
      weather: seq<Weather>, n: nat)
    requires n <= |names| == |weather|
    ensures var k := Reached(h, stores, names, weather, n);
            var (after, done) := Prefixed(h, stores, names, weather, n);
            && (done <==> k == n)
            && (forall i | 0 <= i < k :: AtHead(h, after, names[i]))
            && Prefixed(h, stores, names, weather, k).1
            && (k < n ==> !Succeeds(h, Prefixed(h, stores, names, weather, k).0, names[k], weather[k].valid,
                weather[k].fault))
  {
    if n > 0 {
      MigratesAPrefix(h, stores, names, weather, n - 1);
      var (before, going) := Prefixed(h, stores, names, weather, n - 1);
      if going {
        MigratedFrame(h, before, names[n - 1], weather[n - 1].valid, weather[n - 1].fault);
      }
    }
  }

  /** Names beyond the first that did not succeed keep their schemas. */
  lemma {:induction false} RestIsKept(h: seq<Revision>, stores: Stores, names: seq<string>, weather: seq<Weather>,
      n: nat, name: string)
    requires n <= |names| == |weather|
    requires forall i | 0 <= i < n && i <= Reached(h, stores, names, weather, n) :: names[i] != name
    ensures var after := Prefixed(h, stores, names, weather, n).0;
            (name in after <==> name in stores) && (name in stores ==> after[name] == stores[name])
  {
    if n > 0 {
      RestIsKept(h, stores, names, weather, n - 1, name);
      var (before, going) := Prefixed(h, stores, names, weather, n - 1);
      if going {
        MigratedFrame(h, before, names[n - 1], weather[n - 1].valid, weather[n - 1].fault);
      }
    }
  }
}
