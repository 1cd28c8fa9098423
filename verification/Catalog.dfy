/**
 A schema as the set of facts that the system catalogs hold about it, and what every operation adds to and
 removes from them.  The operations of `SchemaModel` are proved to do exactly that.
 */
module Catalog {
  import opened SchemaModel
  import opened Undo

  datatype Fact =
    | TableFact(t: Table)
    | ColumnFact(t: Table, c: Column, ty: ColumnType)
    | ReferenceFact(t: Table, c: Column, target: Table, onDelete: OnDelete)
    | RelationFact(t: Table, n: Name, relation: Relation)
    | TriggerFact(t: Table, n: Name, function_: Name)
    | EnumFact(e: Name, values: seq<string>)
    | FunctionFact(f: Name)

  predicate Has(s: Schema, f: Fact) {
    match f
    case TableFact(t) => t in s.tables
    case ColumnFact(t, c, ty) => t in s.tables && c in s.tables[t].columns && s.tables[t].columns[c] == ty
    case ReferenceFact(t, c, target, onDelete) =>
      t in s.tables && c in s.tables[t].references && s.tables[t].references[c] == Reference(target, onDelete)
    case RelationFact(t, n, r) => t in s.tables && n in s.tables[t].relations && s.tables[t].relations[n] == r
    case TriggerFact(t, n, g) => t in s.tables && n in s.tables[t].triggers && s.tables[t].triggers[n] == g
    case EnumFact(e, values) => e in s.enums && s.enums[e] == values
    case FunctionFact(g) => g in s.functions
  }

  predicate IsAbout(f: Fact, t: Table) {
    !f.EnumFact? && !f.FunctionFact? && f.t == t
  }

  predicate HasColumnNamed(s: Schema, t: Table, c: Column) {
    t in s.tables && c in s.tables[t].columns
  }

  predicate HasRelationNamed(s: Schema, t: Table, n: Name) {
    t in s.tables && n in s.tables[t].relations
  }

  // ---------------------------------------------------------------------------------------------
  // What an operation changes
  // ---------------------------------------------------------------------------------------------

  /** The facts an operation brings, given that it takes effect.  The guarded ones and ADD VALUE bring
      nothing if the object is there. */
  predicate Adds(o: Op, s: Schema, f: Fact) {
    match o
    case CreateTable(t, columns, references, keys) =>
      || f == TableFact(t)
      || (f.ColumnFact? && f.t == t && Col(f.c, f.ty) in columns)
      || (f.ReferenceFact? && f.t == t && FK(f.c, f.target, f.onDelete) in references)
      || (f.RelationFact? && f.t == t && f.relation.UniqueKey? && UQ(f.n, f.relation.columns) in keys)
    case AddColumn(t, c, ty, ref, _) =>
      && !HasColumnNamed(s, t, c)
      && (f == ColumnFact(t, c, ty) || (ref.To? && f == ReferenceFact(t, c, ref.ref.target, ref.ref.onDelete)))
    case AlterColumnType(t, c, ty) => f == ColumnFact(t, c, ty)
    case CreateIndex(n, t, columns, unique, partial, _) =>
      !HasRelationNamed(s, t, n) && f == RelationFact(t, n, Index(columns, unique, partial))
    case AddUnique(n, t, columns) => f == RelationFact(t, n, UniqueKey(columns))
    case CreateEnum(n, values) => f == EnumFact(n, values)
    case AddEnumValue(n, v) => n in s.enums && v !in s.enums[n] && f == EnumFact(n, s.enums[n] + [v])
    case ReplaceFunction(n) => f == FunctionFact(n)
    case CreateTrigger(n, t, g) => f == TriggerFact(t, n, g)
    case _ => false
  }

  /** The facts an operation takes away. */
  predicate Removes(o: Op, s: Schema, f: Fact) {
    match o
    case DropTable(t) => IsAbout(f, t)
    case DropTableIfExists(t) => IsAbout(f, t)
    case DropColumn(t, c) =>
      && IsAbout(f, t)
      && (((f.ColumnFact? || f.ReferenceFact?) && f.c == c) || (f.RelationFact? && c in f.relation.columns))
    case AlterColumnType(t, c, _) => f.ColumnFact? && f.t == t && f.c == c
    case DropIndex(n, t) => f.RelationFact? && f.t == t && f.n == n
    case DropIndexIfExists(n, t) => f.RelationFact? && f.t == t && f.n == n
    case DropUnique(n, t) => f.RelationFact? && f.t == t && f.n == n
    case AddEnumValue(n, v) => f.EnumFact? && f.e == n && v !in f.values
    case DropEnum(n) => f.EnumFact? && f.e == n
    case DropFunction(n) => f == FunctionFact(n)
    case DropTrigger(n, t) => f.TriggerFact? && f.t == t && f.n == n
    case _ => false
  }

  /** No name is used twice within a CREATE TABLE. */
  predicate IsUnambiguous(o: Op) {
    o.CreateTable? ==>
      && (forall i, j | 0 <= i < j < |o.columns| :: o.columns[i].c != o.columns[j].c)
      && (forall i, j | 0 <= i < j < |o.references| :: o.references[i].c != o.references[j].c)
      && (forall i, j | 0 <= i < j < |o.keys| :: o.keys[i].n != o.keys[j].n)
  }

  lemma {:induction false} ColumnsAre(columns: seq<ColumnDef>, i: nat)
    requires i <= |columns| && forall j, k | 0 <= j < k < |columns| :: columns[j].c != columns[k].c
    ensures forall c, ty ::
      c in ColumnMap(columns, i) && ColumnMap(columns, i)[c] == ty <==> Col(c, ty) in columns[i..]
    decreases |columns| - i
  {
    if i < |columns| {
      ColumnsAre(columns, i + 1);
      assert columns[i..] == [columns[i]] + columns[i + 1..];
      assert forall d | d in columns[i + 1..] :: d.c != columns[i].c;
    }
  }

  lemma {:induction false} ReferencesAre(keys: seq<ForeignKey>, i: nat)
    requires i <= |keys| && forall j, k | 0 <= j < k < |keys| :: keys[j].c != keys[k].c
    ensures forall c, target, onDelete ::
      c in ReferenceMap(keys, i) && ReferenceMap(keys, i)[c] == Reference(target, onDelete) <==>
      FK(c, target, onDelete) in keys[i..]
    decreases |keys| - i
  {
    if i < |keys| {
      ReferencesAre(keys, i + 1);
      assert keys[i..] == [keys[i]] + keys[i + 1..];
      assert forall k | k in keys[i + 1..] :: k.c != keys[i].c;
    }
  }

  lemma {:induction false} KeysAre(keys: seq<Key>, i: nat)
    requires i <= |keys| && forall j, k | 0 <= j < k < |keys| :: keys[j].n != keys[k].n
    ensures forall n, r ::
      n in KeyMap(keys, i) && KeyMap(keys, i)[n] == r <==> r.UniqueKey? && UQ(n, r.columns) in keys[i..]
    decreases |keys| - i
  {
    if i < |keys| {
      KeysAre(keys, i + 1);
      assert keys[i..] == [keys[i]] + keys[i + 1..];
      assert forall k | k in keys[i + 1..] :: k.n != keys[i].n;
    }
  }

  lemma TableIsCreated(o: Op, s: Schema, f: Fact)
    requires o.CreateTable? && IsUnambiguous(o) && Apply(o, s).Done?
    ensures Has(Apply(o, s).schema, f) <==> Adds(o, s, f) || Has(s, f)
  {
    ColumnsAre(o.columns, 0);
    ReferencesAre(o.references, 0);
    KeysAre(o.keys, 0);
    assert o.columns[0..] == o.columns && o.references[0..] == o.references && o.keys[0..] == o.keys;
  }

  predicate ChangesColumns(o: Op) {
    o.AddColumn? || o.DropColumn? || o.AlterColumnType?
  }

  lemma ColumnsChange(o: Op, s: Schema, f: Fact)
    requires ChangesColumns(o) && Consistent(s) && Apply(o, s).Done?
    ensures Has(Apply(o, s).schema, f) <==> Adds(o, s, f) || (Has(s, f) && !Removes(o, s, f))
  {
    assert Sound(s.tables[o.t], s.tables.Keys, s.enums.Keys, s.functions);
  }

  predicate ChangesRelations(o: Op) {
    o.CreateIndex? || o.AddUnique? || o.DropIndex? || o.DropIndexIfExists? || o.DropUnique?
  }

  lemma RelationsChange(o: Op, s: Schema, f: Fact)
    requires ChangesRelations(o) && Apply(o, s).Done?
    ensures Has(Apply(o, s).schema, f) <==> Adds(o, s, f) || (Has(s, f) && !Removes(o, s, f))
  {
  }

  lemma OthersChange(o: Op, s: Schema, f: Fact)
    requires !o.CreateTable? && !o.RenameTable? && !ChangesColumns(o) && !ChangesRelations(o) && Apply(o, s).Done?
    ensures Has(Apply(o, s).schema, f) <==> Adds(o, s, f) || (Has(s, f) && !Removes(o, s, f))
  {
  }

  /** After an operation exactly the facts hold that it adds, and those from before that it does not
      remove. */
  lemma FactsAfter(o: Op, s: Schema, f: Fact)
    requires IsUnambiguous(o) && !o.RenameTable? && Consistent(s) && Apply(o, s).Done?
    ensures Has(Apply(o, s).schema, f) <==> Adds(o, s, f) || (Has(s, f) && !Removes(o, s, f))
  {
    if o.CreateTable? {
      TableIsCreated(o, s, f);
    } else if ChangesColumns(o) {
      ColumnsChange(o, s, f);
    } else if ChangesRelations(o) {
      RelationsChange(o, s, f);
    } else {
      OthersChange(o, s, f);
    }
  }

  // ---------------------------------------------------------------------------------------------
  // Renaming
  // ---------------------------------------------------------------------------------------------

  function Moved(u: Table, from: Table, to_: Table): Table {
    if u == from then to_ else u
  }

  /** The fact under the new name, wherever the table is mentioned. */
  function RenamedFact(f: Fact, from: Table, to_: Table): Fact {
    match f
    case TableFact(t) => TableFact(Moved(t, from, to_))
    case ColumnFact(t, c, ty) => ColumnFact(Moved(t, from, to_), c, ty)
    case ReferenceFact(t, c, target, d) => ReferenceFact(Moved(t, from, to_), c, Moved(target, from, to_), d)
    case RelationFact(t, n, r) => RelationFact(Moved(t, from, to_), n, r)
    case TriggerFact(t, n, g) => TriggerFact(Moved(t, from, to_), n, g)
    case EnumFact(_, _) => f
    case FunctionFact(_) => f
  }

  predicate Mentions(f: Fact, t: Table) {
    IsAbout(f, t) || (f.ReferenceFact? && f.target == t)
  }

  /** Renaming a table renames it in every fact, those of other tables included, and the old name is gone. */
  lemma FactsAfterRename(o: Op, s: Schema, f: Fact)
    requires o.RenameTable? && Consistent(s) && Apply(o, s).Done?
    ensures Has(s, f) ==> Has(Apply(o, s).schema, RenamedFact(f, o.t, o.to)) && !Mentions(f, o.to)
    ensures Has(Apply(o, s).schema, f) ==> !Mentions(f, o.t)
    ensures !Mentions(f, o.t) && !Mentions(f, o.to) ==> (Has(Apply(o, s).schema, f) <==> Has(s, f))
  {
    if f.ReferenceFact? && f.t in s.tables {
      assert Sound(s.tables[f.t], s.tables.Keys, s.enums.Keys, s.functions);
    }
    if f.ReferenceFact? && f.t == o.to {
      assert Sound(s.tables[o.t], s.tables.Keys, s.enums.Keys, s.functions);
    }
  }

  // ---------------------------------------------------------------------------------------------
  // When an operation takes effect
  // ---------------------------------------------------------------------------------------------

  predicate HasEnumNamed(s: Schema, e: Name) {
    e in s.enums
  }

  predicate TypeExists(s: Schema, ty: ColumnType) {
    ty.EnumType? ==> HasEnumNamed(s, ty.name)
  }

  predicate AllColumnsThere(s: Schema, t: Table, columns: seq<Column>) {
    forall c | c in columns :: HasColumnNamed(s, t, c)
  }

  /** What the operation asks of the facts before it. */
  ghost predicate IsPossible(o: Op, s: Schema) {
    match o
    case CreateTable(t, columns, references, keys) =>
      && !Has(s, TableFact(t))
      && (forall k | k in references :: Has(s, TableFact(k.target)) || k.target == t)
      && (forall k | k in references :: Declares(columns, k.c))
      && (forall k | k in keys :: forall i | 0 <= i < |k.columns| :: Declares(columns, k.columns[i]))
      && (forall d | d in columns :: TypeExists(s, d.ty))
    case DropTable(t) => Has(s, TableFact(t)) && Unreferenced(s, t)
    case DropTableIfExists(t) => Has(s, TableFact(t)) ==> Unreferenced(s, t)
    case RenameTable(t, u) => Has(s, TableFact(t)) && !Has(s, TableFact(u))
    case AddColumn(t, c, ty, ref, ifNotExists) =>
      && Has(s, TableFact(t))
      && (if HasColumnNamed(s, t, c) then ifNotExists
          else (ref.To? ==> Has(s, TableFact(ref.ref.target))) && TypeExists(s, ty))
    case DropColumn(t, c) => HasColumnNamed(s, t, c)
    case AlterColumnType(t, c, ty) => HasColumnNamed(s, t, c) && TypeExists(s, ty)
    case CreateIndex(n, t, columns, _, _, ifNotExists) =>
      Has(s, TableFact(t)) && if HasRelationNamed(s, t, n) then ifNotExists else AllColumnsThere(s, t, columns)
    case DropIndex(n, t) => exists r :: Has(s, RelationFact(t, n, r)) && r.Index?
    case DropIndexIfExists(n, t) => forall r | Has(s, RelationFact(t, n, r)) :: r.Index?
    case AddUnique(n, t, columns) =>
      Has(s, TableFact(t)) && !HasRelationNamed(s, t, n) && AllColumnsThere(s, t, columns)
    case DropUnique(n, t) => exists r :: Has(s, RelationFact(t, n, r)) && r.UniqueKey?
    case CreateEnum(n, _) => !HasEnumNamed(s, n)
    case AddEnumValue(n, _) => HasEnumNamed(s, n)
    case DropEnum(n) => HasEnumNamed(s, n) ==> forall t, c :: !Has(s, ColumnFact(t, c, EnumType(n)))
    case ReplaceFunction(_) => true
    case DropFunction(n) => forall t, g :: !Has(s, TriggerFact(t, g, n))
    case CreateTrigger(n, t, g) =>
      Has(s, TableFact(t)) && Has(s, FunctionFact(g)) && forall g' :: !Has(s, TriggerFact(t, n, g'))
    case DropTrigger(_, _) => true
    case ChangeRows(t) => Has(s, TableFact(t))
  }

  /** No other table has a foreign key to t. */
  ghost predicate Unreferenced(s: Schema, t: Table) {
    forall u, c, d | u != t :: !Has(s, ReferenceFact(u, c, t, d))
  }

  lemma ReferencedMeans(s: Schema, t: Table)
    ensures ReferencedElsewhere(s, t) <==> !Unreferenced(s, t)
  {
    if ReferencedElsewhere(s, t) {
      var u, c :| u in s.tables && c in s.tables[u].references && u != t && s.tables[u].references[c].target == t;
      assert Has(s, ReferenceFact(u, c, t, s.tables[u].references[c].onDelete));
    }
  }

  lemma ColumnsNamed(columns: seq<ColumnDef>)
    requires forall j, k | 0 <= j < k < |columns| :: columns[j].c != columns[k].c
    ensures forall c :: c in ColumnMap(columns, 0) <==> exists d :: d in columns && d.c == c
    ensures forall d | d in columns :: d.c in ColumnMap(columns, 0) && ColumnMap(columns, 0)[d.c] == d.ty
  {
    ColumnsAre(columns, 0);
    assert columns[0..] == columns;
    forall d | d in columns
      ensures d.c in ColumnMap(columns, 0) && ColumnMap(columns, 0)[d.c] == d.ty
    {
      assert Col(d.c, d.ty) in columns;
    }
    forall c | c in ColumnMap(columns, 0)
      ensures exists d :: d in columns && d.c == c
    {
      assert Col(c, ColumnMap(columns, 0)[c]) in columns;
    }
  }

  lemma ReferencesNamed(keys: seq<ForeignKey>)
    requires forall j, k | 0 <= j < k < |keys| :: keys[j].c != keys[k].c
    ensures forall k | k in keys :: k.c in ReferenceMap(keys, 0) && ReferenceMap(keys, 0)[k.c].target == k.target
    ensures forall c | c in ReferenceMap(keys, 0) ::
      exists k :: k in keys && k.c == c && k.target == ReferenceMap(keys, 0)[c].target
  {
    ReferencesAre(keys, 0);
    assert keys[0..] == keys;
    forall k | k in keys
      ensures k.c in ReferenceMap(keys, 0) && ReferenceMap(keys, 0)[k.c].target == k.target
    {
      assert FK(k.c, k.target, k.onDelete) in keys;
    }
    forall c | c in ReferenceMap(keys, 0)
      ensures exists k :: k in keys && k.c == c && k.target == ReferenceMap(keys, 0)[c].target
    {
      var r := ReferenceMap(keys, 0)[c];
      assert r == Reference(r.target, r.onDelete);
      assert FK(c, r.target, r.onDelete) in keys;
    }
  }

  lemma KeysNamed(keys: seq<Key>)
    requires forall j, k | 0 <= j < k < |keys| :: keys[j].n != keys[k].n
    ensures forall k | k in keys :: k.n in KeyMap(keys, 0) && KeyMap(keys, 0)[k.n] == UniqueKey(k.columns)
    ensures forall n | n in KeyMap(keys, 0) :: exists k :: k in keys && KeyMap(keys, 0)[n] == UniqueKey(k.columns)
  {
    KeysAre(keys, 0);
    assert keys[0..] == keys;
    forall k | k in keys
      ensures k.n in KeyMap(keys, 0) && KeyMap(keys, 0)[k.n] == UniqueKey(k.columns)
    {
      var r := UniqueKey(k.columns);
      assert UQ(k.n, r.columns) in keys;
    }
    forall n | n in KeyMap(keys, 0)
      ensures exists k :: k in keys && KeyMap(keys, 0)[n] == UniqueKey(k.columns)
    {
      var r := KeyMap(keys, 0)[n];
      assert UQ(n, r.columns) in keys;
    }
  }

  predicate TargetsLive(keys: seq<ForeignKey>, live: set<Table>) {
    forall k | k in keys :: k.target in live
  }

  lemma TargetsAre(keys: seq<ForeignKey>, live: set<Table>)
    requires forall j, k | 0 <= j < k < |keys| :: keys[j].c != keys[k].c
    ensures TargetsLive(keys, live) <==>
            forall c | c in ReferenceMap(keys, 0) :: ReferenceMap(keys, 0)[c].target in live
  {
    ReferencesNamed(keys);
    if TargetsLive(keys, live) {
      forall c | c in ReferenceMap(keys, 0)
        ensures ReferenceMap(keys, 0)[c].target in live
      {
        var k :| k in keys && k.c == c && k.target == ReferenceMap(keys, 0)[c].target;
      }
    } else {
      var k :| k in keys && k.target !in live;
      assert k.c in ReferenceMap(keys, 0);
    }
  }

  lemma SourcesAre(keys: seq<ForeignKey>, columns: map<Column, ColumnType>)
    requires forall j, k | 0 <= j < k < |keys| :: keys[j].c != keys[k].c
    ensures (forall k | k in keys :: k.c in columns) <==> forall c | c in ReferenceMap(keys, 0) :: c in columns
  {
    ReferencesNamed(keys);
    if forall k | k in keys :: k.c in columns {
      forall c | c in ReferenceMap(keys, 0)
        ensures c in columns
      {
        var k :| k in keys && k.c == c && k.target == ReferenceMap(keys, 0)[c].target;
      }
    } else {
      var k :| k in keys && k.c !in columns;
      assert k.c in ReferenceMap(keys, 0);
    }
  }

  predicate Covers(columns: map<Column, ColumnType>, cs: seq<Column>) {
    forall i | 0 <= i < |cs| :: cs[i] in columns
  }

  lemma KeysWithin(keys: seq<Key>, def: TableDef)
    requires def.relations == KeyMap(keys, 0)
    requires forall j, k | 0 <= j < k < |keys| :: keys[j].n != keys[k].n
    ensures (forall n | n in def.relations :: Within(def.relations[n].columns, def)) <==>
            (forall k | k in keys :: Covers(def.columns, k.columns))
  {
    KeysNamed(keys);
    assert forall cs :: Within(cs, def) <==> Covers(def.columns, cs);
    assert forall k | k in keys :: def.relations[k.n].columns == k.columns;
  }

  lemma TypesThere(columns: seq<ColumnDef>, m: map<Column, ColumnType>, s: Schema)
    requires m == ColumnMap(columns, 0) && forall j, k | 0 <= j < k < |columns| :: columns[j].c != columns[k].c
    ensures (forall d | d in columns :: TypeExists(s, d.ty)) <==> (forall c | c in m :: TypeExists(s, m[c]))
  {
    ColumnsNamed(columns);
    if forall d | d in columns :: TypeExists(s, d.ty) {
      forall c | c in m
        ensures TypeExists(s, m[c])
      {
        var d :| d in columns && d.c == c;
      }
    } else {
      var d :| d in columns && !TypeExists(s, d.ty);
      assert d.c in m && m[d.c] == d.ty;
    }
  }

  /** The columns that a CREATE TABLE declares. */
  predicate Declares(columns: seq<ColumnDef>, c: Column) {
    exists d :: d in columns && d.c == c
  }

  lemma CreatePossible(o: Op, s: Schema)
    requires o.CreateTable? && IsUnambiguous(o)
    ensures Apply(o, s).Done? <==> IsPossible(o, s)
  {
    var def := Build(o.columns, o.references, o.keys);
    ColumnsNamed(o.columns);
    assert forall c :: c in def.columns <==> Declares(o.columns, c);
    TargetsAre(o.references, s.tables.Keys + {o.t});
    SourcesAre(o.references, def.columns);
    KeysWithin(o.keys, def);
    TypesThere(o.columns, def.columns, s);
  }

  lemma AlterPossible(o: Op, s: Schema)
    requires o.AddColumn? || o.DropColumn? || o.AlterColumnType? || o.CreateIndex? || o.AddUnique? || o.ChangeRows?
    ensures Apply(o, s).Done? <==> IsPossible(o, s)
  {
    if (o.CreateIndex? || o.AddUnique?) && o.t in s.tables {
      if Within(o.columns_, s.tables[o.t]) {
        assert AllColumnsThere(s, o.t, o.columns_);
      } else {
        var i :| 0 <= i < |o.columns_| && o.columns_[i] !in s.tables[o.t].columns;
        assert !HasColumnNamed(s, o.t, o.columns_[i]);
      }
    }
  }

  lemma RelationPossible(o: Op, s: Schema)
    requires o.DropIndex? || o.DropIndexIfExists? || o.DropUnique?
    ensures Apply(o, s).Done? <==> IsPossible(o, s)
  {
    if o.t in s.tables && o.n in s.tables[o.t].relations {
      assert Has(s, RelationFact(o.t, o.n, s.tables[o.t].relations[o.n]));
    }
  }

  lemma TypePossible(o: Op, s: Schema)
    requires || o.CreateEnum? || o.AddEnumValue? || o.DropEnum? || o.ReplaceFunction?
             || o.DropFunction? || o.CreateTrigger? || o.DropTrigger?
    ensures Apply(o, s).Done? <==> IsPossible(o, s)
  {
    if o.DropEnum? && EnumInUse(s, o.n) {
      var t, c :| t in s.tables && c in s.tables[t].columns && s.tables[t].columns[c] == EnumType(o.n);
      assert Has(s, ColumnFact(t, c, EnumType(o.n)));
    }
    if o.DropFunction? && FunctionInUse(s, o.n) {
      var t, g :| t in s.tables && g in s.tables[t].triggers && s.tables[t].triggers[g] == o.n;
      assert Has(s, TriggerFact(t, g, o.n));
    }
    if o.CreateTrigger? && o.t in s.tables && o.n in s.tables[o.t].triggers {
      assert Has(s, TriggerFact(o.t, o.n, s.tables[o.t].triggers[o.n]));
    }
  }

  /** An operation takes effect exactly if the facts before it allow it. */
  lemma TakesEffectExactly(o: Op, s: Schema)
    requires IsUnambiguous(o)
    ensures Apply(o, s).Done? <==> IsPossible(o, s)
  {
    if o.CreateTable? {
      CreatePossible(o, s);
    } else if o.DropTable? || o.DropTableIfExists? || o.RenameTable? {
      ReferencedMeans(s, o.t);
    } else if o.AddColumn? || o.DropColumn? || o.AlterColumnType? || o.CreateIndex? || o.AddUnique? || o.ChangeRows? {
      AlterPossible(o, s);
    } else if o.DropIndex? || o.DropIndexIfExists? || o.DropUnique? {
      RelationPossible(o, s);
    } else {
      TypePossible(o, s);
    }
  }

  // ---------------------------------------------------------------------------------------------
  // Runs
  // ---------------------------------------------------------------------------------------------

  /** No operation of the list takes the fact away or renames a table. */
  predicate Spared(ops: seq<Op>, f: Fact) {
    forall i | 0 <= i < |ops| :: IsUnambiguous(ops[i]) && !ops[i].RenameTable? && !MayRemove(ops[i], f)
  }

  predicate MayRemove(o: Op, f: Fact) {
    || ((o.DropTable? || o.DropTableIfExists?) && IsAbout(f, o.t))
    || (o.DropColumn? && IsAbout(f, o.t))
    || (o.AlterColumnType? && f.ColumnFact? && f.t == o.t)
    || ((o.DropIndex? || o.DropIndexIfExists? || o.DropUnique?) && f.RelationFact? && f.t == o.t && f.n == o.n)
    || ((o.AddEnumValue? || o.DropEnum?) && f.EnumFact?)
    || (o.DropFunction? && f.FunctionFact?)
    || (o.DropTrigger? && f.TriggerFact? && f.t == o.t)
  }

  lemma {:induction false} SparedStays(ops: seq<Op>, s: Schema, f: Fact)
    requires Consistent(s) && Run(ops, s).Done? && Spared(ops, f) && Has(s, f)
    ensures Has(Run(ops, s).schema, f)
  {
    if ops != [] {
      FactsAfter(ops[0], s, f);
      ApplyKeepsConsistent(ops[0], s);
      assert forall i | 0 <= i < |ops[1..]| :: ops[1..][i] == ops[i + 1];
      SparedStays(ops[1..], Apply(ops[0], s).schema, f);
    }
  }

  /** What an operation of a run brings is there at the end, unless a later one takes it away. */
  lemma BroughtStays(ops: seq<Op>, i: nat, s: Schema, f: Fact)
    requires i < |ops| && Consistent(s) && Run(ops, s).Done?
    requires IsUnambiguous(ops[i]) && !ops[i].RenameTable?
    requires Adds(ops[i], Before(ops, s, i), f) && Spared(ops[i + 1..], f)
    ensures Has(Run(ops, s).schema, f)
  {
    var before := Before(ops, s, i);
    NextBefore(ops, s, i);
    RunKeepsConsistent(ops[..i], s);
    FactsAfter(ops[i], before, f);
    ApplyKeepsConsistent(ops[i], before);
    var front, rest := ops[..i + 1], ops[i + 1..];
    assert ops == front + rest;
    RunConcat(front, rest, s);
    SparedStays(rest, Apply(ops[i], before).schema, f);
  }

  /** No operation of the list renames a table. */
  predicate NoRename(ops: seq<Op>) {
    forall i | 0 <= i < |ops| :: IsUnambiguous(ops[i]) && !ops[i].RenameTable?
  }

  /** A fact that is new at the end of a run was brought by one of its operations. */
  lemma {:induction false} CameFrom(ops: seq<Op>, s: Schema, n: nat, f: Fact)
    requires Consistent(s) && Run(ops, s).Done? && n <= |ops| && NoRename(ops)
    requires !Has(s, f) && Has(Before(ops, s, n), f)
    ensures exists i: nat :: i < n && Adds(ops[i], Before(ops, s, i), f)
  {
    if n > 0 {
      var m := n - 1;
      var before := Before(ops, s, m);
      NextBefore(ops, s, m);
      RunKeepsConsistent(ops[..m], s);
      FactsAfter(ops[m], before, f);
      if Has(before, f) {
        CameFrom(ops, s, m, f);
      }
    }
  }

  lemma {:induction false} SparedByBlocks(blocks: seq<seq<Op>>, f: Fact)
    requires forall i | 0 <= i < |blocks| :: Spared(blocks[i], f)
    ensures Spared(Flat(blocks), f)
  {
    if blocks != [] {
      SparedByBlocks(blocks[1..], f);
    }
  }
}
