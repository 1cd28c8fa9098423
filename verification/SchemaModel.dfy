/**
 The schema language of the Alembic revisions: a PostgreSQL schema reduced to what the revisions
 create, alter and drop, and one operation per Alembic call or DDL statement they issue.
 Every operation either takes effect or fails with the reason PostgreSQL would give.
 */
module SchemaModel {

  // SQL names are numbers; each revision module names its own.
  type Name = int
  type Table = Name
  type Column = Name

  datatype ColumnType =
    | Uuid | Varchar | Text | Integer | Boolean | Timestamp | Date | Time | Numeric | Json | TextArray
    | EnumType(name: Name)

  datatype OnDelete = NoAction | Restrict | Cascade | SetNull

  /** A foreign key of one column; its target column is always the target table's primary key. */
  datatype Reference = Reference(target: Table, onDelete: OnDelete)

  datatype Relation =
    | Index(columns: seq<Column>, unique: bool, partial: bool)
    | UniqueKey(columns: seq<Column>)

  datatype TableDef = TableDef(
    columns: map<Column, ColumnType>,
    references: map<Column, Reference>,
    relations: map<Name, Relation>,
    triggers: map<Name, Name>)

  datatype Schema = Schema(
    tables: map<Table, TableDef>,
    enums: map<Name, seq<string>>,
    functions: set<Name>)

  // The parts of a CREATE TABLE statement.
  datatype ColumnDef = Col(c: Column, ty: ColumnType)
  datatype ForeignKey = FK(c: Column, target: Table, onDelete: OnDelete)
  datatype Key = UQ(n: Name, columns: seq<Column>)

  const EMPTY := Schema(map[], map[], {})

  datatype Op =
    | CreateTable(t: Table, columns: seq<ColumnDef>, references: seq<ForeignKey>, keys: seq<Key>)
    | DropTable(t: Table)
    | DropTableIfExists(t: Table)
    | RenameTable(t: Table, to: Table)
    | AddColumn(t: Table, c: Column, ty: ColumnType, ref: OptionalReference, ifNotExists: bool)
    | DropColumn(t: Table, c: Column)
    | AlterColumnType(t: Table, c: Column, ty: ColumnType)
    | CreateIndex(n: Name, t: Table, columns_: seq<Column>, unique: bool, partial: bool, ifNotExists: bool)
    | DropIndex(n: Name, t: Table)
    | DropIndexIfExists(n: Name, t: Table)
    | AddUnique(n: Name, t: Table, columns_: seq<Column>)
    | DropUnique(n: Name, t: Table)
    | CreateEnum(n: Name, values: seq<string>)
    | AddEnumValue(n: Name, value: string)
    | DropEnum(n: Name)
    | ReplaceFunction(n: Name)
    | DropFunction(n: Name)
    | CreateTrigger(n: Name, t: Table, function_: Name)
    | DropTrigger(n: Name, t: Table)
    | ChangeRows(t: Table)

  /** A plain index, as `op.create_index` makes it. */
  function Ix(n: Name, t: Table, columns: seq<Column>): Op {
    CreateIndex(n, t, columns, false, false, false)
  }

  datatype OptionalReference = NoReference | To(ref: Reference)

  datatype Reason =
    | NameTaken            // the object to be created is there already
    | Missing              // the object to be changed is not there
    | DanglingTarget       // a new foreign key would point to a table that is not there
    | BadColumns           // a key or index names a column that is not there
    | StillReferenced      // something that survives depends on the object to be dropped

  datatype Outcome = Done(schema: Schema) | Failed(reason: Reason)

  // ---------------------------------------------------------------------------------------------
  // Reading a schema
  // ---------------------------------------------------------------------------------------------

  predicate Within(columns: seq<Column>, def: TableDef) {
    forall i | 0 <= i < |columns| :: columns[i] in def.columns
  }

  /** Some other table has a foreign key to `t`. */
  predicate ReferencedElsewhere(s: Schema, t: Table) {
    exists u, c | u in s.tables && c in s.tables[u].references ::
      u != t && s.tables[u].references[c].target == t
  }

  predicate EnumInUse(s: Schema, n: Name) {
    exists t, c | t in s.tables && c in s.tables[t].columns :: s.tables[t].columns[c] == EnumType(n)
  }

  predicate FunctionInUse(s: Schema, f: Name) {
    exists t, n | t in s.tables && n in s.tables[t].triggers :: s.tables[t].triggers[n] == f
  }

  /** A table definition makes sense inside a schema whose tables are `live` (itself among them). */
  ghost predicate Sound(def: TableDef, live: set<Table>, enums: set<Name>, functions: set<Name>) {
    && (forall c | c in def.references :: c in def.columns && def.references[c].target in live)
    && (forall n | n in def.relations :: Within(def.relations[n].columns, def))
    && (forall c | c in def.columns :: def.columns[c].EnumType? ==> def.columns[c].name in enums)
    && (forall n | n in def.triggers :: def.triggers[n] in functions)
  }

  /** Every foreign key points to a table that exists, every key and index to columns that exist,
      every enum column to its type, every trigger to its function. */
  ghost predicate Consistent(s: Schema) {
    forall t | t in s.tables :: Sound(s.tables[t], s.tables.Keys, s.enums.Keys, s.functions)
  }

  // ---------------------------------------------------------------------------------------------
  // Effects
  // ---------------------------------------------------------------------------------------------

  function ColumnMap(columns: seq<ColumnDef>, i: nat): map<Column, ColumnType>
    requires i <= |columns|
    decreases |columns| - i
  {
    if i == |columns| then map[] else ColumnMap(columns, i + 1)[columns[i].c := columns[i].ty]
  }

  function ReferenceMap(keys: seq<ForeignKey>, i: nat): map<Column, Reference>
    requires i <= |keys|
    decreases |keys| - i
  {
    if i == |keys| then map[] else ReferenceMap(keys, i + 1)[keys[i].c := Reference(keys[i].target, keys[i].onDelete)]
  }

  function KeyMap(keys: seq<Key>, i: nat): map<Name, Relation>
    requires i <= |keys|
    decreases |keys| - i
  {
    if i == |keys| then map[] else KeyMap(keys, i + 1)[keys[i].n := UniqueKey(keys[i].columns)]
  }

  function Build(columns: seq<ColumnDef>, references: seq<ForeignKey>, keys: seq<Key>): TableDef {
    TableDef(ColumnMap(columns, 0), ReferenceMap(references, 0), KeyMap(keys, 0), map[])
  }

  function With(s: Schema, t: Table, def: TableDef): Schema {
    s.(tables := s.tables[t := def])
  }

  function RetargetOne(r: Reference, from: Table, to: Table): Reference {
    if r.target == from then r.(target := to) else r
  }

  function Retarget(def: TableDef, from: Table, to: Table): TableDef {
    def.(references := map c | c in def.references :: RetargetOne(def.references[c], from, to))
  }

  /** Renaming carries the foreign keys along: those of the table and those that point to it. */
  function Renamed(s: Schema, from: Table, to: Table): Schema
    requires from in s.tables
  {
    var others := map t | t in s.tables && t != from :: Retarget(s.tables[t], from, to);
    s.(tables := others[to := Retarget(s.tables[from], from, to)])
  }

  /** Dropping a column drops its foreign key and every index or key that names it. */
  function WithoutColumn(def: TableDef, c: Column): TableDef {
    TableDef(
      def.columns - {c},
      def.references - {c},
      map n | n in def.relations && c !in def.relations[n].columns :: def.relations[n],
      def.triggers)
  }

  function Dropped(s: Schema, t: Table): Outcome {
    if ReferencedElsewhere(s, t) then Failed(StillReferenced) else Done(s.(tables := s.tables - {t}))
  }

  predicate HasIndex(s: Schema, n: Name, t: Table) {
    t in s.tables && n in s.tables[t].relations && s.tables[t].relations[n].Index?
  }

  function WithoutRelation(s: Schema, n: Name, t: Table): Schema
    requires t in s.tables
  {
    With(s, t, s.tables[t].(relations := s.tables[t].relations - {n}))
  }

  function Apply(o: Op, s: Schema): Outcome {
    match o
    case CreateTable(t, columns, references, keys) =>
      var def := Build(columns, references, keys);
      if t in s.tables then Failed(NameTaken)
      else if exists c | c in def.references :: def.references[c].target !in s.tables.Keys + {t} then
        Failed(DanglingTarget)
      else if || (exists c | c in def.references :: c !in def.columns)
              || (exists n | n in def.relations :: !Within(def.relations[n].columns, def))
              || (exists c | c in def.columns :: def.columns[c].EnumType? && def.columns[c].name !in s.enums) then
        Failed(BadColumns)
      else Done(With(s, t, def))
    case DropTable(t) => if t in s.tables then Dropped(s, t) else Failed(Missing)
    case DropTableIfExists(t) => if t in s.tables then Dropped(s, t) else Done(s)
    case RenameTable(t, to) =>
      if t !in s.tables then Failed(Missing)
      else if to in s.tables then Failed(NameTaken)
      else Done(Renamed(s, t, to))
    case AddColumn(t, c, ty, ref, ifNotExists) =>
      if t !in s.tables then Failed(Missing)
      else if c in s.tables[t].columns then if ifNotExists then Done(s) else Failed(NameTaken)
      else if ref.To? && ref.ref.target !in s.tables then Failed(DanglingTarget)
      else if ty.EnumType? && ty.name !in s.enums then Failed(Missing)
      else
        var def := s.tables[t];
        Done(With(s, t, def.(columns := def.columns[c := ty],
                             references := if ref.To? then def.references[c := ref.ref] else def.references)))
    case DropColumn(t, c) =>
      if t !in s.tables || c !in s.tables[t].columns then Failed(Missing)
      else Done(With(s, t, WithoutColumn(s.tables[t], c)))
    case AlterColumnType(t, c, ty) =>
      if t !in s.tables || c !in s.tables[t].columns then Failed(Missing)
      else if ty.EnumType? && ty.name !in s.enums then Failed(Missing)
      else Done(With(s, t, s.tables[t].(columns := s.tables[t].columns[c := ty])))
    case CreateIndex(n, t, columns, unique, partial, ifNotExists) =>
      if t !in s.tables then Failed(Missing)
      else if n in s.tables[t].relations then if ifNotExists then Done(s) else Failed(NameTaken)
      else if !Within(columns, s.tables[t]) then Failed(BadColumns)
      else Done(With(s, t, s.tables[t].(relations := s.tables[t].relations[n := Index(columns, unique, partial)])))
    case DropIndex(n, t) => if HasIndex(s, n, t) then Done(WithoutRelation(s, n, t)) else Failed(Missing)
    case DropIndexIfExists(n, t) =>
      if HasIndex(s, n, t) then Done(WithoutRelation(s, n, t))
      else if t in s.tables && n in s.tables[t].relations then Failed(StillReferenced)   // a constraint's own index
      else Done(s)
    case AddUnique(n, t, columns) =>
      if t !in s.tables then Failed(Missing)
      else if n in s.tables[t].relations then Failed(NameTaken)
      else if !Within(columns, s.tables[t]) then Failed(BadColumns)
      else Done(With(s, t, s.tables[t].(relations := s.tables[t].relations[n := UniqueKey(columns)])))
    case DropUnique(n, t) =>
      if t !in s.tables || n !in s.tables[t].relations || !s.tables[t].relations[n].UniqueKey? then Failed(Missing)
      else Done(WithoutRelation(s, n, t))
    case CreateEnum(n, values) =>
      if n in s.enums then Failed(NameTaken) else Done(s.(enums := s.enums[n := values]))
    case AddEnumValue(n, v) =>
      if n !in s.enums then Failed(Missing)
      else if v in s.enums[n] then Done(s)
      else Done(s.(enums := s.enums[n := s.enums[n] + [v]]))
    case DropEnum(n) =>
      if n !in s.enums then Done(s)
      else if EnumInUse(s, n) then Failed(StillReferenced)
      else Done(s.(enums := s.enums - {n}))
    case ReplaceFunction(n) => Done(s.(functions := s.functions + {n}))
    case DropFunction(n) =>
      if FunctionInUse(s, n) then Failed(StillReferenced) else Done(s.(functions := s.functions - {n}))
    case CreateTrigger(n, t, f) =>
      if t !in s.tables || f !in s.functions then Failed(Missing)
      else if n in s.tables[t].triggers then Failed(NameTaken)
      else Done(With(s, t, s.tables[t].(triggers := s.tables[t].triggers[n := f])))
    case DropTrigger(n, t) =>
      if t !in s.tables then Done(s)
      else Done(With(s, t, s.tables[t].(triggers := s.tables[t].triggers - {n})))
    case ChangeRows(t) =>
      if t in s.tables then Done(s) else Failed(Missing)
  }

  /** The operations in order, up to the first that fails. */
  function Run(ops: seq<Op>, s: Schema): Outcome
    decreases |ops|
  {
    if ops == [] then Done(s)
    else
      match Apply(ops[0], s)
      case Done(s') => Run(ops[1..], s')
      case Failed(reason) => Failed(reason)
  }

  /** A revision's blocks as one list. */
  function Flat(blocks: seq<seq<Op>>): seq<Op> {
    if blocks == [] then [] else blocks[0] + Flat(blocks[1..])
  }
}
