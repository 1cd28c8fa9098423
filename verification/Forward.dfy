/**
 When an upgrade can fail.  A revision is a list of blocks, and a block a list of operations of which
 only the first may create or rename a table.  `Certified` is a check on such a list, on the numbers
 of the names it introduces and on what it takes for granted: tables are numbered 0, 1, 2, ... in the
 order of their creation, all other names increasingly in the order of theirs.  A list that passes
 the check succeeds on every schema that has all the earlier tables and none of the new names.
 */
module Forward {
  import opened SchemaModel
  import opened Undo

  /** Where a block starts: the table names below `tables` are used up, and before operation i of the
      block so are the other names below names[i]; the tables in `gone` are used up but no longer
      there; `columns` and `enums` are what else the block relies on. */
  datatype Base = Base(tables: int, names: seq<int>, gone: seq<Table>, columns: seq<(Table, Column)>, enums: seq<Name>)

  /** Column c is one of n columns numbered from lo on. */
  predicate Among(c: Column, lo: int, n: nat) {
    lo <= c < lo + n
  }

  // ---------------------------------------------------------------------------------------------
  // What is there after the first n operations
  // ---------------------------------------------------------------------------------------------

  predicate Makes(o: Op) {
    o.CreateTable? || o.RenameTable?
  }

  function Tables(ops: seq<Op>, n: nat, base: Base): int
    requires n <= |ops|
  {
    if n > 0 && Makes(ops[0]) then base.tables + 1 else base.tables
  }

  function Gone(ops: seq<Op>, n: nat, base: Base): seq<Table>
    requires n <= |ops|
  {
    if n > 0 && ops[0].RenameTable? then base.gone + [ops[0].t] else base.gone
  }

  /** Table t is there. */
  predicate HasTable(ops: seq<Op>, n: nat, base: Base, t: Table)
    requires n <= |ops|
  {
    0 <= t < Tables(ops, n, base) && t !in Gone(ops, n, base)
  }

  predicate AddsColumn(ops: seq<Op>, n: nat, t: Table, c: Column)
    requires n <= |ops|
  {
    n > 0 && ((ops[n - 1].AddColumn? && ops[n - 1].t == t && ops[n - 1].c == c) || AddsColumn(ops, n - 1, t, c))
  }

  predicate HasColumn(ops: seq<Op>, n: nat, base: Base, t: Table, c: Column)
    requires n <= |ops| && |base.names| > 0
  {
    if n > 0 && ops[0].RenameTable? then false
    else if n > 0 && ops[0].CreateTable? && ops[0].t == t && Among(c, base.names[0], |ops[0].columns|) then true
    else AddsColumn(ops, n, t, c) || (t, c) in base.columns
  }

  predicate HasColumns(ops: seq<Op>, n: nat, base: Base, t: Table, columns: seq<Column>)
    requires n <= |ops| && |base.names| > 0
  {
    forall i | 0 <= i < |columns| :: HasColumn(ops, n, base, t, columns[i])
  }

  predicate HasEnum(ops: seq<Op>, n: nat, base: Base, e: Name)
    requires n <= |ops|
  {
    if n == 0 then e in base.enums
    else (ops[n - 1].CreateEnum? && ops[n - 1].n == e) || HasEnum(ops, n - 1, base, e)
  }

  predicate HasFunction(ops: seq<Op>, n: nat, f: Name)
    requires n <= |ops|
  {
    n > 0 && ((ops[n - 1].ReplaceFunction? && ops[n - 1].n == f) || HasFunction(ops, n - 1, f))
  }

  // ---------------------------------------------------------------------------------------------
  // The check
  // ---------------------------------------------------------------------------------------------

  /** The foreign keys of a new table leave its own columns, m of them numbered from lo on, and reach
      tables that are there. */
  predicate ReachTables(ops: seq<Op>, n: nat, base: Base, t: Table, lo: int, m: nat, fks: seq<ForeignKey>)
    requires n <= |ops|
  {
    forall i | 0 <= i < |fks| ::
      Among(fks[i].c, lo, m) && (fks[i].target == t || HasTable(ops, n, base, fks[i].target))
  }

  /** Columns of built-in types, numbered from lo on. */
  predicate PlainColumns(columns: seq<ColumnDef>, lo: int) {
    forall i | 0 <= i < |columns| :: columns[i].c == lo + i && !columns[i].ty.EnumType?
  }

  /** Keys numbered below hi, over the m columns numbered from lo on. */
  predicate SoundKeys(keys: seq<Key>, lo: int, m: nat, hi: int) {
    forall i | 0 <= i < |keys| ::
      keys[i].n < hi && forall j | 0 <= j < |keys[i].columns| :: Among(keys[i].columns[j], lo, m)
  }

  predicate CreateCertified(ops: seq<Op>, n: nat, base: Base, o: Op, lo: int, hi: int)
    requires n <= |ops| && o.CreateTable?
  {
    && o.t == base.tables
    && lo + |o.columns| <= hi
    && PlainColumns(o.columns, lo)
    && SoundKeys(o.keys, lo, |o.columns|, hi)
    && ReachTables(ops, n, base, o.t, lo, |o.columns|, o.references)
  }

  predicate RelationCertified(ops: seq<Op>, n: nat, base: Base, o: Op, lo: int, hi: int)
    requires n <= |ops| && |base.names| > 0 && (o.CreateIndex? || o.AddUnique?)
  {
    lo <= o.n < hi && HasTable(ops, n, base, o.t) && HasColumns(ops, n, base, o.t, o.columns_)
  }

  ghost predicate Fits(ops: seq<Op>, base: Base) {
    |base.names| == |ops| + 1
  }

  /** Operation n finds what it needs after the operations before it, and every name it introduces
      is the next table number or one of its numbers for other names. */
  predicate CertifiedAt(ops: seq<Op>, n: nat, base: Base)
    requires n < |ops| && n + 1 < |base.names|
  {
    var o, lo, hi := ops[n], base.names[n], base.names[n + 1];
    && lo <= hi
    && (Makes(o) ==> n == 0)
    && if o.CreateTable? then CreateCertified(ops, n, base, o, lo, hi)
       else if o.CreateIndex? || o.AddUnique? then RelationCertified(ops, n, base, o, lo, hi)
       else if o.RenameTable? then
         o.to == base.tables && |ops| == 1 && HasTable(ops, n, base, o.t)
       else if o.AddColumn? then
         && lo <= o.c < hi
         && HasTable(ops, n, base, o.t)
         && !o.ty.EnumType?
         && (o.ref.To? ==> HasTable(ops, n, base, o.ref.ref.target))
       else if o.AlterColumnType? then
         && HasColumn(ops, n, base, o.t, o.c)
         && (o.ty.EnumType? ==> HasEnum(ops, n, base, o.ty.name))
       else if o.CreateEnum? || o.ReplaceFunction? then lo <= o.n < hi
       else if o.AddEnumValue? then HasEnum(ops, n, base, o.n)
       else if o.CreateTrigger? then lo <= o.n < hi && HasTable(ops, n, base, o.t) && HasFunction(ops, n, o.function_)
       else o.ChangeRows? && HasTable(ops, n, base, o.t)   // an upgrade drops nothing
  }

  /** The first n operations pass. */
  predicate Certified(ops: seq<Op>, n: nat, base: Base)
    requires n <= |ops| && n < |base.names|
  {
    forall i | 0 <= i < n :: CertifiedAt(ops, i, base)
  }

  /** The operations from `from` to n pass, one after the other. */
  predicate Pass(ops: seq<Op>, from: nat, n: nat, base: Base)
    requires from <= n <= |ops| && n < |base.names|
    decreases n - from
  {
    from == n || (CertifiedAt(ops, from, base) && Pass(ops, from + 1, n, base))
  }

  lemma {:induction false} Passed(ops: seq<Op>, from: nat, n: nat, base: Base)
    requires from <= n <= |ops| && n < |base.names| && Pass(ops, from, n, base)
    ensures forall i | from <= i < n :: CertifiedAt(ops, i, base)
    decreases n - from
  {
    if from < n { Passed(ops, from + 1, n, base); }
  }

  // ---------------------------------------------------------------------------------------------
  // Its meaning
  // ---------------------------------------------------------------------------------------------

  /** The table names below m are used up, and all those tables are there except the ones gone. */
  ghost predicate Stocked(gone: seq<Table>, m: int, s: Schema) {
    && (forall t | 0 <= t < m && t !in gone :: t in s.tables)
    && (forall t | t in s.tables :: t < m)
  }

  /** The columns, enums and functions that the first n operations are said to provide. */
  ghost predicate Provided(ops: seq<Op>, n: nat, base: Base, s: Schema)
    requires n <= |ops| && |base.names| > 0
  {
    && (forall t, c | HasColumn(ops, n, base, t, c) :: t in s.tables && c in s.tables[t].columns)
    && (forall e | HasEnum(ops, n, base, e) :: e in s.enums)
    && (forall f | HasFunction(ops, n, f) :: f in s.functions)
  }

  ghost predicate NamesBelow(s: Schema, bound: int) {
    && (forall t | t in s.tables ::
          && (forall c | c in s.tables[t].columns :: c < bound)
          && (forall n | n in s.tables[t].relations :: n < bound)
          && (forall n | n in s.tables[t].triggers :: n < bound))
    && (forall n | n in s.enums :: n < bound)
    && (forall n | n in s.functions :: n < bound)
  }

  /** Where the first n operations lead. */
  ghost predicate Ready(ops: seq<Op>, n: nat, base: Base, s: Schema)
    requires n <= |ops| && Fits(ops, base)
  {
    && Stocked(Gone(ops, n, base), Tables(ops, n, base), s)
    && Provided(ops, n, base, s)
    && NamesBelow(s, base.names[n])
  }

  /** Where a list may start. */
  ghost predicate Holds(base: Base, s: Schema)
    requires |base.names| > 0
  {
    && Stocked(base.gone, base.tables, s)
    && NamesBelow(s, base.names[0])
    && (forall p | p in base.columns :: p.0 in s.tables && p.1 in s.tables[p.0].columns)
    && (forall e | e in base.enums :: e in s.enums)
  }

  /** A table that is there for good is in every schema the operations so far can lead to. */
  lemma HasTableMeans(ops: seq<Op>, n: nat, base: Base, s: Schema, t: Table)
    requires n <= |ops| && Fits(ops, base) && Ready(ops, n, base, s) && HasTable(ops, n, base, t)
    ensures t in s.tables
  {
  }

  lemma {:induction false} PlainColumnsMean(columns: seq<ColumnDef>, i: nat, lo: int)
    requires i <= |columns| && PlainColumns(columns, lo)
    ensures forall c :: c in ColumnMap(columns, i) <==> lo + i <= c < lo + |columns|
    ensures forall c | c in ColumnMap(columns, i) :: !ColumnMap(columns, i)[c].EnumType?
    decreases |columns| - i
  {
    if i < |columns| { PlainColumnsMean(columns, i + 1, lo); }
  }

  lemma {:induction false} SoundKeysMean(keys: seq<Key>, i: nat, lo: int, m: nat, hi: int, def: TableDef)
    requires i <= |keys| && SoundKeys(keys, lo, m, hi)
    requires forall c :: c in def.columns <==> lo <= c < lo + m
    ensures forall n | n in KeyMap(keys, i) :: n < hi && Within(KeyMap(keys, i)[n].columns, def)
    decreases |keys| - i
  {
    if i < |keys| { SoundKeysMean(keys, i + 1, lo, m, hi, def); }
  }

  lemma {:induction false} ReachMeans(ops: seq<Op>, n: nat, base: Base, t: Table, lo: int, m: nat,
                                      fks: seq<ForeignKey>, i: nat, s: Schema)
    requires n <= |ops| && Fits(ops, base) && Ready(ops, n, base, s)
    requires i <= |fks| && ReachTables(ops, n, base, t, lo, m, fks)
    ensures forall c | c in ReferenceMap(fks, i) ::
              lo <= c < lo + m && ReferenceMap(fks, i)[c].target in s.tables.Keys + {t}
    decreases |fks| - i
  {
    if i < |fks| {
      if fks[i].target != t { HasTableMeans(ops, n, base, s, fks[i].target); }
      ReachMeans(ops, n, base, t, lo, m, fks, i + 1, s);
    }
  }

  lemma CreateTableStep(ops: seq<Op>, n: nat, base: Base, s: Schema)
    requires n < |ops| && Fits(ops, base) && ops[n].CreateTable? && Ready(ops, n, base, s) && CertifiedAt(ops, n, base)
    ensures Apply(ops[n], s).Done? && Ready(ops, n + 1, base, Apply(ops[n], s).schema)
  {
    var CreateTable(t, columns, fks, keys) := ops[n];
    var next, def := n + 1, Build(columns, fks, keys);
    var lo, hi := base.names[n], base.names[n + 1];
    PlainColumnsMean(columns, 0, lo);
    SoundKeysMean(keys, 0, lo, |columns|, hi, def);
    ReachMeans(ops, n, base, t, lo, |columns|, fks, 0, s);
    var s' := With(s, t, def);
    assert Apply(ops[n], s) == Done(s');
    forall u, c | HasColumn(ops, next, base, u, c)
      ensures u in s'.tables && c in s'.tables[u].columns
    {
      if u != t || !Among(c, lo, |columns|) {
        assert HasColumn(ops, n, base, u, c);
      }
    }
  }

  lemma RenameTableStep(ops: seq<Op>, n: nat, base: Base, s: Schema)
    requires n < |ops| && Fits(ops, base) && ops[n].RenameTable? && Ready(ops, n, base, s) && CertifiedAt(ops, n, base)
    ensures Apply(ops[n], s).Done? && Ready(ops, n + 1, base, Apply(ops[n], s).schema)
  {
    HasTableMeans(ops, n, base, s, ops[n].t);
    var s' := Apply(ops[n], s).schema;
    assert s'.tables.Keys == s.tables.Keys - {ops[n].t} + {ops[n].to};
  }

  lemma AlterSucceeds(ops: seq<Op>, n: nat, base: Base, s: Schema)
    requires n < |ops| && Fits(ops, base) && !ops[n].CreateTable? && !ops[n].RenameTable?
    requires Ready(ops, n, base, s) && CertifiedAt(ops, n, base)
    ensures Apply(ops[n], s).Done?
  {
    var o := ops[n];
    if o.CreateIndex? || o.AddUnique? {
      HasTableMeans(ops, n, base, s, o.t);
      assert forall i | 0 <= i < |o.columns_| :: HasColumn(ops, n, base, o.t, o.columns_[i]);
    } else if o.AddColumn? {
      HasTableMeans(ops, n, base, s, o.t);
      if o.ref.To? { HasTableMeans(ops, n, base, s, o.ref.ref.target); }
    } else if o.CreateTrigger? || o.ChangeRows? {
      HasTableMeans(ops, n, base, s, o.t);
    }
  }

  lemma AlterBelow(ops: seq<Op>, n: nat, base: Base, s: Schema)
    requires n < |ops| && Fits(ops, base) && !ops[n].CreateTable? && !ops[n].RenameTable?
    requires NamesBelow(s, base.names[n]) && CertifiedAt(ops, n, base) && Apply(ops[n], s).Done?
    ensures NamesBelow(Apply(ops[n], s).schema, base.names[n + 1])
        && Apply(ops[n], s).schema.tables.Keys == s.tables.Keys
  {
  }

  lemma AlterProvides(ops: seq<Op>, n: nat, base: Base, s: Schema)
    requires n < |ops| && Fits(ops, base) && !ops[n].CreateTable? && !ops[n].RenameTable?
    requires Provided(ops, n, base, s) && CertifiedAt(ops, n, base) && Apply(ops[n], s).Done?
    ensures Provided(ops, n + 1, base, Apply(ops[n], s).schema)
  {
    var o, next := ops[n], n + 1;
    var s' := Apply(o, s).schema;
    forall t, c | HasColumn(ops, next, base, t, c)
      ensures t in s'.tables && c in s'.tables[t].columns
    {
      assert (o.AddColumn? && t == o.t && c == o.c) || HasColumn(ops, n, base, t, c);
    }
  }

  lemma Step(ops: seq<Op>, n: nat, base: Base, s: Schema)
    requires n < |ops| && Fits(ops, base) && Ready(ops, n, base, s) && CertifiedAt(ops, n, base)
    ensures Apply(ops[n], s).Done? && Ready(ops, n + 1, base, Apply(ops[n], s).schema)
    ensures s.enums.Keys <= Apply(ops[n], s).schema.enums.Keys
  {
    if ops[n].CreateTable? {
      CreateTableStep(ops, n, base, s);
    } else if ops[n].RenameTable? {
      RenameTableStep(ops, n, base, s);
    } else {
      AlterSucceeds(ops, n, base, s);
      AlterBelow(ops, n, base, s);
      AlterProvides(ops, n, base, s);
    }
  }

  lemma BaseReady(ops: seq<Op>, base: Base, s: Schema)
    requires Fits(ops, base) && Holds(base, s)
    ensures Ready(ops, 0, base, s)
  {
    forall t, c | HasColumn(ops, 0, base, t, c)
      ensures t in s.tables && c in s.tables[t].columns
    {
      assert (t, c) in base.columns;
    }
  }

  lemma {:induction false} CertifiedRun(ops: seq<Op>, n: nat, base: Base, s: Schema)
    requires n <= |ops| && Fits(ops, base) && Certified(ops, n, base) && Holds(base, s)
    ensures Run(ops[..n], s).Done? && Ready(ops, n, base, Run(ops[..n], s).schema)
    ensures s.enums.Keys <= Run(ops[..n], s).schema.enums.Keys
    decreases n
  {
    if n == 0 {
      BaseReady(ops, base, s);
    } else {
      CertifiedRun(ops, n - 1, base, s);
      assert ops[..n] == ops[..n - 1] + [ops[n - 1]];
      RunConcat(ops[..n - 1], [ops[n - 1]], s);
      Step(ops, n - 1, base, Run(ops[..n - 1], s).schema);
    }
  }

  /** A list that passes the check succeeds wherever its base holds. */
  lemma CertifiedSound(ops: seq<Op>, base: Base, s: Schema)
    requires Fits(ops, base) && Certified(ops, |ops|, base) && Holds(base, s)
    ensures Run(ops, s).Done?
    ensures Ready(ops, |ops|, base, Run(ops, s).schema)
    ensures s.enums.Keys <= Run(ops, s).schema.enums.Keys
  {
    CertifiedRun(ops, |ops|, base, s);
    assert ops[..|ops|] == ops;
  }

  // ---------------------------------------------------------------------------------------------
  // Whole revisions
  // ---------------------------------------------------------------------------------------------

  /** Block b passes from its base, and where it ends is where the next block starts. */
  predicate BlockCertified(ops: seq<Op>, base: Base, next: Base) {
    && |base.names| == |ops| + 1
    && Certified(ops, |ops|, base)
    && next.tables == Tables(ops, |ops|, base)
    && next.gone == Gone(ops, |ops|, base)
    && |next.names| > 0
    && next.names[0] == base.names[|ops|]
    && |next.columns| == 0
    && |next.enums| == 0
  }

  /** The first n blocks pass. */
  predicate BlocksCertified(blocks: seq<seq<Op>>, n: nat, bases: seq<Base>)
    requires n <= |blocks| && |bases| == |blocks| + 1
  {
    n == 0 || (BlockCertified(blocks[n - 1], bases[n - 1], bases[n]) && BlocksCertified(blocks, n - 1, bases))
  }

  predicate SameStart(base: Base, other: Base) {
    && base.tables == other.tables && base.gone == other.gone
    && |base.names| > 0 && |other.names| > 0 && base.names[0] == other.names[0]
    && base.columns == other.columns && base.enums == other.enums
  }

  /** The blocks pass, and lead from one state of the numbering to the other. */
  predicate Spans(blocks: seq<seq<Op>>, bases: seq<Base>, from: Base, to: Base) {
    && |bases| == |blocks| + 1
    && BlocksCertified(blocks, |blocks|, bases)
    && SameStart(bases[0], from)
    && SameStart(bases[|blocks|], to)
  }

  lemma BlockSound(ops: seq<Op>, base: Base, next: Base, s: Schema)
    requires BlockCertified(ops, base, next) && Holds(base, s)
    ensures Run(ops, s).Done? && Holds(next, Run(ops, s).schema)
    ensures s.enums.Keys <= Run(ops, s).schema.enums.Keys
  {
    CertifiedSound(ops, base, s);
  }

  lemma {:induction false} BlocksSound(blocks: seq<seq<Op>>, n: nat, bases: seq<Base>, s: Schema)
    requires n <= |blocks| && |bases| == |blocks| + 1 && BlocksCertified(blocks, n, bases)
    requires |bases[0].names| > 0 && Holds(bases[0], s)
    ensures |bases[n].names| > 0 && Run(Flat(blocks[..n]), s).Done? && Holds(bases[n], Run(Flat(blocks[..n]), s).schema)
    ensures s.enums.Keys <= Run(Flat(blocks[..n]), s).schema.enums.Keys
  {
    if n > 0 {
      BlocksSound(blocks, n - 1, bases, s);
      assert blocks[..n] == blocks[..n - 1] + [blocks[n - 1]];
      FlatConcat(blocks[..n - 1], [blocks[n - 1]]);
      assert Flat([blocks[n - 1]]) == blocks[n - 1];
      RunConcat(Flat(blocks[..n - 1]), blocks[n - 1], s);
      BlockSound(blocks[n - 1], bases[n - 1], bases[n], Run(Flat(blocks[..n - 1]), s).schema);
    }
  }

  /** A revision that passes the check succeeds wherever it may start, and leads to where it ends. */
  lemma RevisionSound(blocks: seq<seq<Op>>, bases: seq<Base>, from: Base, to: Base, s: Schema)
    requires Spans(blocks, bases, from, to) && |from.names| > 0 && Holds(from, s)
    ensures |to.names| > 0 && Run(Flat(blocks), s).Done? && Holds(to, Run(Flat(blocks), s).schema)
    ensures s.enums.Keys <= Run(Flat(blocks), s).schema.enums.Keys
  {
    assert blocks[..|blocks|] == blocks;
    BlocksSound(blocks, |blocks|, bases, s);
  }
}
