/**
 When a downgrade undoes an upgrade.  `Undoes` is a check on two operation lists alone; `UndoSound`
 shows that a pair which passes it restores every consistent schema on which the upgrade succeeds.
 */
module Undo {
  import opened SchemaModel

  // ---------------------------------------------------------------------------------------------
  // Consistency is kept by every operation, and so at every point of every run
  // ---------------------------------------------------------------------------------------------

  lemma WithKeepsConsistent(s: Schema, t: Table, def: TableDef)
    requires Consistent(s) && Sound(def, s.tables.Keys + {t}, s.enums.Keys, s.functions)
    ensures Consistent(With(s, t, def))
  {
    var s' := With(s, t, def);
    assert s'.tables.Keys == s.tables.Keys + {t};
    forall u | u in s'.tables && u != t
      ensures Sound(s'.tables[u], s'.tables.Keys, s'.enums.Keys, s'.functions)
    {
      assert Sound(s.tables[u], s.tables.Keys, s.enums.Keys, s.functions);
    }
  }

  lemma RenameKeepsConsistent(s: Schema, from: Table, to: Table)
    requires Consistent(s) && from in s.tables && to !in s.tables
    ensures Consistent(Renamed(s, from, to))
  {
    var s' := Renamed(s, from, to);
    assert s'.tables.Keys == s.tables.Keys - {from} + {to};
    forall t | t in s'.tables
      ensures Sound(s'.tables[t], s'.tables.Keys, s'.enums.Keys, s'.functions)
    {
      RetargetSound(s.tables[if t == to then from else t], from, to, s.tables.Keys, s.enums.Keys, s.functions);
    }
  }

  lemma RetargetSound(def: TableDef, from: Table, to: Table, live: set<Table>, enums: set<Name>, functions: set<Name>)
    requires Sound(def, live, enums, functions)
    ensures Sound(Retarget(def, from, to), live - {from} + {to}, enums, functions)
  {
    var def' := Retarget(def, from, to);
    forall n | n in def'.relations
      ensures Within(def'.relations[n].columns, def')
    {
      assert Within(def.relations[n].columns, def);
    }
  }

  lemma DropKeepsConsistent(o: Op, s: Schema)
    requires Consistent(s) && Apply(o, s).Done?
    requires o.DropTable? || o.DropTableIfExists? || o.DropEnum? || o.DropFunction? || o.CreateEnum?
        || o.AddEnumValue? || o.ReplaceFunction?
    ensures Consistent(Apply(o, s).schema)
  {
    var s' := Apply(o, s).schema;
    forall t | t in s'.tables
      ensures Sound(s'.tables[t], s'.tables.Keys, s'.enums.Keys, s'.functions)
    {
      assert Sound(s.tables[t], s.tables.Keys, s.enums.Keys, s.functions);
    }
  }

  lemma ApplyKeepsConsistent(o: Op, s: Schema)
    requires Consistent(s) && Apply(o, s).Done?
    ensures Consistent(Apply(o, s).schema)
  {
    if o.RenameTable? {
      RenameKeepsConsistent(s, o.t, o.to);
    } else if o.DropTable? || o.DropTableIfExists? || o.DropEnum? || o.DropFunction? || o.CreateEnum?
        || o.AddEnumValue? || o.ReplaceFunction? {
      DropKeepsConsistent(o, s);
    } else if Apply(o, s).schema != s {
      var def := Apply(o, s).schema.tables[o.t];
      if o.t in s.tables {
        assert Sound(s.tables[o.t], s.tables.Keys, s.enums.Keys, s.functions);
        assert s.tables.Keys + {o.t} == s.tables.Keys;
      }
      WithKeepsConsistent(s, o.t, def);
    }
  }

  lemma {:induction false} RunKeepsConsistent(ops: seq<Op>, s: Schema)
    requires Consistent(s) && Run(ops, s).Done?
    ensures Consistent(Run(ops, s).schema)
    decreases |ops|
  {
    if ops != [] {
      ApplyKeepsConsistent(ops[0], s);
      RunKeepsConsistent(ops[1..], Apply(ops[0], s).schema);
    }
  }

  lemma {:induction false} RunConcat(a: seq<Op>, b: seq<Op>, s: Schema)
    ensures Run(a + b, s) == match Run(a, s) case Done(s') => Run(b, s') case Failed(r) => Failed(r)
    decreases |a|
  {
    if a == [] {
      assert a + b == b;
    } else {
      assert (a + b)[1..] == a[1..] + b;
      if Apply(a[0], s).Done? {
        RunConcat(a[1..], b, Apply(a[0], s).schema);
      }
    }
  }

  // ---------------------------------------------------------------------------------------------
  // One operation undone by one operation
  // ---------------------------------------------------------------------------------------------

  /** `d` takes back what `u` created, given that `u` really created it. */
  predicate Inverts(u: Op, d: Op) {
    if u.CreateTable? then (d.DropTable? || d.DropTableIfExists?) && d.t == u.t
    else if u.AddColumn? then !u.ifNotExists && d.DropColumn? && d.t == u.t && d.c == u.c
    else if u.CreateIndex? then !u.ifNotExists && (d.DropIndex? || d.DropIndexIfExists?) && d.n == u.n && d.t == u.t
    else if u.AddUnique? then d.DropUnique? && d.n == u.n && d.t == u.t
    else if u.RenameTable? then d.RenameTable? && d.t == u.to && d.to == u.t
    else if u.CreateEnum? then d.DropEnum? && d.n == u.n
    else u.CreateTrigger? && d.DropTrigger? && d.n == u.n && d.t == u.t
  }

  /** `u` leaves no trace once `d` has run: it changed no schema, or only the table that `d` drops. */
  predicate Absorbed(u: Op, d: Op) {
    || u.ChangeRows?
    || ((d.DropTable? || d.DropTableIfExists?)
        && (u.AddColumn? || u.CreateIndex? || u.AddUnique?) && u.t == d.t)
  }

  lemma AddColumnBack(s: Schema, t: Table, c: Column, ty: ColumnType, ref: OptionalReference)
    requires Consistent(s) && Apply(AddColumn(t, c, ty, ref, false), s).Done?
    ensures Apply(DropColumn(t, c), Apply(AddColumn(t, c, ty, ref, false), s).schema) == Done(s)
  {
    var s1 := Apply(AddColumn(t, c, ty, ref, false), s).schema;
    var def := s.tables[t];
    var def1 := WithoutColumn(s1.tables[t], c);
    assert Sound(def, s.tables.Keys, s.enums.Keys, s.functions);
    assert def1.columns == def.columns;
    assert def1.references == def.references;
    forall n | n in def.relations
      ensures c !in def.relations[n].columns
    {
      assert Within(def.relations[n].columns, def);
    }
    assert def1.relations == def.relations;
    assert s1.tables[t := def1] == s.tables;
  }

  lemma CreateEnumBack(s: Schema, n: Name, values: seq<string>)
    requires Consistent(s) && n !in s.enums
    ensures Apply(DropEnum(n), s.(enums := s.enums[n := values])) == Done(s)
  {
    var s1 := s.(enums := s.enums[n := values]);
    forall t, c | t in s.tables && c in s.tables[t].columns
      ensures s.tables[t].columns[c] != EnumType(n)
    {
      assert Sound(s.tables[t], s.tables.Keys, s.enums.Keys, s.functions);
    }
    assert s1.enums - {n} == s.enums;
  }

  lemma CreateTableBack(s: Schema, t: Table, def: TableDef)
    requires Consistent(s) && t !in s.tables
    ensures !ReferencedElsewhere(With(s, t, def), t) && With(s, t, def).tables - {t} == s.tables
  {
    forall u, c | u in s.tables && c in s.tables[u].references
      ensures s.tables[u].references[c].target != t
    {
      assert Sound(s.tables[u], s.tables.Keys, s.enums.Keys, s.functions);
    }
  }

  lemma InvertsSound(u: Op, d: Op, s: Schema)
    requires Consistent(s) && Apply(u, s).Done? && Inverts(u, d)
    ensures Apply(d, Apply(u, s).schema) == Done(s)
  {
    var s1 := Apply(u, s).schema;
    if u.CreateTable? {
      CreateTableBack(s, u.t, Build(u.columns, u.references, u.keys));
    } else if u.AddColumn? {
      AddColumnBack(s, u.t, u.c, u.ty, u.ref);
    } else if u.RenameTable? {
      RenameBack(s, u.t, u.to);
    } else if u.CreateEnum? {
      CreateEnumBack(s, u.n, u.values);
    } else {
      assert u.CreateTrigger? ==> s1.tables[u.t].triggers - {u.n} == s.tables[u.t].triggers;
      assert !u.CreateTrigger? ==> s1.tables[u.t].relations - {u.n} == s.tables[u.t].relations;
      assert s1.tables[u.t := s.tables[u.t]] == s.tables;
    }
  }

  /** Renaming there and back restores every foreign key, since none pointed to the unused name. */
  lemma RenameBack(s: Schema, t: Table, to: Table)
    requires Consistent(s) && t in s.tables && to !in s.tables
    ensures Renamed(Renamed(s, t, to), to, t) == s
  {
    var there := Renamed(s, t, to).tables;
    var back := Renamed(Renamed(s, t, to), to, t).tables;
    forall v | v in s.tables
      ensures Retarget(there[if v == t then to else v], to, t) == s.tables[v]
    {
      assert Sound(s.tables[v], s.tables.Keys, s.enums.Keys, s.functions);
      RetargetBack(s.tables[v], t, to);
    }
    assert back.Keys == s.tables.Keys;
    assert back == s.tables;
  }

  lemma RetargetBack(def: TableDef, t: Table, to: Table)
    requires forall c | c in def.references :: def.references[c].target != to
    ensures Retarget(Retarget(def, t, to), to, t) == def
  {
    var there := Retarget(def, t, to);
    var back := Retarget(there, to, t);
    forall c | c in def.references
      ensures back.references[c] == def.references[c]
    {
      assert there.references[c] == RetargetOne(def.references[c], t, to);
    }
    assert back.references == def.references;
  }

  lemma AbsorbedSound(u: Op, d: Op, s: Schema)
    requires Apply(u, s).Done? && Absorbed(u, d) && Apply(d, s).Done?
    ensures Apply(d, Apply(u, s).schema) == Apply(d, s)
  {
    if !u.ChangeRows? {
      var s1 := Apply(u, s).schema;
      assert s1.tables == s.tables[u.t := s1.tables[u.t]];
      assert s1.tables - {d.t} == s.tables - {d.t};
    }
  }

  // ---------------------------------------------------------------------------------------------
  // Whole lists
  // ---------------------------------------------------------------------------------------------

  /** Going back through `up` from operation n to operation n1, `down[m..m1]` takes its operations back:
      each inverts the last one of `up` that is still there, after absorbing the ones behind it. */
  predicate UndoesFrom(up: seq<Op>, n: nat, down: seq<Op>, m: nat, n1: nat, m1: nat)
    requires n <= |up| && m <= |down|
  {
    if n <= n1 then n == n1 && m == m1
    else if m < |down| && Inverts(up[n - 1], down[m]) then UndoesFrom(up, n - 1, down, m + 1, n1, m1)
    else
      && (if m < |down| then Absorbed(up[n - 1], down[m]) else up[n - 1].ChangeRows?)
      && UndoesFrom(up, n - 1, down, m, n1, m1)
  }

  predicate Undoes(up: seq<Op>, down: seq<Op>) {
    UndoesFrom(up, |up|, down, 0, 0, |down|)
  }

  lemma {:induction false} Rejoined(up: seq<Op>, n: nat, down: seq<Op>, m: nat, n1: nat, m1: nat, n2: nat, m2: nat)
    requires n <= |up| && m <= |down| && n1 <= |up| && m1 <= |down| && n2 <= n1 <= n
    requires UndoesFrom(up, n, down, m, n1, m1) && UndoesFrom(up, n1, down, m1, n2, m2)
    ensures UndoesFrom(up, n, down, m, n2, m2)
    decreases n
  {
    if n > n1 {
      if m < |down| && Inverts(up[n - 1], down[m]) {
        Rejoined(up, n - 1, down, m + 1, n1, m1, n2, m2);
      } else {
        Rejoined(up, n - 1, down, m, n1, m1, n2, m2);
      }
    }
  }

  /** The schema before operation i of a run that succeeds. */
  ghost function Before(up: seq<Op>, s: Schema, i: nat): (r: Schema)
    requires i <= |up| && Run(up, s).Done?
    ensures Run(up[..i], s) == Done(r)
  {
    assert up == up[..i] + up[i..];
    RunConcat(up[..i], up[i..], s);
    Run(up[..i], s).schema
  }

  lemma NextBefore(up: seq<Op>, s: Schema, i: nat)
    requires i < |up| && Run(up, s).Done?
    ensures Apply(up[i], Before(up, s, i)) == Done(Before(up, s, i + 1))
  {
    assert up[..i + 1] == up[..i] + [up[i]];
    RunConcat(up[..i], [up[i]], s);
  }

  lemma {:induction false} UndoFromSound(up: seq<Op>, n: nat, down: seq<Op>, m: nat, s: Schema)
    requires Consistent(s) && Run(up, s).Done? && n <= |up| && m <= |down| && UndoesFrom(up, n, down, m, 0, |down|)
    ensures Run(down[m..], Before(up, s, n)) == Done(s)
    decreases n
  {
    if n > 0 {
      NextBefore(up, s, n - 1);
      var before := Before(up, s, n - 1);
      if m < |down| && Inverts(up[n - 1], down[m]) {
        RunKeepsConsistent(up[..n - 1], s);
        InvertsSound(up[n - 1], down[m], before);
        UndoFromSound(up, n - 1, down, m + 1, s);
        assert down[m..][1..] == down[m + 1..];
      } else {
        UndoFromSound(up, n - 1, down, m, s);
        if m < |down| {
          AbsorbedSound(up[n - 1], down[m], before);
        }
      }
    }
  }

  /** A pair of lists that passes the check restores every consistent schema on which the upgrade
      succeeds; in particular no operation of the downgrade can fail. */
  lemma UndoSound(up: seq<Op>, down: seq<Op>, s: Schema)
    requires Consistent(s) && Run(up, s).Done? && Undoes(up, down)
    ensures Run(down, Run(up, s).schema) == Done(s)
  {
    UndoFromSound(up, |up|, down, 0, s);
    assert up[..|up|] == up && down[0..] == down;
  }

  // ---------------------------------------------------------------------------------------------
  // Whole revisions
  // ---------------------------------------------------------------------------------------------

  lemma {:induction false} FlatConcat(a: seq<seq<Op>>, b: seq<seq<Op>>)
    ensures Flat(a + b) == Flat(a) + Flat(b)
  {
    if a == [] {
      assert a + b == b;
    } else {
      assert (a + b)[1..] == a[1..] + b;
      FlatConcat(a[1..], b);
    }
  }

  /** The first n blocks of `up` are undone by as many blocks at the end of `down`, in reverse. */
  predicate BlocksUndone(up: seq<seq<Op>>, n: nat, down: seq<seq<Op>>)
    requires n <= |up| == |down|
  {
    n == 0 || (Undoes(up[n - 1], down[|up| - n]) && BlocksUndone(up, n - 1, down))
  }

  lemma {:induction false} BlocksUndoneSound(up: seq<seq<Op>>, n: nat, down: seq<seq<Op>>, s: Schema)
    requires Consistent(s) && n <= |up| == |down| && Run(Flat(up[..n]), s).Done? && BlocksUndone(up, n, down)
    ensures Run(Flat(down[|up| - n..]), Run(Flat(up[..n]), s).schema) == Done(s)
  {
    if n > 0 {
      var k := |up| - n;
      assert up[..n] == up[..n - 1] + [up[n - 1]];
      assert down[k..] == [down[k]] + down[k + 1..];
      FlatConcat(up[..n - 1], [up[n - 1]]);
      FlatConcat([down[k]], down[k + 1..]);
      assert Flat([up[n - 1]]) == up[n - 1] && Flat([down[k]]) == down[k];
      RunConcat(Flat(up[..n - 1]), up[n - 1], s);
      var before := Run(Flat(up[..n - 1]), s).schema;
      RunKeepsConsistent(Flat(up[..n - 1]), s);
      UndoSound(up[n - 1], down[k], before);
      RunConcat(down[k], Flat(down[k + 1..]), Run(Flat(up[..n]), s).schema);
      BlocksUndoneSound(up, n - 1, down, s);
    }
  }

  /** A revision each of whose blocks is undone restores every consistent schema on which it succeeds. */
  lemma RevisionUndoneSound(up: seq<seq<Op>>, down: seq<seq<Op>>, s: Schema)
    requires Consistent(s) && |up| == |down| && Run(Flat(up), s).Done? && BlocksUndone(up, |up|, down)
    ensures Run(Flat(down), Run(Flat(up), s).schema) == Done(s)
  {
    assert up[..|up|] == up && down[0..] == down;
    BlocksUndoneSound(up, |up|, down, s);
  }
}
