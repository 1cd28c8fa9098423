/**
 The four tenant revisions whose downgrade does not undo the upgrade on every schema, and exactly when
 it does.
 */
module TenantExceptions {
  import opened SchemaModel
  import opened Undo
  import opened History
  import opened TenantNames
  import opened TenantRevisions
  import opened TenantChecks

  predicate HasType(s: Schema, t: Table, c: Column, ty: ColumnType) {
    t in s.tables && c in s.tables[t].columns && s.tables[t].columns[c] == ty
  }

  /** When a downgrade undoes the upgrade it follows: always for most revisions; for 0002 if both columns
      held VARCHAR, the only type the downgrade knows; for 0016 if the enum had the new value already,
      since no value can be removed; for 0027 if neither the column nor the index was there, since the
      upgrade spares them and the downgrade does not. */
  predicate Lossless(r: nat, s: Schema) {
    if r == 2 then HasType(s, Users(), UsersRole(), Varchar) && HasType(s, OtpCodes(), OtpCodesPurpose(), Varchar)
    else if r == 16 then Tenantrole() in s.enums && "EVALUATOR" in s.enums[Tenantrole()]
    else if r == 27 then
      Users() in s.tables ==>
        && UsersAcadProgramId() !in s.tables[Users()].columns
        && IxUsersAcadProgramId() !in s.tables[Users()].relations
    else true
  }

  // ---------------------------------------------------------------------------------------------
  // 0002: two columns change from text to enum types
  // ---------------------------------------------------------------------------------------------

  function WithType(s: Schema, t: Table, c: Column, ty: ColumnType): Schema
    requires t in s.tables
  {
    With(s, t, s.tables[t].(columns := s.tables[t].columns[c := ty]))
  }

  /** What revision 0002 makes of a schema. */
  function Enumerated(s: Schema): Schema
    requires Users() in s.tables && OtpCodes() in s.tables
  {
    var s1 := s.(enums := s.enums[Tenantrole() := ROLES][Otppurpose() := PURPOSES]);
    WithType(WithType(s1, Users(), UsersRole(), EnumType(Tenantrole())),
             OtpCodes(), OtpCodesPurpose(), EnumType(Otppurpose()))
  }

  const ROLES := ["ADMIN", "DEAN", "FACULTY", "STUDENT", "BOARD", "GUIDE"]
  const PURPOSES := ["PASSWORD_RESET"]
  const ALL_ROLES := ROLES + ["EVALUATOR"]

  lemma UpgradeTwo(s: Schema)
    requires Run(Rev0002().Upgrade(), s).Done?
    ensures Tenantrole() !in s.enums && Otppurpose() !in s.enums
    ensures Users() in s.tables && UsersRole() in s.tables[Users()].columns
    ensures OtpCodes() in s.tables && OtpCodesPurpose() in s.tables[OtpCodes()].columns
    ensures Run(Rev0002().Upgrade(), s) == Done(Enumerated(s))
  {
    var up := UP_0002[0];
    OneBlock(up);
    assert UP_0002 == [up];
    NextBefore(up, s, 0);
    NextBefore(up, s, 1);
    NextBefore(up, s, 2);
    NextBefore(up, s, 3);
    assert up[..4] == up;
  }

  function BothVarchar(s: Schema): Schema
    requires Users() in s.tables && OtpCodes() in s.tables
  {
    WithType(WithType(s, Users(), UsersRole(), Varchar), OtpCodes(), OtpCodesPurpose(), Varchar)
  }

  lemma ColumnsBack(s: Schema, t0: Schema)
    requires Users() in s.tables && OtpCodes() in s.tables && t0.tables == Enumerated(s).tables
    ensures Users() in t0.tables && OtpCodes() in t0.tables
    ensures BothVarchar(t0).tables == BothVarchar(s).tables
  {
    var u, o := s.tables[Users()].columns, s.tables[OtpCodes()].columns;
    assert u[UsersRole() := EnumType(Tenantrole())][UsersRole() := Varchar] == u[UsersRole() := Varchar];
    assert o[OtpCodesPurpose() := EnumType(Otppurpose())][OtpCodesPurpose() := Varchar] ==
           o[OtpCodesPurpose() := Varchar];
    assert BothVarchar(t0).tables[Users()] == BothVarchar(s).tables[Users()];
    assert BothVarchar(t0).tables[OtpCodes()] == BothVarchar(s).tables[OtpCodes()];
  }

  lemma TypesDropped(s: Schema, t: Schema, roles: seq<string>)
    requires Consistent(s) && Users() in s.tables && OtpCodes() in s.tables
    requires Tenantrole() !in s.enums && Otppurpose() !in s.enums
    requires t == BothVarchar(s).(enums := s.enums[Tenantrole() := roles][Otppurpose() := PURPOSES])
    ensures Apply(DropEnum(Otppurpose()), t) == Done(t.(enums := s.enums[Tenantrole() := roles]))
    ensures Apply(DropEnum(Tenantrole()), t.(enums := s.enums[Tenantrole() := roles])) == Done(BothVarchar(s))
  {
    var t1 := t.(enums := s.enums[Tenantrole() := roles]);
    NoLongerUsed(s, t, Otppurpose());
    NoLongerUsed(s, t1, Tenantrole());
    assert t.enums - {Otppurpose()} == t1.enums;
    assert t1.enums - {Tenantrole()} == s.enums;
  }

  /** The downgrade sets both columns to VARCHAR and drops both types, whatever values they have. */
  lemma DowngradeTwo(s: Schema, roles: seq<string>)
    requires Consistent(s) && Run(Rev0002().Upgrade(), s).Done?
    ensures Users() in s.tables && OtpCodes() in s.tables
    ensures Run(Rev0002().Downgrade(), WithValues(Run(Rev0002().Upgrade(), s).schema, Tenantrole(), roles)) ==
            Done(BothVarchar(s))
  {
    UpgradeTwo(s);
    var t0 := WithValues(Enumerated(s), Tenantrole(), roles);
    assert t0.enums == s.enums[Tenantrole() := roles][Otppurpose() := PURPOSES];
    DowngradeTwoSteps(s, t0, roles);
  }

  lemma DowngradeTwoSteps(s: Schema, t0: Schema, roles: seq<string>)
    requires Consistent(s) && Run(Rev0002().Upgrade(), s).Done? && Users() in s.tables && OtpCodes() in s.tables
    requires t0 == Enumerated(s).(enums := s.enums[Tenantrole() := roles][Otppurpose() := PURPOSES])
    requires Tenantrole() !in s.enums && Otppurpose() !in s.enums
    requires UsersRole() in s.tables[Users()].columns && OtpCodesPurpose() in s.tables[OtpCodes()].columns
    ensures Run(Rev0002().Downgrade(), t0) == Done(BothVarchar(s))
  {
    var down := DOWN_0002[0];
    OneBlock(down);
    assert DOWN_0002 == [down];
    ColumnsBack(s, t0);
    var t1 := WithType(t0, OtpCodes(), OtpCodesPurpose(), Varchar);
    var t2 := WithType(t1, Users(), UsersRole(), Varchar);
    assert t2.tables == BothVarchar(s).tables;
    TypesDropped(s, t2, roles);
    FourSteps(down, t0, t1, t2, t2.(enums := s.enums[Tenantrole() := roles]), BothVarchar(s));
  }

  lemma NoLongerUsed(s: Schema, t: Schema, e: Name)
    requires Consistent(s) && e !in s.enums && Users() in s.tables && OtpCodes() in s.tables
    requires t.tables == BothVarchar(s).tables
    ensures !EnumInUse(t, e)
  {
    forall u, c | u in t.tables && c in t.tables[u].columns
      ensures t.tables[u].columns[c] != EnumType(e)
    {
      assert Sound(s.tables[u], s.tables.Keys, s.enums.Keys, s.functions);
    }
  }

  lemma FourSteps(ops: seq<Op>, s0: Schema, s1: Schema, s2: Schema, s3: Schema, s4: Schema)
    requires |ops| == 4
    requires Apply(ops[0], s0) == Done(s1) && Apply(ops[1], s1) == Done(s2)
    requires Apply(ops[2], s2) == Done(s3) && Apply(ops[3], s3) == Done(s4)
    ensures Run(ops, s0) == Done(s4)
  {
    assert ops == [ops[0]] + [ops[1]] + [ops[2]] + [ops[3]];
    RunConcat([ops[0]] + [ops[1]] + [ops[2]], [ops[3]], s0);
    RunConcat([ops[0]] + [ops[1]], [ops[2]], s0);
    RunConcat([ops[0]], [ops[1]], s0);
  }

  lemma TwoThereAndBack(s: Schema)
    requires Consistent(s) && Run(Rev0002().Upgrade(), s).Done?
    ensures Users() in s.tables && UsersRole() in s.tables[Users()].columns
    ensures OtpCodes() in s.tables && OtpCodesPurpose() in s.tables[OtpCodes()].columns
    ensures ThereAndBack(Rev0002(), s) == Done(BothVarchar(s))
  {
    UpgradeTwo(s);
    RolesAsCreated(s);
    DowngradeTwo(s, ROLES);
  }

  lemma RolesAsCreated(s: Schema)
    requires Users() in s.tables && OtpCodes() in s.tables
    ensures WithValues(Enumerated(s), Tenantrole(), ROLES) == Enumerated(s)
  {
    assert Enumerated(s).enums[Tenantrole() := ROLES] == Enumerated(s).enums;
  }

  lemma BothVarcharAlready(s: Schema)
    requires Users() in s.tables && UsersRole() in s.tables[Users()].columns
    requires OtpCodes() in s.tables && OtpCodesPurpose() in s.tables[OtpCodes()].columns
    ensures BothVarchar(s) == s <==> Lossless(2, s)
  {
    if Lossless(2, s) {
      assert s.tables[Users()].columns[UsersRole() := Varchar] == s.tables[Users()].columns;
      assert s.tables[OtpCodes()].columns[OtpCodesPurpose() := Varchar] == s.tables[OtpCodes()].columns;
      assert BothVarchar(s).tables == s.tables;
    } else {
      assert HasType(BothVarchar(s), Users(), UsersRole(), Varchar);
      assert HasType(BothVarchar(s), OtpCodes(), OtpCodesPurpose(), Varchar);
    }
  }

  lemma TwoIsLossless(s: Schema)
    requires Consistent(s) && Run(Rev0002().Upgrade(), s).Done?
    ensures ThereAndBack(Rev0002(), s) == Done(s) <==> Lossless(2, s)
  {
    TwoThereAndBack(s);
    BothVarcharAlready(s);
  }

  // ---------------------------------------------------------------------------------------------
  // 0016: a value is added to an enum
  // ---------------------------------------------------------------------------------------------

  lemma UpgradeSixteen(s: Schema)
    requires Run(Rev0016().Upgrade(), s).Done?
    ensures Apply(UP_0016[0][0], s).Done?
    ensures Run(Rev0016().Upgrade(), s) == Run(UP_0016[1], Apply(UP_0016[0][0], s).schema)
  {
    var value, table := UP_0016[0], UP_0016[1];
    assert UP_0016 == [value] + [table];
    FlatConcat([value], [table]);
    OneBlock(value);
    OneBlock(table);
    RunConcat(value, table, s);
    assert value == [value[0]];
  }

  /** All that is left after the downgrade is the enum value. */
  lemma SixteenLeavesTheValue(s: Schema)
    requires Consistent(s) && Run(Rev0016().Upgrade(), s).Done?
    ensures ThereAndBack(Rev0016(), s) == Apply(AddEnumValue(Tenantrole(), "EVALUATOR"), s)
  {
    UpgradeSixteen(s);
    assert UP_0016[0][0] == AddEnumValue(Tenantrole(), "EVALUATOR");
    var s1 := Apply(UP_0016[0][0], s).schema;
    ApplyKeepsConsistent(UP_0016[0][0], s);
    assert UndoesFrom(UP_0016[1], 3, DOWN_0016[0], 0, 0, 1);
    UndoSound(UP_0016[1], DOWN_0016[0], s1);
    OneBlock(DOWN_0016[0]);
    assert DOWN_0016 == [DOWN_0016[0]];
  }

  lemma RolesGrow(s: Schema)
    requires Tenantrole() in s.enums && s.enums[Tenantrole()] == ROLES
    ensures Apply(AddEnumValue(Tenantrole(), "EVALUATOR"), s) == Done(WithValues(s, Tenantrole(), ALL_ROLES))
  {
    assert "EVALUATOR" !in ROLES;
  }

  lemma ValueThereAlready(s: Schema)
    requires Apply(AddEnumValue(Tenantrole(), "EVALUATOR"), s).Done?
    ensures Apply(AddEnumValue(Tenantrole(), "EVALUATOR"), s) == Done(s) <==> Lossless(16, s)
  {
    var values := s.enums[Tenantrole()];
    if "EVALUATOR" !in values {
      assert |values + ["EVALUATOR"]| > |values|;
    }
  }

  lemma SixteenIsLossless(s: Schema)
    requires Consistent(s) && Run(Rev0016().Upgrade(), s).Done?
    ensures ThereAndBack(Rev0016(), s) == Done(s) <==> Lossless(16, s)
  {
    SixteenLeavesTheValue(s);
    UpgradeSixteen(s);
    assert UP_0016[0][0] == AddEnumValue(Tenantrole(), "EVALUATOR");
    ValueThereAlready(s);
  }

  // ---------------------------------------------------------------------------------------------
  // 0023: rows change, the schema does not
  // ---------------------------------------------------------------------------------------------

  lemma TwentyThreeIsLossless(s: Schema)
    requires Run(Rev0023().Upgrade(), s).Done?
    ensures ThereAndBack(Rev0023(), s) == Done(s)
  {
    var ops := UP_0023[0];
    OneBlock(ops);
    assert UP_0023 == [ops] && DOWN_0023 == [ops];
    NextBefore(ops, s, 0);
    NextBefore(ops, s, 1);
    assert ops[..2] == ops;
  }

  // ---------------------------------------------------------------------------------------------
  // 0027: a column and its index, unless they are there
  // ---------------------------------------------------------------------------------------------

  /** Revision 0027 without the two guards. */
  const UNGUARDED: seq<Op> := [
    AddColumn(Users(), UsersAcadProgramId(), Uuid, To(Reference(AcadPrograms(), SetNull)), false),
    Ix(IxUsersAcadProgramId(), Users(), [UsersAcadProgramId()])]

  /** Where neither was there the guards make no difference. */
  lemma GuardsIdle(s: Schema)
    requires Run(UP_0027[0], s).Done? && Lossless(27, s)
    ensures Run(UNGUARDED, s) == Run(UP_0027[0], s)
  {
    var up := UP_0027[0];
    NextBefore(up, s, 0);
    NextBefore(up, s, 1);
    assert up[..2] == up;
    var s1 := Before(up, s, 1);
    assert Apply(UNGUARDED[0], s) == Done(s1);
    assert Apply(UNGUARDED[1], s1) == Apply(up[1], s1);
    assert UNGUARDED == [UNGUARDED[0]] + [UNGUARDED[1]];
    RunConcat([UNGUARDED[0]], [UNGUARDED[1]], s);
  }

  lemma AbsentThereAndBack(s: Schema)
    requires Consistent(s) && Run(UP_0027[0], s).Done? && Lossless(27, s)
    ensures Run(DOWN_0027[0], Run(UP_0027[0], s).schema) == Done(s)
  {
    GuardsIdle(s);
    assert UndoesFrom(UNGUARDED, 2, DOWN_0027[0], 0, 0, 2);
    UndoSound(UNGUARDED, DOWN_0027[0], s);
  }

  /** The downgrade leaves neither the column nor the index. */
  lemma BothAreGone(s: Schema)
    requires Run(DOWN_0027[0], s).Done?
    ensures Users() in s.tables && Run(DOWN_0027[0], s).schema.tables.Keys == s.tables.Keys
    ensures UsersAcadProgramId() !in Run(DOWN_0027[0], s).schema.tables[Users()].columns
    ensures IxUsersAcadProgramId() !in Run(DOWN_0027[0], s).schema.tables[Users()].relations
  {
    var down := DOWN_0027[0];
    NextBefore(down, s, 0);
    NextBefore(down, s, 1);
    assert down[..2] == down;
  }

  lemma TwentySevenIsLossless(s: Schema)
    requires Consistent(s) && Run(Rev0027().Upgrade(), s).Done?
    ensures ThereAndBack(Rev0027(), s) == Done(s) <==> Lossless(27, s)
  {
    var up, down := UP_0027[0], DOWN_0027[0];
    OneBlock(up);
    OneBlock(down);
    assert UP_0027 == [up] && DOWN_0027 == [down];
    if Lossless(27, s) {
      AbsentThereAndBack(s);
    } else if Run(down, Run(up, s).schema).Done? {
      BothAreGone(Run(up, s).schema);
    }
  }
}
