/** The constraints that tenant revision 0031 puts on the attendance sessions. */
module AttendanceKeys {
  import opened SchemaModel
  import opened Undo
  import opened History
  import opened Catalog
  import opened TenantNames
  import opened TenantRevisions
  import opened TenantChecks

  /** Unique on (course, section, date, period). */
  function PlainKey(): Fact {
    RelationFact(SisAttendanceSessions(), UqAttSessionsCourseSectionDatePeriod(),
      UniqueKey([SisAttendanceSessionsCourseId(), SisAttendanceSessionsSectionId(),
                 SisAttendanceSessionsSessionDate(), SisAttendanceSessionsPeriodNumber()]))
  }

  /** Unique on (course, section, date), for some of the rows. */
  function PartialKey(): Fact {
    RelationFact(SisAttendanceSessions(), UqAttSessionsNoPeriod(),
      Index([SisAttendanceSessionsCourseId(), SisAttendanceSessionsSectionId(), SisAttendanceSessionsSessionDate()],
            true, true))
  }

  /** The fact makes rows of the attendance sessions unique. */
  predicate IsUnique(f: Fact) {
    f.RelationFact? && f.t == SisAttendanceSessions() && (f.relation.UniqueKey? || f.relation.unique)
  }

  /** A table without keys, the two constraints, then indexes that are not unique. */
  predicate MakesTwo(ops: seq<Op>) {
    && |ops| > 2
    && ops[0].CreateTable? && ops[0].t == SisAttendanceSessions() && ops[0].keys == [] && IsUnambiguous(ops[0])
    && ops[1].AddUnique? && PlainKey() == RelationFact(ops[1].t, ops[1].n, UniqueKey(ops[1].columns_))
    && ops[2].CreateIndex? && !ops[2].ifNotExists
    && PartialKey() == RelationFact(ops[2].t, ops[2].n, Index(ops[2].columns_, ops[2].unique, ops[2].partial))
    && forall i | 3 <= i < |ops| :: ops[i].CreateIndex? && !ops[i].unique
  }

  /** Other tables only. */
  predicate IsElsewhere(ops: seq<Op>) {
    forall i | 0 <= i < |ops| ::
      && IsUnambiguous(ops[i])
      && (ops[i].CreateTable? || ops[i].AddUnique? || ops[i].CreateIndex?) && ops[i].t != SisAttendanceSessions()
  }

  lemma PlainBrought(ops: seq<Op>, s: Schema)
    requires Consistent(s) && Run(ops, s).Done? && MakesTwo(ops)
    ensures Has(Run(ops, s).schema, PlainKey())
  {
    assert Spared(ops[2..], PlainKey());
    BroughtStays(ops, 1, s, PlainKey());
  }

  lemma PartialBrought(ops: seq<Op>, s: Schema)
    requires Consistent(s) && Run(ops, s).Done? && MakesTwo(ops)
    ensures Has(Run(ops, s).schema, PartialKey())
  {
    NextBefore(ops, s, 2);
    assert Spared(ops[3..], PartialKey());
    BroughtStays(ops, 2, s, PartialKey());
  }

  lemma OnlyTwo(ops: seq<Op>, i: nat, before: Schema, f: Fact)
    requires MakesTwo(ops) && i < |ops| && IsUnique(f) && Adds(ops[i], before, f)
    ensures f == PlainKey() || f == PartialKey()
  {
  }

  lemma NoneBefore(ops: seq<Op>, s: Schema, f: Fact)
    requires Run(ops, s).Done? && MakesTwo(ops) && IsUnique(f)
    ensures !Has(s, f)
  {
    NextBefore(ops, s, 0);
    assert ops[..0] == [];
  }

  lemma FirstBlock(ops: seq<Op>, s: Schema, f: Fact)
    requires Consistent(s) && Run(ops, s).Done? && MakesTwo(ops) && IsUnique(f)
    ensures Has(Run(ops, s).schema, f) <==> f == PlainKey() || f == PartialKey()
  {
    PlainBrought(ops, s);
    PartialBrought(ops, s);
    NoneBefore(ops, s, f);
    assert ops[..|ops|] == ops;
    if Has(Run(ops, s).schema, f) {
      CameFrom(ops, s, |ops|, f);
      var i: nat :| i < |ops| && Adds(ops[i], Before(ops, s, i), f);
      OnlyTwo(ops, i, Before(ops, s, i), f);
    }
  }

  lemma SecondBlock(ops: seq<Op>, s: Schema, f: Fact)
    requires Consistent(s) && Run(ops, s).Done? && IsElsewhere(ops) && IsUnique(f)
    ensures Has(Run(ops, s).schema, f) <==> Has(s, f)
  {
    assert ops[..|ops|] == ops;
    if Has(s, f) {
      SparedStays(ops, s, f);
    } else if Has(Run(ops, s).schema, f) {
      CameFrom(ops, s, |ops|, f);
    }
  }

  lemma TheBlocks()
    ensures |UP_0031| == 2 && MakesTwo(UP_0031[0]) && IsElsewhere(UP_0031[1])
  {
  }

  /** After revision 0031 exactly two constraints make attendance sessions unique: the plain one and the
      partial one. */
  lemma TwoConstraints(s: Schema, f: Fact)
    requires Consistent(s) && Run(Rev0031().Upgrade(), s).Done? && IsUnique(f)
    ensures Has(Run(Rev0031().Upgrade(), s).schema, f) <==> f == PlainKey() || f == PartialKey()
  {
    var a, b := UP_0031[0], UP_0031[1];
    assert UP_0031 == [a] + [b];
    FlatConcat([a], [b]);
    OneBlock(a);
    OneBlock(b);
    RunConcat(a, b, s);
    var s1 := Run(a, s).schema;
    RunKeepsConsistent(a, s);
    TheBlocks();
    FirstBlock(a, s, f);
    SecondBlock(b, s1, f);
  }
}
