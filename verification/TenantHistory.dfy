/** The tenant revisions as a chain, from an empty schema to head and back. */
module TenantHistory {
  import opened SchemaModel
  import opened Undo
  import opened Forward
  import opened History
  import opened TenantNames
  import opened TenantRevisions
  import opened TenantChecks
  import opened TenantExceptions

  ghost predicate HasFrom1(h: seq<Revision>)
    requires |h| == 35
  {
    h[0] == Rev0001() && h[1] == Rev0002() && h[2] == Rev0003() && h[3] == Rev0004() && h[4] == Rev0005()
    && h[5] == Rev0006()
  }

  ghost predicate HasFrom7(h: seq<Revision>)
    requires |h| == 35
  {
    h[6] == Rev0007() && h[7] == Rev0008() && h[8] == Rev0009() && h[9] == Rev0010() && h[10] == Rev0011()
    && h[11] == Rev0012()
  }

  ghost predicate HasFrom13(h: seq<Revision>)
    requires |h| == 35
  {
    h[12] == Rev0013() && h[13] == Rev0014() && h[14] == Rev0015() && h[15] == Rev0016() && h[16] == Rev0017()
    && h[17] == Rev0018()
  }

  ghost predicate HasFrom19(h: seq<Revision>)
    requires |h| == 35
  {
    h[18] == Rev0019() && h[19] == Rev0020() && h[20] == Rev0021() && h[21] == Rev0022() && h[22] == Rev0023()
    && h[23] == Rev0024()
  }

  ghost predicate HasFrom25(h: seq<Revision>)
    requires |h| == 35
  {
    h[24] == Rev0025() && h[25] == Rev0026() && h[26] == Rev0027() && h[27] == Rev0028() && h[28] == Rev0029()
    && h[29] == Rev0030()
  }

  ghost predicate HasFrom31(h: seq<Revision>)
    requires |h| == 35
  {
    h[30] == Rev0031() && h[31] == Rev0032() && h[32] == Rev0033() && h[33] == Rev0034() && h[34] == Rev0035()
  }

  /** h is the chain of all revisions. */
  ghost predicate IsChain(h: seq<Revision>) {
    |h| == 35 && HasFrom1(h) && HasFrom7(h) && HasFrom13(h) && HasFrom19(h) && HasFrom25(h) && HasFrom31(h)
  }

  // There is such a chain: put together from its end.

  lemma With31(h: seq<Revision>) returns (g: seq<Revision>)
    requires |h| == 35
    ensures |g| == 35 && HasFrom31(g)
  {
    g := h[..30] + [Rev0031(), Rev0032(), Rev0033(), Rev0034(), Rev0035()] + h[35..];
  }

  lemma With25(h: seq<Revision>) returns (g: seq<Revision>)
    requires |h| == 35 && HasFrom31(h)
    ensures |g| == 35 && HasFrom25(g) && HasFrom31(g)
  {
    g := h[..24] + [Rev0025(), Rev0026(), Rev0027(), Rev0028(), Rev0029(), Rev0030()] + h[30..];
  }

  lemma With19(h: seq<Revision>) returns (g: seq<Revision>)
    requires |h| == 35 && HasFrom31(h) && HasFrom25(h)
    ensures |g| == 35 && HasFrom19(g) && HasFrom31(g) && HasFrom25(g)
  {
    g := h[..18] + [Rev0019(), Rev0020(), Rev0021(), Rev0022(), Rev0023(), Rev0024()] + h[24..];
  }

  lemma With13(h: seq<Revision>) returns (g: seq<Revision>)
    requires |h| == 35 && HasFrom31(h) && HasFrom25(h) && HasFrom19(h)
    ensures |g| == 35 && HasFrom13(g) && HasFrom31(g) && HasFrom25(g) && HasFrom19(g)
  {
    g := h[..12] + [Rev0013(), Rev0014(), Rev0015(), Rev0016(), Rev0017(), Rev0018()] + h[18..];
  }

  lemma With7(h: seq<Revision>) returns (g: seq<Revision>)
    requires |h| == 35 && HasFrom31(h) && HasFrom25(h) && HasFrom19(h) && HasFrom13(h)
    ensures |g| == 35 && HasFrom7(g) && HasFrom31(g) && HasFrom25(g) && HasFrom19(g) && HasFrom13(g)
  {
    g := h[..6] + [Rev0007(), Rev0008(), Rev0009(), Rev0010(), Rev0011(), Rev0012()] + h[12..];
  }

  lemma With1(h: seq<Revision>) returns (g: seq<Revision>)
    requires |h| == 35 && HasFrom31(h) && HasFrom25(h) && HasFrom19(h) && HasFrom13(h) && HasFrom7(h)
    ensures |g| == 35 && HasFrom1(g) && HasFrom31(g) && HasFrom25(g) && HasFrom19(g) && HasFrom13(g) && HasFrom7(g)
  {
    g := h[..0] + [Rev0001(), Rev0002(), Rev0003(), Rev0004(), Rev0005(), Rev0006()] + h[6..];
  }

  lemma ChainExists()
    ensures exists h :: IsChain(h)
  {
    var h := seq(35, _ => Rev0001());
    h := With31(h);
    h := With25(h);
    h := With19(h);
    h := With13(h);
    h := With7(h);
    h := With1(h);
    assert IsChain(h);
  }

  /** Where each revision starts, and where the last one leads. */
  const STARTS: seq<Base> := [
    Base(0, [0], [], [], []),
    Base(3, [9], [], [(OtpCodes(), OtpCodesPurpose()), (Users(), UsersRole())], []),
    Base(3, [11], [], [], []),
    Base(4, [16], [], [], []),
    Base(5, [25], [], [], []),
    Base(9, [48], [], [], []),
    Base(14, [75], [], [], []),
    Base(18, [97], [], [], []),
    Base(22, [121], [], [], []),
    Base(26, [156], [], [], []),
    Base(29, [190], [], [], []),
    Base(32, [212], [], [], []),
    Base(35, [245], [], [], []),
    Base(38, [273], [], [], []),
    Base(38, [274], [], [], []),
    Base(40, [279], [], [], [Tenantrole()]),
    Base(41, [285], [], [], []),
    Base(41, [286], [], [], []),
    Base(46, [306], [], [], []),
    Base(47, [310], [], [], []),
    Base(49, [310], [AcademicDepartments(), AcademicPrograms()], [], []),
    Base(49, [312], [AcademicDepartments(), AcademicPrograms()], [], []),
    Base(50, [319], [AcademicDepartments(), AcademicPrograms()], [], []),
    Base(50, [319], [AcademicDepartments(), AcademicPrograms()], [], []),
    Base(52, [355], [AcademicDepartments(), AcademicPrograms()], [], []),
    Base(53, [380], [AcademicDepartments(), AcademicPrograms()], [], []),
    Base(53, [381], [AcademicDepartments(), AcademicPrograms()], [], []),
    Base(53, [383], [AcademicDepartments(), AcademicPrograms()], [], []),
    Base(54, [391], [AcademicDepartments(), AcademicPrograms()], [], []),
    Base(55, [397], [AcademicDepartments(), AcademicPrograms()], [], []),
    Base(56, [403], [AcademicDepartments(), AcademicPrograms()], [], []),
    Base(58, [425], [AcademicDepartments(), AcademicPrograms()], [], []),
    Base(60, [442], [AcademicDepartments(), AcademicPrograms()], [], []),
    Base(62, [461], [AcademicDepartments(), AcademicPrograms()], [], []),
    Base(66, [492], [AcademicDepartments(), AcademicPrograms()], [], []),
    Base(73, [546], [AcademicDepartments(), AcademicPrograms()], [], [])]

  /** The revisions whose downgrade undoes the upgrade on every schema. */
  predicate Reversible(r: nat) {
    r != 2 && r != 16 && r != 23 && r != 27
  }

  lemma LinkFrom1(h: seq<Revision>, i: nat)
    requires |h| == 35 && HasFrom1(h) && 0 <= i < 6
    ensures |STARTS| == 36 && Links(h[i], STARTS[i], STARTS[i + 1]) && h[i].reversible == Reversible(i + 1)
  {
    if i == 0 { Certified0001(); } else if i == 1 { Certified0002(); } else if i == 2 { Certified0003(); }
    else if i == 3 { Certified0004(); } else if i == 4 { Certified0005(); } else { Certified0006(); }
  }

  lemma LinkFrom7(h: seq<Revision>, i: nat)
    requires |h| == 35 && HasFrom7(h) && 6 <= i < 12
    ensures |STARTS| == 36 && Links(h[i], STARTS[i], STARTS[i + 1]) && h[i].reversible == Reversible(i + 1)
  {
    if i == 6 { Certified0007(); } else if i == 7 { Certified0008(); } else if i == 8 { Certified0009(); }
    else if i == 9 { Certified0010(); } else if i == 10 { Certified0011(); } else { Certified0012(); }
  }

  lemma LinkFrom13(h: seq<Revision>, i: nat)
    requires |h| == 35 && HasFrom13(h) && 12 <= i < 18
    ensures |STARTS| == 36 && Links(h[i], STARTS[i], STARTS[i + 1]) && h[i].reversible == Reversible(i + 1)
  {
    if i == 12 { Certified0013(); } else if i == 13 { Certified0014(); } else if i == 14 { Certified0015(); }
    else if i == 15 { Certified0016(); } else if i == 16 { Certified0017(); } else { Certified0018(); }
  }

  lemma LinkFrom19(h: seq<Revision>, i: nat)
    requires |h| == 35 && HasFrom19(h) && 18 <= i < 24
    ensures |STARTS| == 36 && Links(h[i], STARTS[i], STARTS[i + 1]) && h[i].reversible == Reversible(i + 1)
  {
    if i == 18 { Certified0019(); } else if i == 19 { Certified0020(); } else if i == 20 { Certified0021(); }
    else if i == 21 { Certified0022(); } else if i == 22 { Certified0023(); } else { Certified0024(); }
  }

  lemma LinkFrom25(h: seq<Revision>, i: nat)
    requires |h| == 35 && HasFrom25(h) && 24 <= i < 30
    ensures |STARTS| == 36 && Links(h[i], STARTS[i], STARTS[i + 1]) && h[i].reversible == Reversible(i + 1)
  {
    if i == 24 { Certified0025(); } else if i == 25 { Certified0026(); } else if i == 26 { Certified0027(); }
    else if i == 27 { Certified0028(); } else if i == 28 { Certified0029(); } else { Certified0030(); }
  }

  lemma LinkFrom31(h: seq<Revision>, i: nat)
    requires |h| == 35 && HasFrom31(h) && 30 <= i < 35
    ensures |STARTS| == 36 && Links(h[i], STARTS[i], STARTS[i + 1]) && h[i].reversible == Reversible(i + 1)
  {
    if i == 30 { Certified0031(); } else if i == 31 { Certified0032(); } else if i == 32 { Certified0033(); }
    else if i == 33 { Certified0034(); } else { Certified0035(); }
  }

  /** What the checks establish about the chain. */
  ghost predicate Checked(h: seq<Revision>) {
    && |h| == 35 && |STARTS| == 36 && Linked(h, STARTS)
    && (forall i | 0 <= i < 35 :: h[i].reversible == Reversible(i + 1))
    && h[0] == Rev0001() && h[1] == Rev0002() && h[15] == Rev0016() && h[22] == Rev0023() && h[26] == Rev0027()
  }

  lemma ChainChecked(h: seq<Revision>)
    requires IsChain(h)
    ensures Checked(h)
  {
    assert |STARTS| == 36;
    forall i: nat | i < 35
      ensures Links(h[i], STARTS[i], STARTS[i + 1]) && h[i].reversible == Reversible(i + 1)
    {
      if i < 6 {
        LinkFrom1(h, i);
      } else if i < 12 {
        LinkFrom7(h, i);
      } else if i < 18 {
        LinkFrom13(h, i);
      } else if i < 24 {
        LinkFrom19(h, i);
      } else if i < 30 {
        LinkFrom25(h, i);
      } else {
        LinkFrom31(h, i);
      }
    }
  }

  // ---------------------------------------------------------------------------------------------
  // One revision on any schema
  // ---------------------------------------------------------------------------------------------

  /** For every revision and every consistent schema on which the upgrade succeeds, the downgrade gives
      the schema back exactly when the revision is lossless on it. */
  lemma RoundTrip(h: seq<Revision>, r: nat, s: Schema)
    requires IsChain(h) && 1 <= r <= 35 && Consistent(s) && Run(h[r - 1].Upgrade(), s).Done?
    ensures ThereAndBack(h[r - 1], s) == Done(s) <==> Lossless(r, s)
  {
    ChainChecked(h);
    CheckedRoundTrip(h, r, s);
  }

  lemma CheckedRoundTrip(h: seq<Revision>, r: nat, s: Schema)
    requires Checked(h) && 1 <= r <= 35 && Consistent(s) && Run(h[r - 1].Upgrade(), s).Done?
    ensures ThereAndBack(h[r - 1], s) == Done(s) <==> Lossless(r, s)
  {
    if r == 2 {
      TwoIsLossless(s);
    } else if r == 16 {
      SixteenIsLossless(s);
    } else if r == 23 {
      TwentyThreeIsLossless(s);
    } else if r == 27 {
      TwentySevenIsLossless(s);
    } else {
      var i := r - 1;
      assert Links(h[i], STARTS[i], STARTS[i + 1]) && h[i].reversible;
      Restored(h[i], s);
    }
  }

  // ---------------------------------------------------------------------------------------------
  // From an empty schema to head
  // ---------------------------------------------------------------------------------------------

  lemma EmptyHolds()
    ensures |STARTS| == 36 && |STARTS[0].names| > 0 && Holds(STARTS[0], EMPTY) && Consistent(EMPTY)
  {
  }

  lemma FirstRevision(s: Schema)
    requires Run(Rev0001().Upgrade(), EMPTY) == Done(s)
    ensures Lossless(2, s)
  {
    var a, b, c := UP_0001[0], UP_0001[1], UP_0001[2];
    assert UP_0001 == [a] + [b] + [c];
    FlatConcat([a] + [b], [c]);
    FlatConcat([a], [b]);
    OneBlock(a);
    OneBlock(b);
    OneBlock(c);
    var ops := Rev0001().Upgrade();
    assert ops == [a[0], b[0], c[0]];
    NextBefore(ops, EMPTY, 0);
    NextBefore(ops, EMPTY, 1);
    NextBefore(ops, EMPTY, 2);
    assert ops[..3] == ops;
    assert ColumnMap(a[0].columns, 0)[UsersRole()] == Varchar;
    assert ColumnMap(c[0].columns, 0)[OtpCodesPurpose()] == Varchar;
  }

  /** The relied-on columns of revision 0002 are those of revision 0001. */
  lemma SecondStarts(s: Schema)
    requires |STARTS| == 36 && |STARTS[1].names| > 0 && Holds(Plain(STARTS[1]), s) && Lossless(2, s)
    ensures Holds(STARTS[1], s)
  {
    assert STARTS[1].columns == [(OtpCodes(), OtpCodesPurpose()), (Users(), UsersRole())];
    assert STARTS[1].enums == [];
  }

  lemma SixteenthStarts(s: Schema)
    requires |STARTS| == 36 && |STARTS[15].names| > 0 && Holds(Plain(STARTS[15]), s) && Tenantrole() in s.enums
    ensures Holds(STARTS[15], s)
  {
    assert STARTS[15].enums == [Tenantrole()] && STARTS[15].columns == [];
  }

  lemma OthersPlain(i: nat)
    requires |STARTS| == 36 && i < 36 && i != 1 && i != 15
    ensures STARTS[i] == Plain(STARTS[i])
  {
  }

  /** What holds between revision r and the next. */
  ghost predicate Stage(r: nat, s: Schema)
    requires r <= 35
  {
    && Consistent(s)
    && |STARTS| == 36 && |STARTS[r].names| > 0 && Holds(STARTS[r], s)
    && (r == 1 ==> Lossless(2, s))
    && (r >= 2 ==> Tenantrole() in s.enums)
  }

  lemma OneForward(h: seq<Revision>, r: nat, s: Schema)
    requires Checked(h) && 1 <= r <= 35 && Stage(r - 1, s)
    ensures Run(h[r - 1].Upgrade(), s).Done?
    ensures |STARTS[r].names| > 0 && Holds(Plain(STARTS[r]), Run(h[r - 1].Upgrade(), s).schema)
    ensures s.enums.Keys <= Run(h[r - 1].Upgrade(), s).schema.enums.Keys
  {
    var i := r - 1;
    assert Links(h[i], STARTS[i], STARTS[i + 1]);
  }

  lemma StageReached(r: nat, s: Schema)
    requires 1 <= r <= 35 && Consistent(s) && |STARTS| == 36 && |STARTS[r].names| > 0 && Holds(Plain(STARTS[r]), s)
    requires r == 1 ==> Lossless(2, s)
    requires r >= 2 ==> Tenantrole() in s.enums
    ensures Stage(r, s)
  {
    if r == 1 {
      SecondStarts(s);
    } else if r == 15 {
      SixteenthStarts(s);
    } else {
      OthersPlain(r);
    }
  }

  /** The upgrades up to revision r succeed on an empty schema. */
  lemma {:induction false} ReachesEvery(h: seq<Revision>, r: nat)
    requires Checked(h) && r <= 35
    ensures Through(h, 0, r, EMPTY).Done? && Stage(r, Through(h, 0, r, EMPTY).schema)
  {
    if r == 0 {
      EmptyHolds();
    } else {
      ReachesEvery(h, r - 1);
      var s := Through(h, 0, r - 1, EMPTY).schema;
      OneForward(h, r, s);
      RunKeepsConsistent(h[r - 1].Upgrade(), s);
      if r == 1 {
        FirstRevision(Run(h[0].Upgrade(), s).schema);
      } else if r == 2 {
        UpgradeTwo(s);
      }
      StageReached(r, Run(h[r - 1].Upgrade(), s).schema);
    }
  }

  // ---------------------------------------------------------------------------------------------
  // And back
  // ---------------------------------------------------------------------------------------------

  lemma NewNamesTwentySeven(s: Schema)
    requires Stage(26, s)
    ensures Lossless(27, s)
  {
    assert STARTS[26].names[0] <= UsersAcadProgramId() < IxUsersAcadProgramId();
  }

  /** On the way up from an empty schema, every downgrade but one takes the chain back one step. */
  lemma StepBack(h: seq<Revision>, q: nat)
    requires Checked(h) && 1 <= q <= 35 && q != 16
    ensures Through(h, 0, q, EMPTY).Done? && TakesBack(h, q, EMPTY)
  {
    ReachesEvery(h, q);
    ReachesEvery(h, q - 1);
    var s := Through(h, 0, q - 1, EMPTY).schema;
    if q == 27 { NewNamesTwentySeven(s); }
    CheckedRoundTrip(h, q, s);
  }

  lemma RolesAreOlder(i: nat)
    requires 2 <= i < 36
    ensures |STARTS| == 36 && |STARTS[i].names| > 0 && Tenantrole() < STARTS[i].names[0]
  {
  }

  /** Until revision 0016 the roles are the six of revision 0002. */
  lemma {:induction false} RolesUntilSixteen(h: seq<Revision>, r: nat)
    requires Checked(h) && 2 <= r < 16
    ensures Through(h, 0, r, EMPTY).Done? && Tenantrole() in Through(h, 0, r, EMPTY).schema.enums
    ensures Through(h, 0, r, EMPTY).schema.enums[Tenantrole()] == ROLES
  {
    ReachesEvery(h, r);
    ReachesEvery(h, r - 1);
    var s, up := Through(h, 0, r - 1, EMPTY).schema, h[r - 1].Upgrade();
    if r == 2 {
      UpgradeTwo(s);
    } else {
      RolesUntilSixteen(h, r - 1);
      UntouchedBy(h, r);
      ValuesKept(up, s, Tenantrole());
    }
  }

  lemma UntouchedBy(h: seq<Revision>, r: nat)
    requires Checked(h) && 2 < r < 16
    ensures forall o | o in h[r - 1].Upgrade() + h[r - 1].Downgrade() :: !Touches(o, Tenantrole())
  {
    var i := r - 1;
    assert Links(h[i], STARTS[i], STARTS[i + 1]) && h[i].reversible;
    RolesAreOlder(i);
  }

  /** The downgrade of 0016 leaves the value behind. */
  lemma SixteenBack(h: seq<Revision>)
    requires Checked(h)
    ensures Through(h, 0, 16, EMPTY).Done? && Through(h, 0, 15, EMPTY).Done?
    ensures Run(h[15].Downgrade(), Through(h, 0, 16, EMPTY).schema) ==
            Done(WithValues(Through(h, 0, 15, EMPTY).schema, Tenantrole(), ALL_ROLES))
  {
    ReachesEvery(h, 16);
    ReachesEvery(h, 15);
    RolesUntilSixteen(h, 15);
    MarkedSixteen(Through(h, 0, 15, EMPTY).schema);
  }

  lemma MarkedSixteen(s: Schema)
    requires Consistent(s) && Run(Rev0016().Upgrade(), s).Done?
    requires Tenantrole() in s.enums && s.enums[Tenantrole()] == ROLES
    ensures Run(Rev0016().Downgrade(), Run(Rev0016().Upgrade(), s).schema) ==
            Done(WithValues(s, Tenantrole(), ALL_ROLES))
  {
    SixteenLeavesTheValue(s);
    RolesGrow(s);
  }

  /** What is left at revision r of a way down from revision k: one enum value, between 0016 and 0002. */
  function Residue(k: nat, r: nat, s: Schema): Schema {
    if 2 <= r < 16 <= k then WithValues(s, Tenantrole(), ALL_ROLES) else s
  }

  lemma BackAbove(h: seq<Revision>, k: nat, r: nat)
    requires Checked(h) && r <= k <= 35 && (k < 16 || 16 <= r)
    ensures Through(h, 0, k, EMPTY).Done?
    ensures Back(h, k, r, Through(h, 0, k, EMPTY).schema) == Through(h, 0, r, EMPTY)
  {
    ReachesEvery(h, k);
    forall q | r < q <= k
      ensures Through(h, 0, q, EMPTY).Done? && TakesBack(h, q, EMPTY)
    {
      StepBack(h, q);
    }
    BackThroughChain(h, k, r, EMPTY);
  }

  /** From 0016 down to 0002 the value stays. */
  lemma BackFromSixteen(h: seq<Revision>, r: nat)
    requires Checked(h) && 2 <= r < 16
    ensures Through(h, 0, 16, EMPTY).Done? && Through(h, 0, r, EMPTY).Done?
    ensures Back(h, 16, r, Through(h, 0, 16, EMPTY).schema) ==
            Done(WithValues(Through(h, 0, r, EMPTY).schema, Tenantrole(), ALL_ROLES))
  {
    SixteenBack(h);
    ReachesEvery(h, r);
    RolesUntilSixteen(h, 15);
    BackAbove(h, 15, r);
    forall i, o | r <= i < 15 && o in h[i].Downgrade()
      ensures !Touches(o, Tenantrole())
    {
      UntouchedBy(h, i + 1);
    }
    BackIgnoresValues(h, 15, r, Through(h, 0, 15, EMPTY).schema, Tenantrole(), ALL_ROLES);
  }

  /** The downgrade of 0002 drops the type, and the value with it. */
  lemma BackBelowTwo(h: seq<Revision>, r: nat)
    requires Checked(h) && r < 2
    ensures Through(h, 0, 16, EMPTY).Done?
    ensures Back(h, 16, r, Through(h, 0, 16, EMPTY).schema) == Through(h, 0, r, EMPTY)
  {
    ReachesEvery(h, 1);
    BackFromSixteen(h, 2);
    var s1, s2 := Through(h, 0, 1, EMPTY).schema, Through(h, 0, 2, EMPTY).schema;
    assert Run(Rev0002().Upgrade(), s1) == Done(s2);
    DowngradeTwo(s1, ALL_ROLES);
    UpgradeTwo(s1);
    BothVarcharAlready(s1);
    var marked := WithValues(s2, Tenantrole(), ALL_ROLES);
    assert Run(h[1].Downgrade(), marked) == Done(s1);
    BackFrom(h, 16, 2, r, Through(h, 0, 16, EMPTY).schema);
    assert Back(h, 2, r, marked) == Back(h, 1, r, s1);
    BackAbove(h, 1, r);
  }

  lemma CheckedWayBack(h: seq<Revision>, k: nat, r: nat)
    requires Checked(h) && r <= k <= 35
    ensures Through(h, 0, k, EMPTY).Done? && Through(h, 0, r, EMPTY).Done?
    ensures Back(h, k, r, Through(h, 0, k, EMPTY).schema) == Done(Residue(k, r, Through(h, 0, r, EMPTY).schema))
  {
    ReachesEvery(h, k);
    ReachesEvery(h, r);
    if k < 16 || 16 <= r {
      BackAbove(h, k, r);
    } else {
      BackAbove(h, k, 16);
      BackFrom(h, k, 16, r, Through(h, 0, k, EMPTY).schema);
      if 2 <= r {
        BackFromSixteen(h, r);
      } else {
        BackBelowTwo(h, r);
      }
    }
  }

  // ---------------------------------------------------------------------------------------------
  // The whole journey
  // ---------------------------------------------------------------------------------------------

  /** Upgrading an empty schema to any revision k succeeds, and downgrading from there to any revision r
      succeeds and gives the schema of revision r, plus the one enum value no downgrade can remove. */
  lemma WayBack(h: seq<Revision>, k: nat, r: nat)
    requires IsChain(h) && r <= k <= 35
    ensures Through(h, 0, k, EMPTY).Done? && Through(h, 0, r, EMPTY).Done?
    ensures Back(h, k, r, Through(h, 0, k, EMPTY).schema) == Done(Residue(k, r, Through(h, 0, r, EMPTY).schema))
  {
    ChainChecked(h);
    CheckedWayBack(h, k, r);
  }

  lemma CheckedNeverDangles(h: seq<Revision>, k: nat, r: nat)
    requires Checked(h) && 0 < r <= k <= 35
    ensures Through(h, 0, r - 1, EMPTY).Done? && Through(h, 0, k, EMPTY).Done?
    ensures NeverDangles(h[r - 1].Upgrade(), Through(h, 0, r - 1, EMPTY).schema)
    ensures Back(h, k, r, Through(h, 0, k, EMPTY).schema).Done?
    ensures NeverDangles(h[r - 1].Downgrade(), Back(h, k, r, Through(h, 0, k, EMPTY).schema).schema)
  {
    ReachesEvery(h, r - 1);
    ReachesEvery(h, r);
    EveryStepConsistent(h[r - 1].Upgrade(), Through(h, 0, r - 1, EMPTY).schema);
    CheckedWayBack(h, k, r);
    CheckedWayBack(h, k, r - 1);
    var top, s := Through(h, 0, k, EMPTY).schema, Through(h, 0, r, EMPTY).schema;
    if 2 <= r < 16 <= k {
      WithValuesConsistent(s, Tenantrole(), ALL_ROLES);
    }
    BackFrom(h, k, r, r - 1, top);
    EveryStepConsistent(h[r - 1].Downgrade(), Residue(k, r, s));
  }

  /** At every operation of the way up and of every way down, every foreign key points to a table that
      is there. */
  lemma JourneyNeverDangles(h: seq<Revision>, k: nat, r: nat)
    requires IsChain(h) && 0 < r <= k <= 35
    ensures Through(h, 0, r - 1, EMPTY).Done? && Through(h, 0, k, EMPTY).Done?
    ensures NeverDangles(h[r - 1].Upgrade(), Through(h, 0, r - 1, EMPTY).schema)
    ensures Back(h, k, r, Through(h, 0, k, EMPTY).schema).Done?
    ensures NeverDangles(h[r - 1].Downgrade(), Back(h, k, r, Through(h, 0, k, EMPTY).schema).schema)
  {
    ChainChecked(h);
    CheckedNeverDangles(h, k, r);
  }
}
