/** The public revisions as a chain, from an empty schema to head and back. */
module PublicHistory {
  import opened SchemaModel
  import opened Undo
  import opened Forward
  import opened History
  import opened PublicNames
  import opened PublicRevisions
  import opened PublicChecks

  ghost predicate HasFrom1(h: seq<Revision>)
    requires |h| == 11
  {
    h[0] == Rev0001() && h[1] == Rev0002() && h[2] == Rev0003() && h[3] == Rev0004()
  }

  ghost predicate HasFrom5(h: seq<Revision>)
    requires |h| == 11
  {
    h[4] == Rev0005() && h[5] == Rev0006() && h[6] == Rev0007() && h[7] == Rev0008()
  }

  ghost predicate HasFrom9(h: seq<Revision>)
    requires |h| == 11
  {
    h[8] == Rev0009() && h[9] == Rev0010() && h[10] == Rev0011()
  }

  /** h is the chain of all revisions. */
  ghost predicate IsChain(h: seq<Revision>) {
    |h| == 11 && HasFrom1(h) && HasFrom5(h) && HasFrom9(h)
  }

  lemma ChainExists()
    ensures exists h :: IsChain(h)
  {
    var h := [
      Rev0001(), Rev0002(), Rev0003(), Rev0004(), Rev0005(), Rev0006(),
      Rev0007(), Rev0008(), Rev0009(), Rev0010(), Rev0011()];
    assert IsChain(h);
  }

  /** Where each revision starts, and where the last one leads. */
  const STARTS: seq<Base> := [
    Base(0, [0], [], [], []),
    Base(5, [11], [], [], []),
    Base(5, [12], [], [], []),
    Base(6, [20], [], [], []),
    Base(7, [27], [], [], []),
    Base(7, [31], [], [], []),
    Base(7, [32], [], [], []),
    Base(7, [35], [], [], []),
    Base(7, [35], [], [], []),
    Base(7, [35], [], [], []),
    Base(8, [36], [], [], []),
    Base(8, [38], [], [], [])]

  /** The revisions whose downgrade undoes the upgrade on every schema. */
  predicate Reversible(r: nat) {
    r != 5
  }

  lemma LinkFrom1(h: seq<Revision>, i: nat)
    requires |h| == 11 && HasFrom1(h) && 0 <= i < 4
    ensures |STARTS| == 12 && Links(h[i], STARTS[i], STARTS[i + 1]) && h[i].reversible == Reversible(i + 1)
  {
    if i == 0 { Certified0001(); } else if i == 1 { Certified0002(); } else if i == 2 { Certified0003(); }
    else { Certified0004(); }
  }

  lemma LinkFrom5(h: seq<Revision>, i: nat)
    requires |h| == 11 && HasFrom5(h) && 4 <= i < 8
    ensures |STARTS| == 12 && Links(h[i], STARTS[i], STARTS[i + 1]) && h[i].reversible == Reversible(i + 1)
  {
    if i == 4 { Certified0005(); } else if i == 5 { Certified0006(); } else if i == 6 { Certified0007(); }
    else { Certified0008(); }
  }

  lemma LinkFrom9(h: seq<Revision>, i: nat)
    requires |h| == 11 && HasFrom9(h) && 8 <= i < 11
    ensures |STARTS| == 12 && Links(h[i], STARTS[i], STARTS[i + 1]) && h[i].reversible == Reversible(i + 1)
  {
    if i == 8 { Certified0009(); } else if i == 9 { Certified0010(); } else { Certified0011(); }
  }

  /** What the checks establish about the chain. */
  ghost predicate Checked(h: seq<Revision>) {
    && |h| == 11 && |STARTS| == 12 && Linked(h, STARTS)
    && (forall i | 0 <= i < 11 :: h[i].reversible == Reversible(i + 1))
    && h[4] == Rev0005()
  }

  lemma ChainChecked(h: seq<Revision>)
    requires IsChain(h)
    ensures Checked(h)
  {
    assert |STARTS| == 12;
    forall i: nat | i < 11
      ensures Links(h[i], STARTS[i], STARTS[i + 1]) && h[i].reversible == Reversible(i + 1)
    {
      if i < 4 {
        LinkFrom1(h, i);
      } else if i < 8 {
        LinkFrom5(h, i);
      } else {
        LinkFrom9(h, i);
      }
    }
  }

  // ---------------------------------------------------------------------------------------------
  // 0005: a trigger function is created or replaced
  // ---------------------------------------------------------------------------------------------

  /** Revision 0005 is undone exactly where its trigger function was not there before. */
  predicate Lossless(r: nat, s: Schema) {
    r == 5 ==> AuditLogsNoMutate() !in s.functions
  }

  lemma UpgradeFive(s: Schema)
    requires Run(Rev0005().Upgrade(), s).Done?
    ensures Run(Rev0005().Upgrade(), s) ==
            Run(UP_0005[0][1..], s.(functions := s.functions + {AuditLogsNoMutate()}))
  {
    OneBlock(UP_0005[0]);
    assert UP_0005 == [UP_0005[0]];
    NextBefore(UP_0005[0], s, 0);
  }

  lemma DowngradeFive(s: Schema)
    ensures Run(Rev0005().Downgrade(), s) ==
            match Run(DOWN_0005[0][..3], s)
            case Done(s') => Apply(DropFunction(AuditLogsNoMutate()), s')
            case Failed(reason) => Failed(reason)
  {
    var down := DOWN_0005[0];
    OneBlock(down);
    assert DOWN_0005 == [down];
    assert down == down[..3] + [down[3]];
    RunConcat(down[..3], [down[3]], s);
  }

  /** The triggers go, and then the function, whoever created it. */
  lemma FiveThereAndBack(s: Schema)
    requires Consistent(s) && Run(Rev0005().Upgrade(), s).Done?
    ensures ThereAndBack(Rev0005(), s) ==
            Apply(DropFunction(AuditLogsNoMutate()), s.(functions := s.functions + {AuditLogsNoMutate()}))
  {
    var s1 := s.(functions := s.functions + {AuditLogsNoMutate()});
    ApplyKeepsConsistent(ReplaceFunction(AuditLogsNoMutate()), s);
    UpgradeFive(s);
    TriggersUndone();
    UndoSound(UP_0005[0][1..], DOWN_0005[0][..3], s1);
    DowngradeFive(Run(UP_0005[0][1..], s1).schema);
  }

  lemma TriggersUndone()
    ensures |UP_0005[0]| == |DOWN_0005[0]| == 4 && Undoes(UP_0005[0][1..], DOWN_0005[0][..3])
  {
    var up, down := UP_0005[0][1..], DOWN_0005[0][..3];
    assert up == [UP_0005[0][1], UP_0005[0][2], UP_0005[0][3]];
    assert down == [DOWN_0005[0][0], DOWN_0005[0][1], DOWN_0005[0][2]];
    assert UndoesFrom(up, 0, down, 3, 0, 3);
    assert UndoesFrom(up, 1, down, 2, 0, 3);
    assert UndoesFrom(up, 2, down, 1, 0, 3);
    assert UndoesFrom(up, 3, down, 0, 0, 3);
  }

  lemma FunctionDropped(s: Schema)
    requires Consistent(s)
    ensures Apply(DropFunction(AuditLogsNoMutate()),
        s.(functions := s.functions + {AuditLogsNoMutate()})) == Done(s)
            <==> Lossless(5, s)
  {
    var f := AuditLogsNoMutate();
    var s1 := s.(functions := s.functions + {f});
    if f !in s.functions {
      forall t, n | t in s.tables && n in s.tables[t].triggers
        ensures s.tables[t].triggers[n] != f
      {
        assert Sound(s.tables[t], s.tables.Keys, s.enums.Keys, s.functions);
      }
      assert !FunctionInUse(s1, f);
      assert s1.functions - {f} == s.functions;
    }
  }

  lemma FiveIsLossless(s: Schema)
    requires Consistent(s) && Run(Rev0005().Upgrade(), s).Done?
    ensures ThereAndBack(Rev0005(), s) == Done(s) <==> Lossless(5, s)
  {
    FiveThereAndBack(s);
    FunctionDropped(s);
  }

  // ---------------------------------------------------------------------------------------------
  // One revision on any schema
  // ---------------------------------------------------------------------------------------------

  lemma CheckedRoundTrip(h: seq<Revision>, r: nat, s: Schema)
    requires Checked(h) && 1 <= r <= 11 && Consistent(s) && Run(h[r - 1].Upgrade(), s).Done?
    ensures ThereAndBack(h[r - 1], s) == Done(s) <==> Lossless(r, s)
  {
    if r == 5 {
      FiveIsLossless(s);
    } else {
      var i := r - 1;
      assert Links(h[i], STARTS[i], STARTS[i + 1]) && h[i].reversible;
      Restored(h[i], s);
    }
  }

  /** For every revision and every consistent schema on which the upgrade succeeds, the downgrade gives
      the schema back exactly when the revision is lossless on it. */
  lemma RoundTrip(h: seq<Revision>, r: nat, s: Schema)
    requires IsChain(h) && 1 <= r <= 11 && Consistent(s) && Run(h[r - 1].Upgrade(), s).Done?
    ensures ThereAndBack(h[r - 1], s) == Done(s) <==> Lossless(r, s)
  {
    ChainChecked(h);
    CheckedRoundTrip(h, r, s);
  }

  // ---------------------------------------------------------------------------------------------
  // The whole journey
  // ---------------------------------------------------------------------------------------------

  lemma EmptyHolds()
    ensures |STARTS| == 12 && |STARTS[0].names| > 0 && Holds(STARTS[0], EMPTY) && Consistent(EMPTY)
  {
  }

  lemma AllPlain(i: nat)
    requires |STARTS| == 12 && i < 12
    ensures STARTS[i] == Plain(STARTS[i])
  {
  }

  /** The upgrades up to revision r succeed on an empty schema. */
  lemma ReachesEvery(h: seq<Revision>, r: nat)
    requires Checked(h) && r <= 11
    ensures Through(h, 0, r, EMPTY).Done? && Consistent(Through(h, 0, r, EMPTY).schema)
    ensures |STARTS[r].names| > 0 && Holds(STARTS[r], Through(h, 0, r, EMPTY).schema)
  {
    EmptyHolds();
    forall i | 0 <= i < 12
      ensures STARTS[i] == Plain(STARTS[i])
    {
      AllPlain(i);
    }
    if r > 0 {
      ThroughSound(h, STARTS, 0, r, EMPTY);
      ThroughKeepsConsistent(h, 0, r, EMPTY);
    }
  }

  lemma NewFunction(s: Schema)
    requires |STARTS| == 12 && |STARTS[4].names| > 0 && Holds(STARTS[4], s)
    ensures Lossless(5, s)
  {
  }

  lemma StepBack(h: seq<Revision>, q: nat)
    requires Checked(h) && 1 <= q <= 11
    ensures Through(h, 0, q, EMPTY).Done? && TakesBack(h, q, EMPTY)
  {
    ReachesEvery(h, q);
    ReachesEvery(h, q - 1);
    var s := Through(h, 0, q - 1, EMPTY).schema;
    if q == 5 { NewFunction(s); }
    CheckedRoundTrip(h, q, s);
  }

  lemma CheckedWayBack(h: seq<Revision>, k: nat, r: nat)
    requires Checked(h) && r <= k <= 11
    ensures Through(h, 0, k, EMPTY).Done?
    ensures Back(h, k, r, Through(h, 0, k, EMPTY).schema) == Through(h, 0, r, EMPTY)
  {
    ReachesEvery(h, k);
    forall q | r < q <= k
      ensures Through(h, 0, q, EMPTY).Done? && TakesBack(h, q, EMPTY)
    {
      StepBack(h, q);
    }
    BackThroughChain(h, k, r, EMPTY);
  }

  /** Upgrading an empty schema to any revision k succeeds, and downgrading from there to any revision r
      succeeds and gives exactly the schema of revision r. */
  lemma WayBack(h: seq<Revision>, k: nat, r: nat)
    requires IsChain(h) && r <= k <= 11
    ensures Through(h, 0, k, EMPTY).Done? && Through(h, 0, r, EMPTY).Done?
    ensures Back(h, k, r, Through(h, 0, k, EMPTY).schema) == Through(h, 0, r, EMPTY)
  {
    ChainChecked(h);
    ReachesEvery(h, r);
    CheckedWayBack(h, k, r);
  }

  /** At every operation of the way up and of every way down, every foreign key points to a table that
      is there. */
  lemma JourneyNeverDangles(h: seq<Revision>, k: nat, r: nat)
    requires IsChain(h) && 0 < r <= k <= 11
    ensures Through(h, 0, r - 1, EMPTY).Done? && Through(h, 0, k, EMPTY).Done?
    ensures NeverDangles(h[r - 1].Upgrade(), Through(h, 0, r - 1, EMPTY).schema)
    ensures Back(h, k, r, Through(h, 0, k, EMPTY).schema).Done?
    ensures NeverDangles(h[r - 1].Downgrade(), Back(h, k, r, Through(h, 0, k, EMPTY).schema).schema)
  {
    ChainChecked(h);
    CheckedNeverDangles(h, k, r);
  }

  lemma CheckedNeverDangles(h: seq<Revision>, k: nat, r: nat)
    requires Checked(h) && 0 < r <= k <= 11
    ensures Through(h, 0, r - 1, EMPTY).Done? && Through(h, 0, k, EMPTY).Done?
    ensures NeverDangles(h[r - 1].Upgrade(), Through(h, 0, r - 1, EMPTY).schema)
    ensures Back(h, k, r, Through(h, 0, k, EMPTY).schema).Done?
    ensures NeverDangles(h[r - 1].Downgrade(), Back(h, k, r, Through(h, 0, k, EMPTY).schema).schema)
  {
    ReachesEvery(h, r - 1);
    ReachesEvery(h, r);
    EveryStepConsistent(h[r - 1].Upgrade(), Through(h, 0, r - 1, EMPTY).schema);
    CheckedWayBack(h, k, r);
    CheckedWayBack(h, k, r - 1);
    BackFrom(h, k, r, r - 1, Through(h, 0, k, EMPTY).schema);
    EveryStepConsistent(h[r - 1].Downgrade(), Through(h, 0, r, EMPTY).schema);
  }
}
