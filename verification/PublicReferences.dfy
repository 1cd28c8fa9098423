/** What the public revisions declare about audit_logs and task_jobs, up to head. */
module PublicReferences {
  import opened SchemaModel
  import opened Undo
  import opened History
  import opened Catalog
  import opened PublicNames
  import opened PublicRevisions
  import opened PublicChecks
  import opened PublicHistory

  /** Deleting a tenant sets the reference of an audit row to null; revision 0005 lets it fail. */
  function AuditReference(): Fact {
    ReferenceFact(AuditLogs(), AuditLogsTenantId(), Tenants(), SetNull)
  }

  function JobReference(): Fact {
    ReferenceFact(TaskJobs(), TaskJobsTenantId(), Tenants(), SetNull)
  }

  function BlocksUpdate(): Fact {
    TriggerFact(AuditLogs(), AuditLogsBlockUpdate(), AuditLogsNoMutate())
  }

  function BlocksDelete(): Fact {
    TriggerFact(AuditLogs(), AuditLogsBlockDelete(), AuditLogsNoMutate())
  }

  function BlocksTruncate(): Fact {
    TriggerFact(AuditLogs(), AuditLogsBlockTruncate(), AuditLogsNoMutate())
  }

  lemma AfterThree(s: Schema)
    requires Consistent(s) && Run(Rev0003().Upgrade(), s).Done?
    ensures Has(Run(Rev0003().Upgrade(), s).schema, AuditReference())
  {
    var ops := UP_0003[0];
    OneBlock(ops);
    assert UP_0003 == [ops];
    assert FK(AuditLogsTenantId(), Tenants(), SetNull) in ops[0].references;
    assert Spared(ops[1..], AuditReference());
    BroughtStays(ops, 0, s, AuditReference());
  }

  lemma AfterFour(s: Schema)
    requires Consistent(s) && Run(Rev0004().Upgrade(), s).Done?
    ensures Has(Run(Rev0004().Upgrade(), s).schema, JobReference())
  {
    var ops := UP_0004[0];
    OneBlock(ops);
    assert UP_0004 == [ops];
    assert FK(TaskJobsTenantId(), Tenants(), SetNull) in ops[0].references;
    assert Spared(ops[1..], JobReference());
    BroughtStays(ops, 0, s, JobReference());
  }

  lemma AfterFive(s: Schema)
    requires Consistent(s) && Run(Rev0005().Upgrade(), s).Done?
    ensures var s1 := Run(Rev0005().Upgrade(), s).schema;
            Has(s1, BlocksUpdate()) && Has(s1, BlocksDelete()) && Has(s1, BlocksTruncate())
  {
    var ops := UP_0005[0];
    OneBlock(ops);
    assert UP_0005 == [ops];
    BroughtStays(ops, 1, s, BlocksUpdate());
    BroughtStays(ops, 2, s, BlocksDelete());
    BroughtStays(ops, 3, s, BlocksTruncate());
  }

  // ---------------------------------------------------------------------------------------------
  // Up to head
  // ---------------------------------------------------------------------------------------------

  predicate IsOurs(f: Fact) {
    || f == AuditReference() || f == JobReference()
    || f == BlocksUpdate() || f == BlocksDelete() || f == BlocksTruncate()
  }

  lemma FourAndFiveSpare()
    ensures Spared(Flat(UP_0004), AuditReference())
    ensures Spared(Flat(UP_0005), AuditReference()) && Spared(Flat(UP_0005), JobReference())
  {
    SparedByBlocks(UP_0004, AuditReference());
    SparedByBlocks(UP_0005, AuditReference());
    SparedByBlocks(UP_0005, JobReference());
  }

  lemma SixToNineSpare(f: Fact)
    requires IsOurs(f)
    ensures Spared(Flat(UP_0006), f) && Spared(Flat(UP_0007), f) && Spared(Flat(UP_0008), f) && Spared(Flat(UP_0009), f)
  {
    SparedByBlocks(UP_0006, f);
    SparedByBlocks(UP_0007, f);
    SparedByBlocks(UP_0008, f);
    SparedByBlocks(UP_0009, f);
  }

  lemma TenAndElevenSpare(f: Fact)
    requires IsOurs(f)
    ensures Spared(Flat(UP_0010), f) && Spared(Flat(UP_0011), f)
  {
    SparedByBlocks(UP_0010, f);
    SparedByBlocks(UP_0011, f);
  }

  /** What revision r + 1 of the chain is. */
  ghost predicate IsLater(h: seq<Revision>, r: nat)
    requires 5 <= r < |h| == 11
  {
    h[r] == if r == 5 then Rev0006() else if r == 6 then Rev0007() else if r == 7 then Rev0008()
            else if r == 8 then Rev0009() else if r == 9 then Rev0010() else Rev0011()
  }

  lemma LaterKeeps(h: seq<Revision>, r: nat, s: Schema, f: Fact)
    requires 5 <= r < |h| == 11 && IsLater(h, r) && IsOurs(f)
    requires Consistent(s) && Has(s, f) && Run(h[r].Upgrade(), s).Done?
    ensures Has(Run(h[r].Upgrade(), s).schema, f)
  {
    SixToNineSpare(f);
    TenAndElevenSpare(f);
    SparedStays(h[r].Upgrade(), s, f);
  }

  lemma ChainIs(h: seq<Revision>)
    requires IsChain(h)
    ensures Checked(h) && h[2] == Rev0003() && h[3] == Rev0004() && h[4] == Rev0005()
    ensures forall r: nat | 5 <= r < 11 :: IsLater(h, r)
  {
    ChainChecked(h);
    assert HasFrom1(h) && HasFrom5(h) && HasFrom9(h);
  }

  lemma FromTwoToFive(s2: Schema)
    requires Consistent(s2) && Run(Rev0003().Upgrade(), s2).Done?
    requires Run(Rev0004().Upgrade(), Run(Rev0003().Upgrade(), s2).schema).Done?
    requires var s4 := Run(Rev0004().Upgrade(), Run(Rev0003().Upgrade(), s2).schema).schema;
             Run(Rev0005().Upgrade(), s4).Done?
    ensures var s4 := Run(Rev0004().Upgrade(), Run(Rev0003().Upgrade(), s2).schema).schema;
            forall f | IsOurs(f) :: Has(Run(Rev0005().Upgrade(), s4).schema, f)
  {
    var s3 := Run(Rev0003().Upgrade(), s2).schema;
    var s4 := Run(Rev0004().Upgrade(), s3).schema;
    RunKeepsConsistent(Rev0003().Upgrade(), s2);
    RunKeepsConsistent(Rev0004().Upgrade(), s3);
    AfterThree(s2);
    AfterFour(s3);
    AfterFive(s4);
    FourAndFiveSpare();
    SparedStays(Rev0004().Upgrade(), s3, AuditReference());
    SparedStays(Rev0005().Upgrade(), s4, AuditReference());
    SparedStays(Rev0005().Upgrade(), s4, JobReference());
  }

  lemma CheckedFive(h: seq<Revision>)
    requires Checked(h) && h[2] == Rev0003() && h[3] == Rev0004() && h[4] == Rev0005()
    ensures Through(h, 0, 5, EMPTY).Done?
    ensures forall f | IsOurs(f) :: Has(Through(h, 0, 5, EMPTY).schema, f)
  {
    ReachesEvery(h, 2);
    ReachesEvery(h, 3);
    ReachesEvery(h, 4);
    ReachesEvery(h, 5);
    FromTwoToFive(Through(h, 0, 2, EMPTY).schema);
  }

  lemma {:induction false} CheckedFrom(h: seq<Revision>, r: nat, f: Fact)
    requires Checked(h) && h[2] == Rev0003() && h[3] == Rev0004() && h[4] == Rev0005()
    requires 5 <= r <= 11 && IsOurs(f) && forall q: nat | 5 <= q < 11 :: IsLater(h, q)
    ensures Through(h, 0, r, EMPTY).Done? && Has(Through(h, 0, r, EMPTY).schema, f)
  {
    ReachesEvery(h, r);
    if r == 5 {
      CheckedFive(h);
    } else {
      CheckedFrom(h, r - 1, f);
      ReachesEvery(h, r - 1);
      LaterKeeps(h, r - 1, Through(h, 0, r - 1, EMPTY).schema, f);
    }
  }

  /** From revision 0005 to head: audit_logs and task_jobs refer to tenants with ON DELETE SET NULL, and the
      three triggers stand on audit_logs. */
  lemma ReferencesSetNull(h: seq<Revision>, r: nat, f: Fact)
    requires IsChain(h) && 5 <= r <= 11 && IsOurs(f)
    ensures Through(h, 0, r, EMPTY).Done? && Has(Through(h, 0, r, EMPTY).schema, f)
  {
    ChainIs(h);
    CheckedFrom(h, r, f);
  }
}
