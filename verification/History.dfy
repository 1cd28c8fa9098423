/**
 A chain of revisions: what holds at every operation of a run that goes up or down, and what an
 enum value that no downgrade can remove does to the rest of the way down.
 */
module History {
  import opened SchemaModel
  import opened Undo
  import opened Forward

  /** Every operation of a run that succeeds, started in a consistent schema, succeeds and leaves a
      consistent schema: no foreign key ever points to a table that is not there. */
  ghost predicate NeverDangles(ops: seq<Op>, s: Schema) {
    forall i | 0 <= i <= |ops| :: Run(ops[..i], s).Done? && Consistent(Run(ops[..i], s).schema)
  }

  lemma EveryStepConsistent(ops: seq<Op>, s: Schema)
    requires Consistent(s) && Run(ops, s).Done?
    ensures NeverDangles(ops, s)
  {
    forall i | 0 <= i <= |ops|
      ensures Run(ops[..i], s).Done? && Consistent(Run(ops[..i], s).schema)
    {
      var before := Before(ops, s, i);
      RunKeepsConsistent(ops[..i], s);
    }
  }

  // ---------------------------------------------------------------------------------------------
  // Enum values
  // ---------------------------------------------------------------------------------------------

  /** `s` with other values for the enum e. */
  function WithValues(s: Schema, e: Name, values: seq<string>): Schema {
    s.(enums := s.enums[e := values])
  }

  /** The operation reads or writes the values of the enum e. */
  predicate Touches(o: Op, e: Name) {
    (o.CreateEnum? || o.AddEnumValue? || o.DropEnum?) && o.n == e
  }

  /** An operation that does not touch an enum does the same whatever the enum's values are. */
  lemma ValuesIgnored(o: Op, s: Schema, e: Name, values: seq<string>)
    requires e in s.enums && !Touches(o, e)
    ensures Apply(o, WithValues(s, e, values)) ==
            match Apply(o, s) case Done(s') => Done(WithValues(s', e, values)) case Failed(r) => Failed(r)
    ensures Apply(o, s).Done? ==> e in Apply(o, s).schema.enums
  {
    var s1 := WithValues(s, e, values);
    assert s1.tables == s.tables && s1.enums.Keys == s.enums.Keys && s1.functions == s.functions;
    if o.CreateEnum? || o.AddEnumValue? || o.DropEnum? {
      assert o.CreateEnum? ==> s1.enums[o.n := o.values] == s.enums[o.n := o.values][e := values];
      assert o.AddEnumValue? && o.n in s.enums ==>
        s1.enums[o.n := s.enums[o.n] + [o.value]] == s.enums[o.n := s.enums[o.n] + [o.value]][e := values];
      assert o.DropEnum? ==> s1.enums - {o.n} == (s.enums - {o.n})[e := values];
      assert EnumInUse(s1, o.n) == EnumInUse(s, o.n);
    } else {
      SameOutcome(o, s, s1);
    }
  }

  /** Outside the enum operations only the tables, the functions and the names of the enums matter. */
  lemma SameOutcome(o: Op, s: Schema, s1: Schema)
    requires s1.tables == s.tables && s1.enums.Keys == s.enums.Keys && s1.functions == s.functions
    requires !o.CreateEnum? && !o.AddEnumValue? && !o.DropEnum?
    ensures match Apply(o, s)
            case Done(s') => s'.enums == s.enums && Apply(o, s1) == Done(s'.(enums := s1.enums))
            case Failed(r) => Apply(o, s1) == Failed(r)
  {
    assert forall t :: ReferencedElsewhere(s1, t) == ReferencedElsewhere(s, t);
    assert forall f :: FunctionInUse(s1, f) == FunctionInUse(s, f);
  }

  lemma {:induction false} ValuesIgnoredThroughout(ops: seq<Op>, s: Schema, e: Name, values: seq<string>)
    requires e in s.enums && (forall i | 0 <= i < |ops| :: !Touches(ops[i], e))
    ensures Run(ops, WithValues(s, e, values)) ==
            match Run(ops, s) case Done(s') => Done(WithValues(s', e, values)) case Failed(r) => Failed(r)
    ensures Run(ops, s).Done? ==> e in Run(ops, s).schema.enums
  {
    if ops != [] {
      ValuesIgnored(ops[0], s, e, values);
      if Apply(ops[0], s).Done? {
        ValuesIgnoredThroughout(ops[1..], Apply(ops[0], s).schema, e, values);
      }
    }
  }

  lemma {:induction false} ValuesKept(ops: seq<Op>, s: Schema, e: Name)
    requires e in s.enums && (forall i | 0 <= i < |ops| :: !Touches(ops[i], e)) && Run(ops, s).Done?
    ensures e in Run(ops, s).schema.enums && Run(ops, s).schema.enums[e] == s.enums[e]
  {
    if ops != [] {
      ValuesKept(ops[1..], Apply(ops[0], s).schema, e);
    }
  }

  lemma WithValuesConsistent(s: Schema, e: Name, values: seq<string>)
    requires Consistent(s) && e in s.enums
    ensures Consistent(WithValues(s, e, values))
  {
    var s1 := WithValues(s, e, values);
    assert s1.enums.Keys == s.enums.Keys;
    forall t | t in s1.tables
      ensures Sound(s1.tables[t], s1.tables.Keys, s1.enums.Keys, s1.functions)
    {
      assert Sound(s.tables[t], s.tables.Keys, s.enums.Keys, s.functions);
    }
  }

  lemma {:induction false} NamesGrow(ops: seq<Op>, n: nat, base: Base)
    requires n <= |ops| && Fits(ops, base) && Certified(ops, n, base)
    ensures base.names[0] <= base.names[n]
  {
    if n > 0 {
      NamesGrow(ops, n - 1, base);
      assert CertifiedAt(ops, n - 1, base);
    }
  }

  /** A list that undoes a certified one touches no enum older than it, nor does the certified one:
      the enums they touch are those that the one creates and the other takes back. */
  lemma {:induction false} UndoTouchesNothingOlder(up: seq<Op>, n: nat, down: seq<Op>, m: nat, base: Base, e: Name)
    requires n <= |up| && m <= |down| && UndoesFrom(up, n, down, m, 0, |down|)
    requires Fits(up, base) && Certified(up, |up|, base) && e < base.names[0]
    ensures forall i | 0 <= i < n :: !Touches(up[i], e)
    ensures forall j | m <= j < |down| :: !Touches(down[j], e)
    decreases n
  {
    if n > 0 {
      assert CertifiedAt(up, n - 1, base);
      NamesGrow(up, n - 1, base);
      if m < |down| && Inverts(up[n - 1], down[m]) {
        UndoTouchesNothingOlder(up, n - 1, down, m + 1, base, e);
      } else {
        UndoTouchesNothingOlder(up, n - 1, down, m, base, e);
      }
    }
  }

  lemma {:induction false} BlocksStart(up: seq<seq<Op>>, n: nat, bases: seq<Base>)
    requires n <= |up| && |bases| == |up| + 1 && BlocksCertified(up, n, bases) && |bases[0].names| > 0
    ensures |bases[n].names| > 0 && bases[0].names[0] <= bases[n].names[0]
  {
    if n > 0 {
      BlocksStart(up, n - 1, bases);
      NamesGrow(up[n - 1], |up[n - 1]|, bases[n - 1]);
    }
  }

  lemma {:induction false} RevisionTouchesNothingOlder(up: seq<seq<Op>>, n: nat, down: seq<seq<Op>>,
      bases: seq<Base>, e: Name)
    requires n <= |up| == |down| == |bases| - 1 && BlocksUndone(up, n, down) && BlocksCertified(up, n, bases)
    requires |bases[0].names| > 0 && e < bases[0].names[0]
    ensures forall o | o in Flat(up[..n]) + Flat(down[|up| - n..]) :: !Touches(o, e)
  {
    if n > 0 {
      var k := |up| - n;
      RevisionTouchesNothingOlder(up, n - 1, down, bases, e);
      BlocksStart(up, n - 1, bases);
      UndoTouchesNothingOlder(up[n - 1], |up[n - 1]|, down[k], 0, bases[n - 1], e);
      assert up[..n] == up[..n - 1] + [up[n - 1]];
      assert down[k..] == [down[k]] + down[k + 1..];
      FlatConcat(up[..n - 1], [up[n - 1]]);
      FlatConcat([down[k]], down[k + 1..]);
      assert Flat([up[n - 1]]) == up[n - 1] && Flat([down[k]]) == down[k];
    }
  }

  // ---------------------------------------------------------------------------------------------
  // What the checks say about one revision
  // ---------------------------------------------------------------------------------------------

  /** A revision, with the state of the numbering it leads to.  `reversible` says that the downgrade
      undoes the upgrade on every schema. */
  datatype Revision = Revision(up: seq<seq<Op>>, down: seq<seq<Op>>, end: Base, reversible: bool) {
    function Upgrade(): seq<Op> { Flat(up) }

    function Downgrade(): seq<Op> { Flat(down) }

    /** Wherever the revision may start, the upgrade succeeds, leads to the end and loses no enum. */
    ghost predicate Forwards(start: Base) {
      && |start.names| > 0 && |end.names| > 0
      && forall s | Holds(start, s) ::
           && Run(Upgrade(), s).Done?
           && Holds(end, Run(Upgrade(), s).schema)
           && s.enums.Keys <= Run(Upgrade(), s).schema.enums.Keys
    }

    /** The downgrade succeeds after every upgrade that does, and restores the schema. */
    ghost predicate Restores() {
      forall s | Consistent(s) && Run(Upgrade(), s).Done? ::
        Run(Downgrade(), Run(Upgrade(), s).schema) == Done(s)
    }

    ghost predicate SparesOlderEnums(start: Base)
      requires |start.names| > 0
    {
      forall o, e | o in Upgrade() + Downgrade() && e < start.names[0] :: !Touches(o, e)
    }
  }

  /** A schema after an upgrade and the downgrade of the same revision. */
  function ThereAndBack(r: Revision, s: Schema): Outcome {
    match Run(r.Upgrade(), s)
    case Done(s') => Run(r.Downgrade(), s')
    case Failed(reason) => Failed(reason)
  }

  lemma OneBlock(b: seq<Op>)
    ensures Flat([b]) == b
  {
  }

  lemma ForwardsByCheck(r: Revision, bases: seq<Base>, start: Base)
    requires Spans(r.up, bases, start, r.end)
    ensures r.Forwards(start)
  {
    forall s | Holds(start, s)
      ensures Run(r.Upgrade(), s).Done? && Holds(r.end, Run(r.Upgrade(), s).schema)
      ensures s.enums.Keys <= Run(r.Upgrade(), s).schema.enums.Keys
    {
      RevisionSound(r.up, bases, start, r.end, s);
    }
  }

  lemma RestoresByCheck(r: Revision, bases: seq<Base>, start: Base)
    requires Spans(r.up, bases, start, r.end) && |r.up| == |r.down| && BlocksUndone(r.up, |r.up|, r.down)
    ensures r.Restores() && r.SparesOlderEnums(start)
  {
    forall s | Consistent(s) && Run(r.Upgrade(), s).Done?
      ensures Run(r.Downgrade(), Run(r.Upgrade(), s).schema) == Done(s)
    {
      RevisionUndoneSound(r.up, r.down, s);
    }
    forall o, e | o in r.Upgrade() + r.Downgrade() && e < start.names[0]
      ensures !Touches(o, e)
    {
      RevisionTouchesNothingOlder(r.up, |r.up|, r.down, bases, e);
      assert r.up[..|r.up|] == r.up && r.down[0..] == r.down;
    }
  }

  // ---------------------------------------------------------------------------------------------
  // Chains
  // ---------------------------------------------------------------------------------------------

  /** The upgrades a+1 to b of the chain h, one after the other. */
  function Through(h: seq<Revision>, a: nat, b: nat, s: Schema): Outcome
    requires a <= b <= |h|
    decreases b
  {
    if a == b then Done(s)
    else
      match Through(h, a, b - 1, s)
      case Done(s') => Run(h[b - 1].Upgrade(), s')
      case Failed(reason) => Failed(reason)
  }

  /** The downgrades b to a+1. */
  function Back(h: seq<Revision>, b: nat, a: nat, s: Schema): Outcome
    requires a <= b <= |h|
    decreases b
  {
    if a == b then Done(s)
    else
      match Run(h[b - 1].Downgrade(), s)
      case Done(s') => Back(h, b - 1, a, s')
      case Failed(reason) => Failed(reason)
  }

  lemma {:induction false} ThroughFrom(h: seq<Revision>, a: nat, m: nat, b: nat, s: Schema)
    requires a <= m <= b <= |h|
    ensures Through(h, a, b, s) ==
            match Through(h, a, m, s) case Done(s') => Through(h, m, b, s') case Failed(r) => Failed(r)
    decreases b
  {
    if m < b { ThroughFrom(h, a, m, b - 1, s); }
  }

  lemma {:induction false} BackFrom(h: seq<Revision>, b: nat, m: nat, a: nat, s: Schema)
    requires a <= m <= b <= |h|
    ensures Back(h, b, a, s) ==
            match Back(h, b, m, s) case Done(s') => Back(h, m, a, s') case Failed(r) => Failed(r)
    decreases b
  {
    if m < b && Run(h[b - 1].Downgrade(), s).Done? {
      BackFrom(h, b - 1, m, a, Run(h[b - 1].Downgrade(), s).schema);
    }
  }

  function Plain(base: Base): Base {
    base.(columns := [], enums := [])
  }

  predicate Follows(end: Base, next: Base) {
    && next.tables == end.tables && next.gone == end.gone
    && |end.names| > 0 && |next.names| > 0 && next.names[0] == end.names[0]
  }

  /** The revision passes its checks from `start`, and where it ends is where the next one starts. */
  ghost predicate Links(r: Revision, start: Base, next: Base) {
    && r.Forwards(start)
    && Follows(r.end, next)
    && (r.reversible ==> r.Restores() && r.SparesOlderEnums(start))
  }

  /** Every revision of the chain passes its checks. */
  ghost predicate Linked(h: seq<Revision>, starts: seq<Base>) {
    && |starts| == |h| + 1
    && forall i | 0 <= i < |h| :: Links(h[i], starts[i], starts[i + 1])
  }

  /** Revisions that rely on nothing but the earlier tables follow each other without failing. */
  lemma {:induction false} ThroughSound(h: seq<Revision>, starts: seq<Base>, a: nat, b: nat, s: Schema)
    requires Linked(h, starts) && a < b <= |h| && |starts[a].names| > 0 && Holds(starts[a], s)
    requires forall i | a < i < b :: starts[i] == Plain(starts[i])
    ensures Through(h, a, b, s).Done?
    ensures |starts[b].names| > 0 && Holds(Plain(starts[b]), Through(h, a, b, s).schema)
    ensures s.enums.Keys <= Through(h, a, b, s).schema.enums.Keys
    decreases b
  {
    assert Links(h[b - 1], starts[b - 1], starts[b - 1 + 1]);
    if b == a + 1 {
      assert Through(h, a, a, s) == Done(s);
    } else {
      ThroughSound(h, starts, a, b - 1, s);
    }
  }

  lemma {:induction false} ThroughKeepsConsistent(h: seq<Revision>, a: nat, b: nat, s: Schema)
    requires a <= b <= |h| && Consistent(s) && Through(h, a, b, s).Done?
    ensures Consistent(Through(h, a, b, s).schema)
    decreases b
  {
    if a < b {
      ThroughKeepsConsistent(h, a, b - 1, s);
      RunKeepsConsistent(h[b - 1].Upgrade(), Through(h, a, b - 1, s).schema);
    }
  }

  /** The downgrade of revision q takes the chain back one step. */
  ghost predicate TakesBack(h: seq<Revision>, q: nat, s: Schema)
    requires 0 < q <= |h| && Through(h, 0, q, s).Done?
  {
    && Through(h, 0, q - 1, s).Done?
    && Run(h[q - 1].Downgrade(), Through(h, 0, q, s).schema) == Through(h, 0, q - 1, s)
  }

  lemma Restored(r: Revision, s: Schema)
    requires r.Restores() && Consistent(s) && Run(r.Upgrade(), s).Done?
    ensures Run(r.Downgrade(), Run(r.Upgrade(), s).schema) == Done(s)
  {
  }

  lemma {:induction false} BackThroughChain(h: seq<Revision>, b: nat, a: nat, s: Schema)
    requires a <= b <= |h| && Through(h, 0, b, s).Done?
    requires forall q | a < q <= b :: Through(h, 0, q, s).Done? && TakesBack(h, q, s)
    ensures Back(h, b, a, Through(h, 0, b, s).schema) == Through(h, 0, a, s)
    decreases b
  {
    if a < b {
      assert TakesBack(h, b, s);
      BackThroughChain(h, b - 1, a, s);
    }
  }

  /** Downgrades that leave an enum alone do the same whatever its values are. */
  lemma {:induction false} BackIgnoresValues(h: seq<Revision>, b: nat, a: nat, s: Schema, e: Name, values: seq<string>)
    requires a <= b <= |h| && e in s.enums
    requires forall i, o | a <= i < b && o in h[i].Downgrade() :: !Touches(o, e)
    ensures Back(h, b, a, WithValues(s, e, values)) ==
            match Back(h, b, a, s) case Done(s') => Done(WithValues(s', e, values)) case Failed(r) => Failed(r)
    decreases b
  {
    if a < b {
      ValuesIgnoredThroughout(h[b - 1].Downgrade(), s, e, values);
      if Run(h[b - 1].Downgrade(), s).Done? {
        BackIgnoresValues(h, b - 1, a, Run(h[b - 1].Downgrade(), s).schema, e, values);
      }
    }
  }
}
