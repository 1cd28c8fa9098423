/**
 The rubric editor of a lab assignment: rows with criterion ids, and the weights it saves.  Weights are
 exact rationals here; a division by zero gives a value that is not finite.
 */
module Rubric {

  datatype CriterionId = Numbered(n: nat) | Custom(text: string)

  datatype Row = Row(key: nat, id: CriterionId, name: string, description: string, maxMarks: real, weight: real)

  datatype Field = Name(text: string) | Description(about: string) | MaxMarks(marks: real) | Weight(value: real)

  /** A row of the rubric that is saved. */
  datatype Criterion = Criterion(id: CriterionId, name: string, description: string, maxMarks: real, weight: Number)

  datatype Number = Finite(value: real) | NotFinite

  datatype Saved = NameMissing | MarksTooSmall | Rubric(criteria: seq<Criterion>)

  function Added(rows: seq<Row>, key: nat): seq<Row> {
    rows + [Row(key, Numbered(|rows| + 1), "", "", 10.0, 0.0)]
  }

  function Kept(rows: seq<Row>, key: nat): seq<Row> {
    if rows == [] then []
    else (if rows[0].key != key then [rows[0]] else []) + Kept(rows[1..], key)
  }

  function Removed(rows: seq<Row>, key: nat): seq<Row> {
    if |rows| <= 1 then rows else Kept(rows, key)
  }

  function Changed(r: Row, f: Field): Row {
    match f
    case Name(text) => r.(name := text)
    case Description(about) => r.(description := about)
    case MaxMarks(marks) => r.(maxMarks := marks)
    case Weight(value) => r.(weight := value)
  }

  function Updated(rows: seq<Row>, key: nat, f: Field): seq<Row> {
    seq(|rows|, i requires 0 <= i < |rows| => if rows[i].key == key then Changed(rows[i], f) else rows[i])
  }

  // ---------------------------------------------------------------------------------------------
  // Weights
  // ---------------------------------------------------------------------------------------------

  function Total(ws: seq<real>): real {
    if ws == [] then 0.0 else ws[0] + Total(ws[1..])
  }

  predicate AllZero(ws: seq<real>) {
    forall i | 0 <= i < |ws| :: ws[i] == 0.0
  }

  /** All zero: an even split.  Otherwise each weight over the total. */
  function Share(ws: seq<real>, i: nat): Number
    requires i < |ws|
  {
    if AllZero(ws) then Finite(1.0 / |ws| as real)
    else if Total(ws) == 0.0 then NotFinite
    else Finite(ws[i] / Total(ws))
  }

  /** Math.round: the integer nearest to x, the larger of two. */
  function Nearest(x: real): (r: int)
    ensures x - 0.5 < r as real <= x + 0.5
  {
    (x + 0.5).Floor
  }

  /** A share in ten-thousandths. */
  function TenThousandths(share: real): int {
    Nearest(share * 10000.0)
  }

  function Rounded(x: Number): Number {
    if x.Finite? then Finite(TenThousandths(x.value) as real / 10000.0) else NotFinite
  }

  function WeightsOf(rows: seq<Row>): seq<real> {
    seq(|rows|, i requires 0 <= i < |rows| => rows[i].weight)
  }

  function IdOf(r: Row, i: nat): CriterionId {
    if r.id == Custom("") then Numbered(i + 1) else r.id
  }

  function CriterionOf(rows: seq<Row>, trim: string -> string, i: nat): Criterion
    requires i < |rows|
  {
    Criterion(IdOf(rows[i], i), trim(rows[i].name), trim(rows[i].description), rows[i].maxMarks,
              Rounded(Share(WeightsOf(rows), i)))
  }

  predicate IsValid(r: Row, trim: string -> string) {
    trim(r.name) != "" && r.maxMarks >= 1.0
  }

  predicate IsFirstBad(rows: seq<Row>, trim: string -> string, k: int) {
    0 <= k < |rows| && !IsValid(rows[k], trim) && forall i | 0 <= i < k :: IsValid(rows[i], trim)
  }

  /** The first row that is not valid decides the message. */
  function Checked(rows: seq<Row>, trim: string -> string, n: nat): Saved
    requires n <= |rows|
  {
    if n == 0 then Rubric([])
    else
      var before := Checked(rows, trim, n - 1);
      if !before.Rubric? then before
      else if trim(rows[n - 1].name) == "" then NameMissing
      else if rows[n - 1].maxMarks < 1.0 then MarksTooSmall
      else before
  }

  /** The every and the reduce over the weights. */
  method AddUp(raw: seq<real>) returns (allZero: bool, total: real)
    ensures allZero == AllZero(raw) && total == Total(raw)
  {
    allZero, total := true, 0.0;
    for i := 0 to |raw|
      invariant allZero == AllZero(raw[..i]) && total == Total(raw[..i])
    {
      TotalPrefix(raw, i + 1);
      assert raw[..i + 1] == raw[..i] + [raw[i]];
      if raw[i] != 0.0 {
        allZero := false;
      }
      total := total + raw[i];
    }
    assert raw[..|raw|] == raw;
  }

  /** The even split, or each weight over the total. */
  method Normalise(raw: seq<real>) returns (weights: seq<Number>)
    ensures |weights| == |raw| && forall i | 0 <= i < |raw| :: weights[i] == Share(raw, i)
  {
    var allZero, total := AddUp(raw);
    weights := [];
    for i := 0 to |raw|
      invariant |weights| == i && forall j | 0 <= j < i :: weights[j] == Share(raw, j)
    {
      var weight := if allZero then Finite(1.0 / |raw| as real)
                    else if total == 0.0 then NotFinite
                    else Finite(raw[i] / total);
      weights := weights + [weight];
    }
  }

  class RubricEditor {
    var rows: seq<Row>

    /** A new rubric has one criterion with the whole weight. */
    constructor (key: nat)
      ensures rows == [Row(key, Numbered(1), "", "", 100.0, 1.0)]
    {
      rows := [Row(key, Numbered(1), "", "", 100.0, 1.0)];
    }

    method AddRow(key: nat)
      modifies this
      ensures rows == Added(old(rows), key)
      ensures |rows| == |old(rows)| + 1 && rows[..|old(rows)|] == old(rows)
      ensures rows[|old(rows)|] == Row(key, Numbered(|rows|), "", "", 10.0, 0.0)
    {
      var idx := |rows| + 1;
      rows := rows + [Row(key, Numbered(idx), "", "", 10.0, 0.0)];
    }

    method RemoveRow(key: nat)
      modifies this
      ensures rows == Removed(old(rows), key)
      ensures |old(rows)| <= 1 ==> rows == old(rows)
      ensures |old(rows)| > 1 ==> forall r :: r in rows <==> r in old(rows) && r.key != key
    {
      if |rows| <= 1 {
        return;
      }
      var kept, i := [], |rows|;
      while i > 0
        invariant 0 <= i <= |rows| && kept == Kept(rows[i..], key)
      {
        i := i - 1;
        assert rows[i..][1..] == rows[i + 1..];
        if rows[i].key != key {
          kept := [rows[i]] + kept;
        }
      }
      assert rows[0..] == rows;
      KeptMembers(rows, key);
      rows := kept;
    }

    method UpdateRow(key: nat, f: Field)
      modifies this
      ensures rows == Updated(old(rows), key, f)
      ensures |rows| == |old(rows)|
      ensures forall i | 0 <= i < |rows| && rows[i].key != key :: rows[i] == old(rows)[i]
      ensures forall i | 0 <= i < |rows| && old(rows)[i].key == key ::
        && rows[i].key == key && rows[i].id == old(rows)[i].id
        && rows[i].name == (if f.Name? then f.text else old(rows)[i].name)
        && rows[i].description == (if f.Description? then f.about else old(rows)[i].description)
        && rows[i].maxMarks == (if f.MaxMarks? then f.marks else old(rows)[i].maxMarks)
        && rows[i].weight == (if f.Weight? then f.value else old(rows)[i].weight)
    {
      var prev := rows;
      rows := seq(|prev|, i requires 0 <= i < |prev| => if prev[i].key == key then Changed(prev[i], f) else prev[i]);
    }

    /** Stops at the first row without a name or with less than one mark; otherwise saves every row with
        its rounded share. */
    method HandleSave(trim: string -> string) returns (saved: Saved)
      ensures !saved.Rubric? ==> saved == Checked(rows, trim, |rows|)
      ensures saved.Rubric? <==> Checked(rows, trim, |rows|).Rubric?
      ensures saved.Rubric? ==> SavedFrom(rows, trim, saved.criteria)
      ensures saved.Rubric? <==> forall i | 0 <= i < |rows| :: IsValid(rows[i], trim)
      ensures saved == NameMissing ==> exists k :: IsFirstBad(rows, trim, k) && trim(rows[k].name) == ""
      ensures saved == MarksTooSmall ==> exists k :: IsFirstBad(rows, trim, k) && trim(rows[k].name) != ""
      ensures saved.Rubric? ==> |saved.criteria| == |rows| && forall i | 0 <= i < |rows| ::
        && saved.criteria[i].id == (if rows[i].id == Custom("") then Numbered(i + 1) else rows[i].id)
        && saved.criteria[i].name == trim(rows[i].name) && saved.criteria[i].description == trim(rows[i].description)
        && saved.criteria[i].maxMarks == rows[i].maxMarks
    {
      var n := 0;
      while n < |rows|
        invariant 0 <= n <= |rows| && Checked(rows, trim, n).Rubric?
        invariant forall i | 0 <= i < n :: IsValid(rows[i], trim)
      {
        if trim(rows[n].name) == "" {
          StopStays(rows, trim, n + 1, |rows|);
          assert IsFirstBad(rows, trim, n);
          return NameMissing;
        }
        if rows[n].maxMarks < 1.0 {
          StopStays(rows, trim, n + 1, |rows|);
          assert IsFirstBad(rows, trim, n);
          return MarksTooSmall;
        }
        n := n + 1;
      }
      var weights := Normalise(WeightsOf(rows));
      var criteria := [];
      for i := 0 to |rows|
        invariant |criteria| == i && forall j | 0 <= j < i :: criteria[j] == CriterionOf(rows, trim, j)
      {
        var r := rows[i];
        var id := if r.id == Custom("") then Numbered(i + 1) else r.id;
        criteria := criteria + [Criterion(id, trim(r.name), trim(r.description), r.maxMarks, Rounded(weights[i]))];
      }
      saved := Rubric(criteria);
    }
  }

  lemma {:induction false} KeptMembers(rows: seq<Row>, key: nat)
    ensures forall r :: r in Kept(rows, key) <==> r in rows && r.key != key
  {
    if rows != [] {
      KeptMembers(rows[1..], key);
      assert forall r :: r in rows <==> r == rows[0] || r in rows[1..];
    }
  }

  lemma {:induction false} StopStays(rows: seq<Row>, trim: string -> string, m: nat, n: nat)
    requires m <= n <= |rows| && !Checked(rows, trim, m).Rubric?
    ensures Checked(rows, trim, n) == Checked(rows, trim, m)
    decreases n
  {
    if m < n { StopStays(rows, trim, m, n - 1); }
  }

  // ---------------------------------------------------------------------------------------------
  // Saved weights
  // ---------------------------------------------------------------------------------------------

  predicate NonNegative(ws: seq<real>) {
    forall i | 0 <= i < |ws| :: ws[i] >= 0.0
  }

  lemma {:induction false} TotalAtLeast(ws: seq<real>, i: nat)
    requires NonNegative(ws) && i < |ws|
    ensures Total(ws) >= ws[i] && Total(ws[1..]) >= 0.0
  {
    assert NonNegative(ws[1..]);
    if |ws| > 1 {
      TotalAtLeast(ws[1..], if i == 0 then 0 else i - 1);
    }
  }

  /** A share of at most 1. */
  lemma Quotient(w: real, total: real)
    requires 0.0 <= w <= total && total > 0.0
    ensures 0.0 <= w / total <= 1.0
  {
  }

  lemma QuotientOrdered(v: real, w: real, total: real)
    requires v <= w && total > 0.0
    ensures v / total <= w / total
  {
  }

  lemma TotalPositive(ws: seq<real>)
    requires NonNegative(ws) && !AllZero(ws)
    ensures Total(ws) > 0.0
  {
    var i :| 0 <= i < |ws| && ws[i] != 0.0;
    TotalAtLeast(ws, i);
  }

  function ShareValue(ws: seq<real>, i: nat): (r: real)
    requires NonNegative(ws) && i < |ws|
    ensures Share(ws, i) == Finite(r)
  {
    if AllZero(ws) then 1.0 / |ws| as real
    else
      TotalPositive(ws);
      ws[i] / Total(ws)
  }

  /** A share is its weight in proportion to the total, whatever the signs; all zero weights share evenly. */
  lemma ShareInProportion(ws: seq<real>, i: nat)
    requires i < |ws|
    ensures AllZero(ws) ==> Share(ws, i).Finite? && Share(ws, i).value * |ws| as real == 1.0
    ensures !AllZero(ws) ==> (Share(ws, i).Finite? <==> Total(ws) != 0.0)
    ensures !AllZero(ws) && Total(ws) != 0.0 ==> Share(ws, i).value * Total(ws) == ws[i]
  {
  }

  lemma ShareBounds(ws: seq<real>, i: nat)
    requires NonNegative(ws) && i < |ws|
    ensures 0.0 <= ShareValue(ws, i) <= 1.0
  {
    if !AllZero(ws) {
      TotalPositive(ws);
      TotalAtLeast(ws, i);
      Quotient(ws[i], Total(ws));
    }
  }

  /** A saved weight is a multiple of 1/10000 in [0, 1]. */
  lemma SavedWeightInRange(ws: seq<real>, i: nat)
    requires NonNegative(ws) && i < |ws|
    ensures var k := TenThousandths(ShareValue(ws, i));
            0 <= k <= 10000 && Rounded(Share(ws, i)) == Finite(k as real / 10000.0)
  {
    ShareBounds(ws, i);
  }

  /** Saved weights keep the order of the entered ones. */
  lemma SavedWeightsOrdered(ws: seq<real>, i: nat, j: nat)
    requires NonNegative(ws) && i < |ws| && j < |ws| && ws[i] <= ws[j]
    ensures TenThousandths(ShareValue(ws, i)) <= TenThousandths(ShareValue(ws, j))
  {
    if !AllZero(ws) {
      TotalPositive(ws);
      QuotientOrdered(ws[i], ws[j], Total(ws));
    }
  }

  function SumOfShares(ws: seq<real>, n: nat): real
    requires NonNegative(ws) && n <= |ws|
  {
    if n == 0 then 0.0 else SumOfShares(ws, n - 1) + ShareValue(ws, n - 1)
  }

  function SumOfSaved(ws: seq<real>, n: nat): int
    requires NonNegative(ws) && n <= |ws|
  {
    if n == 0 then 0 else SumOfSaved(ws, n - 1) + TenThousandths(ShareValue(ws, n - 1))
  }

  lemma {:induction false} TotalPrefix(ws: seq<real>, n: nat)
    requires 0 < n <= |ws|
    ensures Total(ws[..n]) == Total(ws[..n - 1]) + ws[n - 1]
  {
    if n > 1 {
      assert ws[..n][1..] == ws[1..][..n - 1] && ws[..n - 1][1..] == ws[1..][..n - 2];
      TotalPrefix(ws[1..], n - 1);
    } else {
      assert ws[..1][1..] == [];
    }
  }

  lemma SumOfQuotients(a: real, b: real, total: real)
    requires total != 0.0
    ensures a / total + b / total == (a + b) / total
  {
  }

  lemma {:induction false} SharesOfTotal(ws: seq<real>, n: nat)
    requires NonNegative(ws) && n <= |ws| && !AllZero(ws)
    ensures Total(ws) > 0.0 && SumOfShares(ws, n) == Total(ws[..n]) / Total(ws)
  {
    TotalPositive(ws);
    if n > 0 {
      SharesOfTotal(ws, n - 1);
      TotalPrefix(ws, n);
      SumOfQuotients(Total(ws[..n - 1]), ws[n - 1], Total(ws));
    }
  }

  lemma {:induction false} EvenShares(ws: seq<real>, n: nat)
    requires NonNegative(ws) && n <= |ws| && AllZero(ws) && ws != []
    ensures SumOfShares(ws, n) == n as real / |ws| as real
  {
    if n > 0 {
      EvenShares(ws, n - 1);
      SumOfQuotients((n - 1) as real, 1.0, |ws| as real);
    }
  }

  lemma SharesSumToOne(ws: seq<real>)
    requires NonNegative(ws) && ws != []
    ensures SumOfShares(ws, |ws|) == 1.0
  {
    if AllZero(ws) {
      EvenShares(ws, |ws|);
      SelfQuotient(|ws| as real);
    } else {
      SharesOfTotal(ws, |ws|);
      assert ws[..|ws|] == ws;
      SelfQuotient(Total(ws));
    }
  }

  lemma SelfQuotient(x: real)
    requires x != 0.0
    ensures x / x == 1.0
  {
  }

  lemma {:induction false} RoundingError(ws: seq<real>, n: nat)
    requires NonNegative(ws) && n <= |ws|
    ensures SumOfShares(ws, n) * 10000.0 - n as real / 2.0 <= SumOfSaved(ws, n) as real
    ensures SumOfSaved(ws, n) as real <= SumOfShares(ws, n) * 10000.0 + n as real / 2.0
  {
    if n > 0 { RoundingError(ws, n - 1); }
  }

  /** The saved weights of n rows sum to within n/20000 of 1: in ten-thousandths, to within n/2 of 10000. */
  lemma SavedWeightsSum(ws: seq<real>)
    requires NonNegative(ws) && ws != []
    ensures -|ws| <= 2 * (SumOfSaved(ws, |ws|) - 10000) <= |ws|
  {
    SharesSumToOne(ws);
    RoundingError(ws, |ws|);
  }

  predicate AllFinite(criteria: seq<Criterion>) {
    forall i | 0 <= i < |criteria| :: criteria[i].weight.Finite?
  }

  function SumOfWeights(criteria: seq<Criterion>, n: nat): real
    requires AllFinite(criteria) && n <= |criteria|
  {
    if n == 0 then 0.0 else SumOfWeights(criteria, n - 1) + criteria[n - 1].weight.value
  }

  predicate SavedFrom(rows: seq<Row>, trim: string -> string, criteria: seq<Criterion>) {
    |criteria| == |rows| && forall i | 0 <= i < |rows| :: criteria[i] == CriterionOf(rows, trim, i)
  }

  lemma {:induction false} WeightsInTenThousandths(rows: seq<Row>, trim: string -> string, criteria: seq<Criterion>,
      n: nat)
    requires SavedFrom(rows, trim, criteria) && NonNegative(WeightsOf(rows)) && n <= |rows|
    ensures AllFinite(criteria) && SumOfWeights(criteria, n) == SumOfSaved(WeightsOf(rows), n) as real / 10000.0
  {
    forall i | 0 <= i < |criteria|
      ensures criteria[i].weight.Finite?
    {
      SavedWeightInRange(WeightsOf(rows), i);
    }
    if n > 0 {
      WeightsInTenThousandths(rows, trim, criteria, n - 1);
      SavedWeightInRange(WeightsOf(rows), n - 1);
    }
  }

  /** The rubric that is saved: n weights that sum to within n/20000 of 1. */
  lemma SavedRubricSum(rows: seq<Row>, trim: string -> string, criteria: seq<Criterion>)
    requires SavedFrom(rows, trim, criteria) && NonNegative(WeightsOf(rows)) && rows != []
    ensures AllFinite(criteria)
    ensures var error, n := SumOfWeights(criteria, |criteria|) - 1.0, |rows| as real;
            -n / 20000.0 <= error <= n / 20000.0
  {
    WeightsInTenThousandths(rows, trim, criteria, |rows|);
    SavedWeightsSum(WeightsOf(rows));
  }

  /** Three equal rows do not sum to 1: the bound is not zero. */
  lemma ThirdsFallShort()
    ensures SumOfSaved([1.0, 1.0, 1.0], 3) == 9999
  {
    var ws := [1.0, 1.0, 1.0];
    assert ws[1..] == [1.0, 1.0] && ws[1..][1..] == [1.0];
    assert Total([1.0]) == 1.0 && Total([1.0, 1.0]) == 2.0 && Total(ws) == 3.0;
    assert !AllZero(ws);
    assert forall i: nat | i < 3 :: ShareValue(ws, i) == 1.0 / 3.0;
    assert TenThousandths(1.0 / 3.0) == 3333;
    assert SumOfSaved(ws, 1) == 3333 && SumOfSaved(ws, 2) == 6666;
  }

  /** With negative weights the total may be zero, and then no weight is a number. */
  lemma ZeroTotal(ws: seq<real>, i: nat)
    requires i < |ws| && Total(ws) == 0.0 && !AllZero(ws)
    ensures Rounded(Share(ws, i)) == NotFinite && !NonNegative(ws)
  {
    if NonNegative(ws) { TotalPositive(ws); }
  }

  // ---------------------------------------------------------------------------------------------
  // Criterion ids
  // ---------------------------------------------------------------------------------------------

  predicate InOrder(rows: seq<Row>) {
    forall i | 0 <= i < |rows| :: rows[i].id == Numbered(i + 1)
  }

  predicate DistinctKeys(rows: seq<Row>) {
    forall i, j | 0 <= i < j < |rows| :: rows[i].key != rows[j].key
  }

  predicate DistinctIds(rows: seq<Row>) {
    forall i, j | 0 <= i < j < |rows| :: rows[i].id != rows[j].id
  }

  lemma {:induction false} KeptIs(rows: seq<Row>, k: nat)
    requires DistinctKeys(rows) && k < |rows|
    ensures Kept(rows, rows[k].key) == rows[..k] + rows[k + 1..]
    decreases |rows|
  {
    assert DistinctKeys(rows[1..]);
    if k == 0 {
      NoneDropped(rows[1..], rows[0].key);
    } else {
      KeptIs(rows[1..], k - 1);
      assert rows[1..][..k - 1] == rows[1..k] && rows[1..][k..] == rows[k + 1..];
      assert rows[..k] == [rows[0]] + rows[1..k];
    }
  }

  lemma {:induction false} NoneDropped(rows: seq<Row>, key: nat)
    requires forall i | 0 <= i < |rows| :: rows[i].key != key
    ensures Kept(rows, key) == rows
  {
    if rows != [] { NoneDropped(rows[1..], key); }
  }

  /** An edit that adds a row at the end or removes the last one. */
  datatype Edit = Add(key: nat) | RemoveLast

  function Edited(rows: seq<Row>, es: seq<Edit>): seq<Row> {
    if es == [] then rows
    else
      var before := Edited(rows, es[..|es| - 1]);
      match es[|es| - 1]
      case Add(key) => Added(before, key)
      case RemoveLast => if before == [] then [] else Removed(before, before[|before| - 1].key)
  }

  /** Every key that is added is new. */
  predicate FreshKeys(rows: seq<Row>, es: seq<Edit>) {
    forall n | 0 <= n < |es| && es[n].Add? ::
      forall i | 0 <= i < |Edited(rows, es[..n])| :: Edited(rows, es[..n])[i].key != es[n].key
  }

  lemma FreshBefore(rows: seq<Row>, es: seq<Edit>, n: nat)
    requires FreshKeys(rows, es) && n <= |es|
    ensures FreshKeys(rows, es[..n])
  {
    forall m | 0 <= m < n && es[..n][m].Add?
      ensures forall i | 0 <= i < |Edited(rows, es[..n][..m])| :: Edited(rows, es[..n][..m])[i].key != es[..n][m].key
    {
      assert es[..n][..m] == es[..m];
    }
  }

  /** From a rubric whose ids are c1 to cn, adding rows and removing the last one keeps them so. */
  lemma {:induction false} IdsStayInOrder(rows: seq<Row>, es: seq<Edit>)
    requires InOrder(rows) && DistinctKeys(rows) && FreshKeys(rows, es)
    ensures InOrder(Edited(rows, es)) && DistinctKeys(Edited(rows, es))
    decreases |es|
  {
    if es != [] {
      var n := |es| - 1;
      var before := Edited(rows, es[..n]);
      FreshBefore(rows, es, n);
      IdsStayInOrder(rows, es[..n]);
      if es[n].RemoveLast? && |before| > 1 {
        KeptIs(before, |before| - 1);
      }
    }
  }

  /** Removing row k and adding one afterwards gives two rows the same id, unless the removed row was the
      last. */
  lemma DuplicateIdExactly(rows: seq<Row>, k: nat, key: nat)
    requires InOrder(rows) && DistinctKeys(rows) && |rows| >= 2 && k < |rows|
    ensures DistinctIds(Added(Removed(rows, rows[k].key), key)) <==> k == |rows| - 1
  {
    KeptIs(rows, k);
    var n := |rows|;
    var after := Added(Removed(rows, rows[k].key), key);
    assert |after| == n && after[n - 1].id == Numbered(n);
    if k < n - 1 {
      assert after[n - 2] == rows[n - 1];
      assert after[n - 2].id == after[n - 1].id;
    }
  }
}
