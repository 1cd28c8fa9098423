/**
 The advisory on internal marks: flagged if the standard deviation of the entered totals exceeds 30% of
 the maximum.  Totals and maxima are exact rationals here.
 */
module Advisory {

  import opened Wrappers

  /** A student's marks; the total is missing until it is entered. */
  datatype Marks = Marks(total: Option<real>, max: real)

  function WithTotals(items: seq<Marks>): seq<Marks> {
    if items == [] then []
    else (if items[0].total.Some? then [items[0]] else []) + WithTotals(items[1..])
  }

  function Totals(items: seq<Marks>): (r: seq<real>)
    ensures |r| == |WithTotals(items)|
  {
    if items == [] then []
    else (if items[0].total.Some? then [items[0].total.value] else []) + Totals(items[1..])
  }

  /** The reduce of the page: f of every element, added up. */
  function SumOf<T>(f: T -> real, xs: seq<T>): real {
    if xs == [] then 0.0 else f(xs[0]) + SumOf(f, xs[1..])
  }

  function Id(x: real): real { x }

  function Square(x: real): real { x * x }

  function Sum(xs: seq<real>): real { SumOf(Id, xs) }

  function Squares(xs: seq<real>): real { SumOf(Square, xs) }

  function SquaredFrom(m: real): real -> real {
    (x: real) => (x - m) * (x - m)
  }

  /** The sum of the squared distances from m. */
  function Spread(xs: seq<real>, m: real): real {
    SumOf(SquaredFrom(m), xs)
  }

  function Count(xs: seq<real>): real {
    |xs| as real
  }

  /** The numbers the page computes from the entered totals. */
  datatype Stats = Stats(mean: real, variance: real, sd: real)

  /** The mean is the sum divided by n, the variance the mean squared distance from it, and the standard
      deviation its root. */
  predicate StatsOf(xs: seq<real>, st: Stats) {
    && Count(xs) * st.mean == Sum(xs)
    && Count(xs) * st.variance == Spread(xs, st.mean)
    && st.sd >= 0.0 && st.sd * st.sd == st.variance
  }

  const FALLBACK: real := 40.0

  /** The maximum is that of the first entered row. */
  function MaxInternal(items: seq<Marks>): real {
    if WithTotals(items) == [] then FALLBACK else WithTotals(items)[0].max
  }

  /** The deviation is over 30% of the maximum. */
  predicate Over(sd: real, max: real) {
    sd > 0.3 * max
  }

  predicate Advises(items: seq<Marks>, st: Stats)
    requires StatsOf(Totals(items), st)
  {
    |WithTotals(items)| >= 5 && Over(st.sd, MaxInternal(items))
  }

  // ---------------------------------------------------------------------------------------------
  // Arithmetic
  // ---------------------------------------------------------------------------------------------

  lemma Positive(a: real, b: real)
    requires a > 0.0 && b > 0.0
    ensures a * b > 0.0
  {
  }

  lemma Larger(k: real, a: real, b: real)
    requires k > 0.0 && a > b
    ensures k * a > k * b
  {
    Positive(k, a - b);
    assert k * (a - b) == k * a - k * b;
  }

  lemma Scaled(k: real, a: real, b: real)
    requires k > 0.0
    ensures a > b <==> k * a > k * b
  {
    if a > b {
      Larger(k, a, b);
    } else if b > a {
      Larger(k, b, a);
    }
  }

  lemma LargerSquare(a: real, b: real)
    requires a > b >= 0.0
    ensures a * a > b * b
  {
    var d, t := a - b, a + b;
    Positive(d, t);
    assert a * a - b * b == d * t;
  }

  lemma SquaresOrdered(a: real, b: real)
    requires a >= 0.0 && b >= 0.0
    ensures a > b <==> a * a > b * b
  {
    if a > b {
      LargerSquare(a, b);
    } else if b > a {
      LargerSquare(b, a);
    }
  }

  lemma ProductAtMost(a: real, b: real)
    ensures 4.0 * (a * b) <= (a + b) * (a + b)
  {
    assert (a + b) * (a + b) - 4.0 * (a * b) == (a - b) * (a - b);
    assert (a - b) * (a - b) >= 0.0;
  }

  lemma VarianceAlgebra(n: real, s: real, q: real, m: real, v: real)
    requires n * m == s && n * v == q - 2.0 * m * s + n * (m * m)
    ensures n * q - s * s == n * n * v
  {
    assert n * (m * m) == s * m;
    assert n * v == q - m * s;
    assert n * (n * v) == n * q - (n * m) * s;
  }

  /** With the root squared out: sd > 0.3 max. */
  lemma RootAlgebra(k: real, v: real, max: real, sd: real)
    requires k > 0.0 && max >= 0.0 && sd >= 0.0 && sd * sd == v
    ensures sd > 0.3 * max <==> k * v > k * (0.09 * (max * max))
  {
    var bound := 0.3 * max;
    SquaresOrdered(sd, bound);
    assert bound * bound == 0.09 * (max * max);
    Scaled(k, v, 0.09 * (max * max));
  }

  lemma ProductBelow(n: real, s: real, q: real, lo: real, hi: real)
    requires n > 0.0 && (hi + lo) * s - q - n * (hi * lo) >= 0.0
    ensures n * q - s * s <= (n * hi - s) * (s - n * lo)
  {
    var r := (hi + lo) * s - q - n * (hi * lo);
    assert n * r >= 0.0;
    assert n * r == n * ((hi + lo) * s) - n * q - n * (n * (hi * lo));
    assert (n * hi - s) * (s - n * lo) == n * hi * s - n * hi * (n * lo) - s * s + s * (n * lo);
    assert n * hi * (n * lo) == n * (n * (hi * lo));
    assert n * hi * s + s * (n * lo) == n * ((hi + lo) * s);
  }

  lemma DiscriminantAtMost(n: real, s: real, q: real, lo: real, hi: real)
    requires n > 0.0 && (hi + lo) * s - q - n * (hi * lo) >= 0.0
    ensures 4.0 * (n * q - s * s) <= n * n * ((hi - lo) * (hi - lo))
  {
    var a, b, d := n * hi - s, s - n * lo, hi - lo;
    ProductBelow(n, s, q, lo, hi);
    ProductAtMost(a, b);
    assert a + b == n * d;
    assert (n * d) * (n * d) == n * n * (d * d);
  }

  lemma Cancelled(k: real, v: real, w: real)
    requires k > 0.0 && 4.0 * (k * v) <= k * w
    ensures 4.0 * v <= w
  {
    Scaled(k, 4.0 * v, w);
    assert k * (4.0 * v) == 4.0 * (k * v);
  }

  // ---------------------------------------------------------------------------------------------
  // Without roots and means
  // ---------------------------------------------------------------------------------------------

  lemma FirstTerms(xs: seq<real>, m: real)
    requires xs != []
    ensures Spread(xs, m) == (xs[0] - m) * (xs[0] - m) + Spread(xs[1..], m)
    ensures Squares(xs) == xs[0] * xs[0] + Squares(xs[1..])
    ensures Sum(xs) == xs[0] + Sum(xs[1..]) && Count(xs) == Count(xs[1..]) + 1.0
  {
    SumHead(SquaredFrom(m), xs);
    SumHead(Square, xs);
    SumHead(Id, xs);
  }

  lemma SumHead<T>(f: T -> real, xs: seq<T>)
    requires xs != []
    ensures SumOf(f, xs) == f(xs[0]) + SumOf(f, xs[1..])
  {
  }

  lemma {:induction false} SpreadExpanded(xs: seq<real>, m: real)
    ensures Spread(xs, m) == Squares(xs) - 2.0 * m * Sum(xs) + Count(xs) * (m * m)
  {
    if xs != [] {
      var rest := xs[1..];
      SpreadExpanded(rest, m);
      SpreadStep(xs[0], m, Spread(rest, m), Squares(rest), Sum(rest), Count(rest));
      FirstTerms(xs, m);
    }
  }

  lemma SpreadStep(x: real, m: real, spread: real, q: real, s: real, n: real)
    requires spread == q - 2.0 * m * s + n * (m * m)
    ensures (x - m) * (x - m) + spread == (x * x + q) - 2.0 * m * (x + s) + (n + 1.0) * (m * m)
  {
    assert (x - m) * (x - m) == x * x - 2.0 * m * x + m * m;
  }

  /** n squared times the variance, by sums alone. */
  function Discriminant(xs: seq<real>): real {
    Count(xs) * Squares(xs) - Sum(xs) * Sum(xs)
  }

  function CountSquared(xs: seq<real>): real {
    Count(xs) * Count(xs)
  }

  lemma VarianceExpanded(xs: seq<real>, m: real, v: real)
    requires Count(xs) * m == Sum(xs) && Count(xs) * v == Spread(xs, m)
    ensures Discriminant(xs) == CountSquared(xs) * v
  {
    SpreadExpanded(xs, m);
    VarianceAlgebra(Count(xs), Sum(xs), Squares(xs), m, v);
  }

  predicate Exceeds(d: real, k: real, max: real) {
    max < 0.0 || d > k * (0.09 * (max * max))
  }

  /** The advisory is shown exactly if n times the sum of squares minus the squared sum exceeds 0.09 n
      squared max squared, for at least five entered totals; a negative maximum always shows it. */
  lemma AdvisesExactly(items: seq<Marks>, st: Stats)
    requires StatsOf(Totals(items), st)
    ensures Advises(items, st) <==>
            |Totals(items)| >= 5
                && Exceeds(Discriminant(Totals(items)), CountSquared(Totals(items)), MaxInternal(items))
  {
    if Totals(items) != [] {
      VerdictByStats(Totals(items), MaxInternal(items), st);
    }
  }

  lemma CountPositive(xs: seq<real>)
    requires xs != []
    ensures CountSquared(xs) > 0.0
  {
    Positive(Count(xs), Count(xs));
  }

  lemma VerdictBySums(xs: seq<real>, max: real, v: real, sd: real)
    requires xs != [] && Discriminant(xs) == CountSquared(xs) * v && sd >= 0.0 && sd * sd == v
    ensures Over(sd, max) == Exceeds(Discriminant(xs), CountSquared(xs), max)
  {
    CountPositive(xs);
    Verdict(CountSquared(xs), v, Discriminant(xs), max, sd);
  }

  lemma VerdictByStats(xs: seq<real>, max: real, st: Stats)
    requires xs != [] && StatsOf(xs, st)
    ensures Over(st.sd, max) == Exceeds(Discriminant(xs), CountSquared(xs), max)
  {
    var v, sd := st.variance, st.sd;
    assert Discriminant(xs) == CountSquared(xs) * v by {
      VarianceExpanded(xs, st.mean, v);
    }
    VerdictBySums(xs, max, v, sd);
  }

  lemma Verdict(k: real, v: real, d: real, max: real, sd: real)
    requires k > 0.0 && sd >= 0.0 && sd * sd == v && d == k * v
    ensures Over(sd, max) == Exceeds(d, k, max)
  {
    if max >= 0.0 {
      RootAlgebra(k, v, max, sd);
    }
  }

  // ---------------------------------------------------------------------------------------------
  // Bounds
  // ---------------------------------------------------------------------------------------------

  predicate Between(xs: seq<real>, lo: real, hi: real) {
    forall i | 0 <= i < |xs| :: lo <= xs[i] <= hi
  }

  /** Every product (hi - x)(x - lo) is at least zero, so their sum is. */
  lemma {:induction false} ProductsPositive(xs: seq<real>, lo: real, hi: real)
    requires Between(xs, lo, hi)
    ensures (hi + lo) * Sum(xs) - Squares(xs) - Count(xs) * (hi * lo) >= 0.0
  {
    if xs != [] {
      assert Between(xs[1..], lo, hi);
      ProductsPositive(xs[1..], lo, hi);
      ProductStep(xs[0], lo, hi, Sum(xs[1..]), Squares(xs[1..]), Count(xs[1..]));
      assert Count(xs) == Count(xs[1..]) + 1.0;
    }
  }

  lemma ProductStep(x: real, lo: real, hi: real, s: real, q: real, n: real)
    requires lo <= x <= hi && (hi + lo) * s - q - n * (hi * lo) >= 0.0
    ensures (hi + lo) * (x + s) - (x * x + q) - (n + 1.0) * (hi * lo) >= 0.0
  {
    assert (hi - x) * (x - lo) >= 0.0;
    assert (hi - x) * (x - lo) == (hi + lo) * x - x * x - hi * lo;
  }

  lemma SpreadBounded(xs: seq<real>, lo: real, hi: real, v: real)
    requires xs != [] && Between(xs, lo, hi) && Discriminant(xs) == CountSquared(xs) * v
    ensures 4.0 * v <= (hi - lo) * (hi - lo)
  {
    CountPositive(xs);
    ProductsPositive(xs, lo, hi);
    DiscriminantAtMost(Count(xs), Sum(xs), Squares(xs), lo, hi);
    Cancelled(CountSquared(xs), v, (hi - lo) * (hi - lo));
  }

  lemma RootBound(sd: real, v: real, d: real)
    requires sd >= 0.0 && sd * sd == v && 4.0 * v <= d * d && d >= 0.0
    ensures sd <= d / 2.0
  {
    var half := d / 2.0;
    SquaresOrdered(sd, half);
    assert 4.0 * (half * half) == d * d;
  }

  lemma VarianceBounded(xs: seq<real>, lo: real, hi: real, m: real, v: real)
    requires xs != [] && Between(xs, lo, hi) && Count(xs) * m == Sum(xs) && Count(xs) * v == Spread(xs, m)
    ensures 4.0 * v <= (hi - lo) * (hi - lo)
  {
    VarianceExpanded(xs, m, v);
    SpreadBounded(xs, lo, hi, v);
  }

  /** Popoviciu's inequality: the standard deviation of values within a range is at most half of it. */
  lemma Popoviciu(xs: seq<real>, lo: real, hi: real, st: Stats)
    requires xs != [] && Between(xs, lo, hi) && StatsOf(xs, st)
    ensures st.sd <= (hi - lo) / 2.0
  {
    assert lo <= xs[0] <= hi;
    VarianceBounded(xs, lo, hi, st.mean, st.variance);
    RootBound(st.sd, st.variance, hi - lo);
  }

  /** Totals between 0 and max deviate by at most half of max. */
  lemma DeviationAtMostHalf(xs: seq<real>, max: real, st: Stats)
    requires xs != [] && Between(xs, 0.0, max) && StatsOf(xs, st)
    ensures st.sd <= max / 2.0
  {
    Popoviciu(xs, 0.0, max, st);
  }

  /** Totals that span at most 0.6 of the maximum never show the advisory. */
  lemma NarrowNeverAdvises(items: seq<Marks>, lo: real, hi: real, st: Stats)
    requires StatsOf(Totals(items), st)
    requires Between(Totals(items), lo, hi) && hi - lo <= 0.6 * MaxInternal(items)
    ensures !Advises(items, st)
  {
    if Totals(items) != [] {
      Popoviciu(Totals(items), lo, hi, st);
    }
  }

  // ---------------------------------------------------------------------------------------------
  // Order
  // ---------------------------------------------------------------------------------------------

  lemma {:induction false} SumConcat<T>(f: T -> real, xs: seq<T>, ys: seq<T>)
    ensures SumOf(f, xs + ys) == SumOf(f, xs) + SumOf(f, ys)
  {
    if xs == [] {
      assert xs + ys == ys;
    } else {
      assert (xs + ys)[1..] == xs[1..] + ys;
      SumConcat(f, xs[1..], ys);
    }
  }

  function Without<T>(xs: seq<T>, k: nat): seq<T>
    requires k < |xs|
  {
    xs[..k] + xs[k + 1..]
  }

  lemma SumWithout<T>(f: T -> real, xs: seq<T>, k: nat)
    requires k < |xs|
    ensures SumOf(f, xs) == f(xs[k]) + SumOf(f, Without(xs, k))
  {
    Split(xs, k);
    SumAround(f, xs[..k], xs[k], xs[k + 1..]);
  }

  lemma Split<T>(xs: seq<T>, k: nat)
    requires k < |xs|
    ensures xs == xs[..k] + ([xs[k]] + xs[k + 1..])
  {
  }

  lemma SumAround<T>(f: T -> real, before: seq<T>, x: T, after: seq<T>)
    ensures SumOf(f, before + ([x] + after)) == f(x) + SumOf(f, before + after)
  {
    SumConcat(f, before, [x] + after);
    SumFirst(f, x, after);
    SumConcat(f, before, after);
  }

  lemma SumFirst<T>(f: T -> real, x: T, xs: seq<T>)
    ensures SumOf(f, [x] + xs) == f(x) + SumOf(f, xs)
  {
    assert ([x] + xs)[1..] == xs;
  }

  lemma MultisetWithout<T>(xs: seq<T>, k: nat)
    requires k < |xs|
    ensures multiset(Without(xs, k)) == multiset(xs) - multiset{xs[k]}
  {
    assert xs == xs[..k] + ([xs[k]] + xs[k + 1..]);
  }

  /** Sums do not depend on the order. */
  lemma {:induction false} SumByContents<T>(f: T -> real, xs: seq<T>, ys: seq<T>)
    requires multiset(xs) == multiset(ys)
    ensures SumOf(f, xs) == SumOf(f, ys)
    decreases |xs|
  {
    if xs == [] {
      assert |multiset(ys)| == 0;
    } else {
      assert xs[0] in multiset(ys);
      var k :| 0 <= k < |ys| && ys[k] == xs[0];
      MultisetWithout(xs, 0);
      MultisetWithout(ys, k);
      SumWithout(f, xs, 0);
      SumWithout(f, ys, k);
      SumByContents(f, Without(xs, 0), Without(ys, k));
    }
  }

  function One(x: Marks): real { if x.total.Some? then 1.0 else 0.0 }

  function Value(x: Marks): real { if x.total.Some? then x.total.value else 0.0 }

  function SquaredValue(x: Marks): real { if x.total.Some? then Square(x.total.value) else 0.0 }

  /** The sums over the entered totals as sums over the whole roster. */
  lemma {:induction false} SumsOverRoster(items: seq<Marks>)
    ensures Count(Totals(items)) == SumOf(One, items)
    ensures Sum(Totals(items)) == SumOf(Value, items)
    ensures Squares(Totals(items)) == SumOf(SquaredValue, items)
  {
    if items != [] {
      SumsOverRoster(items[1..]);
      FirstTotal(items);
    }
  }

  lemma FirstTotal(items: seq<Marks>)
    requires items != []
    ensures var first, rest := items[0], Totals(items[1..]);
            && Count(Totals(items)) == One(first) + Count(rest)
            && Sum(Totals(items)) == Value(first) + Sum(rest)
            && Squares(Totals(items)) == SquaredValue(first) + Squares(rest)
  {
    var first, rest := items[0], Totals(items[1..]);
    if first.total.Some? {
      assert Totals(items) == [first.total.value] + rest;
      assert Totals(items)[1..] == rest;
    } else {
      assert Totals(items) == rest;
    }
  }

  /** Rows in another order have the same number of totals and the same statistics. */
  lemma StatsIgnoreOrder(a: seq<Marks>, b: seq<Marks>, st: Stats)
    requires multiset(a) == multiset(b) && StatsOf(Totals(a), st)
    ensures |Totals(a)| == |Totals(b)| && StatsOf(Totals(b), st)
  {
    SumsIgnoreOrder(a, b);
    SpreadBySums(Totals(a), Totals(b), st.mean);
    StatsBySums(Totals(a), Totals(b), st);
  }

  lemma SpreadBySums(xs: seq<real>, ys: seq<real>, m: real)
    requires Count(xs) == Count(ys) && Sum(xs) == Sum(ys) && Squares(xs) == Squares(ys)
    ensures Spread(xs, m) == Spread(ys, m)
  {
    SpreadExpanded(xs, m);
    SpreadExpanded(ys, m);
  }

  lemma StatsBySums(xs: seq<real>, ys: seq<real>, st: Stats)
    requires Count(xs) == Count(ys) && Sum(xs) == Sum(ys) && Spread(xs, st.mean) == Spread(ys, st.mean)
    requires StatsOf(xs, st)
    ensures StatsOf(ys, st)
  {
  }

  lemma SumsIgnoreOrder(a: seq<Marks>, b: seq<Marks>)
    requires multiset(a) == multiset(b)
    ensures |Totals(a)| == |Totals(b)| && Count(Totals(a)) == Count(Totals(b))
    ensures Sum(Totals(a)) == Sum(Totals(b)) && Squares(Totals(a)) == Squares(Totals(b))
  {
    SumByContents(One, a, b);
    SumByContents(Value, a, b);
    SumByContents(SquaredValue, a, b);
    SumsOverRoster(a);
    SumsOverRoster(b);
  }

  lemma {:induction false} EnteredRows(items: seq<Marks>)
    ensures forall x :: x in WithTotals(items) <==> x in items && x.total.Some?
  {
    if items != [] {
      EnteredRows(items[1..]);
      assert forall x :: x in items <==> x == items[0] || x in items[1..];
    }
  }

  /** The totals are over the threshold of this row. */
  predicate OverFor(items: seq<Marks>, x: Marks) {
    Exceeds(Discriminant(Totals(items)), CountSquared(Totals(items)), x.max)
  }

  /** The threshold is passed for all entered rows or for none. */
  predicate OneVerdict(items: seq<Marks>) {
    forall x, y | x in items && y in items && x.total.Some? && y.total.Some? :: OverFor(items, x) == OverFor(items, y)
  }

  lemma OverForByStats(items: seq<Marks>, st: Stats, x: Marks)
    requires StatsOf(Totals(items), st) && Totals(items) != []
    ensures OverFor(items, x) == Over(st.sd, x.max)
  {
    VerdictByStats(Totals(items), x.max, st);
  }

  /** Whatever order the rows of a roster come in. */
  ghost predicate SameInAnyOrder(a: seq<Marks>, st: Stats)
    requires StatsOf(Totals(a), st)
  {
    forall b | multiset(b) == multiset(a) :: StatsOf(Totals(b), st) && Advises(b, st) == Advises(a, st)
  }

  /** The order of the roster does not matter if and only if fewer than five totals are entered or the
      threshold is passed for all entered rows or for none: the maximum that counts is that of whichever
      entered row comes first. */
  lemma OrderIrrelevantExactly(a: seq<Marks>, st: Stats)
    requires StatsOf(Totals(a), st)
    ensures SameInAnyOrder(a, st) <==> |Totals(a)| < 5 || OneVerdict(a)
  {
    if |Totals(a)| < 5 || OneVerdict(a) {
      forall b | multiset(b) == multiset(a)
        ensures StatsOf(Totals(b), st) && Advises(b, st) == Advises(a, st)
      {
        StatsIgnoreOrder(a, b, st);
        if |Totals(a)| >= 5 { FirstRowsAgree(a, b, st); }
      }
    } else {
      var x, y :| x in a && y in a && x.total.Some? && y.total.Some? && OverFor(a, x) != OverFor(a, y);
      OverForByStats(a, st, x);
      OverForByStats(a, st, y);
      var b := FirstIs(a, x, st);
      var c := FirstIs(a, y, st);
    }
  }

  lemma FirstRowsAgree(a: seq<Marks>, b: seq<Marks>, st: Stats)
    requires multiset(a) == multiset(b) && StatsOf(Totals(a), st) && StatsOf(Totals(b), st)
    requires |Totals(a)| == |Totals(b)| >= 5 && OneVerdict(a)
    ensures Advises(b, st) == Advises(a, st)
  {
    EnteredRows(a);
    EnteredRows(b);
    var x, y := WithTotals(a)[0], WithTotals(b)[0];
    assert x in WithTotals(a) && y in WithTotals(b);
    assert y in multiset(b);
    OverForByStats(a, st, x);
    OverForByStats(a, st, y);
  }

  /** The roster with row x moved to the front. */
  lemma FirstIs(a: seq<Marks>, x: Marks, st: Stats) returns (b: seq<Marks>)
    requires StatsOf(Totals(a), st) && x in a && x.total.Some? && |Totals(a)| >= 5
    ensures multiset(b) == multiset(a) && StatsOf(Totals(b), st) && Advises(b, st) == Over(st.sd, x.max)
  {
    var k :| 0 <= k < |a| && a[k] == x;
    b := [x] + Without(a, k);
    MultisetWithout(a, k);
    StatsIgnoreOrder(a, b, st);
    assert b[0] == x;
  }

  predicate UniformMax(items: seq<Marks>, max: real) {
    forall x | x in items && x.total.Some? :: x.max == max
  }

  /** With one maximum for all entered rows, the verdict does not depend on the order of the roster. */
  lemma OrderIrrelevant(a: seq<Marks>, max: real, st: Stats)
    requires StatsOf(Totals(a), st) && UniformMax(a, max)
    ensures SameInAnyOrder(a, st)
  {
    assert OneVerdict(a);
    OrderIrrelevantExactly(a, st);
  }

  lemma {:induction false} WithTotalsConcat(a: seq<Marks>, b: seq<Marks>)
    ensures WithTotals(a + b) == WithTotals(a) + WithTotals(b)
  {
    if a == [] {
      assert a + b == b;
    } else {
      assert (a + b)[1..] == a[1..] + b && (a + b)[0] == a[0];
      WithTotalsConcat(a[1..], b);
      var first := if a[0].total.Some? then [a[0]] else [];
      assert first + (WithTotals(a[1..]) + WithTotals(b)) == (first + WithTotals(a[1..])) + WithTotals(b);
    }
  }

  lemma {:induction false} OnlyTotalsConcat(a: seq<Marks>, b: seq<Marks>)
    ensures Totals(a + b) == Totals(a) + Totals(b)
  {
    if a == [] {
      assert a + b == b;
    } else {
      assert (a + b)[1..] == a[1..] + b && (a + b)[0] == a[0];
      OnlyTotalsConcat(a[1..], b);
      var first := if a[0].total.Some? then [a[0].total.value] else [];
      assert first + (Totals(a[1..]) + Totals(b)) == (first + Totals(a[1..])) + Totals(b);
    }
  }

  lemma TotalsConcat(a: seq<Marks>, b: seq<Marks>)
    ensures WithTotals(a + b) == WithTotals(a) + WithTotals(b) && Totals(a + b) == Totals(a) + Totals(b)
  {
    WithTotalsConcat(a, b);
    OnlyTotalsConcat(a, b);
  }

  /** A row without a total changes nothing, wherever it stands. */
  lemma UnenteredIgnored(a: seq<Marks>, x: Marks, b: seq<Marks>)
    requires x.total.None?
    ensures WithTotals(a + [x] + b) == WithTotals(a + b) && Totals(a + [x] + b) == Totals(a + b)
  {
    TotalsConcat(a + [x], b);
    TotalsConcat(a, [x]);
    TotalsConcat(a, b);
  }

  /** With different maxima it may: a roster whose verdict the order decides. */
  lemma FirstMaxCounts()
    ensures var low, high, st := Marks(Some(0.0), 10.0), Marks(Some(10.0), 20.0), Stats(5.0, 25.0, 5.0);
            var a, b := [low, high, low, high, low, high], [high, low, high, low, high, low];
            && multiset(a) == multiset(b) && StatsOf(Totals(a), st) && StatsOf(Totals(b), st)
            && Advises(a, st) && !Advises(b, st) && !SameInAnyOrder(a, st) && !OneVerdict(a)
  {
    var low, high, st := Marks(Some(0.0), 10.0), Marks(Some(10.0), 20.0), Stats(5.0, 25.0, 5.0);
    SixTotals(low, high);
    SixTotals(high, low);
    SixStats(0.0, 10.0);
    SixStats(10.0, 0.0);
    var a, b := [low, high, low, high, low, high], [high, low, high, low, high, low];
    assert multiset(b) == multiset(a);
    OrderIrrelevantExactly(a, st);
  }

  lemma SixTotals(x: Marks, y: Marks)
    requires x.total.Some? && y.total.Some?
    ensures WithTotals([x, y, x, y, x, y]) == [x, y, x, y, x, y]
    ensures Totals([x, y, x, y, x, y]) ==
            [x.total.value, y.total.value, x.total.value, y.total.value, x.total.value, y.total.value]
  {
    TotalsConcat([x], [y]);
    TotalsConcat([x] + [y], [x] + [y]);
    TotalsConcat([x] + [y] + ([x] + [y]), [x] + [y]);
    assert [x] + [y] + ([x] + [y]) + ([x] + [y]) == [x, y, x, y, x, y];
  }

  lemma SixSums(f: real -> real, x: real, y: real)
    ensures SumOf(f, [x, y, x, y, x, y]) == 3.0 * f(x) + 3.0 * f(y)
  {
    SumConcat(f, [x], [y]);
    SumConcat(f, [x] + [y], [x] + [y]);
    SumConcat(f, [x] + [y] + ([x] + [y]), [x] + [y]);
    assert [x] + [y] + ([x] + [y]) + ([x] + [y]) == [x, y, x, y, x, y];
    assert SumOf(f, [x]) == f(x) && SumOf(f, [y]) == f(y);
  }

  lemma SixStats(x: real, y: real)
    requires (x == 0.0 && y == 10.0) || (x == 10.0 && y == 0.0)
    ensures StatsOf([x, y, x, y, x, y], Stats(5.0, 25.0, 5.0))
  {
    SixSums(Id, x, y);
    SixSums(SquaredFrom(5.0), x, y);
  }
}
