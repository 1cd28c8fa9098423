/**
 The sections of an exam paper: the checks and the order given when a paper is created, and the grouping
 of its questions when it is shown.
 */
module Sections {

  import opened Wrappers

  /** The empty label stands for a question without one. */
  datatype Question = Question(id: nat, part: string)

  datatype Section = Section(part: string, totalQ: int, answerQ: int, order: int)

  // ---------------------------------------------------------------------------------------------
  // Grouping
  // ---------------------------------------------------------------------------------------------

  function WithLabel(qs: seq<Question>, part: string): seq<Question> {
    if qs == [] then []
    else WithLabel(qs[..|qs| - 1], part) + if qs[|qs| - 1].part == part then [qs[|qs| - 1]] else []
  }

  function GroupOf(qs: seq<Question>, part: string): seq<Question> {
    if part == "" then [] else WithLabel(qs, part)
  }

  function Grouped(qs: seq<Question>, sections: seq<Section>): seq<Question> {
    if sections == [] then []
    else Grouped(qs, sections[..|sections| - 1]) + GroupOf(qs, sections[|sections| - 1].part)
  }

  /** The cards from top to bottom: section by section in the order of the configuration, then the
      questions without a label. */
  function Shown(qs: seq<Question>, config: seq<Section>): seq<Question> {
    Grouped(qs, Sorted(config)) + WithLabel(qs, "")
  }

  method ShowSections(questions: seq<Question>, config: seq<Section>) returns (cards: seq<Question>)
    ensures cards == Shown(questions, config)
  {
    var bySection, uncat := GroupBySection(questions);
    var ordered := Sorted(config);
    cards := ShowGroups(questions, bySection, ordered);
    cards := cards + uncat;
  }

  method ShowGroups(ghost questions: seq<Question>, bySection: map<string, seq<Question>>, ordered: seq<Section>)
    returns (cards: seq<Question>)
    requires forall l :: GroupOf(questions, l) == if l in bySection then bySection[l] else []
    ensures cards == Grouped(questions, ordered)
  {
    cards := [];
    for i := 0 to |ordered|
      invariant cards == Grouped(questions, ordered[..i])
    {
      assert ordered[..i + 1][..i] == ordered[..i];
      cards := cards + if ordered[i].part in bySection then bySection[ordered[i].part] else [];
    }
    assert ordered[..|ordered|] == ordered;
  }

  method GroupBySection(questions: seq<Question>) returns (bySection: map<string, seq<Question>>, uncat: seq<Question>)
    ensures uncat == WithLabel(questions, "")
    ensures forall l :: GroupOf(questions, l) == if l in bySection then bySection[l] else []
  {
    bySection, uncat := map[], [];
    for i := 0 to |questions|
      invariant uncat == WithLabel(questions[..i], "")
      invariant forall l :: GroupOf(questions[..i], l) == if l in bySection then bySection[l] else []
    {
      var q, soFar := questions[i], questions[..i];
      assert questions[..i + 1][..i] == soFar;
      if q.part != "" {
        var group := if q.part in bySection then bySection[q.part] else [];
        bySection := bySection[q.part := group + [q]];
      } else {
        uncat := uncat + [q];
      }
      forall l
        ensures GroupOf(questions[..i + 1], l) == GroupOf(soFar, l) + if l != "" && q.part == l then [q] else []
      {
      }
    }
    assert questions[..|questions|] == questions;
  }

  /** How many sections a label has. */
  function Parts(config: seq<Section>, part: string): nat {
    if config == [] then 0
    else Parts(config[..|config| - 1], part) + if config[|config| - 1].part == part then 1 else 0
  }

  /** How often a question occurs. */
  function Times(qs: seq<Question>, q: Question): nat {
    if qs == [] then 0 else Times(qs[..|qs| - 1], q) + if qs[|qs| - 1] == q then 1 else 0
  }

  /** Every card is shown once for each section that carries its label, and once if it has none. */
  lemma ShownTimes(qs: seq<Question>, config: seq<Section>, q: Question)
    ensures Times(Shown(qs, config), q) == if q.part == "" then Times(qs, q) else Times(qs, q) * Parts(config, q.part)
  {
    TimesConcat(Grouped(qs, Sorted(config)), WithLabel(qs, ""), q);
    GroupedTimes(qs, Sorted(config), q);
    TimesWithLabel(qs, "", q);
    SortedParts(config, q.part);
  }

  /** With distinct labels a question is shown exactly as often as it was given, unless its label is one
      that the configuration lacks; then it is not shown at all. */
  lemma ShownOnceExactly(qs: seq<Question>, config: seq<Section>, q: Question)
    requires forall i, j | 0 <= i < j < |config| :: config[i].part != config[j].part
    ensures Times(Shown(qs, config), q) ==
            if q.part == "" || exists s :: s in config && s.part == q.part then Times(qs, q) else 0
  {
    ShownTimes(qs, config, q);
    PartsOfDistinct(config, q.part);
  }

  lemma {:induction false} TimesConcat(a: seq<Question>, b: seq<Question>, q: Question)
    ensures Times(a + b, q) == Times(a, q) + Times(b, q)
  {
    if b == [] {
      assert a + b == a;
    } else {
      TimesConcat(a, b[..|b| - 1], q);
      assert (a + b)[..|a + b| - 1] == a + b[..|b| - 1];
    }
  }

  lemma {:induction false} TimesWithLabel(qs: seq<Question>, part: string, q: Question)
    ensures Times(WithLabel(qs, part), q) == if q.part == part then Times(qs, q) else 0
  {
    if qs != [] {
      var front, last := qs[..|qs| - 1], qs[|qs| - 1];
      TimesWithLabel(front, part, q);
      var kept := WithLabel(front, part);
      assert (kept + [last])[..|kept|] == kept && kept + [] == kept;
    }
  }

  lemma {:induction false} GroupedTimes(qs: seq<Question>, sections: seq<Section>, q: Question)
    ensures Times(Grouped(qs, sections), q) == if q.part == "" then 0 else Times(qs, q) * Parts(sections, q.part)
  {
    if sections != [] {
      var front, last := sections[..|sections| - 1], sections[|sections| - 1];
      GroupedTimes(qs, front, q);
      TimesConcat(Grouped(qs, front), GroupOf(qs, last.part), q);
      TimesWithLabel(qs, last.part, q);
      OneMore(Times(qs, q), Parts(front, q.part));
    }
  }

  lemma OneMore(m: int, n: int)
    ensures m * (n + 1) == m * n + m
  {
  }

  lemma {:induction false} InsertedParts(s: Section, sorted: seq<Section>, part: string)
    ensures Parts(Inserted(s, sorted), part) == Parts(sorted, part) + if s.part == part then 1 else 0
  {
    if sorted == [] || sorted[|sorted| - 1].order <= s.order {
      assert (sorted + [s])[..|sorted|] == sorted;
    } else {
      var front, last := sorted[..|sorted| - 1], sorted[|sorted| - 1];
      InsertedParts(s, front, part);
      assert (Inserted(s, front) + [last])[..|Inserted(s, front)|] == Inserted(s, front);
    }
  }

  lemma {:induction false} SortedParts(config: seq<Section>, part: string)
    ensures Parts(Sorted(config), part) == Parts(config, part)
  {
    if config != [] {
      SortedParts(config[..|config| - 1], part);
      InsertedParts(config[|config| - 1], Sorted(config[..|config| - 1]), part);
    }
  }

  lemma {:induction false} PartsOfDistinct(config: seq<Section>, part: string)
    requires forall i, j | 0 <= i < j < |config| :: config[i].part != config[j].part
    ensures Parts(config, part) == if exists s :: s in config && s.part == part then 1 else 0
  {
    if config != [] {
      var front, last := config[..|config| - 1], config[|config| - 1];
      PartsOfDistinct(front, part);
      assert last in config;
      assert forall s | s in config :: s in front || s == last;
      assert forall s | s in front :: s in config;
    }
  }

  /** Where the questions with a label stand. */
  function Positions(qs: seq<Question>, part: string): seq<nat> {
    if qs == [] then []
    else Positions(qs[..|qs| - 1], part) + if qs[|qs| - 1].part == part then [|qs| - 1] else []
  }

  lemma {:induction false} PositionsAscend(qs: seq<Question>, part: string)
    ensures forall i | 0 <= i < |Positions(qs, part)| :: Positions(qs, part)[i] < |qs|
    ensures forall i, j | 0 <= i < j < |Positions(qs, part)| :: Positions(qs, part)[i] < Positions(qs, part)[j]
  {
    if qs != [] { PositionsAscend(qs[..|qs| - 1], part); }
  }

  /** Within its group the questions keep the order they came in. */
  lemma {:induction false} GroupKeepsOrder(qs: seq<Question>, part: string)
    ensures |WithLabel(qs, part)| == |Positions(qs, part)|
    ensures forall i | 0 <= i < |Positions(qs, part)| ::
              Positions(qs, part)[i] < |qs| && WithLabel(qs, part)[i] == qs[Positions(qs, part)[i]]
    ensures forall i, j | 0 <= i < j < |Positions(qs, part)| :: Positions(qs, part)[i] < Positions(qs, part)[j]
  {
    PositionsAscend(qs, part);
    if qs != [] { GroupKeepsOrder(qs[..|qs| - 1], part); }
  }

  // ---------------------------------------------------------------------------------------------
  // Sorting
  // ---------------------------------------------------------------------------------------------

  function Inserted(s: Section, sorted: seq<Section>): seq<Section> {
    if sorted == [] || sorted[|sorted| - 1].order <= s.order then sorted + [s]
    else Inserted(s, sorted[..|sorted| - 1]) + [sorted[|sorted| - 1]]
  }

  /** The stable sort by `order`. */
  function Sorted(sections: seq<Section>): seq<Section> {
    if sections == [] then [] else Inserted(sections[|sections| - 1], Sorted(sections[..|sections| - 1]))
  }

  predicate IsOrdered(sections: seq<Section>) {
    forall i, j | 0 <= i < j < |sections| :: sections[i].order <= sections[j].order
  }

  lemma {:induction false} InsertedIsOrdered(s: Section, sorted: seq<Section>)
    requires IsOrdered(sorted)
    ensures IsOrdered(Inserted(s, sorted))
    ensures forall x | x in Inserted(s, sorted) :: x == s || x in sorted
  {
    if !(sorted == [] || sorted[|sorted| - 1].order <= s.order) {
      var front, last := sorted[..|sorted| - 1], sorted[|sorted| - 1];
      InsertedIsOrdered(s, front);
      assert forall x | x in front :: x.order <= last.order;
      var most := Inserted(s, front);
      assert forall i | 0 <= i < |most| :: most[i] in most && most[i].order <= last.order;
    }
  }

  lemma {:induction false} InsertedIsPermutation(s: Section, sorted: seq<Section>)
    ensures multiset(Inserted(s, sorted)) == multiset(sorted) + multiset{s}
  {
    if !(sorted == [] || sorted[|sorted| - 1].order <= s.order) {
      var front := sorted[..|sorted| - 1];
      InsertedIsPermutation(s, front);
      assert sorted == front + [sorted[|sorted| - 1]];
    }
  }

  lemma {:induction false} SortedIsPermutation(sections: seq<Section>)
    ensures IsOrdered(Sorted(sections)) && multiset(Sorted(sections)) == multiset(sections)
  {
    if sections != [] {
      var front, last := sections[..|sections| - 1], sections[|sections| - 1];
      SortedIsPermutation(front);
      InsertedIsOrdered(last, Sorted(front));
      InsertedIsPermutation(last, Sorted(front));
      assert sections == front + [last];
    }
  }

  /** The sections with one order, as they come. */
  function OfOrder(sections: seq<Section>, order: int): seq<Section> {
    if sections == [] then []
    else
      OfOrder(sections[..|sections| - 1], order) +
      if sections[|sections| - 1].order == order then [sections[|sections| - 1]] else []
  }

  lemma OneMoreOfOrder(sections: seq<Section>, s: Section, order: int)
    ensures OfOrder(sections + [s], order) == OfOrder(sections, order) + if s.order == order then [s] else []
  {
    assert (sections + [s])[..|sections|] == sections;
  }

  lemma Commuted(sections: seq<Section>, s: Section, t: Section, order: int)
    requires s.order != t.order
    ensures var a, b := if s.order == order then [s] else [], if t.order == order then [t] else [];
            sections + a + b == sections + b + a
  {
  }

  lemma {:induction false} InsertedOfOrder(s: Section, sorted: seq<Section>, order: int)
    requires IsOrdered(sorted)
    ensures OfOrder(Inserted(s, sorted), order) == OfOrder(sorted, order) + if s.order == order then [s] else []
  {
    if sorted == [] || sorted[|sorted| - 1].order <= s.order {
      OneMoreOfOrder(sorted, s, order);
    } else {
      var front, last := sorted[..|sorted| - 1], sorted[|sorted| - 1];
      InsertedOfOrder(s, front, order);
      OneMoreOfOrder(Inserted(s, front), last, order);
      OneMoreOfOrder(front, last, order);
      assert sorted == front + [last];
      Commuted(OfOrder(front, order), s, last, order);
    }
  }

  /** The sort is stable: sections with the same order stay in the order they came in. */
  lemma {:induction false} SortedIsStable(sections: seq<Section>, order: int)
    ensures OfOrder(Sorted(sections), order) == OfOrder(sections, order)
  {
    if sections != [] {
      var front := sections[..|sections| - 1];
      SortedIsStable(front, order);
      SortedIsPermutation(front);
      InsertedOfOrder(sections[|sections| - 1], Sorted(front), order);
    }
  }

  // ---------------------------------------------------------------------------------------------
  // The order of the cards
  // ---------------------------------------------------------------------------------------------

  /** A label has one place in the order. */
  predicate OnePlaceEach(config: seq<Section>) {
    forall s, t | s in config && t in config && s.part == t.part :: s.order == t.order
  }

  predicate IsLabel(config: seq<Section>, part: string) {
    exists s :: s in config && s.part == part
  }

  /** Cards with a label of the configuration. */
  predicate AllLabelled(cards: seq<Question>, config: seq<Section>) {
    forall i | 0 <= i < |cards| :: cards[i].part != "" && IsLabel(config, cards[i].part)
  }

  /** No card comes before one whose section has a smaller order. */
  predicate CardsInOrder(cards: seq<Question>, config: seq<Section>) {
    forall i, j, s, t | 0 <= i < j < |cards| && s in config && t in config &&
                        s.part == cards[i].part != "" && t.part == cards[j].part != "" :: s.order <= t.order
  }

  lemma {:induction false} GroupHasLabel(qs: seq<Question>, part: string)
    ensures forall i | 0 <= i < |WithLabel(qs, part)| :: WithLabel(qs, part)[i].part == part
  {
    if qs != [] { GroupHasLabel(qs[..|qs| - 1], part); }
  }

  lemma {:induction false} GroupedInOrder(qs: seq<Question>, sections: seq<Section>, config: seq<Section>)
    requires IsOrdered(sections) && OnePlaceEach(config) && forall s | s in sections :: s in config
    ensures AllLabelled(Grouped(qs, sections), sections) && CardsInOrder(Grouped(qs, sections), config)
  {
    if sections != [] {
      var front, last := sections[..|sections| - 1], sections[|sections| - 1];
      GroupedInOrder(qs, front, config);
      GroupHasLabel(qs, last.part);
      assert last in sections && forall s | s in front :: s in sections && s.order <= last.order;
      AppendGroup(Grouped(qs, front), GroupOf(qs, last.part), front, last, config);
      forall part | IsLabel(front, part)
        ensures IsLabel(sections, part)
      {
        var s :| s in front && s.part == part;
        assert s in sections;
      }
    }
  }

  lemma AppendGroup(cards: seq<Question>, group: seq<Question>, front: seq<Section>, last: Section,
      config: seq<Section>)
    requires AllLabelled(cards, front) && CardsInOrder(cards, config) && OnePlaceEach(config)
    requires forall i | 0 <= i < |group| :: group[i].part == last.part
    requires last in config && forall s | s in front :: s in config && s.order <= last.order
    ensures CardsInOrder(cards + group, config)
  {
    var all := cards + group;
    forall i, j, s, t | 0 <= i < j < |all| && s in config && t in config &&
                         s.part == all[i].part != "" && t.part == all[j].part != ""
      ensures s.order <= t.order
    {
      if j >= |cards| {
        assert all[j] == group[j - |cards|];
        if i < |cards| {
          var s0 :| s0 in front && s0.part == cards[i].part;
          assert s.order == s0.order <= last.order == t.order;
        } else {
          assert all[i] == group[i - |cards|];
        }
      }
    }
  }

  /** The cards come section by section in the order of the configuration, and those without a label last. */
  lemma ShownInOrder(qs: seq<Question>, config: seq<Section>)
    requires OnePlaceEach(config)
    ensures CardsInOrder(Shown(qs, config), config)
    ensures forall i, j | 0 <= i < j < |Shown(qs, config)| ::
      Shown(qs, config)[i].part == "" ==> Shown(qs, config)[j].part == ""
  {
    SortedIsPermutation(config);
    forall s | s in Sorted(config)
      ensures s in config
    {
      assert s in multiset(Sorted(config));
    }
    GroupedInOrder(qs, Sorted(config), config);
    GroupHasLabel(qs, "");
    LabelledFirst(Grouped(qs, Sorted(config)), WithLabel(qs, ""), config);
  }

  lemma LabelledFirst(cards: seq<Question>, others: seq<Question>, config: seq<Section>)
    requires CardsInOrder(cards, config) && forall i | 0 <= i < |cards| :: cards[i].part != ""
    requires forall i | 0 <= i < |others| :: others[i].part == ""
    ensures CardsInOrder(cards + others, config)
    ensures forall i, j | 0 <= i < j < |cards + others| ::
      (cards + others)[i].part == "" ==> (cards + others)[j].part == ""
  {
  }

  /** In whatever order the created sections come back, they are shown in the order of creation. */
  lemma CreationOrderComesBack(rows: seq<Section>, stored: seq<Section>)
    requires multiset(stored) == multiset(Numbered(rows))
    ensures Sorted(stored) == Numbered(rows)
  {
    SortedIsPermutation(stored);
    OrderedIsUnique(Sorted(stored), Numbered(rows));
  }

  /** Sections numbered by their position have one ordered arrangement only. */
  lemma {:induction false} OrderedIsUnique(a: seq<Section>, b: seq<Section>)
    requires multiset(a) == multiset(b)
    requires IsOrdered(a) && forall i | 0 <= i < |b| :: b[i].order == i
    ensures a == b
  {
    if a == [] {
      assert |multiset(b)| == 0;
    } else {
      LastAgrees(a, b);
      var n := |a| - 1;
      assert a == a[..n] + [a[n]] && b == b[..n] + [a[n]];
      SameWithoutLast(a[..n], b[..n], a[n]);
      OrderedIsUnique(a[..n], b[..n]);
    }
  }

  lemma SameWithoutLast(a: seq<Section>, b: seq<Section>, x: Section)
    requires multiset(a + [x]) == multiset(b + [x])
    ensures multiset(a) == multiset(b)
  {
    assert multiset(a) == multiset(a + [x]) - multiset{x};
    assert multiset(b) == multiset(b + [x]) - multiset{x};
  }

  lemma LastAgrees(a: seq<Section>, b: seq<Section>)
    requires multiset(a) == multiset(b) && a != []
    requires IsOrdered(a) && forall i | 0 <= i < |b| :: b[i].order == i
    ensures |a| == |b| && a[|a| - 1] == b[|a| - 1]
  {
    assert |multiset(a)| == |multiset(b)|;
    var n := |a| - 1;
    assert b[n] in multiset(a) && a[n] in multiset(b);
    var k :| 0 <= k < |a| && a[k] == b[n];
    var j :| 0 <= j < |b| && b[j] == a[n];
    assert n == a[k].order <= a[n].order == j;
  }

  // ---------------------------------------------------------------------------------------------
  // Creating a paper
  // ---------------------------------------------------------------------------------------------

  /** What is sent: the sections numbered by their position. */
  function Numbered(rows: seq<Section>): (r: seq<Section>)
    ensures |r| == |rows|
    ensures forall i | 0 <= i < |r| ::
      && r[i].order == i && r[i].part == rows[i].part
      && r[i].totalQ == rows[i].totalQ && r[i].answerQ == rows[i].answerQ
  {
    seq(|rows|, i requires 0 <= i < |rows| => rows[i].(order := i))
  }

  datatype Form = Form(
    boardExam: bool,
    bloomSum: real,
    courseChosen: bool,
    units: seq<Option<int>>,        // parseInt of each entry between commas
    mcq: int, short: int, long: int, problem: int,
    sectionLayout: bool,
    sections: seq<Section>)

  datatype Refusal = BloomSum | NoCourse | NoUnits | NoQuestions | BoardMcqOnly | TooManyAnswers(part: string)

  datatype Payload = Payload(units: seq<int>, sections: Option<seq<Section>>)

  datatype Submission = Refused(why: Refusal) | Sent(payload: Payload)

  predicate IsUnit(u: Option<int>) {
    u.Some? && u.value > 0
  }

  predicate HasUnit(f: Form) {
    exists i :: 0 <= i < |f.units| && IsUnit(f.units[i])
  }

  predicate Answerable(s: Section) {
    s.answerQ <= s.totalQ
  }

  predicate FirstBad(rows: seq<Section>, k: int) {
    0 <= k < |rows| && !Answerable(rows[k]) && forall i | 0 <= i < k :: Answerable(rows[i])
  }

  function Units(us: seq<Option<int>>): seq<int> {
    if us == [] then []
    else Units(us[..|us| - 1]) + if IsUnit(us[|us| - 1]) then [us[|us| - 1].value] else []
  }

  lemma {:induction false} UnitsConcat(a: seq<Option<int>>, b: seq<Option<int>>)
    ensures Units(a + b) == Units(a) + Units(b)
  {
    if b == [] {
      assert a + b == a;
    } else {
      assert (a + b)[..|a + b| - 1] == a + b[..|b| - 1];
      UnitsConcat(a, b[..|b| - 1]);
    }
  }

  /** Each entry is kept where it stands if it is a positive number, and left out otherwise. */
  lemma UnitsInOrder(a: seq<Option<int>>, u: Option<int>, b: seq<Option<int>>)
    ensures Units(a + [u] + b) == Units(a) + (if u.Some? && u.value > 0 then [u.value] else []) + Units(b)
  {
    UnitsConcat(a + [u], b);
    UnitsConcat(a, [u]);
    assert [u][..0] == [];
  }

  predicate SumsToHundred(f: Form) {
    99.0 <= f.bloomSum <= 101.0
  }

  predicate OnlyMcq(f: Form) {
    f.mcq > 0 && f.short == 0 && f.long == 0 && f.problem == 0
  }

  /** What every check before those of the sections asks for. */
  predicate Sound(f: Form) {
    && SumsToHundred(f) && f.courseChosen && HasUnit(f)
    && f.mcq + f.short + f.long + f.problem != 0
    && !(f.boardExam && OnlyMcq(f))
  }

  /** A form is sent exactly if it passes every check, and then every section asks for no more answers
      than it has questions and carries its position as its order.  A form that is refused is told the
      first check it fails, and the first section if it is one of those. */
  method HandleSubmit(f: Form) returns (r: Submission)
    ensures r.Sent? <==> Sound(f) && (f.sectionLayout ==> forall s | s in f.sections :: Answerable(s))
    ensures r.Sent? ==>
      r.payload == Payload(Units(f.units), if f.sectionLayout then Some(Numbered(f.sections)) else None)
    ensures r == Refused(BloomSum) <==> !SumsToHundred(f)
    ensures r == Refused(NoCourse) <==> SumsToHundred(f) && !f.courseChosen
    ensures r == Refused(NoUnits) <==> SumsToHundred(f) && f.courseChosen && !HasUnit(f)
    ensures r == Refused(BoardMcqOnly) ==> f.boardExam && OnlyMcq(f)
    ensures r == Refused(NoQuestions) ==> f.mcq + f.short + f.long + f.problem == 0
    ensures r.Refused? && r.why.TooManyAnswers? ==>
      Sound(f) && f.sectionLayout && exists k :: FirstBad(f.sections, k) && f.sections[k].part == r.why.part
  {
    var off := f.bloomSum - 100.0;
    if (if off < 0.0 then -off else off) > 1.0 {
      return Refused(BloomSum);
    }
    if !f.courseChosen {
      return Refused(NoCourse);
    }
    var units := [];
    for i := 0 to |f.units|
      invariant units == Units(f.units[..i])
      invariant units == [] <==> forall j | 0 <= j < i :: !IsUnit(f.units[j])
    {
      assert f.units[..i + 1][..i] == f.units[..i];
      if IsUnit(f.units[i]) {
        units := units + [f.units[i].value];
      }
    }
    assert f.units[..|f.units|] == f.units;
    if |units| == 0 {
      return Refused(NoUnits);
    }
    if f.mcq + f.short + f.long + f.problem == 0 {
      return Refused(NoQuestions);
    }
    if f.boardExam && f.mcq > 0 && f.short == 0 && f.long == 0 && f.problem == 0 {
      return Refused(BoardMcqOnly);
    }
    if f.sectionLayout {
      for i := 0 to |f.sections|
        invariant forall j | 0 <= j < i :: Answerable(f.sections[j])
      {
        if f.sections[i].answerQ > f.sections[i].totalQ {
          assert FirstBad(f.sections, i) && f.sections[i] in f.sections;
          return Refused(TooManyAnswers(f.sections[i].part));
        }
      }
    }
    return Sent(Payload(units, if f.sectionLayout then Some(Numbered(f.sections)) else None));
  }
}
