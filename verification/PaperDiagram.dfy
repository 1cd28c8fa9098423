/**
 The diagram of an exam paper: which event moves it to which status, what else each event touches, and who
 can take a paper back from the board.
 */
module PaperDiagram {
  import opened Wrappers
  import opened ExamPapers
  import Runs

  // ---------------------------------------------------------------------------------------------
  // One event
  // ---------------------------------------------------------------------------------------------

  /** The arrows of the diagram. */
  predicate Enters(p: Paper, e: Event, s: Status) {
    match s
    case DRAFT => false
    case GENERATING => (e == Queue && p.status == DRAFT && !p.queued) || (e == GenerationStarts && p.queued)
    case GENERATED => e == GenerationEnds && p.finishing > 0
    case FAILED =>
      || (e == QueueDown && p.status == DRAFT && !p.queued)
      || (e == GenerationFails(true) && p.finishing > 0)
      || (e == GenerationFails(false) && p.drafting > 0)
    case SUBMITTED =>
      && e == Submit(p.createdBy) && p.workflow == BOARD_EXAM
      && p.status in {GENERATED, BOARD_RETURNED} && p.questions != []
    case BOARD_APPROVED =>
      || (e == Decide(true) && p.status == SUBMITTED)
      || (&& e == FacultyApprove(p.createdBy) && p.workflow == INTERNAL
          && p.status in {GENERATED, BOARD_RETURNED} && p.questions != [])
    case BOARD_RETURNED =>
      && p.status == SUBMITTED
      && (e == Decide(false) || (e.Scrutinize? && !e.approved && p.scrutinizer == Some(e.who)))
    case SEALED => e == Seal && p.status == BOARD_APPROVED
    case RELEASED => p.status == SEALED && (e == Release(true) || e == ForceRelease)
  }

  /** An event moves the paper along an arrow, or leaves its status alone. */
  lemma EveryMove(p: Paper, e: Event)
    ensures forall s :: Enters(p, e, s) ==> Step(p, e).status == s
    ensures (forall s :: !Enters(p, e, s)) ==> Step(p, e).status == p.status
  {
    var q := Step(p, e);
    if q.status != p.status {
      assert Enters(p, e, q.status);
    }
  }

  predicate Assigns(p: Paper, e: Event) {
    e.AssignScrutinizer? && p.workflow == BOARD_EXAM && p.status == SUBMITTED
  }

  /** What else an event touches: the scrutinizer, the sealed blob and the queue only by the one event for
      each, the workflow and the creator never. */
  lemma EverythingElse(p: Paper, e: Event)
    ensures var q := Step(p, e);
            && q.workflow == p.workflow && q.createdBy == p.createdBy
            && q.scrutinizer == (if Assigns(p, e) then Some(e.user) else p.scrutinizer)
            && q.blob == (if Enters(p, e, SEALED) then Some(p.questions) else p.blob)
            && q.queued == (p.queued || (e == Queue && p.status == DRAFT))
  {
  }

  /** The workers at work: a delivery starts before its questions are saved, saves them once, and is over
      when it ends, fails or dies; a rewrite is due until it lands. */
  lemma EveryWorker(p: Paper, e: Event)
    ensures var q := Step(p, e);
            && q.drafting - p.drafting ==
               (if e == GenerationStarts && p.queued then 1
                else if p.drafting > 0 && ((e.QuestionsSaved? && e.qs != []) || e == GenerationFails(false) ||
                                           e == GenerationDies(false)) then -1
                else 0)
            && q.finishing - p.finishing ==
               (if p.drafting > 0 && e.QuestionsSaved? && e.qs != [] then 1
                else if p.finishing > 0 && (e == GenerationEnds || e == GenerationFails(true) ||
                                            e == GenerationDies(true)) then -1
                else 0)
            && (forall id :: q.rewriting[id] == p.rewriting[id] +
                  if e == RewriteStarts(id) && Holds(p.questions, id) && Editable(p.status) then 1
                  else if e.RewriteLands? && e.id == id && p.rewriting[id] > 0 then -1
                  else 0)
  {
  }

  // ---------------------------------------------------------------------------------------------
  // The questions
  // ---------------------------------------------------------------------------------------------

  predicate TouchesQuestions(p: Paper, e: Event) {
    || (e.QuestionsSaved? && p.drafting > 0)
    || (e.RewriteLands? && e.id in p.rewriting)
    || ((e.Edit? || e.Delete?) && Editable(p.status))
  }

  lemma OthersLeaveQuestions(p: Paper, e: Event)
    requires !TouchesQuestions(p, e)
    ensures Step(p, e).questions == p.questions
  {
  }

  lemma SavedQuestionsFollow(p: Paper, qs: seq<Question>)
    requires p.drafting > 0
    ensures Step(p, QuestionsSaved(qs)).questions == p.questions + qs
  {
  }

  lemma {:induction false} WithoutConcat(a: seq<Question>, b: seq<Question>, id: nat)
    ensures Without(a + b, id) == Without(a, id) + Without(b, id)
  {
    if b == [] {
      assert a + b == a;
    } else {
      assert (a + b)[..|a + b| - 1] == a + b[..|b| - 1];
      WithoutConcat(a, b[..|b| - 1], id);
    }
  }

  lemma {:induction false} WithoutNone(a: seq<Question>, id: nat)
    requires !Holds(a, id)
    ensures Without(a, id) == a
  {
    if a != [] {
      assert !Holds(a[..|a| - 1], id);
      WithoutNone(a[..|a| - 1], id);
      assert a[|a| - 1].id != id;
    }
  }

  /** Question ids are unique: deleting one takes it out and leaves the others as they were. */
  lemma DeleteTakesOut(p: Paper, a: seq<Question>, q: Question, b: seq<Question>)
    requires p.questions == a + [q] + b && !Holds(a, q.id) && !Holds(b, q.id) && Editable(p.status)
    ensures Answer(p, Delete(q.id)) == Done && Step(p, Delete(q.id)).questions == a + b
  {
    assert p.questions[|a|] == q;
    WithoutConcat(a + [q], b, q.id);
    WithoutConcat(a, [q], q.id);
    WithoutNone(a, q.id);
    WithoutNone(b, q.id);
    assert [q][..0] == [];
    assert Without([q], q.id) == [];
  }

  lemma RewrittenInPlace(a: seq<Question>, q: Question, b: seq<Question>, text: string)
    requires !Holds(a, q.id) && !Holds(b, q.id)
    ensures Rewritten(a + [q] + b, q.id, text) == a + [Question(q.id, text)] + b
  {
    var qs := a + [q] + b;
    assert forall i | 0 <= i < |a| :: qs[i] == a[i] && a[i].id != q.id;
    assert forall i | 0 <= i < |b| :: qs[|a| + 1 + i] == b[i] && b[i].id != q.id;
    assert qs[|a|] == q;
  }

  /** Editing one, or a rewrite that lands, replaces its text where it stands. */
  lemma EditReplaces(p: Paper, a: seq<Question>, q: Question, b: seq<Question>, text: string)
    requires p.questions == a + [q] + b && !Holds(a, q.id) && !Holds(b, q.id)
    ensures Editable(p.status) ==>
      && Answer(p, Edit(q.id, Some(text))) == Done
      && Step(p, Edit(q.id, Some(text))).questions == a + [Question(q.id, text)] + b
    ensures q.id in p.rewriting ==> Step(p, RewriteLands(q.id, text)).questions == a + [Question(q.id, text)] + b
  {
    assert p.questions[|a|] == q;
    RewrittenInPlace(a, q, b, text);
  }

  /** Editing or deleting a question that is not there, or an edit without a change, does nothing. */
  lemma NothingToEdit(p: Paper, e: Event)
    requires (e.Edit? && (e.change.None? || !Holds(p.questions, e.id))) || (e.Delete? && !Holds(p.questions, e.id))
    ensures Step(p, e) == p
  {
  }

  // ---------------------------------------------------------------------------------------------
  // Taken back from the board
  // ---------------------------------------------------------------------------------------------

  /** The user of the last assignment that took effect: one made while the paper was SUBMITTED. */
  function LastAssigned(w: Workflow, who: User, run: seq<Event>, n: nat): Option<User>
    requires n <= |run|
  {
    if n == 0 then None
    else if run[n - 1].AssignScrutinizer? && w == BOARD_EXAM && At(Created(w, who), run, n - 1).status == SUBMITTED
    then Some(run[n - 1].user)
    else LastAssigned(w, who, run, n - 1)
  }

  lemma {:induction false} ScrutinizerIsAssigned(w: Workflow, who: User, run: seq<Event>, n: nat)
    requires n <= |run|
    ensures At(Created(w, who), run, n).scrutinizer == LastAssigned(w, who, run, n)
  {
    if n > 0 {
      ScrutinizerIsAssigned(w, who, run, n - 1);
      InternalStaysInternal(w, who, run, n - 1);
      EverythingElse(At(Created(w, who), run, n - 1), run[n - 1]);
    }
  }

  /** In every run an event takes the paper to BOARD_RETURNED if and only if the paper is SUBMITTED and the
      event is the board's return, or the return of the scrutinizer who was assigned last. */
  lemma ReturnedExactly(w: Workflow, who: User, run: seq<Event>, i: nat)
    requires i < |run| && At(Created(w, who), run, i).status != BOARD_RETURNED
    ensures At(Created(w, who), run, i + 1).status == BOARD_RETURNED <==>
            && At(Created(w, who), run, i).status == SUBMITTED
            && (run[i] == Decide(false) ||
                (run[i].Scrutinize? && !run[i].approved && LastAssigned(w, who, run, i) == Some(run[i].who)))
  {
    ScrutinizerIsAssigned(w, who, run, i);
    var p := At(Created(w, who), run, i);
    EveryMove(p, run[i]);
    assert At(Created(w, who), run, i + 1) == Step(p, run[i]);
    assert Enters(p, run[i], BOARD_RETURNED) <==>
      p.status == SUBMITTED &&
      (run[i] == Decide(false) || (run[i].Scrutinize? && !run[i].approved && p.scrutinizer == Some(run[i].who)));
    if At(Created(w, who), run, i + 1).status == BOARD_RETURNED {
      var s :| Enters(p, run[i], s);
      assert s == BOARD_RETURNED;
    }
  }
}
