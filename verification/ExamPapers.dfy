/**
 The life of an exam paper: the service calls that move it through the human gates, the generation and
 regeneration workers, and the actions that the faculty and board pages offer.

 A service call is one step.  A worker is not: it reads the paper, waits for the language model and
 writes later, so its writes are steps of their own.  Roles are left abstract.
 */
module ExamPapers {

  import opened Wrappers
  import Runs

  type User = nat

  datatype Workflow = INTERNAL | BOARD_EXAM

  datatype Status =
    DRAFT | GENERATING | GENERATED | FAILED | SUBMITTED | BOARD_APPROVED | BOARD_RETURNED | SEALED | RELEASED

  /** `text` stands for everything of a question that can be rewritten. */
  datatype Question = Question(id: nat, text: string)

  /** `drafting`, `finishing` and `rewriting` count the workers at work on the paper: deliveries of its
      generation task before and after they save their questions, which each does once, and for each
      question the regenerations that have passed their status check but have not written yet. */
  datatype Paper = Paper(
    workflow: Workflow,
    createdBy: User,
    status: Status,
    scrutinizer: Option<User>,
    questions: seq<Question>,
    blob: Option<seq<Question>>,
    queued: bool,
    drafting: nat,
    finishing: nat,
    rewriting: multiset<nat>)

  function Created(w: Workflow, who: User): Paper {
    Paper(w, who, DRAFT, None, [], None, false, 0, 0, multiset{})
  }

  datatype Event =
    | Queue                                         // create(): the generation task is sent
    | QueueDown                                     // create(): the broker does not answer
    | GenerationStarts                              // a delivery or a retry
    | QuestionsSaved(qs: seq<Question>)
    | GenerationEnds
    | GenerationFails(saved: bool)
    | GenerationDies(saved: bool)
    | RewriteStarts(id: nat)
    | RewriteLands(id: nat, text: string)
    | Edit(id: nat, change: Option<string>)
    | Delete(id: nat)
    | Submit(who: User)
    | FacultyApprove(who: User)
    | Decide(approved: bool)
    | AssignScrutinizer(user: User)
    | Scrutinize(who: User, approved: bool)
    | Seal
    | Release(due: bool)                            // the scheduled task
    | ForceRelease

  datatype Verdict =
    Done | NOT_FOUND | FORBIDDEN | INVALID_WORKFLOW | INVALID_STATUS | NO_QUESTIONS | NO_CHANGES | TOO_EARLY

  predicate Editable(s: Status) {
    s == GENERATED || s == BOARD_RETURNED
  }

  predicate Locked(s: Status) {
    s == SUBMITTED || s == BOARD_APPROVED || s == SEALED || s == RELEASED
  }

  predicate Holds(qs: seq<Question>, id: nat) {
    exists i :: 0 <= i < |qs| && qs[i].id == id
  }

  function Rewritten(qs: seq<Question>, id: nat, text: string): seq<Question> {
    seq(|qs|, i requires 0 <= i < |qs| => if qs[i].id == id then Question(id, text) else qs[i])
  }

  function Without(qs: seq<Question>, id: nat): seq<Question> {
    if qs == [] then []
    else Without(qs[..|qs| - 1], id) + if qs[|qs| - 1].id == id then [] else [qs[|qs| - 1]]
  }

  /** The deliveries of the generation task that have, or have not, saved their questions. */
  function AtWork(p: Paper, saved: bool): nat {
    if saved then p.finishing else p.drafting
  }

  function OneLess(p: Paper, saved: bool): Paper
    requires AtWork(p, saved) > 0
  {
    if saved then p.(finishing := p.finishing - 1) else p.(drafting := p.drafting - 1)
  }

  /** The answer to an event, as the tests of each operation give it, in their order; for a worker's step,
      whether it can happen. */
  function Answer(p: Paper, e: Event): Verdict {
    match e
    case Queue => if p.status == DRAFT && !p.queued then Done else INVALID_STATUS
    case QueueDown => if p.status == DRAFT && !p.queued then Done else INVALID_STATUS
    case GenerationStarts => if p.queued then Done else NOT_FOUND
    case QuestionsSaved(qs) => if p.drafting > 0 && qs != [] then Done else NO_QUESTIONS
    case GenerationEnds => if p.finishing > 0 then Done else NOT_FOUND
    case GenerationFails(saved) => if AtWork(p, saved) > 0 then Done else NOT_FOUND
    case GenerationDies(saved) => if AtWork(p, saved) > 0 then Done else NOT_FOUND
    case RewriteStarts(id) =>
      if !Holds(p.questions, id) then NOT_FOUND else if !Editable(p.status) then INVALID_STATUS else Done
    case RewriteLands(id, _) => if id in p.rewriting then Done else NOT_FOUND
    case Edit(id, change) =>
      if !Editable(p.status) then INVALID_STATUS
      else if !Holds(p.questions, id) then NOT_FOUND
      else if change.None? then NO_CHANGES
      else Done
    case Delete(id) =>
      if !Editable(p.status) then INVALID_STATUS else if !Holds(p.questions, id) then NOT_FOUND else Done
    case Submit(who) =>
      if p.createdBy != who then FORBIDDEN
      else if p.workflow == INTERNAL then INVALID_WORKFLOW
      else if !Editable(p.status) then INVALID_STATUS
      else if p.questions == [] then NO_QUESTIONS
      else Done
    case FacultyApprove(who) =>
      if p.createdBy != who then FORBIDDEN
      else if p.workflow != INTERNAL then INVALID_WORKFLOW
      else if !Editable(p.status) then INVALID_STATUS
      else if p.questions == [] then NO_QUESTIONS
      else Done
    case Decide(_) => if p.status != SUBMITTED then INVALID_STATUS else Done
    case AssignScrutinizer(_) =>
      if p.workflow != BOARD_EXAM then INVALID_WORKFLOW else if p.status != SUBMITTED then INVALID_STATUS else Done
    case Scrutinize(who, _) =>
      if p.scrutinizer != Some(who) then FORBIDDEN else if p.status != SUBMITTED then INVALID_STATUS else Done
    case Seal => if p.status != BOARD_APPROVED then INVALID_STATUS else Done
    case Release(due) => if p.status == SEALED && !due then TOO_EARLY else Done
    case ForceRelease => if p.status != SEALED then INVALID_STATUS else Done
  }

  /** What an event that is Done does to the paper. */
  function Effect(p: Paper, e: Event): Paper
    requires Answer(p, e) == Done
  {
    match e
    case Queue => p.(status := GENERATING, queued := true)
    case QueueDown => p.(status := FAILED)
    case GenerationStarts => p.(status := GENERATING, drafting := p.drafting + 1)
    case QuestionsSaved(qs) =>
      p.(questions := p.questions + qs, drafting := p.drafting - 1, finishing := p.finishing + 1)
    case GenerationEnds => OneLess(p, true).(status := GENERATED)
    case GenerationFails(saved) => OneLess(p, saved).(status := FAILED)
    case GenerationDies(saved) => OneLess(p, saved)
    case RewriteStarts(id) => p.(rewriting := p.rewriting + multiset{id})
    case RewriteLands(id, text) =>
      p.(questions := Rewritten(p.questions, id, text), rewriting := p.rewriting - multiset{id})
    case Edit(id, change) => p.(questions := Rewritten(p.questions, id, change.value))
    case Delete(id) => p.(questions := Without(p.questions, id))
    case Submit(_) => p.(status := SUBMITTED)
    case FacultyApprove(_) => p.(status := BOARD_APPROVED)
    case Decide(approved) => p.(status := if approved then BOARD_APPROVED else BOARD_RETURNED)
    case AssignScrutinizer(user) => p.(scrutinizer := Some(user))
    case Scrutinize(_, approved) => if approved then p else p.(status := BOARD_RETURNED)
    case Seal => p.(status := SEALED, blob := Some(p.questions))
    case Release(_) => if p.status == SEALED then p.(status := RELEASED) else p
    case ForceRelease => p.(status := RELEASED)
  }

  function Step(p: Paper, e: Event): Paper {
    if Answer(p, e) == Done then Effect(p, e) else p
  }

  /** The paper after the first n events of a run. */
  function At(p: Paper, run: seq<Event>, n: nat): Paper
    requires n <= |run|
  {
    Runs.At(Step, p, run, n)
  }

  function After(p: Paper, run: seq<Event>): Paper
    decreases run
  {
    if run == [] then p else After(Step(p, run[0]), run[1..])
  }

  lemma {:induction false} AfterIsAt(p: Paper, run: seq<Event>)
    ensures After(p, run) == At(p, run, |run|)
    decreases run
  {
    if run != [] {
      AfterIsAt(Step(p, run[0]), run[1..]);
      Runs.AtFirst(Step, p, run, |run| - 1);
    }
  }

  // ---------------------------------------------------------------------------------------------
  // The service
  // ---------------------------------------------------------------------------------------------

  /** The row of one paper and the calls that the service offers on it. */
  class ExamService {
    var paper: Paper

    constructor (w: Workflow, who: User)
      ensures paper == Created(w, who)
    {
      paper := Created(w, who);
    }

    /** The dispatch at the end of create(). */
    method Dispatch(brokerAnswers: bool)
      requires paper.status == DRAFT && !paper.queued
      modifies this
      ensures paper == Step(old(paper), if brokerAnswers then Queue else QueueDown)
      ensures paper == if brokerAnswers then old(paper).(status := GENERATING, queued := true)
                       else old(paper).(status := FAILED)
    {
      paper := paper.(status := GENERATING);
      if brokerAnswers {
        paper := paper.(queued := true);
      } else {
        paper := paper.(status := FAILED);
      }
    }

    method DeleteQuestion(id: nat) returns (v: Verdict)
      modifies this
      ensures v == Answer(old(paper), Delete(id)) && paper == Step(old(paper), Delete(id))
      ensures v == if old(paper).status !in {GENERATED, BOARD_RETURNED} then INVALID_STATUS
                   else if !Holds(old(paper).questions, id) then NOT_FOUND
                   else Done
      ensures v != Done ==> paper == old(paper)
    {
      if paper.status !in {GENERATED, BOARD_RETURNED} {
        return INVALID_STATUS;
      }
      var kept, i := [], 0;
      while i < |paper.questions|
        invariant 0 <= i <= |paper.questions| && paper == old(paper)
        invariant kept == Without(paper.questions[..i], id)
        invariant |kept| <= i && (|kept| == i <==> !Holds(paper.questions[..i], id))
      {
        var q := paper.questions[i];
        assert paper.questions[..i + 1][..i] == paper.questions[..i];
        assert paper.questions[..i + 1][i] == q;
        assert Holds(paper.questions[..i + 1], id) <==> Holds(paper.questions[..i], id) || q.id == id by {
          HoldsOneMore(paper.questions[..i], q, id);
          assert paper.questions[..i] + [q] == paper.questions[..i + 1];
        }
        if q.id != id {
          kept := kept + [q];
        }
        i := i + 1;
      }
      assert paper.questions[..i] == paper.questions;
      if |kept| == |paper.questions| {
        return NOT_FOUND;
      }
      paper := paper.(questions := kept);
      return Done;
    }

    method SubmitForReview(who: User) returns (v: Verdict)
      modifies this
      ensures v == Answer(old(paper), Submit(who)) && paper == Step(old(paper), Submit(who))
      ensures v == if old(paper).createdBy != who then FORBIDDEN
                   else if old(paper).workflow != BOARD_EXAM then INVALID_WORKFLOW
                   else if old(paper).status !in {GENERATED, BOARD_RETURNED} then INVALID_STATUS
                   else if old(paper).questions == [] then NO_QUESTIONS
                   else Done
      ensures paper == if v == Done then old(paper).(status := SUBMITTED) else old(paper)
    {
      if paper.createdBy != who {
        return FORBIDDEN;
      }
      if paper.workflow == INTERNAL {
        return INVALID_WORKFLOW;
      }
      if paper.status !in {GENERATED, BOARD_RETURNED} {
        return INVALID_STATUS;
      }
      if |paper.questions| == 0 {
        return NO_QUESTIONS;
      }
      paper := paper.(status := SUBMITTED);
      return Done;
    }

    method FacultyApproves(who: User) returns (v: Verdict)
      modifies this
      ensures v == Answer(old(paper), FacultyApprove(who)) && paper == Step(old(paper), FacultyApprove(who))
      ensures v == if old(paper).createdBy != who then FORBIDDEN
                   else if old(paper).workflow != INTERNAL then INVALID_WORKFLOW
                   else if old(paper).status !in {GENERATED, BOARD_RETURNED} then INVALID_STATUS
                   else if old(paper).questions == [] then NO_QUESTIONS
                   else Done
      ensures paper == if v == Done then old(paper).(status := BOARD_APPROVED) else old(paper)
    {
      if paper.createdBy != who {
        return FORBIDDEN;
      }
      if paper.workflow != INTERNAL {
        return INVALID_WORKFLOW;
      }
      if paper.status !in {GENERATED, BOARD_RETURNED} {
        return INVALID_STATUS;
      }
      if |paper.questions| == 0 {
        return NO_QUESTIONS;
      }
      paper := paper.(status := BOARD_APPROVED);
      return Done;
    }

    method BoardDecide(approved: bool) returns (v: Verdict)
      modifies this
      ensures v == Answer(old(paper), Decide(approved)) && paper == Step(old(paper), Decide(approved))
      ensures v == if old(paper).status != SUBMITTED then INVALID_STATUS else Done
      ensures paper == if v != Done then old(paper)
                       else old(paper).(status := if approved then BOARD_APPROVED else BOARD_RETURNED)
    {
      if paper.status != SUBMITTED {
        return INVALID_STATUS;
      }
      paper := paper.(status := if approved then BOARD_APPROVED else BOARD_RETURNED);
      return Done;
    }

    method Scrutinizes(who: User, approved: bool) returns (v: Verdict)
      modifies this
      ensures v == Answer(old(paper), Scrutinize(who, approved)) && paper == Step(old(paper), Scrutinize(who, approved))
      ensures v == if old(paper).scrutinizer != Some(who) then FORBIDDEN
                   else if old(paper).status != SUBMITTED then INVALID_STATUS
                   else Done
      ensures paper == if v != Done || approved then old(paper) else old(paper).(status := BOARD_RETURNED)
    {
      if paper.scrutinizer != Some(who) {
        return FORBIDDEN;
      }
      if paper.status != SUBMITTED {
        return INVALID_STATUS;
      }
      if !approved {
        paper := paper.(status := BOARD_RETURNED);
      }
      return Done;
    }

    method SealPaper() returns (v: Verdict)
      modifies this
      ensures v == Answer(old(paper), Seal) && paper == Step(old(paper), Seal)
      ensures v == if old(paper).status != BOARD_APPROVED then INVALID_STATUS else Done
      ensures paper == if v != Done then old(paper)
                       else old(paper).(status := SEALED, blob := Some(old(paper).questions))
    {
      if paper.status != BOARD_APPROVED {
        return INVALID_STATUS;
      }
      var payload := paper.questions;
      paper := paper.(status := SEALED, blob := Some(payload));
      return Done;
    }

    /** The scheduled release: anything but a sealed paper is left as it is, without an error. */
    method ReleasePaper(due: bool) returns (v: Verdict)
      modifies this
      ensures v == Answer(old(paper), Release(due)) && paper == Step(old(paper), Release(due))
      ensures v == if old(paper).status == SEALED && !due then TOO_EARLY else Done
      ensures paper == if old(paper).status == SEALED && due then old(paper).(status := RELEASED) else old(paper)
    {
      if paper.status != SEALED {
        return Done;
      }
      if !due {
        return TOO_EARLY;
      }
      paper := paper.(status := RELEASED);
      return Done;
    }

    method ForceReleasePaper() returns (v: Verdict)
      modifies this
      ensures v == Answer(old(paper), ForceRelease) && paper == Step(old(paper), ForceRelease)
      ensures v == if old(paper).status != SEALED then INVALID_STATUS else Done
      ensures paper == if v == Done then old(paper).(status := RELEASED) else old(paper)
    {
      if paper.status != SEALED {
        return INVALID_STATUS;
      }
      paper := paper.(status := RELEASED);
      return Done;
    }

    method AssignsScrutinizer(user: User) returns (v: Verdict)
      modifies this
      ensures v == Answer(old(paper), AssignScrutinizer(user)) && paper == Step(old(paper), AssignScrutinizer(user))
      ensures v == if old(paper).workflow != BOARD_EXAM then INVALID_WORKFLOW
                   else if old(paper).status != SUBMITTED then INVALID_STATUS
                   else Done
      ensures paper == if v == Done then old(paper).(scrutinizer := Some(user)) else old(paper)
    {
      if paper.workflow != BOARD_EXAM {
        return INVALID_WORKFLOW;
      }
      if paper.status != SUBMITTED {
        return INVALID_STATUS;
      }
      paper := paper.(scrutinizer := Some(user));
      return Done;
    }

    method UpdateQuestion(id: nat, change: Option<string>) returns (v: Verdict)
      modifies this
      ensures v == Answer(old(paper), Edit(id, change)) && paper == Step(old(paper), Edit(id, change))
      ensures v == if old(paper).status !in {GENERATED, BOARD_RETURNED} then INVALID_STATUS
                   else if !Holds(old(paper).questions, id) then NOT_FOUND
                   else if change.None? then NO_CHANGES
                   else Done
      ensures v != Done ==> paper == old(paper)
    {
      if paper.status !in {GENERATED, BOARD_RETURNED} {
        return INVALID_STATUS;
      }
      if !Holds(paper.questions, id) {
        return NOT_FOUND;
      }
      if change.None? {
        return NO_CHANGES;
      }
      paper := paper.(questions := Rewritten(paper.questions, id, change.value));
      return Done;
    }
  }

  lemma HoldsOneMore(qs: seq<Question>, q: Question, id: nat)
    ensures Holds(qs + [q], id) <==> Holds(qs, id) || q.id == id
  {
    if Holds(qs, id) {
      var i :| 0 <= i < |qs| && qs[i].id == id;
      assert (qs + [q])[i].id == id;
    }
    assert (qs + [q])[|qs|] == q;
  }

  // ---------------------------------------------------------------------------------------------
  // The gates
  // ---------------------------------------------------------------------------------------------

  /** The statuses that a run goes through. */
  function Statuses(p: Paper, run: seq<Event>): seq<Status> {
    seq(|run| + 1, k requires 0 <= k <= |run| => At(p, run, k).status)
  }

  /** Event i brought the paper to the status s, and there it stayed until after the first n events. */
  predicate Entered(ts: seq<Status>, i: nat, n: nat, s: Status) {
    i < n < |ts| && ts[i] != s && forall k | i < k <= n :: ts[k] == s
  }

  lemma {:induction false} LastEntry(ts: seq<Status>, n: nat, s: Status)
    requires n < |ts| && ts[0] != s && ts[n] == s
    ensures exists i: nat :: Entered(ts, i, n, s)
  {
    var m := n - 1;
    if ts[m] == s {
      LastEntry(ts, m, s);
      var i: nat :| Entered(ts, i, m, s);
      assert Entered(ts, i, n, s);
    } else {
      assert Entered(ts, m, n, s);
    }
  }

  predicate KeepsToWorkflow(p: Paper, w: Workflow, who: User) {
    && p.workflow == w && p.createdBy == who
    && (w == INTERNAL ==> p.status != SUBMITTED && p.status != BOARD_RETURNED && p.scrutinizer == None)
    && (!p.queued ==> p.status in {DRAFT, FAILED} && p.questions == [] && p.drafting == p.finishing == 0)
  }

  lemma KeepsStep(p: Paper, e: Event, w: Workflow, who: User)
    requires KeepsToWorkflow(p, w, who)
    ensures KeepsToWorkflow(Step(p, e), w, who)
  {
  }

  /** No run changes the workflow or the creator, and an INTERNAL paper is never put before the board: it
      is never SUBMITTED or BOARD_RETURNED and never has a scrutinizer. */
  lemma {:induction false} InternalStaysInternal(w: Workflow, who: User, run: seq<Event>, n: nat)
    requires n <= |run|
    ensures KeepsToWorkflow(At(Created(w, who), run, n), w, who)
  {
    if n > 0 {
      InternalStaysInternal(w, who, run, n - 1);
      KeepsStep(At(Created(w, who), run, n - 1), run[n - 1], w, who);
    }
  }

  /** The events a, b, c took the paper through approval, sealing and release, with no other change of
      status from a on. */
  ghost predicate PassedGates(w: Workflow, who: User, run: seq<Event>, a: nat, b: nat, c: nat) {
    var p := Created(w, who);
    var ts := Statuses(p, run);
    && Entered(ts, a, b, BOARD_APPROVED)
    && Entered(ts, b, c, SEALED) && run[b] == Seal
    && Entered(ts, c, |run|, RELEASED) && (run[c] == Release(true) || run[c] == ForceRelease)
    && (if w == INTERNAL then run[a] == FacultyApprove(who)
        else run[a] == Decide(true) &&
             exists s: nat :: Entered(ts, s, a, SUBMITTED) && run[s] == Submit(who) && At(p, run, s).questions != [])
  }

  /** Whatever people and workers do, a paper that is RELEASED was approved, then sealed, then released,
      with nothing in between; a BOARD_EXAM paper was approved by the board, straight after its creator
      submitted it with questions, an INTERNAL one by its creator. */
  lemma ReleasedThroughTheGates(w: Workflow, who: User, run: seq<Event>)
    requires After(Created(w, who), run).status == RELEASED
    ensures exists a: nat, b: nat, c: nat :: PassedGates(w, who, run, a, b, c)
  {
    var p := Created(w, who);
    var ts := Statuses(p, run);
    AfterIsAt(p, run);
    var c := EntryOf(w, who, run, |run|, RELEASED);
    var b := EntryOf(w, who, run, c, SEALED);
    var a := EntryOf(w, who, run, b, BOARD_APPROVED);
    if w == BOARD_EXAM {
      var s := EntryOf(w, who, run, a, SUBMITTED);
      assert Entered(ts, s, a, SUBMITTED) && run[s] == Submit(who) && At(p, run, s).questions != [];
    }
    assert PassedGates(w, who, run, a, b, c);
  }

  /** The event that brought the paper to a status behind the first gate, and the status it came from. */
  lemma EntryOf(w: Workflow, who: User, run: seq<Event>, n: nat, s: Status) returns (i: nat)
    requires n <= |run| && At(Created(w, who), run, n).status == s && Locked(s)
    ensures Entered(Statuses(Created(w, who), run), i, n, s)
    ensures var q := At(Created(w, who), run, i);
            && (s == RELEASED ==> q.status == SEALED && (run[i] == Release(true) || run[i] == ForceRelease))
            && (s == SEALED ==> q.status == BOARD_APPROVED && run[i] == Seal)
            && (s == BOARD_APPROVED && w == BOARD_EXAM ==> q.status == SUBMITTED && run[i] == Decide(true))
            && (s == BOARD_APPROVED && w == INTERNAL ==> run[i] == FacultyApprove(who))
            && (s == SUBMITTED ==> run[i] == Submit(who) && q.questions != [])
  {
    var p := Created(w, who);
    var ts := Statuses(p, run);
    assert ts[0] == At(p, run, 0).status && ts[n] == At(p, run, n).status;
    LastEntry(ts, n, s);
    i :| Entered(ts, i, n, s);
    assert ts[i] == At(p, run, i).status && ts[i + 1] == At(p, run, i + 1).status;
    InternalStaysInternal(w, who, run, i);
    ChangeOfStatus(p, run, i);
  }

  /** The events that bring a paper to each of the statuses behind the gates. */
  lemma ChangeOfStatus(p: Paper, run: seq<Event>, i: nat)
    requires i < |run|
    ensures var q, q', e := At(p, run, i), At(p, run, i + 1), run[i];
            && q' == Step(q, e)
            && (q.status != q'.status == RELEASED ==> q.status == SEALED && (e == Release(true) || e == ForceRelease))
            && (q.status != q'.status == SEALED ==> q.status == BOARD_APPROVED && e == Seal)
            && (q.status != q'.status == BOARD_APPROVED ==>
                || (e == Decide(true) && q.status == SUBMITTED)
                || (e == FacultyApprove(q.createdBy) && q.workflow == INTERNAL && q.questions != []))
            && (q.status != q'.status == SUBMITTED ==>
                e == Submit(q.createdBy) && q.workflow == BOARD_EXAM && Editable(q.status) && q.questions != [])
  {
  }

  // ---------------------------------------------------------------------------------------------
  // What people can still reach
  // ---------------------------------------------------------------------------------------------

  /** The steps that do not belong to the generation of the paper. */
  predicate ByPeople(e: Event) {
    !(e.Queue? || e.QueueDown? || e.GenerationStarts? || e.QuestionsSaved? || e.GenerationEnds? ||
      e.GenerationFails? || e.GenerationDies?)
  }

  predicate AllByPeople(run: seq<Event>) {
    forall e | e in run :: ByPeople(e)
  }

  predicate Releasable(p: Paper) {
    Locked(p.status) || (Editable(p.status) && p.questions != [])
  }

  /** The shortest way to RELEASED. */
  function WayOut(p: Paper): seq<Event> {
    if p.status == RELEASED then []
    else if p.status == SEALED then [ForceRelease]
    else if p.status == BOARD_APPROVED then [Seal, ForceRelease]
    else if p.status == SUBMITTED then [Decide(true), Seal, ForceRelease]
    else if p.workflow == INTERNAL then [FacultyApprove(p.createdBy), Seal, ForceRelease]
    else [Submit(p.createdBy), Decide(true), Seal, ForceRelease]
  }

  /** Without its generation task a paper can still be released exactly if it is behind the first gate or
      is editable and has a question: no call adds a question or brings a FAILED paper back. */
  lemma ReleasableExactly(p: Paper)
    ensures Releasable(p) <==> exists run :: AllByPeople(run) && After(p, run).status == RELEASED
  {
    if Releasable(p) {
      var run := WayOut(p);
      WayOutWorks(p);
      assert AllByPeople(run) && After(p, run).status == RELEASED;
    } else {
      forall run | AllByPeople(run)
        ensures After(p, run).status != RELEASED
      {
        StuckStaysStuck(p, run);
      }
    }
  }

  lemma WayOutStep(p: Paper)
    requires Releasable(p) && p.status != RELEASED
    ensures var q := Step(p, WayOut(p)[0]); Releasable(q) && WayOut(q) == WayOut(p)[1..]
  {
  }

  lemma {:induction false} WayOutWorks(p: Paper)
    requires Releasable(p)
    ensures After(p, WayOut(p)).status == RELEASED
    decreases |WayOut(p)|
  {
    if p.status != RELEASED {
      var run := WayOut(p);
      WayOutStep(p);
      WayOutWorks(Step(p, run[0]));
    }
  }

  lemma StuckStep(p: Paper, e: Event)
    requires ByPeople(e) && !Releasable(p)
    ensures !Releasable(Step(p, e))
  {
  }

  lemma {:induction false} StuckStaysStuck(p: Paper, run: seq<Event>)
    requires AllByPeople(run) && !Releasable(p)
    ensures !Releasable(After(p, run))
    decreases run
  {
    if run != [] {
      StuckStep(p, run[0]);
      StuckStaysStuck(Step(p, run[0]), run[1..]);
    }
  }

  // ---------------------------------------------------------------------------------------------
  // What is sealed is what was submitted
  // ---------------------------------------------------------------------------------------------

  /** No worker holds a write that would still change the paper. */
  predicate Quiet(p: Paper) {
    p.drafting == 0 && forall i | 0 <= i < |p.questions| :: p.questions[i].id !in p.rewriting
  }

  /** The run never delivers the generation task and leaves the paper behind the first gate. */
  predicate StaysLocked(p: Paper, run: seq<Event>)
    decreases run
  {
    Locked(p.status) && (run == [] || (!run[0].GenerationStarts? && StaysLocked(Step(p, run[0]), run[1..])))
  }

  /** A paper that passes the first gate, submitted to the board or approved by its creator, is released
      with exactly the questions it then has, in every run that does not take it back out of review, if
      and only if at that moment no generation has still to save its questions and no regeneration of
      one of its questions is in flight. */
  lemma SubmittedIsReleasedExactly(p: Paper)
    requires p.status == SUBMITTED || p.status == BOARD_APPROVED
    ensures Quiet(p) <==>
            forall run | StaysLocked(p, run) && After(p, run).status == RELEASED ::
                After(p, run).blob == Some(p.questions)
  {
    if Quiet(p) {
      forall run | StaysLocked(p, run) && After(p, run).status == RELEASED
        ensures After(p, run).blob == Some(p.questions)
      {
        LockedIsFrozen(p, run, p.questions);
      }
    } else {
      var e := LateWrite(p);
      var run := LateWriteShows(p, e);
    }
  }

  predicate Frozen(p: Paper, qs: seq<Question>) {
    p.questions == qs && Quiet(p) && (p.status in {SEALED, RELEASED} ==> p.blob == Some(qs))
  }

  lemma FrozenStep(p: Paper, e: Event, qs: seq<Question>)
    requires Frozen(p, qs) && Locked(p.status) && Locked(Step(p, e).status) && !e.GenerationStarts?
    ensures Frozen(Step(p, e), qs)
  {
    if e.RewriteLands? && Answer(p, e) == Done {
      assert Rewritten(p.questions, e.id, e.text) == p.questions;
    }
  }

  lemma {:induction false} LockedIsFrozen(p: Paper, run: seq<Event>, qs: seq<Question>)
    requires Frozen(p, qs) && StaysLocked(p, run)
    ensures Frozen(After(p, run), qs)
    decreases run
  {
    if run != [] {
      FrozenStep(p, run[0], qs);
      LockedIsFrozen(Step(p, run[0]), run[1..], qs);
    }
  }

  /** A write that is still due and changes the questions. */
  function LateWrite(p: Paper): (e: Event)
    requires !Quiet(p)
    ensures Answer(p, e) == Done && (e.QuestionsSaved? || e.RewriteLands?)
    ensures Step(p, e).questions != p.questions
  {
    if p.drafting > 0 then QuestionsSaved([Question(0, "")])
    else
      var i := FirstInFlight(p, 0);
      var q := p.questions[i];
      assert Rewritten(p.questions, q.id, q.text + "x")[i] != q;
      RewriteLands(q.id, q.text + "x")
  }

  function FirstInFlight(p: Paper, from: nat): (i: nat)
    requires exists k :: from <= k < |p.questions| && p.questions[k].id in p.rewriting
    ensures i < |p.questions| && p.questions[i].id in p.rewriting
    decreases |p.questions| - from
  {
    if p.questions[from].id in p.rewriting then from else FirstInFlight(p, from + 1)
  }

  /** Let the board approve, if it has to, then the write land, then the paper be sealed and released. */
  lemma LateWriteShows(p: Paper, e: Event) returns (run: seq<Event>)
    requires p.status == SUBMITTED || p.status == BOARD_APPROVED
    requires (e.QuestionsSaved? || e.RewriteLands?) && Answer(p, e) == Done
    ensures StaysLocked(p, run) && After(p, run).status == RELEASED
    ensures After(p, run).blob == Some(Step(p, e).questions)
  {
    run := [e] + ([Seal] + ([ForceRelease] + []));
    if p.status == SUBMITTED {
      SameWrite(p, e);
      LateWriteSealed(p.(status := BOARD_APPROVED), e);
      LockedFirst(p, Decide(true), run);
      run := [Decide(true)] + run;
    } else {
      LateWriteSealed(p, e);
    }
  }

  lemma SameWrite(p: Paper, e: Event)
    requires p.status == SUBMITTED && (e.QuestionsSaved? || e.RewriteLands?) && Answer(p, e) == Done
    ensures var p1 := p.(status := BOARD_APPROVED);
            && Step(p, Decide(true)) == p1 && Answer(p1, e) == Done && Step(p1, e).questions == Step(p, e).questions
  {
  }

  lemma LateWriteSealed(p: Paper, e: Event)
    requires p.status == BOARD_APPROVED && (e.QuestionsSaved? || e.RewriteLands?) && Answer(p, e) == Done
    ensures var run := [e] + ([Seal] + ([ForceRelease] + []));
            && StaysLocked(p, run) && After(p, run).status == RELEASED
            && After(p, run).blob == Some(Step(p, e).questions)
  {
    var p2 := Step(p, e);
    assert p2.status == BOARD_APPROVED;
    var p3 := p2.(status := SEALED, blob := Some(p2.questions));
    assert StaysLocked(p3.(status := RELEASED), []);
    LockedFirst(p3, ForceRelease, []);
    LockedFirst(p2, Seal, [ForceRelease] + []);
    LockedFirst(p, e, [Seal] + ([ForceRelease] + []));
  }

  lemma LockedFirst(p: Paper, e: Event, run: seq<Event>)
    requires Locked(p.status) && !e.GenerationStarts? && StaysLocked(Step(p, e), run)
    ensures StaysLocked(p, [e] + run) && After(p, [e] + run) == After(Step(p, e), run)
  {
    assert ([e] + run)[1..] == run;
  }

  // ---------------------------------------------------------------------------------------------
  // Redelivery
  // ---------------------------------------------------------------------------------------------

  predicate StaysReleased(p: Paper, run: seq<Event>)
    decreases run
  {
    p.status == RELEASED && (run == [] || StaysReleased(Step(p, run[0]), run[1..]))
  }

  predicate NoGenerator(p: Paper) {
    p.drafting == 0 && p.finishing == 0
  }

  lemma ReleasedStep(p: Paper, e: Event)
    requires p.status == RELEASED && NoGenerator(p)
    ensures var q := Step(p, e);
            if e.GenerationStarts? && p.queued then q.status == GENERATING
            else q.status == RELEASED && q.queued == p.queued && NoGenerator(q)
  {
  }

  predicate NoDelivery(run: seq<Event>) {
    forall e | e in run :: !e.GenerationStarts?
  }

  /** A released paper with no generation at work stays released exactly as long as its generation task
      is not delivered again: the task takes a paper of any status back to GENERATING. */
  lemma {:induction false} ReleasedUntilRedelivery(p: Paper, run: seq<Event>)
    requires p.status == RELEASED && p.queued && NoGenerator(p)
    ensures StaysReleased(p, run) <==> NoDelivery(run)
    decreases run
  {
    if run != [] {
      ReleasedStep(p, run[0]);
      if !run[0].GenerationStarts? {
        ReleasedUntilRedelivery(Step(p, run[0]), run[1..]);
        assert forall e :: e in run <==> e == run[0] || e in run[1..];
      } else {
        assert run[0] in run;
      }
    }
  }

  lemma {:induction false} QuietStaysReleased(p: Paper, run: seq<Event>)
    requires p.status == RELEASED && NoGenerator(p) && NoDelivery(run)
    ensures StaysReleased(p, run)
    decreases run
  {
    if run != [] {
      ReleasedStep(p, run[0]);
      QuietStaysReleased(Step(p, run[0]), run[1..]);
    }
  }

  /** Short of another delivery, a released paper is released for good if and only if no generation is
      still at work on it: the end of one, well or badly, takes it out of RELEASED. */
  lemma ReleasedForGoodExactly(p: Paper)
    requires p.status == RELEASED
    ensures (forall run | NoDelivery(run) :: StaysReleased(p, run)) <==> NoGenerator(p)
  {
    if NoGenerator(p) {
      forall run | NoDelivery(run)
        ensures StaysReleased(p, run)
      {
        QuietStaysReleased(p, run);
      }
    } else {
      var e := GenerationFails(p.finishing > 0);
      assert Step(p, e).status == FAILED;
      assert NoDelivery([e]) && !StaysReleased(p, [e]);
    }
  }

  // ---------------------------------------------------------------------------------------------
  // The pages
  // ---------------------------------------------------------------------------------------------

  /** The actions that the editor page and the board page enable for a paper, roles aside. */
  predicate Offered(p: Paper, e: Event) {
    match e
    case FacultyApprove(_) => p.workflow == INTERNAL && p.status == GENERATED
    case Submit(_) => (p.status == GENERATED || p.status == BOARD_RETURNED) && !(p.workflow == INTERNAL)
    case Decide(_) => !(p.status != SUBMITTED)
    case Seal => p.status == BOARD_APPROVED
    case ForceRelease => p.status == SEALED
    case Edit(_, _) => p.status == GENERATED || p.status == BOARD_RETURNED
    case Delete(_) => p.status == GENERATED || p.status == BOARD_RETURNED
    case RewriteStarts(_) => p.status == GENERATED || p.status == BOARD_RETURNED
    case _ => false
  }

  predicate OnThePages(e: Event) {
    || e.FacultyApprove? || e.Submit? || e.Decide? || e.Seal? || e.ForceRelease?
    || e.Edit? || e.Delete? || e.RewriteStarts?
  }

  /** For every paper that can come about, the pages enable an action exactly if the service does not
      refuse it for the paper's status or workflow. */
  lemma PagesAgreeWithService(w: Workflow, who: User, run: seq<Event>, e: Event)
    requires OnThePages(e)
    requires (e.Submit? || e.FacultyApprove?) ==> e.who == who
    requires (e.Edit? || e.Delete? || e.RewriteStarts?) ==> Holds(After(Created(w, who), run).questions, e.id)
    ensures var p := After(Created(w, who), run);
            Offered(p, e) <==> Answer(p, e) !in {INVALID_STATUS, INVALID_WORKFLOW}
  {
    AfterIsAt(Created(w, who), run);
    InternalStaysInternal(w, who, run, |run|);
  }

  /** The decision form of the board page. */
  class BoardReview {
    var decision: Option<bool>      // Some(true) approves, Some(false) returns
    var comment: string
    var error: bool

    constructor ()
      ensures decision == None && comment == "" && !error
    {
      decision, comment, error := None, "", false;
    }

    /** Nothing is sent without a decision, nor a return without a comment that says something. */
    method HandleDecide() returns (sent: Option<(bool, Option<string>)>)
      modifies this`error
      ensures sent.Some? <==> decision.Some? && (decision.value || !Blank(comment))
      ensures error <==> decision.Some? && !decision.value && Blank(comment)
      ensures sent.Some? ==> sent.value == (decision.value, if decision.value then None else Some(comment))
    {
      error := false;
      if decision == None {
        return None;
      }
      var blank, i := true, 0;
      while i < |comment|
        invariant 0 <= i <= |comment| && !error
        invariant blank <==> forall k | 0 <= k < i :: IsSpace(comment[k])
      {
        if !IsSpace(comment[i]) {
          blank := false;
        }
        i := i + 1;
      }
      assert blank <==> Blank(comment);
      if decision == Some(false) && blank {
        error := true;
        return None;
      }
      return Some((decision.value, if decision == Some(false) then Some(comment) else None));
    }
  }

  /** What `trim` removes: white space and line terminators. */
  predicate IsSpace(c: char) {
    || c in "\t\n\r \U{0B}\U{0C}\U{A0}\U{1680}\U{2028}\U{2029}\U{202F}\U{205F}\U{3000}\U{FEFF}"
    || '\U{2000}' <= c <= '\U{200A}'
  }

  predicate Blank(s: string) {
    forall k | 0 <= k < |s| :: IsSpace(s[k])
  }
}
