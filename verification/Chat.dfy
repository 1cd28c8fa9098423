/**
 The question-and-answer list of a course package: messages are shown optimistically while a request is
 pending, and settled when the answer or an error arrives.
 */
module Chat {

  import opened Wrappers

  datatype Role = USER | ASSISTANT

  datatype Message = Message(role: Role, content: string, loading: bool)

  datatype Failure = SessionNotFound | RagError | OtherError

  function Question(text: string): Message {
    Message(USER, text, false)
  }

  function Answer(text: string): Message {
    Message(ASSISTANT, text, false)
  }

  const BUBBLE := Message(ASSISTANT, "", true)

  /** What the component holds. */
  datatype View = View(messages: seq<Message>, session: Option<string>, ready: bool, pending: bool, failed: bool)

  const MOUNTED := View([], None, false, false, false)

  datatype Event =
    | SessionsListed(first: Option<string>)      // the newest session, if there is one
    | HistoryLoaded(history: seq<Message>)
    | Submit(text: string)                       // already trimmed
    | Answered(text: string, session: string)
    | Failed(failure: Failure)

  /** The button is enabled once the view is ready and no request is pending. */
  predicate CanAsk(v: View, indexed: bool) {
    indexed && v.ready && !v.pending
  }

  function WithoutLast(ms: seq<Message>): seq<Message> {
    if ms == [] then [] else ms[..|ms| - 1]
  }

  /** An event that may occur: answers and failures belong to a pending request, a question is asked with
      the button. */
  predicate MayOccur(v: View, e: Event, indexed: bool) {
    match e
    case SessionsListed(_) => true
    case HistoryLoaded(history) => forall i | 0 <= i < |history| :: !history[i].loading
    case Submit(text) => text != "" && CanAsk(v, indexed)
    case Answered(_, _) => v.pending
    case Failed(_) => v.pending
  }

  function After(v: View, e: Event): View {
    match e
    case SessionsListed(first) =>
      if v.ready then v
      else if first.Some? then v.(session := first)
      else v.(ready := true)
    case HistoryLoaded(history) =>
      if v.ready || v.session.None? then v else v.(messages := history, ready := true)
    case Submit(text) =>
      if text == "" || v.pending then v
      else v.(messages := v.messages + [Question(text), BUBBLE], pending := true, failed := false)
    case Answered(text, session) =>
      v.(messages := WithoutLast(v.messages) + [Answer(text)], session := Some(session), pending := false)
    case Failed(failure) =>
      v.(messages := WithoutLast(v.messages),
         session := if failure.OtherError? then v.session else None,
         pending := false, failed := true)
  }

  class NotebookQA {
    var messages: seq<Message>
    var activeSessionId: Option<string>
    var initialized: bool
    var isPending: bool
    var askError: bool

    ghost function State(): View
      reads this
    {
      View(messages, activeSessionId, initialized, isPending, askError)
    }

    constructor ()
      ensures State() == MOUNTED
    {
      messages, activeSessionId, initialized, isPending, askError := [], None, false, false, false;
    }

    /** The effect that picks up the most recent session. */
    method OnSessions(sessions: seq<string>)
      modifies this
      ensures State() == After(old(State()), SessionsListed(if sessions == [] then None else Some(sessions[0])))
    {
      if initialized { return; }
      if |sessions| > 0 {
        activeSessionId := Some(sessions[0]);
      } else {
        initialized := true;
      }
    }

    /** The effect that loads the history of that session. */
    method OnHistory(history: seq<Message>)
      modifies this
      ensures State() == After(old(State()), HistoryLoaded(history))
    {
      if initialized { return; }
      if activeSessionId.None? { return; }
      messages := history;
      initialized := true;
    }

    method Ask(question: string)
      modifies this
      ensures State() == After(old(State()), Submit(question))
      ensures question == "" || old(isPending) ==> State() == old(State())
      ensures question != "" && !old(isPending) ==>
        && messages == old(messages) + [Question(question), BUBBLE] && isPending && !askError
        && activeSessionId == old(activeSessionId) && initialized == old(initialized)
    {
      if question == "" || isPending { return; }
      askError := false;
      messages := messages + [Question(question), BUBBLE];
      isPending := true;
    }

    method Settle(outcome: Event)
      requires outcome.Answered? || outcome.Failed?
      modifies this
      ensures State() == After(old(State()), outcome)
      ensures !isPending && initialized == old(initialized)
      ensures outcome.Answered? ==>
        && messages == WithoutLast(old(messages)) + [Answer(outcome.text)]
        && activeSessionId == Some(outcome.session) && askError == old(askError)
      ensures outcome.Failed? ==>
        && messages == WithoutLast(old(messages)) && askError
        && activeSessionId == (if outcome.failure == OtherError then old(activeSessionId) else None)
    {
      isPending := false;
      messages := WithoutLast(messages);
      if outcome.Answered? {
        activeSessionId := Some(outcome.session);
        messages := messages + [Answer(outcome.text)];
      } else {
        if outcome.failure == SessionNotFound || outcome.failure == RagError {
          activeSessionId := None;
        }
        askError := true;
      }
    }
  }

  // ---------------------------------------------------------------------------------------------
  // Runs
  // ---------------------------------------------------------------------------------------------

  function Shown(es: seq<Event>): View {
    if es == [] then MOUNTED else After(Shown(es[..|es| - 1]), es[|es| - 1])
  }

  ghost predicate IsRun(es: seq<Event>, indexed: bool) {
    forall n | 0 <= n < |es| :: MayOccur(Shown(es[..n]), es[n], indexed)
  }

  /** The history that was loaded, if any: the first one that arrives for a session while the view is not
      ready. */
  function History(es: seq<Event>): seq<Message> {
    if es == [] then []
    else
      var before, e := es[..|es| - 1], es[|es| - 1];
      if e.HistoryLoaded? && !Shown(before).ready && Shown(before).session.Some? then e.history else History(before)
  }

  /** The turns of the run in order: each question, followed by its answer if it got one. */
  function Turns(es: seq<Event>): seq<Message> {
    if es == [] then []
    else
      var before, e := es[..|es| - 1], es[|es| - 1];
      match e
      case Submit(text) => Turns(before) + [Question(text)]
      case Answered(text, _) => Turns(before) + [Answer(text)]
      case _ => Turns(before)
  }

  lemma Prefixes(es: seq<Event>, indexed: bool)
    requires es != [] && IsRun(es, indexed)
    ensures IsRun(es[..|es| - 1], indexed) && MayOccur(Shown(es[..|es| - 1]), es[|es| - 1], indexed)
  {
    var before := es[..|es| - 1];
    forall n | 0 <= n < |before|
      ensures MayOccur(Shown(before[..n]), before[n], indexed)
    {
      assert before[..n] == es[..n];
    }
  }

  /** At every point of every run the list is the loaded history, then the turns in order, then one bubble
      exactly while a request is pending. */
  lemma {:induction false} ListIsHistoryAndTurns(es: seq<Event>, indexed: bool)
    requires IsRun(es, indexed)
    ensures Shown(es).messages == History(es) + Turns(es) + (if Shown(es).pending then [BUBBLE] else [])
    ensures !Shown(es).ready ==> History(es) == [] && Turns(es) == [] && !Shown(es).pending
    ensures forall i | 0 <= i < |History(es)| :: !History(es)[i].loading
    ensures forall i | 0 <= i < |Turns(es)| :: !Turns(es)[i].loading
    decreases |es|
  {
    if es != [] {
      Prefixes(es, indexed);
      ListIsHistoryAndTurns(es[..|es| - 1], indexed);
    }
  }

  /** At most one bubble is shown, it is last, and it is shown exactly while a request is pending: dropping
      the last element when a request settles never loses a message. */
  lemma BubbleIsLast(es: seq<Event>, indexed: bool)
    requires IsRun(es, indexed)
    ensures var v := Shown(es);
            && (forall i | 0 <= i < |v.messages| :: v.messages[i].loading <==> v.pending && i == |v.messages| - 1)
            && (v.pending ==> |v.messages| >= 2 && WithoutLast(v.messages) == History(es) + Turns(es))
  {
    ListIsHistoryAndTurns(es, indexed);
    if Shown(es).pending { PendingHasTurn(es, indexed); }
    OneBubble(History(es) + Turns(es), Shown(es).messages, Shown(es).pending);
  }

  lemma OneBubble(settled: seq<Message>, shown: seq<Message>, pending: bool)
    requires shown == settled + (if pending then [BUBBLE] else [])
    requires forall i | 0 <= i < |settled| :: !settled[i].loading
    ensures forall i | 0 <= i < |shown| :: shown[i].loading <==> pending && i == |shown| - 1
    ensures pending ==> |shown| == |settled| + 1 && WithoutLast(shown) == settled
  {
  }

  lemma {:induction false} PendingHasTurn(es: seq<Event>, indexed: bool)
    requires IsRun(es, indexed) && Shown(es).pending
    ensures Turns(es) != []
    decreases |es|
  {
    if es != [] {
      Prefixes(es, indexed);
      if Shown(es[..|es| - 1]).pending { PendingHasTurn(es[..|es| - 1], indexed); }
    }
  }

  /** The session the next question goes to: that of the last answer, or the one picked at the start, unless
      a request found it lost since. */
  function SessionOf(es: seq<Event>): Option<string> {
    if es == [] then None
    else
      var before, e := es[..|es| - 1], es[|es| - 1];
      match e
      case Answered(_, session) => Some(session)
      case Failed(failure) => if failure == OtherError then SessionOf(before) else None
      case SessionsListed(first) => if first.Some? && !IsReady(before) then first else SessionOf(before)
      case _ => SessionOf(before)
  }

  /** The view is ready once the list of sessions is empty, or the history of the one picked is there. */
  predicate IsReady(es: seq<Event>) {
    es != [] &&
    var before, e := es[..|es| - 1], es[|es| - 1];
    IsReady(before) || e == SessionsListed(None) || (e.HistoryLoaded? && SessionOf(before).Some?)
  }

  /** A request is pending from the question until the answer or the failure. */
  predicate IsWaiting(es: seq<Event>) {
    es != [] &&
    var before, e := es[..|es| - 1], es[|es| - 1];
    e.Submit? || (!e.Answered? && !e.Failed? && IsWaiting(before))
  }

  /** The error shows from a failure until the next question. */
  predicate ShowsError(es: seq<Event>) {
    es != [] &&
    var before, e := es[..|es| - 1], es[|es| - 1];
    e.Failed? || (!e.Submit? && ShowsError(before))
  }

  /** At every point of every run: the session, whether the view is ready and whether a request is pending
      or an error shows, as the events so far say. */
  lemma {:induction false} StateIsHistory(es: seq<Event>, indexed: bool)
    requires IsRun(es, indexed)
    ensures Shown(es).session == SessionOf(es) && Shown(es).ready == IsReady(es)
    ensures Shown(es).pending == IsWaiting(es) && Shown(es).failed == ShowsError(es)
    decreases |es|
  {
    if es != [] {
      Prefixes(es, indexed);
      StateIsHistory(es[..|es| - 1], indexed);
    }
  }

  /** An answer that arrived only adds: everything shown before, without the bubble, stays. */
  lemma SettlingLosesNothing(es: seq<Event>, e: Event, indexed: bool)
    requires IsRun(es + [e], indexed) && (e.Answered? || e.Failed?)
    ensures History(es) + Turns(es) <= Shown(es + [e]).messages
    ensures |Shown(es + [e]).messages| == |History(es)| + |Turns(es)| + if e.Answered? then 1 else 0
  {
    Prefixes(es + [e], indexed);
    assert (es + [e])[..|es + [e]| - 1] == es;
    BubbleIsLast(es, indexed);
  }
}
