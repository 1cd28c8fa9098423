/**
 What every statement sees in every run, with no proviso: read off the order of the events, including
 session-level SETs that are committed, as the workers and the migrations do.
 */
module PathHistory {
  import opened Wrappers
  import opened SearchPath
  import opened TenantScopes

  /** The backend session s is on: that of its last BEGIN, if no transaction end came since. */
  function OnOf(es: seq<Event>, s: SessionId): Option<BackendId> {
    if es == [] then None
    else
      var before, e := es[..|es| - 1], es[|es| - 1];
      if e.Begin? && e.s == s then Some(e.b)
      else if (e.Open? || e.Close? || e.Commit? || e.Rollback?) && e.s == s then None
      else OnOf(before, s)
  }

  /** The last session-level SET of session s since its last BEGIN. */
  function PendingOf(es: seq<Event>, s: SessionId): Option<Path> {
    if es == [] then None
    else
      var before, e := es[..|es| - 1], es[|es| - 1];
      if e.SetSession? && e.s == s then Some(e.p)
      else if e.Begin? && e.s == s then None
      else PendingOf(before, s)
  }

  /** The last event commits a session-level SET on backend b. */
  predicate CommitsSet(before: seq<Event>, e: Event, b: BackendId) {
    e.Commit? && OnOf(before, e.s) == Some(b) && PendingOf(before, e.s).Some?
  }

  /** The session-level path of backend b: the last SET that was committed on it, or the one it had. */
  function SessionPath(es: seq<Event>, b: BackendId, initial: Path): Path {
    if es == [] then initial
    else
      var before, e := es[..|es| - 1], es[|es| - 1];
      if CommitsSet(before, e, b) then PendingOf(before, e.s).value else SessionPath(before, b, initial)
  }

  function PathAt(backends: map<BackendId, Backend>, es: seq<Event>, b: BackendId): Path {
    SessionPath(es, b, if b in backends then backends[b].path else DEFAULT)
  }

  /** The path session s sees: the one it set last since its BEGIN; else the scope its task was in at
      that BEGIN; else what the backend it was given had been left with. */
  function Sees(backends: map<BackendId, Backend>, es: seq<Event>, s: SessionId): Path {
    if es == [] then DEFAULT
    else
      var before, e := es[..|es| - 1], es[|es| - 1];
      if (e.SetLocal? || e.SetSession?) && e.s == s then e.p
      else if e.Begin? && e.s == s then
        var scope := Innermost(before, OwnerOf(before, s));
        if scope != DEFAULT then scope else PathAt(backends, before, e.b)
      else Sees(backends, before, s)
  }

  /** What the statements among `es` see after the history `past`. */
  function AllSeen(backends: map<BackendId, Backend>, past: seq<Event>, es: seq<Event>): seq<(SessionId, Path)>
    decreases |es|
  {
    if es == [] then []
    else
      (if es[0].Statement? then [(es[0].s, Sees(backends, past, es[0].s))] else []) +
      AllSeen(backends, past + [es[0]], es[1..])
  }

  // ---------------------------------------------------------------------------------------------
  // The machine follows its history
  // ---------------------------------------------------------------------------------------------

  predicate IsIdle(b: Backend) {
    b.pending.None? && b.local.None?
  }

  ghost predicate FreeIdle(w: World) {
    forall b | IsFree(w, b) :: IsIdle(w.backends[b])
  }

  ghost predicate SessionFollows(backends: map<BackendId, Backend>, w: World, past: seq<Event>, s: SessionId)
    requires s in w.sessions
  {
    && w.sessions[s].owner == OwnerOf(past, s)
    && w.sessions[s].on == OnOf(past, s)
    && (InTransaction(w, s) ==>
          BackendOf(w, s).pending == PendingOf(past, s) && PathOf(BackendOf(w, s)) == Sees(backends, past, s))
  }

  ghost predicate Follows(backends: map<BackendId, Backend>, w: World, past: seq<Event>) {
    && Placed(w) && FreeIdle(w)
    && (forall t :: TaskTracks(TaskOf(w.tasks, t), Scopes(past, t)))
    && (forall s | s in w.sessions :: SessionFollows(backends, w, past, s))
    && (forall b | b in w.backends :: w.backends[b].path == PathAt(backends, past, b))
  }

  lemma TaskFollows(backends: map<BackendId, Backend>, w: World, past: seq<Event>, e: Event, t: TaskId)
    requires Follows(backends, w, past) && Enabled(w, e)
    ensures TaskTracks(TaskOf(Step(w, e).tasks, t), Scopes(past + [e], t))
  {
    LastEvent(past, e);
    assert TaskTracks(TaskOf(w.tasks, t), Scopes(past, t));
  }

  /** No step gives two sessions one backend, and a backend that is given back is idle. */
  lemma StepKeepsIdle(w: World, e: Event)
    requires Placed(w) && FreeIdle(w) && Enabled(w, e)
    ensures Placed(Step(w, e)) && FreeIdle(Step(w, e))
  {
    var w1 := Step(w, e);
    forall c: BackendId | IsFree(w1, c)
      ensures IsIdle(w1.backends[c])
    {
      if IsFree(w, c) {
        FreeUntouched(w, e, c);
      } else {
        var s :| s in w.sessions && w.sessions[s].on == Some(c);
        assert s in w1.sessions ==> w1.sessions[s].on != Some(c);
        assert (e.Commit? || e.Rollback? || e.Close?) && e.s == s;
      }
    }
  }

  lemma FreeUntouched(w: World, e: Event, c: BackendId)
    requires Placed(w) && Enabled(w, e) && IsFree(w, c) && IsFree(Step(w, e), c)
    ensures Step(w, e).backends[c] == w.backends[c]
  {
    var w1 := Step(w, e);
    if e.Begin? {
      assert e.s in w1.sessions && w1.sessions[e.s].on == Some(e.b);
    }
  }

  lemma PathFollows(backends: map<BackendId, Backend>, w: World, past: seq<Event>, e: Event, b: BackendId)
    requires Follows(backends, w, past) && Enabled(w, e) && b in w.backends
    ensures b in Step(w, e).backends && Step(w, e).backends[b].path == PathAt(backends, past + [e], b)
  {
    LastEvent(past, e);
    if e.Commit? {
      assert SessionFollows(backends, w, past, e.s);
    }
  }

  lemma SessionStep(backends: map<BackendId, Backend>, w: World, past: seq<Event>, e: Event, s: SessionId)
    requires Follows(backends, w, past) && Enabled(w, e) && s in Step(w, e).sessions
    ensures SessionFollows(backends, Step(w, e), past + [e], s)
  {
    LastEvent(past, e);
    if !(e.Open? && e.s == s) {
      assert SessionFollows(backends, w, past, s);
    }
    if e.Begin? {
      assert IsIdle(w.backends[e.b]);
      assert SessionFollows(backends, w, past, e.s);
      assert TaskTracks(TaskOf(w.tasks, OwnerOf(past, e.s)), Scopes(past, OwnerOf(past, e.s)));
    }
    if (e.SetLocal? || e.SetSession? || e.Commit? || e.Rollback? || e.Close?) && e.s != s {
      if InTransaction(w, s) && InTransaction(w, e.s) {
        OthersApart(w, s, e.s);
      }
    }
  }

  lemma FollowsStep(backends: map<BackendId, Backend>, w: World, past: seq<Event>, e: Event)
    requires Follows(backends, w, past) && Enabled(w, e)
    ensures Follows(backends, Step(w, e), past + [e])
    ensures e.Statement? ==> PathOf(BackendOf(w, e.s)) == Sees(backends, past, e.s)
  {
    StepKeepsIdle(w, e);
    forall t
      ensures TaskTracks(TaskOf(Step(w, e).tasks, t), Scopes(past + [e], t))
    {
      TaskFollows(backends, w, past, e, t);
    }
    forall s | s in Step(w, e).sessions
      ensures SessionFollows(backends, Step(w, e), past + [e], s)
    {
      SessionStep(backends, w, past, e, s);
    }
    forall b | b in Step(w, e).backends
      ensures Step(w, e).backends[b].path == PathAt(backends, past + [e], b)
    {
      PathFollows(backends, w, past, e, b);
    }
    if e.Statement? {
      assert SessionFollows(backends, w, past, e.s);
    }
  }

  lemma {:induction false} FollowsRun(backends: map<BackendId, Backend>, w: World, past: seq<Event>, es: seq<Event>)
    requires Follows(backends, w, past) && Runnable(w, es)
    ensures Seen(w, es) == AllSeen(backends, past, es) && Follows(backends, Run(w, es), past + es)
    decreases |es|
  {
    if es == [] {
      assert past + es == past;
    } else {
      FollowsStep(backends, w, past, es[0]);
      FollowsRun(backends, Step(w, es[0]), past + [es[0]], es[1..]);
      assert past + [es[0]] + es[1..] == past + es;
    }
  }

  /** From idle backends with whatever paths, in every run: each statement sees what its history says, and
      each backend is left with the last session-level SET that was committed on it. */
  lemma EveryRunFollowsItsHistory(backends: map<BackendId, Backend>, es: seq<Event>)
    requires (forall b | b in backends :: IsIdle(backends[b])) && Runnable(World(map[], map[], backends), es)
    ensures var w := World(map[], map[], backends);
            && Seen(w, es) == AllSeen(backends, [], es)
            && Run(w, es).backends.Keys == backends.Keys
            && forall b | b in backends :: Run(w, es).backends[b].path == SessionPath(es, b, backends[b].path)
  {
    var w := World(map[], map[], backends);
    FollowsRun(backends, w, [], es);
    assert [] + es == es;
    SameBackends(w, es);
  }

  lemma {:induction false} SameBackends(w: World, es: seq<Event>)
    requires Runnable(w, es)
    ensures Run(w, es).backends.Keys == w.backends.Keys
    decreases |es|
  {
    if es != [] {
      assert Step(w, es[0]).backends.Keys == w.backends.Keys;
      SameBackends(Step(w, es[0]), es[1..]);
    }
  }

  // ---------------------------------------------------------------------------------------------
  // A path that stays
  // ---------------------------------------------------------------------------------------------

  /** No session-level SET is committed on backend b. */
  predicate NoSetCommitted(w: World, es: seq<Event>, b: BackendId)
    requires Runnable(w, es)
    decreases |es|
  {
    es == [] ||
    (&& (es[0].Commit? && w.sessions[es[0].s].on == Some(b) ==> BackendOf(w, es[0].s).pending.None?)
     && NoSetCommitted(Step(w, es[0]), es[1..], b))
  }

  /** Without such a commit a backend keeps its session path over any number of BEGIN, COMMIT, ROLLBACK and
      CLOSE, from every state. */
  lemma {:induction false} SessionPathStays(w: World, es: seq<Event>, b: BackendId)
    requires Runnable(w, es) && b in w.backends && NoSetCommitted(w, es, b)
    ensures b in Run(w, es).backends && Run(w, es).backends[b].path == w.backends[b].path
    decreases |es|
  {
    if es != [] {
      SessionPathStays(Step(w, es[0]), es[1..], b);
    }
  }

  lemma {:induction false} RunKeepsIdle(w: World, es: seq<Event>)
    requires Placed(w) && FreeIdle(w) && Runnable(w, es)
    ensures Placed(Run(w, es)) && FreeIdle(Run(w, es))
    decreases |es|
  {
    if es != [] {
      StepKeepsIdle(w, es[0]);
      RunKeepsIdle(Step(w, es[0]), es[1..]);
    }
  }

  /** So after a committed SET every later transaction of an unscoped task on that backend sees its path,
      however many transactions lie between. */
  lemma CommittedSetStays(w: World, s: SessionId, es: seq<Event>, s': SessionId)
    requires Placed(w) && FreeIdle(w) && InTransaction(w, s) && BackendOf(w, s).pending.Some?
    requires var b := w.sessions[s].on.value; var w1 := Step(w, Commit(s));
             && Runnable(w1, es) && NoSetCommitted(w1, es, b) && Enabled(Run(w1, es), Begin(s', b))
             && TaskOf(Run(w1, es).tasks, Run(w1, es).sessions[s'].owner).ctx == DEFAULT
    ensures var b, p := w.sessions[s].on.value, BackendOf(w, s).pending.value;
            var w2 := Run(Step(w, Commit(s)), es);
            Runnable(w2, [Begin(s', b), Statement(s')]) && Seen(w2, [Begin(s', b), Statement(s')]) == [(s', p)]
  {
    var b := w.sessions[s].on.value;
    var w1 := Step(w, Commit(s));
    StepKeepsIdle(w, Commit(s));
    RunKeepsIdle(w1, es);
    SessionPathStays(w1, es, b);
    var w2 := Run(w1, es);
    var w3 := Step(w2, Begin(s', b));
    Cons(w3, Statement(s'), []);
    Cons(w2, Begin(s', b), [Statement(s')] + []);
    assert [Begin(s', b), Statement(s')] == [Begin(s', b)] + ([Statement(s')] + []);
  }
}
