/**
 Tenant scopes as lexical scopes: what every statement sees is read off the order of the events alone,
 from the scopes that were open at its BEGIN.
 */
module TenantScopes {
  import opened SearchPath

  // ---------------------------------------------------------------------------------------------
  // Reading a history
  // ---------------------------------------------------------------------------------------------

  /** The scopes of task t that are open after the events, outermost first. */
  function Scopes(es: seq<Event>, t: TaskId): seq<Path> {
    if es == [] then []
    else
      var before, e := Scopes(es[..|es| - 1], t), es[|es| - 1];
      if e.Enter? && e.t == t then before + [e.scope]
      else if e.Leave? && e.t == t && before != [] then before[..|before| - 1]
      else before
  }

  function Innermost(es: seq<Event>, t: TaskId): Path {
    var scopes := Scopes(es, t);
    if scopes == [] then DEFAULT else scopes[|scopes| - 1]
  }

  /** The task that opened session s last. */
  function OwnerOf(es: seq<Event>, s: SessionId): TaskId {
    if es == [] then 0
    else
      var e := es[|es| - 1];
      if e.Open? && e.s == s then e.t else OwnerOf(es[..|es| - 1], s)
  }

  /** The path session s sees: that of the innermost scope its task was in at its last BEGIN, unless the
      session itself has set another since. */
  function Expected(es: seq<Event>, s: SessionId): Path {
    if es == [] then DEFAULT
    else
      var before, e := es[..|es| - 1], es[|es| - 1];
      if e.Begin? && e.s == s then Innermost(before, OwnerOf(before, s))
      else if (e.SetLocal? || e.SetSession?) && e.s == s then e.p
      else Expected(before, s)
  }

  /** What the statements among `es` see after the history `past`. */
  function ExpectedSeen(past: seq<Event>, es: seq<Event>): seq<(SessionId, Path)>
    decreases |es|
  {
    if es == [] then []
    else
      (if es[0].Statement? then [(es[0].s, Expected(past, es[0].s))] else []) + ExpectedSeen(past + [es[0]], es[1..])
  }

  // ---------------------------------------------------------------------------------------------
  // The machine follows its history
  // ---------------------------------------------------------------------------------------------

  /** The set and reset tokens of a task are its open scopes: each holds the value from outside it. */
  ghost predicate TaskTracks(k: Task, scopes: seq<Path>) {
    && |k.saved| == |scopes|
    && k.ctx == (if scopes == [] then DEFAULT else scopes[|scopes| - 1])
    && forall j | 0 <= j < |scopes| :: k.saved[j] == if j == 0 then DEFAULT else scopes[j - 1]
  }

  ghost predicate SessionTracks(w: World, past: seq<Event>, s: SessionId)
    requires s in w.sessions
  {
    && w.sessions[s].owner == OwnerOf(past, s)
    && (InTransaction(w, s) ==> BackendOf(w, s).path == DEFAULT && PathOf(BackendOf(w, s)) == Expected(past, s))
  }

  ghost predicate Tracks(w: World, past: seq<Event>) {
    && Placed(w) && IdleClean(w)
    && (forall t :: TaskTracks(TaskOf(w.tasks, t), Scopes(past, t)))
    && (forall s | s in w.sessions :: SessionTracks(w, past, s))
  }

  lemma LastEvent(past: seq<Event>, e: Event)
    ensures |past + [e]| > 0 && (past + [e])[..|past + [e]| - 1] == past && (past + [e])[|past + [e]| - 1] == e
  {
  }

  lemma TasksTrack(w: World, past: seq<Event>, e: Event, t: TaskId)
    requires Tracks(w, past) && Enabled(w, e)
    ensures TaskTracks(TaskOf(Step(w, e).tasks, t), Scopes(past + [e], t))
  {
    LastEvent(past, e);
    assert TaskTracks(TaskOf(w.tasks, t), Scopes(past, t));
  }

  /** Structure: a step gives no session another one's backend, and leaves idle backends clean. */
  lemma StepKeepsOrder(w: World, past: seq<Event>, e: Event)
    requires Tracks(w, past) && Enabled(w, e) && KeepsSession(w, e)
    ensures Placed(Step(w, e)) && IdleClean(Step(w, e))
  {
    var i := Mirror(w);
    assert LooksLike(w, i) by {
      forall s | s in w.sessions
        ensures i.sessions[s].backend.path == DEFAULT
      {
        assert SessionTracks(w, past, s);
      }
    }
    StepLooksLike(w, i, e);
  }

  /** The private machine in the same state. */
  ghost function Mirror(w: World): Ideal
    requires Placed(w)
  {
    Ideal(w.tasks, map s | s in w.sessions ::
      Private(w.sessions[s].owner, w.sessions[s].on.Some?, if w.sessions[s].on.Some? then BackendOf(w, s) else CLEAN))
  }

  /** The events of other sessions do not touch this one's backend. */
  lemma OthersApart(w: World, s: SessionId, s': SessionId)
    requires Placed(w) && InTransaction(w, s) && InTransaction(w, s') && s != s'
    ensures w.sessions[s].on.value != w.sessions[s'].on.value
  {
  }

  lemma SessionsTrack(w: World, past: seq<Event>, e: Event, s: SessionId)
    requires Tracks(w, past) && Enabled(w, e) && KeepsSession(w, e) && s in Step(w, e).sessions
    ensures SessionTracks(Step(w, e), past + [e], s)
  {
    LastEvent(past, e);
    if !(e.Open? && e.s == s) {
      assert SessionTracks(w, past, s);
    }
    if e.Begin? {
      assert w.backends[e.b] == CLEAN;
      assert TaskTracks(TaskOf(w.tasks, OwnerOf(past, e.s)), Scopes(past, OwnerOf(past, e.s)));
      assert SessionTracks(w, past, e.s);
    }
    if (e.SetLocal? || e.SetSession? || e.Commit? || e.Rollback? || e.Close?) && e.s != s && InTransaction(w, s)
        && InTransaction(w, e.s) {
      OthersApart(w, s, e.s);
    }
  }

  lemma TracksStep(w: World, past: seq<Event>, e: Event)
    requires Tracks(w, past) && Enabled(w, e) && KeepsSession(w, e)
    ensures Tracks(Step(w, e), past + [e])
    ensures e.Statement? ==> PathOf(BackendOf(w, e.s)) == Expected(past, e.s)
  {
    StepKeepsOrder(w, past, e);
    forall t
      ensures TaskTracks(TaskOf(Step(w, e).tasks, t), Scopes(past + [e], t))
    {
      TasksTrack(w, past, e, t);
    }
    forall s | s in Step(w, e).sessions
      ensures SessionTracks(Step(w, e), past + [e], s)
    {
      SessionsTrack(w, past, e, s);
    }
    if e.Statement? {
      assert SessionTracks(w, past, e.s);
    }
  }

  lemma {:induction false} FollowsHistory(w: World, past: seq<Event>, es: seq<Event>)
    requires Tracks(w, past) && Runnable(w, es) && KeepsSessions(w, es)
    ensures Seen(w, es) == ExpectedSeen(past, es)
    decreases |es|
  {
    if es != [] {
      TracksStep(w, past, es[0]);
      FollowsHistory(Step(w, es[0]), past + [es[0]], es[1..]);
    }
  }

  /** From a clean start every statement of every run resolves names under the innermost scope its task
      was in at the BEGIN of its transaction, and under the default path if it was in none. */
  lemma StatementsFollowScopes(backends: map<BackendId, Backend>, es: seq<Event>)
    requires forall b | b in backends :: backends[b] == CLEAN
    requires Runnable(World(map[], map[], backends), es) && KeepsSessions(World(map[], map[], backends), es)
    ensures Seen(World(map[], map[], backends), es) == ExpectedSeen([], es)
  {
    FollowsHistory(World(map[], map[], backends), [], es);
  }

  // ---------------------------------------------------------------------------------------------
  // A session that keeps to its own scope
  // ---------------------------------------------------------------------------------------------

  /** Session s sets no path itself, and its task is in scope v at every BEGIN among `es`. */
  predicate KeepsToScope(past: seq<Event>, es: seq<Event>, s: SessionId, v: Path)
    decreases |es|
  {
    es == [] ||
    (&& (es[0].Begin? && es[0].s == s ==> Innermost(past, OwnerOf(past, s)) == v)
     && ((es[0].SetLocal? || es[0].SetSession?) ==> es[0].s != s)
     && KeepsToScope(past + [es[0]], es[1..], s, v))
  }

  /** Such a session sees its own tenant only, across all its commits and whatever other scopes its task
      opens and closes in between. */
  lemma {:induction false} SeesOnlyItsTenant(w: World, past: seq<Event>, es: seq<Event>, s: SessionId, v: Path)
    requires Tracks(w, past) && Runnable(w, es) && KeepsSessions(w, es) && KeepsToScope(past, es, s, v)
    requires InTransaction(w, s) ==> Expected(past, s) == v
    ensures forall p | (s, p) in Seen(w, es) :: p == v
    decreases |es|
  {
    if es != [] {
      TracksStep(w, past, es[0]);
      LastEvent(past, es[0]);
      SeesOnlyItsTenant(Step(w, es[0]), past + [es[0]], es[1..], s, v);
    }
  }

  /** The proviso is needed: a session of a scope that begins inside an inner one sees the inner tenant,
      whatever the two are. */
  lemma OuterSessionInInnerScope(w: World, t: TaskId, s: SessionId, b: BackendId, outer: Path, inner: Path)
    requires s !in w.sessions && IsFree(w, b) && w.backends[b] == CLEAN
    ensures var es := [Enter(t, outer), Open(t, s), Enter(t, inner), Begin(s, b), Statement(s)];
            Runnable(w, es) && Seen(w, es) == [(s, inner)]
  {
    var w1 := Step(w, Enter(t, outer));
    var w2 := Step(w1, Open(t, s));
    var w3 := Step(w2, Enter(t, inner));
    assert IsFree(w3, b);
    var w4 := Step(w3, Begin(s, b));
    assert BackendOf(w4, s) == Begun(CLEAN, inner);
    var es := [Enter(t, outer), Open(t, s), Enter(t, inner), Begin(s, b), Statement(s)];
    assert es == [Enter(t, outer)] + ([Open(t, s)] + ([Enter(t, inner)] + ([Begin(s, b)] + ([Statement(s)] + []))));
    Cons(w4, Statement(s), []);
    Cons(w3, Begin(s, b), [Statement(s)] + []);
    Cons(w2, Enter(t, inner), [Begin(s, b)] + ([Statement(s)] + []));
    Cons(w1, Open(t, s), [Enter(t, inner)] + ([Begin(s, b)] + ([Statement(s)] + [])));
    Cons(w, Enter(t, outer), [Open(t, s)] + ([Enter(t, inner)] + ([Begin(s, b)] + ([Statement(s)] + []))));
  }

  // ---------------------------------------------------------------------------------------------
  // Well-nested scopes
  // ---------------------------------------------------------------------------------------------

  /** How many scopes of task t the first n events open more than they close. */
  function Depth(es: seq<Event>, n: nat, t: TaskId): int
    requires n <= |es|
  {
    if n == 0 then 0
    else
      Depth(es, n - 1, t) + Opens(es[n - 1], t)
  }

  function Opens(e: Event, t: TaskId): int {
    if e.Enter? && e.t == t then 1 else if e.Leave? && e.t == t then -1 else 0
  }

  /** Every scope that closes was opened among the events, and all of those are closed. */
  predicate WellNested(es: seq<Event>, t: TaskId) {
    Depth(es, |es|, t) == 0 && forall n: nat | n <= |es| :: Depth(es, n, t) >= 0
  }

  lemma {:induction false} RunOneMore(w: World, es: seq<Event>, n: nat)
    requires n < |es| && Runnable(w, es)
    ensures Runnable(w, es[..n]) && Enabled(Run(w, es[..n]), es[n])
    ensures Runnable(w, es[..n + 1]) && Run(w, es[..n + 1]) == Step(Run(w, es[..n]), es[n])
    decreases n
  {
    assert es[..n + 1][1..] == es[1..][..n];
    if n > 0 {
      assert es[..n][1..] == es[1..][..n - 1];
      RunOneMore(Step(w, es[0]), es[1..], n - 1);
    }
  }

  /** The tokens k are those of k0, then the value of k0, then d - 1 more. */
  predicate Inside(k: Task, k0: Task, d: nat) {
    && |k.saved| == |k0.saved| + d
    && k.saved[..|k0.saved|] == k0.saved
    && (if d == 0 then k.ctx == k0.ctx else k.saved[|k0.saved|] == k0.ctx)
  }

  lemma StepInsideScopes(w: World, e: Event, k0: Task, d: nat, t: TaskId)
    requires Enabled(w, e) && Inside(TaskOf(w.tasks, t), k0, d) && d + Opens(e, t) >= 0
    ensures Inside(TaskOf(Step(w, e).tasks, t), k0, d + Opens(e, t))
  {
  }

  /** Inside, the task's tokens are those from outside, then the value from outside, then those of the
      scopes in between. */
  lemma {:induction false} InsideScopes(w: World, es: seq<Event>, n: nat, t: TaskId)
    requires n <= |es| && Runnable(w, es) && forall m: nat | m <= n :: Depth(es, m, t) >= 0
    ensures Runnable(w, es[..n])
    ensures Inside(TaskOf(Run(w, es[..n]).tasks, t), TaskOf(w.tasks, t), Depth(es, n, t))
    decreases n
  {
    if n > 0 {
      InsideScopes(w, es, n - 1, t);
      RunOneMore(w, es, n - 1);
      assert Depth(es, n, t) >= 0 && Depth(es, n - 1, t) >= 0;
      StepInsideScopes(Run(w, es[..n - 1]), es[n - 1], TaskOf(w.tasks, t), Depth(es, n - 1, t), t);
    }
  }

  /** Well-nested scopes, whether they end normally or by an exception, leave the context variable and
      the tokens as they found them, whatever all the other tasks do meanwhile. */
  lemma WellNestedRestores(w: World, es: seq<Event>, t: TaskId)
    requires Runnable(w, es) && WellNested(es, t)
    ensures TaskOf(Run(w, es).tasks, t) == TaskOf(w.tasks, t)
  {
    InsideScopes(w, es, |es|, t);
    assert es[..|es|] == es;
  }
}
