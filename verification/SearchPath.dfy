/**
 The tenant search-path protocol: tasks with a context variable, sessions that get any idle backend of
 a transaction pool at each BEGIN, and the hook that issues SET LOCAL there.  The pooled machine is
 compared with one in which every session has a connection of its own.
 */
module SearchPath {

  import opened Wrappers

  // A schema name; the empty one stands for no tenant, and for the default search path.
  type Path = string

  const DEFAULT: Path := ""

  // ---------------------------------------------------------------------------------------------
  // One backend
  // ---------------------------------------------------------------------------------------------

  /** The path of a PostgreSQL backend: the session's, one that SET gave it inside the transaction that
      is running, and one that SET LOCAL gave to this transaction alone. */
  datatype Backend = Backend(path: Path, pending: Option<Path>, local: Option<Path>)

  const CLEAN := Backend(DEFAULT, None, None)

  function PathOf(b: Backend): Path {
    if b.local.Some? then b.local.value
    else if b.pending.Some? then b.pending.value
    else b.path
  }

  /** BEGIN, followed by the hook: a task inside a tenant scope sets its path for this transaction. */
  function Begun(b: Backend, ctx: Path): Backend {
    if ctx != DEFAULT then b.(local := Some(ctx)) else b
  }

  function LocalSet(b: Backend, p: Path): Backend {
    b.(local := Some(p))
  }

  function SessionSet(b: Backend, p: Path): Backend {
    b.(pending := Some(p), local := None)
  }

  function Committed(b: Backend): Backend {
    Backend(if b.pending.Some? then b.pending.value else b.path, None, None)
  }

  function RolledBack(b: Backend): Backend {
    Backend(b.path, None, None)
  }

  // ---------------------------------------------------------------------------------------------
  // The pooled machine
  // ---------------------------------------------------------------------------------------------

  type TaskId = nat
  type SessionId = nat
  type BackendId = nat

  /** The value of the context variable, and the values the scopes that are open will put back. */
  datatype Task = Task(ctx: Path, saved: seq<Path>)

  const FRESH := Task(DEFAULT, [])

  datatype Session = Session(owner: TaskId, on: Option<BackendId>)

  datatype World = World(tasks: map<TaskId, Task>, sessions: map<SessionId, Session>, backends: map<BackendId, Backend>)

  datatype Event =
    | Enter(t: TaskId, scope: Path)
    | Leave(t: TaskId)
    | Open(t: TaskId, s: SessionId)
    | Close(s: SessionId)
    | Begin(s: SessionId, b: BackendId)
    | Statement(s: SessionId)
    | SetLocal(s: SessionId, p: Path)
    | SetSession(s: SessionId, p: Path)
    | Commit(s: SessionId)
    | Rollback(s: SessionId)

  function TaskOf(tasks: map<TaskId, Task>, t: TaskId): Task {
    if t in tasks then tasks[t] else FRESH
  }

  function Entered(k: Task, scope: Path): Task {
    Task(scope, k.saved + [k.ctx])
  }

  function Left(k: Task): Task
    requires k.saved != []
  {
    Task(k.saved[|k.saved| - 1], k.saved[..|k.saved| - 1])
  }

  predicate InTransaction(w: World, s: SessionId) {
    s in w.sessions && w.sessions[s].on.Some? && w.sessions[s].on.value in w.backends
  }

  predicate IsFree(w: World, b: BackendId) {
    b in w.backends && forall s | s in w.sessions :: w.sessions[s].on != Some(b)
  }

  function BackendOf(w: World, s: SessionId): Backend
    requires InTransaction(w, s)
  {
    w.backends[w.sessions[s].on.value]
  }

  predicate Enabled(w: World, e: Event) {
    match e
    case Enter(_, _) => true
    case Leave(t) => TaskOf(w.tasks, t).saved != []
    case Open(_, s) => s !in w.sessions
    case Close(s) => s in w.sessions && (w.sessions[s].on.Some? ==> InTransaction(w, s))
    case Begin(s, b) => s in w.sessions && w.sessions[s].on.None? && IsFree(w, b)
    case Statement(s) => InTransaction(w, s)
    case SetLocal(s, _) => InTransaction(w, s)
    case SetSession(s, _) => InTransaction(w, s)
    case Commit(s) => InTransaction(w, s)
    case Rollback(s) => InTransaction(w, s)
  }

  function OnBackend(w: World, s: SessionId, b: Backend): World
    requires InTransaction(w, s)
  {
    w.(backends := w.backends[w.sessions[s].on.value := b])
  }

  function Rested(w: World, s: SessionId, b: Backend): World
    requires InTransaction(w, s)
  {
    OnBackend(w, s, b).(sessions := w.sessions[s := w.sessions[s].(on := None)])
  }

  function Step(w: World, e: Event): World
    requires Enabled(w, e)
  {
    match e
    case Enter(t, scope) => w.(tasks := w.tasks[t := Entered(TaskOf(w.tasks, t), scope)])
    case Leave(t) => w.(tasks := w.tasks[t := Left(TaskOf(w.tasks, t))])
    case Open(t, s) => w.(sessions := w.sessions[s := Session(t, None)])
    case Close(s) =>
      // a session that is closed inside a transaction rolls it back
      var w1 := if w.sessions[s].on.Some? then Rested(w, s, RolledBack(BackendOf(w, s))) else w;
      w1.(sessions := w1.sessions - {s})
    case Begin(s, b) =>
      w.(sessions := w.sessions[s := w.sessions[s].(on := Some(b))],
         backends := w.backends[b := Begun(w.backends[b], TaskOf(w.tasks, w.sessions[s].owner).ctx)])
    case Statement(s) => w
    case SetLocal(s, p) => OnBackend(w, s, LocalSet(BackendOf(w, s), p))
    case SetSession(s, p) => OnBackend(w, s, SessionSet(BackendOf(w, s), p))
    case Commit(s) => Rested(w, s, Committed(BackendOf(w, s)))
    case Rollback(s) => Rested(w, s, RolledBack(BackendOf(w, s)))
  }

  predicate Runnable(w: World, es: seq<Event>)
    decreases |es|
  {
    es == [] || (Enabled(w, es[0]) && Runnable(Step(w, es[0]), es[1..]))
  }

  function Run(w: World, es: seq<Event>): World
    requires Runnable(w, es)
    decreases |es|
  {
    if es == [] then w else Run(Step(w, es[0]), es[1..])
  }

  /** What the statements of a run saw: which session, under which path. */
  function Seen(w: World, es: seq<Event>): seq<(SessionId, Path)>
    requires Runnable(w, es)
    decreases |es|
  {
    if es == [] then []
    else (if es[0].Statement? then [(es[0].s, PathOf(BackendOf(w, es[0].s)))] else []) + Seen(Step(w, es[0]), es[1..])
  }

  // ---------------------------------------------------------------------------------------------
  // The machine with private connections
  // ---------------------------------------------------------------------------------------------

  /** A session with a backend of its own, and whether a transaction is running on it. */
  datatype Private = Private(owner: TaskId, active: bool, backend: Backend)

  datatype Ideal = Ideal(tasks: map<TaskId, Task>, sessions: map<SessionId, Private>)

  predicate IsActive(i: Ideal, s: SessionId) {
    s in i.sessions && i.sessions[s].active
  }

  predicate IdealEnabled(i: Ideal, e: Event) {
    match e
    case Enter(_, _) => true
    case Leave(t) => TaskOf(i.tasks, t).saved != []
    case Open(_, s) => s !in i.sessions
    case Close(s) => s in i.sessions
    case Begin(s, _) => s in i.sessions && !i.sessions[s].active
    case Statement(s) => IsActive(i, s)
    case SetLocal(s, _) => IsActive(i, s)
    case SetSession(s, _) => IsActive(i, s)
    case Commit(s) => IsActive(i, s)
    case Rollback(s) => IsActive(i, s)
  }

  function Replaced(i: Ideal, s: SessionId, active: bool, b: Backend): Ideal
    requires s in i.sessions
  {
    i.(sessions := i.sessions[s := Private(i.sessions[s].owner, active, b)])
  }

  function IdealStep(i: Ideal, e: Event): Ideal
    requires IdealEnabled(i, e)
  {
    match e
    case Enter(t, scope) => i.(tasks := i.tasks[t := Entered(TaskOf(i.tasks, t), scope)])
    case Leave(t) => i.(tasks := i.tasks[t := Left(TaskOf(i.tasks, t))])
    case Open(t, s) => i.(sessions := i.sessions[s := Private(t, false, CLEAN)])
    case Close(s) => i.(sessions := i.sessions - {s})
    case Begin(s, _) => Replaced(i, s, true, Begun(i.sessions[s].backend, TaskOf(i.tasks, i.sessions[s].owner).ctx))
    case Statement(s) => i
    case SetLocal(s, p) => Replaced(i, s, true, LocalSet(i.sessions[s].backend, p))
    case SetSession(s, p) => Replaced(i, s, true, SessionSet(i.sessions[s].backend, p))
    case Commit(s) => Replaced(i, s, false, Committed(i.sessions[s].backend))
    case Rollback(s) => Replaced(i, s, false, RolledBack(i.sessions[s].backend))
  }

  predicate IdealRunnable(i: Ideal, es: seq<Event>)
    decreases |es|
  {
    es == [] || (IdealEnabled(i, es[0]) && IdealRunnable(IdealStep(i, es[0]), es[1..]))
  }

  function IdealSeen(i: Ideal, es: seq<Event>): seq<(SessionId, Path)>
    requires IdealRunnable(i, es)
    decreases |es|
  {
    if es == [] then []
    else
      (if es[0].Statement? then [(es[0].s, PathOf(i.sessions[es[0].s].backend))] else []) +
      IdealSeen(IdealStep(i, es[0]), es[1..])
  }

  // ---------------------------------------------------------------------------------------------
  // Refinement
  // ---------------------------------------------------------------------------------------------

  /** No two sessions share a backend, and every session in a transaction is on a backend there is. */
  ghost predicate Placed(w: World) {
    && (forall s | s in w.sessions && w.sessions[s].on.Some? :: w.sessions[s].on.value in w.backends)
    && (forall s, s' | s in w.sessions && s' in w.sessions && w.sessions[s].on.Some?
        && w.sessions[s].on == w.sessions[s'].on ::
          s == s')
  }

  ghost predicate IdleClean(w: World) {
    forall b | IsFree(w, b) :: w.backends[b] == CLEAN
  }

  /** The pooled machine looks like the private one: same tasks, and each session that is in a
      transaction is on a backend in the state of its private one. */
  ghost predicate LooksLike(w: World, i: Ideal) {
    && Placed(w) && IdleClean(w)
    && w.tasks == i.tasks
    && w.sessions.Keys == i.sessions.Keys
    && (forall s | s in w.sessions ::
          && w.sessions[s].owner == i.sessions[s].owner
          && w.sessions[s].on.Some? == i.sessions[s].active
          && i.sessions[s].backend.path == DEFAULT
          && (if w.sessions[s].on.Some? then BackendOf(w, s) == i.sessions[s].backend
              else i.sessions[s].backend == CLEAN))
  }

  /** A step that does not commit a session-level SET to a tenant's path.  The engine of `app/database.py`
      keeps to this; the workers and the migrations, on engines of their own, do not. */
  predicate KeepsSession(w: World, e: Event) {
    e.Commit? && InTransaction(w, e.s) ==> BackendOf(w, e.s).pending in {None, Some(DEFAULT)}
  }

  predicate KeepsSessions(w: World, es: seq<Event>)
    requires Runnable(w, es)
    decreases |es|
  {
    es == [] || (KeepsSession(w, es[0]) && KeepsSessions(Step(w, es[0]), es[1..]))
  }

  lemma RestKeepsPlaced(w: World, s: SessionId, b: Backend)
    requires Placed(w) && InTransaction(w, s)
    ensures Placed(Rested(w, s, b))
    ensures forall c | IsFree(Rested(w, s, b), c) :: c == w.sessions[s].on.value || IsFree(w, c)
  {
    var w1 := Rested(w, s, b);
    forall c: BackendId | IsFree(w1, c) && c != w.sessions[s].on.value
      ensures IsFree(w, c)
    {
      forall s' | s' in w.sessions
        ensures w.sessions[s'].on != Some(c)
      {
        assert s' in w1.sessions;
      }
    }
  }

  lemma ScopeLooksLike(w: World, i: Ideal, tasks: map<TaskId, Task>)
    requires LooksLike(w, i)
    ensures LooksLike(w.(tasks := tasks), i.(tasks := tasks))
  {
    var w1 := w.(tasks := tasks);
    assert forall c :: IsFree(w1, c) == IsFree(w, c);
    assert forall s | InTransaction(w1, s) :: BackendOf(w1, s) == BackendOf(w, s);
  }

  lemma EndLooksLike(w: World, i: Ideal, s: SessionId)
    requires LooksLike(w, i) && InTransaction(w, s)
    ensures LooksLike(Rested(w, s, CLEAN), Replaced(i, s, false, CLEAN))
  {
    RestKeepsPlaced(w, s, CLEAN);
  }

  lemma BeginLooksLike(w: World, i: Ideal, s: SessionId, b: BackendId)
    requires LooksLike(w, i) && Enabled(w, Begin(s, b))
    ensures LooksLike(Step(w, Begin(s, b)), IdealStep(i, Begin(s, b)))
  {
    var w1 := Step(w, Begin(s, b));
    forall c: BackendId | IsFree(w1, c)
      ensures IsFree(w, c) && w1.backends[c] == w.backends[c]
    {
      assert w1.sessions[s].on == Some(b);
      forall s' | s' in w.sessions
        ensures w.sessions[s'].on != Some(c)
      {
        assert s' in w1.sessions;
      }
    }
  }

  lemma InsideLooksLike(w: World, i: Ideal, s: SessionId, b: Backend)
    requires LooksLike(w, i) && InTransaction(w, s) && b.path == DEFAULT
    ensures LooksLike(OnBackend(w, s, b), Replaced(i, s, true, b))
  {
    var w1 := OnBackend(w, s, b);
    forall c: BackendId | IsFree(w1, c)
      ensures IsFree(w, c) && c != w.sessions[s].on.value
    {
      assert w.sessions == w1.sessions;
    }
  }

  lemma OpenLooksLike(w: World, i: Ideal, t: TaskId, s: SessionId)
    requires LooksLike(w, i) && s !in w.sessions
    ensures LooksLike(Step(w, Open(t, s)), IdealStep(i, Open(t, s)))
  {
    var w1 := Step(w, Open(t, s));
    forall c: BackendId | IsFree(w1, c)
      ensures IsFree(w, c)
    {
      forall s' | s' in w.sessions
        ensures w.sessions[s'].on != Some(c)
      {
        assert s' in w1.sessions;
      }
    }
  }

  lemma RemoveLooksLike(w: World, i: Ideal, s: SessionId)
    requires LooksLike(w, i) && s in w.sessions && w.sessions[s].on.None?
    ensures LooksLike(w.(sessions := w.sessions - {s}), i.(sessions := i.sessions - {s}))
  {
    var w1 := w.(sessions := w.sessions - {s});
    forall c: BackendId | IsFree(w1, c)
      ensures IsFree(w, c)
    {
      forall s' | s' in w.sessions
        ensures w.sessions[s'].on != Some(c)
      {
        assert s' == s || s' in w1.sessions;
      }
    }
  }

  /** One step of the pooled machine is one step of the private one, whatever backend it is given. */
  lemma StepLooksLike(w: World, i: Ideal, e: Event)
    requires LooksLike(w, i) && Enabled(w, e) && KeepsSession(w, e)
    ensures IdealEnabled(i, e) && LooksLike(Step(w, e), IdealStep(i, e))
    ensures e.Statement? ==> PathOf(BackendOf(w, e.s)) == PathOf(i.sessions[e.s].backend)
  {
    match e
    case Enter(t, scope) => ScopeLooksLike(w, i, Step(w, e).tasks);
    case Leave(t) => ScopeLooksLike(w, i, Step(w, e).tasks);
    case Open(t, s) => OpenLooksLike(w, i, t, s);
    case Close(s) =>
      if w.sessions[s].on.Some? {
        EndLooksLike(w, i, s);
        assert RolledBack(BackendOf(w, s)) == CLEAN;
        RemoveLooksLike(Rested(w, s, CLEAN), Replaced(i, s, false, CLEAN), s);
        assert Replaced(i, s, false, CLEAN).sessions - {s} == i.sessions - {s};
      } else {
        RemoveLooksLike(w, i, s);
      }
    case Begin(s, b) => BeginLooksLike(w, i, s, b);
    case Statement(s) =>
    case SetLocal(s, p) => InsideLooksLike(w, i, s, LocalSet(BackendOf(w, s), p));
    case SetSession(s, p) => InsideLooksLike(w, i, s, SessionSet(BackendOf(w, s), p));
    case Commit(s) => EndLooksLike(w, i, s);
    case Rollback(s) => EndLooksLike(w, i, s);
  }

  /** For any number of tasks, sessions and backends, any interleaving and any choice of backends: a run
      that commits no session-level SET to a tenant's path shows every statement the path it would see on
      a private connection. */
  lemma {:induction false} PoolRefinesPrivate(w: World, i: Ideal, es: seq<Event>)
    requires LooksLike(w, i) && Runnable(w, es) && KeepsSessions(w, es)
    ensures IdealRunnable(i, es) && Seen(w, es) == IdealSeen(i, es)
    ensures IdleClean(Run(w, es))
    decreases |es|
  {
    if es != [] {
      StepLooksLike(w, i, es[0]);
      PoolRefinesPrivate(Step(w, es[0]), IdealStep(i, es[0]), es[1..]);
    }
  }

  // ---------------------------------------------------------------------------------------------
  // When the pool is safe
  // ---------------------------------------------------------------------------------------------

  /** The private machine with the same tasks and sessions, none of them in a transaction. */
  function IdealOf(w: World): Ideal {
    Ideal(w.tasks, map s | s in w.sessions :: Private(w.sessions[s].owner, false, CLEAN))
  }

  /** No transaction is running. */
  ghost predicate Resting(w: World) {
    && (forall s | s in w.sessions :: w.sessions[s].on.None?)
    && (forall b | b in w.backends :: w.backends[b].pending.None? && w.backends[b].local.None?)
  }

  /** Whatever happens next, short of committing a session-level SET, every statement sees the path it
      would see on a private connection. */
  ghost predicate Isolated(w: World) {
    forall es | Runnable(w, es) && KeepsSessions(w, es) ::
      IdealRunnable(IdealOf(w), es) && Seen(w, es) == IdealSeen(IdealOf(w), es)
  }

  lemma Cons(w: World, e: Event, es: seq<Event>)
    requires Enabled(w, e) && Runnable(Step(w, e), es)
    ensures Runnable(w, [e] + es)
    ensures Seen(w, [e] + es) ==
            (if e.Statement? then [(e.s, PathOf(BackendOf(w, e.s)))] else []) + Seen(Step(w, e), es)
    ensures Run(w, [e] + es) == Run(Step(w, e), es)
  {
    assert ([e] + es)[1..] == es;
  }

  lemma IdealCons(i: Ideal, e: Event, es: seq<Event>)
    requires IdealEnabled(i, e) && IdealRunnable(IdealStep(i, e), es)
    ensures IdealRunnable(i, [e] + es)
    ensures IdealSeen(i, [e] + es) ==
            (if e.Statement? then [(e.s, PathOf(i.sessions[e.s].backend))] else []) + IdealSeen(IdealStep(i, e), es)
  {
    assert ([e] + es)[1..] == es;
  }

  lemma {:induction false} WithoutCommit(w: World, es: seq<Event>)
    requires Runnable(w, es) && forall e | e in es :: !e.Commit?
    ensures KeepsSessions(w, es)
    decreases |es|
  {
    if es != [] { WithoutCommit(Step(w, es[0]), es[1..]); }
  }

  /** A backend left on a tenant's path shows it to the next session without a tenant. */
  lemma DirtyBackendLeaks(w: World, b: BackendId, t: TaskId, s: SessionId)
    requires IsFree(w, b) && w.backends[b].path != DEFAULT && w.backends[b].pending.None? && w.backends[b].local.None?
    requires TaskOf(w.tasks, t).ctx == DEFAULT && s !in w.sessions
    ensures var es := [Open(t, s), Begin(s, b), Statement(s)];
            && Runnable(w, es) && KeepsSessions(w, es) && Seen(w, es) == [(s, w.backends[b].path)]
            && (forall i: Ideal | i.tasks == w.tasks && i.sessions.Keys == w.sessions.Keys ::
                  IdealRunnable(i, es) && IdealSeen(i, es) == [(s, DEFAULT)])
  {
    var w1 := Step(w, Open(t, s));
    assert IsFree(w1, b);
    var w2 := Step(w1, Begin(s, b));
    assert BackendOf(w2, s) == w.backends[b];
    Cons(w2, Statement(s), []);
    Cons(w1, Begin(s, b), [Statement(s)] + []);
    Cons(w, Open(t, s), [Begin(s, b)] + ([Statement(s)] + []));
    assert [Open(t, s), Begin(s, b), Statement(s)] == [Open(t, s)] + ([Begin(s, b)] + ([Statement(s)] + []));
    WithoutCommit(w, [Open(t, s), Begin(s, b), Statement(s)]);
    forall i: Ideal | i.tasks == w.tasks && i.sessions.Keys == w.sessions.Keys
      ensures IdealRunnable(i, [Open(t, s), Begin(s, b), Statement(s)])
      ensures IdealSeen(i, [Open(t, s), Begin(s, b), Statement(s)]) == [(s, DEFAULT)]
    {
      CleanSessionSeesDefault(i, b, t, s);
    }
  }

  lemma CleanSessionSeesDefault(i: Ideal, b: BackendId, t: TaskId, s: SessionId)
    requires TaskOf(i.tasks, t).ctx == DEFAULT && s !in i.sessions
    ensures var es := [Open(t, s), Begin(s, b), Statement(s)];
            IdealRunnable(i, es) && IdealSeen(i, es) == [(s, DEFAULT)]
  {
    var i1 := IdealStep(i, Open(t, s));
    var i2 := IdealStep(i1, Begin(s, b));
    assert i2.sessions[s] == Private(t, true, CLEAN);
    IdealCons(i2, Statement(s), []);
    IdealCons(i1, Begin(s, b), [Statement(s)] + []);
    IdealCons(i, Open(t, s), [Begin(s, b)] + ([Statement(s)] + []));
    assert [Open(t, s), Begin(s, b), Statement(s)] == [Open(t, s)] + ([Begin(s, b)] + ([Statement(s)] + []));
  }

  /** Between transactions the pool is safe exactly if every backend is on the default path. */
  lemma IsolatedIffClean(w: World, t: TaskId, s: SessionId)
    requires Placed(w) && Resting(w) && TaskOf(w.tasks, t).ctx == DEFAULT && s !in w.sessions
    ensures Isolated(w) <==> IdleClean(w)
  {
    if IdleClean(w) {
      forall es | Runnable(w, es) && KeepsSessions(w, es)
        ensures IdealRunnable(IdealOf(w), es) && Seen(w, es) == IdealSeen(IdealOf(w), es)
      {
        PoolRefinesPrivate(w, IdealOf(w), es);
      }
    } else {
      var b: BackendId :| IsFree(w, b) && w.backends[b] != CLEAN;
      DirtyBackendLeaks(w, b, t, s);
      assert IdealOf(w).sessions.Keys == w.sessions.Keys;
    }
  }

  /** Committing a session-level SET to a tenant's path leaves such a backend behind: the guard of the
      refinement cannot be dropped. */
  lemma CommittedSetLeaks(w: World, s: SessionId, t: TaskId, s': SessionId)
    requires Placed(w) && InTransaction(w, s) && !KeepsSession(w, Commit(s))
    requires TaskOf(w.tasks, t).ctx == DEFAULT && s' !in w.sessions
    ensures var b, p := w.sessions[s].on.value, BackendOf(w, s).pending.value;
            var es := [Commit(s), Open(t, s'), Begin(s', b), Statement(s')];
            Runnable(w, es) && Seen(w, es) == [(s', p)] && p != DEFAULT
  {
    var b, p := w.sessions[s].on.value, BackendOf(w, s).pending.value;
    var es := [Commit(s), Open(t, s'), Begin(s', b), Statement(s')];
    var w1 := Step(w, Commit(s));
    assert IsFree(w1, b);
    DirtyBackendLeaks(w1, b, t, s');
    assert es[1..] == [Open(t, s'), Begin(s', b), Statement(s')];
  }

  // ---------------------------------------------------------------------------------------------
  // A path carried over a commit
  // ---------------------------------------------------------------------------------------------

  /** A session that sets its path for the session, commits, and goes on in a second transaction on
      backend b. */
  function Carried(s: SessionId, p: Path, b: BackendId): seq<Event> {
    [SetSession(s, p)] + ([Commit(s)] + ([Begin(s, b)] + [Statement(s)]))
  }

  /** The migrations and the workers rely on this.  It works if the second BEGIN happens to get the same
      backend back; on any other clean one the statement runs under the default path, and the path stays
      behind on the first.  On a private connection it always works. */
  lemma CarriedOverACommit(w: World, s: SessionId, p: Path, b: BackendId)
    requires Placed(w) && InTransaction(w, s) && p != DEFAULT
    requires TaskOf(w.tasks, w.sessions[s].owner).ctx == DEFAULT
    requires b == w.sessions[s].on.value || (IsFree(w, b) && w.backends[b] == CLEAN)
    ensures Runnable(w, Carried(s, p, b)) && !KeepsSessions(w, Carried(s, p, b))
    ensures Seen(w, Carried(s, p, b)) == [(s, if b == w.sessions[s].on.value then p else DEFAULT)]
    ensures LeavesPath(Run(w, Carried(s, p, b)), w.sessions[s].on.value, p)
  {
    var w3 := CarriedStates(w, s, p, b);
    var w1, rest := Step(w, SetSession(s, p)), [Begin(s, b)] + [Statement(s)];
    var w2 := Step(w1, Commit(s));
    Cons(w2, Begin(s, b), [Statement(s)]);
    Cons(w1, Commit(s), rest);
    Cons(w, SetSession(s, p), [Commit(s)] + rest);
    assert Carried(s, p, b)[1..] == [Commit(s)] + rest;
    assert !KeepsSession(w1, Commit(s));
  }

  predicate LeavesPath(w: World, b: BackendId, p: Path) {
    b in w.backends && w.backends[b].path == p
  }

  lemma CarriedStates(w: World, s: SessionId, p: Path, b: BackendId) returns (w3: World)
    requires Placed(w) && InTransaction(w, s) && p != DEFAULT
    requires TaskOf(w.tasks, w.sessions[s].owner).ctx == DEFAULT
    requires b == w.sessions[s].on.value || (IsFree(w, b) && w.backends[b] == CLEAN)
    ensures Enabled(w, SetSession(s, p))
    ensures var w1 := Step(w, SetSession(s, p));
            && Enabled(w1, Commit(s)) && !KeepsSession(w1, Commit(s))
            && var w2 := Step(w1, Commit(s));
            && Enabled(w2, Begin(s, b)) && Step(w2, Begin(s, b)) == w3
    ensures Runnable(w3, [Statement(s)]) && Run(w3, [Statement(s)]) == w3
    ensures Seen(w3, [Statement(s)]) == [(s, if b == w.sessions[s].on.value then p else DEFAULT)]
    ensures LeavesPath(w3, w.sessions[s].on.value, p)
  {
    var first := w.sessions[s].on.value;
    var w1 := Step(w, SetSession(s, p));
    var w2 := Step(w1, Commit(s));
    assert w2.backends[first] == Backend(p, None, None);
    assert IsFree(w2, b);
    w3 := Step(w2, Begin(s, b));
    assert BackendOf(w3, s) == w2.backends[b];
  }

  lemma CarriedOnAPrivateOne(i: Ideal, s: SessionId, p: Path, b: BackendId)
    requires IsActive(i, s) && p != DEFAULT && TaskOf(i.tasks, i.sessions[s].owner).ctx == DEFAULT
    ensures IdealRunnable(i, Carried(s, p, b)) && IdealSeen(i, Carried(s, p, b)) == [(s, p)]
  {
    var i1 := IdealStep(i, SetSession(s, p));
    var i2 := IdealStep(i1, Commit(s));
    var i3 := IdealStep(i2, Begin(s, b));
    assert i3.sessions[s].backend == Backend(p, None, None);
    IdealCons(i3, Statement(s), []);
    IdealCons(i2, Begin(s, b), [Statement(s)] + []);
    IdealCons(i1, Commit(s), [Begin(s, b)] + ([Statement(s)] + []));
    IdealCons(i, SetSession(s, p), [Commit(s)] + ([Begin(s, b)] + ([Statement(s)] + [])));
    assert Carried(s, p, b) == [SetSession(s, p)] + ([Commit(s)] + ([Begin(s, b)] + ([Statement(s)] + [])));
  }

  /** A pooled session keeps its path over a commit, as it would on a private connection, if and only if
      it is given the same backend again. */
  lemma CarriedIffSameBackend(w: World, i: Ideal, s: SessionId, p: Path, b: BackendId)
    requires LooksLike(w, i) && InTransaction(w, s) && p != DEFAULT
    requires TaskOf(w.tasks, w.sessions[s].owner).ctx == DEFAULT
    requires b == w.sessions[s].on.value || IsFree(w, b)
    ensures Runnable(w, Carried(s, p, b)) && IdealRunnable(i, Carried(s, p, b))
    ensures Seen(w, Carried(s, p, b)) == IdealSeen(i, Carried(s, p, b)) <==> b == w.sessions[s].on.value
  {
    CarriedOverACommit(w, s, p, b);
    CarriedOnAPrivateOne(i, s, p, b);
  }

  /** The migration of a tenant, on a pool of two clean backends. */
  lemma MigrationOnThePool()
    ensures var w := World(map[], map[0 := Session(0, Some(0))], map[0 := CLEAN, 1 := CLEAN]);
            && Runnable(w, Carried(0, "tenant_a", 1)) && Seen(w, Carried(0, "tenant_a", 1)) == [(0, DEFAULT)]
            && Runnable(w, Carried(0, "tenant_a", 0)) && Seen(w, Carried(0, "tenant_a", 0)) == [(0, "tenant_a")]
  {
    var w := World(map[], map[0 := Session(0, Some(0))], map[0 := CLEAN, 1 := CLEAN]);
    CarriedOverACommit(w, 0, "tenant_a", 0);
    CarriedOverACommit(w, 0, "tenant_a", 1);
  }
}
