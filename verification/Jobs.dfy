/**
 The job row and the entity row that a Celery task keeps: the callbacks of `VidyaTask`, deliveries with
 retries, writes that get lost, and redelivery after a late acknowledgement.
 */
module Jobs {

  import opened Wrappers

  type Time = nat

  datatype Status = PENDING | RUNNING | SUCCESS | FAILED | CANCELLED

  predicate IsTerminal(s: Status) {
    s == SUCCESS || s == FAILED || s == CANCELLED
  }

  datatype JobRow = JobRow(status: Status, startedAt: Option<Time>, completedAt: Option<Time>,
                           result: Option<string>, error: Option<string>)

  const QUEUED := JobRow(PENDING, None, None, None, None)

  // ---------------------------------------------------------------------------------------------
  // One status write
  // ---------------------------------------------------------------------------------------------

  datatype Write = Write(status: Status, result: Option<string>, error: Option<string>)

  /** One part of the SET clause. */
  datatype Assignment =
    | SetStatus(status: Status)
    | SetStarted(at: Time)
    | SetCompleted(at: Time)
    | SetResult(result: string)
    | SetError(error: string)

  function Assigned(row: JobRow, a: Assignment): JobRow {
    match a
    case SetStatus(s) => row.(status := s)
    case SetStarted(t) => row.(startedAt := Some(t))
    case SetCompleted(t) => row.(completedAt := Some(t))
    case SetResult(r) => row.(result := Some(r))
    case SetError(e) => row.(error := Some(e))
  }

  function AllAssigned(row: JobRow, parts: seq<Assignment>): JobRow {
    if parts == [] then row else Assigned(AllAssigned(row, parts[..|parts| - 1]), parts[|parts| - 1])
  }

  /** The SET clause of a status write. */
  function Parts(w: Write, now: Time): seq<Assignment> {
    [SetStatus(w.status)] +
    (if w.status == RUNNING then [SetStarted(now)] else []) +
    (if IsTerminal(w.status) then [SetCompleted(now)] else []) +
    (if w.result.Some? then [SetResult(w.result.value)] else []) +
    (if w.error.Some? then [SetError(w.error.value)] else [])
  }

  /** The row after a status write at time `now`: a terminal status stamps completed_at, RUNNING stamps
      started_at, and what is not given stays. */
  function Written(row: JobRow, w: Write, now: Time): JobRow {
    JobRow(
      w.status,
      if w.status == RUNNING then Some(now) else row.startedAt,
      if IsTerminal(w.status) then Some(now) else row.completedAt,
      if w.result.Some? then w.result else row.result,
      if w.error.Some? then w.error else row.error)
  }

  /** The schema-qualified row that a failed task may have to revert. */
  type EntityKey = (string, string, string)

  datatype EntityRow = EntityRow(status: string, updatedAt: Time)

  /** The keyword arguments of a task; the empty string stands for an argument that is missing. */
  datatype Kwargs = Kwargs(jobId: string, revertTable: string, revertPk: string, revertSchema: string,
      revertStatus: string)

  predicate WantsRevert(k: Kwargs) {
    k.revertTable != "" && k.revertPk != "" && k.revertSchema != "" && k.revertStatus != ""
  }

  function Target(k: Kwargs): EntityKey {
    (k.revertSchema, k.revertTable, k.revertPk)
  }

  function JobsAfter(jobs: map<string, JobRow>, id: string, w: Write, now: Time, lands: bool): map<string, JobRow> {
    if id != "" && lands && id in jobs then jobs[id := Written(jobs[id], w, now)] else jobs
  }

  function EntitiesAfter(entities: map<EntityKey, EntityRow>, k: Kwargs, now: Time, lands: bool)
    : map<EntityKey, EntityRow>
  {
    if WantsRevert(k) && lands && Target(k) in entities then entities[Target(k) := EntityRow(k.revertStatus, now)]
    else entities
  }

  /** The tables a task writes.  `lands` is false for a statement that raises: the exception is logged
      and swallowed. */
  class TaskTables {
    var jobs: map<string, JobRow>
    var entities: map<EntityKey, EntityRow>

    constructor (j: map<string, JobRow>, e: map<EntityKey, EntityRow>)
      ensures jobs == j && entities == e
    {
      jobs, entities := j, e;
    }

    method WriteStatus(id: string, w: Write, now: Time, lands: bool)
      requires id != ""
      modifies this`jobs
      ensures jobs == JobsAfter(old(jobs), id, w, now, lands)
      ensures jobs.Keys == old(jobs).Keys
      ensures forall other | other in jobs && other != id :: jobs[other] == old(jobs)[other]
    {
      var parts := [SetStatus(w.status)];
      if w.status == RUNNING {
        parts := parts + [SetStarted(now)];
      }
      if w.status in {SUCCESS, FAILED, CANCELLED} {
        parts := parts + [SetCompleted(now)];
      }
      if w.result.Some? {
        parts := parts + [SetResult(w.result.value)];
      }
      if w.error.Some? {
        parts := parts + [SetError(w.error.value)];
      }
      assert parts == Parts(w, now);
      if lands && id in jobs {
        PartsWrite(jobs[id], w, now);
        jobs := jobs[id := AllAssigned(jobs[id], parts)];
      }
    }

    method RevertEntityStatus(k: Kwargs, now: Time, lands: bool)
      requires WantsRevert(k)
      modifies this`entities
      ensures entities == EntitiesAfter(old(entities), k, now, lands)
      ensures entities.Keys == old(entities).Keys
      ensures forall key | key in entities && key != Target(k) :: entities[key] == old(entities)[key]
      ensures lands && Target(k) in entities ==> entities[Target(k)] == EntityRow(k.revertStatus, now)
    {
      if lands && Target(k) in entities {
        entities := entities[Target(k) := EntityRow(k.revertStatus, now)];
      }
    }

    method BeforeStart(k: Kwargs, now: Time, lands: bool)
      modifies this`jobs
      ensures jobs == JobsAfter(old(jobs), k.jobId, Write(RUNNING, None, None), now, lands)
    {
      if k.jobId != "" {
        WriteStatus(k.jobId, Write(RUNNING, None, None), now, lands);
      }
    }

    method OnSuccess(k: Kwargs, retval: Option<string>, now: Time, lands: bool)
      modifies this`jobs
      ensures jobs == JobsAfter(old(jobs), k.jobId, Write(SUCCESS, retval, None), now, lands)
    {
      if k.jobId != "" {
        WriteStatus(k.jobId, Write(SUCCESS, retval, None), now, lands);
      }
    }

    method OnFailure(k: Kwargs, error: string, now: Time, jobLands: bool, revertLands: bool)
      modifies this
      ensures jobs == JobsAfter(old(jobs), k.jobId, Write(FAILED, None, Some(error)), now, jobLands)
      ensures entities == EntitiesAfter(old(entities), k, now, revertLands)
      ensures jobs.Keys == old(jobs).Keys
      ensures forall id | id in jobs && id != k.jobId :: jobs[id] == old(jobs)[id]
      ensures entities.Keys == old(entities).Keys
      ensures forall key | key in entities && key != Target(k) :: entities[key] == old(entities)[key]
    {
      if k.jobId != "" {
        WriteStatus(k.jobId, Write(FAILED, None, Some(error)), now, jobLands);
      }
      if WantsRevert(k) {
        RevertEntityStatus(k, now, revertLands);
      }
    }
  }

  lemma PartsWrite(row: JobRow, w: Write, now: Time)
    ensures AllAssigned(row, Parts(w, now)) == Written(row, w, now)
  {
    var a := [SetStatus(w.status)];
    var b := if w.status == RUNNING then [SetStarted(now)] else [];
    var c := if IsTerminal(w.status) then [SetCompleted(now)] else [];
    var d := if w.result.Some? then [SetResult(w.result.value)] else [];
    var e := if w.error.Some? then [SetError(w.error.value)] else [];
    AssignedAfter(row, [], a);
    AssignedAfter(row, a, b);
    AssignedAfter(row, a + b, c);
    AssignedAfter(row, a + b + c, d);
    AssignedAfter(row, a + b + c + d, e);
    assert [] + a == a;
  }

  lemma AssignedAfter(row: JobRow, a: seq<Assignment>, b: seq<Assignment>)
    requires |b| <= 1
    ensures AllAssigned(row, a + b) == if b == [] then AllAssigned(row, a) else Assigned(AllAssigned(row, a), b[0])
  {
    if b == [] {
      assert a + b == a;
    } else {
      assert (a + b)[..|a + b| - 1] == a;
    }
  }

  // ---------------------------------------------------------------------------------------------
  // Deliveries
  // ---------------------------------------------------------------------------------------------

  const MAX_RETRIES := 3

  /** How a delivery ends: with a result, with an error that is not retried any more, or with the death
      of the worker, in which case nothing is acknowledged. */
  datatype Finish = Returned(result: Option<string>) | Raised(error: string) | Died

  /** A delivery of the message: `attempts` counts the executions, each announced by before_start. */
  datatype Delivery = Delivery(attempts: nat, finish: Finish)

  predicate IsDelivery(d: Delivery) {
    d.attempts <= MAX_RETRIES + 1 && (d.attempts == 0 ==> d.finish.Died?)
  }

  function Repeat(w: Write, n: nat): seq<Write> {
    if n == 0 then [] else Repeat(w, n - 1) + [w]
  }

  function Final(f: Finish): seq<Write> {
    match f
    case Returned(r) => [Write(SUCCESS, r, None)]
    case Raised(e) => [Write(FAILED, None, Some(e))]
    case Died => []
  }

  /** The status writes of a delivery, in order. */
  function Writes(d: Delivery): seq<Write> {
    Repeat(Write(RUNNING, None, None), d.attempts) + Final(d.finish)
  }

  /** The row after the first n writes, those that land; time passes with every write. */
  function After(row: JobRow, ws: seq<Write>, lands: seq<bool>, n: nat): JobRow
    requires n <= |ws| == |lands|
  {
    if n == 0 then row
    else
      var before := After(row, ws, lands, n - 1);
      if lands[n - 1] then Written(before, ws[n - 1], n) else before
  }

  predicate Landed(ws: seq<Write>, lands: seq<bool>, n: nat, i: int)
    requires n <= |ws| == |lands|
  {
    0 <= i < n && lands[i]
  }

  /** Of the first n writes, the last that landed is i. */
  predicate LastLanded(ws: seq<Write>, lands: seq<bool>, n: nat, i: int)
    requires n <= |ws| == |lands|
  {
    Landed(ws, lands, n, i) && forall j :: i < j < n ==> !lands[j]
  }

  /** The status is that of the last write that landed; completed_at is set exactly if a terminal one
      landed, and tells when the last of them did. */
  lemma {:induction false} RowAfter(ws: seq<Write>, lands: seq<bool>, n: nat)
    requires n <= |ws| == |lands|
    requires forall i | 0 <= i < |ws| :: ws[i].status != PENDING
    ensures var row := After(QUEUED, ws, lands, n);
            && (row.status == PENDING <==> forall i :: 0 <= i < n ==> !lands[i])
            && (forall i | LastLanded(ws, lands, n, i) :: row.status == ws[i].status)
            && (row.completedAt.Some? <==> exists i :: Landed(ws, lands, n, i) && IsTerminal(ws[i].status))
            && (row.startedAt.Some? <==> exists i :: Landed(ws, lands, n, i) && ws[i].status == RUNNING)
  {
    if n > 0 {
      RowAfter(ws, lands, n - 1);
      if lands[n - 1] {
        assert Landed(ws, lands, n, n - 1) && LastLanded(ws, lands, n, n - 1);
      } else {
        assert forall i | LastLanded(ws, lands, n, i) :: LastLanded(ws, lands, n - 1, i);
      }
      assert forall i | Landed(ws, lands, n - 1, i) :: Landed(ws, lands, n, i);
    }
  }

  // ---------------------------------------------------------------------------------------------
  // One delivery
  // ---------------------------------------------------------------------------------------------

  lemma {:induction false} RepeatIs(w: Write, n: nat)
    ensures |Repeat(w, n)| == n && forall i | 0 <= i < n :: Repeat(w, n)[i] == w
  {
    if n > 0 { RepeatIs(w, n - 1); }
  }

  /** RUNNING once per attempt, at most four times, then at most one SUCCESS or FAILED. */
  lemma WritesShape(d: Delivery)
    requires IsDelivery(d)
    ensures d.attempts <= 4 && d.attempts <= |Writes(d)| <= d.attempts + 1
    ensures forall i | 0 <= i < d.attempts :: Writes(d)[i].status == RUNNING
    ensures |Writes(d)| == d.attempts + 1 ==> Writes(d)[d.attempts].status in {SUCCESS, FAILED}
  {
    RepeatIs(Write(RUNNING, None, None), d.attempts);
  }

  /** At every moment of a single delivery, whatever subset of its writes is lost: the status is PENDING,
      RUNNING or final, completed_at is set exactly if it is final, and a final status is never left. */
  lemma SingleDelivery(d: Delivery, lands: seq<bool>, n: nat, m: nat)
    requires IsDelivery(d) && n <= m <= |Writes(d)| == |lands|
    ensures var row, later := After(QUEUED, Writes(d), lands, n), After(QUEUED, Writes(d), lands, m);
            && row.status in {PENDING, RUNNING, SUCCESS, FAILED}
            && (row.completedAt.Some? <==> IsTerminal(row.status))
            && (IsTerminal(row.status) ==> later == row)
            && (row.status == RUNNING ==> later.status != PENDING)
  {
    WritesShape(d);
    var ws := Writes(d);
    RowAfter(ws, lands, n);
    RowAfter(ws, lands, m);
    LastOf(ws, lands, n);
    if IsTerminal(After(QUEUED, ws, lands, n).status) {
      assert n == |ws|;
    }
  }

  lemma {:induction false} LastOf(ws: seq<Write>, lands: seq<bool>, n: nat)
    requires n <= |ws| == |lands|
    ensures (forall i :: 0 <= i < n ==> !lands[i]) || exists i :: LastLanded(ws, lands, n, i)
  {
    if n > 0 {
      if lands[n - 1] {
        assert LastLanded(ws, lands, n, n - 1);
      } else {
        var m := n - 1;
        LastOf(ws, lands, m);
        if i :| LastLanded(ws, lands, m, i) {
          assert LastLanded(ws, lands, n, i);
        }
      }
    }
  }

  // ---------------------------------------------------------------------------------------------
  // Redelivery
  // ---------------------------------------------------------------------------------------------

  /** The writes among the first n that delivery d made. */
  function WritesOf(ws: seq<Write>, owner: seq<nat>, d: nat, n: nat): seq<Write>
    requires n <= |ws| == |owner|
  {
    if n == 0 then [] else WritesOf(ws, owner, d, n - 1) + if owner[n - 1] == d then [ws[n - 1]] else []
  }

  /** `ws` is made of the writes of the deliveries, in any interleaving: with a late acknowledgement the
      next delivery may start before the one before it is done. */
  predicate IsMixed(ds: seq<Delivery>, ws: seq<Write>, owner: seq<nat>) {
    && |owner| == |ws|
    && (forall d | d in ds :: IsDelivery(d))
    && (forall i | 0 <= i < |ws| :: owner[i] < |ds|)
    && (forall d | 0 <= d < |ds| :: WritesOf(ws, owner, d, |ws|) == Writes(ds[d]))
  }

  lemma {:induction false} AmongItsOwn(ws: seq<Write>, owner: seq<nat>, i: nat, n: nat)
    requires i < n <= |ws| == |owner|
    ensures ws[i] in WritesOf(ws, owner, owner[i], n)
  {
    if i < n - 1 { AmongItsOwn(ws, owner, i, n - 1); }
  }

  lemma NoPending(ds: seq<Delivery>, ws: seq<Write>, owner: seq<nat>)
    requires IsMixed(ds, ws, owner)
    ensures forall i | 0 <= i < |ws| :: ws[i].status in {RUNNING, SUCCESS, FAILED}
  {
    forall i: nat | i < |ws|
      ensures ws[i].status in {RUNNING, SUCCESS, FAILED}
    {
      AmongItsOwn(ws, owner, i, |ws|);
      WritesShape(ds[owner[i]]);
    }
  }

  /** Over any number of deliveries, one after the other or overlapping, a final status still implies
      completed_at, and the converse fails exactly when a RUNNING lands after a final status did. */
  lemma Redelivered(ds: seq<Delivery>, ws: seq<Write>, owner: seq<nat>, lands: seq<bool>, n: nat)
    requires IsMixed(ds, ws, owner) && n <= |ws| == |lands|
    ensures var row := After(QUEUED, ws, lands, n);
            && (IsTerminal(row.status) ==> row.completedAt.Some?)
            && ((row.completedAt.Some? && !IsTerminal(row.status)) <==>
                exists i, j :: i < j && Landed(ws, lands, n, i) && IsTerminal(ws[i].status) &&
                               LastLanded(ws, lands, n, j) && ws[j].status == RUNNING)
  {
    NoPending(ds, ws, owner);
    RowAfter(ws, lands, n);
    LastOf(ws, lands, n);
    var row := After(QUEUED, ws, lands, n);
    if j :| LastLanded(ws, lands, n, j) {
      assert row.status == ws[j].status;
      if row.completedAt.Some? {
        var i :| Landed(ws, lands, n, i) && IsTerminal(ws[i].status);
        if !IsTerminal(row.status) {
          assert i < j && LastLanded(ws, lands, n, j) && ws[j].status == RUNNING;
        }
      }
    }
  }

  /** A worker that dies after recording success leaves the message unacknowledged: the first write of the
      next delivery takes the job out of SUCCESS, with completed_at still set. */
  lemma RedeliveryLeavesSuccess(a: Delivery, b: Delivery)
    requires IsDelivery(a) && a.finish.Returned? && IsDelivery(b) && b.attempts > 0
    ensures var ws, n := Writes(a) + Writes(b), |Writes(a)|;
            var lands := seq(|ws|, _ => true);
            && n < |ws|
            && After(QUEUED, ws, lands, n).status == SUCCESS
            && After(QUEUED, ws, lands, n + 1).status == RUNNING
            && After(QUEUED, ws, lands, n + 1).completedAt == Some(n)
  {
    RepeatIs(Write(RUNNING, None, None), a.attempts);
    RepeatIs(Write(RUNNING, None, None), b.attempts);
    var ws, n := Writes(a) + Writes(b), |Writes(a)|;
    assert ws[n - 1] == Write(SUCCESS, a.finish.result, None) && ws[n] == Write(RUNNING, None, None);
  }

  // ---------------------------------------------------------------------------------------------
  // The entity
  // ---------------------------------------------------------------------------------------------

  /** What happens to one job and its entity, by the task or by anyone else.  A write that does not land
      raises, and the exception is swallowed. */
  datatype Step =
    | Job(w: Write, lands: bool)     // a status write of a callback
    | Revert(lands: bool)            // the revert of on_failure
    | Body(to: string)               // the task's own change of the entity, when it succeeds
    | Actor(to: string)              // another actor moves the entity

  datatype Scene = Scene(row: JobRow, entity: string, now: Time)

  function Next(k: Kwargs, c: Scene, e: Step): Scene {
    match e
    case Job(w, lands) =>
      c.(row := if k.jobId != "" && lands then Written(c.row, w, c.now + 1) else c.row, now := c.now + 1)
    case Revert(lands) => c.(entity := if WantsRevert(k) && lands then k.revertStatus else c.entity, now := c.now + 1)
    case Body(to) => c.(entity := to, now := c.now + 1)
    case Actor(to) => c.(entity := to, now := c.now + 1)
  }

  function Played(k: Kwargs, c: Scene, es: seq<Step>, n: nat): Scene
    requires n <= |es|
  {
    if n == 0 then c else Next(k, Played(k, c, es, n - 1), es[n - 1])
  }

  /** The step as it is when it lands. */
  function Landing(e: Step): Step {
    match e
    case Job(w, _) => Job(w, true)
    case Revert(_) => Revert(true)
    case _ => e
  }

  /** The steps of one delivery: RUNNING per attempt, then the body's change and SUCCESS, or FAILED and
      the revert, or nothing more. */
  function Own(d: Delivery, to: string): seq<Step> {
    Announced(d.attempts) +
    match d.finish
    case Returned(r) => [Body(to), Job(Write(SUCCESS, r, None), true)]
    case Raised(err) => [Job(Failure(err), true), Revert(true)]
    case Died => []
  }

  function Failure(err: string): Write {
    Write(FAILED, None, Some(err))
  }

  const RUN := Job(Write(RUNNING, None, None), true)

  function Announced(n: nat): seq<Step> {
    if n == 0 then [] else Announced(n - 1) + [RUN]
  }

  lemma {:induction false} AnnouncedIs(n: nat)
    ensures |Announced(n)| == n && forall i | 0 <= i < n :: Announced(n)[i] == RUN
  {
    if n > 0 { AnnouncedIs(n - 1); }
  }

  /** `mixed` is the delivery's own steps, whichever of them land, with steps of other actors in between. */
  predicate Interleaves(own: seq<Step>, mixed: seq<Step>)
    decreases |mixed|
  {
    if mixed == [] then own == []
    else
      var e, rest := mixed[|mixed| - 1], mixed[..|mixed| - 1];
      if e.Actor? then Interleaves(own, rest)
      else own != [] && own[|own| - 1] == Landing(e) && Interleaves(own[..|own| - 1], rest)
  }

  lemma {:induction false} AllAreOwn(own: seq<Step>, mixed: seq<Step>)
    requires Interleaves(own, mixed)
    ensures forall e | e in mixed && !e.Actor? :: Landing(e) in own
    decreases |mixed|
  {
    if mixed != [] {
      var e, rest := mixed[|mixed| - 1], mixed[..|mixed| - 1];
      assert mixed == rest + [e];
      AllAreOwn(if e.Actor? then own else own[..|own| - 1], rest);
    }
  }

  /** Where the last of the own steps is. */
  lemma {:induction false} LastOwn(own: seq<Step>, mixed: seq<Step>) returns (j: nat)
    requires Interleaves(own, mixed) && own != []
    ensures j < |mixed| && !mixed[j].Actor? && Landing(mixed[j]) == own[|own| - 1]
    ensures Interleaves(own[..|own| - 1], mixed[..j])
    ensures forall i | j < i < |mixed| :: mixed[i].Actor?
    decreases |mixed|
  {
    var m := |mixed| - 1;
    if mixed[m].Actor? {
      j := LastOwn(own, mixed[..m]);
      assert mixed[..m][..j] == mixed[..j];
    } else {
      j := m;
    }
  }

  // ---------------------------------------------------------------------------------------------
  // A revert and its record
  // ---------------------------------------------------------------------------------------------

  /** A step that only the last of the own steps can be, is. */
  lemma OnlyRevert(own: seq<Step>, mixed: seq<Step>, n: nat)
    requires Interleaves(own, mixed) && own != [] && n < |mixed| && mixed[n].Revert?
    requires forall e | e in own[..|own| - 1] :: !e.Revert?
    ensures Interleaves(own[..|own| - 1], mixed[..n])
  {
    var j := LastOwn(own, mixed);
    NoRevert(own[..|own| - 1], mixed[..j]);
    assert forall i | 0 <= i < j :: mixed[..j][i] == mixed[i];
  }

  lemma {:induction false} NoRevert(own: seq<Step>, mixed: seq<Step>)
    requires Interleaves(own, mixed) && forall e | e in own :: !e.Revert?
    ensures forall i | 0 <= i < |mixed| :: !mixed[i].Revert?
    decreases |mixed|
  {
    if mixed != [] {
      var e, rest := mixed[|mixed| - 1], mixed[..|mixed| - 1];
      NoRevert(if e.Actor? then own else own[..|own| - 1], rest);
    }
  }

  lemma RaisedIfReverted(d: Delivery, to: string, mixed: seq<Step>, n: nat)
    requires IsDelivery(d) && Interleaves(Own(d, to), mixed) && n < |mixed| && mixed[n].Revert?
    ensures d.finish.Raised?
    ensures Interleaves(Announced(d.attempts) + [Job(Failure(d.finish.error), true)], mixed[..n])
  {
    var own := Own(d, to);
    AnnouncedIs(d.attempts);
    AllAreOwn(own, mixed);
    assert mixed[n] in mixed;
    var front := Announced(d.attempts) + [Job(Failure(d.finish.error), true)];
    assert own == front + [Revert(true)];
    assert own[..|own| - 1] == front;
    OnlyRevert(own, mixed, n);
  }

  /** Before the revert of a failing delivery: the attempts, then the FAILED write at f, then others only. */
  lemma BeforeTheRevert(d: Delivery, to: string, mixed: seq<Step>, n: nat) returns (f: nat)
    requires IsDelivery(d) && Interleaves(Own(d, to), mixed) && n < |mixed| && mixed[n].Revert?
    ensures d.finish.Raised? && f < n && Landing(mixed[f]) == Job(Failure(d.finish.error), true)
    ensures forall i | 0 <= i < f :: mixed[i].Actor? || Landing(mixed[i]) == RUN
    ensures forall i | f < i < n :: mixed[i].Actor?
  {
    RaisedIfReverted(d, to, mixed, n);
    var runs := Announced(d.attempts);
    var own := runs + [Job(Failure(d.finish.error), true)];
    f := LastOwn(own, mixed[..n]);
    assert own[..|own| - 1] == runs && mixed[..n][..f] == mixed[..f];
    AnnouncedIs(d.attempts);
    AllAreOwn(runs, mixed[..f]);
    forall i | 0 <= i < f
      ensures mixed[i].Actor? || Landing(mixed[i]) == RUN
    {
      assert mixed[..f][i] == mixed[i];
    }
  }

  lemma {:induction false} RunningOnly(k: Kwargs, c: Scene, mixed: seq<Step>, n: nat)
    requires n <= |mixed| && forall i | 0 <= i < n :: mixed[i].Actor? || Landing(mixed[i]) == RUN
    requires c.row.status != FAILED
    ensures Played(k, c, mixed, n).row.status != FAILED
  {
    if n > 0 { RunningOnly(k, c, mixed, n - 1); }
  }

  lemma {:induction false} OthersLeaveTheRow(k: Kwargs, c: Scene, mixed: seq<Step>, m: nat, n: nat)
    requires m <= n <= |mixed| && forall i | m <= i < n :: mixed[i].Actor?
    ensures Played(k, c, mixed, n).row == Played(k, c, mixed, m).row
    decreases n
  {
    if m < n { OthersLeaveTheRow(k, c, mixed, m, n - 1); }
  }

  /** The FAILED write is among the first n steps and lands. */
  predicate FailureLanded(mixed: seq<Step>, n: nat)
    requires n <= |mixed|
  {
    exists j :: 0 <= j < n && mixed[j].Job? && mixed[j].w.status == FAILED && mixed[j].lands
  }

  /** Whichever writes of a single delivery are lost and whatever others do in between: when the delivery
      reverts the entity, the row says FAILED, with the time and the error, if and only if there is a job
      and the FAILED write landed. */
  lemma RevertAfterFailed(k: Kwargs, d: Delivery, to: string, c: Scene, mixed: seq<Step>, n: nat)
    requires IsDelivery(d) && Interleaves(Own(d, to), mixed) && n < |mixed| && mixed[n].Revert?
    requires c.row.status != FAILED
    ensures d.finish.Raised?
    ensures var row := Played(k, c, mixed, n).row;
            && (row.status == FAILED <==> k.jobId != "" && FailureLanded(mixed, n))
            && (row.status == FAILED ==> row.completedAt.Some? && row.error == Some(d.finish.error))
  {
    var f := BeforeTheRevert(d, to, mixed, n);
    RunningOnly(k, c, mixed, f);
    OthersLeaveTheRow(k, c, mixed, f + 1, n);
    assert Played(k, c, mixed, f + 1) == Next(k, Played(k, c, mixed, f), mixed[f]);
    assert FailureLanded(mixed, n) <==> mixed[f].lands;
  }

  lemma {:induction false} NoJobNoRow(k: Kwargs, c: Scene, mixed: seq<Step>, n: nat)
    requires n <= |mixed| && k.jobId == ""
    ensures Played(k, c, mixed, n).row == c.row
  {
    if n > 0 { NoJobNoRow(k, c, mixed, n - 1); }
  }

  /** Without a job the entity is reverted all the same, and no row tells. */
  lemma RevertWithoutJob(k: Kwargs, c: Scene, mixed: seq<Step>, n: nat)
    requires k.jobId == "" && WantsRevert(k) && n < |mixed| && mixed[n] == Revert(true)
    ensures var after := Played(k, c, mixed, n + 1);
            after.row == c.row && after.entity == k.revertStatus
  {
    NoJobNoRow(k, c, mixed, n + 1);
  }

  /** With overlapping deliveries not even that: the RUNNING of another delivery may come between. */
  lemma OverlapHidesTheFailure(k: Kwargs, c: Scene, err: string)
    requires k.jobId != "" && WantsRevert(k)
    ensures var first, second := Own(Delivery(1, Raised(err)), ""), Own(Delivery(1, Died), "");
            && |first| == 3 && second == [RUN]
            && var after := Played(k, c, first[..2] + second + first[2..], 4);
               after.row.status == RUNNING && after.entity == k.revertStatus
  {
    assert Announced(1) == [RUN];
    var first := Own(Delivery(1, Raised(err)), "");
    assert first == [RUN, Job(Failure(err), true), Revert(true)];
    var es := [RUN, Job(Failure(err), true), RUN, Revert(true)];
    assert first[..2] + [RUN] + first[2..] == es;
    assert Played(k, c, es, 3).row.status == RUNNING;
    assert Played(k, c, es, 4) == Next(k, Played(k, c, es, 3), es[3]);
  }

  // ---------------------------------------------------------------------------------------------
  // What a revert undoes
  // ---------------------------------------------------------------------------------------------

  /** Other actors leave the entity alone while it is in its busy status. */
  ghost predicate RespectsBusy(k: Kwargs, c: Scene, mixed: seq<Step>, busy: string) {
    forall i | 0 <= i < |mixed| && mixed[i].Actor? :: Played(k, c, mixed, i).entity != busy
  }

  /** The step ends the busy status: the body's change, or a revert that lands. */
  predicate EndsBusy(e: Step) {
    e.Body? || (e.Revert? && e.lands)
  }

  /** As long as nothing has been reverted or done by the body, the entity is busy and nobody moved it. */
  lemma {:induction false} StaysBusy(k: Kwargs, c: Scene, mixed: seq<Step>, busy: string, n: nat)
    requires n <= |mixed| && c.entity == busy && RespectsBusy(k, c, mixed, busy)
    requires forall i | 0 <= i < n :: !EndsBusy(mixed[i])
    ensures Played(k, c, mixed, n).entity == busy && forall i | 0 <= i < n :: !mixed[i].Actor?
  {
    if n > 0 {
      StaysBusy(k, c, mixed, busy, n - 1);
    }
  }

  /** In every run of any deliveries, overlapping or not: a revert that undoes anything but the busy status
      comes after a body that was done or another revert. */
  lemma UndoneProgressHasACause(k: Kwargs, c: Scene, mixed: seq<Step>, busy: string, n: nat)
    requires n < |mixed| && mixed[n].Revert? && c.entity == busy && RespectsBusy(k, c, mixed, busy)
    requires Played(k, c, mixed, n).entity != busy
    ensures exists i :: 0 <= i < n && EndsBusy(mixed[i])
  {
    if forall i | 0 <= i < n :: !EndsBusy(mixed[i]) {
      StaysBusy(k, c, mixed, busy, n);
      assert false;
    }
  }

  /** A single failing delivery never undoes anyone's progress: what its revert replaces is the busy
      status the task started from. */
  lemma SingleDeliveryUndoesNothing(k: Kwargs, d: Delivery, to: string, c: Scene, mixed: seq<Step>, busy: string,
      n: nat)
    requires IsDelivery(d) && Interleaves(Own(d, to), mixed) && n < |mixed| && mixed[n].Revert?
    requires c.entity == busy && RespectsBusy(k, c, mixed, busy)
    ensures Played(k, c, mixed, n).entity == busy
    ensures forall i | 0 <= i < n :: !mixed[i].Actor?
  {
    var f := BeforeTheRevert(d, to, mixed, n);
    StaysBusy(k, c, mixed, busy, n);
  }

  /** Two deliveries can: the first one's body finishes and its worker dies, an actor moves the entity on,
      and the second delivery fails and reverts it. */
  lemma RedeliveryUndoesProgress(k: Kwargs, c: Scene, done: string, moved: string, err: string)
    requires WantsRevert(k) && done != c.entity
    ensures var first, second := Own(Delivery(1, Returned(None)), done), Own(Delivery(1, Raised(err)), done);
            && |first| == |second| == 3
            && var mixed := first[..2] + [Actor(moved)] + second;
               && RespectsBusy(k, c, mixed, c.entity)
               && Played(k, c, mixed, 3).entity == moved && Played(k, c, mixed, 6).entity == k.revertStatus
  {
    assert Announced(1) == [RUN];
    var mixed := [RUN, Body(done), Actor(moved), RUN, Job(Failure(err), true), Revert(true)];
    var first := Own(Delivery(1, Returned(None)), done);
    assert first == [RUN, Body(done), Job(Write(SUCCESS, None, None), true)];
    assert first[..2] + [Actor(moved)] + Own(Delivery(1, Raised(err)), done) == mixed;
    assert Played(k, c, mixed, 2).entity == done;
    assert Played(k, c, mixed, 3).entity == moved;
    assert Played(k, c, mixed, 5).entity == Played(k, c, mixed, 4).entity;
  }
}
