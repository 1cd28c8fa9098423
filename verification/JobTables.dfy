/**
 The tables under the job lifecycle: which row each callback touches and what it holds afterwards, and that
 a run on the tables, seen through one job and one entity, is the run of that job and that entity.
 */
module JobTables {
  import opened Wrappers
  import opened Jobs

  // ---------------------------------------------------------------------------------------------
  // One row at a time
  // ---------------------------------------------------------------------------------------------

  /** A revert changes the one row that schema, table and primary key name, and that only if all four
      arguments are given and the write lands; no row appears or goes. */
  lemma RevertsOneRow(entities: map<EntityKey, EntityRow>, k: Kwargs, now: Time, lands: bool)
    ensures var after, key := EntitiesAfter(entities, k, now, lands), (k.revertSchema, k.revertTable, k.revertPk);
            && after.Keys == entities.Keys
            && (forall other | other in entities && other != key :: after[other] == entities[other])
            && (key in entities ==>
                  after[key] == if lands && k.revertTable != "" && k.revertPk != "" && k.revertSchema != "" &&
                                   k.revertStatus != ""
                                then EntityRow(k.revertStatus, now) else entities[key])
  {
  }

  /** A status write changes the row of its job only. */
  lemma WritesOneRow(jobs: map<string, JobRow>, id: string, w: Write, now: Time, lands: bool)
    ensures var after := JobsAfter(jobs, id, w, now, lands);
            && after.Keys == jobs.Keys
            && (forall other | other in jobs && other != id :: after[other] == jobs[other])
            && (id in jobs && (id == "" || !lands) ==> after[id] == jobs[id])
            && (id in jobs && id != "" && lands ==>
                  && after[id].status == w.status
                  && after[id].startedAt == (if w.status == RUNNING then Some(now) else jobs[id].startedAt)
                  && after[id].completedAt ==
                     (if w.status in {SUCCESS, FAILED, CANCELLED} then Some(now) else jobs[id].completedAt)
                  && after[id].result == (if w.result.Some? then w.result else jobs[id].result)
                  && after[id].error == (if w.error.Some? then w.error else jobs[id].error))
  {
  }

  // ---------------------------------------------------------------------------------------------
  // All fields of a row
  // ---------------------------------------------------------------------------------------------

  datatype Kind = Starting | Completing | WithResult | WithError

  predicate IsOfKind(w: Write, kind: Kind) {
    match kind
    case Starting => w.status == RUNNING
    case Completing => w.status in {SUCCESS, FAILED, CANCELLED}
    case WithResult => w.result.Some?
    case WithError => w.error.Some?
  }

  /** Of the first n writes, i is the last of its kind that landed. */
  predicate LastOfKind(ws: seq<Write>, lands: seq<bool>, n: nat, kind: Kind, i: int)
    requires n <= |ws| == |lands|
  {
    0 <= i < n && lands[i] && IsOfKind(ws[i], kind) && forall j | i < j < n :: !(lands[j] && IsOfKind(ws[j], kind))
  }

  predicate NoneOfKind(ws: seq<Write>, lands: seq<bool>, n: nat, kind: Kind)
    requires n <= |ws| == |lands|
  {
    forall j | 0 <= j < n :: !(lands[j] && IsOfKind(ws[j], kind))
  }

  lemma KindStep(ws: seq<Write>, lands: seq<bool>, n: nat, kind: Kind)
    requires 0 < n <= |ws| == |lands|
    ensures lands[n - 1] && IsOfKind(ws[n - 1], kind) ==>
      !NoneOfKind(ws, lands, n, kind) && forall i | LastOfKind(ws, lands, n, kind, i) :: i == n - 1
    ensures !(lands[n - 1] && IsOfKind(ws[n - 1], kind)) ==>
      && (NoneOfKind(ws, lands, n, kind) <==> NoneOfKind(ws, lands, n - 1, kind))
      && forall i | LastOfKind(ws, lands, n, kind, i) :: LastOfKind(ws, lands, n - 1, kind, i)
  {
  }

  /** The field of this kind after the write is that of the write. */
  predicate TellsOf(row: JobRow, kind: Kind, w: Write, at: Time) {
    match kind
    case Starting => row.startedAt == Some(at)
    case Completing => row.completedAt == Some(at)
    case WithResult => row.result == w.result
    case WithError => row.error == w.error
  }

  predicate TellsNothing(row: JobRow, kind: Kind) {
    match kind
    case Starting => row.startedAt == None
    case Completing => row.completedAt == None
    case WithResult => row.result == None
    case WithError => row.error == None
  }

  lemma WrittenTells(row: JobRow, kind: Kind, w: Write, now: Time)
    ensures IsOfKind(w, kind) ==> TellsOf(Written(row, w, now), kind, w, now)
    ensures !IsOfKind(w, kind) ==>
      && (TellsNothing(row, kind) ==> TellsNothing(Written(row, w, now), kind))
      && forall v, at :: TellsOf(row, kind, v, at) ==> TellsOf(Written(row, w, now), kind, v, at)
  {
  }

  /** After any writes, lost or not: started_at and completed_at hold the time of the last write that sets
      them and landed, result and error what the last one that carried one carried, and each is null if
      there was none. */
  lemma {:induction false} RowExactly(ws: seq<Write>, lands: seq<bool>, n: nat, kind: Kind)
    requires n <= |ws| == |lands|
    ensures var row := After(QUEUED, ws, lands, n);
            && (NoneOfKind(ws, lands, n, kind) ==> TellsNothing(row, kind))
            && (forall i: nat | LastOfKind(ws, lands, n, kind, i) :: TellsOf(row, kind, ws[i], i + 1))
  {
    if n > 0 {
      RowExactly(ws, lands, n - 1, kind);
      KindStep(ws, lands, n, kind);
      WrittenTells(After(QUEUED, ws, lands, n - 1), kind, ws[n - 1], n);
    }
  }

  // ---------------------------------------------------------------------------------------------
  // Runs on the tables
  // ---------------------------------------------------------------------------------------------

  datatype Tables = Tables(jobs: map<string, JobRow>, entities: map<EntityKey, EntityRow>, now: Time)

  function Moved(t: Tables, k: Kwargs, to_: string): Tables {
    t.(entities := if Target(k) in t.entities then t.entities[Target(k) := EntityRow(to_, t.now + 1)] else t.entities,
       now := t.now + 1)
  }

  /** A step on the tables, as the callbacks and the other actors make it. */
  function TablesNext(k: Kwargs, t: Tables, e: Step): Tables {
    match e
    case Job(w, lands) => Tables(JobsAfter(t.jobs, k.jobId, w, t.now + 1, lands), t.entities, t.now + 1)
    case Revert(lands) => Tables(t.jobs, EntitiesAfter(t.entities, k, t.now + 1, lands), t.now + 1)
    case Body(to_) => Moved(t, k, to_)
    case Actor(to_) => Moved(t, k, to_)
  }

  function OnTables(k: Kwargs, t: Tables, es: seq<Step>, n: nat): Tables
    requires n <= |es|
  {
    if n == 0 then t else TablesNext(k, OnTables(k, t, es, n - 1), es[n - 1])
  }

  predicate IsThere(k: Kwargs, t: Tables) {
    k.jobId in t.jobs && Target(k) in t.entities
  }

  /** The tables as one job and one entity see them. */
  function SceneOf(k: Kwargs, t: Tables): Scene
    requires IsThere(k, t)
  {
    Scene(t.jobs[k.jobId], t.entities[Target(k)].status, t.now)
  }

  /** A run on the tables, seen through the job and the entity, is the run of the job and the entity; no
      other row of either table changes. */
  lemma {:induction false} TablesShowTheRun(k: Kwargs, t: Tables, es: seq<Step>, n: nat)
    requires n <= |es| && IsThere(k, t)
    ensures var after := OnTables(k, t, es, n);
            && after.jobs.Keys == t.jobs.Keys && after.entities.Keys == t.entities.Keys
            && SceneOf(k, after) == Played(k, SceneOf(k, t), es, n)
            && (forall id | id in t.jobs && id != k.jobId :: after.jobs[id] == t.jobs[id])
            && (forall key | key in t.entities && key != Target(k) :: after.entities[key] == t.entities[key])
  {
    if n > 0 {
      TablesShowTheRun(k, t, es, n - 1);
    }
  }
}
