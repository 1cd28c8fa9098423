/**
 The audit log as an append-only table: tenants, audit_logs and task_jobs with their foreign keys and
 triggers, and statements that take effect as a whole or not at all.
 */
module AuditLog {

  import opened Wrappers

  type Id = nat

  /** A row with a nullable reference to tenants; `data` stands for its other columns. */
  datatype Row = Row(tenant: Option<Id>, data: int)

  datatype Tables = Tables(tenants: map<Id, int>, audit: map<Id, Row>, jobs: map<Id, Row>)

  /** The three triggers of revision 0005, each of which raises when it fires. */
  datatype Triggers = Triggers(update: bool, delete: bool, truncate: bool)

  const IMMUTABLE := Triggers(true, true, true)

  /** `where` holds the rows a condition matches among those that are there. */
  datatype Statement =
    | InsertTenant(id: Id, data: int)
    | UpdateTenants(where: set<Id>, data: int)
    | RekeyTenant(id: Id, to: Id)
    | DeleteTenants(where: set<Id>)
    | TruncateTenantsCascade
    | InsertAudit(id: Id, row: Row)
    | UpdateAudit(where: set<Id>, row: Row)
    | DeleteAudit(where: set<Id>)
    | TruncateAudit
    | InsertJob(id: Id, row: Row)
    | UpdateJobs(where: set<Id>, row: Row)
    | DeleteJobs(where: set<Id>)

  datatype Outcome = Done(tables: Tables) | Aborted

  // ---------------------------------------------------------------------------------------------
  // The engine
  // ---------------------------------------------------------------------------------------------

  function RowsFor(rows: map<Id, Row>, tenants: set<Id>): set<Id> {
    set id | id in rows && rows[id].tenant.Some? && rows[id].tenant.value in tenants
  }

  function Nulled(rows: map<Id, Row>, tenants: set<Id>): map<Id, Row> {
    map id | id in rows :: if id in RowsFor(rows, tenants) then rows[id].(tenant := None) else rows[id]
  }

  function Rewritten(rows: map<Id, Row>, where: set<Id>, row: Row): map<Id, Row> {
    map id | id in rows :: if id in where then row else rows[id]
  }

  predicate RefersTo(row: Row, tenants: set<Id>) {
    row.tenant.Some? ==> row.tenant.value in tenants
  }

  /** The reference of audit_logs to the deleted tenants is set to null by an UPDATE, which fires the
      row trigger for each row it matches. */
  function DeletedTenants(g: Triggers, s: Tables, where: set<Id>): Outcome {
    var gone := s.tenants.Keys * where;
    if g.update && RowsFor(s.audit, gone) != {} then Aborted
    else Done(Tables(s.tenants - gone, Nulled(s.audit, gone), Nulled(s.jobs, gone)))
  }

  function Execute(g: Triggers, s: Tables, st: Statement): Outcome {
    match st
    case InsertTenant(id, data) => if id in s.tenants then Aborted else Done(s.(tenants := s.tenants[id := data]))
    case UpdateTenants(where, data) =>
      Done(s.(tenants := map id | id in s.tenants :: if id in where then data else s.tenants[id]))
    case RekeyTenant(id, to) =>
      if id !in s.tenants then Done(s)
      else if (to != id && to in s.tenants) ||
              (to != id && RowsFor(s.audit, {id}) + RowsFor(s.jobs, {id}) != {}) then Aborted
      else Done(s.(tenants := (s.tenants - {id})[to := s.tenants[id]]))
    case DeleteTenants(where) => DeletedTenants(g, s, where)
    case TruncateTenantsCascade => if g.truncate then Aborted else Done(Tables(map[], map[], map[]))
    case InsertAudit(id, row) =>
      if id in s.audit || !RefersTo(row, s.tenants.Keys) then Aborted else Done(s.(audit := s.audit[id := row]))
    case UpdateAudit(where, row) =>
      if g.update && s.audit.Keys * where != {} then Aborted
      else if s.audit.Keys * where != {} && !RefersTo(row, s.tenants.Keys) then Aborted
      else Done(s.(audit := Rewritten(s.audit, where, row)))
    case DeleteAudit(where) =>
      if g.delete && s.audit.Keys * where != {} then Aborted else Done(s.(audit := s.audit - where))
    case TruncateAudit => if g.truncate then Aborted else Done(s.(audit := map[]))
    case InsertJob(id, row) =>
      if id in s.jobs || !RefersTo(row, s.tenants.Keys) then Aborted else Done(s.(jobs := s.jobs[id := row]))
    case UpdateJobs(where, row) =>
      if s.jobs.Keys * where != {} && !RefersTo(row, s.tenants.Keys) then Aborted
      else Done(s.(jobs := Rewritten(s.jobs, where, row)))
    case DeleteJobs(where) => Done(s.(jobs := s.jobs - where))
  }

  /** A statement that aborts leaves no trace. */
  function After(g: Triggers, s: Tables, st: Statement): Tables {
    match Execute(g, s, st)
    case Done(s') => s'
    case Aborted => s
  }

  function AfterAll(g: Triggers, s: Tables, sts: seq<Statement>): Tables {
    if sts == [] then s else After(g, AfterAll(g, s, sts[..|sts| - 1]), sts[|sts| - 1])
  }

  // ---------------------------------------------------------------------------------------------
  // The delete as the engine does it, row by row
  // ---------------------------------------------------------------------------------------------

  class Engine {
    var tables: Tables
    const triggers: Triggers

    constructor (g: Triggers, s: Tables)
      ensures triggers == g && tables == s
    {
      triggers, tables := g, s;
    }

    /** Deletes the tenants, then follows the two foreign keys; a trigger that raises undoes it all. */
    method DeleteTenants(where: set<Id>) returns (ok: bool)
      modifies this
      ensures ok == DeletedTenants(triggers, old(tables), where).Done?
      ensures tables == After(triggers, old(tables), Statement.DeleteTenants(where))
    {
      var saved := tables;
      var gone := tables.tenants.Keys * where;
      tables := tables.(tenants := tables.tenants - gone);
      var todo := RowsFor(tables.audit, gone);
      while todo != {}
        invariant todo <= RowsFor(saved.audit, gone)
        invariant tables == Tables(saved.tenants - gone, Partly(saved.audit, RowsFor(saved.audit, gone) - todo),
            saved.jobs)
        invariant triggers.update ==> todo == RowsFor(saved.audit, gone)
        decreases |todo|
      {
        if triggers.update {
          tables := saved;
          return false;
        }
        var id :| id in todo;
        tables := tables.(audit := tables.audit[id := tables.audit[id].(tenant := None)]);
        todo := todo - {id};
      }
      tables := tables.(jobs := Nulled(tables.jobs, gone));
      ok := true;
    }
  }

  function Partly(rows: map<Id, Row>, done: set<Id>): map<Id, Row> {
    map id | id in rows :: if id in done then rows[id].(tenant := None) else rows[id]
  }

  // ---------------------------------------------------------------------------------------------
  // References
  // ---------------------------------------------------------------------------------------------

  /** No reference dangles. */
  ghost predicate Sound(s: Tables) {
    && (forall id | id in s.audit :: RefersTo(s.audit[id], s.tenants.Keys))
    && (forall id | id in s.jobs :: RefersTo(s.jobs[id], s.tenants.Keys))
  }

  lemma NulledSound(rows: map<Id, Row>, tenants: set<Id>, gone: set<Id>)
    requires forall id | id in rows :: RefersTo(rows[id], tenants)
    ensures forall id | id in Nulled(rows, gone) :: RefersTo(Nulled(rows, gone)[id], tenants - gone)
  {
    forall id | id in Nulled(rows, gone)
      ensures RefersTo(Nulled(rows, gone)[id], tenants - gone)
    {
      assert RefersTo(rows[id], tenants);
    }
  }

  lemma StaysSound(g: Triggers, s: Tables, st: Statement)
    requires Sound(s)
    ensures Sound(After(g, s, st))
  {
    if st.DeleteTenants? {
      var gone := s.tenants.Keys * st.where;
      NulledSound(s.audit, s.tenants.Keys, gone);
      NulledSound(s.jobs, s.tenants.Keys, gone);
      assert (s.tenants - gone).Keys == s.tenants.Keys - gone;
    } else if st.RekeyTenant? {
      if st.id in s.tenants && Execute(g, s, st).Done? {
        RekeySound(s, st.id, st.to);
      }
    } else if st.UpdateTenants? {
      assert After(g, s, st).tenants.Keys == s.tenants.Keys;
    } else if st.UpdateAudit? {
      assert forall id | id in s.audit && id in st.where :: id in s.audit.Keys * st.where;
    } else if st.UpdateJobs? {
      assert forall id | id in s.jobs && id in st.where :: id in s.jobs.Keys * st.where;
    }
  }

  lemma RekeySound(s: Tables, id: Id, to: Id)
    requires Sound(s) && id in s.tenants
    requires to == id || RowsFor(s.audit, {id}) + RowsFor(s.jobs, {id}) == {}
    ensures Sound(s.(tenants := (s.tenants - {id})[to := s.tenants[id]]))
  {
    var keys := (s.tenants - {id})[to := s.tenants[id]].Keys;
    assert keys == s.tenants.Keys - {id} + {to};
    forall r | r in s.audit
      ensures RefersTo(s.audit[r], keys)
    {
      assert RefersTo(s.audit[r], s.tenants.Keys) && (to != id ==> r !in RowsFor(s.audit, {id}));
    }
    forall r | r in s.jobs
      ensures RefersTo(s.jobs[r], keys)
    {
      assert RefersTo(s.jobs[r], s.tenants.Keys) && (to != id ==> r !in RowsFor(s.jobs, {id}));
    }
  }

  // ---------------------------------------------------------------------------------------------
  // Immutability
  // ---------------------------------------------------------------------------------------------

  /** Rows are only added. */
  ghost predicate Extends(older: map<Id, Row>, newer: map<Id, Row>) {
    forall id | id in older :: id in newer && newer[id] == older[id]
  }

  lemma StatementExtends(s: Tables, st: Statement)
    ensures Extends(s.audit, After(IMMUTABLE, s, st).audit)
  {
    if st.DeleteTenants? && Execute(IMMUTABLE, s, st).Done? {
      assert RowsFor(s.audit, s.tenants.Keys * st.where) == {};
    } else if (st.UpdateAudit? || st.DeleteAudit?) && Execute(IMMUTABLE, s, st).Done? {
      assert forall id | id in s.audit :: id in st.where ==> id in s.audit.Keys * st.where;
    }
  }

  /** Over every sequence of statements no audit row changes or disappears, and no reference dangles. */
  lemma {:induction false} AuditOnlyGrows(s: Tables, sts: seq<Statement>)
    requires Sound(s)
    ensures Extends(s.audit, AfterAll(IMMUTABLE, s, sts).audit) && Sound(AfterAll(IMMUTABLE, s, sts))
  {
    if sts != [] {
      var before := AfterAll(IMMUTABLE, s, sts[..|sts| - 1]);
      AuditOnlyGrows(s, sts[..|sts| - 1]);
      StatementExtends(before, sts[|sts| - 1]);
      StaysSound(IMMUTABLE, before, sts[|sts| - 1]);
    }
  }

  /** So an audit row names its tenant for ever, and that tenant can never go. */
  lemma TenantOfRowStays(s: Tables, sts: seq<Statement>, id: Id)
    requires Sound(s) && id in s.audit && s.audit[id].tenant.Some?
    ensures var later := AfterAll(IMMUTABLE, s, sts);
            && id in later.audit && later.audit[id].tenant == s.audit[id].tenant
            && s.audit[id].tenant.value in later.tenants
  {
    AuditOnlyGrows(s, sts);
    assert RefersTo(AfterAll(IMMUTABLE, s, sts).audit[id], AfterAll(IMMUTABLE, s, sts).tenants.Keys);
  }

  /** Deleting tenants succeeds exactly if no audit row refers to one of them.  If it does, the jobs of
      those tenants lose their tenant and nothing else changes; if not, nothing changes at all. */
  lemma DeleteTenantsExactly(s: Tables, where: set<Id>)
    requires Sound(s)
    ensures Execute(IMMUTABLE, s, DeleteTenants(where)).Done? <==>
            forall id | id in s.audit && s.audit[id].tenant.Some? :: s.audit[id].tenant.value !in where
    ensures var after := After(IMMUTABLE, s, DeleteTenants(where));
            if Execute(IMMUTABLE, s, DeleteTenants(where)).Done? then
              && after.audit == s.audit
              && after.tenants.Keys == s.tenants.Keys - where
              && after.jobs.Keys == s.jobs.Keys
              && (forall id | id in s.jobs ::
                    if s.jobs[id].tenant.Some? && s.jobs[id].tenant.value in where
                    then after.jobs[id] == s.jobs[id].(tenant := None)
                    else after.jobs[id] == s.jobs[id])
            else after == s
  {
    var gone := s.tenants.Keys * where;
    forall id | id in s.audit && s.audit[id].tenant.Some?
      ensures id in RowsFor(s.audit, gone) <==> s.audit[id].tenant.value in where
    {
      assert RefersTo(s.audit[id], s.tenants.Keys);
    }
    forall id | id in s.jobs && s.jobs[id].tenant.Some?
      ensures id in RowsFor(s.jobs, gone) <==> s.jobs[id].tenant.value in where
    {
      assert RefersTo(s.jobs[id], s.tenants.Keys);
    }
    if RowsFor(s.audit, gone) == {} {
      assert Nulled(s.audit, gone) == s.audit;
    } else {
      var id :| id in RowsFor(s.audit, gone);
      assert s.audit[id].tenant.value in where;
    }
  }

  /** The row triggers fire per row: an UPDATE or DELETE of audit_logs that matches no row succeeds and
      changes nothing, any other aborts.  The TRUNCATE trigger fires per statement: TRUNCATE aborts even
      on an empty table. */
  lemma DirectMutations(s: Tables, where: set<Id>, row: Row)
    ensures Execute(IMMUTABLE, s, UpdateAudit(where, row)) == (if s.audit.Keys !! where then Done(s) else Aborted)
    ensures Execute(IMMUTABLE, s, DeleteAudit(where)) == (if s.audit.Keys !! where then Done(s) else Aborted)
    ensures Execute(IMMUTABLE, s, TruncateAudit) == Aborted && Execute(IMMUTABLE, s, TruncateTenantsCascade) == Aborted
  {
    if s.audit.Keys !! where {
      assert Rewritten(s.audit, where, row) == s.audit;
      assert s.audit - where == s.audit;
    } else {
      var id :| id in s.audit.Keys && id in where;
      assert id in s.audit.Keys * where;
    }
  }

  /** Each trigger is needed: without it one statement changes or removes an audit row. */
  lemma EachTriggerNeeded(s: Tables, id: Id)
    requires Sound(s) && id in s.audit && s.audit[id].tenant.Some?
    ensures !Extends(s.audit, After(IMMUTABLE.(update := false), s, DeleteTenants({s.audit[id].tenant.value})).audit)
    ensures !Extends(s.audit, After(IMMUTABLE.(delete := false), s, DeleteAudit({id})).audit)
    ensures !Extends(s.audit, After(IMMUTABLE.(truncate := false), s, TruncateAudit).audit)
  {
    var t := s.audit[id].tenant.value;
    assert RefersTo(s.audit[id], s.tenants.Keys);
    assert id in RowsFor(s.audit, s.tenants.Keys * {t});
    assert After(IMMUTABLE.(update := false), s, DeleteTenants({t})).audit[id].tenant == None;
  }
}
