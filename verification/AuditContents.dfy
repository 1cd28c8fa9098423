/** What the three tables hold after any sequence of statements, row by row, with the triggers in place. */
module AuditContents {
  import opened Wrappers
  import opened AuditLog

  // ---------------------------------------------------------------------------------------------
  // The audit log
  // ---------------------------------------------------------------------------------------------

  /** The statement inserts a row that may be: its id is new, and its tenant exists or is null. */
  predicate Records(s: Tables, st: Statement, id: Id, row: Row) {
    st == InsertAudit(id, row) && id !in s.audit && (row.tenant == None || row.tenant.value in s.tenants)
  }

  predicate Holds(rows: map<Id, Row>, id: Id, row: Row) {
    id in rows && rows[id] == row
  }

  /** Such an insert always succeeds, whatever the triggers, stores that row and touches nothing else; any
      other insert aborts. */
  lemma InsertExactly(g: Triggers, s: Tables, id: Id, row: Row)
    ensures var outcome := Execute(g, s, InsertAudit(id, row));
            && (outcome.Done? <==> Records(s, InsertAudit(id, row), id, row))
            && (outcome.Done? ==>
                  && outcome.tables.tenants == s.tenants && outcome.tables.jobs == s.jobs
                  && forall other, r ::
                       Holds(outcome.tables.audit, other, r) <==> Holds(s.audit, other, r) || (other == id && r == row))
  {
  }

  lemma AuditStep(s: Tables, st: Statement, id: Id, row: Row)
    ensures Holds(After(IMMUTABLE, s, st).audit, id, row) <==> Holds(s.audit, id, row) || Records(s, st, id, row)
  {
    StatementExtends(s, st);
    if st.InsertAudit? {
      InsertExactly(IMMUTABLE, s, st.id, st.row);
    } else if st.UpdateAudit? || st.DeleteAudit? {
      DirectMutations(s, st.where, Row(None, 0));
      if st.UpdateAudit? { DirectMutations(s, st.where, st.row); }
    } else if st.DeleteTenants? {
      if Execute(IMMUTABLE, s, st).Done? {
        assert After(IMMUTABLE, s, st).audit == Nulled(s.audit, s.tenants.Keys * st.where);
        assert RowsFor(s.audit, s.tenants.Keys * st.where) == {};
      }
    }
  }

  /** Statement n of the sequence recorded the row. */
  predicate RecordedAt(s: Tables, sts: seq<Statement>, n: nat, id: Id, row: Row) {
    n < |sts| && Records(AfterAll(IMMUTABLE, s, sts[..n]), sts[n], id, row)
  }

  /** After any statements the audit log holds exactly the rows it held and those that were inserted. */
  lemma {:induction false} LogIsWhatWasRecorded(s: Tables, sts: seq<Statement>, id: Id, row: Row)
    ensures Holds(AfterAll(IMMUTABLE, s, sts).audit, id, row) <==>
            Holds(s.audit, id, row) || exists n: nat :: RecordedAt(s, sts, n, id, row)
  {
    if sts != [] {
      var m := |sts| - 1;
      var front := sts[..m];
      LogIsWhatWasRecorded(s, front, id, row);
      AuditStep(AfterAll(IMMUTABLE, s, front), sts[m], id, row);
      if n: nat :| RecordedAt(s, sts, n, id, row) {
        if n < m {
          assert front[..n] == sts[..n] && RecordedAt(s, front, n, id, row);
        }
      }
      if n: nat :| RecordedAt(s, front, n, id, row) {
        assert front[..n] == sts[..n] && RecordedAt(s, sts, n, id, row);
      }
      if Records(AfterAll(IMMUTABLE, s, front), sts[m], id, row) {
        assert RecordedAt(s, sts, m, id, row);
      }
    }
  }

  // ---------------------------------------------------------------------------------------------
  // The other tables
  // ---------------------------------------------------------------------------------------------

  /** Some audit row or job refers to the tenant. */
  predicate IsReferenced(s: Tables, t: Id) {
    || (exists id | id in s.audit :: s.audit[id].tenant == Some(t))
    || (exists id | id in s.jobs :: s.jobs[id].tenant == Some(t))
  }

  lemma ReferencedMeans(s: Tables, t: Id)
    ensures IsReferenced(s, t) <==> RowsFor(s.audit, {t}) + RowsFor(s.jobs, {t}) != {}
  {
    if id :| id in s.audit && s.audit[id].tenant == Some(t) {
      assert id in RowsFor(s.audit, {t});
    }
    if id :| id in s.jobs && s.jobs[id].tenant == Some(t) {
      assert id in RowsFor(s.jobs, {t});
    }
    if id :| id in RowsFor(s.audit, {t}) {
      assert s.audit[id].tenant == Some(t);
    }
    if id :| id in RowsFor(s.jobs, {t}) {
      assert s.jobs[id].tenant == Some(t);
    }
  }

  /** The tenants after a statement: inserted, updated, given another key if nothing refers to them, or
      deleted if no audit row does. */
  lemma TenantsStep(s: Tables, st: Statement, t: Id)
    requires Sound(s)
    ensures var after := After(IMMUTABLE, s, st).tenants;
            match st
            case InsertTenant(id, data) =>
              && (t in after <==> t in s.tenants || t == id)
              && (t in after ==> after[t] == if t in s.tenants then s.tenants[t] else data)
            case UpdateTenants(where, data) =>
              && (t in after <==> t in s.tenants)
              && (t in after ==> after[t] == if t in where then data else s.tenants[t])
            case RekeyTenant(id, to) =>
              if id in s.tenants && to !in s.tenants && !IsReferenced(s, id)
              then (t in after <==> (t in s.tenants && t != id) || t == to) &&
                   (t in after ==> after[t] == if t == to then s.tenants[id] else s.tenants[t])
              else after == s.tenants
            case DeleteTenants(where) =>
              && (t in after <==>
                    t in s.tenants && (t !in where || exists id | id in s.audit ::
                      s.audit[id].tenant.Some? && s.audit[id].tenant.value in where))
              && (t in after ==> after[t] == s.tenants[t])
            case _ => after == s.tenants
  {
    match st
    case RekeyTenant(id, to) => ReferencedMeans(s, id);
    case DeleteTenants(where) => DeleteTenantsExactly(s, where);
    case _ =>
  }

  /** The jobs after a statement: changed by the statements on task_jobs, and losing their tenant when a
      delete of it goes through. */
  lemma JobsStep(s: Tables, st: Statement, j: Id)
    requires Sound(s)
    ensures var after, live := After(IMMUTABLE, s, st).jobs, s.tenants.Keys;
            match st
            case InsertJob(id, row) =>
              && (j in after <==> j in s.jobs || (j == id && RefersTo(row, live)))
              && (j in after ==> after[j] == if j in s.jobs then s.jobs[j] else row)
            case UpdateJobs(where, row) =>
              && (j in after <==> j in s.jobs)
              && (j in after ==> after[j] == if j in where && RefersTo(row, live) then row else s.jobs[j])
            case DeleteJobs(where) =>
              && (j in after <==> j in s.jobs && j !in where)
              && (j in after ==> after[j] == s.jobs[j])
            case DeleteTenants(where) =>
              && (j in after <==> j in s.jobs)
              && (j in after ==>
                    var loses := Execute(IMMUTABLE, s, st).Done? && s.jobs[j].tenant.Some? &&
                                 s.jobs[j].tenant.value in where;
                    after[j] == if loses then Row(None, s.jobs[j].data) else s.jobs[j])
            case _ => after == s.jobs
  {
    match st
    case DeleteTenants(where) => DeleteTenantsExactly(s, where);
    case UpdateJobs(where, row) =>
      if j in s.jobs && j in where {
        assert j in s.jobs.Keys * where;
      }
    case _ =>
  }
}
