# Vidya: a verified model

Vidya is a multi-tenant university platform: a FastAPI backend over PostgreSQL with one schema per tenant,
Celery workers, and a React frontend. This project models the parts of it whose correctness spans many
functions or many steps, in Dafny 4.11, and proves what those parts are for.
`dafny verify dfyconfig.toml` checks everything.

## What is modelled

**Tenant search path** (`SearchPath`, `TenantScopes`, `PathHistory`, `TenantSession`). Tasks carry a context
variable; their sessions share a transaction pool in which every BEGIN may be given any idle backend; a hook
issues `SET LOCAL search_path` at each BEGIN. A backend has a session-level path, a path that a session-level
`SET` gave it inside the running transaction, and a transaction-local one. The pooled machine is proved to
refine one in which every session owns a private connection, for any number of tasks, sessions and backends and
any interleaving, as long as no session-level `SET` to a tenant's path is committed. The proviso is needed: what
happens when a path is carried over a commit is stated exactly, and between transactions the pool is safe if and
only if every backend is on the default path. The API keeps to the proviso; the workers and the migrations do
not (see below). `TenantScopes` reads what each statement must see off the order of the events alone, and
`PathHistory` does so with no proviso at all, for every run and whatever paths the backends start with.

**Migrations** (`SchemaModel`, `Catalog`, `Undo`, `Forward`, `History`, `Tenant*`, `Public*`, `AttendanceKeys`).
All 35 tenant and all 11 public revisions are written out as operation lists over a relational schema: tables,
columns, foreign keys, indexes, unique keys, enum types, triggers. An operation takes effect or fails for the
reason PostgreSQL would give. `Catalog` reads a schema as a set of facts and says of each operation exactly
which facts it adds and removes and when it takes effect. Two generic theorems carry the weight: an operation
list that passes a syntactic check undoes another on *every* consistent schema, and one that passes a second
check cannot fail wherever it may start. They are then applied to the real revisions. Round trips hold exactly
where `Lossless` says: unconditionally but for 0002 (column types), 0016 (an enum value), 0027 (`IF NOT EXISTS`
up, unconditional down) and public 0005 (a function that was there before); 0023 is exact on the schema and
conditional on the rows (`StatusRename`).

**Migration drivers** (`Drivers`, `Fleet`). `upgrade_all_tenants`, `migrate.py tenant --all` and the
environment-variable protocol of the provisioner, over a database in which each migration is one transaction on
a connection that keeps its path. With the tenant chain, no schema is then left half migrated, whatever fails.
What a migration does that loses its path is stated too, with its exact condition.

**Audit log** (`AuditLog`, `AuditContents`). A small relational engine: foreign-key actions, row and statement
triggers, statements that abort as a whole.

**Attendance slots** (`Attendance`). A plain and a partial unique constraint under SQL's treatment of NULL.

**Job lifecycle** (`Jobs`, `JobTables`). The callbacks of the task base class, retries, status writes that are
lost, redelivery after a late acknowledgement, and the revert of the owning entity.

**Exam papers** (`ExamPapers`, `PaperDiagram`, `Sections`). The service calls behind the human gates together
with the generation and regeneration workers, whose writes come later than their checks; the actions the pages
offer; creation and display of sections.

**Small cores** (`Advisory`, `Rubric`, `Chat`). The variance advisory, the rounding of rubric weights, and the
optimistic chat list.

Code that changes state is a class or a method over an array, proved against a function of the old state; the
theorems are about that function.

## Where the code and its documentation differ

The code is followed in each case.

- `database.py` calls `SET LOCAL` at every BEGIN the only correct approach under transaction pooling. About twenty
  workers issue a session-level `SET search_path` and commit: under `backend/app/workers/heavy/`,
  `generate_exam_paper.py` (lines 102 and 114), `release_exam_paper.py` (85), `regenerate_exam_question.py` (104),
  `syllabus_generation.py` (116) and others; `evaluate_lab_submission.py` (323) relies on the path persisting. So
  does the migration (`backend/alembic/env.py`, lines 82-83). The Helm chart sets `poolMode: transaction`
  (`infra/helm/vidya/values.yaml`, line 327) and sends workers and the migrate job through the pool
  (`infra/helm/vidya/templates/networkpolicy.yaml`, lines 81-119). For such runs
  `SearchPath.CarriedIffSameBackend` and `PathHistory.EveryRunFollowsItsHistory`
  say what happens, not `SearchPath.PoolRefinesPrivate`.
- `upgrade_all_tenants` documents exit code 0 as "all targeted tenant schemas are now at migration head". It
  skips schemas with an unsafe name and still exits 0. `Drivers.ExitZeroMeansAllAtHead` gives the exact
  condition, `Drivers.ExitZeroWithoutHead` a run that breaks the promise.
- The exam service documents `board_decide` as the only way to BOARD_APPROVED and BOARD_RETURNED, and says
  Celery tasks only advance a paper to GENERATED or RELEASED. INTERNAL papers are approved by their creator,
  the scrutinizer also returns papers, and the generation task writes GENERATING and FAILED over any status.
  `ExamPapers.ReleasedThroughTheGates` states what does hold, `ExamPapers.ReleasedUntilRedelivery` what a
  second delivery does.
- `ExamService.faculty_approve` documents GENERATED as its only source; it also accepts BOARD_RETURNED, a
  status that `ExamPapers.InternalStaysInternal` proves no INTERNAL paper has.
- The two constraints of revision 0031 are called unique on a course, section, date and period; neither is on
  its own (`Attendance.NeitherAlone`).

## Model

| member | source | states |
|---|---|---|
| SearchPath.PoolRefinesPrivate | backend/app/database.py:25-47 | for any tasks, sessions, backends, interleaving and backend choice: in a pooled run that commits no session-level SET to a tenant path, every statement sees the path it would see on a private connection, and idle backends stay on the default path |
| SearchPath.StepLooksLike | backend/app/database.py:35-47 | simulation: each pooled step under that guard is the same step of the private machine, whatever backend it is given |
| SearchPath.IsolatedIffClean | backend/app/database.py:35-47 | between transactions, every continuation under that guard is isolated if and only if every idle backend is on the default path |
| SearchPath.DirtyBackendLeaks | backend/app/database.py:45-47 | a backend left on a tenant's path shows it to the next unscoped session, for every such state |
| SearchPath.CommittedSetLeaks | backend/alembic/env.py:82-83 | committing a session-level SET leaves such a backend, so the refinement's guard cannot be dropped |
| SearchPath.CarriedOverACommit | backend/app/workers/heavy/generate_exam_paper.py:101-114 | for every state, session and tenant path: after a session-level SET and a commit the next statement sees the path exactly on the same backend, the default path on any other clean one, and the first backend keeps the path |
| SearchPath.CarriedIffSameBackend | backend/alembic/env.py:72-84 | so a pooled session keeps its path over a commit, as a private connection does, if and only if it is given the same backend again |
| SearchPath.MigrationOnThePool | backend/alembic/env.py:81-84 | both outcomes on a pool of two clean backends |
| PathHistory.EveryRunFollowsItsHistory | backend/app/database.py:25-47 | with no proviso, for idle backends with whatever paths and every run: each statement sees what the order of the events says (its own last SET, else its task's scope at BEGIN, else what its backend was left with), and each backend ends with the last session-level SET that was committed on it |
| PathHistory.SessionPathStays | backend/app/workers/heavy/generate_exam_paper.py:102-209 | from every state, a backend on which no session-level SET is committed keeps its path over any number of BEGIN, COMMIT, ROLLBACK and CLOSE |
| PathHistory.CommittedSetStays | backend/app/workers/heavy/generate_exam_paper.py:102-209 | after a committed SET every later transaction of an unscoped task on that backend sees its path, however many transactions lie between |
| TenantScopes.StatementsFollowScopes | backend/app/database.py:35-47 | from a clean start, in a run that commits no session-level SET to a tenant path, every statement resolves names under its task's innermost scope at BEGIN, or the default path |
| TenantScopes.SeesOnlyItsTenant | backend/app/database.py:55-68 | in such a run a session whose transactions begin inside its own scope sees only its tenant, across any number of commits |
| TenantScopes.OuterSessionInInnerScope | backend/app/database.py:63-68 | for any two scopes a session of the outer one that begins inside the inner one sees the inner tenant: the proviso is needed |
| TenantScopes.WellNestedRestores | backend/app/database.py:63-68 | any well-nested scopes leave the context variable and its tokens as they were, whatever other tasks do |
| TenantSession.InjectSearchPath | backend/app/database.py:36-47 | the hook sets the local path of the backend of this BEGIN exactly if the context variable is set, and touches no other |
| TenantSession.WithTenantDb | backend/app/database.py:55-68 | however its body ends: statements see the tenant only, the context variable is restored, no backend keeps the path; an invalid name raises before anything |
| Undo.ApplyKeepsConsistent | backend/alembic/tenant_versions/0020_tenant_rename_legacy_academic_tables.py:22-29 | every operation that succeeds keeps every foreign key, key, enum column and trigger pointing at something that exists |
| Undo.RunKeepsConsistent | backend/alembic/tenant_versions/0025_tenant_m09_productization.py:79-223 | the same for every list of operations |
| Undo.InvertsSound | backend/alembic/tenant_versions/0025_tenant_m09_productization.py:200-223 | each matched pair of operations restores the schema it started from, if the first did something |
| Undo.RenameBack | backend/alembic/tenant_versions/0020_tenant_rename_legacy_academic_tables.py:22-29 | renaming a table there and back restores every foreign key to and from it |
| Undo.UndoSound | backend/alembic/tenant_versions/0035_tenant_results_management.py:330-337 | a downgrade that passes the check restores every consistent schema on which the upgrade succeeds |
| Undo.RevisionUndoneSound | backend/alembic/tenant_versions/0035_tenant_results_management.py:37-337 | the same for a revision of several tables, block by block in reverse |
| Forward.CertifiedSound | backend/alembic/tenant_versions/0025_tenant_m09_productization.py:79-199 | a list of operations that passes the check cannot fail wherever its base holds |
| Forward.RevisionSound | backend/alembic/tenant_versions/0025_tenant_m09_productization.py:79-199 | the same for a revision, and where it ends is where the next may start |
| History.EveryStepConsistent | backend/alembic/tenant_versions/0025_tenant_m09_productization.py:200-223 | in a run that succeeds no foreign key dangles before or after any single operation |
| History.ValuesIgnored | backend/alembic/tenant_versions/0016_tenant_add_evaluator_role.py:50-53 | an operation that does not touch an enum does the same whatever the enum's values are |
| History.BackThroughChain | backend/alembic/tenant_versions/0035_tenant_results_management.py:330-337 | downgrades that each take the chain back one step take it back all the way |
| Catalog.FactsAfter | backend/alembic/tenant_versions/0035_tenant_results_management.py:37-337 | after an operation exactly those catalog facts hold (tables, column types, references with their delete rule, keys and indexes with their columns and flags, triggers, enums, functions) that it adds, and those from before that it does not remove |
| Catalog.FactsAfterRename | backend/alembic/tenant_versions/0020_tenant_rename_legacy_academic_tables.py:22-29 | renaming a table renames it in every fact, references of other tables included |
| Catalog.TakesEffectExactly | backend/alembic/tenant_versions/0035_tenant_results_management.py:37-337 | an operation takes effect if and only if the facts before it allow it |
| Catalog.BroughtStays | backend/alembic/tenant_versions/0031_tenant_attendance.py:28-120 | what an operation of a run brings is there at the end unless a later one takes it away |
| Catalog.CameFrom | backend/alembic/tenant_versions/0031_tenant_attendance.py:28-120 | what is new at the end of a run was brought by one of its operations |
| AttendanceKeys.TwoConstraints | backend/alembic/tenant_versions/0031_tenant_attendance.py:66-78 | after revision 0031 exactly two constraints make attendance sessions unique, with the columns and the flags of the source |
| TenantExceptions.TwoIsLossless | backend/alembic/tenant_versions/0002_tenant_add_enum_types.py:16-42 | 0002 down after up is the identity if and only if both columns held VARCHAR |
| TenantExceptions.SixteenLeavesTheValue | backend/alembic/tenant_versions/0016_tenant_add_evaluator_role.py:21-53 | all that 0016 leaves behind is the enum value |
| TenantExceptions.SixteenIsLossless | backend/alembic/tenant_versions/0016_tenant_add_evaluator_role.py:21-53 | 0016 down after up is the identity if and only if the enum had EVALUATOR before |
| TenantExceptions.TwentyThreeIsLossless | backend/alembic/tenant_versions/0023_tenant_rename_syllabus_statuses.py:18-33 | 0023 never changes the schema |
| TenantExceptions.TwentySevenIsLossless | backend/alembic/tenant_versions/0027_tenant_add_program_to_users.py:25-42 | 0027 down after up is the identity if and only if neither the column nor the index was there |
| TenantHistory.RoundTrip | backend/alembic/tenant_versions/0035_tenant_results_management.py:37-337 | for all 35 revisions and every consistent schema on which the upgrade succeeds, the downgrade restores it if and only if the revision is lossless on it |
| TenantHistory.ReachesEvery | backend/alembic/tenant_versions/0001_tenant_create_auth_tables.py:18-64 | upgrading an empty schema to any revision never fails |
| TenantHistory.WayBack | backend/alembic/tenant_versions/0016_tenant_add_evaluator_role.py:50-53 | downgrading from any revision to any earlier one succeeds and gives exactly that revision's schema, plus the one enum value between 0016 and 0002 |
| TenantHistory.JourneyNeverDangles | backend/alembic/tenant_versions/0025_tenant_m09_productization.py:79-223 | at every operation of the way up and of every way down every foreign key points to a table that exists |
| TenantHistory.ChainExists | backend/alembic/tenant_versions/0035_tenant_results_management.py:31-34 | the 35 revisions form a chain as the theorems assume |
| PublicHistory.FiveIsLossless | backend/alembic/public_versions/0005_public_audit_log_immutability.py:25-80 | public 0005 down after up is the identity if and only if the trigger function was not there before |
| PublicHistory.RoundTrip | backend/alembic/public_versions/0005_public_audit_log_immutability.py:25-80 | for all 11 public revisions, round trips hold exactly where they are lossless |
| PublicHistory.WayBack | backend/alembic/public_versions/0011_public_tenant_deleted_meta.py:18-33 | from an empty schema up to any public revision and down to any earlier one gives exactly the earlier schema |
| PublicHistory.JourneyNeverDangles | backend/alembic/public_versions/0004_public_create_task_jobs.py:18-85 | no foreign key dangles at any operation of that journey |
| PublicReferences.ReferencesSetNull | backend/alembic/public_versions/0003_public_create_audit_logs.py:38-42 | from revision 0005 to head audit_logs and task_jobs refer to tenants with ON DELETE SET NULL, and the three triggers stand on audit_logs |
| PublicReferences.AfterThree | backend/alembic/public_versions/0003_public_create_audit_logs.py:18-69 | revision 0003 creates its reference with ON DELETE SET NULL on every schema on which it succeeds |
| PublicReferences.AfterFour | backend/alembic/public_versions/0004_public_create_task_jobs.py:18-77 | so does revision 0004 |
| StatusRename.UpdateStatus | backend/alembic/tenant_versions/0023_tenant_rename_syllabus_statuses.py:19-24 | one UPDATE renames exactly the rows with the old status, in place |
| StatusRename.RestoredExactly | backend/alembic/tenant_versions/0023_tenant_rename_syllabus_statuses.py:18-33 | 0023 is the identity on rows if and only if no row held a DEAN_ status before |
| StatusRename.RedoneExactly | backend/alembic/tenant_versions/0023_tenant_rename_syllabus_statuses.py:18-33 | the other way round: if and only if no row held an old status |
| Drivers.Database.Migrate | backend/alembic/env.py:72-84 | one schema, on a connection that keeps its path: created if missing, then all pending revisions or none; an invalid name or no connection changes nothing |
| Drivers.Process.MigrateSync | backend/app/core/tenants/provisioner.py:37-60 | runs on the schema it was given and restores both environment variables however the run ends |
| Drivers.Database.FetchTenants | backend/app/management/upgrade_all_tenants.py:70-104 | the targeted tenants, in order of creation |
| Drivers.TargetedExactly | backend/app/management/upgrade_all_tenants.py:71-88 | a tenant is targeted if and only if it is ACTIVE, or FAILED with the option, and has the named schema, if one is named |
| Drivers.TargetedInOrder | backend/app/management/upgrade_all_tenants.py:83-102 | each tenant row is kept where it stands or left out: order of creation, and as often as it is there |
| Drivers.UpgradeAll | backend/app/management/upgrade_all_tenants.py:121-221 | the three lists, the exit code and every schema after a run, as functions of the schemas before; no tenant row changes; a dry run changes nothing |
| Drivers.ListsPartition | backend/app/management/upgrade_all_tenants.py:169-200 | succeeded, failed and skipped together hold every fetched tenant once |
| Drivers.SkippedAreUnsafe | backend/app/management/upgrade_all_tenants.py:182-189 | the skipped list is exactly the tenants with an unsafe schema name, in order |
| Drivers.HeadIsKept | backend/app/management/upgrade_all_tenants.py:29-30 | a schema at head stays there unchanged, whatever goes wrong: reruns only add to the schemas at head |
| Drivers.ExitZeroMeansSafeAtHead | backend/app/management/upgrade_all_tenants.py:212-221 | exit code 0 means every tenant with a safe schema name is at head |
| Drivers.ExitZeroMeansAllAtHead | backend/app/management/upgrade_all_tenants.py:21-24 | the documented meaning of exit code 0 holds if and only if every skipped schema was at head before |
| Drivers.ExitZeroWithoutHead | backend/app/management/upgrade_all_tenants.py:182-189 | a run that exits 0 although a targeted schema is not at head |
| Drivers.MigrateAll | backend/app/db/migrate.py:60-67 | the exit code and the schemas of the --all loop, which ends at the first failure |
| Drivers.MigratesAPrefix | backend/app/db/migrate.py:60-67 | that loop brings exactly a prefix to head; the next name did not succeed |
| Drivers.RestIsKept | backend/app/db/migrate.py:60-67 | names beyond it keep their schemas |
| Fleet.TenantsUpgradable | backend/app/management/upgrade_all_tenants.py:112-118 | every schema that is what its version says can be brought to head, and ends up like every other |
| Fleet.NeverHalfMigrated | backend/app/management/upgrade_all_tenants.py:169-200 | over any tenants and failures every schema stays exactly what its version says |
| Fleet.FailedAreHindered | backend/app/management/upgrade_all_tenants.py:195-200 | the failed list is exactly the tenants that met an outside fault or have an invalid name: the revisions themselves never fail |
| Fleet.AllAlikeAtHead | backend/app/management/upgrade_all_tenants.py:212-221 | after exit code 0 all safe tenants have the same schema |
| Fleet.MisledExactly | backend/alembic/env.py:65-84 | a migration whose transaction loses the path leaves the tenant in order if and only if there was nothing to do or it fails; otherwise it records head over a schema it never touched |
| Fleet.FirstMigrationMisled | backend/alembic/env.py:65-84 | it does go wrong: a new tenant is left empty and marked as being at head, its tables in the shared schema |
| AuditLog.Engine.DeleteTenants | backend/alembic/public_versions/0003_public_create_audit_logs.py:38-42 | the row-by-row delete with ON DELETE SET NULL; a trigger that raises undoes all of it |
| AuditLog.StaysSound | backend/alembic/public_versions/0004_public_create_task_jobs.py:46-50 | every statement keeps every reference to tenants valid, with or without triggers |
| AuditLog.AuditOnlyGrows | backend/alembic/public_versions/0005_public_audit_log_immutability.py:31-72 | over every sequence of statements audit rows are only added, never changed or removed |
| AuditLog.TenantOfRowStays | backend/alembic/public_versions/0005_public_audit_log_immutability.py:31-72 | an audit row names its tenant for ever, and that tenant can never go |
| AuditLog.DeleteTenantsExactly | backend/alembic/public_versions/0003_public_create_audit_logs.py:38-42 | deleting tenants succeeds if and only if no audit row refers to one; otherwise nothing changes, task_jobs included |
| AuditLog.DirectMutations | backend/alembic/public_versions/0005_public_audit_log_immutability.py:45-72 | UPDATE and DELETE abort exactly if they match a row, TRUNCATE always, also through CASCADE |
| AuditLog.EachTriggerNeeded | backend/alembic/public_versions/0005_public_audit_log_immutability.py:45-72 | without any one of the three triggers some statement changes or removes an audit row |
| AuditContents.InsertExactly | backend/app/core/audit_log/repository.py:76-88 | an insert succeeds if and only if its id is new and its tenant exists or is null, stores that row and touches nothing else |
| AuditContents.LogIsWhatWasRecorded | backend/alembic/public_versions/0005_public_audit_log_immutability.py:31-72 | after any statements the audit log holds exactly the rows it held and those that were inserted |
| AuditContents.TenantsStep | backend/alembic/public_versions/0003_public_create_audit_logs.py:38-42 | the tenants after each statement, row by row |
| AuditContents.JobsStep | backend/alembic/public_versions/0004_public_create_task_jobs.py:46-50 | the jobs after each statement, row by row |
| Attendance.TogetherUnique | backend/alembic/tenant_versions/0031_tenant_attendance.py:66-78 | the two constraints together are equivalent to uniqueness with NULL as an ordinary value |
| Attendance.NeitherAlone | backend/alembic/tenant_versions/0031_tenant_attendance.py:66-78 | neither constraint alone is |
| Attendance.Sessions.Insert | backend/alembic/tenant_versions/0031_tenant_attendance.py:66-78 | an INSERT succeeds if and only if no row has the slot, and keeps slots unique |
| Attendance.Sessions.Update | backend/alembic/tenant_versions/0031_tenant_attendance.py:66-78 | an UPDATE of several rows keeps slots unique and takes effect as a whole or not at all |
| Attendance.OrderMatters | backend/alembic/tenant_versions/0031_tenant_attendance.py:66-71 | the constraints are checked row by row: the same shift of two sessions succeeds in one order and fails in the other |
| Jobs.TaskTables.WriteStatus | backend/app/workers/base_task.py:115-149 | the assembled UPDATE has exactly the effect of the status write; a lost write changes nothing |
| Jobs.TaskTables.BeforeStart | backend/app/workers/base_task.py:38-41 | each execution announces RUNNING on the job's row, if there is a job |
| Jobs.TaskTables.OnSuccess | backend/app/workers/base_task.py:43-46 | records SUCCESS and the result |
| Jobs.TaskTables.OnFailure | backend/app/workers/base_task.py:48-58 | the new job row and the one entity row that is reverted, for every combination of lost writes |
| Jobs.WritesShape | backend/app/workers/base_task.py:31-51 | one delivery writes RUNNING once per attempt, at most four times, then at most one final status |
| Jobs.RowAfter | backend/app/workers/base_task.py:115-149 | the status is that of the last write that landed; completed_at is set if and only if a final one landed |
| JobTables.RowExactly | backend/app/workers/base_task.py:115-149 | after any writes, lost or not, started_at and completed_at hold the time of the last write that sets them, result and error what the last one that carried one carried, and each is null if there was none |
| JobTables.WritesOneRow | backend/app/workers/base_task.py:123-145 | a status write changes its job's row only, field by field |
| Jobs.SingleDelivery | backend/app/workers/base_task.py:31-58 | at every moment of one delivery, whatever is lost: completed_at is set if and only if the status is final, and a final status is never left |
| Jobs.Redelivered | backend/app/workers/celery_app.py:66 | over any deliveries, in sequence or overlapping, a final status implies completed_at; the converse fails exactly if RUNNING landed after a final status |
| Jobs.RedeliveryLeavesSuccess | backend/app/workers/celery_app.py:66 | after any successful delivery the first write of any other takes the job out of SUCCESS, with completed_at still set |
| Jobs.RevertAfterFailed | backend/app/workers/base_task.py:48-58 | whichever writes of one delivery are lost: when it reverts the entity, the row says FAILED, with time and error, if and only if there is a job and the FAILED write landed |
| Jobs.OverlapHidesTheFailure | backend/app/workers/celery_app.py:66 | with overlapping deliveries the row may say RUNNING while the entity is reverted |
| Jobs.RevertWithoutJob | backend/app/workers/base_task.py:49-58 | a task without a job id reverts its entity and never changes the row, in every run |
| JobTables.RevertsOneRow | backend/app/workers/base_task.py:86-104 | a revert changes the one row that schema, table and key name, and only if all four arguments are given and the write lands |
| JobTables.TablesShowTheRun | backend/app/workers/base_task.py:38-104 | a run on the tables, seen through its job and entity, is the run of that job and that entity; no other row changes |
| Jobs.UndoneProgressHasACause | backend/app/workers/base_task.py:86-104 | over any deliveries: if others leave a busy entity alone, a revert that undoes anything but the busy status comes after a finished body or another revert |
| Jobs.SingleDeliveryUndoesNothing | backend/app/workers/base_task.py:86-104 | so the revert of a single delivery replaces only the busy status |
| Jobs.RedeliveryUndoesProgress | backend/app/workers/base_task.py:86-104 | two deliveries that, for any entity and statuses, revert what another actor has moved on |
| ExamPapers.ExamService.Dispatch | backend/app/modules/m08_exam_setter/service.py:120-163 | the paper is queued for generation, or FAILED if the broker does not answer |
| ExamPapers.ExamService.DeleteQuestion | backend/app/modules/m08_exam_setter/service.py:293-321 | refused outside the editable statuses or if the question is missing, else every other question stays in order |
| ExamPapers.ExamService.SubmitForReview | backend/app/modules/m08_exam_setter/service.py:327-375 | gate 1: which refusal comes first, and the new state |
| ExamPapers.ExamService.FacultyApproves | backend/app/modules/m08_exam_setter/service.py:611-665 | the gate of INTERNAL papers |
| ExamPapers.ExamService.BoardDecide | backend/app/modules/m08_exam_setter/service.py:381-422 | gate 2 |
| ExamPapers.ExamService.Scrutinizes | backend/app/modules/m08_exam_setter/service.py:704-743 | the scrutinizer's return |
| ExamPapers.ExamService.SealPaper | backend/app/modules/m08_exam_setter/service.py:428-521 | gate 3: seals the questions the table holds at that moment |
| ExamPapers.ExamService.ReleasePaper | backend/app/modules/m08_exam_setter/service.py:551-581 | the scheduled release: too early is refused, anything not sealed is left alone |
| ExamPapers.ExamService.ForceReleasePaper | backend/app/modules/m08_exam_setter/service.py:587-605 | the board's immediate release |
| ExamPapers.ExamService.AssignsScrutinizer | backend/app/modules/m08_exam_setter/service.py:671-702 | only for a BOARD_EXAM paper that is SUBMITTED |
| ExamPapers.ExamService.UpdateQuestion | backend/app/modules/m08_exam_setter/service.py:256-291 | which refusal comes first; otherwise the text of that question |
| PaperDiagram.EveryMove | backend/app/modules/m08_exam_setter/models.py:47-58 | every event moves a paper of any status along an arrow of the diagram, or leaves its status alone |
| PaperDiagram.EverythingElse | backend/app/modules/m08_exam_setter/repository.py:206-313 | what else an event touches: scrutinizer, sealed blob and queue by one event each, workflow and creator never |
| PaperDiagram.EveryWorker | backend/app/workers/heavy/generate_exam_paper.py:95-268 | how each event changes the number of workers at work |
| PaperDiagram.ReturnedExactly | backend/app/modules/m08_exam_setter/service.py:704-743 | in every run a paper is taken back from SUBMITTED by the board or by the scrutinizer assigned last, and by nothing else |
| PaperDiagram.DeleteTakesOut | backend/app/modules/m08_exam_setter/repository.py:463-468 | deleting a question takes it out and leaves the others as they were |
| PaperDiagram.EditReplaces | backend/app/modules/m08_exam_setter/repository.py:444-461 | an edit or a rewrite that lands replaces one question's text where it stands |
| ExamPapers.ReleasedThroughTheGates | backend/app/modules/m08_exam_setter/service.py:8-12 | over every run of people and workers a RELEASED paper was approved, sealed and released with no status in between; a BOARD_EXAM paper by the board right after its creator submitted it with questions, an INTERNAL one by its creator |
| ExamPapers.InternalStaysInternal | backend/app/modules/m08_exam_setter/service.py:346-351 | no run brings an INTERNAL paper to SUBMITTED or BOARD_RETURNED or gives it a scrutinizer |
| ExamPapers.ReleasableExactly | backend/app/modules/m08_exam_setter/service.py:363-369 | without its generation task a paper can still be released if and only if it is behind gate 1, or editable with a question: a FAILED paper cannot |
| ExamPapers.SubmittedIsReleasedExactly | backend/app/modules/m08_exam_setter/service.py:453-521 | a paper that passes the first gate is sealed and released with exactly the questions it then has, in every run that leaves it in review, if and only if no generation has still to save its questions and no regeneration of one of them is in flight |
| ExamPapers.ReleasedUntilRedelivery | backend/app/workers/heavy/generate_exam_paper.py:110-114 | with no generation at work, a released paper stays released exactly as long as its generation task is not delivered again |
| ExamPapers.ReleasedForGoodExactly | backend/app/workers/heavy/generate_exam_paper.py:202-268 | short of another delivery, a released paper is released for good if and only if no generation is still at work on it |
| ExamPapers.PagesAgreeWithService | frontend/src/pages/ExamPaperEditorPage.tsx:184-194 | for every paper that can come about, the pages enable an action if and only if the service does not refuse it for status or workflow |
| ExamPapers.BoardReview.HandleDecide | frontend/src/pages/BoardReviewPage.tsx:105-116 | what is sent and when: no return without a comment that says something |
| Sections.ShowSections | frontend/src/pages/ExamPaperEditorPage.tsx:559-622 | the cards the Map-filling loop and the sort produce |
| Sections.GroupBySection | frontend/src/pages/BoardReviewPage.tsx:442-453 | each group is exactly the questions with its label, in order; the rest are those without one |
| Sections.ShownTimes | frontend/src/pages/ExamPaperEditorPage.tsx:562-600 | every question is shown once for each section with its label, and once if it has none |
| Sections.ShownOnceExactly | frontend/src/pages/ExamPaperEditorPage.tsx:562-600 | with distinct labels each is shown exactly as often as given, unless the configuration lacks its label; then never |
| Sections.GroupKeepsOrder | frontend/src/pages/ExamPaperEditorPage.tsx:565-573 | within its group the questions keep their original order |
| Sections.CreationOrderComesBack | frontend/src/pages/ExamPaperCreatePage.tsx:169-171 | sorting recovers the order of creation from any permutation of the created sections |
| Sections.SortedIsStable | frontend/src/pages/ExamPaperEditorPage.tsx:575 | sections with the same order stay in the order they came in |
| Sections.ShownInOrder | frontend/src/pages/ExamPaperEditorPage.tsx:575-622 | cards come section by section in the order of the configuration, those without a label last |
| Sections.HandleSubmit | frontend/src/pages/ExamPaperCreatePage.tsx:119-186 | a form is sent if and only if it passes every check; the message names the first section that asks for too many answers |
| Sections.UnitsInOrder | frontend/src/pages/ExamPaperCreatePage.tsx:132-135 | each entry is kept where it stands if it is a positive number, and left out otherwise |
| Advisory.AdvisesExactly | frontend/src/pages/InternalExamReleasePage.tsx:38-50 | the advisory is shown if and only if at least five totals are entered and n·Σx² − (Σx)² exceeds 0.09·n²·max² (or the maximum is negative) |
| Advisory.Popoviciu | frontend/src/pages/InternalExamReleasePage.tsx:43-45 | the standard deviation is at most half the range of the totals |
| Advisory.DeviationAtMostHalf | frontend/src/pages/InternalExamReleasePage.tsx:43-46 | totals between 0 and the maximum deviate by at most half of it |
| Advisory.NarrowNeverAdvises | frontend/src/pages/InternalExamReleasePage.tsx:46 | totals that span at most 0.6 of the maximum never show it |
| Advisory.StatsIgnoreOrder | frontend/src/pages/InternalExamReleasePage.tsx:43-45 | mean, variance and deviation are those of any permutation of the roster |
| Advisory.OrderIrrelevantExactly | frontend/src/pages/InternalExamReleasePage.tsx:38-50 | the verdict ignores the order of the roster if and only if fewer than five totals are entered or the threshold is passed for the maxima of all entered rows or of none |
| Advisory.OrderIrrelevant | frontend/src/pages/InternalExamReleasePage.tsx:39-46 | in particular with one maximum for all entered rows |
| Advisory.UnenteredIgnored | frontend/src/pages/InternalExamReleasePage.tsx:39 | rows without a total never matter |
| Advisory.FirstMaxCounts | frontend/src/pages/InternalExamReleasePage.tsx:42 | a roster with two maxima whose verdict the order decides |
| Rubric.RubricEditor.AddRow | frontend/src/pages/LabAssignmentDetailPage.tsx:184-190 | appends a row whose id counts the rows |
| Rubric.RubricEditor.UpdateRow | frontend/src/pages/LabAssignmentDetailPage.tsx:197-201 | changes one field of the rows with the key and nothing else |
| Rubric.RubricEditor.RemoveRow | frontend/src/pages/LabAssignmentDetailPage.tsx:192-195 | removes the rows with the key and keeps the others in order; a single row stays |
| Rubric.Normalise | frontend/src/pages/LabAssignmentDetailPage.tsx:217-225 | the even split if all weights are zero, else each over the total |
| Rubric.ShareInProportion | frontend/src/pages/LabAssignmentDetailPage.tsx:217-225 | a share is its weight in proportion to the total, whatever the signs |
| Rubric.RubricEditor.HandleSave | frontend/src/pages/LabAssignmentDetailPage.tsx:203-242 | the first invalid row decides the message; otherwise each row is saved with its rounded share |
| Rubric.SavedWeightInRange | frontend/src/pages/LabAssignmentDetailPage.tsx:216-233 | saved weights are multiples of 1/10000 between 0 and 1 |
| Rubric.SavedWeightsOrdered | frontend/src/pages/LabAssignmentDetailPage.tsx:216-233 | they keep the order of the weights entered |
| Rubric.SavedWeightsSum | frontend/src/pages/LabAssignmentDetailPage.tsx:216-233 | for n rows they sum to within n/20000 of 1, in both branches |
| Rubric.SavedRubricSum | frontend/src/pages/LabAssignmentDetailPage.tsx:227-233 | so do the weights of the rubric that is saved, all of them numbers |
| Rubric.ThirdsFallShort | frontend/src/pages/LabAssignmentDetailPage.tsx:220-232 | three equal weights sum to 0.9999: the bound is not zero |
| Rubric.ZeroTotal | frontend/src/pages/LabAssignmentDetailPage.tsx:223-224 | weights that cancel out are saved as no number, which needs a negative one |
| Rubric.IdsStayInOrder | frontend/src/pages/LabAssignmentDetailPage.tsx:177-195 | any run of additions and last-row removals keeps the ids c1 to cn |
| Rubric.DuplicateIdExactly | frontend/src/pages/LabAssignmentDetailPage.tsx:184-195 | removing row k and then adding gives distinct ids if and only if k was the last |
| Chat.NotebookQA.OnSessions | frontend/src/components/NotebookQA.tsx:163-172 | picks the newest session, or is ready at once if there is none |
| Chat.NotebookQA.OnHistory | frontend/src/components/NotebookQA.tsx:174-189 | loads the history of that session once |
| Chat.NotebookQA.Ask | frontend/src/components/NotebookQA.tsx:197-209 | a question and a loading bubble are appended, unless the text is empty or a request is pending |
| Chat.NotebookQA.Settle | frontend/src/components/NotebookQA.tsx:211-240 | the bubble goes, the answer comes; a lost session is forgotten |
| Chat.ListIsHistoryAndTurns | frontend/src/components/NotebookQA.tsx:163-240 | at every point of every run the list is the loaded history, then all turns in order, then one bubble exactly while a request is pending |
| Chat.BubbleIsLast | frontend/src/components/NotebookQA.tsx:218-228 | at most one bubble exists, it is last, and it exists if and only if a request is pending |
| Chat.SettlingLosesNothing | frontend/src/components/NotebookQA.tsx:211-228 | dropping the last element when a request settles never loses a message |
| Chat.StateIsHistory | frontend/src/components/NotebookQA.tsx:163-240 | at every point of every run: which session the next question goes to, whether the view is ready, a request pending, an error shown |

## Left out

- Columns that no operation, key, index or reference mentions again are not listed in the revisions: they come and go with their table. Nullability, defaults, comments and check constraints are not modelled.
- The condition of a partial index is a flag; that of the attendance sessions is spelled out in `Attendance.PartialConflict`.
- Index and constraint names are kept per table, enum and function names per schema; the order of enum values is kept, that of columns is not.
- Row data in migrations: seeds and UPDATE statements are one operation that leaves the schema alone, except for revision 0023, whose rows are modelled. USING casts are taken to succeed.
- TenantHistory.RoundTrip: for revision 0023 it speaks of the schema only; StatusRename.RestoredExactly speaks of its rows.
- Drivers.Database.Migrate: assumes a connection on which the path set by `env.py` survives its commit, which a transaction pool does not give (`SearchPath.CarriedIffSameBackend`); so do Drivers.UpgradeAll and Drivers.MigrateAll. A migration is one transaction that commits or not; Alembic's version table is the version of the store. A new schema starts empty.
- Drivers.UpgradeAll: parsing of the arguments, log messages, timing and the text of a failure are not modelled.
- Fleet.NeverHalfMigrated: assumes that connection; Fleet.MisledExactly speaks of a migration without it. Fleet.FailedAreHindered and Fleet.AllAlikeAtHead assume it too.
- Schema names that match the pattern of `env.py` are a given flag rather than a regular expression; the prefix test of `upgrade_all_tenants` is exact.
- SQLAlchemy, Alembic, Celery, PgBouncer and React Query are modelled by the step each takes here, prepared statements and other session state apart. Retry delays and jitter are left out; clocks are counters.
- SearchPath.PoolRefinesPrivate: its guard shuts out the runs of the workers and of the migrate job, which commit a session-level SET; PathHistory.EveryRunFollowsItsHistory has no guard and speaks of those. TenantScopes.StatementsFollowScopes and TenantScopes.SeesOnlyItsTenant have the same guard.
- Jobs.SingleDelivery: the periodic cleanup of stale jobs is another writer and not part of it.
- Advisory.AdvisesExactly: totals are exact rationals, and mean, variance and root are given by the equations that define them; floating-point rounding is not modelled.
- Rubric.SavedWeightsSum: weights are exact rationals; floating-point rounding is not modelled, and weights that are not numbers are left out.
- ExamPapers.SubmittedIsReleasedExactly: a service call is one step, so two calls that overlap inside the service are not modelled; encryption, storage of the sealed blob and the question bank are left out.
- ExamPapers.PagesAgreeWithService: roles are abstract; a caller is told from the creator only.
- Sections.HandleSubmit: the text of the units is given as the result of parsing each entry, and only the fields that decide whether the form is sent are kept.
- Chat.ListIsHistoryAndTurns: settling a request is one step; the texts are given trimmed, and sources and ids of messages are left out.
- The toast store, the cascading selector, the set of questions being regenerated on the editor page, and the other service modules, routers and pages are not modelled.
