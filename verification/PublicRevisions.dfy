/** The public revisions 0001 to 0011: one operation per Alembic call or DDL statement, in source order,
    one block per table. */
module PublicRevisions {
  import opened SchemaModel
  import opened PublicNames

  // 0001_public_create_platform_tables.py:18-89, 92-97
  const UP_0001: seq<seq<Op>> := [
    [ CreateTable(Tenants(),
        [Col(TenantsSlug(), Varchar), Col(TenantsSchemaName(), Varchar)],
        [],
        [UQ(TenantsSlugKey(), [TenantsSlug()]), UQ(TenantsSchemaNameKey(), [TenantsSchemaName()])]) ],
    [ CreateTable(PlatformUsers(),
        [Col(PlatformUsersEmail(), Varchar)],
        [],
        [UQ(PlatformUsersEmailKey(), [PlatformUsersEmail()])]) ],
    [ CreateTable(PlatformRefreshTokens(),
        [Col(PlatformRefreshTokensUserId(), Uuid), Col(PlatformRefreshTokensTokenHash(), Varchar),
         Col(PlatformRefreshTokensReplacedBy(), Uuid)],
        [FK(PlatformRefreshTokensUserId(), PlatformUsers(), Cascade),
         FK(PlatformRefreshTokensReplacedBy(), PlatformRefreshTokens(), NoAction)],
        [UQ(PlatformRefreshTokensTokenHashKey(), [PlatformRefreshTokensTokenHash()])]) ],
    [ CreateTable(PlatformOtpCodes(),
        [Col(PlatformOtpCodesUserId(), Uuid)],
        [FK(PlatformOtpCodesUserId(), PlatformUsers(), Cascade)],
        []) ],
    [ CreateTable(RefreshTokenIndex(), [], [], []) ]]

  const DOWN_0001: seq<seq<Op>> := [
    [ DropTable(RefreshTokenIndex()) ],
    [ DropTable(PlatformOtpCodes()) ],
    [ DropTable(PlatformRefreshTokens()) ],
    [ DropTable(PlatformUsers()) ],
    [ DropTable(Tenants()) ]]

  // 0002_public_add_tenant_status.py:17-27, 30-31
  const UP_0002: seq<seq<Op>> := [
    [ AddColumn(Tenants(), TenantsStatus(), Varchar, NoReference, false) ]]

  const DOWN_0002: seq<seq<Op>> := [
    [ DropColumn(Tenants(), TenantsStatus()) ]]

  // 0003_public_create_audit_logs.py:18-69, 72-77
  const UP_0003: seq<seq<Op>> := [
    [ CreateTable(AuditLogs(),
        [Col(AuditLogsEventType(), Varchar), Col(AuditLogsActorUserId(), Uuid),
         Col(AuditLogsTenantId(), Uuid), Col(AuditLogsCreatedAt(), Timestamp)],
        [FK(AuditLogsTenantId(), Tenants(), SetNull)],
        []),
      Ix(IxAuditLogsTenantCreated(), AuditLogs(), [AuditLogsTenantId(), AuditLogsCreatedAt()]),
      Ix(IxAuditLogsEventCreated(), AuditLogs(), [AuditLogsEventType(), AuditLogsCreatedAt()]),
      Ix(IxAuditLogsActorCreated(), AuditLogs(), [AuditLogsActorUserId(), AuditLogsCreatedAt()]),
      Ix(IxAuditLogsCreated(), AuditLogs(), [AuditLogsCreatedAt()]) ]]

  const DOWN_0003: seq<seq<Op>> := [
    [ DropIndex(IxAuditLogsCreated(), AuditLogs()), DropIndex(IxAuditLogsActorCreated(), AuditLogs()),
      DropIndex(IxAuditLogsEventCreated(), AuditLogs()),
      DropIndex(IxAuditLogsTenantCreated(), AuditLogs()), DropTable(AuditLogs()) ]]

  // 0004_public_create_task_jobs.py:18-77, 80-85
  const UP_0004: seq<seq<Op>> := [
    [ CreateTable(TaskJobs(),
        [Col(TaskJobsTenantId(), Uuid), Col(TaskJobsStatus(), Varchar),
         Col(TaskJobsCreatedAt(), Timestamp)],
        [FK(TaskJobsTenantId(), Tenants(), SetNull)],
        []),
      Ix(IxTaskJobsTenantCreated(), TaskJobs(), [TaskJobsTenantId(), TaskJobsCreatedAt()]),
      Ix(IxTaskJobsStatusCreated(), TaskJobs(), [TaskJobsStatus(), TaskJobsCreatedAt()]),
      Ix(IxTaskJobsTenantStatus(), TaskJobs(), [TaskJobsTenantId(), TaskJobsStatus()]),
      Ix(IxTaskJobsCreated(), TaskJobs(), [TaskJobsCreatedAt()]) ]]

  const DOWN_0004: seq<seq<Op>> := [
    [ DropIndex(IxTaskJobsCreated(), TaskJobs()), DropIndex(IxTaskJobsTenantStatus(), TaskJobs()),
      DropIndex(IxTaskJobsStatusCreated(), TaskJobs()),
      DropIndex(IxTaskJobsTenantCreated(), TaskJobs()), DropTable(TaskJobs()) ]]

  // 0005_public_audit_log_immutability.py:25-73, 76-80
  const UP_0005: seq<seq<Op>> := [
    [ ReplaceFunction(AuditLogsNoMutate()),
      CreateTrigger(AuditLogsBlockUpdate(), AuditLogs(), AuditLogsNoMutate()),
      CreateTrigger(AuditLogsBlockDelete(), AuditLogs(), AuditLogsNoMutate()),
      CreateTrigger(AuditLogsBlockTruncate(), AuditLogs(), AuditLogsNoMutate()) ]]

  const DOWN_0005: seq<seq<Op>> := [
    [ DropTrigger(AuditLogsBlockTruncate(), AuditLogs()),
      DropTrigger(AuditLogsBlockDelete(), AuditLogs()),
      DropTrigger(AuditLogsBlockUpdate(), AuditLogs()), DropFunction(AuditLogsNoMutate()) ]]

  // 0006_public_add_tenant_contact_email.py:17-22, 25-26
  const UP_0006: seq<seq<Op>> := [
    [ AddColumn(Tenants(), TenantsContactEmail(), Varchar, NoReference, false) ]]

  const DOWN_0006: seq<seq<Op>> := [
    [ DropColumn(Tenants(), TenantsContactEmail()) ]]

  // 0007_public_add_tenant_branding.py:17-32, 35-38
  const UP_0007: seq<seq<Op>> := [
    [ AddColumn(Tenants(), TenantsLogoUrl(), Varchar, NoReference, false),
      AddColumn(Tenants(), TenantsPrimaryColor(), Varchar, NoReference, false),
      AddColumn(Tenants(), TenantsSecondaryColor(), Varchar, NoReference, false) ]]

  const DOWN_0007: seq<seq<Op>> := [
    [ DropColumn(Tenants(), TenantsSecondaryColor()), DropColumn(Tenants(), TenantsPrimaryColor()),
      DropColumn(Tenants(), TenantsLogoUrl()) ]]

  // 0008_public_tenant_lifecycle_statuses.py:17-22, 25-26
  const UP_0008: seq<seq<Op>> := []

  const DOWN_0008: seq<seq<Op>> := []

  // 0009_public_add_deleted_tenant_status.py:17-22, 25-26
  const UP_0009: seq<seq<Op>> := []

  const DOWN_0009: seq<seq<Op>> := []

  // 0010_public_platform_branding_and_profile.py:18-43, 46-48
  const UP_0010: seq<seq<Op>> := [
    [ AddColumn(PlatformUsers(), PlatformUsersAvatarUrl(), Varchar, NoReference, false) ],
    [ CreateTable(PlatformBranding(), [], [], []), ChangeRows(PlatformBranding()) ]]

  const DOWN_0010: seq<seq<Op>> := [
    [ DropTable(PlatformBranding()) ],
    [ DropColumn(PlatformUsers(), PlatformUsersAvatarUrl()) ]]

  // 0011_public_tenant_deleted_meta.py:18-28, 31-33
  const UP_0011: seq<seq<Op>> := [
    [ AddColumn(Tenants(), TenantsDeletedAt(), Timestamp, NoReference, false),
      AddColumn(Tenants(), TenantsDeletedByUserId(), Uuid, NoReference, false) ]]

  const DOWN_0011: seq<seq<Op>> := [
    [ DropColumn(Tenants(), TenantsDeletedByUserId()), DropColumn(Tenants(), TenantsDeletedAt()) ]]
}
