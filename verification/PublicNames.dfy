/** The SQL names of the public revisions, numbered like those of the tenant revisions. */
module PublicNames {
  import opened SchemaModel

  function Tenants(): Name { 0 }  function TenantsSlug(): Name { 0 }  function TenantsSchemaName(): Name { 1 }
  function TenantsSlugKey(): Name { 2 }  function TenantsSchemaNameKey(): Name { 3 }
  function PlatformUsers(): Name { 1 }  function PlatformUsersEmail(): Name { 4 }
  function PlatformUsersEmailKey(): Name { 5 }
  function PlatformRefreshTokens(): Name { 2 }  function PlatformRefreshTokensUserId(): Name { 6 }
  function PlatformRefreshTokensTokenHash(): Name { 7 }
  function PlatformRefreshTokensReplacedBy(): Name { 8 }
  function PlatformRefreshTokensTokenHashKey(): Name { 9 }
  function PlatformOtpCodes(): Name { 3 }  function PlatformOtpCodesUserId(): Name { 10 }
  function RefreshTokenIndex(): Name { 4 }  function TenantsStatus(): Name { 11 }
  function AuditLogs(): Name { 5 }  function AuditLogsEventType(): Name { 12 }
  function AuditLogsActorUserId(): Name { 13 }  function AuditLogsTenantId(): Name { 14 }
  function AuditLogsCreatedAt(): Name { 15 }  function IxAuditLogsTenantCreated(): Name { 16 }
  function IxAuditLogsEventCreated(): Name { 17 }  function IxAuditLogsActorCreated(): Name { 18 }
  function IxAuditLogsCreated(): Name { 19 }
  function TaskJobs(): Name { 6 }  function TaskJobsTenantId(): Name { 20 }
  function TaskJobsStatus(): Name { 21 }  function TaskJobsCreatedAt(): Name { 22 }
  function IxTaskJobsTenantCreated(): Name { 23 }  function IxTaskJobsStatusCreated(): Name { 24 }
  function IxTaskJobsTenantStatus(): Name { 25 }  function IxTaskJobsCreated(): Name { 26 }
  function AuditLogsNoMutate(): Name { 27 }  function AuditLogsBlockUpdate(): Name { 28 }
  function AuditLogsBlockDelete(): Name { 29 }  function AuditLogsBlockTruncate(): Name { 30 }
  function TenantsContactEmail(): Name { 31 }  function TenantsLogoUrl(): Name { 32 }
  function TenantsPrimaryColor(): Name { 33 }  function TenantsSecondaryColor(): Name { 34 }
  function PlatformUsersAvatarUrl(): Name { 35 }
  function PlatformBranding(): Name { 7 }  function TenantsDeletedAt(): Name { 36 }
  function TenantsDeletedByUserId(): Name { 37 }
}
