/** The tenant revisions 0001 to 0035: one operation per Alembic call or DDL statement, in source order,
    one block per table. */
module TenantRevisions {
  import opened SchemaModel
  import opened TenantNames

  // 0001_tenant_create_auth_tables.py:18-64, 67-70
  const UP_0001: seq<seq<Op>> := [
    [ CreateTable(Users(),
        [Col(UsersEmail(), Varchar), Col(UsersRole(), Varchar)],
        [],
        [UQ(UsersEmailKey(), [UsersEmail()])]) ],
    [ CreateTable(RefreshTokens(),
        [Col(RefreshTokensUserId(), Uuid), Col(RefreshTokensTokenHash(), Varchar),
         Col(RefreshTokensReplacedBy(), Uuid)],
        [FK(RefreshTokensUserId(), Users(), Cascade),
         FK(RefreshTokensReplacedBy(), RefreshTokens(), NoAction)],
        [UQ(RefreshTokensTokenHashKey(), [RefreshTokensTokenHash()])]) ],
    [ CreateTable(OtpCodes(),
        [Col(OtpCodesUserId(), Uuid), Col(OtpCodesPurpose(), Varchar)],
        [FK(OtpCodesUserId(), Users(), Cascade)],
        []) ]]

  const DOWN_0001: seq<seq<Op>> := [
    [ DropTable(OtpCodes()) ],
    [ DropTable(RefreshTokens()) ],
    [ DropTable(Users()) ]]

  // 0002_tenant_add_enum_types.py:16-29, 32-42
  const UP_0002: seq<seq<Op>> := [
    [ CreateEnum(Tenantrole(), ["ADMIN", "DEAN", "FACULTY", "STUDENT", "BOARD", "GUIDE"]),
      CreateEnum(Otppurpose(), ["PASSWORD_RESET"]),
      AlterColumnType(Users(), UsersRole(), EnumType(Tenantrole())),
      AlterColumnType(OtpCodes(), OtpCodesPurpose(), EnumType(Otppurpose())) ]]

  const DOWN_0002: seq<seq<Op>> := [
    [ AlterColumnType(OtpCodes(), OtpCodesPurpose(), Varchar),
      AlterColumnType(Users(), UsersRole(), Varchar), DropEnum(Otppurpose()), DropEnum(Tenantrole()) ]]

  // 0003_tenant_create_notifications.py:18-40, 43-46
  const UP_0003: seq<seq<Op>> := [
    [ CreateTable(Notifications(),
        [Col(NotificationsRecipientUserId(), Uuid), Col(NotificationsIsRead(), Boolean),
         Col(NotificationsCreatedAt(), Timestamp)],
        [],
        []),
      Ix(IxNotificationsRecipientCreated(), Notifications(),
         [NotificationsRecipientUserId(), NotificationsCreatedAt()]),
      Ix(IxNotificationsRecipientIsRead(), Notifications(),
         [NotificationsRecipientUserId(), NotificationsIsRead()]) ]]

  const DOWN_0003: seq<seq<Op>> := [
    [ DropIndex(IxNotificationsRecipientIsRead(), Notifications()),
      DropIndex(IxNotificationsRecipientCreated(), Notifications()), DropTable(Notifications()) ]]

  // 0004_tenant_create_storage_asset.py:18-41, 44-48
  const UP_0004: seq<seq<Op>> := [
    [ CreateTable(StorageAssets(),
        [Col(StorageAssetsUploadedByUserId(), Uuid), Col(StorageAssetsEntityType(), Varchar),
         Col(StorageAssetsEntityId(), Uuid), Col(StorageAssetsObjectKey(), Text),
         Col(StorageAssetsCreatedAt(), Timestamp)],
        [],
        [UQ(StorageAssetsObjectKeyKey(), [StorageAssetsObjectKey()])]),
      Ix(IxStorageAssetsEntity(), StorageAssets(),
         [StorageAssetsEntityType(), StorageAssetsEntityId()]),
      Ix(IxStorageAssetsUploadedByCreated(), StorageAssets(),
         [StorageAssetsUploadedByUserId(), StorageAssetsCreatedAt()]),
      Ix(IxStorageAssetsCreated(), StorageAssets(), [StorageAssetsCreatedAt()]) ]]

  const DOWN_0004: seq<seq<Op>> := [
    [ DropIndex(IxStorageAssetsCreated(), StorageAssets()),
      DropIndex(IxStorageAssetsUploadedByCreated(), StorageAssets()),
      DropIndex(IxStorageAssetsEntity(), StorageAssets()), DropTable(StorageAssets()) ]]

  // 0005_tenant_create_m01_program.py:18-90, 93-109
  const UP_0005: seq<seq<Op>> := [
    [ CreateTable(Programs(),
        [Col(ProgramsParentVersionId(), Uuid), Col(ProgramsStatus(), Varchar),
         Col(ProgramsCreatedByUserId(), Uuid), Col(ProgramsCreatedAt(), Timestamp)],
        [FK(ProgramsParentVersionId(), Programs(), NoAction)],
        []),
      Ix(IxProgramsStatus(), Programs(), [ProgramsStatus()]),
      Ix(IxProgramsCreatedBy(), Programs(), [ProgramsCreatedByUserId()]),
      Ix(IxProgramsParentVersion(), Programs(), [ProgramsParentVersionId()]),
      Ix(IxProgramsCreatedAt(), Programs(), [ProgramsCreatedAt()]) ],
    [ CreateTable(ProgramOutcomes(),
        [Col(ProgramOutcomesProgramId(), Uuid), Col(ProgramOutcomesCode(), Varchar)],
        [FK(ProgramOutcomesProgramId(), Programs(), Cascade)],
        [UQ(ProgramOutcomesProgramIdCodeKey(), [ProgramOutcomesProgramId(), ProgramOutcomesCode()])]),
      Ix(IxProgramOutcomesProgram(), ProgramOutcomes(), [ProgramOutcomesProgramId()]) ],
    [ CreateTable(Courses(),
        [Col(CoursesProgramId(), Uuid), Col(CoursesCode(), Varchar), Col(CoursesSemester(), Integer)],
        [FK(CoursesProgramId(), Programs(), Cascade)],
        [UQ(CoursesProgramIdCodeKey(), [CoursesProgramId(), CoursesCode()])]),
      Ix(IxCoursesProgram(), Courses(), [CoursesProgramId()]),
      Ix(IxCoursesProgramSemester(), Courses(), [CoursesProgramId(), CoursesSemester()]) ],
    [ CreateTable(CoursePrerequisites(),
        [Col(CoursePrerequisitesCourseId(), Uuid), Col(CoursePrerequisitesPrerequisiteCourseId(), Uuid)],
        [FK(CoursePrerequisitesCourseId(), Courses(), Cascade),
         FK(CoursePrerequisitesPrerequisiteCourseId(), Courses(), Cascade)],
        [UQ(CoursePrerequisitesCourseIdPrerequisiteCourseIdKey(),
            [CoursePrerequisitesCourseId(), CoursePrerequisitesPrerequisiteCourseId()])]),
      Ix(IxCoursePrereqsCourse(), CoursePrerequisites(), [CoursePrerequisitesCourseId()]),
      Ix(IxCoursePrereqsPrereq(), CoursePrerequisites(), [CoursePrerequisitesPrerequisiteCourseId()]) ]]

  const DOWN_0005: seq<seq<Op>> := [
    [ DropIndex(IxCoursePrereqsPrereq(), CoursePrerequisites()),
      DropIndex(IxCoursePrereqsCourse(), CoursePrerequisites()), DropTable(CoursePrerequisites()) ],
    [ DropIndex(IxCoursesProgramSemester(), Courses()), DropIndex(IxCoursesProgram(), Courses()),
      DropTable(Courses()) ],
    [ DropIndex(IxProgramOutcomesProgram(), ProgramOutcomes()), DropTable(ProgramOutcomes()) ],
    [ DropIndex(IxProgramsCreatedAt(), Programs()), DropIndex(IxProgramsParentVersion(), Programs()),
      DropIndex(IxProgramsCreatedBy(), Programs()), DropIndex(IxProgramsStatus(), Programs()),
      DropTable(Programs()) ]]

  // 0006_tenant_create_m02_syllabus.py:18-117, 120-140
  const UP_0006: seq<seq<Op>> := [
    [ CreateTable(Syllabi(),
        [Col(SyllabiCourseId(), Uuid), Col(SyllabiVersion(), Integer),
         Col(SyllabiParentVersionId(), Uuid), Col(SyllabiStatus(), Varchar),
         Col(SyllabiCreatedByUserId(), Uuid)],
        [FK(SyllabiCourseId(), Courses(), Cascade), FK(SyllabiParentVersionId(), Syllabi(), NoAction)],
        []),
      Ix(IxSyllabiCourse(), Syllabi(), [SyllabiCourseId()]),
      Ix(IxSyllabiCourseVersion(), Syllabi(), [SyllabiCourseId(), SyllabiVersion()]),
      Ix(IxSyllabiStatus(), Syllabi(), [SyllabiStatus()]),
      Ix(IxSyllabiCreatedBy(), Syllabi(), [SyllabiCreatedByUserId()]),
      Ix(IxSyllabiParentVersion(), Syllabi(), [SyllabiParentVersionId()]) ],
    [ CreateTable(CourseOutcomes(),
        [Col(CourseOutcomesSyllabusId(), Uuid), Col(CourseOutcomesCode(), Varchar)],
        [FK(CourseOutcomesSyllabusId(), Syllabi(), Cascade)],
        [UQ(CourseOutcomesSyllabusIdCodeKey(), [CourseOutcomesSyllabusId(), CourseOutcomesCode()])]),
      Ix(IxCourseOutcomesSyllabus(), CourseOutcomes(), [CourseOutcomesSyllabusId()]) ],
    [ CreateTable(CoPoMappings(),
        [Col(CoPoMappingsCoId(), Uuid), Col(CoPoMappingsPoId(), Uuid)],
        [FK(CoPoMappingsCoId(), CourseOutcomes(), Cascade),
         FK(CoPoMappingsPoId(), ProgramOutcomes(), Cascade)],
        [UQ(CoPoMappingsCoIdPoIdKey(), [CoPoMappingsCoId(), CoPoMappingsPoId()])]),
      Ix(IxCoPoMappingsCo(), CoPoMappings(), [CoPoMappingsCoId()]),
      Ix(IxCoPoMappingsPo(), CoPoMappings(), [CoPoMappingsPoId()]) ],
    [ CreateTable(SyllabusUnits(),
        [Col(SyllabusUnitsSyllabusId(), Uuid), Col(SyllabusUnitsUnitNumber(), Integer)],
        [FK(SyllabusUnitsSyllabusId(), Syllabi(), Cascade)],
        [UQ(SyllabusUnitsSyllabusIdUnitNumberKey(),
            [SyllabusUnitsSyllabusId(), SyllabusUnitsUnitNumber()])]),
      Ix(IxSyllabusUnitsSyllabus(), SyllabusUnits(), [SyllabusUnitsSyllabusId()]) ],
    [ CreateTable(SyllabusReferences(),
        [Col(SyllabusReferencesSyllabusId(), Uuid), Col(SyllabusReferencesSource(), Varchar)],
        [FK(SyllabusReferencesSyllabusId(), Syllabi(), Cascade)],
        []),
      Ix(IxSyllabusReferencesSyllabus(), SyllabusReferences(), [SyllabusReferencesSyllabusId()]),
      Ix(IxSyllabusReferencesSource(), SyllabusReferences(), [SyllabusReferencesSource()]) ]]

  const DOWN_0006: seq<seq<Op>> := [
    [ DropIndex(IxSyllabusReferencesSource(), SyllabusReferences()),
      DropIndex(IxSyllabusReferencesSyllabus(), SyllabusReferences()), DropTable(SyllabusReferences()) ],
    [ DropIndex(IxSyllabusUnitsSyllabus(), SyllabusUnits()), DropTable(SyllabusUnits()) ],
    [ DropIndex(IxCoPoMappingsPo(), CoPoMappings()), DropIndex(IxCoPoMappingsCo(), CoPoMappings()),
      DropTable(CoPoMappings()) ],
    [ DropIndex(IxCourseOutcomesSyllabus(), CourseOutcomes()), DropTable(CourseOutcomes()) ],
    [ DropIndex(IxSyllabiParentVersion(), Syllabi()), DropIndex(IxSyllabiCreatedBy(), Syllabi()),
      DropIndex(IxSyllabiStatus(), Syllabi()), DropIndex(IxSyllabiCourseVersion(), Syllabi()),
      DropIndex(IxSyllabiCourse(), Syllabi()), DropTable(Syllabi()) ]]

  // 0007_tenant_create_m03_course_kit.py:18-108, 111-126
  const UP_0007: seq<seq<Op>> := [
    [ CreateTable(CourseKits(),
        [Col(CourseKitsSyllabusId(), Uuid), Col(CourseKitsUnitNumber(), Integer),
         Col(CourseKitsParentVersionId(), Uuid), Col(CourseKitsStatus(), Varchar),
         Col(CourseKitsCreatedByUserId(), Uuid)],
        [FK(CourseKitsSyllabusId(), Syllabi(), Cascade),
         FK(CourseKitsParentVersionId(), CourseKits(), NoAction)],
        []),
      Ix(IxCourseKitsSyllabus(), CourseKits(), [CourseKitsSyllabusId()]),
      Ix(IxCourseKitsSyllabusUnit(), CourseKits(), [CourseKitsSyllabusId(), CourseKitsUnitNumber()]),
      Ix(IxCourseKitsStatus(), CourseKits(), [CourseKitsStatus()]),
      Ix(IxCourseKitsCreatedBy(), CourseKits(), [CourseKitsCreatedByUserId()]),
      Ix(IxCourseKitsParentVersion(), CourseKits(), [CourseKitsParentVersionId()]) ],
    [ CreateTable(KitSlides(),
        [Col(KitSlidesKitId(), Uuid), Col(KitSlidesSlideNumber(), Integer)],
        [FK(KitSlidesKitId(), CourseKits(), Cascade)],
        [UQ(KitSlidesKitIdSlideNumberKey(), [KitSlidesKitId(), KitSlidesSlideNumber()])]),
      Ix(IxKitSlidesKit(), KitSlides(), [KitSlidesKitId()]) ],
    [ CreateTable(KitQuizlets(),
        [Col(KitQuizletsKitId(), Uuid), Col(KitQuizletsQuestionNumber(), Integer)],
        [FK(KitQuizletsKitId(), CourseKits(), Cascade)],
        [UQ(KitQuizletsKitIdQuestionNumberKey(), [KitQuizletsKitId(), KitQuizletsQuestionNumber()])]),
      Ix(IxKitQuizletsKit(), KitQuizlets(), [KitQuizletsKitId()]) ],
    [ CreateTable(KitAssignments(),
        [Col(KitAssignmentsKitId(), Uuid), Col(KitAssignmentsAssignmentNumber(), Integer)],
        [FK(KitAssignmentsKitId(), CourseKits(), Cascade)],
        [UQ(KitAssignmentsKitIdAssignmentNumberKey(),
            [KitAssignmentsKitId(), KitAssignmentsAssignmentNumber()])]),
      Ix(IxKitAssignmentsKit(), KitAssignments(), [KitAssignmentsKitId()]) ]]

  const DOWN_0007: seq<seq<Op>> := [
    [ DropIndex(IxKitAssignmentsKit(), KitAssignments()), DropTable(KitAssignments()) ],
    [ DropIndex(IxKitQuizletsKit(), KitQuizlets()), DropTable(KitQuizlets()) ],
    [ DropIndex(IxKitSlidesKit(), KitSlides()), DropTable(KitSlides()) ],
    [ DropIndex(IxCourseKitsParentVersion(), CourseKits()),
      DropIndex(IxCourseKitsCreatedBy(), CourseKits()), DropIndex(IxCourseKitsStatus(), CourseKits()),
      DropIndex(IxCourseKitsSyllabusUnit(), CourseKits()),
      DropIndex(IxCourseKitsSyllabus(), CourseKits()), DropTable(CourseKits()) ]]

  // 0008_tenant_create_m05_learning.py:24-100, 103-122
  const UP_0008: seq<seq<Op>> := [
    [ CreateTable(LearningPackages(),
        [Col(LearningPackagesSyllabusId(), Uuid), Col(LearningPackagesUnitNumber(), Integer),
         Col(LearningPackagesStatus(), Varchar), Col(LearningPackagesCreatedByUserId(), Uuid)],
        [FK(LearningPackagesSyllabusId(), Syllabi(), Cascade)],
        []),
      Ix(IxLearningPackagesSyllabus(), LearningPackages(), [LearningPackagesSyllabusId()]),
      Ix(IxLearningPackagesSyllabusUnit(), LearningPackages(),
         [LearningPackagesSyllabusId(), LearningPackagesUnitNumber()]),
      Ix(IxLearningPackagesStatus(), LearningPackages(), [LearningPackagesStatus()]),
      Ix(IxLearningPackagesCreatedBy(), LearningPackages(), [LearningPackagesCreatedByUserId()]) ],
    [ CreateTable(PackageItems(),
        [Col(PackageItemsPackageId(), Uuid), Col(PackageItemsSourceType(), Varchar),
         Col(PackageItemsContentHash(), Varchar), Col(PackageItemsFacultyRecommended(), Boolean)],
        [FK(PackageItemsPackageId(), LearningPackages(), Cascade)],
        []),
      Ix(IxPackageItemsPackage(), PackageItems(), [PackageItemsPackageId()]),
      Ix(IxPackageItemsSourceType(), PackageItems(), [PackageItemsSourceType()]),
      Ix(IxPackageItemsContentHash(), PackageItems(),
         [PackageItemsPackageId(), PackageItemsContentHash()]),
      Ix(IxPackageItemsRecommended(), PackageItems(),
         [PackageItemsPackageId(), PackageItemsFacultyRecommended()]) ],
    [ CreateTable(PackageQaSessions(),
        [Col(PackageQaSessionsPackageId(), Uuid), Col(PackageQaSessionsStudentUserId(), Uuid)],
        [FK(PackageQaSessionsPackageId(), LearningPackages(), Cascade)],
        []),
      Ix(IxPackageQaSessionsPackage(), PackageQaSessions(), [PackageQaSessionsPackageId()]),
      Ix(IxPackageQaSessionsStudent(), PackageQaSessions(),
         [PackageQaSessionsPackageId(), PackageQaSessionsStudentUserId()]) ],
    [ CreateTable(PackageQaMessages(),
        [Col(PackageQaMessagesSessionId(), Uuid), Col(PackageQaMessagesCreatedAt(), Timestamp)],
        [FK(PackageQaMessagesSessionId(), PackageQaSessions(), Cascade)],
        []),
      Ix(IxPackageQaMessagesSession(), PackageQaMessages(), [PackageQaMessagesSessionId()]),
      Ix(IxPackageQaMessagesSessionTs(), PackageQaMessages(),
         [PackageQaMessagesSessionId(), PackageQaMessagesCreatedAt()]) ]]

  const DOWN_0008: seq<seq<Op>> := [
    [ DropIndex(IxPackageQaMessagesSessionTs(), PackageQaMessages()),
      DropIndex(IxPackageQaMessagesSession(), PackageQaMessages()), DropTable(PackageQaMessages()) ],
    [ DropIndex(IxPackageQaSessionsStudent(), PackageQaSessions()),
      DropIndex(IxPackageQaSessionsPackage(), PackageQaSessions()), DropTable(PackageQaSessions()) ],
    [ DropIndex(IxPackageItemsRecommended(), PackageItems()),
      DropIndex(IxPackageItemsContentHash(), PackageItems()),
      DropIndex(IxPackageItemsSourceType(), PackageItems()),
      DropIndex(IxPackageItemsPackage(), PackageItems()), DropTable(PackageItems()) ],
    [ DropIndex(IxLearningPackagesCreatedBy(), LearningPackages()),
      DropIndex(IxLearningPackagesStatus(), LearningPackages()),
      DropIndex(IxLearningPackagesSyllabusUnit(), LearningPackages()),
      DropIndex(IxLearningPackagesSyllabus(), LearningPackages()), DropTable(LearningPackages()) ]]

  // 0009_tenant_create_m06_labs.py:24-127, 130-153
  const UP_0009: seq<seq<Op>> := [
    [ CreateTable(LabAssignments(),
        [Col(LabAssignmentsSyllabusId(), Uuid), Col(LabAssignmentsCreatedByUserId(), Uuid),
         Col(LabAssignmentsSubmissionType(), Varchar), Col(LabAssignmentsStatus(), Varchar)],
        [FK(LabAssignmentsSyllabusId(), Syllabi(), SetNull)],
        []),
      Ix(IxLabAssignmentsSyllabus(), LabAssignments(), [LabAssignmentsSyllabusId()]),
      Ix(IxLabAssignmentsCreatedBy(), LabAssignments(), [LabAssignmentsCreatedByUserId()]),
      Ix(IxLabAssignmentsStatus(), LabAssignments(), [LabAssignmentsStatus()]),
      Ix(IxLabAssignmentsSubmissionType(), LabAssignments(), [LabAssignmentsSubmissionType()]) ],
    [ CreateTable(LabSubmissions(),
        [Col(LabSubmissionsAssignmentId(), Uuid), Col(LabSubmissionsStudentUserId(), Uuid),
         Col(LabSubmissionsAiScanStatus(), Varchar), Col(LabSubmissionsStatus(), Varchar)],
        [FK(LabSubmissionsAssignmentId(), LabAssignments(), Cascade)],
        []),
      Ix(IxLabSubmissionsAssignment(), LabSubmissions(), [LabSubmissionsAssignmentId()]),
      Ix(IxLabSubmissionsStudent(), LabSubmissions(), [LabSubmissionsStudentUserId()]),
      Ix(IxLabSubmissionsAssignmentStudent(), LabSubmissions(),
         [LabSubmissionsAssignmentId(), LabSubmissionsStudentUserId()]),
      Ix(IxLabSubmissionsStatus(), LabSubmissions(), [LabSubmissionsStatus()]),
      Ix(IxLabSubmissionsAiScanStatus(), LabSubmissions(), [LabSubmissionsAiScanStatus()]) ],
    [ CreateTable(LabEvaluations(),
        [Col(LabEvaluationsSubmissionId(), Uuid), Col(LabEvaluationsConfidenceLevel(), Varchar)],
        [FK(LabEvaluationsSubmissionId(), LabSubmissions(), Cascade)],
        [UQ(LabEvaluationsSubmissionIdKey(), [LabEvaluationsSubmissionId()]),
         UQ(UqLabEvaluationsSubmission(), [LabEvaluationsSubmissionId()])]),
      Ix(IxLabEvaluationsSubmission(), LabEvaluations(), [LabEvaluationsSubmissionId()]),
      Ix(IxLabEvaluationsConfidence(), LabEvaluations(), [LabEvaluationsConfidenceLevel()]) ],
    [ CreateTable(GradeLedger(),
        [Col(GradeLedgerSubmissionId(), Uuid), Col(GradeLedgerAssignmentId(), Uuid),
         Col(GradeLedgerStudentUserId(), Uuid), Col(GradeLedgerRatifiedByUserId(), Uuid),
         Col(GradeLedgerRatifiedAt(), Timestamp)],
        [FK(GradeLedgerSubmissionId(), LabSubmissions(), Restrict)],
        [UQ(GradeLedgerSubmissionIdKey(), [GradeLedgerSubmissionId()]),
         UQ(UqGradeLedgerSubmission(), [GradeLedgerSubmissionId()])]),
      Ix(IxGradeLedgerSubmission(), GradeLedger(), [GradeLedgerSubmissionId()]),
      Ix(IxGradeLedgerAssignment(), GradeLedger(), [GradeLedgerAssignmentId()]),
      Ix(IxGradeLedgerStudent(), GradeLedger(), [GradeLedgerStudentUserId()]),
      Ix(IxGradeLedgerRatifiedBy(), GradeLedger(), [GradeLedgerRatifiedByUserId()]),
      Ix(IxGradeLedgerRatifiedAt(), GradeLedger(), [GradeLedgerRatifiedAt()]) ]]

  const DOWN_0009: seq<seq<Op>> := [
    [ DropIndex(IxGradeLedgerRatifiedAt(), GradeLedger()),
      DropIndex(IxGradeLedgerRatifiedBy(), GradeLedger()),
      DropIndex(IxGradeLedgerStudent(), GradeLedger()),
      DropIndex(IxGradeLedgerAssignment(), GradeLedger()),
      DropIndex(IxGradeLedgerSubmission(), GradeLedger()), DropTable(GradeLedger()) ],
    [ DropIndex(IxLabEvaluationsConfidence(), LabEvaluations()),
      DropIndex(IxLabEvaluationsSubmission(), LabEvaluations()), DropTable(LabEvaluations()) ],
    [ DropIndex(IxLabSubmissionsAiScanStatus(), LabSubmissions()),
      DropIndex(IxLabSubmissionsStatus(), LabSubmissions()),
      DropIndex(IxLabSubmissionsAssignmentStudent(), LabSubmissions()),
      DropIndex(IxLabSubmissionsStudent(), LabSubmissions()),
      DropIndex(IxLabSubmissionsAssignment(), LabSubmissions()), DropTable(LabSubmissions()) ],
    [ DropIndex(IxLabAssignmentsSubmissionType(), LabAssignments()),
      DropIndex(IxLabAssignmentsStatus(), LabAssignments()),
      DropIndex(IxLabAssignmentsCreatedBy(), LabAssignments()),
      DropIndex(IxLabAssignmentsSyllabus(), LabAssignments()), DropTable(LabAssignments()) ]]

  // 0010_tenant_create_m07_research.py:28-143, 146-149
  const UP_0010: seq<seq<Op>> := [
    [ CreateTable(ResearchProblems(),
        [Col(ResearchProblemsGuideUserId(), Uuid), Col(ResearchProblemsStudentUserId(), Uuid),
         Col(ResearchProblemsSource(), Varchar), Col(ResearchProblemsStatus(), Varchar),
         Col(ResearchProblemsCreatedAt(), Timestamp)],
        [],
        []),
      Ix(IxResearchProblemsGuide(), ResearchProblems(), [ResearchProblemsGuideUserId()]),
      Ix(IxResearchProblemsStudent(), ResearchProblems(), [ResearchProblemsStudentUserId()]),
      Ix(IxResearchProblemsStatus(), ResearchProblems(), [ResearchProblemsStatus()]),
      Ix(IxResearchProblemsSource(), ResearchProblems(), [ResearchProblemsSource()]),
      Ix(IxResearchProblemsCreated(), ResearchProblems(), [ResearchProblemsCreatedAt()]) ],
    [ CreateTable(ResearchDocuments(),
        [Col(ResearchDocumentsResearchProblemId(), Uuid), Col(ResearchDocumentsStudentUserId(), Uuid),
         Col(ResearchDocumentsVersion(), Integer), Col(ResearchDocumentsStatus(), Varchar)],
        [FK(ResearchDocumentsResearchProblemId(), ResearchProblems(), Cascade)],
        []),
      Ix(IxResearchDocumentsProblem(), ResearchDocuments(), [ResearchDocumentsResearchProblemId()]),
      Ix(IxResearchDocumentsStudent(), ResearchDocuments(), [ResearchDocumentsStudentUserId()]),
      Ix(IxResearchDocumentsStatus(), ResearchDocuments(), [ResearchDocumentsStatus()]),
      Ix(IxResearchDocumentsVersion(), ResearchDocuments(),
         [ResearchDocumentsResearchProblemId(), ResearchDocumentsVersion()]) ],
    [ CreateTable(VivaSessions(),
        [Col(VivaSessionsResearchProblemId(), Uuid), Col(VivaSessionsDocumentId(), Uuid),
         Col(VivaSessionsStudentUserId(), Uuid), Col(VivaSessionsGuideUserId(), Uuid),
         Col(VivaSessionsSessionToken(), Varchar), Col(VivaSessionsScheduledAt(), Timestamp),
         Col(VivaSessionsStatus(), Varchar)],
        [FK(VivaSessionsResearchProblemId(), ResearchProblems(), Cascade),
         FK(VivaSessionsDocumentId(), ResearchDocuments(), Cascade)],
        [UQ(VivaSessionsSessionTokenKey(), [VivaSessionsSessionToken()])]),
      AddUnique(UqVivaSessionsToken(), VivaSessions(), [VivaSessionsSessionToken()]),
      Ix(IxVivaSessionsProblem(), VivaSessions(), [VivaSessionsResearchProblemId()]),
      Ix(IxVivaSessionsDocument(), VivaSessions(), [VivaSessionsDocumentId()]),
      Ix(IxVivaSessionsStudent(), VivaSessions(), [VivaSessionsStudentUserId()]),
      Ix(IxVivaSessionsGuide(), VivaSessions(), [VivaSessionsGuideUserId()]),
      Ix(IxVivaSessionsToken(), VivaSessions(), [VivaSessionsSessionToken()]),
      Ix(IxVivaSessionsStatus(), VivaSessions(), [VivaSessionsStatus()]),
      Ix(IxVivaSessionsScheduled(), VivaSessions(), [VivaSessionsScheduledAt()]) ]]

  const DOWN_0010: seq<seq<Op>> := [
    [ DropTable(VivaSessions()) ],
    [ DropTable(ResearchDocuments()) ],
    [ DropTable(ResearchProblems()) ]]

  // 0011_tenant_create_m08_exam.py:31-136, 139-142
  const UP_0011: seq<seq<Op>> := [
    [ CreateTable(ExamPapers(),
        [Col(ExamPapersCourseId(), Uuid), Col(ExamPapersCreatedBy(), Uuid),
         Col(ExamPapersStatus(), Varchar), Col(ExamPapersReleaseAt(), Timestamp),
         Col(ExamPapersCreatedAt(), Timestamp)],
        [],
        []),
      Ix(IxExamPapersCourse(), ExamPapers(), [ExamPapersCourseId()]),
      Ix(IxExamPapersCreator(), ExamPapers(), [ExamPapersCreatedBy()]),
      Ix(IxExamPapersStatus(), ExamPapers(), [ExamPapersStatus()]),
      Ix(IxExamPapersCreated(), ExamPapers(), [ExamPapersCreatedAt()]),
      Ix(IxExamPapersRelease(), ExamPapers(), [ExamPapersReleaseAt()]) ],
    [ CreateTable(ExamQuestions(),
        [Col(ExamQuestionsExamPaperId(), Uuid), Col(ExamQuestionsUnitNumber(), Integer),
         Col(ExamQuestionsBloomLevel(), Varchar), Col(ExamQuestionsQuestionType(), Varchar)],
        [FK(ExamQuestionsExamPaperId(), ExamPapers(), Cascade)],
        []),
      Ix(IxExamQuestionsPaper(), ExamQuestions(), [ExamQuestionsExamPaperId()]),
      Ix(IxExamQuestionsBloom(), ExamQuestions(), [ExamQuestionsBloomLevel()]),
      Ix(IxExamQuestionsType(), ExamQuestions(), [ExamQuestionsQuestionType()]),
      Ix(IxExamQuestionsUnit(), ExamQuestions(), [ExamQuestionsUnitNumber()]) ],
    [ CreateTable(BloomsComplianceReports(),
        [Col(BloomsComplianceReportsExamPaperId(), Uuid)],
        [FK(BloomsComplianceReportsExamPaperId(), ExamPapers(), Cascade)],
        [UQ(BloomsComplianceReportsExamPaperIdKey(), [BloomsComplianceReportsExamPaperId()])]),
      AddUnique(UqBloomsReportPaper(), BloomsComplianceReports(),
         [BloomsComplianceReportsExamPaperId()]),
      Ix(IxBloomsReportPaper(), BloomsComplianceReports(), [BloomsComplianceReportsExamPaperId()]) ]]

  const DOWN_0011: seq<seq<Op>> := [
    [ DropTable(BloomsComplianceReports()) ],
    [ DropTable(ExamQuestions()) ],
    [ DropTable(ExamPapers()) ]]

  // 0012_tenant_create_m09_paper_admin.py:35-151, 154-157
  const UP_0012: seq<seq<Op>> := [
    [ CreateTable(ScannedScripts(),
        [Col(ScannedScriptsExamPaperId(), Uuid), Col(ScannedScriptsMaskedId(), Varchar),
         Col(ScannedScriptsStudentUserId(), Uuid), Col(ScannedScriptsStatus(), Varchar),
         Col(ScannedScriptsEvaluatorId(), Uuid), Col(ScannedScriptsCreatedAt(), Timestamp)],
        [],
        [UQ(ScannedScriptsMaskedIdKey(), [ScannedScriptsMaskedId()])]),
      Ix(IxScannedScriptsExamPaper(), ScannedScripts(), [ScannedScriptsExamPaperId()]),
      Ix(IxScannedScriptsStudent(), ScannedScripts(), [ScannedScriptsStudentUserId()]),
      Ix(IxScannedScriptsStatus(), ScannedScripts(), [ScannedScriptsStatus()]),
      Ix(IxScannedScriptsEvaluator(), ScannedScripts(), [ScannedScriptsEvaluatorId()]),
      AddUnique(UqScannedScriptsMaskedId(), ScannedScripts(), [ScannedScriptsMaskedId()]),
      Ix(IxScannedScriptsMaskedId(), ScannedScripts(), [ScannedScriptsMaskedId()]),
      Ix(IxScannedScriptsCreated(), ScannedScripts(), [ScannedScriptsCreatedAt()]) ],
    [ CreateTable(ScriptEvaluations(),
        [Col(ScriptEvaluationsScriptId(), Uuid), Col(ScriptEvaluationsQuestionId(), Uuid),
         Col(ScriptEvaluationsEvaluationRound(), Varchar)],
        [FK(ScriptEvaluationsScriptId(), ScannedScripts(), Cascade)],
        []),
      AddUnique(UqScriptEvalScriptQuestionRound(), ScriptEvaluations(),
         [ScriptEvaluationsScriptId(), ScriptEvaluationsQuestionId(),
          ScriptEvaluationsEvaluationRound()]),
      Ix(IxScriptEvaluationsScript(), ScriptEvaluations(), [ScriptEvaluationsScriptId()]),
      Ix(IxScriptEvaluationsQuestion(), ScriptEvaluations(), [ScriptEvaluationsQuestionId()]),
      Ix(IxScriptEvaluationsRound(), ScriptEvaluations(), [ScriptEvaluationsEvaluationRound()]) ],
    [ CreateTable(ExamScoreLedger(),
        [Col(ExamScoreLedgerScriptId(), Uuid), Col(ExamScoreLedgerExamPaperId(), Uuid),
         Col(ExamScoreLedgerStudentUserId(), Uuid), Col(ExamScoreLedgerFinalisedBy(), Uuid),
         Col(ExamScoreLedgerFinalisedAt(), Timestamp)],
        [FK(ExamScoreLedgerScriptId(), ScannedScripts(), Restrict)],
        [UQ(ExamScoreLedgerScriptIdKey(), [ExamScoreLedgerScriptId()])]),
      AddUnique(UqExamScoreLedgerScript(), ExamScoreLedger(), [ExamScoreLedgerScriptId()]),
      Ix(IxExamScoreLedgerScript(), ExamScoreLedger(), [ExamScoreLedgerScriptId()]),
      Ix(IxExamScoreLedgerExamPaper(), ExamScoreLedger(), [ExamScoreLedgerExamPaperId()]),
      Ix(IxExamScoreLedgerStudent(), ExamScoreLedger(), [ExamScoreLedgerStudentUserId()]),
      Ix(IxExamScoreLedgerFinalisedBy(), ExamScoreLedger(), [ExamScoreLedgerFinalisedBy()]),
      Ix(IxExamScoreLedgerFinalisedAt(), ExamScoreLedger(), [ExamScoreLedgerFinalisedAt()]) ]]

  const DOWN_0012: seq<seq<Op>> := [
    [ DropTable(ExamScoreLedger()) ],
    [ DropTable(ScriptEvaluations()) ],
    [ DropTable(ScannedScripts()) ]]

  // 0013_tenant_create_m10_bell_curve.py:34-122, 125-128
  const UP_0013: seq<seq<Op>> := [
    [ CreateTable(BellCurveAnalyses(),
        [Col(BellCurveAnalysesExamPaperId(), Uuid), Col(BellCurveAnalysesTriggeredBy(), Uuid),
         Col(BellCurveAnalysesStatus(), Varchar), Col(BellCurveAnalysesCreatedAt(), Timestamp)],
        [],
        []),
      Ix(IxBcAnalysesExamPaper(), BellCurveAnalyses(), [BellCurveAnalysesExamPaperId()]),
      Ix(IxBcAnalysesStatus(), BellCurveAnalyses(), [BellCurveAnalysesStatus()]),
      Ix(IxBcAnalysesTriggeredBy(), BellCurveAnalyses(), [BellCurveAnalysesTriggeredBy()]),
      Ix(IxBcAnalysesCreated(), BellCurveAnalyses(), [BellCurveAnalysesCreatedAt()]) ],
    [ CreateTable(BellCurveDecisions(),
        [Col(BellCurveDecisionsAnalysisId(), Uuid), Col(BellCurveDecisionsExamPaperId(), Uuid),
         Col(BellCurveDecisionsRatifiedBy(), Uuid), Col(BellCurveDecisionsRatifiedAt(), Timestamp)],
        [FK(BellCurveDecisionsAnalysisId(), BellCurveAnalyses(), Restrict)],
        [UQ(BellCurveDecisionsAnalysisIdKey(), [BellCurveDecisionsAnalysisId()])]),
      AddUnique(UqBcDecisionAnalysis(), BellCurveDecisions(), [BellCurveDecisionsAnalysisId()]),
      Ix(IxBcDecisionsAnalysis(), BellCurveDecisions(), [BellCurveDecisionsAnalysisId()]),
      Ix(IxBcDecisionsExamPaper(), BellCurveDecisions(), [BellCurveDecisionsExamPaperId()]),
      Ix(IxBcDecisionsRatifiedBy(), BellCurveDecisions(), [BellCurveDecisionsRatifiedBy()]),
      Ix(IxBcDecisionsRatifiedAt(), BellCurveDecisions(), [BellCurveDecisionsRatifiedAt()]) ],
    [ CreateTable(BellCurveNormalizedScores(),
        [Col(BellCurveNormalizedScoresDecisionId(), Uuid),
         Col(BellCurveNormalizedScoresAnalysisId(), Uuid),
         Col(BellCurveNormalizedScoresExamPaperId(), Uuid),
         Col(BellCurveNormalizedScoresStudentUserId(), Uuid),
         Col(BellCurveNormalizedScoresCreatedAt(), Timestamp)],
        [FK(BellCurveNormalizedScoresDecisionId(), BellCurveDecisions(), Restrict)],
        []),
      Ix(IxBcNormScoresDecision(), BellCurveNormalizedScores(),
         [BellCurveNormalizedScoresDecisionId()]),
      Ix(IxBcNormScoresAnalysis(), BellCurveNormalizedScores(),
         [BellCurveNormalizedScoresAnalysisId()]),
      Ix(IxBcNormScoresExamPaper(), BellCurveNormalizedScores(),
         [BellCurveNormalizedScoresExamPaperId()]),
      Ix(IxBcNormScoresStudent(), BellCurveNormalizedScores(),
         [BellCurveNormalizedScoresStudentUserId()]),
      Ix(IxBcNormScoresCreated(), BellCurveNormalizedScores(),
         [BellCurveNormalizedScoresCreatedAt()]) ]]

  const DOWN_0013: seq<seq<Op>> := [
    [ DropTable(BellCurveNormalizedScores()) ],
    [ DropTable(BellCurveDecisions()) ],
    [ DropTable(BellCurveAnalyses()) ]]

  // 0014_tenant_add_must_change_password.py:17-26, 29-30
  const UP_0014: seq<seq<Op>> := [
    [ AddColumn(Users(), UsersMustChangePassword(), Boolean, NoReference, false) ]]

  const DOWN_0014: seq<seq<Op>> := [
    [ DropColumn(Users(), UsersMustChangePassword()) ]]

  // 0015_tenant_create_academic_master.py:17-60, 63-65
  const UP_0015: seq<seq<Op>> := [
    [ CreateTable(AcademicDepartments(),
        [Col(AcademicDepartmentsCode(), Varchar)],
        [],
        [UQ(UqAcademicDepartmentsCode(), [AcademicDepartmentsCode()])]) ],
    [ CreateTable(AcademicPrograms(),
        [Col(AcademicProgramsDeptId(), Uuid), Col(AcademicProgramsCode(), Varchar)],
        [FK(AcademicProgramsDeptId(), AcademicDepartments(), SetNull)],
        [UQ(UqAcademicProgramsCode(), [AcademicProgramsCode()])]) ]]

  const DOWN_0015: seq<seq<Op>> := [
    [ DropTable(AcademicPrograms()) ],
    [ DropTable(AcademicDepartments()) ]]

  // 0016_tenant_add_evaluator_role.py:21-47, 50-51
  const UP_0016: seq<seq<Op>> := [
    [ AddEnumValue(Tenantrole(), "EVALUATOR") ],
    [ CreateTable(EvaluatorAssignments(),
        [Col(EvaluatorAssignmentsAssignmentId(), Uuid), Col(EvaluatorAssignmentsEvaluatorUserId(), Uuid),
         Col(EvaluatorAssignmentsAssignedByUserId(), Uuid)],
        [FK(EvaluatorAssignmentsAssignmentId(), LabAssignments(), Cascade),
         FK(EvaluatorAssignmentsEvaluatorUserId(), Users(), Cascade),
         FK(EvaluatorAssignmentsAssignedByUserId(), Users(), NoAction)],
        [UQ(EvaluatorAssignmentsAssignmentIdEvaluatorUserIdKey(),
            [EvaluatorAssignmentsAssignmentId(), EvaluatorAssignmentsEvaluatorUserId()])]),
      Ix(IxEvaluatorAssignmentsEvaluator(), EvaluatorAssignments(),
         [EvaluatorAssignmentsEvaluatorUserId()]),
      Ix(IxEvaluatorAssignmentsAssignment(), EvaluatorAssignments(),
         [EvaluatorAssignmentsAssignmentId()]) ]]

  const DOWN_0016: seq<seq<Op>> := [
    [ DropTableIfExists(EvaluatorAssignments()) ]]

  // 0017_tenant_m08_add_failure_reason.py:24-28, 31-32
  const UP_0017: seq<seq<Op>> := [
    [ AddColumn(ExamPapers(), ExamPapersFailureReason(), Text, NoReference, false) ]]

  const DOWN_0017: seq<seq<Op>> := [
    [ DropColumn(ExamPapers(), ExamPapersFailureReason()) ]]

  // 0018_tenant_create_academic_structure.py:24-96, 99-104
  const UP_0018: seq<seq<Op>> := [
    [ CreateTable(AcadDepartments(),
        [Col(AcadDepartmentsName(), Varchar), Col(AcadDepartmentsCode(), Varchar)],
        [],
        [UQ(UqAcadDepartmentsName(), [AcadDepartmentsName()]),
         UQ(UqAcadDepartmentsCode(), [AcadDepartmentsCode()])]) ],
    [ CreateTable(AcadPrograms(),
        [Col(AcadProgramsDepartmentId(), Uuid), Col(AcadProgramsCode(), Varchar)],
        [FK(AcadProgramsDepartmentId(), AcadDepartments(), NoAction)],
        [UQ(UqAcadProgramsCode(), [AcadProgramsCode()])]),
      Ix(IxAcadProgramsDepartmentId(), AcadPrograms(), [AcadProgramsDepartmentId()]) ],
    [ CreateTable(AcadBatches(),
        [Col(AcadBatchesProgramId(), Uuid), Col(AcadBatchesStartYear(), Integer)],
        [FK(AcadBatchesProgramId(), AcadPrograms(), NoAction)],
        [UQ(UqAcadBatchesProgramStartYear(), [AcadBatchesProgramId(), AcadBatchesStartYear()])]),
      Ix(IxAcadBatchesProgramId(), AcadBatches(), [AcadBatchesProgramId()]) ],
    [ CreateTable(AcadSemesters(),
        [Col(AcadSemestersBatchId(), Uuid), Col(AcadSemestersNumber(), Integer)],
        [FK(AcadSemestersBatchId(), AcadBatches(), NoAction)],
        [UQ(UqAcadSemestersBatchNumber(), [AcadSemestersBatchId(), AcadSemestersNumber()])]),
      Ix(IxAcadSemestersBatchId(), AcadSemesters(), [AcadSemestersBatchId()]) ],
    [ CreateTable(AcadSections(),
        [Col(AcadSectionsSemesterId(), Uuid), Col(AcadSectionsName(), Varchar)],
        [FK(AcadSectionsSemesterId(), AcadSemesters(), NoAction)],
        [UQ(UqAcadSectionsSemesterName(), [AcadSectionsSemesterId(), AcadSectionsName()])]),
      Ix(IxAcadSectionsSemesterId(), AcadSections(), [AcadSectionsSemesterId()]) ]]

  const DOWN_0018: seq<seq<Op>> := [
    [ DropTable(AcadSections()) ],
    [ DropTable(AcadSemesters()) ],
    [ DropTable(AcadBatches()) ],
    [ DropTable(AcadPrograms()) ],
    [ DropTable(AcadDepartments()) ]]

  // 0019_tenant_create_acad_enrollments.py:22-47, 50-52
  const UP_0019: seq<seq<Op>> := [
    [ CreateTable(AcadEnrollments(),
        [Col(AcadEnrollmentsStudentId(), Uuid), Col(AcadEnrollmentsSectionId(), Uuid)],
        [FK(AcadEnrollmentsSectionId(), AcadSections(), Restrict)],
        [UQ(UqAcadEnrollmentsStudentId(), [AcadEnrollmentsStudentId()])]),
      Ix(IxAcadEnrollmentsSectionId(), AcadEnrollments(), [AcadEnrollmentsSectionId()]) ]]

  const DOWN_0019: seq<seq<Op>> := [
    [ DropIndex(IxAcadEnrollmentsSectionId(), AcadEnrollments()), DropTable(AcadEnrollments()) ]]

  // 0020_tenant_rename_legacy_academic_tables.py:22-24, 27-29
  const UP_0020: seq<seq<Op>> := [
    [ RenameTable(AcademicDepartments(), LegacyAcademicDepartments()) ],
    [ RenameTable(AcademicPrograms(), LegacyAcademicPrograms()) ]]

  const DOWN_0020: seq<seq<Op>> := [
    [ RenameTable(LegacyAcademicPrograms(), AcademicPrograms()) ],
    [ RenameTable(LegacyAcademicDepartments(), AcademicDepartments()) ]]

  // 0021_tenant_add_acad_program_ref.py:22-32, 35-37
  const UP_0021: seq<seq<Op>> := [
    [ AddColumn(Programs(), ProgramsAcadProgramId(), Uuid, To(Reference(AcadPrograms(), SetNull)), false),
      Ix(IxProgramsAcadProgramId(), Programs(), [ProgramsAcadProgramId()]) ]]

  const DOWN_0021: seq<seq<Op>> := [
    [ DropIndex(IxProgramsAcadProgramId(), Programs()), DropColumn(Programs(), ProgramsAcadProgramId()) ]]

  // 0022_tenant_create_subject_assignments.py:34-66, 69-73
  const UP_0022: seq<seq<Op>> := [
    [ CreateTable(SubjectAssignments(),
        [Col(SubjectAssignmentsCourseId(), Uuid), Col(SubjectAssignmentsFacultyUserId(), Uuid),
         Col(SubjectAssignmentsSemesterId(), Uuid), Col(SubjectAssignmentsIsActive(), Boolean)],
        [FK(SubjectAssignmentsCourseId(), Courses(), Cascade),
         FK(SubjectAssignmentsSemesterId(), AcadSemesters(), Cascade)],
        []),
      Ix(IxSubjectAssignmentsCourseSem(), SubjectAssignments(),
         [SubjectAssignmentsCourseId(), SubjectAssignmentsSemesterId()]),
      Ix(IxSubjectAssignmentsFaculty(), SubjectAssignments(),
         [SubjectAssignmentsFacultyUserId(), SubjectAssignmentsIsActive()]),
      Ix(IxSubjectAssignmentsActive(), SubjectAssignments(), [SubjectAssignmentsIsActive()]) ]]

  const DOWN_0022: seq<seq<Op>> := [
    [ DropIndex(IxSubjectAssignmentsActive(), SubjectAssignments()),
      DropIndex(IxSubjectAssignmentsFaculty(), SubjectAssignments()),
      DropIndex(IxSubjectAssignmentsCourseSem(), SubjectAssignments()), DropTable(SubjectAssignments()) ]]

  // 0023_tenant_rename_syllabus_statuses.py:18-24, 27-33
  const UP_0023: seq<seq<Op>> := [
    [ ChangeRows(Syllabi()), ChangeRows(Syllabi()) ]]

  const DOWN_0023: seq<seq<Op>> := [
    [ ChangeRows(Syllabi()), ChangeRows(Syllabi()) ]]

  // 0024_tenant_m08_productization.py:69-266, 273-296
  const UP_0024: seq<seq<Op>> := [
    [ AddColumn(ExamPapers(), ExamPapersExamWorkflow(), Varchar, NoReference, false),
      AddColumn(ExamPapers(), ExamPapersSectionConfig(), Json, NoReference, false),
      AddColumn(ExamPapers(), ExamPapersCoCoverageReport(), Json, NoReference, false),
      AddColumn(ExamPapers(), ExamPapersUnitCoverageReport(), Json, NoReference, false),
      AddColumn(ExamPapers(), ExamPapersScrutinizerId(), Uuid, NoReference, false),
      AddColumn(ExamPapers(), ExamPapersScrutinizedAt(), Timestamp, NoReference, false),
      AddColumn(ExamPapers(), ExamPapersScrutinizerComment(), Text, NoReference, false),
      Ix(IxExamPapersWorkflow(), ExamPapers(), [ExamPapersExamWorkflow()]) ],
    [ AddColumn(ExamQuestions(), ExamQuestionsSectionLabel(), Varchar, NoReference, false),
      AddColumn(ExamQuestions(), ExamQuestionsChoiceGroup(), Integer, NoReference, false),
      AddColumn(ExamQuestions(), ExamQuestionsCoIds(), Json, NoReference, false),
      Ix(IxExamQuestionsSection(), ExamQuestions(), [ExamQuestionsSectionLabel()]) ],
    [ AddColumn(BloomsComplianceReports(), BloomsComplianceReportsCoCoverageOk(), Boolean, NoReference, false),
      AddColumn(BloomsComplianceReports(), BloomsComplianceReportsUnitCoverageOk(), Boolean, NoReference,
          false) ],
    [ CreateTable(QuestionBank(),
        [Col(QuestionBankCourseId(), Uuid), Col(QuestionBankSourcePaperId(), Uuid),
         Col(QuestionBankUnitNumber(), Integer), Col(QuestionBankBloomLevel(), Varchar),
         Col(QuestionBankQuestionType(), Varchar), Col(QuestionBankIsApproved(), Boolean)],
        [FK(QuestionBankSourcePaperId(), ExamPapers(), SetNull)],
        []),
      Ix(IxQbankCourse(), QuestionBank(), [QuestionBankCourseId()]),
      Ix(IxQbankBloom(), QuestionBank(), [QuestionBankBloomLevel()]),
      Ix(IxQbankType(), QuestionBank(), [QuestionBankQuestionType()]),
      Ix(IxQbankSource(), QuestionBank(), [QuestionBankSourcePaperId()]),
      Ix(IxQbankApproved(), QuestionBank(), [QuestionBankIsApproved()]),
      Ix(IxQbankUnit(), QuestionBank(), [QuestionBankUnitNumber()]) ],
    [ CreateTable(InternalMarksSummary(),
        [Col(InternalMarksSummaryStudentId(), Uuid), Col(InternalMarksSummaryCourseId(), Uuid),
         Col(InternalMarksSummarySemester(), Integer), Col(InternalMarksSummaryAcademicYear(), Varchar),
         Col(InternalMarksSummaryStatus(), Varchar)],
        [],
        []),
      Ix(IxImsStudent(), InternalMarksSummary(), [InternalMarksSummaryStudentId()]),
      Ix(IxImsCourse(), InternalMarksSummary(), [InternalMarksSummaryCourseId()]),
      Ix(IxImsStatus(), InternalMarksSummary(), [InternalMarksSummaryStatus()]),
      Ix(IxImsYearSem(), InternalMarksSummary(),
         [InternalMarksSummaryAcademicYear(), InternalMarksSummarySemester()]),
      AddUnique(UqImsStudentCourseYearSem(), InternalMarksSummary(),
         [InternalMarksSummaryStudentId(), InternalMarksSummaryCourseId(),
          InternalMarksSummaryAcademicYear(), InternalMarksSummarySemester()]) ]]

  const DOWN_0024: seq<seq<Op>> := [
    [ DropTable(InternalMarksSummary()) ],
    [ DropTable(QuestionBank()) ],
    [ DropColumn(BloomsComplianceReports(), BloomsComplianceReportsUnitCoverageOk()),
      DropColumn(BloomsComplianceReports(), BloomsComplianceReportsCoCoverageOk()) ],
    [ DropIndex(IxExamQuestionsSection(), ExamQuestions()),
      DropColumn(ExamQuestions(), ExamQuestionsCoIds()),
      DropColumn(ExamQuestions(), ExamQuestionsChoiceGroup()),
      DropColumn(ExamQuestions(), ExamQuestionsSectionLabel()) ],
    [ DropIndex(IxExamPapersWorkflow(), ExamPapers()),
      DropColumn(ExamPapers(), ExamPapersScrutinizerComment()),
      DropColumn(ExamPapers(), ExamPapersScrutinizedAt()),
      DropColumn(ExamPapers(), ExamPapersScrutinizerId()),
      DropColumn(ExamPapers(), ExamPapersUnitCoverageReport()),
      DropColumn(ExamPapers(), ExamPapersCoCoverageReport()),
      DropColumn(ExamPapers(), ExamPapersSectionConfig()),
      DropColumn(ExamPapers(), ExamPapersExamWorkflow()) ]]

  // 0025_tenant_m09_productization.py:79-197, 200-223
  const UP_0025: seq<seq<Op>> := [
    [ CreateTable(ScannedScriptBatches(),
        [Col(ScannedScriptBatchesExamPaperId(), Uuid), Col(ScannedScriptBatchesUploadedBy(), Uuid),
         Col(ScannedScriptBatchesStatus(), Varchar), Col(ScannedScriptBatchesCreatedAt(), Timestamp)],
        [],
        []),
      Ix(IxSsbExamPaper(), ScannedScriptBatches(), [ScannedScriptBatchesExamPaperId()]),
      Ix(IxSsbUploadedBy(), ScannedScriptBatches(), [ScannedScriptBatchesUploadedBy()]),
      Ix(IxSsbStatus(), ScannedScriptBatches(), [ScannedScriptBatchesStatus()]),
      Ix(IxSsbCreated(), ScannedScriptBatches(), [ScannedScriptBatchesCreatedAt()]) ],
    [ AddColumn(ExamPapers(), ExamPapersDoubleEvaluationEnabled(), Boolean, NoReference, false),
      AddColumn(ExamPapers(), ExamPapersDiscrepancyThresholdPct(), Numeric, NoReference, false),
      Ix(IxExamPapersDoubleEval(), ExamPapers(), [ExamPapersDoubleEvaluationEnabled()]) ],
    [ AddColumn(ScannedScripts(), ScannedScriptsOcrQualityScore(), Numeric, NoReference, false),
      AddColumn(ScannedScripts(), ScannedScriptsScanQualityFlags(), Json, NoReference, false),
      AddColumn(ScannedScripts(), ScannedScriptsBatchId(), Uuid,
          To(Reference(ScannedScriptBatches(), SetNull)), false),
      AddColumn(ScannedScripts(), ScannedScriptsDuplicateOf(), Uuid, NoReference, false),
      AddColumn(ScannedScripts(), ScannedScriptsPageImageKeys(), Json, NoReference, false),
      Ix(IxScannedScriptsBatch(), ScannedScripts(), [ScannedScriptsBatchId()]),
      Ix(IxScannedScriptsDuplicate(), ScannedScripts(), [ScannedScriptsDuplicateOf()]) ],
    [ AddColumn(ScriptEvaluations(), ScriptEvaluationsKeywordHits(), Json, NoReference, false),
      AddColumn(ScriptEvaluations(), ScriptEvaluationsRubricMapping(), Json, NoReference, false),
      AddColumn(ScriptEvaluations(), ScriptEvaluationsAiConfidence(), Numeric, NoReference, false),
      AddColumn(ScriptEvaluations(), ScriptEvaluationsPageRange(), Json, NoReference, false),
      AddColumn(ScriptEvaluations(), ScriptEvaluationsBoardAdjustedMarks(), Numeric, NoReference, false),
      AddColumn(ScriptEvaluations(), ScriptEvaluationsBoardAdjustmentNote(), Text, NoReference, false) ],
    [ AddColumn(ExamScoreLedger(), ExamScoreLedgerHasBoardAdjustment(), Boolean, NoReference, false) ]]

  const DOWN_0025: seq<seq<Op>> := [
    [ DropColumn(ExamScoreLedger(), ExamScoreLedgerHasBoardAdjustment()) ],
    [ DropColumn(ScriptEvaluations(), ScriptEvaluationsBoardAdjustmentNote()),
      DropColumn(ScriptEvaluations(), ScriptEvaluationsBoardAdjustedMarks()),
      DropColumn(ScriptEvaluations(), ScriptEvaluationsPageRange()),
      DropColumn(ScriptEvaluations(), ScriptEvaluationsAiConfidence()),
      DropColumn(ScriptEvaluations(), ScriptEvaluationsRubricMapping()),
      DropColumn(ScriptEvaluations(), ScriptEvaluationsKeywordHits()) ],
    [ DropIndex(IxScannedScriptsDuplicate(), ScannedScripts()),
      DropIndex(IxScannedScriptsBatch(), ScannedScripts()),
      DropColumn(ScannedScripts(), ScannedScriptsPageImageKeys()),
      DropColumn(ScannedScripts(), ScannedScriptsDuplicateOf()),
      DropColumn(ScannedScripts(), ScannedScriptsBatchId()),
      DropColumn(ScannedScripts(), ScannedScriptsScanQualityFlags()),
      DropColumn(ScannedScripts(), ScannedScriptsOcrQualityScore()) ],
    [ DropIndex(IxExamPapersDoubleEval(), ExamPapers()),
      DropColumn(ExamPapers(), ExamPapersDiscrepancyThresholdPct()),
      DropColumn(ExamPapers(), ExamPapersDoubleEvaluationEnabled()) ],
    [ DropTable(ScannedScriptBatches()) ]]

  // 0026_tenant_m06_add_instructions.py:24-28, 31-32
  const UP_0026: seq<seq<Op>> := [
    [ AddColumn(LabAssignments(), LabAssignmentsInstructions(), Text, NoReference, false) ]]

  const DOWN_0026: seq<seq<Op>> := [
    [ DropColumn(LabAssignments(), LabAssignmentsInstructions()) ]]

  // 0027_tenant_add_program_to_users.py:25-37, 40-42
  const UP_0027: seq<seq<Op>> := [
    [ AddColumn(Users(), UsersAcadProgramId(), Uuid, To(Reference(AcadPrograms(), SetNull)), true),
      CreateIndex(IxUsersAcadProgramId(), Users(), [UsersAcadProgramId()], false, false, true) ]]

  const DOWN_0027: seq<seq<Op>> := [
    [ DropIndex(IxUsersAcadProgramId(), Users()), DropColumn(Users(), UsersAcadProgramId()) ]]

  // 0028_tenant_m11_sis_school.py:12-31, 34-40
  const UP_0028: seq<seq<Op>> := [
    [ CreateTable(SisSchools(),
        [Col(SisSchoolsCode(), Varchar), Col(SisSchoolsName(), Varchar),
         Col(SisSchoolsIsActive(), Boolean)],
        [],
        []),
      AddUnique(UqSisSchoolsCode(), SisSchools(), [SisSchoolsCode()]),
      AddUnique(UqSisSchoolsName(), SisSchools(), [SisSchoolsName()]),
      Ix(IxSisSchoolsIsActive(), SisSchools(), [SisSchoolsIsActive()]) ],
    [ AddColumn(AcadDepartments(), AcadDepartmentsSchoolId(), Uuid, To(Reference(SisSchools(), NoAction)), false),
      Ix(IxAcadDepartmentsSchoolId(), AcadDepartments(), [AcadDepartmentsSchoolId()]) ]]

  const DOWN_0028: seq<seq<Op>> := [
    [ DropIndex(IxAcadDepartmentsSchoolId(), AcadDepartments()),
      DropColumn(AcadDepartments(), AcadDepartmentsSchoolId()) ],
    [ DropIndex(IxSisSchoolsIsActive(), SisSchools()), DropUnique(UqSisSchoolsName(), SisSchools()),
      DropUnique(UqSisSchoolsCode(), SisSchools()), DropTable(SisSchools()) ]]

  // 0029_tenant_sis_student_profiles.py:12-33, 36-40
  const UP_0029: seq<seq<Op>> := [
    [ CreateTable(SisStudentProfiles(),
        [Col(SisStudentProfilesUserId(), Uuid), Col(SisStudentProfilesUsn(), Varchar),
         Col(SisStudentProfilesAdmissionYear(), Integer)],
        [FK(SisStudentProfilesUserId(), Users(), Cascade)],
        []),
      AddUnique(UqSisStudentProfilesUsn(), SisStudentProfiles(), [SisStudentProfilesUsn()]),
      Ix(IxSisStudentProfilesUsn(), SisStudentProfiles(), [SisStudentProfilesUsn()]),
      Ix(IxSisStudentProfilesAdmissionYear(), SisStudentProfiles(),
         [SisStudentProfilesAdmissionYear()]) ]]

  const DOWN_0029: seq<seq<Op>> := [
    [ DropIndex(IxSisStudentProfilesAdmissionYear(), SisStudentProfiles()),
      DropIndex(IxSisStudentProfilesUsn(), SisStudentProfiles()),
      DropUnique(UqSisStudentProfilesUsn(), SisStudentProfiles()), DropTable(SisStudentProfiles()) ]]

  // 0030_tenant_sis_faculty_profiles.py:12-33, 36-40
  const UP_0030: seq<seq<Op>> := [
    [ CreateTable(SisFacultyProfiles(),
        [Col(SisFacultyProfilesUserId(), Uuid), Col(SisFacultyProfilesEmployeeId(), Varchar),
         Col(SisFacultyProfilesPrimaryDepartmentId(), Uuid)],
        [FK(SisFacultyProfilesUserId(), Users(), Cascade),
         FK(SisFacultyProfilesPrimaryDepartmentId(), AcadDepartments(), SetNull)],
        []),
      AddUnique(UqSisFacultyProfilesEmployeeId(), SisFacultyProfiles(),
         [SisFacultyProfilesEmployeeId()]),
      Ix(IxSisFacultyProfilesEmployeeId(), SisFacultyProfiles(), [SisFacultyProfilesEmployeeId()]),
      Ix(IxSisFacultyProfilesPrimaryDepartmentId(), SisFacultyProfiles(),
         [SisFacultyProfilesPrimaryDepartmentId()]) ]]

  const DOWN_0030: seq<seq<Op>> := [
    [ DropIndex(IxSisFacultyProfilesPrimaryDepartmentId(), SisFacultyProfiles()),
      DropIndex(IxSisFacultyProfilesEmployeeId(), SisFacultyProfiles()),
      DropUnique(UqSisFacultyProfilesEmployeeId(), SisFacultyProfiles()),
      DropTable(SisFacultyProfiles()) ]]

  // 0031_tenant_attendance.py:28-120, 123-140
  const UP_0031: seq<seq<Op>> := [
    [ CreateTable(SisAttendanceSessions(),
        [Col(SisAttendanceSessionsCourseId(), Uuid), Col(SisAttendanceSessionsSectionId(), Uuid),
         Col(SisAttendanceSessionsFacultyUserId(), Uuid),
         Col(SisAttendanceSessionsSessionDate(), Date),
         Col(SisAttendanceSessionsPeriodNumber(), Integer), Col(SisAttendanceSessionsStatus(), Varchar),
         Col(SisAttendanceSessionsFirstMarkedAt(), Timestamp)],
        [FK(SisAttendanceSessionsCourseId(), Courses(), Cascade),
         FK(SisAttendanceSessionsSectionId(), AcadSections(), Cascade)],
        []),
      AddUnique(UqAttSessionsCourseSectionDatePeriod(), SisAttendanceSessions(),
         [SisAttendanceSessionsCourseId(), SisAttendanceSessionsSectionId(),
          SisAttendanceSessionsSessionDate(), SisAttendanceSessionsPeriodNumber()]),
      CreateIndex(UqAttSessionsNoPeriod(), SisAttendanceSessions(),
          [SisAttendanceSessionsCourseId(), SisAttendanceSessionsSectionId(),
           SisAttendanceSessionsSessionDate()], true, true, false),
      Ix(IxAttSessionsSectionDate(), SisAttendanceSessions(),
         [SisAttendanceSessionsSectionId(), SisAttendanceSessionsSessionDate()]),
      Ix(IxAttSessionsCourseDate(), SisAttendanceSessions(),
         [SisAttendanceSessionsCourseId(), SisAttendanceSessionsSessionDate()]),
      Ix(IxAttSessionsFacultyDate(), SisAttendanceSessions(),
         [SisAttendanceSessionsFacultyUserId(), SisAttendanceSessionsSessionDate()]),
      Ix(IxAttSessionsStatus(), SisAttendanceSessions(), [SisAttendanceSessionsStatus()]),
      Ix(IxAttSessionsDate(), SisAttendanceSessions(), [SisAttendanceSessionsSessionDate()]),
      Ix(IxAttSessionsFirstMarked(), SisAttendanceSessions(),
         [SisAttendanceSessionsFirstMarkedAt()]) ],
    [ CreateTable(SisAttendanceRecords(),
        [Col(SisAttendanceRecordsSessionId(), Uuid), Col(SisAttendanceRecordsStudentId(), Uuid),
         Col(SisAttendanceRecordsStatus(), Varchar)],
        [FK(SisAttendanceRecordsSessionId(), SisAttendanceSessions(), Cascade)],
        []),
      AddUnique(UqAttRecordsSessionStudent(), SisAttendanceRecords(),
         [SisAttendanceRecordsSessionId(), SisAttendanceRecordsStudentId()]),
      Ix(IxAttRecordsSession(), SisAttendanceRecords(), [SisAttendanceRecordsSessionId()]),
      Ix(IxAttRecordsStudent(), SisAttendanceRecords(), [SisAttendanceRecordsStudentId()]),
      Ix(IxAttRecordsStudentStatus(), SisAttendanceRecords(),
         [SisAttendanceRecordsStudentId(), SisAttendanceRecordsStatus()]) ]]

  const DOWN_0031: seq<seq<Op>> := [
    [ DropIndex(IxAttRecordsStudentStatus(), SisAttendanceRecords()),
      DropIndex(IxAttRecordsStudent(), SisAttendanceRecords()),
      DropIndex(IxAttRecordsSession(), SisAttendanceRecords()),
      DropUnique(UqAttRecordsSessionStudent(), SisAttendanceRecords()),
      DropTable(SisAttendanceRecords()) ],
    [ DropIndex(IxAttSessionsFirstMarked(), SisAttendanceSessions()),
      DropIndex(IxAttSessionsDate(), SisAttendanceSessions()),
      DropIndex(IxAttSessionsStatus(), SisAttendanceSessions()),
      DropIndex(IxAttSessionsFacultyDate(), SisAttendanceSessions()),
      DropIndex(IxAttSessionsCourseDate(), SisAttendanceSessions()),
      DropIndex(IxAttSessionsSectionDate(), SisAttendanceSessions()),
      DropIndexIfExists(UqAttSessionsNoPeriod(), SisAttendanceSessions()),
      DropUnique(UqAttSessionsCourseSectionDatePeriod(), SisAttendanceSessions()),
      DropTable(SisAttendanceSessions()) ]]

  // 0032_tenant_internal_marks.py:30-115, 118-130
  const UP_0032: seq<seq<Op>> := [
    [ CreateTable(SisMarksComponents(),
        [Col(SisMarksComponentsCourseId(), Uuid), Col(SisMarksComponentsSectionId(), Uuid),
         Col(SisMarksComponentsSemesterId(), Uuid), Col(SisMarksComponentsCreatedBy(), Uuid),
         Col(SisMarksComponentsName(), Varchar), Col(SisMarksComponentsStatus(), Varchar)],
        [FK(SisMarksComponentsCourseId(), Courses(), Cascade),
         FK(SisMarksComponentsSectionId(), AcadSections(), Cascade),
         FK(SisMarksComponentsSemesterId(), AcadSemesters(), Cascade)],
        []),
      AddUnique(UqMarksComponentsCourseSectionName(), SisMarksComponents(),
         [SisMarksComponentsCourseId(), SisMarksComponentsSectionId(), SisMarksComponentsName()]),
      Ix(IxMarksComponentsCourseSection(), SisMarksComponents(),
         [SisMarksComponentsCourseId(), SisMarksComponentsSectionId()]),
      Ix(IxMarksComponentsSectionStatus(), SisMarksComponents(),
         [SisMarksComponentsSectionId(), SisMarksComponentsStatus()]),
      Ix(IxMarksComponentsSemester(), SisMarksComponents(), [SisMarksComponentsSemesterId()]),
      Ix(IxMarksComponentsStatus(), SisMarksComponents(), [SisMarksComponentsStatus()]),
      Ix(IxMarksComponentsFaculty(), SisMarksComponents(), [SisMarksComponentsCreatedBy()]) ],
    [ CreateTable(SisMarksEntries(),
        [Col(SisMarksEntriesComponentId(), Uuid), Col(SisMarksEntriesStudentId(), Uuid)],
        [FK(SisMarksEntriesComponentId(), SisMarksComponents(), Cascade)],
        []),
      AddUnique(UqMarksEntriesComponentStudent(), SisMarksEntries(),
         [SisMarksEntriesComponentId(), SisMarksEntriesStudentId()]),
      Ix(IxMarksEntriesComponent(), SisMarksEntries(), [SisMarksEntriesComponentId()]),
      Ix(IxMarksEntriesStudent(), SisMarksEntries(), [SisMarksEntriesStudentId()]) ]]

  const DOWN_0032: seq<seq<Op>> := [
    [ DropIndex(IxMarksEntriesStudent(), SisMarksEntries()),
      DropIndex(IxMarksEntriesComponent(), SisMarksEntries()),
      DropUnique(UqMarksEntriesComponentStudent(), SisMarksEntries()), DropTable(SisMarksEntries()) ],
    [ DropIndex(IxMarksComponentsFaculty(), SisMarksComponents()),
      DropIndex(IxMarksComponentsStatus(), SisMarksComponents()),
      DropIndex(IxMarksComponentsSemester(), SisMarksComponents()),
      DropIndex(IxMarksComponentsSectionStatus(), SisMarksComponents()),
      DropIndex(IxMarksComponentsCourseSection(), SisMarksComponents()),
      DropUnique(UqMarksComponentsCourseSectionName(), SisMarksComponents()),
      DropTable(SisMarksComponents()) ]]

  // 0033_tenant_hall_ticket_eligibility.py:34-121, 124-137
  const UP_0033: seq<seq<Op>> := [
    [ CreateTable(SisHallTicketBatches(),
        [Col(SisHallTicketBatchesSemesterId(), Uuid), Col(SisHallTicketBatchesGeneratedBy(), Uuid),
         Col(SisHallTicketBatchesGeneratedAt(), Timestamp)],
        [FK(SisHallTicketBatchesSemesterId(), AcadSemesters(), Restrict)],
        []),
      Ix(IxHtBatchesSemester(), SisHallTicketBatches(), [SisHallTicketBatchesSemesterId()]),
      Ix(IxHtBatchesGeneratedBy(), SisHallTicketBatches(), [SisHallTicketBatchesGeneratedBy()]),
      Ix(IxHtBatchesGeneratedAt(), SisHallTicketBatches(), [SisHallTicketBatchesGeneratedAt()]) ],
    [ CreateTable(SisHallTicketEligibility(),
        [Col(SisHallTicketEligibilityStudentId(), Uuid),
         Col(SisHallTicketEligibilitySemesterId(), Uuid),
         Col(SisHallTicketEligibilityPublishStatus(), Varchar),
         Col(SisHallTicketEligibilityStatus(), Varchar),
         Col(SisHallTicketEligibilityHasShortage(), Boolean),
         Col(SisHallTicketEligibilityBatchId(), Uuid)],
        [FK(SisHallTicketEligibilitySemesterId(), AcadSemesters(), Restrict),
         FK(SisHallTicketEligibilityBatchId(), SisHallTicketBatches(), SetNull)],
        []),
      AddUnique(UqHtEligibilityStudentSemester(), SisHallTicketEligibility(),
         [SisHallTicketEligibilityStudentId(), SisHallTicketEligibilitySemesterId()]),
      Ix(IxHtEligibilityStudent(), SisHallTicketEligibility(),
         [SisHallTicketEligibilityStudentId()]),
      Ix(IxHtEligibilitySemester(), SisHallTicketEligibility(),
         [SisHallTicketEligibilitySemesterId()]),
      Ix(IxHtEligibilityStatus(), SisHallTicketEligibility(), [SisHallTicketEligibilityStatus()]),
      Ix(IxHtEligibilityPublishStatus(), SisHallTicketEligibility(),
         [SisHallTicketEligibilityPublishStatus()]),
      Ix(IxHtEligibilityBatchId(), SisHallTicketEligibility(), [SisHallTicketEligibilityBatchId()]),
      Ix(IxHtEligibilityHasShortage(), SisHallTicketEligibility(),
         [SisHallTicketEligibilityHasShortage()]) ]]

  const DOWN_0033: seq<seq<Op>> := [
    [ DropIndex(IxHtEligibilityHasShortage(), SisHallTicketEligibility()),
      DropIndex(IxHtEligibilityBatchId(), SisHallTicketEligibility()),
      DropIndex(IxHtEligibilityPublishStatus(), SisHallTicketEligibility()),
      DropIndex(IxHtEligibilityStatus(), SisHallTicketEligibility()),
      DropIndex(IxHtEligibilitySemester(), SisHallTicketEligibility()),
      DropIndex(IxHtEligibilityStudent(), SisHallTicketEligibility()),
      DropUnique(UqHtEligibilityStudentSemester(), SisHallTicketEligibility()),
      DropTable(SisHallTicketEligibility()) ],
    [ DropIndex(IxHtBatchesGeneratedAt(), SisHallTicketBatches()),
      DropIndex(IxHtBatchesGeneratedBy(), SisHallTicketBatches()),
      DropIndex(IxHtBatchesSemester(), SisHallTicketBatches()), DropTable(SisHallTicketBatches()) ]]

  // 0034_tenant_exam_management.py:27-154, 157-161
  const UP_0034: seq<seq<Op>> := [
    [ CreateTable(SisExamCenters(),
        [Col(SisExamCentersCenterCode(), Varchar), Col(SisExamCentersIsInternal(), Boolean),
         Col(SisExamCentersIsActive(), Boolean)],
        [],
        [UQ(UqExamCentersCode(), [SisExamCentersCenterCode()])]),
      Ix(IxExamCentersIsActive(), SisExamCenters(), [SisExamCentersIsActive()]),
      Ix(IxExamCentersIsInternal(), SisExamCenters(), [SisExamCentersIsInternal()]) ],
    [ CreateTable(SisExamSessions(),
        [Col(SisExamSessionsSemesterId(), Uuid), Col(SisExamSessionsSessionType(), Varchar),
         Col(SisExamSessionsStatus(), Varchar), Col(SisExamSessionsSourceExamSessionId(), Uuid)],
        [FK(SisExamSessionsSemesterId(), AcadSemesters(), Restrict),
         FK(SisExamSessionsSourceExamSessionId(), SisExamSessions(), SetNull)],
        []),
      Ix(IxExamSessionsSemesterId(), SisExamSessions(), [SisExamSessionsSemesterId()]),
      Ix(IxExamSessionsStatus(), SisExamSessions(), [SisExamSessionsStatus()]),
      Ix(IxExamSessionsSessionType(), SisExamSessions(), [SisExamSessionsSessionType()]),
      Ix(IxExamSessionsSemesterType(), SisExamSessions(),
         [SisExamSessionsSemesterId(), SisExamSessionsSessionType()]) ],
    [ CreateTable(SisExamSchedules(),
        [Col(SisExamSchedulesSessionId(), Uuid), Col(SisExamSchedulesCourseId(), Uuid),
         Col(SisExamSchedulesSectionId(), Uuid), Col(SisExamSchedulesCenterId(), Uuid),
         Col(SisExamSchedulesExamDate(), Date)],
        [FK(SisExamSchedulesSessionId(), SisExamSessions(), Restrict),
         FK(SisExamSchedulesCourseId(), Courses(), Restrict),
         FK(SisExamSchedulesSectionId(), AcadSections(), Restrict),
         FK(SisExamSchedulesCenterId(), SisExamCenters(), SetNull)],
        [UQ(UqExamScheduleSessionCourseSection(),
            [SisExamSchedulesSessionId(), SisExamSchedulesCourseId(), SisExamSchedulesSectionId()])]),
      Ix(IxExamSchedulesSessionId(), SisExamSchedules(), [SisExamSchedulesSessionId()]),
      Ix(IxExamSchedulesCourseId(), SisExamSchedules(), [SisExamSchedulesCourseId()]),
      Ix(IxExamSchedulesSectionId(), SisExamSchedules(), [SisExamSchedulesSectionId()]),
      Ix(IxExamSchedulesExamDate(), SisExamSchedules(), [SisExamSchedulesExamDate()]) ],
    [ CreateTable(SisExamInvigilation(),
        [Col(SisExamInvigilationSessionId(), Uuid), Col(SisExamInvigilationScheduleId(), Uuid),
         Col(SisExamInvigilationCenterId(), Uuid), Col(SisExamInvigilationFacultyUserId(), Uuid)],
        [FK(SisExamInvigilationSessionId(), SisExamSessions(), Restrict),
         FK(SisExamInvigilationScheduleId(), SisExamSchedules(), SetNull),
         FK(SisExamInvigilationCenterId(), SisExamCenters(), SetNull)],
        []),
      Ix(IxExamInvigilationSessionId(), SisExamInvigilation(), [SisExamInvigilationSessionId()]),
      Ix(IxExamInvigilationFacultyUserId(), SisExamInvigilation(),
         [SisExamInvigilationFacultyUserId()]),
      Ix(IxExamInvigilationScheduleId(), SisExamInvigilation(), [SisExamInvigilationScheduleId()]),
      ChangeRows(SisExamCenters()) ]]

  const DOWN_0034: seq<seq<Op>> := [
    [ DropTable(SisExamInvigilation()) ],
    [ DropTable(SisExamSchedules()) ],
    [ DropTable(SisExamSessions()) ],
    [ DropTable(SisExamCenters()) ]]

  // 0035_tenant_results_management.py:37-327, 330-337
  const UP_0035: seq<seq<Op>> := [
    [ CreateTable(SisGradingPolicies(),
        [Col(SisGradingPoliciesProgramId(), Uuid), Col(SisGradingPoliciesIsDefault(), Boolean),
         Col(SisGradingPoliciesIsActive(), Boolean)],
        [],
        []),
      Ix(IxGradingPoliciesIsDefault(), SisGradingPolicies(),
         [SisGradingPoliciesIsDefault(), SisGradingPoliciesIsActive()]),
      Ix(IxGradingPoliciesProgramId(), SisGradingPolicies(), [SisGradingPoliciesProgramId()]) ],
    [ CreateTable(SisGradingPolicyBands(),
        [Col(SisGradingPolicyBandsPolicyId(), Uuid), Col(SisGradingPolicyBandsGradeLetter(), Varchar)],
        [FK(SisGradingPolicyBandsPolicyId(), SisGradingPolicies(), Cascade)],
        [UQ(UqGradingBandsPolicyLetter(),
            [SisGradingPolicyBandsPolicyId(), SisGradingPolicyBandsGradeLetter()])]),
      Ix(IxGradingBandsPolicyId(), SisGradingPolicyBands(), [SisGradingPolicyBandsPolicyId()]) ],
    [ CreateTable(SisResultDeclarations(),
        [Col(SisResultDeclarationsExamSessionId(), Uuid), Col(SisResultDeclarationsSemesterId(), Uuid),
         Col(SisResultDeclarationsDeclarationType(), Varchar),
         Col(SisResultDeclarationsSourceDeclarationId(), Uuid),
         Col(SisResultDeclarationsGradingPolicyId(), Uuid), Col(SisResultDeclarationsStatus(), Varchar)],
        [FK(SisResultDeclarationsExamSessionId(), SisExamSessions(), Restrict),
         FK(SisResultDeclarationsSemesterId(), AcadSemesters(), Restrict),
         FK(SisResultDeclarationsGradingPolicyId(), SisGradingPolicies(), Restrict),
         FK(SisResultDeclarationsSourceDeclarationId(), SisResultDeclarations(), SetNull)],
        [UQ(UqResultDeclarationsSessionType(),
            [SisResultDeclarationsExamSessionId(), SisResultDeclarationsDeclarationType()])]),
      Ix(IxResultDeclarationsSemesterStatus(), SisResultDeclarations(),
         [SisResultDeclarationsSemesterId(), SisResultDeclarationsStatus()]),
      Ix(IxResultDeclarationsStatus(), SisResultDeclarations(), [SisResultDeclarationsStatus()]),
      Ix(IxResultDeclarationsType(), SisResultDeclarations(),
         [SisResultDeclarationsDeclarationType()]),
      Ix(IxResultDeclarationsExamSession(), SisResultDeclarations(),
         [SisResultDeclarationsExamSessionId()]) ],
    [ CreateTable(SisExternalMarks(),
        [Col(SisExternalMarksDeclarationId(), Uuid), Col(SisExternalMarksStudentId(), Uuid),
         Col(SisExternalMarksCourseId(), Uuid), Col(SisExternalMarksSectionId(), Uuid)],
        [FK(SisExternalMarksDeclarationId(), SisResultDeclarations(), Restrict),
         FK(SisExternalMarksCourseId(), Courses(), Restrict),
         FK(SisExternalMarksSectionId(), AcadSections(), Restrict)],
        [UQ(UqExternalMarksDeclarationStudentCourse(),
            [SisExternalMarksDeclarationId(), SisExternalMarksStudentId(), SisExternalMarksCourseId()])]),
      Ix(IxExternalMarksDeclarationSection(), SisExternalMarks(),
         [SisExternalMarksDeclarationId(), SisExternalMarksSectionId()]),
      Ix(IxExternalMarksStudent(), SisExternalMarks(), [SisExternalMarksStudentId()]),
      Ix(IxExternalMarksDeclarationId(), SisExternalMarks(), [SisExternalMarksDeclarationId()]) ],
    [ CreateTable(SisSubjectResults(),
        [Col(SisSubjectResultsDeclarationId(), Uuid), Col(SisSubjectResultsStudentId(), Uuid),
         Col(SisSubjectResultsCourseId(), Uuid), Col(SisSubjectResultsSectionId(), Uuid),
         Col(SisSubjectResultsSemesterId(), Uuid), Col(SisSubjectResultsResultStatus(), Varchar)],
        [FK(SisSubjectResultsDeclarationId(), SisResultDeclarations(), Restrict),
         FK(SisSubjectResultsCourseId(), Courses(), Restrict),
         FK(SisSubjectResultsSectionId(), AcadSections(), Restrict),
         FK(SisSubjectResultsSemesterId(), AcadSemesters(), Restrict)],
        [UQ(UqSubjectResultsDeclarationStudentCourse(),
            [SisSubjectResultsDeclarationId(), SisSubjectResultsStudentId(),
             SisSubjectResultsCourseId()])]),
      Ix(IxSubjectResultsStudentSemester(), SisSubjectResults(),
         [SisSubjectResultsStudentId(), SisSubjectResultsSemesterId()]),
      Ix(IxSubjectResultsDeclarationStatus(), SisSubjectResults(),
         [SisSubjectResultsDeclarationId(), SisSubjectResultsResultStatus()]),
      Ix(IxSubjectResultsDeclarationSection(), SisSubjectResults(),
         [SisSubjectResultsDeclarationId(), SisSubjectResultsSectionId()]),
      Ix(IxSubjectResultsStudent(), SisSubjectResults(), [SisSubjectResultsStudentId()]) ],
    [ CreateTable(SisSemesterResults(),
        [Col(SisSemesterResultsDeclarationId(), Uuid), Col(SisSemesterResultsStudentId(), Uuid),
         Col(SisSemesterResultsSemesterId(), Uuid), Col(SisSemesterResultsSgpa(), Numeric)],
        [FK(SisSemesterResultsDeclarationId(), SisResultDeclarations(), Restrict),
         FK(SisSemesterResultsSemesterId(), AcadSemesters(), Restrict)],
        [UQ(UqSemesterResultsDeclarationStudent(),
            [SisSemesterResultsDeclarationId(), SisSemesterResultsStudentId()])]),
      Ix(IxSemesterResultsStudent(), SisSemesterResults(), [SisSemesterResultsStudentId()]),
      Ix(IxSemesterResultsDeclarationSgpa(), SisSemesterResults(),
         [SisSemesterResultsDeclarationId(), SisSemesterResultsSgpa()]),
      Ix(IxSemesterResultsSemester(), SisSemesterResults(), [SisSemesterResultsSemesterId()]) ],
    [ CreateTable(SisGraceMarksLog(),
        [Col(SisGraceMarksLogDeclarationId(), Uuid), Col(SisGraceMarksLogSubjectResultId(), Uuid),
         Col(SisGraceMarksLogStudentId(), Uuid), Col(SisGraceMarksLogCourseId(), Uuid)],
        [FK(SisGraceMarksLogDeclarationId(), SisResultDeclarations(), Restrict),
         FK(SisGraceMarksLogSubjectResultId(), SisSubjectResults(), Restrict)],
        []),
      Ix(IxGraceMarksLogDeclaration(), SisGraceMarksLog(), [SisGraceMarksLogDeclarationId()]),
      Ix(IxGraceMarksLogStudentCourse(), SisGraceMarksLog(),
         [SisGraceMarksLogStudentId(), SisGraceMarksLogCourseId()]),
      Ix(IxGraceMarksLogSubjectResult(), SisGraceMarksLog(), [SisGraceMarksLogSubjectResultId()]),
      ChangeRows(SisGradingPolicies()) ]]

  const DOWN_0035: seq<seq<Op>> := [
    [ DropTable(SisGraceMarksLog()) ],
    [ DropTable(SisSemesterResults()) ],
    [ DropTable(SisSubjectResults()) ],
    [ DropTable(SisExternalMarks()) ],
    [ DropTable(SisResultDeclarations()) ],
    [ DropTable(SisGradingPolicyBands()) ],
    [ DropTable(SisGradingPolicies()) ]]
}
