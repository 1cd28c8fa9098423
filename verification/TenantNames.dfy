/** The SQL names of the tenant revisions.  Tables are numbered in the order in which the revisions create
    them, and so are, apart from the tables, all other names; a column is prefixed with its table. */
module TenantNames {
  import opened SchemaModel

  function Users(): Name { 0 }  function UsersEmail(): Name { 0 }  function UsersRole(): Name { 1 }
  function UsersEmailKey(): Name { 2 }
  function RefreshTokens(): Name { 1 }  function RefreshTokensUserId(): Name { 3 }
  function RefreshTokensTokenHash(): Name { 4 }  function RefreshTokensReplacedBy(): Name { 5 }
  function RefreshTokensTokenHashKey(): Name { 6 }
  function OtpCodes(): Name { 2 }  function OtpCodesUserId(): Name { 7 }
  function OtpCodesPurpose(): Name { 8 }  function Tenantrole(): Name { 9 }  function Otppurpose(): Name { 10 }
  function Notifications(): Name { 3 }  function NotificationsRecipientUserId(): Name { 11 }
  function NotificationsIsRead(): Name { 12 }  function NotificationsCreatedAt(): Name { 13 }
  function IxNotificationsRecipientCreated(): Name { 14 }
  function IxNotificationsRecipientIsRead(): Name { 15 }
  function StorageAssets(): Name { 4 }  function StorageAssetsUploadedByUserId(): Name { 16 }
  function StorageAssetsEntityType(): Name { 17 }  function StorageAssetsEntityId(): Name { 18 }
  function StorageAssetsObjectKey(): Name { 19 }  function StorageAssetsCreatedAt(): Name { 20 }
  function StorageAssetsObjectKeyKey(): Name { 21 }  function IxStorageAssetsEntity(): Name { 22 }
  function IxStorageAssetsUploadedByCreated(): Name { 23 }  function IxStorageAssetsCreated(): Name { 24 }
  function Programs(): Name { 5 }  function ProgramsParentVersionId(): Name { 25 }
  function ProgramsStatus(): Name { 26 }  function ProgramsCreatedByUserId(): Name { 27 }
  function ProgramsCreatedAt(): Name { 28 }  function IxProgramsStatus(): Name { 29 }
  function IxProgramsCreatedBy(): Name { 30 }  function IxProgramsParentVersion(): Name { 31 }
  function IxProgramsCreatedAt(): Name { 32 }
  function ProgramOutcomes(): Name { 6 }  function ProgramOutcomesProgramId(): Name { 33 }
  function ProgramOutcomesCode(): Name { 34 }  function ProgramOutcomesProgramIdCodeKey(): Name { 35 }
  function IxProgramOutcomesProgram(): Name { 36 }
  function Courses(): Name { 7 }  function CoursesProgramId(): Name { 37 }  function CoursesCode(): Name { 38 }
  function CoursesSemester(): Name { 39 }  function CoursesProgramIdCodeKey(): Name { 40 }
  function IxCoursesProgram(): Name { 41 }  function IxCoursesProgramSemester(): Name { 42 }
  function CoursePrerequisites(): Name { 8 }  function CoursePrerequisitesCourseId(): Name { 43 }
  function CoursePrerequisitesPrerequisiteCourseId(): Name { 44 }
  function CoursePrerequisitesCourseIdPrerequisiteCourseIdKey(): Name { 45 }
  function IxCoursePrereqsCourse(): Name { 46 }  function IxCoursePrereqsPrereq(): Name { 47 }
  function Syllabi(): Name { 9 }  function SyllabiCourseId(): Name { 48 }  function SyllabiVersion(): Name { 49 }
  function SyllabiParentVersionId(): Name { 50 }  function SyllabiStatus(): Name { 51 }
  function SyllabiCreatedByUserId(): Name { 52 }  function IxSyllabiCourse(): Name { 53 }
  function IxSyllabiCourseVersion(): Name { 54 }  function IxSyllabiStatus(): Name { 55 }
  function IxSyllabiCreatedBy(): Name { 56 }  function IxSyllabiParentVersion(): Name { 57 }
  function CourseOutcomes(): Name { 10 }  function CourseOutcomesSyllabusId(): Name { 58 }
  function CourseOutcomesCode(): Name { 59 }  function CourseOutcomesSyllabusIdCodeKey(): Name { 60 }
  function IxCourseOutcomesSyllabus(): Name { 61 }
  function CoPoMappings(): Name { 11 }  function CoPoMappingsCoId(): Name { 62 }
  function CoPoMappingsPoId(): Name { 63 }  function CoPoMappingsCoIdPoIdKey(): Name { 64 }
  function IxCoPoMappingsCo(): Name { 65 }  function IxCoPoMappingsPo(): Name { 66 }
  function SyllabusUnits(): Name { 12 }  function SyllabusUnitsSyllabusId(): Name { 67 }
  function SyllabusUnitsUnitNumber(): Name { 68 }
  function SyllabusUnitsSyllabusIdUnitNumberKey(): Name { 69 }
  function IxSyllabusUnitsSyllabus(): Name { 70 }
  function SyllabusReferences(): Name { 13 }  function SyllabusReferencesSyllabusId(): Name { 71 }
  function SyllabusReferencesSource(): Name { 72 }  function IxSyllabusReferencesSyllabus(): Name { 73 }
  function IxSyllabusReferencesSource(): Name { 74 }
  function CourseKits(): Name { 14 }  function CourseKitsSyllabusId(): Name { 75 }
  function CourseKitsUnitNumber(): Name { 76 }  function CourseKitsParentVersionId(): Name { 77 }
  function CourseKitsStatus(): Name { 78 }  function CourseKitsCreatedByUserId(): Name { 79 }
  function IxCourseKitsSyllabus(): Name { 80 }  function IxCourseKitsSyllabusUnit(): Name { 81 }
  function IxCourseKitsStatus(): Name { 82 }  function IxCourseKitsCreatedBy(): Name { 83 }
  function IxCourseKitsParentVersion(): Name { 84 }
  function KitSlides(): Name { 15 }  function KitSlidesKitId(): Name { 85 }
  function KitSlidesSlideNumber(): Name { 86 }  function KitSlidesKitIdSlideNumberKey(): Name { 87 }
  function IxKitSlidesKit(): Name { 88 }
  function KitQuizlets(): Name { 16 }  function KitQuizletsKitId(): Name { 89 }
  function KitQuizletsQuestionNumber(): Name { 90 }
  function KitQuizletsKitIdQuestionNumberKey(): Name { 91 }  function IxKitQuizletsKit(): Name { 92 }
  function KitAssignments(): Name { 17 }  function KitAssignmentsKitId(): Name { 93 }
  function KitAssignmentsAssignmentNumber(): Name { 94 }
  function KitAssignmentsKitIdAssignmentNumberKey(): Name { 95 }
  function IxKitAssignmentsKit(): Name { 96 }
  function LearningPackages(): Name { 18 }  function LearningPackagesSyllabusId(): Name { 97 }
  function LearningPackagesUnitNumber(): Name { 98 }  function LearningPackagesStatus(): Name { 99 }
  function LearningPackagesCreatedByUserId(): Name { 100 }
  function IxLearningPackagesSyllabus(): Name { 101 }
  function IxLearningPackagesSyllabusUnit(): Name { 102 }  function IxLearningPackagesStatus(): Name { 103 }
  function IxLearningPackagesCreatedBy(): Name { 104 }
  function PackageItems(): Name { 19 }  function PackageItemsPackageId(): Name { 105 }
  function PackageItemsSourceType(): Name { 106 }  function PackageItemsContentHash(): Name { 107 }
  function PackageItemsFacultyRecommended(): Name { 108 }  function IxPackageItemsPackage(): Name { 109 }
  function IxPackageItemsSourceType(): Name { 110 }  function IxPackageItemsContentHash(): Name { 111 }
  function IxPackageItemsRecommended(): Name { 112 }
  function PackageQaSessions(): Name { 20 }  function PackageQaSessionsPackageId(): Name { 113 }
  function PackageQaSessionsStudentUserId(): Name { 114 }
  function IxPackageQaSessionsPackage(): Name { 115 }  function IxPackageQaSessionsStudent(): Name { 116 }
  function PackageQaMessages(): Name { 21 }  function PackageQaMessagesSessionId(): Name { 117 }
  function PackageQaMessagesCreatedAt(): Name { 118 }  function IxPackageQaMessagesSession(): Name { 119 }
  function IxPackageQaMessagesSessionTs(): Name { 120 }
  function LabAssignments(): Name { 22 }  function LabAssignmentsSyllabusId(): Name { 121 }
  function LabAssignmentsCreatedByUserId(): Name { 122 }
  function LabAssignmentsSubmissionType(): Name { 123 }  function LabAssignmentsStatus(): Name { 124 }
  function IxLabAssignmentsSyllabus(): Name { 125 }  function IxLabAssignmentsCreatedBy(): Name { 126 }
  function IxLabAssignmentsStatus(): Name { 127 }  function IxLabAssignmentsSubmissionType(): Name { 128 }
  function LabSubmissions(): Name { 23 }  function LabSubmissionsAssignmentId(): Name { 129 }
  function LabSubmissionsStudentUserId(): Name { 130 }  function LabSubmissionsAiScanStatus(): Name { 131 }
  function LabSubmissionsStatus(): Name { 132 }  function IxLabSubmissionsAssignment(): Name { 133 }
  function IxLabSubmissionsStudent(): Name { 134 }
  function IxLabSubmissionsAssignmentStudent(): Name { 135 }  function IxLabSubmissionsStatus(): Name { 136 }
  function IxLabSubmissionsAiScanStatus(): Name { 137 }
  function LabEvaluations(): Name { 24 }  function LabEvaluationsSubmissionId(): Name { 138 }
  function LabEvaluationsConfidenceLevel(): Name { 139 }
  function LabEvaluationsSubmissionIdKey(): Name { 140 }  function UqLabEvaluationsSubmission(): Name { 141 }
  function IxLabEvaluationsSubmission(): Name { 142 }  function IxLabEvaluationsConfidence(): Name { 143 }
  function GradeLedger(): Name { 25 }  function GradeLedgerSubmissionId(): Name { 144 }
  function GradeLedgerAssignmentId(): Name { 145 }  function GradeLedgerStudentUserId(): Name { 146 }
  function GradeLedgerRatifiedByUserId(): Name { 147 }  function GradeLedgerRatifiedAt(): Name { 148 }
  function GradeLedgerSubmissionIdKey(): Name { 149 }  function UqGradeLedgerSubmission(): Name { 150 }
  function IxGradeLedgerSubmission(): Name { 151 }  function IxGradeLedgerAssignment(): Name { 152 }
  function IxGradeLedgerStudent(): Name { 153 }  function IxGradeLedgerRatifiedBy(): Name { 154 }
  function IxGradeLedgerRatifiedAt(): Name { 155 }
  function ResearchProblems(): Name { 26 }  function ResearchProblemsGuideUserId(): Name { 156 }
  function ResearchProblemsStudentUserId(): Name { 157 }  function ResearchProblemsSource(): Name { 158 }
  function ResearchProblemsStatus(): Name { 159 }  function ResearchProblemsCreatedAt(): Name { 160 }
  function IxResearchProblemsGuide(): Name { 161 }  function IxResearchProblemsStudent(): Name { 162 }
  function IxResearchProblemsStatus(): Name { 163 }  function IxResearchProblemsSource(): Name { 164 }
  function IxResearchProblemsCreated(): Name { 165 }
  function ResearchDocuments(): Name { 27 }  function ResearchDocumentsResearchProblemId(): Name { 166 }
  function ResearchDocumentsStudentUserId(): Name { 167 }  function ResearchDocumentsVersion(): Name { 168 }
  function ResearchDocumentsStatus(): Name { 169 }  function IxResearchDocumentsProblem(): Name { 170 }
  function IxResearchDocumentsStudent(): Name { 171 }  function IxResearchDocumentsStatus(): Name { 172 }
  function IxResearchDocumentsVersion(): Name { 173 }
  function VivaSessions(): Name { 28 }  function VivaSessionsResearchProblemId(): Name { 174 }
  function VivaSessionsDocumentId(): Name { 175 }  function VivaSessionsStudentUserId(): Name { 176 }
  function VivaSessionsGuideUserId(): Name { 177 }  function VivaSessionsSessionToken(): Name { 178 }
  function VivaSessionsScheduledAt(): Name { 179 }  function VivaSessionsStatus(): Name { 180 }
  function VivaSessionsSessionTokenKey(): Name { 181 }  function UqVivaSessionsToken(): Name { 182 }
  function IxVivaSessionsProblem(): Name { 183 }  function IxVivaSessionsDocument(): Name { 184 }
  function IxVivaSessionsStudent(): Name { 185 }  function IxVivaSessionsGuide(): Name { 186 }
  function IxVivaSessionsToken(): Name { 187 }  function IxVivaSessionsStatus(): Name { 188 }
  function IxVivaSessionsScheduled(): Name { 189 }
  function ExamPapers(): Name { 29 }  function ExamPapersCourseId(): Name { 190 }
  function ExamPapersCreatedBy(): Name { 191 }  function ExamPapersStatus(): Name { 192 }
  function ExamPapersReleaseAt(): Name { 193 }  function ExamPapersCreatedAt(): Name { 194 }
  function IxExamPapersCourse(): Name { 195 }  function IxExamPapersCreator(): Name { 196 }
  function IxExamPapersStatus(): Name { 197 }  function IxExamPapersCreated(): Name { 198 }
  function IxExamPapersRelease(): Name { 199 }
  function ExamQuestions(): Name { 30 }  function ExamQuestionsExamPaperId(): Name { 200 }
  function ExamQuestionsUnitNumber(): Name { 201 }  function ExamQuestionsBloomLevel(): Name { 202 }
  function ExamQuestionsQuestionType(): Name { 203 }  function IxExamQuestionsPaper(): Name { 204 }
  function IxExamQuestionsBloom(): Name { 205 }  function IxExamQuestionsType(): Name { 206 }
  function IxExamQuestionsUnit(): Name { 207 }
  function BloomsComplianceReports(): Name { 31 }
  function BloomsComplianceReportsExamPaperId(): Name { 208 }
  function BloomsComplianceReportsExamPaperIdKey(): Name { 209 }
  function UqBloomsReportPaper(): Name { 210 }  function IxBloomsReportPaper(): Name { 211 }
  function ScannedScripts(): Name { 32 }  function ScannedScriptsExamPaperId(): Name { 212 }
  function ScannedScriptsMaskedId(): Name { 213 }  function ScannedScriptsStudentUserId(): Name { 214 }
  function ScannedScriptsStatus(): Name { 215 }  function ScannedScriptsEvaluatorId(): Name { 216 }
  function ScannedScriptsCreatedAt(): Name { 217 }  function ScannedScriptsMaskedIdKey(): Name { 218 }
  function IxScannedScriptsExamPaper(): Name { 219 }  function IxScannedScriptsStudent(): Name { 220 }
  function IxScannedScriptsStatus(): Name { 221 }  function IxScannedScriptsEvaluator(): Name { 222 }
  function UqScannedScriptsMaskedId(): Name { 223 }  function IxScannedScriptsMaskedId(): Name { 224 }
  function IxScannedScriptsCreated(): Name { 225 }
  function ScriptEvaluations(): Name { 33 }  function ScriptEvaluationsScriptId(): Name { 226 }
  function ScriptEvaluationsQuestionId(): Name { 227 }
  function ScriptEvaluationsEvaluationRound(): Name { 228 }
  function UqScriptEvalScriptQuestionRound(): Name { 229 }
  function IxScriptEvaluationsScript(): Name { 230 }  function IxScriptEvaluationsQuestion(): Name { 231 }
  function IxScriptEvaluationsRound(): Name { 232 }
  function ExamScoreLedger(): Name { 34 }  function ExamScoreLedgerScriptId(): Name { 233 }
  function ExamScoreLedgerExamPaperId(): Name { 234 }
  function ExamScoreLedgerStudentUserId(): Name { 235 }
  function ExamScoreLedgerFinalisedBy(): Name { 236 }  function ExamScoreLedgerFinalisedAt(): Name { 237 }
  function ExamScoreLedgerScriptIdKey(): Name { 238 }  function UqExamScoreLedgerScript(): Name { 239 }
  function IxExamScoreLedgerScript(): Name { 240 }  function IxExamScoreLedgerExamPaper(): Name { 241 }
  function IxExamScoreLedgerStudent(): Name { 242 }  function IxExamScoreLedgerFinalisedBy(): Name { 243 }
  function IxExamScoreLedgerFinalisedAt(): Name { 244 }
  function BellCurveAnalyses(): Name { 35 }  function BellCurveAnalysesExamPaperId(): Name { 245 }
  function BellCurveAnalysesTriggeredBy(): Name { 246 }  function BellCurveAnalysesStatus(): Name { 247 }
  function BellCurveAnalysesCreatedAt(): Name { 248 }  function IxBcAnalysesExamPaper(): Name { 249 }
  function IxBcAnalysesStatus(): Name { 250 }  function IxBcAnalysesTriggeredBy(): Name { 251 }
  function IxBcAnalysesCreated(): Name { 252 }
  function BellCurveDecisions(): Name { 36 }  function BellCurveDecisionsAnalysisId(): Name { 253 }
  function BellCurveDecisionsExamPaperId(): Name { 254 }
  function BellCurveDecisionsRatifiedBy(): Name { 255 }
  function BellCurveDecisionsRatifiedAt(): Name { 256 }
  function BellCurveDecisionsAnalysisIdKey(): Name { 257 }  function UqBcDecisionAnalysis(): Name { 258 }
  function IxBcDecisionsAnalysis(): Name { 259 }  function IxBcDecisionsExamPaper(): Name { 260 }
  function IxBcDecisionsRatifiedBy(): Name { 261 }  function IxBcDecisionsRatifiedAt(): Name { 262 }
  function BellCurveNormalizedScores(): Name { 37 }
  function BellCurveNormalizedScoresDecisionId(): Name { 263 }
  function BellCurveNormalizedScoresAnalysisId(): Name { 264 }
  function BellCurveNormalizedScoresExamPaperId(): Name { 265 }
  function BellCurveNormalizedScoresStudentUserId(): Name { 266 }
  function BellCurveNormalizedScoresCreatedAt(): Name { 267 }
  function IxBcNormScoresDecision(): Name { 268 }  function IxBcNormScoresAnalysis(): Name { 269 }
  function IxBcNormScoresExamPaper(): Name { 270 }  function IxBcNormScoresStudent(): Name { 271 }
  function IxBcNormScoresCreated(): Name { 272 }  function UsersMustChangePassword(): Name { 273 }
  function AcademicDepartments(): Name { 38 }  function AcademicDepartmentsCode(): Name { 274 }
  function UqAcademicDepartmentsCode(): Name { 275 }
  function AcademicPrograms(): Name { 39 }  function AcademicProgramsDeptId(): Name { 276 }
  function AcademicProgramsCode(): Name { 277 }  function UqAcademicProgramsCode(): Name { 278 }
  function EvaluatorAssignments(): Name { 40 }  function EvaluatorAssignmentsAssignmentId(): Name { 279 }
  function EvaluatorAssignmentsEvaluatorUserId(): Name { 280 }
  function EvaluatorAssignmentsAssignedByUserId(): Name { 281 }
  function EvaluatorAssignmentsAssignmentIdEvaluatorUserIdKey(): Name { 282 }
  function IxEvaluatorAssignmentsEvaluator(): Name { 283 }
  function IxEvaluatorAssignmentsAssignment(): Name { 284 }  function ExamPapersFailureReason(): Name { 285 }
  function AcadDepartments(): Name { 41 }  function AcadDepartmentsName(): Name { 286 }
  function AcadDepartmentsCode(): Name { 287 }  function UqAcadDepartmentsName(): Name { 288 }
  function UqAcadDepartmentsCode(): Name { 289 }
  function AcadPrograms(): Name { 42 }  function AcadProgramsDepartmentId(): Name { 290 }
  function AcadProgramsCode(): Name { 291 }  function UqAcadProgramsCode(): Name { 292 }
  function IxAcadProgramsDepartmentId(): Name { 293 }
  function AcadBatches(): Name { 43 }  function AcadBatchesProgramId(): Name { 294 }
  function AcadBatchesStartYear(): Name { 295 }  function UqAcadBatchesProgramStartYear(): Name { 296 }
  function IxAcadBatchesProgramId(): Name { 297 }
  function AcadSemesters(): Name { 44 }  function AcadSemestersBatchId(): Name { 298 }
  function AcadSemestersNumber(): Name { 299 }  function UqAcadSemestersBatchNumber(): Name { 300 }
  function IxAcadSemestersBatchId(): Name { 301 }
  function AcadSections(): Name { 45 }  function AcadSectionsSemesterId(): Name { 302 }
  function AcadSectionsName(): Name { 303 }  function UqAcadSectionsSemesterName(): Name { 304 }
  function IxAcadSectionsSemesterId(): Name { 305 }
  function AcadEnrollments(): Name { 46 }  function AcadEnrollmentsStudentId(): Name { 306 }
  function AcadEnrollmentsSectionId(): Name { 307 }  function UqAcadEnrollmentsStudentId(): Name { 308 }
  function IxAcadEnrollmentsSectionId(): Name { 309 }
  function LegacyAcademicDepartments(): Name { 47 }
  function LegacyAcademicPrograms(): Name { 48 }  function ProgramsAcadProgramId(): Name { 310 }
  function IxProgramsAcadProgramId(): Name { 311 }
  function SubjectAssignments(): Name { 49 }  function SubjectAssignmentsCourseId(): Name { 312 }
  function SubjectAssignmentsFacultyUserId(): Name { 313 }
  function SubjectAssignmentsSemesterId(): Name { 314 }  function SubjectAssignmentsIsActive(): Name { 315 }
  function IxSubjectAssignmentsCourseSem(): Name { 316 }
  function IxSubjectAssignmentsFaculty(): Name { 317 }  function IxSubjectAssignmentsActive(): Name { 318 }
  function ExamPapersExamWorkflow(): Name { 319 }  function ExamPapersSectionConfig(): Name { 320 }
  function ExamPapersCoCoverageReport(): Name { 321 }  function ExamPapersUnitCoverageReport(): Name { 322 }
  function ExamPapersScrutinizerId(): Name { 323 }  function ExamPapersScrutinizedAt(): Name { 324 }
  function ExamPapersScrutinizerComment(): Name { 325 }  function IxExamPapersWorkflow(): Name { 326 }
  function ExamQuestionsSectionLabel(): Name { 327 }  function ExamQuestionsChoiceGroup(): Name { 328 }
  function ExamQuestionsCoIds(): Name { 329 }  function IxExamQuestionsSection(): Name { 330 }
  function BloomsComplianceReportsCoCoverageOk(): Name { 331 }
  function BloomsComplianceReportsUnitCoverageOk(): Name { 332 }
  function QuestionBank(): Name { 50 }  function QuestionBankCourseId(): Name { 333 }
  function QuestionBankSourcePaperId(): Name { 334 }  function QuestionBankUnitNumber(): Name { 335 }
  function QuestionBankBloomLevel(): Name { 336 }  function QuestionBankQuestionType(): Name { 337 }
  function QuestionBankIsApproved(): Name { 338 }  function IxQbankCourse(): Name { 339 }
  function IxQbankBloom(): Name { 340 }  function IxQbankType(): Name { 341 }
  function IxQbankSource(): Name { 342 }  function IxQbankApproved(): Name { 343 }
  function IxQbankUnit(): Name { 344 }
  function InternalMarksSummary(): Name { 51 }  function InternalMarksSummaryStudentId(): Name { 345 }
  function InternalMarksSummaryCourseId(): Name { 346 }
  function InternalMarksSummarySemester(): Name { 347 }
  function InternalMarksSummaryAcademicYear(): Name { 348 }
  function InternalMarksSummaryStatus(): Name { 349 }  function IxImsStudent(): Name { 350 }
  function IxImsCourse(): Name { 351 }  function IxImsStatus(): Name { 352 }
  function IxImsYearSem(): Name { 353 }  function UqImsStudentCourseYearSem(): Name { 354 }
  function ScannedScriptBatches(): Name { 52 }  function ScannedScriptBatchesExamPaperId(): Name { 355 }
  function ScannedScriptBatchesUploadedBy(): Name { 356 }
  function ScannedScriptBatchesStatus(): Name { 357 }  function ScannedScriptBatchesCreatedAt(): Name { 358 }
  function IxSsbExamPaper(): Name { 359 }  function IxSsbUploadedBy(): Name { 360 }
  function IxSsbStatus(): Name { 361 }  function IxSsbCreated(): Name { 362 }
  function ExamPapersDoubleEvaluationEnabled(): Name { 363 }
  function ExamPapersDiscrepancyThresholdPct(): Name { 364 }
  function IxExamPapersDoubleEval(): Name { 365 }  function ScannedScriptsOcrQualityScore(): Name { 366 }
  function ScannedScriptsScanQualityFlags(): Name { 367 }  function ScannedScriptsBatchId(): Name { 368 }
  function ScannedScriptsDuplicateOf(): Name { 369 }  function ScannedScriptsPageImageKeys(): Name { 370 }
  function IxScannedScriptsBatch(): Name { 371 }  function IxScannedScriptsDuplicate(): Name { 372 }
  function ScriptEvaluationsKeywordHits(): Name { 373 }
  function ScriptEvaluationsRubricMapping(): Name { 374 }
  function ScriptEvaluationsAiConfidence(): Name { 375 }  function ScriptEvaluationsPageRange(): Name { 376 }
  function ScriptEvaluationsBoardAdjustedMarks(): Name { 377 }
  function ScriptEvaluationsBoardAdjustmentNote(): Name { 378 }
  function ExamScoreLedgerHasBoardAdjustment(): Name { 379 }
  function LabAssignmentsInstructions(): Name { 380 }  function UsersAcadProgramId(): Name { 381 }
  function IxUsersAcadProgramId(): Name { 382 }
  function SisSchools(): Name { 53 }  function SisSchoolsCode(): Name { 383 }
  function SisSchoolsName(): Name { 384 }  function SisSchoolsIsActive(): Name { 385 }
  function UqSisSchoolsCode(): Name { 386 }  function UqSisSchoolsName(): Name { 387 }
  function IxSisSchoolsIsActive(): Name { 388 }  function AcadDepartmentsSchoolId(): Name { 389 }
  function IxAcadDepartmentsSchoolId(): Name { 390 }
  function SisStudentProfiles(): Name { 54 }  function SisStudentProfilesUserId(): Name { 391 }
  function SisStudentProfilesUsn(): Name { 392 }  function SisStudentProfilesAdmissionYear(): Name { 393 }
  function UqSisStudentProfilesUsn(): Name { 394 }  function IxSisStudentProfilesUsn(): Name { 395 }
  function IxSisStudentProfilesAdmissionYear(): Name { 396 }
  function SisFacultyProfiles(): Name { 55 }  function SisFacultyProfilesUserId(): Name { 397 }
  function SisFacultyProfilesEmployeeId(): Name { 398 }
  function SisFacultyProfilesPrimaryDepartmentId(): Name { 399 }
  function UqSisFacultyProfilesEmployeeId(): Name { 400 }
  function IxSisFacultyProfilesEmployeeId(): Name { 401 }
  function IxSisFacultyProfilesPrimaryDepartmentId(): Name { 402 }
  function SisAttendanceSessions(): Name { 56 }  function SisAttendanceSessionsCourseId(): Name { 403 }
  function SisAttendanceSessionsSectionId(): Name { 404 }
  function SisAttendanceSessionsFacultyUserId(): Name { 405 }
  function SisAttendanceSessionsSessionDate(): Name { 406 }
  function SisAttendanceSessionsPeriodNumber(): Name { 407 }
  function SisAttendanceSessionsStatus(): Name { 408 }
  function SisAttendanceSessionsFirstMarkedAt(): Name { 409 }
  function UqAttSessionsCourseSectionDatePeriod(): Name { 410 }
  function UqAttSessionsNoPeriod(): Name { 411 }  function IxAttSessionsSectionDate(): Name { 412 }
  function IxAttSessionsCourseDate(): Name { 413 }  function IxAttSessionsFacultyDate(): Name { 414 }
  function IxAttSessionsStatus(): Name { 415 }  function IxAttSessionsDate(): Name { 416 }
  function IxAttSessionsFirstMarked(): Name { 417 }
  function SisAttendanceRecords(): Name { 57 }  function SisAttendanceRecordsSessionId(): Name { 418 }
  function SisAttendanceRecordsStudentId(): Name { 419 }  function SisAttendanceRecordsStatus(): Name { 420 }
  function UqAttRecordsSessionStudent(): Name { 421 }  function IxAttRecordsSession(): Name { 422 }
  function IxAttRecordsStudent(): Name { 423 }  function IxAttRecordsStudentStatus(): Name { 424 }
  function SisMarksComponents(): Name { 58 }  function SisMarksComponentsCourseId(): Name { 425 }
  function SisMarksComponentsSectionId(): Name { 426 }
  function SisMarksComponentsSemesterId(): Name { 427 }
  function SisMarksComponentsCreatedBy(): Name { 428 }  function SisMarksComponentsName(): Name { 429 }
  function SisMarksComponentsStatus(): Name { 430 }
  function UqMarksComponentsCourseSectionName(): Name { 431 }
  function IxMarksComponentsCourseSection(): Name { 432 }
  function IxMarksComponentsSectionStatus(): Name { 433 }  function IxMarksComponentsSemester(): Name { 434 }
  function IxMarksComponentsStatus(): Name { 435 }  function IxMarksComponentsFaculty(): Name { 436 }
  function SisMarksEntries(): Name { 59 }  function SisMarksEntriesComponentId(): Name { 437 }
  function SisMarksEntriesStudentId(): Name { 438 }  function UqMarksEntriesComponentStudent(): Name { 439 }
  function IxMarksEntriesComponent(): Name { 440 }  function IxMarksEntriesStudent(): Name { 441 }
  function SisHallTicketBatches(): Name { 60 }  function SisHallTicketBatchesSemesterId(): Name { 442 }
  function SisHallTicketBatchesGeneratedBy(): Name { 443 }
  function SisHallTicketBatchesGeneratedAt(): Name { 444 }  function IxHtBatchesSemester(): Name { 445 }
  function IxHtBatchesGeneratedBy(): Name { 446 }  function IxHtBatchesGeneratedAt(): Name { 447 }
  function SisHallTicketEligibility(): Name { 61 }
  function SisHallTicketEligibilityStudentId(): Name { 448 }
  function SisHallTicketEligibilitySemesterId(): Name { 449 }
  function SisHallTicketEligibilityPublishStatus(): Name { 450 }
  function SisHallTicketEligibilityStatus(): Name { 451 }
  function SisHallTicketEligibilityHasShortage(): Name { 452 }
  function SisHallTicketEligibilityBatchId(): Name { 453 }
  function UqHtEligibilityStudentSemester(): Name { 454 }  function IxHtEligibilityStudent(): Name { 455 }
  function IxHtEligibilitySemester(): Name { 456 }  function IxHtEligibilityStatus(): Name { 457 }
  function IxHtEligibilityPublishStatus(): Name { 458 }  function IxHtEligibilityBatchId(): Name { 459 }
  function IxHtEligibilityHasShortage(): Name { 460 }
  function SisExamCenters(): Name { 62 }  function SisExamCentersCenterCode(): Name { 461 }
  function SisExamCentersIsInternal(): Name { 462 }  function SisExamCentersIsActive(): Name { 463 }
  function UqExamCentersCode(): Name { 464 }  function IxExamCentersIsActive(): Name { 465 }
  function IxExamCentersIsInternal(): Name { 466 }
  function SisExamSessions(): Name { 63 }  function SisExamSessionsSemesterId(): Name { 467 }
  function SisExamSessionsSessionType(): Name { 468 }  function SisExamSessionsStatus(): Name { 469 }
  function SisExamSessionsSourceExamSessionId(): Name { 470 }
  function IxExamSessionsSemesterId(): Name { 471 }  function IxExamSessionsStatus(): Name { 472 }
  function IxExamSessionsSessionType(): Name { 473 }  function IxExamSessionsSemesterType(): Name { 474 }
  function SisExamSchedules(): Name { 64 }  function SisExamSchedulesSessionId(): Name { 475 }
  function SisExamSchedulesCourseId(): Name { 476 }  function SisExamSchedulesSectionId(): Name { 477 }
  function SisExamSchedulesCenterId(): Name { 478 }  function SisExamSchedulesExamDate(): Name { 479 }
  function UqExamScheduleSessionCourseSection(): Name { 480 }
  function IxExamSchedulesSessionId(): Name { 481 }  function IxExamSchedulesCourseId(): Name { 482 }
  function IxExamSchedulesSectionId(): Name { 483 }  function IxExamSchedulesExamDate(): Name { 484 }
  function SisExamInvigilation(): Name { 65 }  function SisExamInvigilationSessionId(): Name { 485 }
  function SisExamInvigilationScheduleId(): Name { 486 }
  function SisExamInvigilationCenterId(): Name { 487 }
  function SisExamInvigilationFacultyUserId(): Name { 488 }
  function IxExamInvigilationSessionId(): Name { 489 }
  function IxExamInvigilationFacultyUserId(): Name { 490 }
  function IxExamInvigilationScheduleId(): Name { 491 }
  function SisGradingPolicies(): Name { 66 }  function SisGradingPoliciesProgramId(): Name { 492 }
  function SisGradingPoliciesIsDefault(): Name { 493 }  function SisGradingPoliciesIsActive(): Name { 494 }
  function IxGradingPoliciesIsDefault(): Name { 495 }  function IxGradingPoliciesProgramId(): Name { 496 }
  function SisGradingPolicyBands(): Name { 67 }  function SisGradingPolicyBandsPolicyId(): Name { 497 }
  function SisGradingPolicyBandsGradeLetter(): Name { 498 }
  function UqGradingBandsPolicyLetter(): Name { 499 }  function IxGradingBandsPolicyId(): Name { 500 }
  function SisResultDeclarations(): Name { 68 }  function SisResultDeclarationsExamSessionId(): Name { 501 }
  function SisResultDeclarationsSemesterId(): Name { 502 }
  function SisResultDeclarationsDeclarationType(): Name { 503 }
  function SisResultDeclarationsSourceDeclarationId(): Name { 504 }
  function SisResultDeclarationsGradingPolicyId(): Name { 505 }
  function SisResultDeclarationsStatus(): Name { 506 }
  function UqResultDeclarationsSessionType(): Name { 507 }
  function IxResultDeclarationsSemesterStatus(): Name { 508 }
  function IxResultDeclarationsStatus(): Name { 509 }  function IxResultDeclarationsType(): Name { 510 }
  function IxResultDeclarationsExamSession(): Name { 511 }
  function SisExternalMarks(): Name { 69 }  function SisExternalMarksDeclarationId(): Name { 512 }
  function SisExternalMarksStudentId(): Name { 513 }  function SisExternalMarksCourseId(): Name { 514 }
  function SisExternalMarksSectionId(): Name { 515 }
  function UqExternalMarksDeclarationStudentCourse(): Name { 516 }
  function IxExternalMarksDeclarationSection(): Name { 517 }  function IxExternalMarksStudent(): Name { 518 }
  function IxExternalMarksDeclarationId(): Name { 519 }
  function SisSubjectResults(): Name { 70 }  function SisSubjectResultsDeclarationId(): Name { 520 }
  function SisSubjectResultsStudentId(): Name { 521 }  function SisSubjectResultsCourseId(): Name { 522 }
  function SisSubjectResultsSectionId(): Name { 523 }  function SisSubjectResultsSemesterId(): Name { 524 }
  function SisSubjectResultsResultStatus(): Name { 525 }
  function UqSubjectResultsDeclarationStudentCourse(): Name { 526 }
  function IxSubjectResultsStudentSemester(): Name { 527 }
  function IxSubjectResultsDeclarationStatus(): Name { 528 }
  function IxSubjectResultsDeclarationSection(): Name { 529 }
  function IxSubjectResultsStudent(): Name { 530 }
  function SisSemesterResults(): Name { 71 }  function SisSemesterResultsDeclarationId(): Name { 531 }
  function SisSemesterResultsStudentId(): Name { 532 }
  function SisSemesterResultsSemesterId(): Name { 533 }  function SisSemesterResultsSgpa(): Name { 534 }
  function UqSemesterResultsDeclarationStudent(): Name { 535 }
  function IxSemesterResultsStudent(): Name { 536 }
  function IxSemesterResultsDeclarationSgpa(): Name { 537 }
  function IxSemesterResultsSemester(): Name { 538 }
  function SisGraceMarksLog(): Name { 72 }  function SisGraceMarksLogDeclarationId(): Name { 539 }
  function SisGraceMarksLogSubjectResultId(): Name { 540 }
  function SisGraceMarksLogStudentId(): Name { 541 }  function SisGraceMarksLogCourseId(): Name { 542 }
  function IxGraceMarksLogDeclaration(): Name { 543 }
  function IxGraceMarksLogStudentCourse(): Name { 544 }
  function IxGraceMarksLogSubjectResult(): Name { 545 }
}
