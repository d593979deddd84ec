/** The records and enumerations of the dashboard (src/types/index.ts), and
    the validating task schema with its value transforms.
    Dates are epoch milliseconds; percentages and weights are reals. */
module Types {
  import opened Wrappers
  import Text
  import Seqs

  /** A JavaScript `Date`, as its `getTime()` value. */
  type Date = int

  // ---------------------------------------------------------------- enumerations

  datatype TaskStatus = Completed | InProgress | NotStarted | Overdue | Stalled

  datatype ScheduleBucket = Ahead | OnTrack | AtRisk | Delayed

  datatype EvidenceStatus = NoEvidence | BeforeOnly | AfterOnly | BeforeAfter

  datatype PhotoStatus = DirectOk | ResolvedFromShare | Unresolvable | Missing

  /** The non-null values of `QualityFlag`; the flag itself is `Option<Severity>`. */
  datatype Severity = Critical | Warning | Info

  type QualityFlag = Option<Severity>

  datatype RiskLevel = High | Medium | Low

  datatype ComplianceStatus = Compliant | NonCompliant | Unknown

  datatype YesNo = Yes | No

  const AllTaskStatuses: seq<TaskStatus> := [Completed, InProgress, NotStarted, Overdue, Stalled]
  const AllScheduleBuckets: seq<ScheduleBucket> := [Ahead, OnTrack, AtRisk, Delayed]
  const AllEvidenceStatuses: seq<EvidenceStatus> := [NoEvidence, BeforeOnly, AfterOnly, BeforeAfter]
  const AllPhotoStatuses: seq<PhotoStatus> := [DirectOk, ResolvedFromShare, Unresolvable, Missing]
  const AllQualityFlags: seq<QualityFlag> := [Some(Critical), Some(Warning), Some(Info), None]

  /** The string each status has in the JSON the dashboard receives. */
  function TaskStatusName(s: TaskStatus): string
  {
    match s
    case Completed => "completed"
    case InProgress => "in-progress"
    case NotStarted => "not-started"
    case Overdue => "overdue"
    case Stalled => "stalled"
  }

  function ScheduleBucketName(b: ScheduleBucket): string
  {
    match b
    case Ahead => "ahead"
    case OnTrack => "on-track"
    case AtRisk => "at-risk"
    case Delayed => "delayed"
  }

  function EvidenceStatusName(e: EvidenceStatus): string
  {
    match e
    case NoEvidence => "none"
    case BeforeOnly => "before-only"
    case AfterOnly => "after-only"
    case BeforeAfter => "before-after"
  }

  function PhotoStatusName(p: PhotoStatus): string
  {
    match p
    case DirectOk => "direct-ok"
    case ResolvedFromShare => "resolved-from-share"
    case Unresolvable => "unresolvable"
    case Missing => "missing"
  }

  /** TaskStatus has exactly five values, each with its own name. */
  lemma TaskStatusHasFiveValues()
    ensures |AllTaskStatuses| == 5 && Seqs.Distinct(AllTaskStatuses)
    ensures forall s: TaskStatus :: s in AllTaskStatuses
    ensures forall s, t: TaskStatus :: s != t ==> TaskStatusName(s) != TaskStatusName(t)
  {
    forall s: TaskStatus ensures s in AllTaskStatuses {
      match s
      case Completed => case InProgress => case NotStarted => case Overdue => case Stalled =>
    }
  }

  /** ScheduleBucket, EvidenceStatus and PhotoStatus have exactly four values
      each, and the four names of each are different. */
  lemma FourValuedEnumerations()
    ensures |AllScheduleBuckets| == 4 && Seqs.Distinct(AllScheduleBuckets)
    ensures forall b: ScheduleBucket :: b in AllScheduleBuckets
    ensures forall b, c: ScheduleBucket :: b != c ==> ScheduleBucketName(b) != ScheduleBucketName(c)
    ensures |AllEvidenceStatuses| == 4 && Seqs.Distinct(AllEvidenceStatuses)
    ensures forall e: EvidenceStatus :: e in AllEvidenceStatuses
    ensures forall e, f: EvidenceStatus :: e != f ==> EvidenceStatusName(e) != EvidenceStatusName(f)
    ensures |AllPhotoStatuses| == 4 && Seqs.Distinct(AllPhotoStatuses)
    ensures forall p: PhotoStatus :: p in AllPhotoStatuses
    ensures forall p, q: PhotoStatus :: p != q ==> PhotoStatusName(p) != PhotoStatusName(q)
  {
    forall b: ScheduleBucket ensures b in AllScheduleBuckets {
      match b
      case Ahead => case OnTrack => case AtRisk => case Delayed =>
    }
    forall e: EvidenceStatus ensures e in AllEvidenceStatuses {
      match e
      case NoEvidence => case BeforeOnly => case AfterOnly => case BeforeAfter =>
    }
    forall p: PhotoStatus ensures p in AllPhotoStatuses {
      match p
      case DirectOk => case ResolvedFromShare => case Unresolvable => case Missing =>
    }
  }

  /** QualityFlag is one of critical, warning, info or null. */
  lemma QualityFlagHasFourValues()
    ensures |AllQualityFlags| == 4 && Seqs.Distinct(AllQualityFlags)
    ensures forall f: QualityFlag :: f in AllQualityFlags
  {
    forall f: QualityFlag ensures f in AllQualityFlags {
      match f
      case None =>
      case Some(v) =>
        match v
        case Critical => case Warning => case Info =>
    }
  }

  // ---------------------------------------------------------------- data quality

  /** The data-quality issue tags, in the order `validateTaskData` checks them. */
  datatype QualityIssue =
    | PlannedFinishBeforeStart
    | ActualFinishBeforeStart
    | ProgressOutOfRange
    | CompletedButMissingActualFinish
    | MissingPlannedDates
    | StaleUpdate
    | DurationMissingOrZero

  function IssueName(i: QualityIssue): string
  {
    match i
    case PlannedFinishBeforeStart => "planned_finish_before_start"
    case ActualFinishBeforeStart => "actual_finish_before_start"
    case ProgressOutOfRange => "progress_out_of_range"
    case CompletedButMissingActualFinish => "completed_but_missing_actual_finish"
    case MissingPlannedDates => "missing_planned_dates"
    case StaleUpdate => "stale_update"
    case DurationMissingOrZero => "duration_missing_or_zero"
  }

  /** Position of each check in `validateTaskData`. */
  function IssueRank(i: QualityIssue): nat
  {
    match i
    case PlannedFinishBeforeStart => 0
    case ActualFinishBeforeStart => 1
    case ProgressOutOfRange => 2
    case CompletedButMissingActualFinish => 3
    case MissingPlannedDates => 4
    case StaleUpdate => 5
    case DurationMissingOrZero => 6
  }

  predicate IsCriticalIssue(i: QualityIssue)
  {
    i == PlannedFinishBeforeStart || i == ActualFinishBeforeStart || i == ProgressOutOfRange
  }

  predicate IsWarningIssue(i: QualityIssue)
  {
    i == CompletedButMissingActualFinish || i == MissingPlannedDates || i == StaleUpdate
  }

  // ---------------------------------------------------------------- records

  /** A task as the schema (or the row mapper) produces it. */
  datatype Task = Task(
    packageId: string,
    packageName: string,
    district: string,
    siteId: string,
    siteName: string,
    discipline: string,
    taskName: string,
    plannedStart: Option<Date>,
    plannedFinish: Option<Date>,
    plannedDurationDays: Option<real>,
    actualStart: Option<Date>,
    actualFinish: Option<Date>,
    progressPct: Option<real>,
    variance: Option<real>,
    delayFlagCalc: Option<string>,
    lastUpdated: Option<Date>,
    remarks: Option<string>,
    photoFolderUrl: Option<string>,
    coverPhotoShareUrl: Option<string>,
    coverPhotoDirectUrl: Option<string>,
    beforePhotoShareUrl: Option<string>,
    beforePhotoDirectUrl: Option<string>,
    afterPhotoShareUrl: Option<string>,
    afterPhotoDirectUrl: Option<string>)

  /** A task with every derived field; `task` holds the fields the source spreads in. */
  datatype TaskWithStatus = TaskWithStatus(
    task: Task,
    siteUid: string,
    taskUid: string,
    siteKey: string,
    status: TaskStatus,
    isCompleted: bool,
    isOverdue: bool,
    isStalled: bool,
    isDelayed: bool,
    plannedProgressPct: Option<real>,
    progressDeltaPct: Option<real>,
    scheduleBucket: Option<ScheduleBucket>,
    slipDays: int,
    staleUpdateFlag: bool,
    weight: real,
    taskWeightDays: real,
    taskWeightFinal: real,
    taskWeightNormSite: real,
    beforeUrlResolved: Option<string>,
    afterUrlResolved: Option<string>,
    beforePhotoStatus: PhotoStatus,
    afterPhotoStatus: PhotoStatus,
    evidenceStatus: EvidenceStatus,
    evidenceCompliantFlag: bool,
    dataQualityIssues: seq<QualityIssue>,
    dataQualityFlag: QualityFlag,
    riskTask: real,
    todayEpoch: Date)

  datatype SiteAggregate = SiteAggregate(
    siteKey: string,
    packageId: string,
    packageName: string,
    district: string,
    siteId: string,
    siteName: string,
    tasks: seq<TaskWithStatus>,
    totalTasks: nat,
    completedTasks: nat,
    inProgressTasks: nat,
    notStartedTasks: nat,
    delayedTasks: nat,
    weightedProgress: real,
    riskScore: real,
    riskLevel: RiskLevel,
    maxPlannedFinish: Option<Date>,
    maxLastUpdated: Option<Date>,
    coverPhotoDirectUrl: Option<string>,
    photoFolderUrl: Option<string>,
    coverPhotoShareUrl: Option<string>)

  datatype DashboardKPIs = DashboardKPIs(
    totalSites: nat,
    totalTasks: nat,
    overallWeightedProgress: real,
    sitesWithCompleted: nat,
    sitesFullyCompleted: nat,
    delayedTasks: nat,
    notStartedTasks: nat,
    inProgressTasks: nat,
    completedTasks: nat)

  datatype FilterState = FilterState(
    packageNames: seq<string>,
    districts: seq<string>,
    siteNameSearch: string,
    disciplines: seq<string>,
    delayFlags: seq<string>,
    dateRangeStart: Option<Date>,
    dateRangeEnd: Option<Date>,
    showOnlyDelayed: bool)

  /** The messages a compliance check can report; `ComplianceIssueText` is
      the exact text of each. */
  datatype ComplianceIssue =
    | DataNotAvailable
    | FieldsAllBlank
    | StaffRfbUnknown
    | StaffRfbNotSubmitted
    | CesmpsUnknown
    | CesmpsNotSubmitted
    | OhsUnknown
    | OhsNotInPlace

  function ComplianceIssueText(i: ComplianceIssue): string
  {
    match i
    case DataNotAvailable => "Compliance data not available"
    case FieldsAllBlank => "All compliance fields are blank"
    case StaffRfbUnknown => "Staff RFB status unknown"
    case StaffRfbNotSubmitted => "Staff RFB not submitted"
    case CesmpsUnknown => "CESMPS submission status unknown"
    case CesmpsNotSubmitted => "CESMPS not submitted"
    case OhsUnknown => "OHS measures status unknown"
    case OhsNotInPlace => "OHS measures not in place"
  }

  datatype PackageCompliance = PackageCompliance(
    noOfStaffRfb: Option<YesNo>,
    cesmpsSubmitted: Option<YesNo>,
    ohsMeasures: Option<YesNo>,
    status: ComplianceStatus,
    issues: seq<ComplianceIssue>)

  // ---------------------------------------------------------------- schema

  /** `z.union([z.string(), z.number()])`; numbers are integers in this model. */
  datatype IdValue = IdText(text: string) | IdNumber(number: int)

  /** An object offered to `taskSchema.parse`. */
  datatype RawTask = RawTask(
    packageId: IdValue,
    packageName: string,
    district: string,
    siteId: IdValue,
    siteName: string,
    discipline: string,
    taskName: string,
    plannedStart: Option<Date>,
    plannedFinish: Option<Date>,
    plannedDurationDays: Option<real>,
    actualStart: Option<Date>,
    actualFinish: Option<Date>,
    progressPct: Option<real>,
    variance: Option<real>,
    delayFlagCalc: Option<string>,
    lastUpdated: Option<Date>,
    remarks: Option<string>,
    photoFolderUrl: Option<string>,
    coverPhotoShareUrl: Option<string>,
    coverPhotoDirectUrl: Option<string>,
    beforePhotoShareUrl: Option<string>,
    beforePhotoDirectUrl: Option<string>,
    afterPhotoShareUrl: Option<string>,
    afterPhotoDirectUrl: Option<string>)

  /** The schema's one value constraint, `progress_pct` in [0, 100], as a parse error. */
  datatype SchemaError = ProgressBelowMinimum(low: real) | ProgressAboveMaximum(high: real)

  /** `.transform(String)`: text stays as it is, a number becomes its decimal form. */
  function IdToString(v: IdValue): (s: string)
    ensures v.IdText? ==> s == v.text
    ensures v.IdNumber? ==> Text.ParseJsNumber(s) == Some(v.number as real)
  {
    match v
    case IdText(t) => t
    case IdNumber(n) => Text.IntToStringParses(n); Text.IntToString(n)
  }

  /** A photo-URL field's `.transform(val => val === '' ? null : val)`. */
  function EmptyToNull(u: Option<string>): (r: Option<string>)
    ensures r.None? <==> (u.None? || u == Some(""))
    ensures r.Some? ==> r == u
  {
    match u
    case Some(s) => if s == "" then None else u
    case None => None
  }

  /** `taskSchema.parse`: accepts exactly the objects whose progress is null or
      within [0, 100], turns both identifiers into strings and blank photo URLs
      into null, and keeps every other field. */
  function ParseTaskSchema(raw: RawTask): (r: Result<Task, SchemaError>)
    ensures r.Ok? <==> (raw.progressPct.None? || 0.0 <= raw.progressPct.value <= 100.0)
    ensures r.Ok? ==> r.value.progressPct == raw.progressPct
    ensures r.Ok? ==> r.value.packageId == IdToString(raw.packageId)
                      && r.value.siteId == IdToString(raw.siteId)
    ensures r.Ok? ==> r.value.photoFolderUrl == EmptyToNull(raw.photoFolderUrl)
                      && r.value.coverPhotoShareUrl == EmptyToNull(raw.coverPhotoShareUrl)
                      && r.value.coverPhotoDirectUrl == EmptyToNull(raw.coverPhotoDirectUrl)
                      && r.value.beforePhotoShareUrl == EmptyToNull(raw.beforePhotoShareUrl)
                      && r.value.beforePhotoDirectUrl == EmptyToNull(raw.beforePhotoDirectUrl)
                      && r.value.afterPhotoShareUrl == EmptyToNull(raw.afterPhotoShareUrl)
                      && r.value.afterPhotoDirectUrl == EmptyToNull(raw.afterPhotoDirectUrl)
    ensures r.Ok? ==> && r.value.packageName == raw.packageName
                      && r.value.district == raw.district
                      && r.value.siteName == raw.siteName
                      && r.value.discipline == raw.discipline
                      && r.value.taskName == raw.taskName
                      && r.value.plannedStart == raw.plannedStart
                      && r.value.plannedFinish == raw.plannedFinish
                      && r.value.plannedDurationDays == raw.plannedDurationDays
                      && r.value.actualStart == raw.actualStart
                      && r.value.actualFinish == raw.actualFinish
                      && r.value.variance == raw.variance
                      && r.value.delayFlagCalc == raw.delayFlagCalc
                      && r.value.lastUpdated == raw.lastUpdated
                      && r.value.remarks == raw.remarks
  {
    if raw.progressPct.Some? && raw.progressPct.value < 0.0 then
      Err(ProgressBelowMinimum(raw.progressPct.value))
    else if raw.progressPct.Some? && raw.progressPct.value > 100.0 then
      Err(ProgressAboveMaximum(raw.progressPct.value))
    else
      Ok(Task(
        IdToString(raw.packageId), raw.packageName, raw.district, IdToString(raw.siteId),
        raw.siteName, raw.discipline, raw.taskName,
        raw.plannedStart, raw.plannedFinish, raw.plannedDurationDays,
        raw.actualStart, raw.actualFinish, raw.progressPct, raw.variance,
        raw.delayFlagCalc, raw.lastUpdated, raw.remarks,
        EmptyToNull(raw.photoFolderUrl), EmptyToNull(raw.coverPhotoShareUrl),
        EmptyToNull(raw.coverPhotoDirectUrl), EmptyToNull(raw.beforePhotoShareUrl),
        EmptyToNull(raw.beforePhotoDirectUrl), EmptyToNull(raw.afterPhotoShareUrl),
        EmptyToNull(raw.afterPhotoDirectUrl)))
  }
}
