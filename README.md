# Construction progress dashboard: a verified model of its data pipeline

This project models the data pipeline of a construction-progress dashboard in Dafny and proves properties of that model. The pipeline does six things in turn:

- It reads spreadsheet rows into tasks.
- It classifies each task: dates, schedule bucket, status, evidence, risk and data quality.
- It folds the tasks into site aggregates and portfolio KPIs.
- It filters the tasks and the sites for the dashboard view.
- It deduplicates and checks the ingested data.
- It tallies the sites by delay category and progress stage for the summary route.

There is one module per source file, plus three helper modules:

| module | source | form |
|---|---|---|
| `Types` | `src/types/index.ts` | datatypes for the enumerations and records; the `taskSchema` parse as a function returning `Result` |
| `DataParser` | `src/lib/dataParser.ts` | serial dates, Drive links and photo resolution as functions. `validateTaskData` and `computeTaskStatus` are methods that assign their locals step by step, each proved equal to a specification function |
| `DataProcessor` | `src/lib/dataProcessor.ts` | `normalizeSiteWeights`, `groupTasksBySite` and `computeKPIs` are methods whose loops fill maps and keep running sums. `applyFilters` reassigns `filtered` stage by stage. `getFilterOptions` is a function |
| `ProcessorCases` | `src/lib/__tests__/dataProcessor.test.ts` | the unit-test cases, proved for every task list with the fields each case fixes |
| `SheetsClient` | `src/lib/backend/google-sheets-client.ts` | `mapRowToTask` and `parseYesNo` are functions. The header-search loops, `parseComplianceData` and the `parseIPCData` loop are methods |
| `DataIngestion` | `src/lib/backend/data-ingestion.ts` | the row-mapping loops, the first-write-wins deduplication, `validateDataIntegrity` and `ingestAllSheets` after the fetch, all as methods |
| `Dashboard` | `src/components/Dashboard.tsx`, lines 66-124 | the `useMemo` bodies as functions; the site sort is an insertion sort proved to be a sorting permutation |
| `Summary` | `src/pages/api/summary.ts`, lines 27-76 | the two `forEach` loops as methods; the stage counters are a five-entry array |
| `Wrappers`, `Text`, `Seqs` | — | `Option`/`Result`/`Outcome`; the JavaScript string built-ins used (`trim`, ASCII case mapping, `includes`, `String(n)`, `Number(s)`, the default `sort` order); sequence filter, subsequence and sum |

How the model represents the source's values:

- Dates are integer epoch milliseconds (`Types.Date`).
- Progress, weights and risk are reals.
- The current time is the parameter `now`: the source reads the clock in `computeTaskStatus` and `validateTaskData`.
- The string branch of `parseDMY` is the parameter `parseText`. It stands for dayjs parsing, a foreign library.

## Model

| member | source | states |
|---|---|---|
| Types.TaskStatusHasFiveValues | src/types/index.ts:11 | TaskStatus has exactly five distinct values, and their five names differ |
| Types.FourValuedEnumerations | src/types/index.ts:14-20 | ScheduleBucket, EvidenceStatus and PhotoStatus each have exactly four values with four different names |
| Types.QualityFlagHasFourValues | src/types/index.ts:23 | a quality flag is one of critical, warning, info or null, and those four are distinct |
| Types.IdToString | src/types/index.ts:27-30 | a text identifier is kept as it is; a numeric identifier becomes a string that reads back as the same number |
| Types.EmptyToNull | src/types/index.ts:45-52 | a photo URL field is null exactly when it was absent or the empty string, and is otherwise unchanged |
| Types.ParseTaskSchema | src/types/index.ts:26-53 | parsing succeeds exactly when progress is null or within [0, 100]; on success both identifiers are strings, every photo URL goes through the empty-to-null transform, and progress and every other field are kept as they are |
| DataParser.ExcelSerialDay | src/lib/dataParser.ts:60-78 | any non-zero serial inside day `d + 25569` gives the epoch midnight `d * 86400000`, serials strictly between 0 and 1 included (they land in epoch day -25569); serial 0 and null give null; a Date comes back unchanged |
| DataParser.ExcelSerialMonotone | src/lib/dataParser.ts:69-75 | a non-zero serial always gives a date, and a larger serial never gives an earlier date |
| DataParser.ParseDMYOfDateField | src/lib/dataParser.ts:18-29 | `parseDMY` returns a Date field unchanged, sends a non-zero number down the serial-date path and gives null for a boolean |
| DataParser.StaleThreshold | src/lib/dataParser.ts:231-234 | an update is stale exactly when at least 15 days' worth of milliseconds have passed (more than 14 whole days) |
| DataParser.FindMatch | src/lib/dataParser.ts:87-100 | the result is the leftmost position where the pattern matches, and none means no position matches |
| DataParser.IdRun | src/lib/dataParser.ts:87 | the `[-\w]+` capture is the longest run of id characters at that position |
| DataParser.Capture | src/lib/dataParser.ts:87-100 | a capture exists exactly when the pattern matches somewhere, and it is always a non-empty run of id characters |
| DataParser.OpenPathImpliesIdParam | src/lib/dataParser.ts:91-96 | wherever `/open?id=` matches, `[?&]id=` matches too |
| DataParser.UcPathImpliesIdParam | src/lib/dataParser.ts:91-100 | wherever `/uc?id=` matches, `[?&]id=` matches too |
| DataParser.LaterPatternsUnreachable | src/lib/dataParser.ts:83-103 | the extracted id is the `/file/d/` capture if there is one, else the `[?&]id=` capture, else null, so the last two patterns never decide |
| DataParser.PhotoOutcomes | src/lib/dataParser.ts:108-128 | the four outcomes of `resolvePhotoURL`, each as an if-and-only-if on the inputs, with the resolved URL null exactly for unresolvable and missing |
| DataParser.Clamp100 | src/lib/dataParser.ts:483 | the result lies in [0, 100], equals the input inside that range and the nearer end outside it |
| DataParser.ClampProgress | src/lib/dataParser.ts:481-484 | null becomes 0 and every value lands in [0, 100], unchanged when already inside |
| DataParser.ClampProgressIdempotent | src/lib/dataParser.ts:481-484 | clamping twice equals clamping once, and clamping is monotone |
| DataParser.QualityIssuesIsFilter | src/lib/dataParser.ts:140-180 | the issue list is the list of all seven checks filtered by whether each fails |
| DataParser.ValidateTaskData | src/lib/dataParser.ts:133-197 | the pushed issue list and the graded flag equal the validator's specification |
| DataParser.HighestSeverity | src/lib/dataParser.ts:182-194 | the if-chain yields the highest severity present in the list |
| DataParser.FilterAllIssuesOrdered | src/lib/dataParser.ts:144-180 | the filtered check list holds exactly the failed checks, once each, in check order |
| DataParser.QualityIssuesExact | src/lib/dataParser.ts:144-180 | an issue is reported exactly when its condition holds, at most once and in check order |
| DataParser.RankIncreasingOfSubsequence | src/lib/dataParser.ts:144-180 | any subsequence of a list in check order is itself in check order |
| DataParser.SeverityOfOrderedList | src/lib/dataParser.ts:183-194 | for an ordered issue list, the flag is null exactly when the list is empty, and info only for the single duration issue |
| DataParser.SeverityLadder | src/lib/dataParser.ts:183-194 | the flag is null iff there are no issues, critical iff a date-order or range check failed, warning iff none of those but a completion, planned-date or staleness check failed, and info only when the sole issue is the duration |
| DataParser.ComputeBaseline | src/lib/dataParser.ts:236-249 | the baseline step computes the planned progress, which exists exactly when both planned dates do and lies in [0, 100] (DataParser.PlannedProgressBounds) and never decreases over time (DataParser.PlannedProgressMonotone) |
| DataParser.ClassifyStatus | src/lib/dataParser.ts:270-289 | the status chain yields the specified status and sets exactly the matching flag |
| DataParser.ComputeBucket | src/lib/dataParser.ts:256-306 | the bucket is the threshold bucket of the delta, completed by the fallback chain |
| DataParser.ComputeTaskStatus | src/lib/dataParser.ts:202-393 | the step-by-step computation builds exactly the specified derived record |
| DataParser.ComputeSchedule | src/lib/dataParser.ts:231-314 | staleness, baseline, delta, status and its flags, bucket and slip days each equal their specification |
| DataParser.ComputeEvidence | src/lib/dataParser.ts:316-335 | both photos are resolved by `resolvePhotoURL`, and evidence and compliance follow from which of them resolved |
| DataParser.ComputeRisk | src/lib/dataParser.ts:337-343 | the risk step computes the risk score, which is at least 0, at least 10 without evidence, at least 50 when overdue and at most 180 (DataParser.RiskBounds) |
| DataParser.ComputeSlipDays | src/lib/dataParser.ts:308-314 | the slip step computes the slip days, which are non-zero only for completed or overdue tasks and never negative when overdue (DataParser.SlipDaysSign) |
| DataParser.ClassifyEvidence | src/lib/dataParser.ts:321-335 | the evidence status follows the four-way chain, and compliance holds exactly when both photos resolved |
| DataParser.KeysNest | src/lib/dataParser.ts:213-216 | the task uid extends the site uid, both start with the package id, and the legacy key starts with the package id and ends with the site id |
| DataParser.WeightAtLeastOne | src/lib/dataParser.ts:218-220 | the duration weight is at least 1 (exactly 1 for a null, zero or smaller duration); the final and legacy weights equal it; the site norm starts at 1 |
| DataParser.PlannedProgressBounds | src/lib/dataParser.ts:236-249 | the baseline exists exactly when both planned dates do, and then lies in [0, 100]; strictly inside the window it lies strictly between 0 and 100, so there is no division by zero |
| DataParser.PlannedProgressMonotone | src/lib/dataParser.ts:236-249 | the baseline never decreases as time passes |
| DataParser.StatusPrecedence | src/lib/dataParser.ts:270-289 | status follows strict precedence (completed, not-started, overdue, stalled, in-progress); each flag is set exactly for its status, so at most one is set |
| DataParser.ScheduleBucketRules | src/lib/dataParser.ts:256-306 | with a delta the bucket follows the 10 / -10 / -25 thresholds; the final bucket is null exactly for a not-started task with no delta and no "DELAY" in its delay flag |
| DataParser.SlipDaysSign | src/lib/dataParser.ts:308-314 | slip days are non-zero only for completed or overdue tasks, never negative when overdue, and never positive for a task finished on time |
| DataParser.EvidenceRules | src/lib/dataParser.ts:316-335 | evidence is before-after exactly when both photos resolved, none exactly when neither did, and compliance is before-after |
| DataParser.RiskBounds | src/lib/dataParser.ts:337-343 | the risk is at least 0, at least 10 without before-after evidence, at least 50 when overdue, and at most 180 for a percentage progress |
| DataParser.QualityOfTask | src/lib/dataParser.ts:222-385 | the record's issues are exactly the failed checks on its own dates; its flag is their grade; `isDelayed` holds exactly when the delay flag contains "DELAY" |
| DataProcessor.WithNormWeight | src/lib/dataProcessor.ts:17-24 | a re-weighted task differs from the original only in its site-normalised weight, and keeps its site key |
| DataProcessor.NormalizedWeights | src/lib/dataProcessor.ts:17-24 | normalisation keeps the number of tasks |
| DataProcessor.NormalizeSiteWeights | src/lib/dataProcessor.ts:6-25 | the two loops yield every task in order with its weight divided by its site's total (the site key is `site_uid`, else `siteKey`) |
| DataProcessor.TotalSiteWeights | src/lib/dataProcessor.ts:9-14 | the map holds the total final weight of every site key that occurs, and a key that is absent has no weight |
| DataProcessor.SiteWeightTotalPositive | src/lib/dataProcessor.ts:9-14 | with positive final weights, a site's total is never negative and is positive once the site has a task |
| DataProcessor.NormsSumToOne | src/lib/dataProcessor.ts:3-25 | with positive final weights, the normalised weights of each site that has a task sum to 1 |
| DataProcessor.SiteKeysSpec | src/lib/dataProcessor.ts:31-37 | the insertion-ordered key list holds each key of the tasks exactly once |
| DataProcessor.SiteTasksNonEmpty | src/lib/dataProcessor.ts:41-42 | every listed site has at least one task, so `siteTasks[0]` always exists |
| DataProcessor.SiteTasksStep | src/lib/dataProcessor.ts:33-37 | filing one more task appends it to its own site's list and adds its key when the key is new |
| DataProcessor.WeightedProgress | src/lib/dataProcessor.ts:58-78 | a site's weighted progress always lies in [0, 100] |
| DataProcessor.RiskLevelOf | src/lib/dataProcessor.ts:104-105 | the level is high iff the score is at least 40, medium iff it lies in [20, 40), and low iff it is below 20 |
| DataProcessor.Somes | src/lib/dataProcessor.ts:108-117 | the non-null filter keeps exactly the present values |
| DataProcessor.Latest | src/lib/dataProcessor.ts:107-120 | the result is null iff no date is present; otherwise it is one of the dates and no date exceeds it |
| DataProcessor.FirstPresent | src/lib/dataProcessor.ts:122-125 | the result is null iff no URL is truthy; otherwise it is the first truthy URL |
| DataProcessor.GroupBySite | src/lib/dataProcessor.ts:30-152 | there is one aggregate per distinct site key |
| DataProcessor.GroupBySiteAt | src/lib/dataProcessor.ts:41-148 | aggregate `j` is built from the `j`-th key and the tasks filed under it, which are never empty |
| DataProcessor.SumProgress | src/lib/dataProcessor.ts:47-73 | the loop totals progress (null as 0) times weight (0 as 1), and the weights |
| DataProcessor.SumRisk | src/lib/dataProcessor.ts:95-101 | the loop totals risk times normalised weight, and the normalised weights |
| DataProcessor.AggregateSite | src/lib/dataProcessor.ts:42-148 | one pass of the site loop builds the specified aggregate |
| DataProcessor.FileBySite | src/lib/dataProcessor.ts:31-37 | the map files every task under its key, and the key order is first appearance |
| DataProcessor.GroupTasksBySite | src/lib/dataProcessor.ts:30-152 | the two loops build exactly the specified list of site aggregates |
| DataProcessor.SiteHoldsItsTasks | src/lib/dataProcessor.ts:31-135 | each aggregate holds exactly the tasks with its key, in input order (a subsequence), and `totalTasks` counts them |
| DataProcessor.SiteKeysUnique | src/lib/dataProcessor.ts:31-41 | no two aggregates share a site key |
| DataProcessor.EveryTaskFiled | src/lib/dataProcessor.ts:33-37 | every task lands in the aggregate of its own site key |
| DataProcessor.SiteSizesPrefix | src/lib/dataProcessor.ts:31-135 | the first `n` aggregates hold as many tasks as carry one of the first `n` keys |
| DataProcessor.SiteSizesCoverTasks | src/lib/dataProcessor.ts:31-135 | the aggregates' task counts add up to the number of input tasks |
| DataProcessor.StatusCountsBounded | src/lib/dataProcessor.ts:89-91 | the completed, in-progress and not-started counts add up to at most the task count |
| DataProcessor.WeightedProgressBetween | src/lib/dataProcessor.ts:58-78 | progress values within [lo, hi] under non-negative weights give a weighted progress within [lo, hi] |
| DataProcessor.AllCompleteIsHundred | src/lib/__tests__/dataProcessor.test.ts:166-186 | a site whose tasks are all at 100 is at exactly 100, whatever the weights |
| DataProcessor.NullProgressDilutes | src/lib/dataProcessor.ts:58-64 | tasks without progress stay in the denominator: they add their weight below the line and nothing above it |
| DataProcessor.RiskScoreBounds | src/lib/dataProcessor.ts:94-103 | task risks within [0, hi] under non-negative normalised weights give a site risk score within [0, hi] |
| DataProcessor.Tallies | src/lib/dataProcessor.ts:161-185 | there is one tally per distinct site key |
| DataProcessor.OverallProgress | src/lib/dataProcessor.ts:169-183 | the portfolio progress always lies in [0, 100] |
| DataProcessor.TallySites | src/lib/dataProcessor.ts:161-167 | the `forEach` gives every key that occurs its task count and completed count, in first-appearance order |
| DataProcessor.TallyStep | src/lib/dataProcessor.ts:162-167 | counting one more task adds one to its own site's total, and to its completed count when it is completed |
| DataProcessor.SumOverallProgress | src/lib/dataProcessor.ts:170-180 | the loop totals progress times the weight (0 counting as 1) above the line, and the raw weight below it |
| DataProcessor.ComputeKPIs | src/lib/dataProcessor.ts:157-199 | the imperative computation yields exactly the specified KPIs |
| DataProcessor.SiteCount | src/lib/dataProcessor.ts:158-189 | the number of distinct site keys equals the length of the key list and the number of site aggregates |
| DataProcessor.KPIBounds | src/lib/dataProcessor.ts:185-197 | fully completed sites ≤ sites with a completed task ≤ total sites; the three status counts fit within the task count; progress lies in [0, 100] |
| DataProcessor.KPIsAgreeWithSites | src/lib/dataProcessor.ts:157-199 | the KPIs count as many sites, sites with a completed task and fully completed sites as `groupTasksBySite` builds |
| DataProcessor.OverallProgressWithoutZeroWeights | src/lib/dataProcessor.ts:173-183 | when no weight is zero, the portfolio progress equals the site formula applied to all tasks |
| DataProcessor.OverallProgressZeroWeight | src/lib/dataProcessor.ts:176-179 | the raw-weight denominator differs from the site formula: 50 at weight 0 next to 0 at weight 1 gives 50, where a site gives 25 |
| DataProcessor.AllStagesMatch | src/lib/dataProcessor.ts:207-253 | passing all eight stages is the same as matching every active criterion |
| DataProcessor.StagedFilters | src/lib/dataProcessor.ts:204-256 | running the first `n` stages in turn keeps exactly the tasks that pass all of them, in order |
| DataProcessor.StagedMatches | src/lib/dataProcessor.ts:204-256 | the eight stages together keep exactly the matching tasks |
| DataProcessor.ApplyFilters | src/lib/dataProcessor.ts:204-256 | reassigning `filtered` through the active stages yields the input filtered by the AND of all active criteria |
| DataProcessor.FilterKeepsMatchingInOrder | src/lib/dataProcessor.ts:204-256 | the result is an order-preserving subsequence of the input, and a task is kept iff it matches every active criterion |
| DataProcessor.FilterTwiceIsOnce | src/lib/dataProcessor.ts:204-256 | applying the filter twice equals applying it once |
| DataProcessor.NoFiltersKeepAll | src/lib/dataProcessor.ts:204-256 | the all-empty filter state returns the input unchanged |
| DataProcessor.DelayFlagFilterDropsBlank | src/lib/dataProcessor.ts:232-236 | once a delay flag is chosen, a task whose flag is null or empty is dropped |
| DataProcessor.SearchTextIsNotTrimmed | src/lib/dataProcessor.ts:218-223 | the search text is trimmed only to decide whether to search: " a" is active but finds no site named or numbered "a" |
| DataProcessor.Column | src/lib/dataProcessor.ts:262-264 | the mapped column holds each task's field, in task order |
| DataProcessor.DelayFlags | src/lib/dataProcessor.ts:265-266 | the delay-flag column holds each task's flag, in task order |
| DataProcessor.ColumnMembership | src/lib/dataProcessor.ts:262-264 | a value is in a column iff some task has it |
| DataProcessor.FilterOptionsCorrect | src/lib/dataProcessor.ts:261-270 | each option list is strictly sorted (so duplicate-free) and offers exactly the values present among the tasks; a null delay flag is never offered |
| DataProcessor.FilterOptionsCanonical | src/lib/dataProcessor.ts:262 | any strictly sorted list of the same package names is the package-name option list |
| ProcessorCases.OneKeyOneSite | src/lib/__tests__/dataProcessor.test.ts:112-137 | tasks that all share one key form a single site key |
| ProcessorCases.SingleSiteGroup | src/lib/__tests__/dataProcessor.test.ts:112-143 | grouping the tasks of a single site gives exactly that site's aggregate |
| ProcessorCases.TriangularWeights | src/lib/__tests__/dataProcessor.test.ts:112-150 | the weights 1, 2, ..., n add up to n(n+1)/2 |
| ProcessorCases.DilutedByFifteen | src/lib/__tests__/dataProcessor.test.ts:145-154 | one finished task of weight 1 before fifteen unstarted tasks of weights 1..15 gives 100/121 |
| ProcessorCases.StatusSplit | src/lib/__tests__/dataProcessor.test.ts:141-143 | one task of one status among tasks of another gives counts of 1 and the rest |
| ProcessorCases.CaseOneFinishedFifteenUnstarted | src/lib/__tests__/dataProcessor.test.ts:112-159 | Case A: a single site with 16 tasks, 1 completed, 15 not started, and progress exactly 100/121 |
| ProcessorCases.CaseMixedNullAndPartial | src/lib/__tests__/dataProcessor.test.ts:193-211 | Case C: progress 50, null, 20, null at equal weights gives 17.5 |
| ProcessorCases.CaseDefaultWeights | src/lib/__tests__/dataProcessor.test.ts:218-241 | Case D: 100 and null with zero or missing durations give 50 |
| ProcessorCases.CaseExactValues | src/lib/__tests__/dataProcessor.test.ts:296-311 | Case G: a single task at 50 gives exactly 50, and 0 next to null gives exactly 0 |
| ProcessorCases.OneFinishedAmongNulls | src/lib/__tests__/dataProcessor.test.ts:248-266 | one task at 100 among n - 1 null tasks, all of weight 1, gives a portfolio progress of 100/n |
| ProcessorCases.TwoKeys | src/lib/__tests__/dataProcessor.test.ts:248-267 | two different keys over six tasks count as two sites |
| ProcessorCases.CaseOverallWithNulls | src/lib/__tests__/dataProcessor.test.ts:248-271 | Case E: portfolio progress 100/6 over two sites and six tasks |
| ProcessorCases.CaseEmpty | src/lib/__tests__/dataProcessor.test.ts:278-287 | Case F: no tasks give no sites and a portfolio progress of 0 |
| SheetsClient.GetValue | src/lib/backend/google-sheets-client.ts:389-392 | the result is the trimmed text of the first truthy value under the two headers, or '' when neither is truthy; it is always trimmed |
| SheetsClient.TrimmedIsTrimmed | src/lib/backend/google-sheets-client.ts:391 | trimming twice trims nothing more |
| SheetsClient.GetNumberReadsIntegers | src/lib/backend/google-sheets-client.ts:394-399 | a number under the first header, or its decimal text, reads back as that number |
| SheetsClient.GetNumberOfBlank | src/lib/backend/google-sheets-client.ts:394-396 | null, undefined or '' under both headers gives null |
| SheetsClient.GetNumberOfSpaces | src/lib/backend/google-sheets-client.ts:394-399 | text of spaces is truthy and `Number` reads it as 0, not null |
| SheetsClient.MapRowToTask | src/lib/backend/google-sheets-client.ts:381-431 | the result is null iff both site-id headers are falsy; otherwise the package fields are copied from the arguments, the three direct URLs are null, each text field is `getValue` of its two headers, each numeric field `getNumber`, each date field the `parseDMY` of `getValue` |
| SheetsClient.BlankDateColumn | src/lib/backend/google-sheets-client.ts:409-417 | a date column that is blank under both headers gives a null date, since `parseDMY` returns null for the empty string |
| SheetsClient.FriendlyHeaderWins | src/lib/backend/google-sheets-client.ts:384-405 | a non-empty 'Site ID' always gives a task whose site id is its trimmed text |
| SheetsClient.SpacesSiteIdKept | src/lib/backend/google-sheets-client.ts:384-405 | a site id of spaces passes the emptiness test but is read as the empty id |
| SheetsClient.FirstHitIsFirst | src/lib/backend/google-sheets-client.ts:141-163 | the search gives null iff no header name hits, and otherwise the value under the first name that hits |
| SheetsClient.FindColumn | src/lib/backend/google-sheets-client.ts:141-147 | the loop with `break` finds the value under the first header name that hits |
| SheetsClient.ReadComplianceRow | src/lib/backend/google-sheets-client.ts:131-169 | the three searches and the raw record built from them: the staff value as found, the other two as text |
| SheetsClient.RepeatedStaffHeaderHarmless | src/lib/backend/google-sheets-client.ts:132 | the repeated fourth staff header never changes the result |
| SheetsClient.FirstHitAppend | src/lib/backend/google-sheets-client.ts:132-134 | appending a name already tried, or one that misses, changes nothing |
| SheetsClient.ParseYesNo | src/lib/backend/google-sheets-client.ts:34-40 | the answer is Yes iff the lower-cased, trimmed text is 'yes', and No iff it is 'no' |
| SheetsClient.NumberIsNotWord | src/lib/backend/google-sheets-client.ts:34-40 | a number never parses as Yes or No |
| SheetsClient.ParseComplianceData | src/lib/backend/google-sheets-client.ts:22-80 | the early returns and the issue pushes produce the specified compliance record |
| SheetsClient.CheckFields | src/lib/backend/google-sheets-client.ts:60-79 | one issue is pushed per answer that is not Yes, then the status is decided from the issue count |
| SheetsClient.ComplianceStatusRules | src/lib/backend/google-sheets-client.ts:22-80 | the status is UNKNOWN iff there is no data or all three answers are blank; COMPLIANT iff all three are Yes, with no issues; otherwise NON_COMPLIANT, with one issue per answer that is not Yes (1 to 3 issues) |
| SheetsClient.FieldIssueSize | src/lib/backend/google-sheets-client.ts:61-69 | a field raises one issue unless its answer is Yes |
| SheetsClient.IssueWording | src/lib/backend/google-sheets-client.ts:61-69 | each field's issue says "unknown" iff its answer is missing, and "not submitted / not in place" iff it is No |
| SheetsClient.InheritedKeyLeaksThrough | src/lib/backend/google-sheets-client.ts:222-246 | a cell reading "Constructor" passes the `in` test as written and maps to an inherited member, where the intended lookup gives null |
| SheetsClient.ParseIpcData | src/lib/backend/google-sheets-client.ts:213-262 | the loop yields exactly six records, one for each column 24..29 in order, each status read with the corrected own-key lookup (see ## Findings) |
| SheetsClient.IpcRecordsNamed | src/lib/backend/google-sheets-client.ts:239-255 | record `col` is named "IPC <col - 23>", and it has status `s` iff its cell's lower-cased, trimmed text is the name of `s` |
| SheetsClient.IpcStatusOfNames | src/lib/backend/google-sheets-client.ts:222-246 | the corrected lookup finds a status exactly for that status's own name |
| DataIngestion.MapAllRows | src/lib/backend/data-ingestion.ts:46-60 | the nested loops count every row of every source and collect, in order, the task of every row that maps to one |
| DataIngestion.MapSourceRows | src/lib/backend/data-ingestion.ts:54-59 | the inner `forEach` appends the mapped task of each row that has one, in row order |
| DataIngestion.MappedRowsCount | src/lib/backend/data-ingestion.ts:54-59 | a source contributes exactly as many tasks as it has rows with a site id under either header |
| DataIngestion.MappedRowsOrigin | src/lib/backend/data-ingestion.ts:54-59 | every task of a source is `mapRowToTask` of one of its rows and carries the source's package id and name |
| DataIngestion.RawTasksSpec | src/lib/backend/data-ingestion.ts:50-60 | there are never more tasks than raw rows, and every task carries the package of one of the sources |
| DataIngestion.ComputeStatuses | src/lib/backend/data-ingestion.ts:64-65 | every raw task gets its derived record, in order |
| DataIngestion.Deduplicate | src/lib/backend/data-ingestion.ts:67-75 | the map fill with `has`/`set`, read back in insertion order, yields the first-write-wins deduplication |
| DataIngestion.FirstByUidUnique | src/lib/backend/data-ingestion.ts:67-75 | deduplication keeps every uid of the input, and each uid only once |
| DataIngestion.FirstByUidInOrder | src/lib/backend/data-ingestion.ts:67-75 | deduplication keeps the tasks in input order (a subsequence) |
| DataIngestion.FirstByUidFirstWins | src/lib/backend/data-ingestion.ts:69-73 | each kept task is the first input task with its uid |
| DataIngestion.IntegrityOf | src/lib/backend/data-ingestion.ts:115-163 | the check passes iff the distinct site uids number the sites, the KPIs count them too, no site at 99.9 or more has an incomplete task, and no progress is negative; the first failing assertion decides the error: a site-count mismatch, else a KPI-count mismatch, else the names of the falsely complete sites, else the number of tasks with negative progress |
| DataIngestion.ValidateDataIntegrity | src/lib/backend/data-ingestion.ts:115-163 | the sequence of throwing checks gives the specified verdict |
| DataIngestion.IngestedSiteChecks | src/lib/backend/data-ingestion.ts:79-136 | with sites and KPIs built from the same tasks, the KPI site-count assertion never fails, and the site-count assertion fails iff the tasks have a different number of site uids than site keys |
| DataIngestion.DistrictSplitsUidNotKey | src/lib/dataParser.ts:213-216 | one package and site id under two districts gives two site uids but a single site key |
| DataIngestion.TwoUidsOneSite | src/lib/backend/data-ingestion.ts:122-128 | two tasks with one site key and two site uids make the first assertion throw with 2 uids against 1 site |
| DataIngestion.AlmostDoneSiteThrows | src/lib/backend/data-ingestion.ts:139-152 | a lone task at a progress in [99.9, 100] that is not completed makes the third assertion throw |
| DataIngestion.LoneTaskProgress | src/lib/dataProcessor.ts:58-78 | a site of one task with a percentage progress and a non-negative weight shows exactly that progress |
| DataIngestion.AlmostDoneIsNotCompleted | src/lib/dataParser.ts:276-278 | such a task exists: progress below 100 without an actual finish is never completed |
| DataIngestion.UnitNormRiskIsMean | src/lib/dataProcessor.ts:94-103 | with every normalised weight at 1, the risk score is the plain mean of the task risks |
| DataIngestion.IngestedNormWeightsOne | src/lib/backend/data-ingestion.ts:64-75 | this path never normalises: every ingested task keeps a normalised weight of 1 |
| DataIngestion.StatusNormWeightsOne | src/lib/dataParser.ts:369-373 | every record `computeTaskStatus` builds has a site-normalised weight of 1 |
| DataIngestion.UnweightedSiteRisk | src/lib/backend/data-ingestion.ts:64-79 | so every site's risk score on this path is the unweighted mean of its tasks' risks |
| DataIngestion.IngestAllSheets | src/lib/backend/data-ingestion.ts:30-110 | after the fetch, ingestion succeeds iff the integrity check passes, an error is the one that check reports and never the KPI count, and returns the deduplicated tasks, their sites, KPIs and metadata (`validTasks` = task count, `uniqueSites` = site count = KPI site count) |
| Dashboard.FilteredTasksSpec | src/components/Dashboard.tsx:66-84 | the quick filter keeps an order-preserving part of the `applyFilters` result; a task stays iff it matches every filter and passes the quick test (overdue, stale, risk ≥ 40 or not evidence-compliant) |
| Dashboard.InsertKeepsSites | src/components/Dashboard.tsx:96-99 | inserting a site into the sorted list adds that site and loses nothing |
| Dashboard.InsertChained | src/components/Dashboard.tsx:96-99 | inserting into a list whose neighbours are in order keeps the neighbours in order |
| Dashboard.ChainedIsSorted | src/components/Dashboard.tsx:96-99 | neighbours in order means every pair is in order, because the comparison is transitive |
| Dashboard.SortSitesChained | src/components/Dashboard.tsx:96-99 | the sort puts neighbours in order and is a permutation |
| Dashboard.SortSitesSpec | src/components/Dashboard.tsx:96-99 | the sort orders the sites by delayed tasks descending, then weighted progress ascending, and is a permutation of its input |
| Dashboard.DisplayedSitesSpec | src/components/Dashboard.tsx:88-100 | the shown sites are a sorted permutation of the selection, and a site is shown iff it is an aggregate of all tasks whose key occurs among the filtered tasks |
| Dashboard.SitesIgnoreFilters | src/components/Dashboard.tsx:86-94 | a shown site is the aggregate of all tasks with its key, so any two views showing one key show the very same site, whatever the filters |
| Dashboard.ShownSitesMatchKpis | src/components/Dashboard.tsx:90-102 | when the filtered tasks come from the task list, the number of shown sites equals the KPI site count of the filtered tasks |
| Dashboard.LastUpdated | src/components/Dashboard.tsx:105-112 | the result is null iff no filtered task has an update date; otherwise it is the date of one of them and no filtered task's date is later |
| Dashboard.TopDelayedSpec | src/components/Dashboard.tsx:115-118 | the delayed list has min(3, qualifying) entries; entry i labels the i-th shown site with delayed tasks as "name (n delayed)", and those sites are taken from the shown sites in display order |
| Dashboard.ZeroProgressSpec | src/components/Dashboard.tsx:119-122 | the zero-progress list has min(3, qualifying) entries; entry i names the i-th shown site at 0 progress with a planned finish, and those sites are taken from the shown sites in display order |
| Dashboard.ViewConsistent | src/components/Dashboard.tsx:102-103 | the KPIs count the filtered tasks and as many sites as are shown, while the filter options offer the values of every task, including the hidden ones |
| Summary.DelayStatusBreakdown | src/pages/api/summary.ts:26-41 | the first `forEach` counts the sites of each category |
| Summary.ScheduleHealthByStage | src/pages/api/summary.ts:43-64 | the second `forEach` fills the five-entry array with each stage's count per category |
| Summary.CountSite | src/pages/api/summary.ts:57-63 | the branch chain adds one to the counter of the site's own category |
| Summary.StageStep | src/pages/api/summary.ts:52-64 | counting one more site changes only its own stage's cell, and only by one in its category |
| Summary.SummarizeSites | src/pages/api/summary.ts:26-76 | both tallies are the category and stage counts, and both assertions always hold, with both sums equal to the number of sites |
| Summary.StageIndex | src/pages/api/summary.ts:54 | the stage index is one of the five stages: 0 below 26, 1 in [26, 51), 2 in [51, 76), 3 in [76, 100) and 4 from 100 up |
| Summary.StageIndexMonotone | src/pages/api/summary.ts:54 | a higher progress never lands in a lower stage; 0 is in the first stage and 100 in the last |
| Summary.CategoryRules | src/pages/api/summary.ts:33-41 | a site is delayed iff it has delayed tasks, on track iff it has none but some task has a planned date, and unknown otherwise |
| Summary.BreakdownCoversSites | src/pages/api/summary.ts:33-67 | the three category counts add up to the number of sites |
| Summary.StagesSplitCategory | src/pages/api/summary.ts:33-64 | for each category, the per-stage counts add up to that category's count in the breakdown |
| Summary.StagesCoverSites | src/pages/api/summary.ts:52-68 | all cells of all stages add up to the number of sites |
| Text.Trim | src/lib/backend/google-sheets-client.ts:391 | `trim()` leaves no JavaScript whitespace at either end |
| Text.TrimEmptyIffBlank | src/lib/dataParser.ts:113-118 | `s.trim().length > 0` fails exactly for an all-whitespace string |
| Text.TrimNoop | src/lib/backend/google-sheets-client.ts:36 | trimming a string with no whitespace at either end changes nothing |
| Text.StrLessTransitive | src/lib/dataProcessor.ts:262-267 | the string order of the model (code-point order on `char`) is transitive |
| Text.StrLessTotal | src/lib/dataProcessor.ts:262-267 | two different strings are always ordered one way or the other |
| Text.SortedUniqueCorrect | src/lib/dataProcessor.ts:262-267 | `Array.from(new Set(xs)).sort()` is strictly sorted and holds exactly the values of `xs` |
| Text.StrictlySortedUnique | src/lib/dataProcessor.ts:262-267 | a strictly sorted list is determined by its set of values |
| Text.IntToStringParses | src/types/index.ts:27-30 | `Number(String(n))` is `n` for every integer |

## Left out

- Fetching: `fetchAllSheets`, `fetchAllComplianceData` and `fetchAllIPCData` are not part of this model. Their results (rows per package, the compliance map, worksheet cells) are inputs.
- The XLSX reader, the cache with its refresh timer, the other API routes and the React rendering are not part of this model.
- Console logging is left out, and so is the debug branch for one named site in `groupTasksBySite`; neither changes a value.
- The wall clock: `now` is a parameter. It also stands for `lastRefresh` in `ingestAllSheets`, and the timing of that function is dropped.
- dayjs parsing: the strict `DD-MM-YYYY`/`DD/MM/YYYY` formats and the lenient fallback form the uninterpreted parameter `parseText`. Time zones are not modelled, and dates are UTC epoch milliseconds.
- Numbers in spreadsheet cells are integers (`SheetsClient.Cell`, `SheetsClient.CellValue`). `String(x)` for a fraction, and `Number` of hexadecimal, `Infinity` or exponent forms outside the decimal grammar in `Text`, are not modelled.
- IEEE floating point: progress, weights and risk are exact reals. Rounding and `NaN` are not modelled.
- `toLowerCase`/`toUpperCase` map ASCII letters only. String comparison is code-point order on `char`.
- Text.StrLess: compares by code point, because `char` is a Unicode scalar value, while the default `sort` compares UTF-16 code units. The two orders differ when a character above U+FFFF meets one in U+E000..U+FFFF ("\u{1F600}" sorts before "\uFFFD" in JavaScript, after it here), so `getFilterOptions` can list such values in another order.
- SheetsClient.ParseIpcData: reads the status with the corrected own-key lookup `SheetsClient.IpcStatusOf`, so a cell reading "Constructor" or "__proto__" gives null rather than the inherited member that the `in` test at line 246 as written returns; the as-written lookup is `SheetsClient.IpcLookupAsWritten` (see ## Findings).
- SheetsClient.MapRowToTask: the `catch` that turns an exception into null is not modelled, because nothing in the modelled body can throw.
- Dashboard.FilteredTasksSpec: the `default` branch of the quick-filter switch is unreachable, because the quick filter is a four-valued datatype.
- Dashboard.SortSitesSpec: the insertion sort is stable like the built-in sort, but the contract proves only sortedness and permutation, not stability.
- DataIngestion.ValidateDataIntegrity: the errors carry the counts and site names, not the formatted message text.
- DataIngestion.IngestAllSheets: the list of sources is a parameter; `DataIngestion.SheetSources` holds the configured one.
- The `source: 'google-sheets'` constant of the ingested record is not modelled.
- The dashboard's chart classification in `Charts.tsx` is not part of this model. It orders its categories differently from the summary route.

## Findings

| source | as written | input that shows it | evidently intended | confidence | as-written member | corrected member |
|---|---|---|---|---|---|---|
| src/lib/backend/google-sheets-client.ts:246 | `statusRaw in statusMap` also accepts keys that every object inherits, so the status becomes an inherited member | an IPC cell reading "Constructor" gives `statusMap["constructor"]`, the `Object` constructor, instead of null | only the map's four own keys are statuses; any other text gives null | not executed | SheetsClient.IpcLookupAsWritten (shown by SheetsClient.InheritedKeyLeaksThrough) | SheetsClient.IpcStatusOf (proved by SheetsClient.IpcStatusOfNames) |
