/** The task classification engine (src/lib/dataParser.ts): spreadsheet
    serial dates, Google Drive link resolution, data-quality validation and
    the derived record of every task. The wall clock is the parameter `now`. */
module DataParser {
  import opened Wrappers
  import opened Types
  import Text
  import Seqs

  const MsPerDay: int := 86400000
  const StaleDays: int := 14
  const AheadDelta: real := 10.0
  const OnTrackLow: real := -10.0
  const AtRiskLow: real := -25.0

  /** Epoch day of the spreadsheet serial day 0 (1899-12-30 counts as serial 0). */
  const ExcelEpochSerial: int := 25569

  // ---------------------------------------------------------------- dates

  /** A value offered to `parseDMY`: JavaScript's `unknown`, restricted to the
      shapes a spreadsheet cell can take. */
  datatype DateValue =
    | NullValue
    | BoolValue(b: bool)
    | NumValue(n: real)
    | DateObject(time: Date)
    | StrValue(s: string)

  /** JavaScript truthiness; every Date object is truthy. */
  predicate Truthy(v: DateValue)
  {
    match v
    case NullValue => false
    case BoolValue(b) => b
    case NumValue(n) => n != 0.0
    case DateObject(_) => true
    case StrValue(s) => s != ""
  }

  /** `Math.floor(serial - 25569) * 86400 * 1000`. */
  function SerialToEpoch(n: real): int
  {
    (n - ExcelEpochSerial as real).Floor * MsPerDay
  }

  /** `excelDateToJSDate`. Text goes to `parseDMY`, whose string branch (the
      dayjs parsers) is the parameter `parseText`. */
  function ExcelDateToJSDate(v: DateValue, parseText: string -> Option<Date>): Option<Date>
    decreases if v.StrValue? then 1 else 0
  {
    if v.DateObject? then Some(v.time)
    else if !Truthy(v) then None
    else if v.StrValue? then ParseDMY(v, parseText)
    else if v.NumValue? then Some(SerialToEpoch(v.n))
    else None
  }

  /** `parseDMY`: falsy values give null, numbers are serial dates, Date objects
      pass through and text is trimmed and handed to `parseText`. */
  function ParseDMY(v: DateValue, parseText: string -> Option<Date>): Option<Date>
    decreases if v.NumValue? then 1 else 0
  {
    if !Truthy(v) then None
    else if v.NumValue? then ExcelDateToJSDate(v, parseText)
    else if v.DateObject? then Some(v.time)
    else if v.StrValue? then parseText(Text.Trim(v.s))
    else None
  }

  /** A schema task's date field as the value `parseDMY` receives. */
  function AsDateValue(d: Option<Date>): DateValue
  {
    match d
    case Some(t) => DateObject(t)
    case None => NullValue
  }

  /** Serial dates: a serial inside day `day + 25569` (any fraction) is the
      midnight starting that epoch day, serials strictly between 0 and 1
      included; 0 itself and every other falsy value is null; a Date object
      is returned as it is. */
  lemma ExcelSerialDay(day: int, fraction: real, parseText: string -> Option<Date>)
    requires 0.0 <= fraction < 1.0
    requires day + ExcelEpochSerial != 0 || fraction > 0.0
    ensures ExcelDateToJSDate(NumValue((day + ExcelEpochSerial) as real + fraction), parseText)
            == Some(day * MsPerDay)
    ensures ExcelDateToJSDate(NumValue(0.0), parseText) == None
    ensures ExcelDateToJSDate(NullValue, parseText) == None
    ensures forall t: Date :: ExcelDateToJSDate(DateObject(t), parseText) == Some(t)
  {
    var n := (day + ExcelEpochSerial) as real + fraction;
    assert n - ExcelEpochSerial as real == day as real + fraction;
    assert (day as real + fraction).Floor == day;
  }

  /** A later serial never gives an earlier date. */
  lemma ExcelSerialMonotone(a: real, b: real, parseText: string -> Option<Date>)
    requires a != 0.0 && b != 0.0 && a <= b
    ensures ExcelDateToJSDate(NumValue(a), parseText).Some?
    ensures ExcelDateToJSDate(NumValue(a), parseText).value
            <= ExcelDateToJSDate(NumValue(b), parseText).value
  {
    assert (a - ExcelEpochSerial as real).Floor <= (b - ExcelEpochSerial as real).Floor;
  }

  /** `parseDMY` on a schema task's date field is the identity, and numbers
      take the serial-date path. */
  lemma ParseDMYOfDateField(d: Option<Date>, parseText: string -> Option<Date>)
    ensures ParseDMY(AsDateValue(d), parseText) == d
    ensures forall n: real :: n != 0.0 ==>
              ParseDMY(NumValue(n), parseText) == Some(SerialToEpoch(n))
    ensures forall b: bool :: ParseDMY(BoolValue(b), parseText) == None
  {
  }

  /** `dayjs(later).diff(dayjs(earlier), 'day')`: whole days, truncated toward zero. */
  function DayDiff(later: Date, earlier: Date): int
  {
    var d := later - earlier;
    if d >= 0 then d / MsPerDay else -((-d) / MsPerDay)
  }

  /** An update is stale when more than 14 whole days have passed. */
  predicate IsStale(lastUpdated: Option<Date>, now: Date)
  {
    lastUpdated.Some? && DayDiff(now, lastUpdated.value) > StaleDays
  }

  /** More than 14 whole days is the same as at least 15 days' worth of milliseconds. */
  lemma StaleThreshold(lastUpdated: Date, now: Date)
    ensures IsStale(Some(lastUpdated), now) <==> now - lastUpdated >= (StaleDays + 1) * MsPerDay
  {
    var d := now - lastUpdated;
    if d >= 0 {
      if d >= (StaleDays + 1) * MsPerDay {
        DivMonotone(d, (StaleDays + 1) * MsPerDay);
      } else {
        DivMonotone((StaleDays + 1) * MsPerDay - 1, d);
        assert ((StaleDays + 1) * MsPerDay - 1) / MsPerDay == StaleDays;
      }
    }
  }

  lemma DivMonotone(a: int, b: int)
    requires 0 <= b <= a
    ensures b / MsPerDay <= a / MsPerDay
  {
  }

  // ---------------------------------------------------------------- drive links

  /** `[-\w]`: the characters of a Drive file id. */
  predicate IsIdChar(c: char)
  {
    ('a' <= c <= 'z') || ('A' <= c <= 'Z') || ('0' <= c <= '9') || c == '_' || c == '-'
  }

  /** The four patterns `extractDriveFile` tries, in order. */
  datatype DrivePattern =
    | FilePath  // /\/file\/d\/([-\w]+)/
    | IdParam   // /[?&]id=([-\w]+)/
    | OpenPath  // /\/open\?id=([-\w]+)/
    | UcPath    // /\/uc\?id=([-\w]+)/

  /** Length of the fixed part before the captured id. */
  function PrefixLength(p: DrivePattern): nat
  {
    match p
    case FilePath => 8
    case IdParam => 4
    case OpenPath => 9
    case UcPath => 7
  }

  /** The fixed part of pattern `p` occurs at position `i`. */
  predicate PrefixAt(s: string, p: DrivePattern, i: nat)
  {
    match p
    case FilePath => Text.OccursAt(s, "/file/d/", i)
    case IdParam => i < |s| && (s[i] == '?' || s[i] == '&') && Text.OccursAt(s, "id=", i + 1)
    case OpenPath => Text.OccursAt(s, "/open?id=", i)
    case UcPath => Text.OccursAt(s, "/uc?id=", i)
  }

  /** Pattern `p` matches at `i`: its fixed part, then at least one id character. */
  predicate MatchesAt(s: string, p: DrivePattern, i: nat)
  {
    PrefixAt(s, p, i) && i + PrefixLength(p) < |s| && IsIdChar(s[i + PrefixLength(p)])
  }

  /** The leftmost position at or after `i` where `p` matches. */
  function FindMatch(s: string, p: DrivePattern, i: nat): (r: Option<nat>)
    ensures r.Some? ==> i <= r.value < |s| && MatchesAt(s, p, r.value)
                        && forall j :: i <= j < r.value ==> !MatchesAt(s, p, j)
    ensures r.None? ==> forall j :: i <= j < |s| ==> !MatchesAt(s, p, j)
    decreases |s| - i
  {
    if i >= |s| then None
    else if MatchesAt(s, p, i) then Some(i)
    else FindMatch(s, p, i + 1)
  }

  /** Length of the run of id characters starting at `i` (the greedy `+`). */
  function IdRun(s: string, i: nat): (k: nat)
    requires i <= |s|
    ensures i + k <= |s| && forall j :: i <= j < i + k ==> IsIdChar(s[j])
    ensures i + k == |s| || !IsIdChar(s[i + k])
    decreases |s| - i
  {
    if i < |s| && IsIdChar(s[i]) then 1 + IdRun(s, i + 1) else 0
  }

  predicate IsDriveId(id: string)
  {
    |id| > 0 && forall j :: 0 <= j < |id| ==> IsIdChar(id[j])
  }

  /** `url.match(pattern)?.[1]`: the captured id of the leftmost match. */
  function Capture(s: string, p: DrivePattern): (r: Option<string>)
    ensures r.Some? ==> IsDriveId(r.value)
    ensures r.Some? <==> FindMatch(s, p, 0).Some?
  {
    match FindMatch(s, p, 0)
    case Some(i) =>
      var k := i + PrefixLength(p);
      var id := s[k..k + IdRun(s, k)];
      assert id[0] == s[k];
      Some(id)
    case None => None
  }

  /** `extractDriveFile`: null for null or empty input, else the id of the
      first pattern that matches. */
  function ExtractDriveFile(url: Option<string>): Option<string>
  {
    if url.None? || url.value == "" then None
    else
      var s := url.value;
      if Capture(s, FilePath).Some? then Capture(s, FilePath)
      else if Capture(s, IdParam).Some? then Capture(s, IdParam)
      else if Capture(s, OpenPath).Some? then Capture(s, OpenPath)
      else Capture(s, UcPath)
  }

  /** Wherever `/open?id=<id>` matches, `[?&]id=<id>` matches five characters on. */
  lemma OpenPathImpliesIdParam(s: string)
    requires Capture(s, OpenPath).Some?
    ensures Capture(s, IdParam).Some?
  {
    var i := FindMatch(s, OpenPath, 0).value;
    var w := s[i..i + 9];
    assert w == "/open?id=";
    assert s[i + 5] == w[5] && s[i + 6..i + 9] == w[6..9];
    assert MatchesAt(s, IdParam, i + 5);
  }

  /** Wherever `/uc?id=<id>` matches, `[?&]id=<id>` matches three characters on. */
  lemma UcPathImpliesIdParam(s: string)
    requires Capture(s, UcPath).Some?
    ensures Capture(s, IdParam).Some?
  {
    var i := FindMatch(s, UcPath, 0).value;
    var w := s[i..i + 7];
    assert w == "/uc?id=";
    assert s[i + 3] == w[3] && s[i + 4..i + 7] == w[4..7];
    assert MatchesAt(s, IdParam, i + 3);
  }

  /** The `/open?id=` and `/uc?id=` patterns are never the ones that answer:
      wherever they match, `[?&]id=` matches too, so the result is the
      `/file/d/` id if there is one, else the `[?&]id=` id, else null. */
  lemma LaterPatternsUnreachable(url: Option<string>)
    ensures url.Some? && url.value != "" ==>
      ExtractDriveFile(url) == (if Capture(url.value, FilePath).Some? then Capture(url.value, FilePath)
                                else Capture(url.value, IdParam))
    ensures ExtractDriveFile(url).Some? ==> IsDriveId(ExtractDriveFile(url).value)
  {
    if url.Some? && url.value != "" {
      var s := url.value;
      if Capture(s, OpenPath).Some? {
        OpenPathImpliesIdParam(s);
      }
      if Capture(s, UcPath).Some? {
        UcPathImpliesIdParam(s);
      }
    }
  }

  /** A direct-view URL for a Drive file id. */
  function DriveViewUrl(id: string): string
  {
    "https://drive.google.com/uc?export=view&id=" + id
  }

  datatype PhotoResult = PhotoResult(resolved: Option<string>, status: PhotoStatus)

  /** A URL field that is present and not all whitespace. */
  predicate NonBlank(u: Option<string>)
  {
    u.Some? && |Text.Trim(u.value)| > 0
  }

  /** `resolvePhotoURL`: prefer the direct URL, then an id extracted from the share URL. */
  function ResolvePhotoUrl(direct: Option<string>, share: Option<string>): PhotoResult
  {
    if NonBlank(direct) then PhotoResult(direct, DirectOk)
    else if NonBlank(share) then
      match ExtractDriveFile(share)
      case Some(id) => PhotoResult(Some(DriveViewUrl(id)), ResolvedFromShare)
      case None => PhotoResult(None, Unresolvable)
    else PhotoResult(None, Missing)
  }

  /** The four outcomes of `resolvePhotoURL`: a non-blank direct URL is kept
      as it is; otherwise a share URL with a Drive id gives the direct-view URL
      of that id; otherwise a non-blank share URL is unresolvable; otherwise the
      photo is missing. The URL is null exactly for the last two. */
  lemma PhotoOutcomes(direct: Option<string>, share: Option<string>)
    ensures var r := ResolvePhotoUrl(direct, share);
      && (r.resolved.None? <==> (r.status == Unresolvable || r.status == Missing))
      && (r.status == DirectOk <==> NonBlank(direct))
      && (r.status == DirectOk ==> r.resolved == direct)
      && (r.status == ResolvedFromShare <==>
            !NonBlank(direct) && NonBlank(share) && ExtractDriveFile(share).Some?)
      && (r.status == ResolvedFromShare ==>
            r.resolved == Some(DriveViewUrl(ExtractDriveFile(share).value))
            && IsDriveId(ExtractDriveFile(share).value))
      && (r.status == Unresolvable <==>
            !NonBlank(direct) && NonBlank(share) && ExtractDriveFile(share).None?)
      && (r.status == Missing <==> !NonBlank(direct) && !NonBlank(share))
  {
    LaterPatternsUnreachable(share);
  }

  // ---------------------------------------------------------------- progress

  /** `Math.max(0, Math.min(100, x))`. */
  function Clamp100(x: real): (r: real)
    ensures 0.0 <= r <= 100.0
    ensures 0.0 <= x <= 100.0 ==> r == x
    ensures x < 0.0 ==> r == 0.0
    ensures x > 100.0 ==> r == 100.0
  {
    if x < 0.0 then 0.0 else if x > 100.0 then 100.0 else x
  }

  /** `clampProgress`: null is 0, everything else is clamped into [0, 100]. */
  function ClampProgress(p: Option<real>): (r: real)
    ensures 0.0 <= r <= 100.0
    ensures p.None? ==> r == 0.0
    ensures p.Some? && 0.0 <= p.value <= 100.0 ==> r == p.value
  {
    match p
    case None => 0.0
    case Some(x) => Clamp100(x)
  }

  /** Clamping twice is clamping once, and clamping is monotone. */
  lemma ClampProgressIdempotent(p: Option<real>, q: real)
    ensures ClampProgress(Some(ClampProgress(p))) == ClampProgress(p)
    ensures p.Some? && p.value <= q ==> ClampProgress(p) <= ClampProgress(Some(q))
  {
  }

  // ---------------------------------------------------------------- validation

  /** The dates `validateTaskData` receives, already parsed. */
  datatype ParsedDates = ParsedDates(
    plannedStart: Option<Date>,
    plannedFinish: Option<Date>,
    actualStart: Option<Date>,
    actualFinish: Option<Date>,
    lastUpdated: Option<Date>)

  /** The dates of a schema task, as `parseDMY` returns them. */
  function DatesOf(t: Task): ParsedDates
  {
    ParsedDates(t.plannedStart, t.plannedFinish, t.actualStart, t.actualFinish, t.lastUpdated)
  }

  /** The seven checks, in the order `validateTaskData` runs them. */
  const AllIssues: seq<QualityIssue> := [
    PlannedFinishBeforeStart, ActualFinishBeforeStart, ProgressOutOfRange,
    CompletedButMissingActualFinish, MissingPlannedDates, StaleUpdate, DurationMissingOrZero]

  /** When each issue is reported. */
  predicate IssueCondition(i: QualityIssue, t: Task, d: ParsedDates, now: Date)
  {
    match i
    case PlannedFinishBeforeStart =>
      d.plannedStart.Some? && d.plannedFinish.Some? && d.plannedFinish.value < d.plannedStart.value
    case ActualFinishBeforeStart =>
      d.actualStart.Some? && d.actualFinish.Some? && d.actualFinish.value < d.actualStart.value
    case ProgressOutOfRange =>
      t.progressPct.Some? && (t.progressPct.value < 0.0 || t.progressPct.value > 100.0)
    case CompletedButMissingActualFinish =>
      t.progressPct.Some? && t.progressPct.value >= 100.0 && d.actualFinish.None?
    case MissingPlannedDates =>
      d.plannedStart.None? || d.plannedFinish.None?
    case StaleUpdate =>
      IsStale(d.lastUpdated, now)
    case DurationMissingOrZero =>
      t.plannedDurationDays.None? || t.plannedDurationDays.value <= 0.0
  }

  /** The checks as a test on tags. */
  function IssueTest(t: Task, d: ParsedDates, now: Date): QualityIssue -> bool
  {
    i => IssueCondition(i, t, d, now)
  }

  /** The one-element list holding `i` when the check `failed` reports it, else empty. */
  function Reported(failed: QualityIssue -> bool, i: QualityIssue): seq<QualityIssue>
  {
    if failed(i) then [i] else []
  }

  /** The issue list `validateTaskData` returns. */
  function QualityIssues(t: Task, d: ParsedDates, now: Date): seq<QualityIssue>
  {
    var failed := IssueTest(t, d, now);
    Reported(failed, PlannedFinishBeforeStart) + Reported(failed, ActualFinishBeforeStart)
    + Reported(failed, ProgressOutOfRange) + Reported(failed, CompletedButMissingActualFinish)
    + Reported(failed, MissingPlannedDates) + Reported(failed, StaleUpdate)
    + Reported(failed, DurationMissingOrZero)
  }

  /** Filtering the first four checks by any test reports each in turn. */
  lemma FilterFirstChecks(failed: QualityIssue -> bool)
    ensures Seqs.Filter(AllIssues[..4], failed)
            == Reported(failed, PlannedFinishBeforeStart) + Reported(failed, ActualFinishBeforeStart)
               + Reported(failed, ProgressOutOfRange) + Reported(failed, CompletedButMissingActualFinish)
  {
    assert Seqs.Filter(AllIssues[..0], failed) == [];
    Seqs.FilterPrefixStep(AllIssues, failed, 0);
    assert Seqs.Filter(AllIssues[..1], failed) == Reported(failed, PlannedFinishBeforeStart);
    Seqs.FilterPrefixStep(AllIssues, failed, 1);
    assert Seqs.Filter(AllIssues[..2], failed) == Seqs.Filter(AllIssues[..1], failed) + Reported(failed, ActualFinishBeforeStart);
    Seqs.FilterPrefixStep(AllIssues, failed, 2);
    assert Seqs.Filter(AllIssues[..3], failed) == Seqs.Filter(AllIssues[..2], failed) + Reported(failed, ProgressOutOfRange);
    Seqs.FilterPrefixStep(AllIssues, failed, 3);
    assert Seqs.Filter(AllIssues[..4], failed) == Seqs.Filter(AllIssues[..3], failed) + Reported(failed, CompletedButMissingActualFinish);
  }

  /** Filtering the seven checks by any test reports each in turn. */
  lemma FilterAllIssues(failed: QualityIssue -> bool)
    ensures Seqs.Filter(AllIssues, failed)
            == Reported(failed, PlannedFinishBeforeStart) + Reported(failed, ActualFinishBeforeStart)
               + Reported(failed, ProgressOutOfRange) + Reported(failed, CompletedButMissingActualFinish)
               + Reported(failed, MissingPlannedDates) + Reported(failed, StaleUpdate)
               + Reported(failed, DurationMissingOrZero)
  {
    FilterFirstChecks(failed);
    Seqs.FilterPrefixStep(AllIssues, failed, 4);
    assert Seqs.Filter(AllIssues[..5], failed) == Seqs.Filter(AllIssues[..4], failed) + Reported(failed, MissingPlannedDates);
    Seqs.FilterPrefixStep(AllIssues, failed, 5);
    assert Seqs.Filter(AllIssues[..6], failed) == Seqs.Filter(AllIssues[..5], failed) + Reported(failed, StaleUpdate);
    Seqs.FilterPrefixStep(AllIssues, failed, 6);
    assert Seqs.Filter(AllIssues[..7], failed) == Seqs.Filter(AllIssues[..6], failed) + Reported(failed, DurationMissingOrZero);
    assert AllIssues[..7] == AllIssues;
  }

  /** The issue list keeps, in order, exactly the checks that fail. */
  lemma QualityIssuesIsFilter(t: Task, d: ParsedDates, now: Date)
    ensures QualityIssues(t, d, now) == Seqs.Filter(AllIssues, IssueTest(t, d, now))
  {
    FilterAllIssues(IssueTest(t, d, now));
  }

  predicate IsCriticalTagIn(issues: seq<QualityIssue>)
  {
    PlannedFinishBeforeStart in issues || ActualFinishBeforeStart in issues || ProgressOutOfRange in issues
  }

  predicate IsWarningTagIn(issues: seq<QualityIssue>)
  {
    CompletedButMissingActualFinish in issues || MissingPlannedDates in issues || StaleUpdate in issues
  }

  /** The severity if-chain. */
  function SeverityOf(issues: seq<QualityIssue>): QualityFlag
  {
    if IsCriticalTagIn(issues) then Some(Critical)
    else if IsWarningTagIn(issues) then Some(Warning)
    else if |issues| > 0 then Some(Info)
    else None
  }

  /** `validateTaskData`: pushes each failed check in turn, then grades the list. */
  method ValidateTaskData(t: Task, d: ParsedDates, now: Date)
      returns (issues: seq<QualityIssue>, flag: QualityFlag)
    ensures issues == QualityIssues(t, d, now)
    ensures flag == SeverityOf(issues)
  {
    ghost var failed := IssueTest(t, d, now);
    ghost var f1 := Reported(failed, PlannedFinishBeforeStart);
    ghost var f2 := Reported(failed, ActualFinishBeforeStart);
    ghost var f3 := Reported(failed, ProgressOutOfRange);
    ghost var f4 := Reported(failed, CompletedButMissingActualFinish);
    ghost var f5 := Reported(failed, MissingPlannedDates);
    ghost var f6 := Reported(failed, StaleUpdate);
    ghost var f7 := Reported(failed, DurationMissingOrZero);
    issues := [];
    issues := issues + (if d.plannedStart.Some? && d.plannedFinish.Some?
                           && d.plannedFinish.value < d.plannedStart.value
                        then [PlannedFinishBeforeStart] else []);
    assert issues == f1;
    issues := issues + (if d.actualStart.Some? && d.actualFinish.Some?
                           && d.actualFinish.value < d.actualStart.value
                        then [ActualFinishBeforeStart] else []);
    assert issues == f1 + f2;
    issues := issues + (if t.progressPct.Some? && (t.progressPct.value < 0.0 || t.progressPct.value > 100.0)
                        then [ProgressOutOfRange] else []);
    assert issues == f1 + f2 + f3;
    issues := issues + (if t.progressPct.Some? && t.progressPct.value >= 100.0 && d.actualFinish.None?
                        then [CompletedButMissingActualFinish] else []);
    assert issues == f1 + f2 + f3 + f4;
    issues := issues + (if d.plannedStart.None? || d.plannedFinish.None?
                        then [MissingPlannedDates] else []);
    assert issues == f1 + f2 + f3 + f4 + f5;
    issues := issues + (if d.lastUpdated.Some? && DayDiff(now, d.lastUpdated.value) > StaleDays
                        then [StaleUpdate] else []);
    assert issues == f1 + f2 + f3 + f4 + f5 + f6;
    issues := issues + (if t.plannedDurationDays.None? || t.plannedDurationDays.value <= 0.0
                        then [DurationMissingOrZero] else []);
    assert issues == f1 + f2 + f3 + f4 + f5 + f6 + f7;
    flag := HighestSeverity(issues);
  }

  /** The closing if-chain of `validateTaskData`: the highest severity present. */
  method HighestSeverity(issues: seq<QualityIssue>) returns (flag: QualityFlag)
    ensures flag == SeverityOf(issues)
  {
    if PlannedFinishBeforeStart in issues || ActualFinishBeforeStart in issues
       || ProgressOutOfRange in issues {
      flag := Some(Critical);
    } else if CompletedButMissingActualFinish in issues || MissingPlannedDates in issues
              || StaleUpdate in issues {
      flag := Some(Warning);
    } else if |issues| > 0 {
      flag := Some(Info);
    } else {
      flag := None;
    }
  }

  /** Filtering the seven checks keeps exactly the failed ones, once each, in check order. */
  lemma FilterAllIssuesOrdered(failed: QualityIssue -> bool)
    ensures forall i :: i in Seqs.Filter(AllIssues, failed) <==> failed(i)
    ensures Seqs.Subsequence(Seqs.Filter(AllIssues, failed), AllIssues)
    ensures forall j, k :: 0 <= j < k < |Seqs.Filter(AllIssues, failed)| ==>
              IssueRank(Seqs.Filter(AllIssues, failed)[j]) < IssueRank(Seqs.Filter(AllIssues, failed)[k])
  {
    forall i ensures i in Seqs.Filter(AllIssues, failed) <==> failed(i) {
      Seqs.FilterMembership(AllIssues, failed, i);
      match i
      case PlannedFinishBeforeStart => case ActualFinishBeforeStart => case ProgressOutOfRange =>
      case CompletedButMissingActualFinish => case MissingPlannedDates => case StaleUpdate =>
      case DurationMissingOrZero =>
    }
    Seqs.FilterIsSubsequence(AllIssues, failed);
    RankIncreasingOfSubsequence(Seqs.Filter(AllIssues, failed), AllIssues);
  }

  /** Every issue is reported exactly when its condition holds, once, in check order. */
  lemma QualityIssuesExact(t: Task, d: ParsedDates, now: Date)
    ensures forall i :: i in QualityIssues(t, d, now) <==> IssueCondition(i, t, d, now)
    ensures Seqs.Subsequence(QualityIssues(t, d, now), AllIssues)
    ensures forall j, k :: 0 <= j < k < |QualityIssues(t, d, now)| ==>
              IssueRank(QualityIssues(t, d, now)[j]) < IssueRank(QualityIssues(t, d, now)[k])
  {
    QualityIssuesIsFilter(t, d, now);
    FilterAllIssuesOrdered(IssueTest(t, d, now));
  }

  /** A subsequence of a rank-increasing list is rank-increasing. */
  lemma {:induction false} RankIncreasingOfSubsequence(a: seq<QualityIssue>, b: seq<QualityIssue>)
    requires Seqs.Subsequence(a, b)
    requires forall j, k :: 0 <= j < k < |b| ==> IssueRank(b[j]) < IssueRank(b[k])
    ensures forall j, k :: 0 <= j < k < |a| ==> IssueRank(a[j]) < IssueRank(a[k])
    ensures forall j :: 0 <= j < |a| ==> a[j] in b
    decreases |b|
  {
    if |a| > 0 && |b| > 0 {
      var b' := b[..|b| - 1];
      if a[|a| - 1] == b[|b| - 1] {
        RankIncreasingOfSubsequence(a[..|a| - 1], b');
        forall j | 0 <= j < |a| - 1
          ensures IssueRank(a[j]) < IssueRank(a[|a| - 1])
        {
          assert a[..|a| - 1][j] in b';
        }
      } else {
        RankIncreasingOfSubsequence(a, b');
      }
    }
  }

  /** Grading any rank-ordered issue list: null exactly when it is empty, and
      info only when its one issue is a missing or zero duration. */
  lemma SeverityOfOrderedList(issues: seq<QualityIssue>)
    requires forall j, k :: 0 <= j < k < |issues| ==> IssueRank(issues[j]) < IssueRank(issues[k])
    ensures SeverityOf(issues).None? <==> issues == []
    ensures SeverityOf(issues) == Some(Info) ==> issues == [DurationMissingOrZero]
  {
    if SeverityOf(issues) == Some(Info) {
      forall j | 0 <= j < |issues| ensures issues[j] == DurationMissingOrZero {
        var x := issues[j];
        assert x in issues;
        match x
        case PlannedFinishBeforeStart => case ActualFinishBeforeStart => case ProgressOutOfRange =>
        case CompletedButMissingActualFinish => case MissingPlannedDates => case StaleUpdate =>
        case DurationMissingOrZero =>
      }
      assert Seqs.Distinct(issues);
      Seqs.DistinctCardinality(issues);
      var present := set x | x in issues;
      assert issues[0] in present;
      assert present == {DurationMissingOrZero};
      assert issues == [issues[0]];
    }
  }

  /** The severity ladder: null exactly for an empty list; critical exactly
      when a date-order or range check failed; warning exactly when none of
      those but a completion, planned-date or staleness check failed; and
      info only when the one issue is a missing or zero duration. */
  lemma SeverityLadder(t: Task, d: ParsedDates, now: Date)
    ensures SeverityOf(QualityIssues(t, d, now)).None? <==> QualityIssues(t, d, now) == []
    ensures SeverityOf(QualityIssues(t, d, now)) == Some(Critical) <==>
              IssueCondition(PlannedFinishBeforeStart, t, d, now)
              || IssueCondition(ActualFinishBeforeStart, t, d, now)
              || IssueCondition(ProgressOutOfRange, t, d, now)
    ensures SeverityOf(QualityIssues(t, d, now)) == Some(Warning) <==>
              !IssueCondition(PlannedFinishBeforeStart, t, d, now)
              && !IssueCondition(ActualFinishBeforeStart, t, d, now)
              && !IssueCondition(ProgressOutOfRange, t, d, now)
              && (IssueCondition(CompletedButMissingActualFinish, t, d, now)
                  || IssueCondition(MissingPlannedDates, t, d, now)
                  || IssueCondition(StaleUpdate, t, d, now))
    ensures SeverityOf(QualityIssues(t, d, now)) == Some(Info) ==>
              QualityIssues(t, d, now) == [DurationMissingOrZero]
  {
    QualityIssuesExact(t, d, now);
    SeverityOfOrderedList(QualityIssues(t, d, now));
  }

  // ---------------------------------------------------------------- task status

  function SiteUid(t: Task): string
  {
    t.packageId + "|" + t.district + "|" + t.siteId
  }

  function TaskUid(t: Task): string
  {
    SiteUid(t) + "|" + t.discipline + "|" + t.taskName
  }

  /** The legacy site key `package_id__site_id`. */
  function LegacySiteKey(t: Task): string
  {
    t.packageId + "__" + t.siteId
  }

  /** `Math.max(1, x)`. */
  function Max1(x: real): real
  {
    if x > 1.0 then x else 1.0
  }

  /** `Math.max(1, planned_duration_days || 1)`. */
  function WeightDays(duration: Option<real>): real
  {
    Max1(if duration.Some? && duration.value != 0.0 then duration.value else 1.0)
  }

  /** The time-based baseline: the share of the planned window that has elapsed. */
  function PlannedProgress(plannedStart: Option<Date>, plannedFinish: Option<Date>, now: Date): Option<real>
  {
    if plannedStart.Some? && plannedFinish.Some? then
      var s := plannedStart.value;
      var f := plannedFinish.value;
      if now <= s then Some(0.0)
      else if now >= f then Some(100.0)
      else Some((now - s) as real / (f - s) as real * 100.0)
    else None
  }

  function BucketOfDelta(delta: Option<real>): Option<ScheduleBucket>
  {
    match delta
    case None => None
    case Some(x) =>
      if x > AheadDelta then Some(Ahead)
      else if x >= OnTrackLow then Some(OnTrack)
      else if x >= AtRiskLow then Some(AtRisk)
      else Some(Delayed)
  }

  /** `delay_flag_calc?.toUpperCase().includes('DELAY')`. */
  predicate HasDelayFlag(flag: Option<string>)
  {
    flag.Some? && Text.Contains(Text.Upper(flag.value), "DELAY")
  }

  predicate CompletedCondition(t: Task)
  {
    t.actualFinish.Some? || (t.progressPct.Some? && t.progressPct.value >= 100.0)
  }

  predicate NotStartedCondition(t: Task)
  {
    t.actualStart.None? && (t.progressPct.None? || t.progressPct.value == 0.0)
  }

  predicate OverdueCondition(t: Task, now: Date)
  {
    t.plannedFinish.Some? && now > t.plannedFinish.value
  }

  predicate StalledCondition(t: Task, now: Date)
  {
    IsStale(t.lastUpdated, now) && t.progressPct.Some? && t.progressPct.value > 0.0
  }

  /** The five-way status, first matching condition wins. */
  function StatusOf(t: Task, now: Date): TaskStatus
  {
    if CompletedCondition(t) then Completed
    else if NotStartedCondition(t) then NotStarted
    else if OverdueCondition(t, now) then Overdue
    else if StalledCondition(t, now) then Stalled
    else InProgress
  }

  /** The bucket after the fallback chain for tasks without a delta. */
  function FallbackBucket(b: Option<ScheduleBucket>, status: TaskStatus, flag: Option<string>): Option<ScheduleBucket>
  {
    if b.None? && (status == Overdue || status == Stalled) then Some(Delayed)
    else if b.None? && status == Completed then Some(OnTrack)
    else if b.None? && flag.Some? && flag.value != "" && Text.Contains(Text.Upper(flag.value), "DELAY") then Some(Delayed)
    else if b.None? && status == InProgress then Some(OnTrack)
    else b
  }

  function SlipDays(status: TaskStatus, t: Task, now: Date): int
  {
    if status == Completed && t.actualFinish.Some? && t.plannedFinish.Some? then
      (t.actualFinish.value - t.plannedFinish.value) / MsPerDay
    else if status == Overdue && t.plannedFinish.Some? then
      (now - t.plannedFinish.value) / MsPerDay
    else 0
  }

  function EvidenceOf(hasBefore: bool, hasAfter: bool): EvidenceStatus
  {
    if hasBefore && hasAfter then BeforeAfter
    else if hasBefore then BeforeOnly
    else if hasAfter then AfterOnly
    else NoEvidence
  }

  function RiskOf(overdue: bool, stale: bool, compliant: bool, delta: Option<real>): real
  {
    var lag := -(if delta.Some? then delta.value else 0.0);
    (if overdue then 50.0 else 0.0) + (if stale then 20.0 else 0.0)
    + (if compliant then 0.0 else 10.0) + (if lag > 0.0 then lag else 0.0)
  }

  /** The signed progress gap against the baseline, when both are known. */
  function DeltaOf(progress: Option<real>, planned: Option<real>): Option<real>
  {
    if progress.Some? && planned.Some? then Some(progress.value - planned.value) else None
  }

  /** The derived record `computeTaskStatus` returns for `t` at time `now`. */
  function TaskStatusOf(t: Task, now: Date): TaskWithStatus
  {
    var planned := PlannedProgress(t.plannedStart, t.plannedFinish, now);
    var before := ResolvePhotoUrl(t.beforePhotoDirectUrl, t.beforePhotoShareUrl);
    var after := ResolvePhotoUrl(t.afterPhotoDirectUrl, t.afterPhotoShareUrl);
    Assemble(t, now, planned, before, after, QualityIssues(t, DatesOf(t), now))
  }

  /** The record built from its independently computed parts. */
  function Assemble(t: Task, now: Date, planned: Option<real>, before: PhotoResult, after: PhotoResult,
                    issues: seq<QualityIssue>): TaskWithStatus
  {
    var w := WeightDays(t.plannedDurationDays);
    var stale := IsStale(t.lastUpdated, now);
    var delta := DeltaOf(t.progressPct, planned);
    var status := StatusOf(t, now);
    var evidence := EvidenceOf(before.resolved.Some?, after.resolved.Some?);
    TaskWithStatus(
      t, SiteUid(t), TaskUid(t), LegacySiteKey(t),
      status, status == Completed, status == Overdue, status == Stalled, HasDelayFlag(t.delayFlagCalc),
      planned, delta, FallbackBucket(BucketOfDelta(delta), status, t.delayFlagCalc),
      SlipDays(status, t, now), stale,
      w, w, w, 1.0,
      before.resolved, after.resolved, before.status, after.status,
      evidence, evidence == BeforeAfter,
      issues, SeverityOf(issues),
      RiskOf(status == Overdue, stale, evidence == BeforeAfter, delta),
      now)
  }

  /** The baseline step of `computeTaskStatus`. */
  method ComputeBaseline(plannedStart: Option<Date>, plannedFinish: Option<Date>, now: Date)
      returns (planned: Option<real>)
    ensures planned == PlannedProgress(plannedStart, plannedFinish, now)
  {
    planned := None;
    if plannedStart.Some? && plannedFinish.Some? {
      var s := plannedStart.value;
      var f := plannedFinish.value;
      if now <= s {
        planned := Some(0.0);
      } else if now >= f {
        planned := Some(100.0);
      } else {
        planned := Some((now - s) as real / (f - s) as real * 100.0);
      }
    }
  }

  /** The status step: the first condition that holds decides, and sets its flag. */
  method ClassifyStatus(t: Task, now: Date, stale: bool)
      returns (status: TaskStatus, isCompleted: bool, isOverdue: bool, isStalled: bool)
    requires stale == IsStale(t.lastUpdated, now)
    ensures status == StatusOf(t, now)
    ensures isCompleted == (status == Completed) && isOverdue == (status == Overdue)
            && isStalled == (status == Stalled)
  {
    isCompleted, isOverdue, isStalled := false, false, false;
    if t.actualFinish.Some? || (t.progressPct.Some? && t.progressPct.value >= 100.0) {
      status := Completed;
      isCompleted := true;
    } else if t.actualStart.None? && (t.progressPct.None? || t.progressPct.value == 0.0) {
      status := NotStarted;
    } else if t.plannedFinish.Some? && now > t.plannedFinish.value {
      status := Overdue;
      isOverdue := true;
    } else if stale && t.progressPct.Some? && t.progressPct.value > 0.0 {
      status := Stalled;
      isStalled := true;
    } else {
      status := InProgress;
    }
  }

  /** The schedule-bucket step: thresholds on the delta, then the fallback chain. */
  method ComputeBucket(delta: Option<real>, status: TaskStatus, isOverdue: bool, isStalled: bool,
                       isCompleted: bool, delayFlag: Option<string>)
      returns (bucket: Option<ScheduleBucket>)
    requires isCompleted == (status == Completed) && isOverdue == (status == Overdue)
             && isStalled == (status == Stalled)
    ensures bucket == FallbackBucket(BucketOfDelta(delta), status, delayFlag)
  {
    bucket := None;
    if delta.Some? {
      if delta.value > AheadDelta {
        bucket := Some(Ahead);
      } else if delta.value >= OnTrackLow {
        bucket := Some(OnTrack);
      } else if delta.value >= AtRiskLow {
        bucket := Some(AtRisk);
      } else {
        bucket := Some(Delayed);
      }
    }
    if bucket.None? && (isOverdue || isStalled) {
      bucket := Some(Delayed);
    } else if bucket.None? && isCompleted {
      bucket := Some(OnTrack);
    } else if bucket.None? && delayFlag.Some? && delayFlag.value != ""
              && Text.Contains(Text.Upper(delayFlag.value), "DELAY") {
      bucket := Some(Delayed);
    } else if bucket.None? && status == InProgress {
      bucket := Some(OnTrack);
    }
  }

  /** `computeTaskStatus`: the steps of the source in order, each assigning
      its locals, then the record literal. */
  method ComputeTaskStatus(t: Task, now: Date) returns (r: TaskWithStatus)
    ensures r == TaskStatusOf(t, now)
  {
    var todayEpoch := now;
    var siteUid := t.packageId + "|" + t.district + "|" + t.siteId;
    var taskUid := siteUid + "|" + t.discipline + "|" + t.taskName;
    var siteKey := t.packageId + "__" + t.siteId;

    var weightDays := Max1(if t.plannedDurationDays.Some? && t.plannedDurationDays.value != 0.0
                           then t.plannedDurationDays.value else 1.0);
    var weightFinal := weightDays;
    assert weightDays == WeightDays(t.plannedDurationDays);

    var issues, flag := ValidateTaskData(t, DatesOf(t), now);
    var status, isCompleted, isOverdue, isStalled, stale, planned, delta, bucket, slipDays :=
      ComputeSchedule(t, now);
    var before, after, evidence, compliant := ComputeEvidence(t);
    var risk := ComputeRisk(isOverdue, stale, compliant, delta);
    var isDelayed := t.delayFlagCalc.Some? && Text.Contains(Text.Upper(t.delayFlagCalc.value), "DELAY");

    r := TaskWithStatus(
      t, siteUid, taskUid, siteKey,
      status, isCompleted, isOverdue, isStalled, isDelayed,
      planned, delta, bucket, slipDays, stale,
      weightFinal, weightDays, weightFinal, 1.0,
      before.resolved, after.resolved, before.status, after.status,
      evidence, compliant,
      issues, flag, risk, todayEpoch);
  }

  /** The schedule steps of `computeTaskStatus`: staleness, baseline, delta,
      status, bucket and slip. */
  method ComputeSchedule(t: Task, now: Date)
      returns (status: TaskStatus, isCompleted: bool, isOverdue: bool, isStalled: bool, stale: bool,
               planned: Option<real>, delta: Option<real>, bucket: Option<ScheduleBucket>, slipDays: int)
    ensures status == StatusOf(t, now)
    ensures isCompleted == (status == Completed) && isOverdue == (status == Overdue)
            && isStalled == (status == Stalled)
    ensures stale == IsStale(t.lastUpdated, now)
    ensures planned == PlannedProgress(t.plannedStart, t.plannedFinish, now)
    ensures delta == DeltaOf(t.progressPct, planned)
    ensures bucket == FallbackBucket(BucketOfDelta(delta), status, t.delayFlagCalc)
    ensures slipDays == SlipDays(status, t, now)
  {
    stale := if t.lastUpdated.Some? then DayDiff(now, t.lastUpdated.value) > StaleDays else false;
    planned := ComputeBaseline(t.plannedStart, t.plannedFinish, now);
    delta := if t.progressPct.Some? && planned.Some? then Some(t.progressPct.value - planned.value) else None;
    status, isCompleted, isOverdue, isStalled := ClassifyStatus(t, now, stale);
    bucket := ComputeBucket(delta, status, isOverdue, isStalled, isCompleted, t.delayFlagCalc);
    slipDays := ComputeSlipDays(t, now, status, isOverdue);
  }

  /** The photo-evidence steps of `computeTaskStatus`. */
  method ComputeEvidence(t: Task)
      returns (before: PhotoResult, after: PhotoResult, evidence: EvidenceStatus, compliant: bool)
    ensures before == ResolvePhotoUrl(t.beforePhotoDirectUrl, t.beforePhotoShareUrl)
    ensures after == ResolvePhotoUrl(t.afterPhotoDirectUrl, t.afterPhotoShareUrl)
    ensures evidence == EvidenceOf(before.resolved.Some?, after.resolved.Some?)
    ensures compliant == (evidence == BeforeAfter)
  {
    before := ResolvePhotoUrl(t.beforePhotoDirectUrl, t.beforePhotoShareUrl);
    after := ResolvePhotoUrl(t.afterPhotoDirectUrl, t.afterPhotoShareUrl);
    evidence, compliant := ClassifyEvidence(before.resolved.Some?, after.resolved.Some?);
  }

  /** The risk step of `computeTaskStatus`. */
  method ComputeRisk(isOverdue: bool, stale: bool, compliant: bool, delta: Option<real>) returns (risk: real)
    ensures risk == RiskOf(isOverdue, stale, compliant, delta)
  {
    var missingEvidence := if compliant then 0.0 else 1.0;
    var lag := -(if delta.Some? then delta.value else 0.0);
    risk := (if isOverdue then 50.0 else 0.0) + (if stale then 20.0 else 0.0)
            + missingEvidence * 10.0 + (if lag > 0.0 then lag else 0.0);
  }

  /** The slip step of `computeTaskStatus`: whole days late against the plan. */
  method ComputeSlipDays(t: Task, now: Date, status: TaskStatus, isOverdue: bool) returns (slipDays: int)
    requires isOverdue == (status == Overdue)
    ensures slipDays == SlipDays(status, t, now)
  {
    slipDays := 0;
    if status == Completed && t.actualFinish.Some? && t.plannedFinish.Some? {
      slipDays := (t.actualFinish.value - t.plannedFinish.value) / MsPerDay;
    } else if isOverdue && t.plannedFinish.Some? {
      slipDays := (now - t.plannedFinish.value) / MsPerDay;
    }
  }

  /** The evidence step of `computeTaskStatus`. */
  method ClassifyEvidence(hasBefore: bool, hasAfter: bool) returns (evidence: EvidenceStatus, compliant: bool)
    ensures evidence == EvidenceOf(hasBefore, hasAfter)
    ensures compliant <==> hasBefore && hasAfter
  {
    if hasBefore && hasAfter {
      evidence := BeforeAfter;
    } else if hasBefore {
      evidence := BeforeOnly;
    } else if hasAfter {
      evidence := AfterOnly;
    } else {
      evidence := NoEvidence;
    }
    compliant := evidence == BeforeAfter;
  }

  // ---------------------------------------------------------------- properties

  /** The task uid extends the site uid, and both keys start with the package id;
      the legacy key ends with the site id. */
  lemma KeysNest(t: Task)
    ensures TaskUid(t)[..|SiteUid(t)|] == SiteUid(t)
    ensures SiteUid(t)[..|t.packageId|] == t.packageId
    ensures LegacySiteKey(t)[..|t.packageId|] == t.packageId
    ensures LegacySiteKey(t)[|LegacySiteKey(t)| - |t.siteId|..] == t.siteId
  {
    assert TaskUid(t) == SiteUid(t) + ("|" + t.discipline + "|" + t.taskName);
    assert SiteUid(t) == t.packageId + ("|" + t.district + "|" + t.siteId);
    assert LegacySiteKey(t) == (t.packageId + "__") + t.siteId;
  }

  /** The duration weight is at least 1, equals the duration when that is at
      least 1 and is exactly 1 for a null, zero or smaller duration; the final
      and legacy weights equal it and the site norm starts at 1. */
  lemma WeightAtLeastOne(t: Task, now: Date)
    ensures var r := TaskStatusOf(t, now);
      && r.taskWeightDays >= 1.0
      && r.taskWeightFinal == r.taskWeightDays && r.weight == r.taskWeightDays
      && r.taskWeightNormSite == 1.0
      && (t.plannedDurationDays.None? || t.plannedDurationDays.value <= 1.0 ==> r.taskWeightDays == 1.0)
      && (t.plannedDurationDays.Some? && t.plannedDurationDays.value >= 1.0 ==>
            r.taskWeightDays == t.plannedDurationDays.value)
  {
  }

  /** The baseline is null unless both planned dates exist, and then lies in
      [0, 100]; the interpolating branch only runs on a non-empty window. */
  lemma PlannedProgressBounds(ps: Option<Date>, pf: Option<Date>, now: Date)
    ensures PlannedProgress(ps, pf, now).Some? <==> ps.Some? && pf.Some?
    ensures PlannedProgress(ps, pf, now).Some? ==> 0.0 <= PlannedProgress(ps, pf, now).value <= 100.0
    ensures ps.Some? && pf.Some? && ps.value < now < pf.value ==>
              0.0 < PlannedProgress(ps, pf, now).value < 100.0
  {
    if ps.Some? && pf.Some? && ps.value < now < pf.value {
      var s, f := ps.value, pf.value;
      FractionBounds((now - s) as real, (f - s) as real);
    }
  }

  lemma FractionBounds(a: real, b: real)
    requires 0.0 < a < b
    ensures 0.0 < a / b * 100.0 < 100.0
  {
    var q := a / b;
    assert q * b == a;
    assert q >= 1.0 ==> (q - 1.0) * b >= 0.0;
  }

  /** The baseline never goes down as time passes. */
  lemma PlannedProgressMonotone(ps: Date, pf: Date, now1: Date, now2: Date)
    requires now1 <= now2
    ensures PlannedProgress(Some(ps), Some(pf), now1).value <= PlannedProgress(Some(ps), Some(pf), now2).value
  {
    PlannedProgressBounds(Some(ps), Some(pf), now1);
    PlannedProgressBounds(Some(ps), Some(pf), now2);
    if ps < now1 && now2 < pf {
      var a1, a2, b := (now1 - ps) as real, (now2 - ps) as real, (pf - ps) as real;
      assert a2 / b - a1 / b == (a2 - a1) / b;
      assert (a2 - a1) / b >= 0.0;
    }
  }

  /** Strict status precedence: completed, not-started, overdue, stalled,
      in-progress; each flag is set exactly for its status, so at most one is. */
  lemma StatusPrecedence(t: Task, now: Date)
    ensures var r := TaskStatusOf(t, now);
      && (r.status == Completed <==> CompletedCondition(t))
      && (r.status == NotStarted <==> !CompletedCondition(t) && NotStartedCondition(t))
      && (r.status == Overdue <==>
            !CompletedCondition(t) && !NotStartedCondition(t) && OverdueCondition(t, now))
      && (r.status == Stalled <==>
            !CompletedCondition(t) && !NotStartedCondition(t) && !OverdueCondition(t, now)
            && StalledCondition(t, now))
      && (r.isCompleted <==> r.status == Completed)
      && (r.isOverdue <==> r.status == Overdue)
      && (r.isStalled <==> r.status == Stalled)
      && !(r.isCompleted && r.isOverdue) && !(r.isCompleted && r.isStalled) && !(r.isOverdue && r.isStalled)
  {
  }

  /** With a delta the bucket follows the 10 / -10 / -25 thresholds; after the
      fallback the bucket is null exactly for a not-started task with no delta
      and no "DELAY" in its delay flag. */
  lemma ScheduleBucketRules(t: Task, now: Date)
    ensures var r := TaskStatusOf(t, now);
      && (r.progressDeltaPct.Some? ==>
            var x := r.progressDeltaPct.value;
            r.scheduleBucket == Some(if x > 10.0 then Ahead else if x >= -10.0 then OnTrack
                                     else if x >= -25.0 then AtRisk else Delayed))
      && (r.scheduleBucket.None? <==>
            r.progressDeltaPct.None? && r.status == NotStarted && !HasDelayFlag(t.delayFlagCalc))
  {
    var r := TaskStatusOf(t, now);
    if t.delayFlagCalc.Some? && t.delayFlagCalc.value == "" {
      assert !Text.Contains(Text.Upper(t.delayFlagCalc.value), "DELAY");
    }
  }

  /** Slip days are only non-zero for a completed task with both finishes or
      an overdue task, and an overdue task's slip is never negative. */
  lemma SlipDaysSign(t: Task, now: Date)
    ensures var r := TaskStatusOf(t, now);
      && (r.slipDays != 0 ==> r.status == Completed || r.status == Overdue)
      && (r.status == Overdue ==> r.slipDays >= 0)
      && ((r.status == Completed && t.actualFinish.Some? && t.plannedFinish.Some?
           && t.actualFinish.value <= t.plannedFinish.value) ==> r.slipDays <= 0)
  {
  }

  /** Evidence is before-after exactly when both photos resolved, and only
      that status is compliant. */
  lemma EvidenceRules(t: Task, now: Date)
    ensures var r := TaskStatusOf(t, now);
      && (r.evidenceCompliantFlag <==> r.evidenceStatus == BeforeAfter)
      && (r.evidenceStatus == BeforeAfter <==> r.beforeUrlResolved.Some? && r.afterUrlResolved.Some?)
      && (r.evidenceStatus == NoEvidence <==> r.beforeUrlResolved.None? && r.afterUrlResolved.None?)
      && (r.beforeUrlResolved.None? <==> r.beforePhotoStatus == Unresolvable || r.beforePhotoStatus == Missing)
  {
    PhotoOutcomes(t.beforePhotoDirectUrl, t.beforePhotoShareUrl);
  }

  /** The risk score is never negative, is at least 10 whenever the evidence is
      not before-after, at least 50 for an overdue task, and at most 180 when
      progress is a percentage. */
  lemma RiskBounds(t: Task, now: Date)
    ensures var r := TaskStatusOf(t, now);
      && r.riskTask >= 0.0
      && (r.evidenceStatus != BeforeAfter ==> r.riskTask >= 10.0)
      && (r.isOverdue ==> r.riskTask >= 50.0)
      && (t.progressPct.None? || 0.0 <= t.progressPct.value <= 100.0 ==> r.riskTask <= 180.0)
  {
    var planned := PlannedProgress(t.plannedStart, t.plannedFinish, now);
    PlannedProgressBounds(t.plannedStart, t.plannedFinish, now);
  }

  /** The record's quality fields are the validator's verdict on its own dates. */
  lemma QualityOfTask(t: Task, now: Date)
    ensures var r := TaskStatusOf(t, now);
      && (forall i :: i in r.dataQualityIssues <==> IssueCondition(i, t, DatesOf(t), now))
      && r.dataQualityFlag == SeverityOf(r.dataQualityIssues)
      && (r.dataQualityFlag.None? <==> r.dataQualityIssues == [])
      && (r.isDelayed <==> HasDelayFlag(t.delayFlagCalc))
      && (r.staleUpdateFlag <==> IssueCondition(StaleUpdate, t, DatesOf(t), now))
  {
    QualityIssuesExact(t, DatesOf(t), now);
    SeverityLadder(t, DatesOf(t), now);
  }
}
