/** The parts of src/lib/backend/google-sheets-client.ts that turn spreadsheet
    cells into records: the row-to-task mapping, the compliance header search
    and status rules, and the six IPC status cells. Fetching and reading the
    workbooks is not part of this model; rows and cells are inputs. */
module SheetsClient {
  import opened Wrappers
  import opened Types
  import Text
  import DataParser

  // ---------------------------------------------------------------- cells

  /** A value of a row object from `sheet_to_json`: absent (undefined), null,
      text or a number. Numbers are integers in this model. */
  datatype Cell = Undefined | Null | CText(text: string) | CNumber(number: int)

  /** A row object: header name to value; a header that is not a key reads as undefined. */
  type SheetRow = map<string, Cell>

  function Lookup(row: SheetRow, key: string): Cell
  {
    if key in row then row[key] else Undefined
  }

  /** JavaScript truthiness of a cell value. */
  predicate Truthy(c: Cell)
  {
    match c
    case CText(s) => s != ""
    case CNumber(n) => n != 0
    case _ => false
  }

  /** `String(val)`. */
  function CellString(c: Cell): string
  {
    match c
    case Undefined => "undefined"
    case Null => "null"
    case CText(s) => s
    case CNumber(n) => Text.IntToString(n)
  }

  /** `row[key1] || row[key2]`. */
  function Either(row: SheetRow, key1: string, key2: string): Cell
  {
    if Truthy(Lookup(row, key1)) then Lookup(row, key1) else Lookup(row, key2)
  }

  /** `getValue`: the first truthy value of the two headers, as trimmed text,
      or the empty string when neither is truthy. */
  function GetValue(row: SheetRow, key1: string, key2: string): (s: string)
    ensures Text.Trim(s) == s
    ensures !Truthy(Lookup(row, key1)) && !Truthy(Lookup(row, key2)) ==> s == ""
    ensures Truthy(Lookup(row, key1)) ==> s == Text.Trim(CellString(Lookup(row, key1)))
    ensures !Truthy(Lookup(row, key1)) && Truthy(Lookup(row, key2)) ==> s == Text.Trim(CellString(Lookup(row, key2)))
  {
    var v := Either(row, key1, key2);
    if Truthy(v) then
      var t := Text.Trim(CellString(v));
      TrimmedIsTrimmed(CellString(v));
      t
    else ""
  }

  /** Trimming twice trims nothing more. */
  lemma TrimmedIsTrimmed(s: string)
    ensures Text.Trim(Text.Trim(s)) == Text.Trim(s)
  {
    var t := Text.Trim(s);
    if |t| > 0 {
      Text.TrimNoop(t);
    }
  }

  /** `getNumber`: null for null, undefined and '', `Number(val)` otherwise,
      with NaN read as null. */
  function GetNumber(row: SheetRow, key1: string, key2: string): Option<real>
  {
    match Either(row, key1, key2)
    case Undefined => None
    case Null => None
    case CText(s) => if s == "" then None else Text.ParseJsNumber(s)
    case CNumber(n) => Some(n as real)
  }

  /** A number read under either header comes back as that number, and so does
      its decimal text: `getNumber` reads `String(n)` as `n`. */
  lemma GetNumberReadsIntegers(row: SheetRow, key1: string, key2: string, n: int)
    requires Lookup(row, key1) == CNumber(n) || Lookup(row, key1) == CText(Text.IntToString(n))
    requires n != 0 || Lookup(row, key1).CText?
    ensures GetNumber(row, key1, key2) == Some(n as real)
  {
    Text.IntToStringParses(n);
  }

  /** Null, undefined and the empty string under both headers give null. */
  lemma GetNumberOfBlank(row: SheetRow, key1: string, key2: string)
    requires Lookup(row, key1) in {Undefined, Null, CText("")}
    requires Lookup(row, key2) in {Undefined, Null, CText("")}
    ensures GetNumber(row, key1, key2) == None
  {
  }

  /** Text that is only spaces is truthy, so `Number` reads it as 0 rather
      than null. */
  lemma GetNumberOfSpaces(row: SheetRow, key1: string, key2: string)
    requires Lookup(row, key1) == CText("  ")
    ensures GetNumber(row, key1, key2) == Some(0.0)
  {
    assert Text.IsJsWhitespace("  "[0]) && Text.IsJsWhitespace("  "[1]);
    Text.TrimEmptyIffBlank("  ");
  }

  // ---------------------------------------------------------------- rows to tasks

  /** A date column: `parseDMY` of the trimmed text. */
  function DateColumn(row: SheetRow, key1: string, key2: string, parseText: string -> Option<Date>): Option<Date>
  {
    DataParser.ParseDMY(DataParser.StrValue(GetValue(row, key1, key2)), parseText)
  }

  /** `mapRowToTask`: null for a row without a site id under either header,
      otherwise the task read from the row's columns. `parseText` is the
      string branch of `parseDMY`. */
  function MapRowToTask(row: SheetRow, packageId: string, packageName: string,
                        parseText: string -> Option<Date>): (r: Option<Task>)
    ensures r.None? <==> !Truthy(Lookup(row, "Site ID")) && !Truthy(Lookup(row, "site_id"))
    ensures r.Some? ==> r.value.packageId == packageId && r.value.packageName == packageName
    ensures r.Some? ==> r.value.siteId == GetValue(row, "Site ID", "site_id")
                        && r.value.district == GetValue(row, "District", "district")
    ensures r.Some? ==> r.value.siteName == GetValue(row, "Site Name", "site_name")
                        && r.value.discipline == GetValue(row, "Discipline", "discipline")
                        && r.value.taskName == GetValue(row, "Task Name", "task_name")
    ensures r.Some? ==> r.value.coverPhotoDirectUrl.None? && r.value.beforePhotoDirectUrl.None?
                        && r.value.afterPhotoDirectUrl.None?
    ensures r.Some? ==> r.value.progressPct == GetNumber(row, "Progress %", "progress_pct")
    ensures r.Some? ==> r.value.delayFlagCalc == Some(GetValue(row, "Delay Flag", "delay_flag_calc"))
    ensures r.Some? ==> r.value.plannedDurationDays == GetNumber(row, "Planned Duration (Days)", "planned_duration_days")
                        && r.value.variance == GetNumber(row, "Variance", "Variance")
    ensures r.Some? ==> r.value.remarks == Some(GetValue(row, "Remarks", "remarks"))
                        && r.value.photoFolderUrl == Some(GetValue(row, "Photo Folder", "photo_folder_url"))
                        && r.value.coverPhotoShareUrl == Some(GetValue(row, "Cover Photo", "cover_photo_share_url"))
                        && r.value.beforePhotoShareUrl == Some(GetValue(row, "Before Photo", "before_photo_share_url"))
                        && r.value.afterPhotoShareUrl == Some(GetValue(row, "After Photo", "after_photo_share_url"))
    ensures r.Some? ==> r.value.plannedStart == DateColumn(row, "Planned Start", "planned_start", parseText)
                        && r.value.plannedFinish == DateColumn(row, "Planned Finish", "planned_finish", parseText)
                        && r.value.actualStart == DateColumn(row, "Actual Start", "actual_start", parseText)
                        && r.value.actualFinish == DateColumn(row, "Actual Finish", "actual_finish", parseText)
                        && r.value.lastUpdated == DateColumn(row, "Last Updated", "last_updated", parseText)
  {
    if !Truthy(Lookup(row, "Site ID")) && !Truthy(Lookup(row, "site_id")) then None
    else
      Some(Task(
        packageId,
        packageName,
        GetValue(row, "District", "district"),
        GetValue(row, "Site ID", "site_id"),
        GetValue(row, "Site Name", "site_name"),
        GetValue(row, "Discipline", "discipline"),
        GetValue(row, "Task Name", "task_name"),
        DateColumn(row, "Planned Start", "planned_start", parseText),
        DateColumn(row, "Planned Finish", "planned_finish", parseText),
        GetNumber(row, "Planned Duration (Days)", "planned_duration_days"),
        DateColumn(row, "Actual Start", "actual_start", parseText),
        DateColumn(row, "Actual Finish", "actual_finish", parseText),
        GetNumber(row, "Progress %", "progress_pct"),
        GetNumber(row, "Variance", "Variance"),
        Some(GetValue(row, "Delay Flag", "delay_flag_calc")),
        DateColumn(row, "Last Updated", "last_updated", parseText),
        Some(GetValue(row, "Remarks", "remarks")),
        Some(GetValue(row, "Photo Folder", "photo_folder_url")),
        Some(GetValue(row, "Cover Photo", "cover_photo_share_url")),
        None,
        Some(GetValue(row, "Before Photo", "before_photo_share_url")),
        None,
        Some(GetValue(row, "After Photo", "after_photo_share_url")),
        None))
  }

  /** A date column that is blank under both headers reads as no date. */
  lemma BlankDateColumn(row: SheetRow, key1: string, key2: string, parseText: string -> Option<Date>)
    requires GetValue(row, key1, key2) == ""
    ensures DateColumn(row, key1, key2, parseText).None?
  {
    assert !DataParser.Truthy(DataParser.StrValue(""));
  }

  /** The friendly header wins over the snake_case one whenever it is truthy. */
  lemma FriendlyHeaderWins(row: SheetRow, packageId: string, packageName: string,
                           parseText: string -> Option<Date>, site: string)
    requires Lookup(row, "Site ID") == CText(site) && site != ""
    ensures MapRowToTask(row, packageId, packageName, parseText).Some?
    ensures MapRowToTask(row, packageId, packageName, parseText).value.siteId == Text.Trim(site)
  {
    assert Truthy(Lookup(row, "Site ID"));
    assert GetValue(row, "Site ID", "site_id") == Text.Trim(site);
  }

  /** A site id of spaces passes the emptiness test but reads as the empty id. */
  lemma SpacesSiteIdKept(row: SheetRow, packageId: string, packageName: string,
                         parseText: string -> Option<Date>)
    requires Lookup(row, "Site ID") == CText(" ")
    ensures MapRowToTask(row, packageId, packageName, parseText).Some?
    ensures MapRowToTask(row, packageId, packageName, parseText).value.siteId == ""
  {
    assert Text.IsJsWhitespace(" "[0]);
    Text.TrimEmptyIffBlank(" ");
  }

  // ---------------------------------------------------------------- compliance header search

  /** The header spellings tried for each compliance column, in order. */
  const StaffRfbNames: seq<string> := ["No_of_Staff_RFB", "No of Staff RFB", "Staff RFB", "No_of_Staff_RFB"]
  const CesmpsNames: seq<string> := ["CESMPS_Submitted", "CESMPS_Submitte", "CEMSPS_Submitted", "CESMPS"]
  const OhsNames: seq<string> := ["OHS_Measures", "OHS Measures", "OHS", "OHS_Measures"]

  /** A header hit: the name is a key of the row and its value is not null,
      undefined or ''. */
  predicate Hit(row: SheetRow, name: string)
  {
    name in row && row[name] != Null && row[name] != Undefined && row[name] != CText("")
  }

  /** The value under the first name that hits, or null when none does. */
  function FirstHit(row: SheetRow, names: seq<string>): Cell
  {
    if |names| == 0 then Null
    else if Hit(row, names[0]) then row[names[0]]
    else FirstHit(row, names[1..])
  }

  /** The search result is null exactly when no name hits, and otherwise the
      value under the first name that hits. */
  lemma {:induction false} FirstHitIsFirst(row: SheetRow, names: seq<string>)
    ensures FirstHit(row, names) == Null <==> forall i :: 0 <= i < |names| ==> !Hit(row, names[i])
    ensures FirstHit(row, names) != Null ==>
              exists i :: 0 <= i < |names| && Hit(row, names[i]) && FirstHit(row, names) == row[names[i]]
                          && forall j :: 0 <= j < i ==> !Hit(row, names[j])
  {
    if |names| > 0 && !Hit(row, names[0]) {
      FirstHitIsFirst(row, names[1..]);
      var rest := names[1..];
      assert forall i :: 1 <= i < |names| ==> names[i] == rest[i - 1];
      if FirstHit(row, rest) != Null {
        var i :| 0 <= i < |rest| && Hit(row, rest[i]) && FirstHit(row, rest) == row[rest[i]]
                 && forall j :: 0 <= j < i ==> !Hit(row, rest[j]);
        assert names[i + 1] == rest[i];
      }
    }
  }

  /** One header search loop: stops at the first name that hits. */
  method FindColumn(row: SheetRow, names: seq<string>) returns (value: Cell)
    ensures value == FirstHit(row, names)
  {
    value := Null;
    var i := 0;
    while i < |names|
      invariant 0 <= i <= |names|
      invariant value == Null
      invariant FirstHit(row, names) == FirstHit(row, names[i..])
    {
      assert names[i..][1..] == names[i + 1..];
      if Hit(row, names[i]) {
        value := row[names[i]];
        break;
      }
      i := i + 1;
    }
  }

  /** `RawComplianceData`: the staff value as found, the other two as text. */
  datatype RawCompliance = RawCompliance(noOfStaffRfb: Cell, cesmpsSubmitted: Option<string>, ohsMeasures: Option<string>)

  /** `value?.toString() ?? null`. */
  function AsText(c: Cell): Option<string>
  {
    match c
    case Undefined => None
    case Null => None
    case CText(s) => Some(s)
    case CNumber(n) => Some(Text.IntToString(n))
  }

  /** The three header searches on the first data row, and the raw record built
      from what they found. */
  method ReadComplianceRow(row: SheetRow) returns (raw: RawCompliance)
    ensures raw == RawCompliance(FirstHit(row, StaffRfbNames), AsText(FirstHit(row, CesmpsNames)),
                                 AsText(FirstHit(row, OhsNames)))
  {
    var staffValue := FindColumn(row, StaffRfbNames);
    var cesmpsValue := FindColumn(row, CesmpsNames);
    var ohsValue := FindColumn(row, OhsNames);
    raw := RawCompliance(staffValue, AsText(cesmpsValue), AsText(ohsValue));
  }

  /** The repeated last spelling of the staff column never changes the result. */
  lemma RepeatedStaffHeaderHarmless(row: SheetRow)
    ensures FirstHit(row, StaffRfbNames) == FirstHit(row, StaffRfbNames[..3])
  {
    assert StaffRfbNames == StaffRfbNames[..3] + [StaffRfbNames[0]];
    FirstHitAppend(row, StaffRfbNames[..3], StaffRfbNames[0]);
  }

  /** Trying again a name already tried, or a name that misses, changes nothing. */
  lemma {:induction false} FirstHitAppend(row: SheetRow, names: seq<string>, x: string)
    requires x in names || !Hit(row, x)
    ensures FirstHit(row, names + [x]) == FirstHit(row, names)
  {
    if |names| > 0 && !Hit(row, names[0]) {
      assert (names + [x])[1..] == names[1..] + [x];
      FirstHitAppend(row, names[1..], x);
    }
  }

  // ---------------------------------------------------------------- compliance status

  /** `parseYesNo`: trimmed, lower-cased 'yes' or 'no'; anything else, and any
      falsy value other than 0, is null. */
  function ParseYesNo(v: Cell): (r: Option<YesNo>)
    ensures r == Some(Yes) <==> v.CText? && Text.Trim(Text.Lower(v.text)) == "yes"
    ensures r == Some(No) <==> v.CText? && Text.Trim(Text.Lower(v.text)) == "no"
  {
    if !Truthy(v) && v != CNumber(0) then None
    else
      var normalized := Text.Trim(Text.Lower(CellString(v)));
      NumberIsNotWord(v);
      if normalized == "yes" then Some(Yes)
      else if normalized == "no" then Some(No)
      else None
  }

  /** The text of a number is never a word: it starts with '-' or a digit,
      which neither trimming nor lower-casing changes. */
  lemma NumberIsNotWord(v: Cell)
    ensures v.CNumber? ==> Text.Trim(Text.Lower(CellString(v))) != "yes" && Text.Trim(Text.Lower(CellString(v))) != "no"
  {
    if v.CNumber? {
      var s := Text.IntToString(v.number);
      assert s[0] == '-' || Text.IsDigit(s[0]);
      var l := Text.Lower(s);
      assert l[0] == s[0];
      TrimKeepsFirst(l);
    }
  }

  /** A string that does not start with whitespace trims to a string with the
      same first character, or to nothing. */
  lemma TrimKeepsFirst(s: string)
    requires |s| > 0 && !Text.IsJsWhitespace(s[0])
    ensures |Text.Trim(s)| == 0 || Text.Trim(s)[0] == s[0]
  {
    assert Text.TrimStartIndex(s, 0) == 0;
  }

  /** The answer in a text or missing compliance field. */
  function TextAnswer(v: Option<string>): Option<YesNo>
  {
    match v
    case Some(s) => ParseYesNo(CText(s))
    case None => ParseYesNo(Null)
  }

  /** The issue a field raises: none for 'Yes', the unknown wording for
      null, the refusal wording for 'No'. */
  function FieldIssue(answer: Option<YesNo>, unknown: ComplianceIssue, refused: ComplianceIssue): seq<ComplianceIssue>
  {
    match answer
    case Some(Yes) => []
    case None => [unknown]
    case Some(No) => [refused]
  }

  /** The record for three parsed answers, at least one of them given. */
  function Decide(staff: Option<YesNo>, cesmps: Option<YesNo>, ohs: Option<YesNo>): PackageCompliance
  {
    var issues := FieldIssue(staff, StaffRfbUnknown, StaffRfbNotSubmitted)
                  + FieldIssue(cesmps, CesmpsUnknown, CesmpsNotSubmitted)
                  + FieldIssue(ohs, OhsUnknown, OhsNotInPlace);
    PackageCompliance(staff, cesmps, ohs, if |issues| == 0 then Compliant else NonCompliant, issues)
  }

  /** What `parseComplianceData` returns. */
  function ComplianceOf(raw: Option<RawCompliance>): PackageCompliance
  {
    match raw
    case None => PackageCompliance(None, None, None, Unknown, [DataNotAvailable])
    case Some(r) =>
      var staff, cesmps, ohs := ParseYesNo(r.noOfStaffRfb), TextAnswer(r.cesmpsSubmitted), TextAnswer(r.ohsMeasures);
      if staff.None? && cesmps.None? && ohs.None? then
        PackageCompliance(staff, cesmps, ohs, Unknown, [FieldsAllBlank])
      else
        Decide(staff, cesmps, ohs)
  }

  /** `parseComplianceData`: the early returns, then the issue checks. */
  method ParseComplianceData(raw: Option<RawCompliance>) returns (c: PackageCompliance)
    ensures c == ComplianceOf(raw)
  {
    if raw.None? {
      return PackageCompliance(None, None, None, Unknown, [DataNotAvailable]);
    }
    var staffRfb := ParseYesNo(raw.value.noOfStaffRfb);
    var cesmps := TextAnswer(raw.value.cesmpsSubmitted);
    var ohs := TextAnswer(raw.value.ohsMeasures);
    if staffRfb.None? && cesmps.None? && ohs.None? {
      return PackageCompliance(staffRfb, cesmps, ohs, Unknown, [FieldsAllBlank]);
    }
    c := CheckFields(staffRfb, cesmps, ohs);
  }

  /** One pushed issue per answer that is not 'Yes', then the status. */
  method CheckFields(staffRfb: Option<YesNo>, cesmps: Option<YesNo>, ohs: Option<YesNo>) returns (c: PackageCompliance)
    ensures c == Decide(staffRfb, cesmps, ohs)
  {
    var issues: seq<ComplianceIssue> := [];
    if staffRfb != Some(Yes) {
      issues := issues + [if staffRfb.None? then StaffRfbUnknown else StaffRfbNotSubmitted];
    }
    assert issues == FieldIssue(staffRfb, StaffRfbUnknown, StaffRfbNotSubmitted);
    if cesmps != Some(Yes) {
      issues := issues + [if cesmps.None? then CesmpsUnknown else CesmpsNotSubmitted];
    }
    assert issues == FieldIssue(staffRfb, StaffRfbUnknown, StaffRfbNotSubmitted)
                     + FieldIssue(cesmps, CesmpsUnknown, CesmpsNotSubmitted);
    if ohs != Some(Yes) {
      issues := issues + [if ohs.None? then OhsUnknown else OhsNotInPlace];
    }
    c := PackageCompliance(staffRfb, cesmps, ohs, if |issues| == 0 then Compliant else NonCompliant, issues);
  }

  /** Number of the three answers that are not 'Yes'. */
  function NotYesCount(a: Option<YesNo>, b: Option<YesNo>, c: Option<YesNo>): nat
  {
    (if a != Some(Yes) then 1 else 0) + (if b != Some(Yes) then 1 else 0) + (if c != Some(Yes) then 1 else 0)
  }

  /** The status rules: unknown without data or with three blank answers,
      compliant exactly when all three answers are 'Yes', and otherwise
      non-compliant with one issue per answer that is not 'Yes'. */
  lemma ComplianceStatusRules(raw: Option<RawCompliance>)
    ensures var c := ComplianceOf(raw);
      && (c.status == Unknown <==> raw.None? || (c.noOfStaffRfb.None? && c.cesmpsSubmitted.None? && c.ohsMeasures.None?))
      && (c.status == Compliant <==>
            raw.Some? && c.noOfStaffRfb == Some(Yes) && c.cesmpsSubmitted == Some(Yes) && c.ohsMeasures == Some(Yes))
      && (c.status == Compliant ==> c.issues == [])
      && (c.status == Unknown ==> |c.issues| == 1)
      && (c.status == NonCompliant ==>
            1 <= |c.issues| == NotYesCount(c.noOfStaffRfb, c.cesmpsSubmitted, c.ohsMeasures) <= 3)
  {
    if raw.Some? {
      var c := ComplianceOf(raw);
      FieldIssueSize(c.noOfStaffRfb, StaffRfbUnknown, StaffRfbNotSubmitted);
      FieldIssueSize(c.cesmpsSubmitted, CesmpsUnknown, CesmpsNotSubmitted);
      FieldIssueSize(c.ohsMeasures, OhsUnknown, OhsNotInPlace);
    }
  }

  lemma FieldIssueSize(answer: Option<YesNo>, unknown: ComplianceIssue, refused: ComplianceIssue)
    ensures |FieldIssue(answer, unknown, refused)| == if answer == Some(Yes) then 0 else 1
  {
  }

  /** A field's issue says whether its answer was missing or 'No', and a
      field answered 'Yes' raises none. */
  lemma IssueWording(staff: Option<YesNo>, cesmps: Option<YesNo>, ohs: Option<YesNo>)
    ensures var c := Decide(staff, cesmps, ohs);
      && (staff.None? <==> StaffRfbUnknown in c.issues)
      && (staff == Some(No) <==> StaffRfbNotSubmitted in c.issues)
      && (cesmps.None? <==> CesmpsUnknown in c.issues)
      && (cesmps == Some(No) <==> CesmpsNotSubmitted in c.issues)
      && (ohs.None? <==> OhsUnknown in c.issues)
      && (ohs == Some(No) <==> OhsNotInPlace in c.issues)
  {
    var a := FieldIssue(staff, StaffRfbUnknown, StaffRfbNotSubmitted);
    var b := FieldIssue(cesmps, CesmpsUnknown, CesmpsNotSubmitted);
    var d := FieldIssue(ohs, OhsUnknown, OhsNotInPlace);
    assert forall x :: x in a + b + d <==> x in a || x in b || x in d;
  }

  // ---------------------------------------------------------------- IPC statuses

  datatype IpcStatus = NotSubmitted | SubmittedStatus | InProcess | Released

  datatype IpcRecord = IpcRecord(ipcNumber: string, status: Option<IpcStatus>)

  function IpcStatusName(s: IpcStatus): string
  {
    match s
    case NotSubmitted => "not submitted"
    case SubmittedStatus => "submitted"
    case InProcess => "in process"
    case Released => "released"
  }

  /** The `v` of a worksheet cell object. */
  datatype CellValue = VText(text: string) | VNumber(number: int) | VBool(flag: bool) | VNull

  /** A worksheet cell: no cell, a cell object without `v`, or one with `v`. */
  datatype SheetCell = NoCell | NoValue | Valued(v: CellValue)

  function ValueTruthy(v: CellValue): bool
  {
    match v
    case VText(s) => s != ""
    case VNumber(n) => n != 0
    case VBool(b) => b
    case VNull => false
  }

  function ValueString(v: CellValue): string
  {
    match v
    case VText(s) => s
    case VNumber(n) => Text.IntToString(n)
    case VBool(b) => if b then "true" else "false"
    case VNull => "null"
  }

  /** `statusRaw`: the trimmed, lower-cased text of a truthy `v`, else null. */
  function StatusRaw(cell: SheetCell): Option<string>
  {
    if cell.Valued? && ValueTruthy(cell.v) then Some(Text.Trim(Text.Lower(ValueString(cell.v)))) else None
  }

  /** The keys of `statusMap`, as the statuses they name. */
  const StatusTable: seq<IpcStatus> := [NotSubmitted, SubmittedStatus, InProcess, Released]

  /** The status whose name is `raw`, if any: a lookup among the map's own keys. */
  function IpcStatusOf(raw: Option<string>): Option<IpcStatus>
  {
    match raw
    case None => None
    case Some(t) => FindStatus(t, StatusTable)
  }

  /** The first status of `table` named `t`. */
  function FindStatus(t: string, table: seq<IpcStatus>): Option<IpcStatus>
  {
    if |table| == 0 then None
    else if IpcStatusName(table[0]) == t then Some(table[0])
    else FindStatus(t, table[1..])
  }

  /** What `statusMap[statusRaw]` yields under `statusRaw in statusMap`: one of
      the four statuses, a member every object inherits, or nothing. */
  datatype MapHit = OwnKey(status: IpcStatus) | InheritedMember(name: string) | NotAKey

  /** The lower-case names every object literal inherits from `Object.prototype`. */
  predicate InheritedName(t: string)
  {
    t == "constructor" || t == "__proto__"
  }

  /** The lookup as written: `in` also sees inherited members. */
  function IpcLookupAsWritten(raw: Option<string>): MapHit
  {
    match raw
    case None => NotAKey
    case Some(t) =>
      if t == "" then NotAKey
      else match IpcStatusOf(raw)
        case Some(s) => OwnKey(s)
        case None => if InheritedName(t) then InheritedMember(t) else NotAKey
  }

  /** A cell reading "Constructor" passes the `in` test and maps to an inherited
      function, which is neither one of the four statuses nor null. */
  lemma InheritedKeyLeaksThrough()
    ensures StatusRaw(Valued(VText("Constructor"))) == Some("constructor")
    ensures IpcLookupAsWritten(StatusRaw(Valued(VText("Constructor")))) == InheritedMember("constructor")
    ensures IpcStatusOf(StatusRaw(Valued(VText("Constructor")))) == None
  {
    assert Text.Lower("Constructor") == "constructor";
    var s := "constructor";
    assert !Text.IsJsWhitespace(s[0]) && !Text.IsJsWhitespace(s[|s| - 1]);
    Text.TrimNoop(s);
    StatusTableLookup(s);
  }

  /** "IPC 1" .. "IPC 6". */
  function IpcName(k: nat): string
  {
    "IPC " + Text.NatToString(k)
  }

  /** The record for column `col` (24..29) of the second row. */
  function IpcRecordAt(cellAt: int -> SheetCell, col: int): IpcRecord
    requires col >= 23
  {
    IpcRecord(IpcName(col - 23), IpcStatusOf(StatusRaw(cellAt(col))))
  }

  /** `parseIPCData`: one record per column 24..29 of the second row.
      `cellAt(c)` is the worksheet cell at that row and column `c`. */
  method ParseIpcData(cellAt: int -> SheetCell) returns (records: seq<IpcRecord>)
    ensures |records| == 6
    ensures forall i :: 0 <= i < 6 ==> records[i] == IpcRecordAt(cellAt, 24 + i)
  {
    records := [];
    for col := 24 to 30
      invariant |records| == col - 24
      invariant forall i :: 0 <= i < |records| ==> records[i] == IpcRecordAt(cellAt, 24 + i)
    {
      var statusRaw := StatusRaw(cellAt(col));
      var ipcNumber := IpcName(col - 23);
      records := records + [IpcRecord(ipcNumber, IpcStatusOf(statusRaw))];
    }
  }

  /** The six records are numbered "IPC 1" to "IPC 6" in column order, and a
      record has a status exactly when its cell's trimmed, lower-cased text is
      one of the four status names. */
  lemma IpcRecordsNamed(cellAt: int -> SheetCell)
    ensures forall col :: 24 <= col < 30 ==> IpcRecordAt(cellAt, col).ipcNumber == "IPC " + [Text.DigitChar(col - 23)]
    ensures forall col, s :: 24 <= col < 30 ==>
              (IpcRecordAt(cellAt, col).status == Some(s) <==> StatusRaw(cellAt(col)) == Some(IpcStatusName(s)))
  {
    forall col, s | 24 <= col < 30
      ensures IpcRecordAt(cellAt, col).status == Some(s) <==> StatusRaw(cellAt(col)) == Some(IpcStatusName(s))
    {
      IpcStatusOfNames(StatusRaw(cellAt(col)), s);
    }
  }

  /** A status is found exactly for its own name. */
  lemma IpcStatusOfNames(raw: Option<string>, s: IpcStatus)
    ensures IpcStatusOf(raw) == Some(s) <==> raw == Some(IpcStatusName(s))
  {
    if raw.Some? {
      StatusTableLookup(raw.value);
    }
  }

  /** The search through the four keys, one key at a time. */
  lemma StatusTableLookup(t: string)
    ensures FindStatus(t, StatusTable) ==
              if t == "not submitted" then Some(NotSubmitted)
              else if t == "submitted" then Some(SubmittedStatus)
              else if t == "in process" then Some(InProcess)
              else if t == "released" then Some(Released)
              else None
  {
    var t3, t2, t1 := [Released], [InProcess, Released], [SubmittedStatus, InProcess, Released];
    assert t3[1..] == [] && t2[1..] == t3 && t1[1..] == t2 && StatusTable[1..] == t1;
    assert FindStatus(t, t3) == if t == "released" then Some(Released) else None;
    assert FindStatus(t, t2) == if t == "in process" then Some(InProcess) else FindStatus(t, t3);
    assert FindStatus(t, t1) == if t == "submitted" then Some(SubmittedStatus) else FindStatus(t, t2);
  }
}
