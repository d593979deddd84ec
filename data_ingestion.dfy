/** The ingestion pipeline of src/lib/backend/data-ingestion.ts with the fetch
    taken out: the rows of every package are given. Rows are mapped to tasks,
    given their derived status, deduplicated by task uid, aggregated into
    sites and checked for integrity. */
module DataIngestion {
  import opened Wrappers
  import opened Types
  import Seqs
  import DataParser
  import DataProcessor
  import SheetsClient
  import ProcessorCases

  // ---------------------------------------------------------------- sources

  /** One configured sheet: the package whose tasks it holds. */
  datatype SheetSource = SheetSource(packageId: string, packageName: string)

  /** The configured sources (src/lib/backend/config.ts). */
  const SheetSources: seq<SheetSource> := [SheetSource("FP1", "Flood Package")]

  /** The fetched rows per package id. */
  type SheetsData = map<string, seq<SheetsClient.SheetRow>>

  /** `sheetsData.get(packageId) || []`. */
  function RowsOf(sheetsData: SheetsData, packageId: string): seq<SheetsClient.SheetRow>
  {
    if packageId in sheetsData then sheetsData[packageId] else []
  }

  /** The tasks the rows of one source map to, in row order. */
  function MappedRows(rows: seq<SheetsClient.SheetRow>, source: SheetSource,
                      parseText: string -> Option<Date>): seq<Task>
  {
    if |rows| == 0 then []
    else
      var task := SheetsClient.MapRowToTask(rows[|rows| - 1], source.packageId, source.packageName, parseText);
      MappedRows(rows[..|rows| - 1], source, parseText) + Found(task)
  }

  /** The tasks of all sources, source after source. */
  function RawTasks(sources: seq<SheetSource>, sheetsData: SheetsData,
                    parseText: string -> Option<Date>): seq<Task>
  {
    if |sources| == 0 then []
    else
      var source := sources[|sources| - 1];
      RawTasks(sources[..|sources| - 1], sheetsData, parseText)
        + MappedRows(RowsOf(sheetsData, source.packageId), source, parseText)
  }

  /** The number of rows over all sources. */
  function TotalRows(sources: seq<SheetSource>, sheetsData: SheetsData): nat
  {
    if |sources| == 0 then 0
    else TotalRows(sources[..|sources| - 1], sheetsData) + |RowsOf(sheetsData, sources[|sources| - 1].packageId)|
  }

  /** The two nested loops of step 2: every row is counted, and every row
      that maps to a task adds that task. */
  method MapAllRows(sources: seq<SheetSource>, sheetsData: SheetsData, parseText: string -> Option<Date>)
      returns (rawTasks: seq<Task>, totalRawRows: nat)
    ensures rawTasks == RawTasks(sources, sheetsData, parseText)
    ensures totalRawRows == TotalRows(sources, sheetsData)
  {
    rawTasks, totalRawRows := [], 0;
    for s := 0 to |sources|
      invariant rawTasks == RawTasks(sources[..s], sheetsData, parseText)
      invariant totalRawRows == TotalRows(sources[..s], sheetsData)
    {
      var source := sources[s];
      var rows := RowsOf(sheetsData, source.packageId);
      totalRawRows := totalRawRows + |rows|;
      rawTasks := MapSourceRows(rawTasks, rows, source, parseText);
      assert sources[..s + 1][..s] == sources[..s];
    }
    assert sources[..|sources|] == sources;
  }

  /** The inner `forEach` of step 2: pushes the task of every row that maps to one. */
  method MapSourceRows(rawTasks: seq<Task>, rows: seq<SheetsClient.SheetRow>, source: SheetSource,
                       parseText: string -> Option<Date>)
      returns (pushed: seq<Task>)
    ensures pushed == rawTasks + MappedRows(rows, source, parseText)
  {
    pushed := rawTasks;
    for j := 0 to |rows|
      invariant pushed == rawTasks + MappedRows(rows[..j], source, parseText)
    {
      var task := SheetsClient.MapRowToTask(rows[j], source.packageId, source.packageName, parseText);
      ghost var before := pushed;
      if task.Some? {
        pushed := pushed + [task.value];
      }
      assert pushed == before + Found(task);
      MappedRowsStep(rawTasks, rows, j, source, parseText);
    }
    assert rows[..|rows|] == rows;
  }

  /** The task of a row that maps to one, as a sequence of zero or one tasks. */
  function Found(task: Option<Task>): seq<Task>
  {
    if task.Some? then [task.value] else []
  }

  /** Mapping one more row appends that row's task, if it has one, after
      whatever was pushed before. */
  lemma MappedRowsStep(rawTasks: seq<Task>, rows: seq<SheetsClient.SheetRow>, j: nat, source: SheetSource,
                       parseText: string -> Option<Date>)
    requires j < |rows|
    ensures rawTasks + MappedRows(rows[..j + 1], source, parseText)
              == rawTasks + MappedRows(rows[..j], source, parseText)
                 + Found(SheetsClient.MapRowToTask(rows[j], source.packageId, source.packageName, parseText))
  {
    var found := Found(SheetsClient.MapRowToTask(rows[j], source.packageId, source.packageName, parseText));
    assert rows[..j + 1][..j] == rows[..j];
    assert MappedRows(rows[..j + 1], source, parseText) == MappedRows(rows[..j], source, parseText) + found;
  }

  /** The test under which `mapRowToTask` keeps a row: a site id under either header. */
  function HasSiteId(row: SheetsClient.SheetRow): bool
  {
    SheetsClient.Truthy(SheetsClient.Lookup(row, "Site ID")) || SheetsClient.Truthy(SheetsClient.Lookup(row, "site_id"))
  }

  /** A row contributes a task exactly when it has a site id. */
  lemma {:induction false} MappedRowsCount(rows: seq<SheetsClient.SheetRow>, source: SheetSource,
                                           parseText: string -> Option<Date>)
    ensures |MappedRows(rows, source, parseText)| == |Seqs.Filter(rows, HasSiteId)|
  {
    if |rows| > 0 {
      MappedRowsCount(rows[..|rows| - 1], source, parseText);
    }
  }

  /** Every task is the mapping of one of the rows and carries the source's package. */
  lemma {:induction false} MappedRowsOrigin(rows: seq<SheetsClient.SheetRow>, source: SheetSource,
                                            parseText: string -> Option<Date>)
    ensures forall t :: t in MappedRows(rows, source, parseText) ==>
              exists row :: row in rows && SheetsClient.MapRowToTask(row, source.packageId, source.packageName, parseText) == Some(t)
    ensures forall t :: t in MappedRows(rows, source, parseText) ==>
              t.packageId == source.packageId && t.packageName == source.packageName
  {
    if |rows| > 0 {
      var init, last := rows[..|rows| - 1], rows[|rows| - 1];
      MappedRowsOrigin(init, source, parseText);
      var found := Found(SheetsClient.MapRowToTask(last, source.packageId, source.packageName, parseText));
      assert MappedRows(rows, source, parseText) == MappedRows(init, source, parseText) + found;
      forall t | t in MappedRows(rows, source, parseText)
        ensures exists row :: row in rows && SheetsClient.MapRowToTask(row, source.packageId, source.packageName, parseText) == Some(t)
        ensures t.packageId == source.packageId && t.packageName == source.packageName
      {
        if t in MappedRows(init, source, parseText) {
          var row :| row in init && SheetsClient.MapRowToTask(row, source.packageId, source.packageName, parseText) == Some(t);
          assert row in rows;
        } else {
          assert t in found;
          assert last in rows;
        }
      }
    }
  }

  /** Rows without a site id are dropped, so there are never more tasks than
      rows, and every task belongs to one of the configured packages. */
  lemma {:induction false} RawTasksSpec(sources: seq<SheetSource>, sheetsData: SheetsData,
                                        parseText: string -> Option<Date>)
    ensures |RawTasks(sources, sheetsData, parseText)| <= TotalRows(sources, sheetsData)
    ensures forall t :: t in RawTasks(sources, sheetsData, parseText) ==>
              exists s :: s in sources && t.packageId == s.packageId && t.packageName == s.packageName
  {
    if |sources| > 0 {
      var init, source := sources[..|sources| - 1], sources[|sources| - 1];
      var rows := RowsOf(sheetsData, source.packageId);
      RawTasksSpec(init, sheetsData, parseText);
      MappedRowsCount(rows, source, parseText);
      MappedRowsOrigin(rows, source, parseText);
      assert source in sources;
      forall t | t in RawTasks(init, sheetsData, parseText)
        ensures exists s :: s in sources && t.packageId == s.packageId && t.packageName == s.packageName
      {
        var s :| s in init && t.packageId == s.packageId && t.packageName == s.packageName;
        assert s in sources;
      }
    }
  }

  // ---------------------------------------------------------------- status

  /** Step 3: `rawTasks.map(computeTaskStatus)`. */
  function WithStatus(rawTasks: seq<Task>, now: Date): seq<TaskWithStatus>
  {
    if |rawTasks| == 0 then []
    else WithStatus(rawTasks[..|rawTasks| - 1], now) + [DataParser.TaskStatusOf(rawTasks[|rawTasks| - 1], now)]
  }

  method ComputeStatuses(rawTasks: seq<Task>, now: Date) returns (tasksWithStatus: seq<TaskWithStatus>)
    ensures tasksWithStatus == WithStatus(rawTasks, now)
  {
    tasksWithStatus := [];
    for i := 0 to |rawTasks|
      invariant tasksWithStatus == WithStatus(rawTasks[..i], now)
    {
      var t := DataParser.ComputeTaskStatus(rawTasks[i], now);
      tasksWithStatus := tasksWithStatus + [t];
      WithStatusStep(rawTasks, i, now);
    }
    assert rawTasks[..|rawTasks|] == rawTasks;
  }

  /** Computing the status of one more task appends exactly that task's record. */
  lemma WithStatusStep(rawTasks: seq<Task>, i: nat, now: Date)
    requires i < |rawTasks|
    ensures WithStatus(rawTasks[..i + 1], now) == WithStatus(rawTasks[..i], now) + [DataParser.TaskStatusOf(rawTasks[i], now)]
  {
    assert rawTasks[..i + 1][..i] == rawTasks[..i];
  }

  // ---------------------------------------------------------------- dedup

  /** The task uids of a list of tasks. */
  function UidSet(ts: seq<TaskWithStatus>): set<string>
  {
    set t | t in ts :: t.taskUid
  }

  /** Step 4: the first task of each uid, in order of first occurrence. */
  function FirstByUid(tasks: seq<TaskWithStatus>): seq<TaskWithStatus>
  {
    if |tasks| == 0 then []
    else
      var kept := FirstByUid(tasks[..|tasks| - 1]);
      var t := tasks[|tasks| - 1];
      if t.taskUid in UidSet(kept) then kept else kept + [t]
  }

  /** `Array.from(taskMap.values())` for a map whose insertion order is `order`. */
  function ValuesInOrder(taskMap: map<string, TaskWithStatus>, order: seq<string>): seq<TaskWithStatus>
    requires forall u :: u in order ==> u in taskMap
  {
    seq(|order|, k requires 0 <= k < |order| => taskMap[order[k]])
  }

  /** The `forEach` of step 4: a task is stored only if its uid is not in the
      map yet; `order` is the map's insertion order. */
  method Deduplicate(tasksWithStatus: seq<TaskWithStatus>) returns (tasks: seq<TaskWithStatus>)
    ensures tasks == FirstByUid(tasksWithStatus)
  {
    var taskMap: map<string, TaskWithStatus> := map[];
    var order: seq<string> := [];
    for i := 0 to |tasksWithStatus|
      invariant StoredInOrder(taskMap, order)
      invariant ValuesInOrder(taskMap, order) == FirstByUid(tasksWithStatus[..i])
    {
      var task := tasksWithStatus[i];
      assert tasksWithStatus[..i + 1][..i] == tasksWithStatus[..i];
      SeenIffKept(taskMap, order, task.taskUid);
      if task.taskUid !in taskMap {
        StoreFirst(taskMap, order, task);
        taskMap := taskMap[task.taskUid := task];
        order := order + [task.taskUid];
      }
    }
    tasks := ValuesInOrder(taskMap, order);
    assert tasksWithStatus[..|tasksWithStatus|] == tasksWithStatus;
  }

  /** The map holds exactly the uids of `order`, once each, every uid keyed
      to a task of that uid. */
  ghost predicate StoredInOrder(taskMap: map<string, TaskWithStatus>, order: seq<string>)
  {
    (forall u :: u in taskMap <==> u in order)
    && Seqs.Distinct(order)
    && (forall k :: 0 <= k < |order| ==> taskMap[order[k]].taskUid == order[k])
  }

  /** `taskMap.has(uid)` tells whether a task of that uid was already kept. */
  lemma SeenIffKept(taskMap: map<string, TaskWithStatus>, order: seq<string>, uid: string)
    requires StoredInOrder(taskMap, order)
    ensures uid in taskMap <==> uid in UidSet(ValuesInOrder(taskMap, order))
  {
    var kept := ValuesInOrder(taskMap, order);
    if uid in UidSet(kept) {
      var k :| 0 <= k < |kept| && kept[k].taskUid == uid;
      assert kept[k] == taskMap[order[k]];
    }
    if uid in taskMap {
      var k :| 0 <= k < |order| && order[k] == uid;
      assert kept[k] in kept;
    }
  }

  /** Storing a task of a new uid appends it to the values in insertion order. */
  lemma StoreFirst(taskMap: map<string, TaskWithStatus>, order: seq<string>, task: TaskWithStatus)
    requires StoredInOrder(taskMap, order) && task.taskUid !in taskMap
    ensures StoredInOrder(taskMap[task.taskUid := task], order + [task.taskUid])
    ensures ValuesInOrder(taskMap[task.taskUid := task], order + [task.taskUid])
              == ValuesInOrder(taskMap, order) + [task]
  {
    var m, o := taskMap[task.taskUid := task], order + [task.taskUid];
    assert forall k :: 0 <= k < |order| ==> m[o[k]] == taskMap[order[k]];
  }

  /** Appending a common last element keeps a subsequence one. */
  lemma SubsequenceSnoc<T>(a: seq<T>, b: seq<T>, x: T)
    requires Seqs.Subsequence(a, b)
    ensures Seqs.Subsequence(a + [x], b + [x])
  {
    assert (a + [x])[..|a|] == a;
    assert (b + [x])[..|b|] == b;
  }

  /** The deduplicated list keeps every uid of the input, and each only once. */
  lemma {:induction false} FirstByUidUnique(tasks: seq<TaskWithStatus>)
    ensures UidSet(FirstByUid(tasks)) == UidSet(tasks)
    ensures var r := FirstByUid(tasks);
      forall i, j :: 0 <= i < j < |r| ==> r[i].taskUid != r[j].taskUid
  {
    if |tasks| > 0 {
      var init, t := tasks[..|tasks| - 1], tasks[|tasks| - 1];
      assert tasks == init + [t];
      FirstByUidUnique(init);
      var kept := FirstByUid(init);
      assert UidSet(tasks) == UidSet(init) + {t.taskUid};
      if t.taskUid !in UidSet(kept) {
        var r := kept + [t];
        assert UidSet(r) == UidSet(kept) + {t.taskUid};
        forall i, j | 0 <= i < j < |r|
          ensures r[i].taskUid != r[j].taskUid
        {
          if j == |kept| {
            assert r[i] in kept;
          }
        }
      }
    }
  }

  /** The deduplicated list keeps the tasks in input order. */
  lemma {:induction false} FirstByUidInOrder(tasks: seq<TaskWithStatus>)
    ensures Seqs.Subsequence(FirstByUid(tasks), tasks)
  {
    if |tasks| > 0 {
      var init, t := tasks[..|tasks| - 1], tasks[|tasks| - 1];
      assert tasks == init + [t];
      FirstByUidInOrder(init);
      var kept := FirstByUid(init);
      if t.taskUid in UidSet(kept) {
        Seqs.SubsequenceDropLast(kept, tasks);
      } else {
        SubsequenceSnoc(kept, init, t);
      }
    }
  }

  /** Each kept task is the first input task with its uid: first write wins. */
  lemma {:induction false} FirstByUidFirstWins(tasks: seq<TaskWithStatus>)
    ensures var r := FirstByUid(tasks);
      forall k :: 0 <= k < |r| ==>
        exists i :: 0 <= i < |tasks| && tasks[i] == r[k] && forall j :: 0 <= j < i ==> tasks[j].taskUid != r[k].taskUid
  {
    if |tasks| > 0 {
      var init, t := tasks[..|tasks| - 1], tasks[|tasks| - 1];
      FirstByUidFirstWins(init);
      FirstByUidUnique(init);
      var kept := FirstByUid(init);
      var r := FirstByUid(tasks);
      forall k | 0 <= k < |r|
        ensures exists i :: 0 <= i < |tasks| && tasks[i] == r[k] && forall j :: 0 <= j < i ==> tasks[j].taskUid != r[k].taskUid
      {
        if k < |kept| {
          var i :| 0 <= i < |init| && init[i] == kept[k] && forall j :: 0 <= j < i ==> init[j].taskUid != kept[k].taskUid;
          assert tasks[i] == r[k];
        } else {
          forall j | 0 <= j < |init|
            ensures tasks[j].taskUid != t.taskUid
          {
            assert init[j] in init;
          }
          assert tasks[|tasks| - 1] == r[k];
        }
      }
    }
  }

  // ---------------------------------------------------------------- integrity

  /** The error each failing integrity assertion throws. */
  datatype IntegrityError =
    | SiteCountMismatch(uniqueSiteUids: nat, aggregatedSites: nat)
    | KpiSiteCountMismatch(totalSites: nat, aggregatedSites: nat)
    | FullProgressButIncomplete(siteNames: seq<string>)
    | NegativeProgress(count: nat)

  /** `new Set(tasks.map(t => t.site_uid))`. */
  function SiteUidSet(tasks: seq<TaskWithStatus>): set<string>
  {
    set t | t in tasks :: t.siteUid
  }

  /** A site that shows (nearly) full progress while one of its tasks is not completed. */
  predicate FalselyComplete(site: SiteAggregate)
  {
    site.weightedProgress >= 99.9 && exists t :: t in site.tasks && t.status != Completed
  }

  predicate HasNegativeProgress(t: TaskWithStatus)
  {
    DataProcessor.ProgressOrZero(t) < 0.0
  }

  function SiteNames(sites: seq<SiteAggregate>): (r: seq<string>)
    ensures |r| == |sites|
  {
    seq(|sites|, i requires 0 <= i < |sites| => sites[i].siteName)
  }

  /** The verdict of `validateDataIntegrity`: the four assertions in order,
      the first that fails decides the error. */
  function IntegrityOf(tasks: seq<TaskWithStatus>, sites: seq<SiteAggregate>, kpis: DashboardKPIs)
    : (r: Outcome<IntegrityError>)
    ensures r.Pass? <==>
              && |SiteUidSet(tasks)| == |sites|
              && kpis.totalSites == |sites|
              && (forall s :: s in sites ==> !FalselyComplete(s))
              && (forall t :: t in tasks ==> !HasNegativeProgress(t))
    ensures r == Fail(SiteCountMismatch(|SiteUidSet(tasks)|, |sites|)) <==> |SiteUidSet(tasks)| != |sites|
    ensures r.Fail? && r.error.KpiSiteCountMismatch? <==>
              |SiteUidSet(tasks)| == |sites| && kpis.totalSites != |sites|
    ensures r == Fail(FullProgressButIncomplete(SiteNames(Seqs.Filter(sites, FalselyComplete)))) <==>
              && |SiteUidSet(tasks)| == |sites|
              && kpis.totalSites == |sites|
              && (exists s :: s in sites && FalselyComplete(s))
    ensures r == Fail(NegativeProgress(|Seqs.Filter(tasks, HasNegativeProgress)|)) <==>
              && |SiteUidSet(tasks)| == |sites|
              && kpis.totalSites == |sites|
              && (forall s :: s in sites ==> !FalselyComplete(s))
              && (exists t :: t in tasks && HasNegativeProgress(t))
  {
    var invalidSites := Seqs.Filter(sites, FalselyComplete);
    var negativeProgress := Seqs.Filter(tasks, HasNegativeProgress);
    FilterEmptyIffNone(sites, FalselyComplete);
    FilterEmptyIffNone(tasks, HasNegativeProgress);
    if |SiteUidSet(tasks)| != |sites| then Fail(SiteCountMismatch(|SiteUidSet(tasks)|, |sites|))
    else if kpis.totalSites != |sites| then Fail(KpiSiteCountMismatch(kpis.totalSites, |sites|))
    else if |invalidSites| > 0 then Fail(FullProgressButIncomplete(SiteNames(invalidSites)))
    else if |negativeProgress| > 0 then Fail(NegativeProgress(|negativeProgress|))
    else Pass
  }

  /** A filter comes back empty exactly when no element passes. */
  lemma FilterEmptyIffNone<T>(s: seq<T>, p: T -> bool)
    ensures |Seqs.Filter(s, p)| == 0 <==> forall x :: x in s ==> !p(x)
  {
    if |Seqs.Filter(s, p)| == 0 {
      forall x | x in s
        ensures !p(x)
      {
        Seqs.FilterMembership(s, p, x);
      }
    } else {
      var x := Seqs.Filter(s, p)[0];
      Seqs.FilterMembership(s, p, x);
    }
  }

  /** `validateDataIntegrity`: each assertion in turn, returning at the first
      that fails. */
  method ValidateDataIntegrity(tasks: seq<TaskWithStatus>, sites: seq<SiteAggregate>, kpis: DashboardKPIs)
      returns (outcome: Outcome<IntegrityError>)
    ensures outcome == IntegrityOf(tasks, sites, kpis)
  {
    var uniqueSiteUids := set t | t in tasks :: t.siteUid;
    if |uniqueSiteUids| != |sites| {
      return Fail(SiteCountMismatch(|uniqueSiteUids|, |sites|));
    }
    if kpis.totalSites != |sites| {
      return Fail(KpiSiteCountMismatch(kpis.totalSites, |sites|));
    }
    var invalidSites := Seqs.Filter(sites, FalselyComplete);
    if |invalidSites| > 0 {
      return Fail(FullProgressButIncomplete(SiteNames(invalidSites)));
    }
    var negativeProgress := Seqs.Filter(tasks, HasNegativeProgress);
    if |negativeProgress| > 0 {
      return Fail(NegativeProgress(|negativeProgress|));
    }
    return Pass;
  }

  /** With sites and KPIs built from the same tasks, the KPI site-count
      assertion can never fail, and the site-count assertion fails exactly
      when the tasks have more distinct site uids than site keys or fewer. */
  lemma IngestedSiteChecks(tasks: seq<TaskWithStatus>)
    ensures var r := IntegrityOf(tasks, DataProcessor.GroupBySite(tasks), DataProcessor.KPIsOf(tasks));
      && !(r.Fail? && r.error.KpiSiteCountMismatch?)
      && (r.Fail? && r.error.SiteCountMismatch? <==> |SiteUidSet(tasks)| != |DataProcessor.KeySet(tasks)|)
  {
    DataProcessor.SiteCount(tasks);
  }

  /** Site uids of one package and site id but two districts differ, while
      their site keys agree. */
  lemma DistrictSplitsUidNotKey(a: Task, b: Task, now: Date)
    requires a.packageId == b.packageId && a.siteId == b.siteId && a.district != b.district
    ensures DataParser.TaskStatusOf(a, now).siteUid != DataParser.TaskStatusOf(b, now).siteUid
    ensures DataParser.TaskStatusOf(a, now).siteKey == DataParser.TaskStatusOf(b, now).siteKey
  {
    var ua, ub := DataParser.SiteUid(a), DataParser.SiteUid(b);
    var p, rest := a.packageId + "|", "|" + a.siteId;
    assert ua == p + a.district + rest;
    assert ub == p + b.district + rest;
    if |a.district| == |b.district| {
      assert ua[|p|..|p| + |a.district|] == a.district;
      assert ub[|p|..|p| + |a.district|] == b.district;
    }
  }

  /** Two tasks with one site key but two site uids make the site-count
      assertion throw: two site uids against one aggregated site. */
  lemma TwoUidsOneSite(ta: TaskWithStatus, tb: TaskWithStatus)
    requires ta.siteKey == tb.siteKey && ta.siteUid != tb.siteUid
    ensures var tasks := [ta, tb];
      IntegrityOf(tasks, DataProcessor.GroupBySite(tasks), DataProcessor.KPIsOf(tasks)) == Fail(SiteCountMismatch(2, 1))
  {
    var tasks := [ta, tb];
    TwoSiteUids(ta, tb);
    OneSiteOfTwo(ta, tb);
    var sites := DataProcessor.GroupBySite(tasks);
    assert |SiteUidSet(tasks)| != |sites|;
  }

  /** Two different site uids make two. */
  lemma TwoSiteUids(ta: TaskWithStatus, tb: TaskWithStatus)
    requires ta.siteUid != tb.siteUid
    ensures |SiteUidSet([ta, tb])| == 2
  {
    assert SiteUidSet([ta, tb]) == {ta.siteUid, tb.siteUid};
  }

  /** Two tasks under one site key group into one site. */
  lemma OneSiteOfTwo(ta: TaskWithStatus, tb: TaskWithStatus)
    requires ta.siteKey == tb.siteKey
    ensures |DataProcessor.GroupBySite([ta, tb])| == 1
  {
    ProcessorCases.OneKeyOneSite([ta, tb], ta.siteKey);
    DataProcessor.SiteCount([ta, tb]);
  }

  /** A lone task at a progress of at least 99.9 that is not completed shows
      that progress on its site, so the 99.9 assertion throws. */
  lemma AlmostDoneSiteThrows(t: TaskWithStatus)
    requires t.task.progressPct.Some? && 99.9 <= t.task.progressPct.value <= 100.0 && t.status != Completed
    requires t.weight >= 0.0
    ensures var tasks := [t];
      IntegrityOf(tasks, DataProcessor.GroupBySite(tasks), DataProcessor.KPIsOf(tasks)).Fail?
  {
    var tasks := [t];
    ProcessorCases.SingleSiteGroup(tasks, t.siteKey);
    LoneTaskProgress(t);
    var site := DataProcessor.GroupBySite(tasks)[0];
    assert site.weightedProgress == t.task.progressPct.value;
    assert t in site.tasks;
    assert FalselyComplete(site);
  }

  /** A site of one task with a percentage progress shows exactly that progress. */
  lemma LoneTaskProgress(t: TaskWithStatus)
    requires t.task.progressPct.Some? && 0.0 <= t.task.progressPct.value <= 100.0 && t.weight >= 0.0
    ensures DataProcessor.WeightedProgress([t]) == t.task.progressPct.value
  {
    Seqs.SumSingle(t, DataProcessor.ProgressTerm);
    Seqs.SumSingle(t, DataProcessor.WeightOrOne);
    var p, w := t.task.progressPct.value, DataProcessor.WeightOrOne(t);
    assert w > 0.0;
    assert p * w / w == p;
  }

  /** Such a task exists: a progress in [99.9, 100) without an actual finish
      does not make a task completed. */
  lemma AlmostDoneIsNotCompleted(a: Task, now: Date)
    requires a.progressPct.Some? && a.progressPct.value < 100.0 && a.actualFinish.None?
    ensures DataParser.TaskStatusOf(a, now).status != Completed
  {
  }

  /** With every site-normalised weight at 1 the risk score is the plain mean
      of the task risks. */
  lemma UnitNormRiskIsMean(ts: seq<TaskWithStatus>)
    requires |ts| > 0 && forall t :: t in ts ==> t.taskWeightNormSite == 1.0
    ensures DataProcessor.RiskScore(ts) == Seqs.Sum(ts, DataProcessor.RiskOf) / |ts| as real
  {
    var n := |ts| as real;
    assert Seqs.Sum(ts, DataProcessor.NormWeight) == n by {
      Seqs.SumConstant(ts, DataProcessor.NormWeight, 1.0);
    }
    assert Seqs.Sum(ts, DataProcessor.RiskTerm) == Seqs.Sum(ts, DataProcessor.RiskOf) by {
      forall t | t in ts
        ensures DataProcessor.RiskTerm(t) == DataProcessor.RiskOf(t)
      {
        assert t.taskWeightNormSite == 1.0;
      }
      Seqs.SumExtensional(ts, DataProcessor.RiskTerm, DataProcessor.RiskOf);
    }
    assert n > 0.0;
  }

  /** This path never normalises weights: every ingested task keeps a
      site-normalised weight of 1. */
  lemma IngestedNormWeightsOne(rawTasks: seq<Task>, now: Date)
    ensures forall t :: t in FirstByUid(WithStatus(rawTasks, now)) ==> t.taskWeightNormSite == 1.0
  {
    var withStatus := WithStatus(rawTasks, now);
    StatusNormWeightsOne(rawTasks, now);
    FirstByUidInOrder(withStatus);
    forall t | t in FirstByUid(withStatus)
      ensures t.taskWeightNormSite == 1.0
    {
      SubsequenceMembers(FirstByUid(withStatus), withStatus, t);
    }
  }

  /** Every record of step 3 has a site-normalised weight of 1. */
  lemma {:induction false} StatusNormWeightsOne(rawTasks: seq<Task>, now: Date)
    ensures forall t :: t in WithStatus(rawTasks, now) ==> t.taskWeightNormSite == 1.0
  {
    if |rawTasks| > 0 {
      StatusNormWeightsOne(rawTasks[..|rawTasks| - 1], now);
      DataParser.WeightAtLeastOne(rawTasks[|rawTasks| - 1], now);
    }
  }

  /** So a site's risk score there is the plain mean of its tasks' risks. */
  lemma UnweightedSiteRisk(tasks: seq<TaskWithStatus>, i: nat)
    requires forall t :: t in tasks ==> t.taskWeightNormSite == 1.0
    requires i < |DataProcessor.GroupBySite(tasks)|
    ensures var site := DataProcessor.GroupBySite(tasks)[i];
      |site.tasks| > 0 && site.riskScore == Seqs.Sum(site.tasks, DataProcessor.RiskOf) / |site.tasks| as real
  {
    var key := DataProcessor.SiteKeys(tasks)[i];
    DataProcessor.GroupBySiteAt(tasks, i);
    var ts := DataProcessor.SiteTasks(tasks, key);
    forall t | t in ts
      ensures t.taskWeightNormSite == 1.0
    {
      Seqs.FilterMembership(tasks, DataProcessor.OnSite(key), t);
    }
    UnitNormRiskIsMean(ts);
  }

  /** Every element of a subsequence is an element of the whole. */
  lemma {:induction false} SubsequenceMembers<T>(a: seq<T>, b: seq<T>, x: T)
    requires Seqs.Subsequence(a, b) && x in a
    ensures x in b
    decreases |b|
  {
    if a[|a| - 1] == b[|b| - 1] {
      if x != a[|a| - 1] {
        assert x in a[..|a| - 1];
        SubsequenceMembers(a[..|a| - 1], b[..|b| - 1], x);
      }
    } else {
      SubsequenceMembers(a, b[..|b| - 1], x);
    }
    assert b == b[..|b| - 1] + [b[|b| - 1]];
  }

  // ---------------------------------------------------------------- ingestion

  datatype Metadata = Metadata(totalRawRows: nat, validTasks: nat, uniqueSites: nat, packages: seq<string>)

  datatype IngestedData = IngestedData(
    tasks: seq<TaskWithStatus>,
    sites: seq<SiteAggregate>,
    kpis: DashboardKPIs,
    packageCompliance: map<string, PackageCompliance>,
    lastRefresh: Date,
    metadata: Metadata)

  function PackageIds(sources: seq<SheetSource>): (r: seq<string>)
    ensures |r| == |sources|
  {
    seq(|sources|, i requires 0 <= i < |sources| => sources[i].packageId)
  }

  /** The deduplicated tasks ingestion produces from the given rows at time `now`. */
  function IngestedTasks(sources: seq<SheetSource>, sheetsData: SheetsData, now: Date,
                         parseText: string -> Option<Date>): seq<TaskWithStatus>
  {
    FirstByUid(WithStatus(RawTasks(sources, sheetsData, parseText), now))
  }

  /** `ingestAllSheets` after the fetch: steps 2 to 7 and the result record.
      The KPI site-count assertion never throws; the other three decide. */
  method IngestAllSheets(sources: seq<SheetSource>, sheetsData: SheetsData,
                         complianceData: map<string, PackageCompliance>,
                         now: Date, parseText: string -> Option<Date>)
      returns (r: Result<IngestedData, IntegrityError>)
    ensures var tasks := IngestedTasks(sources, sheetsData, now, parseText);
      var sites := DataProcessor.GroupBySite(tasks);
      && (r.Ok? <==> IntegrityOf(tasks, sites, DataProcessor.KPIsOf(tasks)).Pass?)
      && (r.Err? ==> IntegrityOf(tasks, sites, DataProcessor.KPIsOf(tasks)) == Fail(r.error))
      && (r.Err? ==> !r.error.KpiSiteCountMismatch?)
      && (r.Ok? ==> r.value == IngestedData(tasks, sites, DataProcessor.KPIsOf(tasks), complianceData, now,
                                             Metadata(TotalRows(sources, sheetsData), |tasks|, |sites|, PackageIds(sources))))
      && (r.Ok? ==> r.value.metadata.uniqueSites == r.value.kpis.totalSites == |DataProcessor.KeySet(tasks)|)
  {
    var packageCompliance := complianceData;
    var rawTasks, totalRawRows := MapAllRows(sources, sheetsData, parseText);
    var tasksWithStatus := ComputeStatuses(rawTasks, now);
    var tasks := Deduplicate(tasksWithStatus);
    var sites := DataProcessor.GroupTasksBySite(tasks);
    var kpis := DataProcessor.ComputeKPIs(tasks);
    var outcome := ValidateDataIntegrity(tasks, sites, kpis);
    IngestedSiteChecks(tasks);
    DataProcessor.SiteCount(tasks);
    if outcome.Fail? {
      return Err(outcome.error);
    }
    var packages := PackageIds(sources);
    r := Ok(IngestedData(tasks, sites, kpis, packageCompliance, now,
                         Metadata(totalRawRows, |tasks|, |sites|, packages)));
  }
}
