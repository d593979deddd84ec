/** Aggregation over classified tasks: per-site weight normalisation, grouping
    into site aggregates, portfolio KPIs, the filter predicate and the filter
    options. */
module DataProcessor {
  import opened Wrappers
  import opened Types
  import Seqs
  import Text
  import DataParser

  // ---------------------------------------------------------------- weights

  /** `task.site_uid || task.siteKey`: the key weights are normalised under. */
  function NormKey(t: TaskWithStatus): string
  {
    if t.siteUid != "" then t.siteUid else t.siteKey
  }

  /** A task's final weight when it is normalised under `key`, else 0. */
  function FinalOn(key: string): TaskWithStatus -> real
  {
    (t: TaskWithStatus) => if NormKey(t) == key then t.taskWeightFinal else 0.0
  }

  /** The total final weight `siteWeights` holds for `key` after a pass over `tasks`. */
  function SiteWeightTotal(tasks: seq<TaskWithStatus>, key: string): real
  {
    Seqs.Sum(tasks, FinalOn(key))
  }

  /** `siteWeights.get(siteKey) || 1`: a zero total divides by 1. */
  function NonZeroOrOne(total: real): real
  {
    if total == 0.0 then 1.0 else total
  }

  /** One task with its site-normalised weight; no other field changes. */
  function WithNormWeight(tasks: seq<TaskWithStatus>, t: TaskWithStatus): (r: TaskWithStatus)
    ensures r.(taskWeightNormSite := t.taskWeightNormSite) == t
    ensures NormKey(r) == NormKey(t)
  {
    t.(taskWeightNormSite := t.taskWeightFinal / NonZeroOrOne(SiteWeightTotal(tasks, NormKey(t))))
  }

  /** The list `normalizeSiteWeights` returns: every task, in order, re-weighted. */
  function NormalizedWeights(tasks: seq<TaskWithStatus>): (r: seq<TaskWithStatus>)
    ensures |r| == |tasks|
  {
    seq(|tasks|, i requires 0 <= i < |tasks| => WithNormWeight(tasks, tasks[i]))
  }

  /** `normalizeSiteWeights`: totals the final weights per site in a map, then
      divides each task's final weight by its site's total. */
  method NormalizeSiteWeights(tasks: seq<TaskWithStatus>) returns (r: seq<TaskWithStatus>)
    ensures r == NormalizedWeights(tasks)
  {
    var siteWeights := TotalSiteWeights(tasks);
    ghost var expected := NormalizedWeights(tasks);
    r := [];
    var i := 0;
    while i < |tasks|
      invariant 0 <= i <= |tasks|
      invariant r == expected[..i]
    {
      var siteKey := if tasks[i].siteUid != "" then tasks[i].siteUid else tasks[i].siteKey;
      var siteTotal := if siteKey in siteWeights && siteWeights[siteKey] != 0.0 then siteWeights[siteKey] else 1.0;
      assert siteTotal == NonZeroOrOne(SiteWeightTotal(tasks, NormKey(tasks[i])));
      Seqs.PrefixSnoc(expected, i);
      r := r + [tasks[i].(taskWeightNormSite := tasks[i].taskWeightFinal / siteTotal)];
      i := i + 1;
    }
    assert expected[..|tasks|] == expected;
  }

  /** The first loop of `normalizeSiteWeights`: the total final weight of
      every site key that occurs. */
  method TotalSiteWeights(tasks: seq<TaskWithStatus>) returns (siteWeights: map<string, real>)
    ensures forall k :: k in siteWeights ==> siteWeights[k] == SiteWeightTotal(tasks, k)
    ensures forall k :: k !in siteWeights ==> SiteWeightTotal(tasks, k) == 0.0
  {
    siteWeights := map[];
    var i := 0;
    while i < |tasks|
      invariant 0 <= i <= |tasks|
      invariant forall k :: k in siteWeights ==> siteWeights[k] == SiteWeightTotal(tasks[..i], k)
      invariant forall k :: k !in siteWeights ==> SiteWeightTotal(tasks[..i], k) == 0.0
    {
      var siteKey := if tasks[i].siteUid != "" then tasks[i].siteUid else tasks[i].siteKey;
      var currentTotal := if siteKey in siteWeights then siteWeights[siteKey] else 0.0;
      siteWeights := siteWeights[siteKey := currentTotal + tasks[i].taskWeightFinal];
      forall k
        ensures SiteWeightTotal(tasks[..i + 1], k) == SiteWeightTotal(tasks[..i], k) + FinalOn(k)(tasks[i])
      {
        Seqs.SumPrefixStep(tasks, FinalOn(k), i);
      }
      i := i + 1;
    }
    assert tasks[..|tasks|] == tasks;
  }



  /** A task's normalised weight when it is normalised under `key`, else 0. */
  function NormOn(key: string): TaskWithStatus -> real
  {
    (t: TaskWithStatus) => if NormKey(t) == key then t.taskWeightNormSite else 0.0
  }

  /** The sum of `task_weight_norm_site` over the tasks normalised under `key`. */
  function SiteNormTotal(tasks: seq<TaskWithStatus>, key: string): real
  {
    Seqs.Sum(tasks, NormOn(key))
  }

  /** With positive final weights a site's total is positive as soon as it has a task. */
  lemma {:induction false} SiteWeightTotalPositive(tasks: seq<TaskWithStatus>, key: string)
    requires forall i :: 0 <= i < |tasks| ==> tasks[i].taskWeightFinal > 0.0
    ensures SiteWeightTotal(tasks, key) >= 0.0
    ensures (exists i :: 0 <= i < |tasks| && NormKey(tasks[i]) == key) ==> SiteWeightTotal(tasks, key) > 0.0
  {
    if |tasks| > 0 {
      var init := tasks[..|tasks| - 1];
      SiteWeightTotalPositive(init, key);
      if exists i :: 0 <= i < |tasks| && NormKey(tasks[i]) == key {
        var i :| 0 <= i < |tasks| && NormKey(tasks[i]) == key;
        if i < |tasks| - 1 {
          assert NormKey(init[i]) == key;
        }
      }
    }
  }

  /** A task's share of the total under `key`. */
  function ShareOn(key: string, total: real): TaskWithStatus -> real
    requires total != 0.0
  {
    (t: TaskWithStatus) => FinalOn(key)(t) / total
  }

  lemma DivideSelf(c: real)
    requires c != 0.0
    ensures c / c == 1.0
  {
  }

  /** With positive final weights, the normalised weights of every site that
      has a task sum to 1. */
  lemma NormsSumToOne(tasks: seq<TaskWithStatus>, key: string)
    requires forall i :: 0 <= i < |tasks| ==> tasks[i].taskWeightFinal > 0.0
    requires exists i :: 0 <= i < |tasks| && NormKey(tasks[i]) == key
    ensures SiteNormTotal(NormalizedWeights(tasks), key) == 1.0
  {
    SiteWeightTotalPositive(tasks, key);
    var total := SiteWeightTotal(tasks, key);
    var r := NormalizedWeights(tasks);
    forall i | 0 <= i < |r|
      ensures NormOn(key)(r[i]) == ShareOn(key, total)(tasks[i])
    {
      assert r[i] == WithNormWeight(tasks, tasks[i]);
    }
    Seqs.SumPointwise(r, NormOn(key), tasks, ShareOn(key, total));
    Seqs.SumDivide(tasks, FinalOn(key), ShareOn(key, total), total);
    DivideSelf(total);
  }

  // ---------------------------------------------------------------- grouping

  /** The site keys occurring in `tasks`. */
  function KeySet(tasks: seq<TaskWithStatus>): set<string>
  {
    set t | t in tasks :: t.siteKey
  }

  /** The keys of `siteMap` in its iteration order: each site key once, in
      order of first appearance. */
  function SiteKeys(tasks: seq<TaskWithStatus>): seq<string>
  {
    if |tasks| == 0 then []
    else
      var keys := SiteKeys(tasks[..|tasks| - 1]);
      var k := tasks[|tasks| - 1].siteKey;
      if k in keys then keys else keys + [k]
  }

  /** Each key occurring in the tasks is listed, exactly once. */
  lemma {:induction false} SiteKeysSpec(tasks: seq<TaskWithStatus>)
    ensures Seqs.Distinct(SiteKeys(tasks))
    ensures forall k :: k in SiteKeys(tasks) <==> k in KeySet(tasks)
  {
    if |tasks| > 0 {
      var init := tasks[..|tasks| - 1];
      var t := tasks[|tasks| - 1];
      SiteKeysSpec(init);
      assert tasks == init + [t];
      assert KeySet(tasks) == KeySet(init) + {t.siteKey};
    }
  }

  /** The test `groupTasksBySite` files a task under `key` by. */
  function OnSite(key: string): TaskWithStatus -> bool
  {
    (t: TaskWithStatus) => t.siteKey == key
  }

  /** The list `siteMap` holds for `key`: the tasks with that key, in input order. */
  function SiteTasks(tasks: seq<TaskWithStatus>, key: string): seq<TaskWithStatus>
  {
    Seqs.Filter(tasks, OnSite(key))
  }

  /** Every key that occurs has at least one task. */
  lemma SiteTasksNonEmpty(tasks: seq<TaskWithStatus>, key: string)
    requires key in SiteKeys(tasks)
    ensures |SiteTasks(tasks, key)| > 0
  {
    SiteKeysSpec(tasks);
    var t :| t in tasks && t.siteKey == key;
    Seqs.FilterMembership(tasks, OnSite(key), t);
  }

  /** Filing the next task appends it to its own site's list and adds its key
      when it is new. */
  lemma SiteTasksStep(tasks: seq<TaskWithStatus>, i: nat)
    requires i < |tasks|
    ensures forall k :: SiteTasks(tasks[..i + 1], k)
                        == SiteTasks(tasks[..i], k) + (if tasks[i].siteKey == k then [tasks[i]] else [])
    ensures SiteKeys(tasks[..i + 1]) == SiteKeys(tasks[..i])
              + (if tasks[i].siteKey in SiteKeys(tasks[..i]) then [] else [tasks[i].siteKey])
  {
    assert tasks[..i + 1][..i] == tasks[..i];
  }

  /** `task.progress_pct ?? 0`. */
  function ProgressOrZero(t: TaskWithStatus): real
  {
    t.task.progressPct.GetOr(0.0)
  }

  /** `task.weight || 1`: a zero weight counts as 1. */
  function WeightOrOne(t: TaskWithStatus): real
  {
    if t.weight == 0.0 then 1.0 else t.weight
  }

  /** One task's share of `totalWeightedProgress`. */
  function ProgressTerm(t: TaskWithStatus): real
  {
    ProgressOrZero(t) * WeightOrOne(t)
  }

  /** `total > 0 ? numerator / total : 0`. */
  function RatioOrZero(numerator: real, total: real): real
  {
    if total > 0.0 then numerator / total else 0.0
  }

  /** A site's weighted progress: the weighted mean of the progress values,
      null counting as 0 and a zero weight as 1, clamped into [0, 100]. */
  function WeightedProgress(ts: seq<TaskWithStatus>): (p: real)
    ensures 0.0 <= p <= 100.0
  {
    DataParser.Clamp100(RatioOrZero(Seqs.Sum(ts, ProgressTerm), Seqs.Sum(ts, WeightOrOne)))
  }

  /** One task's share of `totalWeightedRisk`. */
  function RiskTerm(t: TaskWithStatus): real
  {
    t.riskTask * t.taskWeightNormSite
  }

  function NormWeight(t: TaskWithStatus): real
  {
    t.taskWeightNormSite
  }

  /** A site's risk score: task risks averaged under the site-normalised weights. */
  function RiskScore(ts: seq<TaskWithStatus>): real
  {
    RatioOrZero(Seqs.Sum(ts, RiskTerm), Seqs.Sum(ts, NormWeight))
  }

  /** The thresholds 40 and 20 of the site risk level. */
  function RiskLevelOf(score: real): (level: RiskLevel)
    ensures level == High <==> score >= 40.0
    ensures level == Medium <==> 20.0 <= score < 40.0
    ensures level == Low <==> score < 20.0
  {
    if score >= 40.0 then High else if score >= 20.0 then Medium else Low
  }

  function HasStatus(s: TaskStatus): TaskWithStatus -> bool
  {
    (t: TaskWithStatus) => t.status == s
  }

  function IsDelayedTask(t: TaskWithStatus): bool
  {
    t.isDelayed
  }

  /** The non-null values of a list, in order (`filter(d => d !== null)`). */
  function Somes<T(!new)>(xs: seq<Option<T>>): (r: seq<T>)
    ensures forall d :: d in r <==> Some(d) in xs
  {
    if |xs| == 0 then []
    else
      var init := xs[..|xs| - 1];
      assert xs == init + [xs[|xs| - 1]];
      Somes(init) + (if xs[|xs| - 1].Some? then [xs[|xs| - 1].value] else [])
  }

  /** `Math.max` over the non-null dates, or null when there is none. */
  function Latest(ds: seq<Option<Date>>): (r: Option<Date>)
    ensures r.None? <==> forall i :: 0 <= i < |ds| ==> ds[i].None?
    ensures r.Some? ==> r in ds && forall i :: 0 <= i < |ds| && ds[i].Some? ==> ds[i].value <= r.value
  {
    var present := Somes(ds);
    if |present| == 0 then
      assert forall i :: 0 <= i < |ds| ==> ds[i] in ds;
      None
    else
      var m := Seqs.Max(present);
      assert forall i :: 0 <= i < |ds| && ds[i].Some? ==> ds[i].value in present;
      Some(m)
  }

  /** A URL counts as present when it is a non-empty string. */
  predicate Present(u: Option<string>)
  {
    u.Some? && u.value != ""
  }

  /** `find(t => t.url)?.url || null`: the first present URL of the list. */
  function FirstPresent(urls: seq<Option<string>>): (r: Option<string>)
    ensures r.None? <==> forall i :: 0 <= i < |urls| ==> !Present(urls[i])
    ensures r.Some? ==> exists i :: 0 <= i < |urls| && urls[i] == r && Present(r)
                                    && forall j :: 0 <= j < i ==> !Present(urls[j])
  {
    if |urls| == 0 then None
    else if Present(urls[0]) then urls[0]
    else
      var r := FirstPresent(urls[1..]);
      assert forall i :: 1 <= i < |urls| ==> urls[1..][i - 1] == urls[i];
      if r.Some? then
        var i :| 0 <= i < |urls[1..]| && urls[1..][i] == r && Present(r)
                 && forall j :: 0 <= j < i ==> !Present(urls[1..][j]);
        assert urls[i + 1] == r;
        r
      else r
  }

  function PlannedFinishes(ts: seq<TaskWithStatus>): seq<Option<Date>>
  {
    seq(|ts|, i requires 0 <= i < |ts| => ts[i].task.plannedFinish)
  }

  function LastUpdates(ts: seq<TaskWithStatus>): seq<Option<Date>>
  {
    seq(|ts|, i requires 0 <= i < |ts| => ts[i].task.lastUpdated)
  }

  function CoverDirectUrls(ts: seq<TaskWithStatus>): seq<Option<string>>
  {
    seq(|ts|, i requires 0 <= i < |ts| => ts[i].task.coverPhotoDirectUrl)
  }

  function FolderUrls(ts: seq<TaskWithStatus>): seq<Option<string>>
  {
    seq(|ts|, i requires 0 <= i < |ts| => ts[i].task.photoFolderUrl)
  }

  function CoverShareUrls(ts: seq<TaskWithStatus>): seq<Option<string>>
  {
    seq(|ts|, i requires 0 <= i < |ts| => ts[i].task.coverPhotoShareUrl)
  }

  /** The aggregate `groupTasksBySite` pushes for one site: identity from the
      first task, counts, weighted progress, risk, latest dates and the first
      present photo links. */
  function SiteAggregateOf(key: string, ts: seq<TaskWithStatus>): SiteAggregate
    requires |ts| > 0
  {
    var first := ts[0].task;
    var risk := RiskScore(ts);
    SiteAggregate(
      key, first.packageId, first.packageName, first.district, first.siteId, first.siteName,
      ts, |ts|,
      |Seqs.Filter(ts, HasStatus(Completed))|,
      |Seqs.Filter(ts, HasStatus(InProgress))|,
      |Seqs.Filter(ts, HasStatus(NotStarted))|,
      |Seqs.Filter(ts, IsDelayedTask)|,
      WeightedProgress(ts), risk, RiskLevelOf(risk),
      Latest(PlannedFinishes(ts)), Latest(LastUpdates(ts)),
      FirstPresent(CoverDirectUrls(ts)), FirstPresent(FolderUrls(ts)), FirstPresent(CoverShareUrls(ts)))
  }

  /** The list `groupTasksBySite` returns: one aggregate per site, in order of
      first appearance. */
  function GroupBySite(tasks: seq<TaskWithStatus>): (r: seq<SiteAggregate>)
    ensures |r| == |SiteKeys(tasks)|
  {
    var keys := SiteKeys(tasks);
    seq(|keys|, i requires 0 <= i < |keys| =>
      SiteTasksNonEmpty(tasks, keys[i]);
      SiteAggregateOf(keys[i], SiteTasks(tasks, keys[i])))
  }

  /** The aggregate at position `j` is that of the `j`-th key. */
  lemma GroupBySiteAt(tasks: seq<TaskWithStatus>, j: nat)
    requires j < |SiteKeys(tasks)|
    ensures |SiteTasks(tasks, SiteKeys(tasks)[j])| > 0
    ensures GroupBySite(tasks)[j] == SiteAggregateOf(SiteKeys(tasks)[j], SiteTasks(tasks, SiteKeys(tasks)[j]))
  {
    SiteTasksNonEmpty(tasks, SiteKeys(tasks)[j]);
  }

  /** The progress loop of one site: the two running totals. */
  method SumProgress(ts: seq<TaskWithStatus>) returns (totalWeightedProgress: real, totalWeight: real)
    ensures totalWeightedProgress == Seqs.Sum(ts, ProgressTerm)
    ensures totalWeight == Seqs.Sum(ts, WeightOrOne)
  {
    totalWeightedProgress, totalWeight := 0.0, 0.0;
    var i := 0;
    while i < |ts|
      invariant 0 <= i <= |ts|
      invariant totalWeightedProgress == Seqs.Sum(ts[..i], ProgressTerm)
      invariant totalWeight == Seqs.Sum(ts[..i], WeightOrOne)
    {
      var progress := if ts[i].task.progressPct.Some? then ts[i].task.progressPct.value else 0.0;
      var weight := if ts[i].weight != 0.0 then ts[i].weight else 1.0;
      Seqs.SumPrefixStep(ts, ProgressTerm, i);
      Seqs.SumPrefixStep(ts, WeightOrOne, i);
      totalWeightedProgress := totalWeightedProgress + progress * weight;
      totalWeight := totalWeight + weight;
      i := i + 1;
    }
    assert ts[..|ts|] == ts;
  }

  /** The risk loop of one site: the two running totals. */
  method SumRisk(ts: seq<TaskWithStatus>) returns (totalWeightedRisk: real, totalRiskWeight: real)
    ensures totalWeightedRisk == Seqs.Sum(ts, RiskTerm)
    ensures totalRiskWeight == Seqs.Sum(ts, NormWeight)
  {
    totalWeightedRisk, totalRiskWeight := 0.0, 0.0;
    var i := 0;
    while i < |ts|
      invariant 0 <= i <= |ts|
      invariant totalWeightedRisk == Seqs.Sum(ts[..i], RiskTerm)
      invariant totalRiskWeight == Seqs.Sum(ts[..i], NormWeight)
    {
      Seqs.SumPrefixStep(ts, RiskTerm, i);
      Seqs.SumPrefixStep(ts, NormWeight, i);
      totalWeightedRisk := totalWeightedRisk + ts[i].riskTask * ts[i].taskWeightNormSite;
      totalRiskWeight := totalRiskWeight + ts[i].taskWeightNormSite;
      i := i + 1;
    }
    assert ts[..|ts|] == ts;
  }

  /** One iteration of the site loop of `groupTasksBySite`. */
  method AggregateSite(key: string, ts: seq<TaskWithStatus>) returns (agg: SiteAggregate)
    requires |ts| > 0
    ensures agg == SiteAggregateOf(key, ts)
  {
    var totalWeightedProgress, totalWeight := SumProgress(ts);
    var weightedProgress := if totalWeight > 0.0 then totalWeightedProgress / totalWeight else 0.0;
    weightedProgress := if weightedProgress < 0.0 then 0.0 else if weightedProgress > 100.0 then 100.0 else weightedProgress;
    assert weightedProgress == WeightedProgress(ts);

    var totalWeightedRisk, totalRiskWeight := SumRisk(ts);
    var riskScore := if totalRiskWeight > 0.0 then totalWeightedRisk / totalRiskWeight else 0.0;
    var riskLevel := if riskScore >= 40.0 then High else if riskScore >= 20.0 then Medium else Low;
    assert riskScore == RiskScore(ts) && riskLevel == RiskLevelOf(riskScore);

    var first := ts[0].task;
    agg := SiteAggregate(
      key, first.packageId, first.packageName, first.district, first.siteId, first.siteName,
      ts, |ts|,
      |Seqs.Filter(ts, HasStatus(Completed))|,
      |Seqs.Filter(ts, HasStatus(InProgress))|,
      |Seqs.Filter(ts, HasStatus(NotStarted))|,
      |Seqs.Filter(ts, IsDelayedTask)|,
      weightedProgress, riskScore, riskLevel,
      Latest(PlannedFinishes(ts)), Latest(LastUpdates(ts)),
      FirstPresent(CoverDirectUrls(ts)), FirstPresent(FolderUrls(ts)), FirstPresent(CoverShareUrls(ts)));
  }

  /** The first loop of `groupTasksBySite`: every task filed under its site
      key, the keys kept in insertion order. */
  method FileBySite(tasks: seq<TaskWithStatus>)
    returns (siteMap: map<string, seq<TaskWithStatus>>, order: seq<string>)
    ensures order == SiteKeys(tasks)
    ensures forall k :: k in siteMap <==> k in order
    ensures forall k :: k in siteMap ==> siteMap[k] == SiteTasks(tasks, k)
  {
    siteMap, order := map[], [];
    var i := 0;
    while i < |tasks|
      invariant 0 <= i <= |tasks|
      invariant order == SiteKeys(tasks[..i])
      invariant forall k :: k in siteMap <==> k in order
      invariant forall k :: k in siteMap ==> siteMap[k] == SiteTasks(tasks[..i], k)
      invariant forall k :: k !in siteMap ==> SiteTasks(tasks[..i], k) == []
    {
      var task := tasks[i];
      var existing := if task.siteKey in siteMap then siteMap[task.siteKey] else [];
      if task.siteKey !in siteMap {
        order := order + [task.siteKey];
      }
      siteMap := siteMap[task.siteKey := existing + [task]];
      SiteTasksStep(tasks, i);
      i := i + 1;
    }
    assert tasks[..|tasks|] == tasks;
  }

  /** `groupTasksBySite`: files every task under its site key in an
      insertion-ordered map, then aggregates each site in key order. */
  method GroupTasksBySite(tasks: seq<TaskWithStatus>) returns (sites: seq<SiteAggregate>)
    ensures sites == GroupBySite(tasks)
  {
    var siteMap, order := FileBySite(tasks);
    ghost var expected := GroupBySite(tasks);
    sites := [];
    var j := 0;
    while j < |order|
      invariant 0 <= j <= |order|
      invariant sites == expected[..j]
    {
      var siteKey := order[j];
      GroupBySiteAt(tasks, j);
      var ts := siteMap[siteKey];
      assert ts == SiteTasks(tasks, siteKey);
      var agg := AggregateSite(siteKey, ts);
      assert agg == expected[j];
      Seqs.PrefixSnoc(expected, j);
      sites := sites + [agg];
      j := j + 1;
    }
    assert expected[..|order|] == expected;
  }

  /** The aggregate at position `i` holds exactly the tasks with its key, in
      input order, and counts them. */
  lemma SiteHoldsItsTasks(tasks: seq<TaskWithStatus>, i: nat)
    requires i < |GroupBySite(tasks)|
    ensures var a := GroupBySite(tasks)[i];
      && a.siteKey == SiteKeys(tasks)[i]
      && a.tasks == SiteTasks(tasks, a.siteKey)
      && 0 < |a.tasks| == a.totalTasks
      && Seqs.Subsequence(a.tasks, tasks)
      && forall t :: t in a.tasks <==> t in tasks && t.siteKey == a.siteKey
  {
    GroupBySiteAt(tasks, i);
    var key := SiteKeys(tasks)[i];
    Seqs.FilterIsSubsequence(tasks, OnSite(key));
    forall t
      ensures t in SiteTasks(tasks, key) <==> t in tasks && t.siteKey == key
    {
      Seqs.FilterMembership(tasks, OnSite(key), t);
    }
  }

  /** No two aggregates share a site key. */
  lemma SiteKeysUnique(tasks: seq<TaskWithStatus>)
    ensures forall i, j :: 0 <= i < j < |GroupBySite(tasks)|
                           ==> GroupBySite(tasks)[i].siteKey != GroupBySite(tasks)[j].siteKey
  {
    SiteKeysSpec(tasks);
    forall i, j | 0 <= i < j < |GroupBySite(tasks)|
      ensures GroupBySite(tasks)[i].siteKey != GroupBySite(tasks)[j].siteKey
    {
      GroupBySiteAt(tasks, i);
      GroupBySiteAt(tasks, j);
    }
  }

  /** Every task is filed in the aggregate of its own site key. */
  lemma EveryTaskFiled(tasks: seq<TaskWithStatus>, t: TaskWithStatus)
    requires t in tasks
    ensures exists i :: 0 <= i < |GroupBySite(tasks)|
                        && GroupBySite(tasks)[i].siteKey == t.siteKey && t in GroupBySite(tasks)[i].tasks
  {
    SiteKeysSpec(tasks);
    var keys := SiteKeys(tasks);
    assert t.siteKey in KeySet(tasks);
    var i :| 0 <= i < |keys| && keys[i] == t.siteKey;
    SiteHoldsItsTasks(tasks, i);
  }

  /** `totalTasks` as a real, for summing over sites. */
  function SiteSize(a: SiteAggregate): real
  {
    a.totalTasks as real
  }

  /** The test "the site key is one of `keys`". */
  function InKeys(keys: seq<string>): TaskWithStatus -> bool
  {
    (t: TaskWithStatus) => t.siteKey in keys
  }

  /** The first `n` aggregates hold as many tasks as carry one of the first `n` keys. */
  lemma {:induction false} SiteSizesPrefix(tasks: seq<TaskWithStatus>, n: nat)
    requires n <= |SiteKeys(tasks)|
    ensures Seqs.Sum(GroupBySite(tasks)[..n], SiteSize)
            == |Seqs.Filter(tasks, InKeys(SiteKeys(tasks)[..n]))| as real
  {
    var keys := SiteKeys(tasks);
    if n == 0 {
      Seqs.FilterNone(tasks, InKeys(keys[..0]));
    } else {
      SiteSizesPrefix(tasks, n - 1);
      var r := GroupBySite(tasks);
      Seqs.SumPrefixStep(r, SiteSize, n - 1);
      GroupBySiteAt(tasks, n - 1);
      SiteKeysSpec(tasks);
      Seqs.PrefixSnoc(keys, n - 1);
      assert keys[n - 1] !in keys[..n - 1];
      Seqs.FilterDisjointLength(tasks, InKeys(keys[..n - 1]), OnSite(keys[n - 1]), InKeys(keys[..n]));
    }
  }

  /** The site sizes add up to the number of tasks: grouping loses and
      duplicates nothing. */
  lemma SiteSizesCoverTasks(tasks: seq<TaskWithStatus>)
    ensures Seqs.Sum(GroupBySite(tasks), SiteSize) == |tasks| as real
  {
    var keys := SiteKeys(tasks);
    SiteSizesPrefix(tasks, |keys|);
    SiteKeysSpec(tasks);
    assert keys[..|keys|] == keys;
    assert GroupBySite(tasks)[..|keys|] == GroupBySite(tasks);
    forall t | t in tasks
      ensures InKeys(keys)(t)
    {
      assert t.siteKey in KeySet(tasks);
    }
    Seqs.FilterTrue(tasks, InKeys(keys));
  }

  /** Every task's status is one of `ss`. */
  function StatusIn(ss: seq<TaskStatus>): TaskWithStatus -> bool
  {
    (t: TaskWithStatus) => t.status in ss
  }

  /** The completed, in-progress and not-started counts never exceed the
      number of tasks counted (overdue and stalled tasks are in none of them). */
  lemma StatusCountsBounded(ts: seq<TaskWithStatus>)
    ensures |Seqs.Filter(ts, HasStatus(Completed))| + |Seqs.Filter(ts, HasStatus(InProgress))|
            + |Seqs.Filter(ts, HasStatus(NotStarted))| <= |ts|
  {
    Seqs.FilterDisjointLength(ts, HasStatus(Completed), HasStatus(InProgress), StatusIn([Completed, InProgress]));
    Seqs.FilterDisjointLength(ts, StatusIn([Completed, InProgress]), HasStatus(NotStarted),
                              StatusIn([Completed, InProgress, NotStarted]));
  }

  /** Progress values between `lo` and `hi` and non-negative weights give a
      weighted progress between `lo` and `hi`: clamping never cuts in. */
  lemma WeightedProgressBetween(ts: seq<TaskWithStatus>, lo: real, hi: real)
    requires |ts| > 0 && 0.0 <= lo <= hi <= 100.0
    requires forall t :: t in ts ==> lo <= ProgressOrZero(t) <= hi && t.weight >= 0.0
    ensures lo <= WeightedProgress(ts) <= hi
  {
    var num, den := Seqs.Sum(ts, ProgressTerm), Seqs.Sum(ts, WeightOrOne);
    assert lo <= RatioOrZero(num, den) <= hi by {
      Seqs.WeightedSumBounds(ts, ProgressOrZero, WeightOrOne, ProgressTerm, lo, hi);
      Seqs.SumPositive(ts, WeightOrOne);
      RatioOrZeroBetweenPos(num, den, lo, hi);
    }
  }

  lemma RatioOrZeroBetweenPos(num: real, den: real, lo: real, hi: real)
    requires den > 0.0 && lo * den <= num <= hi * den
    ensures lo <= RatioOrZero(num, den) <= hi
  {
    RatioBetween(num, den, lo, hi);
  }

  lemma RatioBetween(num: real, den: real, lo: real, hi: real)
    requires den > 0.0 && lo * den <= num <= hi * den
    ensures lo <= num / den <= hi
  {
  }

  /** A site whose tasks are all at 100% is at 100%, whatever the weights. */
  lemma AllCompleteIsHundred(ts: seq<TaskWithStatus>)
    requires |ts| > 0
    requires forall t :: t in ts ==> t.task.progressPct == Some(100.0) && t.weight >= 0.0
    ensures WeightedProgress(ts) == 100.0
  {
    WeightedProgressBetween(ts, 100.0, 100.0);
  }

  /** Tasks without progress stay in the denominator with 0%: adding them
      only adds their weight below the line. */
  lemma NullProgressDilutes(ts: seq<TaskWithStatus>, extra: seq<TaskWithStatus>)
    requires forall t :: t in extra ==> t.task.progressPct.None? && t.weight >= 0.0
    ensures WeightedProgress(ts + extra)
            == DataParser.Clamp100(RatioOrZero(Seqs.Sum(ts, ProgressTerm),
                                               Seqs.Sum(ts, WeightOrOne) + Seqs.Sum(extra, WeightOrOne)))
  {
    var num, den := Seqs.Sum(ts + extra, ProgressTerm), Seqs.Sum(ts + extra, WeightOrOne);
    assert num == Seqs.Sum(ts, ProgressTerm) by {
      Seqs.SumConcat(ts, extra, ProgressTerm);
      Seqs.SumZero(extra, ProgressTerm);
    }
    assert den == Seqs.Sum(ts, WeightOrOne) + Seqs.Sum(extra, WeightOrOne) by {
      Seqs.SumConcat(ts, extra, WeightOrOne);
    }
  }

  /** Task risks between 0 and `hi` under non-negative weights give a site
      risk score between 0 and `hi`. */
  lemma RiskScoreBounds(ts: seq<TaskWithStatus>, hi: real)
    requires 0.0 <= hi
    requires forall t :: t in ts ==> 0.0 <= t.riskTask <= hi && t.taskWeightNormSite >= 0.0
    ensures 0.0 <= RiskScore(ts) <= hi
  {
    Seqs.WeightedSumBounds(ts, RiskOf, NormWeight, RiskTerm, 0.0, hi);
    RatioOrZeroBetween(Seqs.Sum(ts, RiskTerm), Seqs.Sum(ts, NormWeight), hi);
  }

  lemma RatioOrZeroBetween(num: real, den: real, hi: real)
    requires 0.0 <= hi && 0.0 * den <= num <= hi * den
    ensures 0.0 <= RatioOrZero(num, den) <= hi
  {
    if den > 0.0 {
      RatioBetween(num, den, 0.0, hi);
    }
  }

  function RiskOf(t: TaskWithStatus): real
  {
    t.riskTask
  }

  // ---------------------------------------------------------------- KPIs

  /** One entry of `siteStatus`: a site's task count and completed count. */
  datatype SiteTally = SiteTally(total: nat, completed: nat)

  function CompletedOnSite(key: string): TaskWithStatus -> bool
  {
    (t: TaskWithStatus) => t.siteKey == key && t.status == Completed
  }

  /** The tally `siteStatus` holds for `key` after a pass over `tasks`. */
  function TallyOf(tasks: seq<TaskWithStatus>, key: string): SiteTally
  {
    SiteTally(|SiteTasks(tasks, key)|, |Seqs.Filter(tasks, CompletedOnSite(key))|)
  }

  /** `Array.from(siteStatus.values())`: one tally per site, in key order. */
  function Tallies(tasks: seq<TaskWithStatus>): (r: seq<SiteTally>)
    ensures |r| == |SiteKeys(tasks)|
  {
    var keys := SiteKeys(tasks);
    seq(|keys|, i requires 0 <= i < |keys| => TallyOf(tasks, keys[i]))
  }

  function HasCompleted(s: SiteTally): bool
  {
    s.completed > 0
  }

  function FullyCompleted(s: SiteTally): bool
  {
    s.completed == s.total && s.total > 0
  }

  /** `task.weight` as `computeKPIs` adds it to the denominator: without the
      fallback to 1 that the numerator uses. */
  function RawWeight(t: TaskWithStatus): real
  {
    t.weight
  }

  /** The portfolio progress of `computeKPIs`. */
  function OverallProgress(tasks: seq<TaskWithStatus>): (p: real)
    ensures 0.0 <= p <= 100.0
  {
    DataParser.Clamp100(RatioOrZero(Seqs.Sum(tasks, ProgressTerm), Seqs.Sum(tasks, RawWeight)))
  }

  /** The result of `computeKPIs`. */
  function KPIsOf(tasks: seq<TaskWithStatus>): DashboardKPIs
  {
    var tallies := Tallies(tasks);
    DashboardKPIs(
      |KeySet(tasks)|, |tasks|, OverallProgress(tasks),
      |Seqs.Filter(tallies, HasCompleted)|, |Seqs.Filter(tallies, FullyCompleted)|,
      |Seqs.Filter(tasks, IsDelayedTask)|,
      |Seqs.Filter(tasks, HasStatus(NotStarted))|,
      |Seqs.Filter(tasks, HasStatus(InProgress))|,
      |Seqs.Filter(tasks, HasStatus(Completed))|)
  }

  /** The `forEach` of `computeKPIs`: one tally per site key, kept in
      insertion order. */
  method TallySites(tasks: seq<TaskWithStatus>)
    returns (siteStatus: map<string, SiteTally>, order: seq<string>)
    ensures order == SiteKeys(tasks)
    ensures forall k :: k in siteStatus <==> k in order
    ensures forall k :: k in siteStatus ==> siteStatus[k] == TallyOf(tasks, k)
  {
    siteStatus, order := map[], [];
    var i := 0;
    while i < |tasks|
      invariant 0 <= i <= |tasks|
      invariant order == SiteKeys(tasks[..i])
      invariant forall k :: k in siteStatus <==> k in order
      invariant forall k :: k in siteStatus ==> siteStatus[k] == TallyOf(tasks[..i], k)
      invariant forall k :: k !in siteStatus ==> TallyOf(tasks[..i], k) == SiteTally(0, 0)
    {
      var t := tasks[i];
      var entry := if t.siteKey in siteStatus then siteStatus[t.siteKey] else SiteTally(0, 0);
      entry := entry.(total := entry.total + 1);
      if t.status == Completed {
        entry := entry.(completed := entry.completed + 1);
      }
      if t.siteKey !in siteStatus {
        order := order + [t.siteKey];
      }
      siteStatus := siteStatus[t.siteKey := entry];
      TallyStep(tasks, i);
      i := i + 1;
    }
    assert tasks[..|tasks|] == tasks;
  }

  /** Counting the next task adds one to its own site's tally. */
  lemma TallyStep(tasks: seq<TaskWithStatus>, i: nat)
    requires i < |tasks|
    ensures forall k :: TallyOf(tasks[..i + 1], k)
                        == if tasks[i].siteKey == k
                           then SiteTally(TallyOf(tasks[..i], k).total + 1,
                                          TallyOf(tasks[..i], k).completed + if tasks[i].status == Completed then 1 else 0)
                           else TallyOf(tasks[..i], k)
    ensures SiteKeys(tasks[..i + 1]) == SiteKeys(tasks[..i])
              + (if tasks[i].siteKey in SiteKeys(tasks[..i]) then [] else [tasks[i].siteKey])
  {
    SiteTasksStep(tasks, i);
    forall k {
      Seqs.FilterPrefixStep(tasks, CompletedOnSite(k), i);
    }
  }

  /** The progress loop of `computeKPIs`. */
  method SumOverallProgress(tasks: seq<TaskWithStatus>) returns (totalWeightedProgress: real, totalWeight: real)
    ensures totalWeightedProgress == Seqs.Sum(tasks, ProgressTerm)
    ensures totalWeight == Seqs.Sum(tasks, RawWeight)
  {
    totalWeightedProgress, totalWeight := 0.0, 0.0;
    var i := 0;
    while i < |tasks|
      invariant 0 <= i <= |tasks|
      invariant totalWeightedProgress == Seqs.Sum(tasks[..i], ProgressTerm)
      invariant totalWeight == Seqs.Sum(tasks[..i], RawWeight)
    {
      var progress := if tasks[i].task.progressPct.Some? then tasks[i].task.progressPct.value else 0.0;
      var weight := if tasks[i].weight != 0.0 then tasks[i].weight else 1.0;
      Seqs.SumPrefixStep(tasks, ProgressTerm, i);
      Seqs.SumPrefixStep(tasks, RawWeight, i);
      totalWeightedProgress := totalWeightedProgress + progress * weight;
      totalWeight := totalWeight + tasks[i].weight;
      i := i + 1;
    }
    assert tasks[..|tasks|] == tasks;
  }

  /** `computeKPIs`. */
  method ComputeKPIs(tasks: seq<TaskWithStatus>) returns (kpis: DashboardKPIs)
    ensures kpis == KPIsOf(tasks)
  {
    var uniqueSites := set t | t in tasks :: t.siteKey;
    var siteStatus, order := TallySites(tasks);
    var totalWeightedProgress, totalWeight := SumOverallProgress(tasks);
    var overall := if totalWeight > 0.0 then totalWeightedProgress / totalWeight else 0.0;
    overall := if overall < 0.0 then 0.0 else if overall > 100.0 then 100.0 else overall;
    assert overall == OverallProgress(tasks);
    var values := seq(|order|, j requires 0 <= j < |order| => siteStatus[order[j]]);
    assert values == Tallies(tasks);
    kpis := DashboardKPIs(
      |uniqueSites|, |tasks|, overall,
      |Seqs.Filter(values, HasCompleted)|, |Seqs.Filter(values, FullyCompleted)|,
      |Seqs.Filter(tasks, IsDelayedTask)|,
      |Seqs.Filter(tasks, HasStatus(NotStarted))|,
      |Seqs.Filter(tasks, HasStatus(InProgress))|,
      |Seqs.Filter(tasks, HasStatus(Completed))|);
  }

  /** The number of distinct keys is the number of sites. */
  lemma SiteCount(tasks: seq<TaskWithStatus>)
    ensures |KeySet(tasks)| == |SiteKeys(tasks)| == |GroupBySite(tasks)|
  {
    var keys := SiteKeys(tasks);
    SiteKeysSpec(tasks);
    Seqs.DistinctCardinality(keys);
    assert (set x | x in keys) == KeySet(tasks);
  }

  /** The KPI counts are consistent with one another: fully completed sites
      are among the sites with a completed task, which are among all sites,
      and the three status counts fit in the task count. */
  lemma KPIBounds(tasks: seq<TaskWithStatus>)
    ensures var k := KPIsOf(tasks);
      && k.sitesFullyCompleted <= k.sitesWithCompleted <= k.totalSites
      && k.completedTasks + k.inProgressTasks + k.notStartedTasks <= k.totalTasks
      && k.delayedTasks <= k.totalTasks
      && 0.0 <= k.overallWeightedProgress <= 100.0
  {
    var tallies := Tallies(tasks);
    Seqs.FilterLengthMonotone(tallies, FullyCompleted, HasCompleted);
    SiteCount(tasks);
    StatusCountsBounded(tasks);
  }

  /** The site-level KPIs agree with the aggregates `groupTasksBySite` builds:
      as many sites, as many with a completed task, as many fully completed. */
  lemma KPIsAgreeWithSites(tasks: seq<TaskWithStatus>)
    ensures var k, sites := KPIsOf(tasks), GroupBySite(tasks);
      && k.totalSites == |sites|
      && k.sitesWithCompleted == |Seqs.Filter(sites, SiteHasCompleted)|
      && k.sitesFullyCompleted == |Seqs.Filter(sites, SiteFullyCompleted)|
  {
    SiteCount(tasks);
    var tallies, sites := Tallies(tasks), GroupBySite(tasks);
    forall i | 0 <= i < |tallies|
      ensures tallies[i].total == sites[i].totalTasks && tallies[i].completed == sites[i].completedTasks
    {
      var key := SiteKeys(tasks)[i];
      GroupBySiteAt(tasks, i);
      Seqs.FilterCompose(tasks, OnSite(key), HasStatus(Completed), CompletedOnSite(key));
    }
    Seqs.FilterLengthPointwise(tallies, HasCompleted, sites, SiteHasCompleted);
    Seqs.FilterLengthPointwise(tallies, FullyCompleted, sites, SiteFullyCompleted);
  }

  function SiteHasCompleted(a: SiteAggregate): bool
  {
    a.completedTasks > 0
  }

  function SiteFullyCompleted(a: SiteAggregate): bool
  {
    a.completedTasks == a.totalTasks && a.totalTasks > 0
  }

  /** When no weight is zero the portfolio progress is the weighted progress
      of all tasks taken as one site. */
  lemma OverallProgressWithoutZeroWeights(tasks: seq<TaskWithStatus>)
    requires forall t :: t in tasks ==> t.weight != 0.0
    ensures OverallProgress(tasks) == WeightedProgress(tasks)
  {
    Seqs.SumExtensional(tasks, RawWeight, WeightOrOne);
  }

  /** A zero weight counts as 1 above the line but as 0 below it: a task at
      50% with weight 0 next to a task at 0% with weight 1 gives a portfolio
      progress of 50, where the site formula gives 25. */
  lemma OverallProgressZeroWeight(a: TaskWithStatus, b: TaskWithStatus)
    requires a.task.progressPct == Some(50.0) && a.weight == 0.0
    requires b.task.progressPct == Some(0.0) && b.weight == 1.0
    ensures OverallProgress([a, b]) == 50.0
    ensures WeightedProgress([a, b]) == 25.0
  {
    Seqs.SumPair(a, b, ProgressTerm);
    Seqs.SumPair(a, b, RawWeight);
    Seqs.SumPair(a, b, WeightOrOne);
    assert RatioOrZero(50.0, 2.0) == 25.0;
  }

  // ---------------------------------------------------------------- filters

  function PackageTest(f: FilterState): TaskWithStatus -> bool
  {
    (t: TaskWithStatus) => t.task.packageName in f.packageNames
  }

  function DistrictTest(f: FilterState): TaskWithStatus -> bool
  {
    (t: TaskWithStatus) => t.task.district in f.districts
  }

  /** The search text, lower-cased but not trimmed, inside the lower-cased
      site name or site id. */
  function SearchTest(f: FilterState): TaskWithStatus -> bool
  {
    (t: TaskWithStatus) =>
      Text.Contains(Text.Lower(t.task.siteName), Text.Lower(f.siteNameSearch))
      || Text.Contains(Text.Lower(t.task.siteId), Text.Lower(f.siteNameSearch))
  }

  function DisciplineTest(f: FilterState): TaskWithStatus -> bool
  {
    (t: TaskWithStatus) => t.task.discipline in f.disciplines
  }

  /** `t.delay_flag_calc && delayFlags.includes(t.delay_flag_calc)`: a null or
      empty flag never passes. */
  function DelayFlagTest(f: FilterState): TaskWithStatus -> bool
  {
    (t: TaskWithStatus) => Present(t.task.delayFlagCalc) && t.task.delayFlagCalc.value in f.delayFlags
  }

  function StartTest(f: FilterState): TaskWithStatus -> bool
  {
    (t: TaskWithStatus) =>
      t.task.plannedStart.Some? && f.dateRangeStart.Some? && t.task.plannedStart.value >= f.dateRangeStart.value
  }

  function EndTest(f: FilterState): TaskWithStatus -> bool
  {
    (t: TaskWithStatus) =>
      t.task.plannedFinish.Some? && f.dateRangeEnd.Some? && t.task.plannedFinish.value <= f.dateRangeEnd.value
  }

  function DelayedTest(f: FilterState): TaskWithStatus -> bool
  {
    (t: TaskWithStatus) => t.isDelayed
  }

  /** The stages of `applyFilters`, in source order. */
  const StageCount: nat := 8

  /** Whether stage `n` runs: its list is non-empty, its date is set, the
      search text is not blank after trimming, or `showOnlyDelayed` is on. */
  predicate StageActive(f: FilterState, n: nat)
  {
    match n
    case 0 => |f.packageNames| > 0
    case 1 => |f.districts| > 0
    case 2 => Text.Trim(f.siteNameSearch) != ""
    case 3 => |f.disciplines| > 0
    case 4 => |f.delayFlags| > 0
    case 5 => f.dateRangeStart.Some?
    case 6 => f.dateRangeEnd.Some?
    case _ => f.showOnlyDelayed
  }

  function StageTest(f: FilterState, n: nat): TaskWithStatus -> bool
  {
    match n
    case 0 => PackageTest(f)
    case 1 => DistrictTest(f)
    case 2 => SearchTest(f)
    case 3 => DisciplineTest(f)
    case 4 => DelayFlagTest(f)
    case 5 => StartTest(f)
    case 6 => EndTest(f)
    case _ => DelayedTest(f)
  }

  /** A task passes stage `n` when the stage is off or its test holds. */
  predicate PassesStage(f: FilterState, t: TaskWithStatus, n: nat)
  {
    !StageActive(f, n) || StageTest(f, n)(t)
  }

  /** A task passes the first `n` stages. */
  predicate PassesFirst(f: FilterState, t: TaskWithStatus, n: nat)
  {
    n == 0 || (PassesFirst(f, t, n - 1) && PassesStage(f, t, n - 1))
  }

  function FirstStagesTest(f: FilterState, n: nat): TaskWithStatus -> bool
  {
    (t: TaskWithStatus) => PassesFirst(f, t, n)
  }

  /** The filter as one predicate: every active criterion holds (AND). */
  predicate Matches(f: FilterState, t: TaskWithStatus)
  {
    && (|f.packageNames| > 0 ==> t.task.packageName in f.packageNames)
    && (|f.districts| > 0 ==> t.task.district in f.districts)
    && (Text.Trim(f.siteNameSearch) != "" ==>
          Text.Contains(Text.Lower(t.task.siteName), Text.Lower(f.siteNameSearch))
          || Text.Contains(Text.Lower(t.task.siteId), Text.Lower(f.siteNameSearch)))
    && (|f.disciplines| > 0 ==> t.task.discipline in f.disciplines)
    && (|f.delayFlags| > 0 ==> Present(t.task.delayFlagCalc) && t.task.delayFlagCalc.value in f.delayFlags)
    && (f.dateRangeStart.Some? ==>
          t.task.plannedStart.Some? && t.task.plannedStart.value >= f.dateRangeStart.value)
    && (f.dateRangeEnd.Some? ==>
          t.task.plannedFinish.Some? && t.task.plannedFinish.value <= f.dateRangeEnd.value)
    && (f.showOnlyDelayed ==> t.isDelayed)
  }

  function MatchTest(f: FilterState): TaskWithStatus -> bool
  {
    (t: TaskWithStatus) => Matches(f, t)
  }

  /** Passing all eight stages is matching the filter. */
  lemma AllStagesMatch(f: FilterState, t: TaskWithStatus)
    ensures PassesFirst(f, t, StageCount) == Matches(f, t)
  {
    assert PassesFirst(f, t, 8) == (PassesFirst(f, t, 7) && PassesStage(f, t, 7));
    assert PassesFirst(f, t, 7) == (PassesFirst(f, t, 6) && PassesStage(f, t, 6));
    assert PassesFirst(f, t, 6) == (PassesFirst(f, t, 5) && PassesStage(f, t, 5));
    assert PassesFirst(f, t, 5) == (PassesFirst(f, t, 4) && PassesStage(f, t, 4));
    assert PassesFirst(f, t, 4) == (PassesFirst(f, t, 3) && PassesStage(f, t, 3));
    assert PassesFirst(f, t, 3) == (PassesFirst(f, t, 2) && PassesStage(f, t, 2));
    assert PassesFirst(f, t, 2) == (PassesFirst(f, t, 1) && PassesStage(f, t, 1));
    assert PassesFirst(f, t, 1) == PassesStage(f, t, 0);
  }

  /** What the first `n` stages leave, each stage filtering what the previous
      ones kept. */
  function Staged(tasks: seq<TaskWithStatus>, f: FilterState, n: nat): seq<TaskWithStatus>
  {
    if n == 0 then tasks
    else if StageActive(f, n - 1) then Seqs.Filter(Staged(tasks, f, n - 1), StageTest(f, n - 1))
    else Staged(tasks, f, n - 1)
  }

  /** Running the first `n` stages one after the other keeps exactly the tasks
      that pass all of them, in their original order. */
  lemma {:induction false} StagedFilters(tasks: seq<TaskWithStatus>, f: FilterState, n: nat)
    ensures Staged(tasks, f, n) == Seqs.Filter(tasks, FirstStagesTest(f, n))
  {
    if n == 0 {
      Seqs.FilterTrue(tasks, FirstStagesTest(f, 0));
    } else {
      StagedFilters(tasks, f, n - 1);
      if StageActive(f, n - 1) {
        Seqs.FilterCompose(tasks, FirstStagesTest(f, n - 1), StageTest(f, n - 1), FirstStagesTest(f, n));
      } else {
        Seqs.FilterExtensional(tasks, FirstStagesTest(f, n - 1), FirstStagesTest(f, n));
      }
    }
  }

  /** All eight stages together keep exactly the tasks that match the filter. */
  lemma StagedMatches(tasks: seq<TaskWithStatus>, f: FilterState)
    ensures Staged(tasks, f, StageCount) == Seqs.Filter(tasks, MatchTest(f))
  {
    StagedFilters(tasks, f, StageCount);
    forall t ensures FirstStagesTest(f, StageCount)(t) == MatchTest(f)(t) {
      AllStagesMatch(f, t);
    }
    Seqs.FilterExtensional(tasks, FirstStagesTest(f, StageCount), MatchTest(f));
  }

  /** `applyFilters`: each active criterion narrows `filtered` in turn. */
  method ApplyFilters(tasks: seq<TaskWithStatus>, f: FilterState) returns (filtered: seq<TaskWithStatus>)
    ensures filtered == Seqs.Filter(tasks, MatchTest(f))
  {
    filtered := tasks;
    if |f.packageNames| > 0 {
      filtered := Seqs.Filter(filtered, PackageTest(f));
    }
    assert filtered == Staged(tasks, f, 1);
    if |f.districts| > 0 {
      filtered := Seqs.Filter(filtered, DistrictTest(f));
    }
    assert filtered == Staged(tasks, f, 2);
    if Text.Trim(f.siteNameSearch) != "" {
      filtered := Seqs.Filter(filtered, SearchTest(f));
    }
    assert filtered == Staged(tasks, f, 3);
    if |f.disciplines| > 0 {
      filtered := Seqs.Filter(filtered, DisciplineTest(f));
    }
    assert filtered == Staged(tasks, f, 4);
    if |f.delayFlags| > 0 {
      filtered := Seqs.Filter(filtered, DelayFlagTest(f));
    }
    assert filtered == Staged(tasks, f, 5);
    if f.dateRangeStart.Some? {
      filtered := Seqs.Filter(filtered, StartTest(f));
    }
    assert filtered == Staged(tasks, f, 6);
    if f.dateRangeEnd.Some? {
      filtered := Seqs.Filter(filtered, EndTest(f));
    }
    assert filtered == Staged(tasks, f, 7);
    if f.showOnlyDelayed {
      filtered := Seqs.Filter(filtered, DelayedTest(f));
    }
    assert filtered == Staged(tasks, f, StageCount);

    StagedMatches(tasks, f);
  }

  /** `applyFilters` keeps an order-preserving part of its input, and keeps a
      task exactly when it matches every active criterion. */
  lemma FilterKeepsMatchingInOrder(tasks: seq<TaskWithStatus>, f: FilterState)
    ensures Seqs.Subsequence(Seqs.Filter(tasks, MatchTest(f)), tasks)
    ensures forall t :: t in Seqs.Filter(tasks, MatchTest(f)) <==> t in tasks && Matches(f, t)
  {
    Seqs.FilterIsSubsequence(tasks, MatchTest(f));
    forall t ensures t in Seqs.Filter(tasks, MatchTest(f)) <==> t in tasks && Matches(f, t) {
      Seqs.FilterMembership(tasks, MatchTest(f), t);
    }
  }

  /** Filtering what the filter kept keeps all of it. */
  lemma FilterTwiceIsOnce(tasks: seq<TaskWithStatus>, f: FilterState)
    ensures Seqs.Filter(Seqs.Filter(tasks, MatchTest(f)), MatchTest(f)) == Seqs.Filter(tasks, MatchTest(f))
  {
    Seqs.FilterIdempotent(tasks, MatchTest(f));
  }

  /** The filter state the dashboard starts with: nothing selected. */
  const NoFilters := FilterState([], [], "", [], [], None, None, false)

  /** With no criterion set every task is kept, in place. */
  lemma NoFiltersKeepAll(tasks: seq<TaskWithStatus>)
    ensures Seqs.Filter(tasks, MatchTest(NoFilters)) == tasks
  {
    assert Text.Trim("") == "";
    Seqs.FilterTrue(tasks, MatchTest(NoFilters));
  }

  /** Once a delay flag is chosen, a task whose flag is null or empty is dropped. */
  lemma DelayFlagFilterDropsBlank(tasks: seq<TaskWithStatus>, f: FilterState, t: TaskWithStatus)
    requires |f.delayFlags| > 0
    requires t.task.delayFlagCalc == None || t.task.delayFlagCalc == Some("")
    ensures t !in Seqs.Filter(tasks, MatchTest(f))
  {
    Seqs.FilterMembership(tasks, MatchTest(f), t);
  }

  /** The search text decides whether to search after trimming, but is matched
      untrimmed: " a" finds no site named or numbered "a". */
  lemma SearchTextIsNotTrimmed(f: FilterState, t: TaskWithStatus)
    requires f.siteNameSearch == " a"
    requires t.task.siteName == "a" && t.task.siteId == "a"
    ensures Text.Trim(f.siteNameSearch) == "a"
    ensures !Matches(f, t)
  {
    assert !Text.IsJsWhitespace('a');
    assert Text.Lower(" a") == " a";
    assert Text.Lower("a") == "a";
    assert !Text.Contains("a", " a");
  }

  // ---------------------------------------------------------------- filter options

  /** The four option lists the filter panel offers. */
  datatype FilterOptions = FilterOptions(
    packageNames: seq<string>,
    districts: seq<string>,
    disciplines: seq<string>,
    delayFlags: seq<string>)

  /** One string field of every task, in task order. */
  function Column(tasks: seq<TaskWithStatus>, g: TaskWithStatus -> string): (r: seq<string>)
    ensures |r| == |tasks|
    ensures forall i :: 0 <= i < |tasks| ==> r[i] == g(tasks[i])
  {
    seq(|tasks|, i requires 0 <= i < |tasks| => g(tasks[i]))
  }

  function PackageNameOf(t: TaskWithStatus): string { t.task.packageName }
  function DistrictOf(t: TaskWithStatus): string { t.task.district }
  function DisciplineOf(t: TaskWithStatus): string { t.task.discipline }

  function DelayFlags(tasks: seq<TaskWithStatus>): (r: seq<Option<string>>)
    ensures |r| == |tasks|
    ensures forall i :: 0 <= i < |tasks| ==> r[i] == tasks[i].task.delayFlagCalc
  {
    seq(|tasks|, i requires 0 <= i < |tasks| => tasks[i].task.delayFlagCalc)
  }

  /** `getFilterOptions`: each column's distinct values, sorted; delay flags
      skip null but keep the empty string. */
  function FilterOptionsOf(tasks: seq<TaskWithStatus>): FilterOptions
  {
    FilterOptions(
      Text.SortedUnique(Column(tasks, PackageNameOf)),
      Text.SortedUnique(Column(tasks, DistrictOf)),
      Text.SortedUnique(Column(tasks, DisciplineOf)),
      Text.SortedUnique(Somes(DelayFlags(tasks))))
  }

  /** A value is in a column exactly when some task has it. */
  lemma ColumnMembership(tasks: seq<TaskWithStatus>, g: TaskWithStatus -> string, x: string)
    ensures x in Column(tasks, g) <==> exists t :: t in tasks && g(t) == x
  {
    if exists t :: t in tasks && g(t) == x {
      var t :| t in tasks && g(t) == x;
      var i :| 0 <= i < |tasks| && tasks[i] == t;
      assert Column(tasks, g)[i] == x;
    }
  }

  /** Each option list is sorted without repeats and offers exactly the values
      that occur among the tasks. */
  lemma FilterOptionsCorrect(tasks: seq<TaskWithStatus>)
    ensures var o := FilterOptionsOf(tasks);
      && Text.StrictlySorted(o.packageNames) && Text.StrictlySorted(o.districts)
      && Text.StrictlySorted(o.disciplines) && Text.StrictlySorted(o.delayFlags)
    ensures forall x :: x in FilterOptionsOf(tasks).packageNames <==> exists t :: t in tasks && t.task.packageName == x
    ensures forall x :: x in FilterOptionsOf(tasks).districts <==> exists t :: t in tasks && t.task.district == x
    ensures forall x :: x in FilterOptionsOf(tasks).disciplines <==> exists t :: t in tasks && t.task.discipline == x
    ensures forall x :: x in FilterOptionsOf(tasks).delayFlags <==> exists t :: t in tasks && t.task.delayFlagCalc == Some(x)
  {
    Text.SortedUniqueCorrect(Column(tasks, PackageNameOf));
    Text.SortedUniqueCorrect(Column(tasks, DistrictOf));
    Text.SortedUniqueCorrect(Column(tasks, DisciplineOf));
    Text.SortedUniqueCorrect(Somes(DelayFlags(tasks)));
    forall x ensures x in FilterOptionsOf(tasks).packageNames <==> exists t :: t in tasks && t.task.packageName == x {
      ColumnMembership(tasks, PackageNameOf, x);
    }
    forall x ensures x in FilterOptionsOf(tasks).districts <==> exists t :: t in tasks && t.task.district == x {
      ColumnMembership(tasks, DistrictOf, x);
    }
    forall x ensures x in FilterOptionsOf(tasks).disciplines <==> exists t :: t in tasks && t.task.discipline == x {
      ColumnMembership(tasks, DisciplineOf, x);
    }
    forall x ensures x in FilterOptionsOf(tasks).delayFlags <==> exists t :: t in tasks && t.task.delayFlagCalc == Some(x) {
      var flags := DelayFlags(tasks);
      if exists t :: t in tasks && t.task.delayFlagCalc == Some(x) {
        var t :| t in tasks && t.task.delayFlagCalc == Some(x);
        var i :| 0 <= i < |tasks| && tasks[i] == t;
        assert flags[i] == Some(x);
      }
      if Some(x) in flags {
        var i :| 0 <= i < |flags| && flags[i] == Some(x);
        assert tasks[i] in tasks;
      }
    }
  }

  /** The option lists are the only sorted, repeat-free lists with those values. */
  lemma FilterOptionsCanonical(tasks: seq<TaskWithStatus>, packages: seq<string>)
    requires Text.StrictlySorted(packages)
    requires forall x :: x in packages <==> exists t :: t in tasks && t.task.packageName == x
    ensures packages == FilterOptionsOf(tasks).packageNames
  {
    FilterOptionsCorrect(tasks);
    Text.StrictlySortedUnique(packages, FilterOptionsOf(tasks).packageNames);
  }
}
