/** The derived values of the dashboard view (src/components/Dashboard.tsx,
    lines 66-124): the filtered tasks, the sites shown and their order, the
    KPIs, the filter options, the latest update and the attention lists. */
module Dashboard {
  import opened Wrappers
  import opened Types
  import Seqs
  import Text
  import DataProcessor

  // ---------------------------------------------------------------- quick filters

  /** The four quick filters of the alert banner. */
  datatype QuickFilter = OverdueOnly | StaleOnly | HighRisk | MissingEvidence

  predicate PassesQuick(q: QuickFilter, t: TaskWithStatus)
  {
    match q
    case OverdueOnly => t.isOverdue
    case StaleOnly => t.staleUpdateFlag
    case HighRisk => t.riskTask >= 40.0
    case MissingEvidence => !t.evidenceCompliantFlag
  }

  function QuickTest(q: QuickFilter): TaskWithStatus -> bool
  {
    (t: TaskWithStatus) => PassesQuick(q, t)
  }

  /** `filteredTasks`: the quick filter, if one is set, on top of `applyFilters`. */
  function FilteredTasks(tasks: seq<TaskWithStatus>, filters: FilterState, quick: Option<QuickFilter>)
    : seq<TaskWithStatus>
  {
    var base := Seqs.Filter(tasks, DataProcessor.MatchTest(filters));
    match quick
    case None => base
    case Some(q) => Seqs.Filter(base, QuickTest(q))
  }

  /** The quick filter keeps an order-preserving part of what `applyFilters`
      returned, and a task stays exactly when it matches the filters and the
      quick filter's own test. */
  lemma FilteredTasksSpec(tasks: seq<TaskWithStatus>, filters: FilterState, quick: Option<QuickFilter>)
    ensures Seqs.Subsequence(FilteredTasks(tasks, filters, quick), Seqs.Filter(tasks, DataProcessor.MatchTest(filters)))
    ensures forall t :: t in FilteredTasks(tasks, filters, quick) <==>
              t in tasks && DataProcessor.Matches(filters, t) && (quick.Some? ==> PassesQuick(quick.value, t))
  {
    var base := Seqs.Filter(tasks, DataProcessor.MatchTest(filters));
    DataProcessor.FilterKeepsMatchingInOrder(tasks, filters);
    match quick
    case None =>
      Seqs.SubsequenceReflexive(base);
    case Some(q) =>
      Seqs.FilterIsSubsequence(base, QuickTest(q));
      forall t
        ensures t in Seqs.Filter(base, QuickTest(q)) <==> t in base && PassesQuick(q, t)
      {
        Seqs.FilterMembership(base, QuickTest(q), t);
      }
  }

  // ---------------------------------------------------------------- sites shown

  function ShownTest(keys: set<string>): SiteAggregate -> bool
  {
    (site: SiteAggregate) => site.siteKey in keys
  }

  /** `filtered`: the aggregates of all tasks whose key some filtered task has. */
  function SelectedSites(tasks: seq<TaskWithStatus>, filteredTasks: seq<TaskWithStatus>): seq<SiteAggregate>
  {
    Seqs.Filter(DataProcessor.GroupBySite(tasks), ShownTest(DataProcessor.KeySet(filteredTasks)))
  }

  /** The order the comparator of the site list gives: more delayed tasks
      first, then lower weighted progress first. */
  predicate InOrder(a: SiteAggregate, b: SiteAggregate)
  {
    a.delayedTasks > b.delayedTasks || (a.delayedTasks == b.delayedTasks && a.weightedProgress <= b.weightedProgress)
  }

  predicate SortedSites(sites: seq<SiteAggregate>)
  {
    forall i, j :: 0 <= i < j < |sites| ==> InOrder(sites[i], sites[j])
  }

  /** Puts `x` in front of the first site it may precede, so that sites the
      comparator ties keep their relative order. */
  function Insert(x: SiteAggregate, sorted: seq<SiteAggregate>): seq<SiteAggregate>
  {
    if |sorted| == 0 || InOrder(x, sorted[0]) then [x] + sorted
    else [sorted[0]] + Insert(x, sorted[1..])
  }

  /** The stable sort of a fresh copy of the selected sites. */
  function SortSites(sites: seq<SiteAggregate>): seq<SiteAggregate>
  {
    if |sites| == 0 then [] else Insert(sites[0], SortSites(sites[1..]))
  }

  /** Each site may precede the next. */
  predicate Chained(sites: seq<SiteAggregate>)
  {
    forall i :: 0 < i < |sites| ==> InOrder(sites[i - 1], sites[i])
  }

  /** Inserting adds `x` and loses nothing. */
  lemma {:induction false} InsertKeepsSites(x: SiteAggregate, sorted: seq<SiteAggregate>)
    ensures multiset(Insert(x, sorted)) == multiset([x] + sorted)
  {
    if |sorted| > 0 && !InOrder(x, sorted[0]) {
      InsertKeepsSites(x, sorted[1..]);
      assert sorted == [sorted[0]] + sorted[1..];
    }
  }

  /** Inserting into a chained list keeps it chained; the new head is `x` or the old head. */
  lemma {:induction false} InsertChained(x: SiteAggregate, sorted: seq<SiteAggregate>)
    requires Chained(sorted)
    ensures |Insert(x, sorted)| == |sorted| + 1
    ensures Insert(x, sorted)[0] == x || Insert(x, sorted)[0] == sorted[0]
    ensures Chained(Insert(x, sorted))
  {
    if |sorted| > 0 && !InOrder(x, sorted[0]) {
      var tail := sorted[1..];
      InsertChained(x, tail);
      var rest := Insert(x, tail);
      var r := [sorted[0]] + rest;
      assert InOrder(sorted[0], rest[0]) by {
        if |tail| > 0 && rest[0] == tail[0] {
          assert sorted[1] == tail[0];
        }
      }
      forall i | 0 < i < |r|
        ensures InOrder(r[i - 1], r[i])
      {
        if i > 1 {
          assert r[i - 1] == rest[i - 2] && r[i] == rest[i - 1];
        }
      }
    }
  }

  /** A chained list is sorted: the order is transitive. */
  lemma {:induction false} ChainedIsSorted(sites: seq<SiteAggregate>)
    requires Chained(sites)
    ensures SortedSites(sites)
  {
    if |sites| > 1 {
      var init := sites[..|sites| - 1];
      assert Chained(init) by {
        forall i | 0 < i < |init|
          ensures InOrder(init[i - 1], init[i])
        {
          assert init[i - 1] == sites[i - 1] && init[i] == sites[i];
        }
      }
      ChainedIsSorted(init);
      forall i, j | 0 <= i < j < |sites|
        ensures InOrder(sites[i], sites[j])
      {
        if j < |sites| - 1 {
          assert sites[i] == init[i] && sites[j] == init[j];
        } else if i < j - 1 {
          assert InOrder(init[i], init[j - 1]);
        }
      }
    }
  }

  lemma {:induction false} SortSitesChained(sites: seq<SiteAggregate>)
    ensures Chained(SortSites(sites))
    ensures multiset(SortSites(sites)) == multiset(sites)
  {
    if |sites| > 0 {
      SortSitesChained(sites[1..]);
      InsertChained(sites[0], SortSites(sites[1..]));
      InsertKeepsSites(sites[0], SortSites(sites[1..]));
      assert sites == [sites[0]] + sites[1..];
    }
  }

  /** The sort orders the sites and is a permutation of them. */
  lemma SortSitesSpec(sites: seq<SiteAggregate>)
    ensures SortedSites(SortSites(sites))
    ensures multiset(SortSites(sites)) == multiset(sites)
  {
    SortSitesChained(sites);
    ChainedIsSorted(SortSites(sites));
  }

  /** `sites`: the selected aggregates, sorted. */
  function DisplayedSites(tasks: seq<TaskWithStatus>, filteredTasks: seq<TaskWithStatus>): seq<SiteAggregate>
  {
    SortSites(SelectedSites(tasks, filteredTasks))
  }

  /** The sites shown are a sorted permutation of the selection, and a site is
      shown exactly when it is an aggregate of all tasks whose key occurs among
      the filtered tasks. */
  lemma DisplayedSitesSpec(tasks: seq<TaskWithStatus>, filteredTasks: seq<TaskWithStatus>)
    ensures SortedSites(DisplayedSites(tasks, filteredTasks))
    ensures multiset(DisplayedSites(tasks, filteredTasks)) == multiset(SelectedSites(tasks, filteredTasks))
    ensures forall a :: a in DisplayedSites(tasks, filteredTasks) <==>
              a in DataProcessor.GroupBySite(tasks) && exists t :: t in filteredTasks && t.siteKey == a.siteKey
  {
    var selected := SelectedSites(tasks, filteredTasks);
    SortSitesSpec(selected);
    forall a
      ensures a in DisplayedSites(tasks, filteredTasks) <==>
                a in DataProcessor.GroupBySite(tasks) && exists t :: t in filteredTasks && t.siteKey == a.siteKey
    {
      assert a in DisplayedSites(tasks, filteredTasks) <==> a in multiset(selected);
      Seqs.FilterMembership(DataProcessor.GroupBySite(tasks), ShownTest(DataProcessor.KeySet(filteredTasks)), a);
    }
  }

  /** A site shows the same numbers whatever the filters: it is the aggregate
      of all tasks with its key, so two views showing one key show one site. */
  lemma SitesIgnoreFilters(tasks: seq<TaskWithStatus>, filtered1: seq<TaskWithStatus>,
                           filtered2: seq<TaskWithStatus>, a: SiteAggregate, b: SiteAggregate)
    requires a in DisplayedSites(tasks, filtered1) && b in DisplayedSites(tasks, filtered2)
    requires a.siteKey == b.siteKey
    ensures a == b
    ensures a.tasks == DataProcessor.SiteTasks(tasks, a.siteKey)
  {
    DisplayedSitesSpec(tasks, filtered1);
    DisplayedSitesSpec(tasks, filtered2);
    var sites := DataProcessor.GroupBySite(tasks);
    var i :| 0 <= i < |sites| && sites[i] == a;
    var j :| 0 <= j < |sites| && sites[j] == b;
    DataProcessor.SiteKeysUnique(tasks);
    DataProcessor.SiteHoldsItsTasks(tasks, i);
  }

  // ---------------------------------------------------------------- site count

  predicate KeysDistinct(sites: seq<SiteAggregate>)
  {
    forall i, j :: 0 <= i < j < |sites| ==> sites[i].siteKey != sites[j].siteKey
  }

  function SiteKeySeq(sites: seq<SiteAggregate>): seq<string>
  {
    seq(|sites|, i requires 0 <= i < |sites| => sites[i].siteKey)
  }

  lemma {:induction false} FilterKeepsKeysDistinct(sites: seq<SiteAggregate>, p: SiteAggregate -> bool)
    requires KeysDistinct(sites)
    ensures KeysDistinct(Seqs.Filter(sites, p))
  {
    if |sites| > 0 {
      var init, last := sites[..|sites| - 1], sites[|sites| - 1];
      FilterKeepsKeysDistinct(init, p);
      var r := Seqs.Filter(sites, p);
      var fi := Seqs.Filter(init, p);
      if p(last) {
        forall i, j | 0 <= i < j < |r|
          ensures r[i].siteKey != r[j].siteKey
        {
          if j == |fi| {
            assert r[i] in fi;
            Seqs.FilterMembership(init, p, r[i]);
            var k :| 0 <= k < |init| && init[k] == r[i];
            assert sites[k] == r[i];
          }
        }
      }
    }
  }

  /** Sites with distinct keys are as many as their keys. */
  lemma DistinctKeysCount(sites: seq<SiteAggregate>)
    requires KeysDistinct(sites)
    ensures |sites| == |set a | a in sites :: a.siteKey|
  {
    var keys := SiteKeySeq(sites);
    Seqs.DistinctCardinality(keys);
    assert (set x | x in keys) == (set a | a in sites :: a.siteKey) by {
      forall x | x in keys
        ensures x in (set a | a in sites :: a.siteKey)
      {
        var i :| 0 <= i < |keys| && keys[i] == x;
        assert sites[i] in sites;
      }
      forall a | a in sites
        ensures a.siteKey in keys
      {
        var i :| 0 <= i < |sites| && sites[i] == a;
        assert keys[i] == a.siteKey;
      }
    }
  }

  /** When the filtered tasks come from the task list, as many sites are
      shown as the KPIs of the filtered tasks count. */
  lemma ShownSitesMatchKpis(tasks: seq<TaskWithStatus>, filteredTasks: seq<TaskWithStatus>)
    requires forall t :: t in filteredTasks ==> t in tasks
    ensures |DisplayedSites(tasks, filteredTasks)| == DataProcessor.KPIsOf(filteredTasks).totalSites
  {
    var sites := DataProcessor.GroupBySite(tasks);
    var keys := DataProcessor.KeySet(filteredTasks);
    var selected := SelectedSites(tasks, filteredTasks);
    DataProcessor.SiteKeysUnique(tasks);
    FilterKeepsKeysDistinct(sites, ShownTest(keys));
    DistinctKeysCount(selected);
    assert (set a | a in selected :: a.siteKey) == keys by {
      forall a | a in selected
        ensures a.siteKey in keys
      {
        Seqs.FilterMembership(sites, ShownTest(keys), a);
      }
      forall k | k in keys
        ensures exists a :: a in selected && a.siteKey == k
      {
        var t :| t in filteredTasks && t.siteKey == k;
        DataProcessor.EveryTaskFiled(tasks, t);
        var i :| 0 <= i < |sites| && sites[i].siteKey == k && t in sites[i].tasks;
        Seqs.FilterMembership(sites, ShownTest(keys), sites[i]);
      }
    }
    SortSitesSpec(selected);
    assert |SortSites(selected)| == |multiset(SortSites(selected))|;
  }

  // ---------------------------------------------------------------- latest update

  /** `lastUpdated`: the latest update among the filtered tasks, or null. */
  function LastUpdated(filteredTasks: seq<TaskWithStatus>): (r: Option<Date>)
    ensures r.None? <==> forall t :: t in filteredTasks ==> t.task.lastUpdated.None?
    ensures r.Some? ==> (exists t :: t in filteredTasks && t.task.lastUpdated == r)
                        && forall t :: t in filteredTasks && t.task.lastUpdated.Some? ==> t.task.lastUpdated.value <= r.value
  {
    var ds := DataProcessor.LastUpdates(filteredTasks);
    var r := DataProcessor.Latest(ds);
    assert forall i :: 0 <= i < |filteredTasks| ==> ds[i] == filteredTasks[i].task.lastUpdated;
    assert forall t :: t in filteredTasks ==> exists i :: 0 <= i < |filteredTasks| && filteredTasks[i] == t;
    r
  }

  // ---------------------------------------------------------------- attention

  predicate HasDelayed(site: SiteAggregate)
  {
    site.delayedTasks > 0
  }

  /** A site without progress although a planned finish is set. */
  predicate ZeroProgressPlanned(site: SiteAggregate)
  {
    site.weightedProgress == 0.0 && site.maxPlannedFinish.Some?
  }

  function DelayedLabel(site: SiteAggregate): string
  {
    site.siteName + " (" + Text.NatToString(site.delayedTasks) + " delayed)"
  }

  function DelayedLabels(sites: seq<SiteAggregate>): seq<string>
  {
    seq(|sites|, i requires 0 <= i < |sites| => DelayedLabel(sites[i]))
  }

  function SiteNames(sites: seq<SiteAggregate>): seq<string>
  {
    seq(|sites|, i requires 0 <= i < |sites| => sites[i].siteName)
  }

  /** `topDelayed`: the first three shown sites with delayed tasks. */
  function TopDelayed(sites: seq<SiteAggregate>): seq<string>
  {
    DelayedLabels(Seqs.Take(Seqs.Filter(sites, HasDelayed), 3))
  }

  /** `zeroProgressAfterStart`: the first three shown sites without progress
      that have a planned finish. */
  function ZeroProgressAfterStart(sites: seq<SiteAggregate>): seq<string>
  {
    SiteNames(Seqs.Take(Seqs.Filter(sites, ZeroProgressPlanned), 3))
  }

  /** The delayed list labels the first sites with delayed tasks, in order:
      as many as qualify, up to three. */
  lemma TopDelayedSpec(sites: seq<SiteAggregate>)
    ensures |TopDelayed(sites)| == Min3(|Seqs.Filter(sites, HasDelayed)|)
    ensures forall i :: 0 <= i < |TopDelayed(sites)| ==>
              TopDelayed(sites)[i] == DelayedLabel(Seqs.Filter(sites, HasDelayed)[i])
    ensures forall s :: s in Seqs.Filter(sites, HasDelayed) <==> s in sites && HasDelayed(s)
    ensures Seqs.Subsequence(Seqs.Filter(sites, HasDelayed), sites)
  {
    Seqs.FilterIsSubsequence(sites, HasDelayed);
    forall s ensures s in Seqs.Filter(sites, HasDelayed) <==> s in sites && HasDelayed(s) {
      Seqs.FilterMembership(sites, HasDelayed, s);
    }
  }

  /** The zero-progress list names the first sites at 0 with a planned
      finish, in order: as many as qualify, up to three. */
  lemma ZeroProgressSpec(sites: seq<SiteAggregate>)
    ensures |ZeroProgressAfterStart(sites)| == Min3(|Seqs.Filter(sites, ZeroProgressPlanned)|)
    ensures forall i :: 0 <= i < |ZeroProgressAfterStart(sites)| ==>
              ZeroProgressAfterStart(sites)[i] == Seqs.Filter(sites, ZeroProgressPlanned)[i].siteName
    ensures forall s :: s in Seqs.Filter(sites, ZeroProgressPlanned) <==> s in sites && ZeroProgressPlanned(s)
    ensures Seqs.Subsequence(Seqs.Filter(sites, ZeroProgressPlanned), sites)
  {
    Seqs.FilterIsSubsequence(sites, ZeroProgressPlanned);
    forall s ensures s in Seqs.Filter(sites, ZeroProgressPlanned) <==> s in sites && ZeroProgressPlanned(s) {
      Seqs.FilterMembership(sites, ZeroProgressPlanned, s);
    }
  }

  function Min3(n: nat): nat
  {
    if n < 3 then n else 3
  }

  // ---------------------------------------------------------------- the view

  datatype DashboardView = DashboardView(
    filteredTasks: seq<TaskWithStatus>,
    sites: seq<SiteAggregate>,
    kpis: DashboardKPIs,
    filterOptions: DataProcessor.FilterOptions,
    lastUpdated: Option<Date>,
    topDelayed: seq<string>,
    zeroProgressAfterStart: seq<string>)

  /** Every value the dashboard derives from its tasks, filters and quick filter. */
  function ViewOf(tasks: seq<TaskWithStatus>, filters: FilterState, quick: Option<QuickFilter>): DashboardView
  {
    var filteredTasks := FilteredTasks(tasks, filters, quick);
    var sites := DisplayedSites(tasks, filteredTasks);
    DashboardView(filteredTasks, sites, DataProcessor.KPIsOf(filteredTasks),
                  DataProcessor.FilterOptionsOf(tasks), LastUpdated(filteredTasks),
                  TopDelayed(sites), ZeroProgressAfterStart(sites))
  }

  /** The KPIs count the filtered tasks and as many sites as are shown, while
      the filter options still offer the values of every task, including the
      ones the filters hide. */
  lemma ViewConsistent(tasks: seq<TaskWithStatus>, filters: FilterState, quick: Option<QuickFilter>)
    ensures var v := ViewOf(tasks, filters, quick);
      && v.kpis.totalTasks == |v.filteredTasks|
      && v.kpis.totalSites == |v.sites|
      && forall t :: t in tasks ==> t.task.district in v.filterOptions.districts
                                    && t.task.packageName in v.filterOptions.packageNames
                                    && t.task.discipline in v.filterOptions.disciplines
  {
    var filteredTasks := FilteredTasks(tasks, filters, quick);
    FilteredTasksSpec(tasks, filters, quick);
    ShownSitesMatchKpis(tasks, filteredTasks);
    DataProcessor.FilterOptionsCorrect(tasks);
  }
}
