/** The site-level schedule summary of the summary API route
    (src/pages/api/summary.ts, lines 27-76): every site is put in one delay
    category and one progress stage, the counts are tallied, and the route's
    own consistency assertions are computed. */
module Summary {
  import opened Types
  import Seqs

  // ---------------------------------------------------------------- categories

  datatype DelayCategory = OnTrackSite | DelayedSite | UnknownSite

  /** `site.tasks.some(t => t.planned_start || t.planned_finish)`. */
  predicate HasSchedule(site: SiteAggregate)
  {
    exists t :: t in site.tasks && (t.task.plannedStart.Some? || t.task.plannedFinish.Some?)
  }

  /** Delayed tasks decide first, then the presence of a planned date. */
  function CategoryOf(site: SiteAggregate): DelayCategory
  {
    if site.delayedTasks > 0 then DelayedSite
    else if HasSchedule(site) then OnTrackSite
    else UnknownSite
  }

  /** The progress stage: 0-25, 26-50, 51-75, 76-99 and 100 percent. */
  function StageIndex(pct: real): (k: nat)
    ensures k < StageCount
    ensures k == 0 <==> pct < 26.0
    ensures k == 1 <==> 26.0 <= pct < 51.0
    ensures k == 2 <==> 51.0 <= pct < 76.0
    ensures k == 3 <==> 76.0 <= pct < 100.0
    ensures k == 4 <==> 100.0 <= pct
  {
    if pct < 26.0 then 0 else if pct < 51.0 then 1 else if pct < 76.0 then 2 else if pct < 100.0 then 3 else 4
  }

  const StageCount: nat := 5

  const StageLabels: seq<string> := ["0-25%", "26-50%", "51-75%", "76-99%", "100%"]

  // ---------------------------------------------------------------- counts

  datatype Breakdown = Breakdown(onTrack: nat, delayed: nat, unknown: nat)

  datatype StageHealth = StageHealth(bucket: string, onTrack: nat, delayed: nat, unknown: nat)

  function InCategory(c: DelayCategory): SiteAggregate -> bool
  {
    (site: SiteAggregate) => CategoryOf(site) == c
  }

  function InCell(k: nat, c: DelayCategory): SiteAggregate -> bool
  {
    (site: SiteAggregate) => StageIndex(site.weightedProgress) == k && CategoryOf(site) == c
  }

  function Count(sites: seq<SiteAggregate>, c: DelayCategory): nat
  {
    |Seqs.Filter(sites, InCategory(c))|
  }

  function CellCount(sites: seq<SiteAggregate>, k: nat, c: DelayCategory): nat
  {
    |Seqs.Filter(sites, InCell(k, c))|
  }

  /** `delayStatusBreakdown` once every site is counted. */
  function BreakdownOf(sites: seq<SiteAggregate>): Breakdown
  {
    Breakdown(Count(sites, OnTrackSite), Count(sites, DelayedSite), Count(sites, UnknownSite))
  }

  /** Entry `k` of `scheduleHealthByStage` once every site is counted. */
  function StageOf(sites: seq<SiteAggregate>, k: nat): StageHealth
    requires k < StageCount
  {
    StageHealth(StageLabels[k], CellCount(sites, k, OnTrackSite), CellCount(sites, k, DelayedSite),
                CellCount(sites, k, UnknownSite))
  }

  /** The first `forEach`: one counter per category. */
  method DelayStatusBreakdown(sites: seq<SiteAggregate>) returns (b: Breakdown)
    ensures b == BreakdownOf(sites)
  {
    b := Breakdown(0, 0, 0);
    for i := 0 to |sites|
      invariant b == BreakdownOf(sites[..i])
    {
      var site := sites[i];
      if site.delayedTasks > 0 {
        b := b.(delayed := b.delayed + 1);
      } else if exists t :: t in site.tasks && (t.task.plannedStart.Some? || t.task.plannedFinish.Some?) {
        b := b.(onTrack := b.onTrack + 1);
      } else {
        b := b.(unknown := b.unknown + 1);
      }
      assert sites[..i + 1][..i] == sites[..i];
    }
    assert sites[..|sites|] == sites;
  }

  /** The second `forEach`: the same three counters in the cell of each
      site's stage, kept in a five-entry array. */
  method ScheduleHealthByStage(sites: seq<SiteAggregate>) returns (stages: seq<StageHealth>)
    ensures stages == Stages(sites)
  {
    var cells := new StageHealth[StageCount](k requires 0 <= k < StageCount => StageHealth(StageLabels[k], 0, 0, 0));
    assert cells[..] == Stages([]);
    for i := 0 to |sites|
      invariant cells[..] == Stages(sites[..i])
    {
      var site := sites[i];
      var pct := site.weightedProgress;
      var bucketIndex := if pct < 26.0 then 0 else if pct < 51.0 then 1 else if pct < 76.0 then 2
                         else if pct < 100.0 then 3 else 4;
      var bucket := cells[bucketIndex];
      var counted := CountSite(bucket, site);
      ghost var before := cells[..];
      cells[bucketIndex] := counted;
      assert cells[..] == before[bucketIndex := counted];
      StageStep(sites, i);
    }
    assert sites[..|sites|] == sites;
    stages := cells[..];
  }

  /** The body of the second `forEach` for one site's stage cell. */
  method CountSite(bucket: StageHealth, site: SiteAggregate) returns (counted: StageHealth)
    ensures counted == Tally(bucket, CategoryOf(site))
  {
    if site.delayedTasks > 0 {
      counted := bucket.(delayed := bucket.delayed + 1);
    } else if exists t :: t in site.tasks && (t.task.plannedStart.Some? || t.task.plannedFinish.Some?) {
      counted := bucket.(onTrack := bucket.onTrack + 1);
    } else {
      counted := bucket.(unknown := bucket.unknown + 1);
    }
  }

  /** All five stage cells once every site of `sites` is counted. */
  function Stages(sites: seq<SiteAggregate>): (r: seq<StageHealth>)
    ensures |r| == StageCount
    ensures forall k :: 0 <= k < StageCount ==> r[k] == StageOf(sites, k)
  {
    seq(StageCount, k requires 0 <= k < StageCount => StageOf(sites, k))
  }

  /** One more site adds one to its own category's counter. */
  function Tally(cell: StageHealth, c: DelayCategory): StageHealth
  {
    match c
    case OnTrackSite => cell.(onTrack := cell.onTrack + 1)
    case DelayedSite => cell.(delayed := cell.delayed + 1)
    case UnknownSite => cell.(unknown := cell.unknown + 1)
  }

  /** Counting site `i` changes only the cell of its stage, by its category. */
  lemma StageStep(sites: seq<SiteAggregate>, i: nat)
    requires i < |sites|
    ensures var k := StageIndex(sites[i].weightedProgress);
            Stages(sites[..i + 1]) == Stages(sites[..i])[k := Tally(Stages(sites[..i])[k], CategoryOf(sites[i]))]
  {
    assert sites[..i + 1][..i] == sites[..i];
  }

  // ---------------------------------------------------------------- assertions

  datatype Assertions = Assertions(
    delayBreakdownMatchesSites: bool,
    scheduleHealthMatchesSites: bool,
    delaySum: nat,
    scheduleSum: nat,
    totalSites: nat)

  datatype SiteSummary = SiteSummary(delayStatusBreakdown: Breakdown, scheduleHealthByStage: seq<StageHealth>,
                                     assertions: Assertions)

  /** `scheduleHealthByStage.reduce(...)`: all counters of all stages. */
  function StageSum(stages: seq<StageHealth>): nat
  {
    if |stages| == 0 then 0
    else
      var b := stages[|stages| - 1];
      StageSum(stages[..|stages| - 1]) + b.onTrack + b.delayed + b.unknown
  }

  /** The summary of lines 27-76: both tallies and the assertions on them,
      which always hold. */
  method SummarizeSites(sites: seq<SiteAggregate>) returns (summary: SiteSummary)
    ensures summary.delayStatusBreakdown == BreakdownOf(sites)
    ensures summary.scheduleHealthByStage == Stages(sites)
    ensures summary.assertions == Assertions(true, true, |sites|, |sites|, |sites|)
  {
    var delayStatusBreakdown := DelayStatusBreakdown(sites);
    var scheduleHealthByStage := ScheduleHealthByStage(sites);
    var delaySum := delayStatusBreakdown.onTrack + delayStatusBreakdown.delayed + delayStatusBreakdown.unknown;
    var scheduleSum := StageSum(scheduleHealthByStage);
    BreakdownCoversSites(sites);
    StagesCoverSites(sites);
    summary := SiteSummary(delayStatusBreakdown, scheduleHealthByStage,
                           Assertions(delaySum == |sites|, scheduleSum == |sites|, delaySum, scheduleSum, |sites|));
  }

  // ---------------------------------------------------------------- lemmas

  /** The stages are consecutive ranges: a higher progress never lands in a
      lower stage, and a site at full progress is in the last stage. */
  lemma StageIndexMonotone(p: real, q: real)
    requires p <= q
    ensures StageIndex(p) <= StageIndex(q)
    ensures StageIndex(100.0) == 4 && StageIndex(0.0) == 0
  {
  }

  /** Each site falls into exactly one category: delayed when it has delayed
      tasks, otherwise on track when some task has a planned date, otherwise
      unknown. */
  lemma CategoryRules(site: SiteAggregate)
    ensures CategoryOf(site) == DelayedSite <==> site.delayedTasks > 0
    ensures CategoryOf(site) == OnTrackSite <==> site.delayedTasks == 0 && HasSchedule(site)
    ensures CategoryOf(site) == UnknownSite <==> site.delayedTasks == 0 && !HasSchedule(site)
  {
  }

  /** The three category counts add up to the number of sites. */
  lemma {:induction false} BreakdownCoversSites(sites: seq<SiteAggregate>)
    ensures Count(sites, OnTrackSite) + Count(sites, DelayedSite) + Count(sites, UnknownSite) == |sites|
  {
    if |sites| > 0 {
      BreakdownCoversSites(sites[..|sites| - 1]);
    }
  }

  /** For each category, its cells over the five stages add up to its count. */
  lemma {:induction false} StagesSplitCategory(sites: seq<SiteAggregate>, c: DelayCategory)
    ensures CellCount(sites, 0, c) + CellCount(sites, 1, c) + CellCount(sites, 2, c)
            + CellCount(sites, 3, c) + CellCount(sites, 4, c) == Count(sites, c)
  {
    if |sites| > 0 {
      StagesSplitCategory(sites[..|sites| - 1], c);
    }
  }

  /** All cells of all stages add up to the number of sites. */
  lemma StagesCoverSites(sites: seq<SiteAggregate>)
    ensures StageSum(Stages(sites)) == |sites|
  {
    var stages := Stages(sites);
    StagesSplitCategory(sites, OnTrackSite);
    StagesSplitCategory(sites, DelayedSite);
    StagesSplitCategory(sites, UnknownSite);
    BreakdownCoversSites(sites);
    assert StageSum(stages) == StageSum(stages[..4]) + stages[4].onTrack + stages[4].delayed + stages[4].unknown;
    assert StageSum(stages[..4]) == StageSum(stages[..3]) + stages[3].onTrack + stages[3].delayed + stages[3].unknown
      by { assert stages[..4][..3] == stages[..3]; }
    assert StageSum(stages[..3]) == StageSum(stages[..2]) + stages[2].onTrack + stages[2].delayed + stages[2].unknown
      by { assert stages[..3][..2] == stages[..2]; }
    assert StageSum(stages[..2]) == StageSum(stages[..1]) + stages[1].onTrack + stages[1].delayed + stages[1].unknown
      by { assert stages[..2][..1] == stages[..1]; }
    assert StageSum(stages[..1]) == stages[0].onTrack + stages[0].delayed + stages[0].unknown
      by { assert stages[..1][..0] == []; }
  }
}
