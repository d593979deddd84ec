/** The reference cases of src/lib/__tests__/dataProcessor.test.ts, proved for
    every list of tasks with the fields those cases fix. */
module ProcessorCases {
  import opened Wrappers
  import opened Types
  import Seqs
  import DataParser
  import opened DataProcessor

  /** Tasks that all carry one key form one site. */
  lemma {:induction false} OneKeyOneSite(tasks: seq<TaskWithStatus>, key: string)
    requires |tasks| > 0 && forall t :: t in tasks ==> t.siteKey == key
    ensures SiteKeys(tasks) == [key]
  {
    if |tasks| > 1 {
      OneKeyOneSite(tasks[..|tasks| - 1], key);
    }
  }

  /** Grouping tasks of a single site gives exactly that site's aggregate. */
  lemma SingleSiteGroup(tasks: seq<TaskWithStatus>, key: string)
    requires |tasks| > 0 && forall t :: t in tasks ==> t.siteKey == key
    ensures GroupBySite(tasks) == [SiteAggregateOf(key, tasks)]
  {
    OneKeyOneSite(tasks, key);
    Seqs.FilterTrue(tasks, OnSite(key));
    GroupBySiteAt(tasks, 0);
  }

  /** Weights 1, 2, ..., n add up to n(n + 1)/2. */
  lemma {:induction false} TriangularWeights(ts: seq<TaskWithStatus>)
    requires forall i :: 0 <= i < |ts| ==> ts[i].weight == (i + 1) as real
    ensures 2.0 * Seqs.Sum(ts, WeightOrOne) == (|ts| * (|ts| + 1)) as real
  {
    var n := |ts|;
    if n > 0 {
      TriangularWeights(ts[..n - 1]);
      assert WeightOrOne(ts[n - 1]) == n as real;
      assert (n - 1) * n + 2 * n == n * (n + 1);
    }
  }

  /** One finished task of weight 1 before fifteen tasks without progress of
      weights 1..15 weigh in at 100/121. */
  lemma DilutedByFifteen(done: TaskWithStatus, rest: seq<TaskWithStatus>)
    requires done.task.progressPct == Some(100.0) && done.weight == 1.0
    requires |rest| == 15
    requires forall i :: 0 <= i < |rest| ==> rest[i].task.progressPct == None && rest[i].weight == (i + 1) as real
    ensures WeightedProgress([done] + rest) == 100.0 / 121.0
  {
    NullProgressDilutes([done], rest);
    TriangularWeights(rest);
    Seqs.SumSingle(done, ProgressTerm);
    Seqs.SumSingle(done, WeightOrOne);
    assert RatioOrZero(100.0, 121.0) == 100.0 / 121.0;
  }

  /** One task with a status ahead of tasks that all have another status. */
  lemma StatusSplit(first: TaskWithStatus, rest: seq<TaskWithStatus>, s: TaskStatus, r: TaskStatus)
    requires first.status == s && s != r && forall t :: t in rest ==> t.status == r
    ensures |Seqs.Filter([first] + rest, HasStatus(s))| == 1
    ensures |Seqs.Filter([first] + rest, HasStatus(r))| == |rest|
  {
    Seqs.FilterConcat([first], rest, HasStatus(s));
    Seqs.FilterConcat([first], rest, HasStatus(r));
    Seqs.FilterNone(rest, HasStatus(s));
    Seqs.FilterNone([first], HasStatus(r));
    Seqs.FilterTrue([first], HasStatus(s));
    Seqs.FilterTrue(rest, HasStatus(r));
  }

  /** Case A: one finished task of weight 1 and fifteen tasks without progress
      of weights 1..15 form one site of sixteen tasks at 100/121, not 100. */
  lemma CaseOneFinishedFifteenUnstarted(done: TaskWithStatus, rest: seq<TaskWithStatus>, key: string)
    requires done.task.progressPct == Some(100.0) && done.weight == 1.0 && done.status == Completed
    requires |rest| == 15
    requires forall i :: 0 <= i < |rest| ==>
               rest[i].task.progressPct == None && rest[i].weight == (i + 1) as real && rest[i].status == NotStarted
    requires done.siteKey == key && forall t :: t in rest ==> t.siteKey == key
    ensures |GroupBySite([done] + rest)| == 1
    ensures GroupBySite([done] + rest)[0].totalTasks == 16
    ensures GroupBySite([done] + rest)[0].completedTasks == 1
    ensures GroupBySite([done] + rest)[0].notStartedTasks == 15
    ensures GroupBySite([done] + rest)[0].weightedProgress == 100.0 / 121.0
  {
    SingleSiteGroup([done] + rest, key);
    DilutedByFifteen(done, rest);
    StatusSplit(done, rest, Completed, NotStarted);
  }

  /** Case C: progress 50, null, 20, null at equal weight 10 gives 17.5. */
  lemma CaseMixedNullAndPartial(a: TaskWithStatus, b: TaskWithStatus, c: TaskWithStatus, d: TaskWithStatus)
    requires a.task.progressPct == Some(50.0) && b.task.progressPct == None
    requires c.task.progressPct == Some(20.0) && d.task.progressPct == None
    requires a.weight == 10.0 && b.weight == 10.0 && c.weight == 10.0 && d.weight == 10.0
    ensures WeightedProgress([a, b, c, d]) == 17.5
  {
    assert [a, b, c, d] == [a, b] + [c, d];
    Seqs.SumConcat([a, b], [c, d], ProgressTerm);
    Seqs.SumConcat([a, b], [c, d], WeightOrOne);
    Seqs.SumPair(a, b, ProgressTerm);
    Seqs.SumPair(c, d, ProgressTerm);
    Seqs.SumPair(a, b, WeightOrOne);
    Seqs.SumPair(c, d, WeightOrOne);
    assert RatioOrZero(700.0, 40.0) == 17.5;
  }

  /** Case D: a finished task and one without progress, each weighing 1 or
      with a zero weight that counts as 1, give 50. */
  lemma CaseDefaultWeights(a: TaskWithStatus, b: TaskWithStatus)
    requires a.task.progressPct == Some(100.0) && b.task.progressPct == None
    requires (a.weight == 0.0 || a.weight == 1.0) && (b.weight == 0.0 || b.weight == 1.0)
    ensures WeightedProgress([a, b]) == 50.0
  {
    Seqs.SumPair(a, b, ProgressTerm);
    Seqs.SumPair(a, b, WeightOrOne);
    assert RatioOrZero(100.0, 2.0) == 50.0;
  }

  /** Case G: a single task at 50 gives exactly 50, and 0 next to null gives
      exactly 0. */
  lemma CaseExactValues(half: TaskWithStatus, zero: TaskWithStatus, none: TaskWithStatus)
    requires half.task.progressPct == Some(50.0) && half.weight == 1.0
    requires zero.task.progressPct == Some(0.0) && zero.weight == 1.0
    requires none.task.progressPct == None && none.weight == 1.0
    ensures WeightedProgress([half]) == 50.0
    ensures WeightedProgress([zero, none]) == 0.0
  {
    Seqs.SumSingle(half, ProgressTerm);
    Seqs.SumSingle(half, WeightOrOne);
    Seqs.SumPair(zero, none, ProgressTerm);
    Seqs.SumPair(zero, none, WeightOrOne);
  }

  /** One task at 100 ahead of tasks without progress, all of weight 1. */
  lemma OneFinishedAmongNulls(first: TaskWithStatus, others: seq<TaskWithStatus>)
    requires first.task.progressPct == Some(100.0) && first.weight == 1.0
    requires forall t :: t in others ==> t.task.progressPct == None && t.weight == 1.0
    ensures OverallProgress([first] + others) == 100.0 / (|others| + 1) as real
  {
    var tasks := [first] + others;
    var n := (|others| + 1) as real;
    assert Seqs.Sum(tasks, ProgressTerm) == 100.0 by {
      Seqs.SumConcat([first], others, ProgressTerm);
      Seqs.SumSingle(first, ProgressTerm);
      Seqs.SumZero(others, ProgressTerm);
    }
    assert Seqs.Sum(tasks, RawWeight) == n by {
      Seqs.SumConstant(tasks, RawWeight, 1.0);
    }
    assert 0.0 < 100.0 / n <= 100.0 by {
      AtMostHundred(n);
    }
  }

  lemma AtMostHundred(n: real)
    requires n >= 1.0
    ensures 0.0 < 100.0 / n <= 100.0
  {
  }

  /** Keys k1 on the first four of six tasks and k2 on the last two. */
  lemma TwoKeys(tasks: seq<TaskWithStatus>, k1: string, k2: string)
    requires |tasks| == 6 && k1 != k2
    requires forall i :: 0 <= i < 6 ==> tasks[i].siteKey == (if i < 4 then k1 else k2)
    ensures |KeySet(tasks)| == 2
  {
    assert tasks[0].siteKey == k1 && tasks[5].siteKey == k2;
    forall k ensures k in KeySet(tasks) <==> k == k1 || k == k2 {
      if k in KeySet(tasks) {
        var t :| t in tasks && t.siteKey == k;
      }
    }
    assert KeySet(tasks) == {k1, k2};
  }

  /** Case E: four tasks of one site (one at 100, three null) and two null
      tasks of another, all of weight 1, give a portfolio progress of 100/6
      over two sites and six tasks. */
  lemma CaseOverallWithNulls(tasks: seq<TaskWithStatus>, k1: string, k2: string)
    requires |tasks| == 6 && k1 != k2
    requires tasks[0].task.progressPct == Some(100.0)
    requires forall i :: 1 <= i < 6 ==> tasks[i].task.progressPct == None
    requires forall i :: 0 <= i < 6 ==> tasks[i].weight == 1.0
    requires forall i :: 0 <= i < 6 ==> tasks[i].siteKey == (if i < 4 then k1 else k2)
    ensures KPIsOf(tasks).overallWeightedProgress == 100.0 / 6.0
    ensures KPIsOf(tasks).totalSites == 2
    ensures KPIsOf(tasks).totalTasks == 6
  {
    var rest := tasks[1..];
    assert tasks == [tasks[0]] + rest;
    forall t | t in rest
      ensures t.task.progressPct == None && t.weight == 1.0
    {
      var j :| 0 <= j < |rest| && rest[j] == t;
      assert t == tasks[j + 1];
    }
    OneFinishedAmongNulls(tasks[0], rest);
    assert OverallProgress(tasks) == 100.0 / 6.0;
    TwoKeys(tasks, k1, k2);
  }

  /** Case F: no tasks give no sites and a portfolio progress of 0. */
  lemma CaseEmpty()
    ensures GroupBySite([]) == []
    ensures KPIsOf([]).overallWeightedProgress == 0.0
  {
    assert SiteKeys([]) == [];
  }
}
