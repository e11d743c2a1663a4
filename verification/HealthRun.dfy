/** What a model health run reports: skipped checks filled in, a stable sort by model id, and totals. */
module HealthRun {
  import opened Products
  import opened WorkerPool

  // ---- filling in ------------------------------------------------------------------------------

  function SkippedCheck(task: Task): Check {
    Check(task.modelId, task.protocol, false, 0, "Skipped")
  }

  /** Empty slots from `dispatched` on become skipped checks. */
  function Filled(results: seq<Check>, tasks: seq<Task>, dispatched: nat): (r: seq<Check>)
    requires |results| == |tasks|
  {
    seq(|tasks|, i requires 0 <= i < |tasks| =>
      if i >= dispatched && results[i].modelId == "" then SkippedCheck(tasks[i]) else results[i])
  }

  method FillSkipped(results: array<Check>, tasks: seq<Task>, dispatched: nat)
    requires results.Length == |tasks| && dispatched <= |tasks|
    modifies results
    ensures results[..] == Filled(old(results[..]), tasks, dispatched)
  {
    for k := dispatched to |tasks|
      invariant forall i :: 0 <= i < |tasks| ==>
                  results[i] == if i < k then Filled(old(results[..]), tasks, dispatched)[i] else old(results[i])
    {
      if results[k].modelId != "" {
        continue;
      }
      results[k] := SkippedCheck(tasks[k]);
    }
  }

  // ---- the order of the report -----------------------------------------------------------------

  /** Go's order on strings. */
  predicate Less(a: string, b: string) {
    b != "" && (a == "" || a[0] < b[0] || (a[0] == b[0] && Less(a[1..], b[1..])))
  }

  /** The strings agree on their first n characters, and then a ends, or has the smaller one. */
  predicate SmallerAfter(a: string, b: string, n: nat) {
    && n <= |a| && n < |b| && a[..n] == b[..n] && (n == |a| || a[n] < b[n])
  }

  lemma {:induction false} LessMeans(a: string, b: string)
    ensures Less(a, b) <==> exists n :: SmallerAfter(a, b, n)
  {
    if a != "" && b != "" && a[0] == b[0] {
      LessMeans(a[1..], b[1..]);
      if n: nat :| SmallerAfter(a[1..], b[1..], n) {
        assert a[..n + 1] == [a[0]] + a[1..][..n] && b[..n + 1] == [b[0]] + b[1..][..n];
        assert SmallerAfter(a, b, n + 1);
      }
      forall n: nat | SmallerAfter(a, b, n) ensures exists m :: SmallerAfter(a[1..], b[1..], m) {
        FirstDiffers(a, b, n);
      }
    } else if b != "" && (a == "" || a[0] < b[0]) {
      assert SmallerAfter(a, b, 0);
    } else {
      forall n: nat | SmallerAfter(a, b, n) ensures false {
        FirstAgrees(a, b, n);
      }
    }
  }

  lemma FirstAgrees(a: string, b: string, n: nat)
    requires SmallerAfter(a, b, n)
    ensures b != "" && (a == "" || a[0] < b[0] || a[0] == b[0])
  {
    if n > 0 {
      assert a[..n][0] == b[..n][0];
    }
  }

  lemma FirstDiffers(a: string, b: string, n: nat)
    requires SmallerAfter(a, b, n) && a != "" && b != "" && a[0] == b[0]
    ensures n > 0 && SmallerAfter(a[1..], b[1..], n - 1)
  {
    if n > 0 {
      assert a[1..][..n - 1] == a[..n][1..] && b[1..][..n - 1] == b[..n][1..];
    }
  }

  lemma {:induction false} NotLessChain(a: string, b: string, c: string)
    requires !Less(b, a) && !Less(c, b)
    ensures !Less(c, a)
  {
    if a != "" && b != "" && c != "" && a[0] == b[0] == c[0] {
      NotLessChain(a[1..], b[1..], c[1..]);
    }
  }

  lemma {:induction false} LessIsStrict(a: string, b: string)
    requires Less(a, b)
    ensures !Less(b, a) && a != b
  {
    if a != "" && a[0] == b[0] {
      LessIsStrict(a[1..], b[1..]);
    }
  }

  function Insert(c: Check, xs: seq<Check>): seq<Check> {
    if xs == [] || !Less(xs[0].modelId, c.modelId) then [c] + xs else [xs[0]] + Insert(c, xs[1..])
  }

  /** sort.SliceStable by model id. */
  function StableSort(xs: seq<Check>): seq<Check> {
    if xs == [] then [] else Insert(xs[0], StableSort(xs[1..]))
  }

  predicate Ascending(xs: seq<Check>) {
    forall i, j :: 0 <= i < j < |xs| ==> !Less(xs[j].modelId, xs[i].modelId)
  }

  /** The checks of one model, in order. */
  function Only(xs: seq<Check>, modelId: string): seq<Check> {
    if xs == [] then [] else (if xs[0].modelId == modelId then [xs[0]] else []) + Only(xs[1..], modelId)
  }

  lemma {:induction false} InsertPermutes(c: Check, xs: seq<Check>)
    ensures multiset(Insert(c, xs)) == multiset{c} + multiset(xs)
  {
    hide Less;
    if xs != [] && Less(xs[0].modelId, c.modelId) {
      InsertPermutes(c, xs[1..]);
      assert xs == [xs[0]] + xs[1..];
    }
  }

  lemma {:induction false} InsertKeeps(c: Check, xs: seq<Check>, modelId: string)
    ensures Only(Insert(c, xs), modelId) == (if c.modelId == modelId then [c] else []) + Only(xs, modelId)
  {
    hide Less;
    if xs != [] && Less(xs[0].modelId, c.modelId) {
      LessIsStrict(xs[0].modelId, c.modelId);
      InsertKeeps(c, xs[1..], modelId);
      assert Insert(c, xs)[1..] == Insert(c, xs[1..]);
    } else {
      assert ([c] + xs)[1..] == xs;
    }
  }

  lemma {:induction false} InsertSorts(c: Check, xs: seq<Check>)
    requires Ascending(xs)
    ensures Ascending(Insert(c, xs))
  {
    if xs == [] {
    } else if !Less(xs[0].modelId, c.modelId) {
      var r := [c] + xs;
      forall j | 0 < j < |r| ensures !Less(r[j].modelId, c.modelId) {
        if j > 1 { NotLessChain(c.modelId, xs[0].modelId, r[j].modelId); }
      }
    } else {
      InsertSorts(c, xs[1..]);
      LessIsStrict(xs[0].modelId, c.modelId);
      InsertFrom(c, xs[1..], xs[0].modelId);
    }
  }

  lemma {:induction false} InsertFrom(c: Check, xs: seq<Check>, low: string)
    requires !Less(c.modelId, low) && forall j :: 0 <= j < |xs| ==> !Less(xs[j].modelId, low)
    ensures forall j :: 0 <= j < |Insert(c, xs)| ==> !Less(Insert(c, xs)[j].modelId, low)
  {
    if xs != [] && Less(xs[0].modelId, c.modelId) {
      InsertFrom(c, xs[1..], low);
    }
  }

  /** Sorting permutes, puts the ids in order, and keeps checks of one model in their order. */
  lemma {:induction false} StableSortSorts(xs: seq<Check>, modelId: string)
    ensures Ascending(StableSort(xs)) && multiset(StableSort(xs)) == multiset(xs)
    ensures Only(StableSort(xs), modelId) == Only(xs, modelId)
  {
    if xs != [] {
      StableSortSorts(xs[1..], modelId);
      InsertPermutes(xs[0], StableSort(xs[1..]));
      InsertKeeps(xs[0], StableSort(xs[1..]), modelId);
      InsertSorts(xs[0], StableSort(xs[1..]));
      assert xs == [xs[0]] + xs[1..];
    }
  }

  // ---- the report ------------------------------------------------------------------------------

  /** The checks of the run, given the pool when its workers are gone. */
  function Report(p: Pool, tasks: seq<Task>): seq<Check>
    requires |p.results| == |tasks|
  {
    StableSort(Filled(p.results, tasks, p.dispatched))
  }

  ghost predicate Answers(check: Check, task: Task, run: bool) {
    if run then WasChecked(check, task) else check == Check(task.modelId, task.protocol, false, 0, "Skipped")
  }

  /** Whatever the interleaving and wherever it was cancelled, the report is a sorted permutation of
      one check a task, in task order: the probed ones, then the skipped ones; none is skipped unless
      the run was cancelled. */
  lemma ReportIsComplete(tasks: seq<Task>, steps: seq<Step>, n: nat, modelId: string)
    requires n <= |steps| && Possible(tasks, steps, n) && AllExited(After(tasks, steps, n))
    ensures var p := After(tasks, steps, n);
            && |p.results| == |tasks|
            && var each := Filled(p.results, tasks, p.dispatched);
            && (forall k :: 0 <= k < |tasks| ==> Answers(each[k], tasks[k], k < p.dispatched))
            && (p.cancelled || p.dispatched >= |tasks|)
            && |Report(p, tasks)| == |tasks| && multiset(Report(p, tasks)) == multiset(each)
            && Ascending(Report(p, tasks)) && Only(Report(p, tasks), modelId) == Only(each, modelId)
  {
    var p := After(tasks, steps, n);
    Kept(tasks, steps, n, 0);
    forall k: nat | k < |tasks| ensures Answers(Filled(p.results, tasks, p.dispatched)[k], tasks[k], k < p.dispatched) {
      PoolDone(tasks, steps, n, k);
    }
    var each := Filled(p.results, tasks, p.dispatched);
    StableSortSorts(each, modelId);
    assert |multiset(each)| == |each| && |multiset(StableSort(each))| == |StableSort(each)|;
    hide After, Possible, Filled, StableSort, Ascending, Only, Answers, AllExited, SlotIs, Exclusive;
  }

  // ---- the summary -----------------------------------------------------------------------------

  function CountHealthy(checks: seq<Check>, n: nat): (h: nat)
    requires n <= |checks|
    ensures h <= n
  {
    if n == 0 then 0 else CountHealthy(checks, n - 1) + if checks[n - 1].success then 1 else 0
  }

  function HealthyLatency(checks: seq<Check>, n: nat): nat
    requires n <= |checks|
  {
    if n == 0 then 0 else HealthyLatency(checks, n - 1) + if checks[n - 1].success then checks[n - 1].durationMs else 0
  }

  datatype Summary = Summary(total: nat, healthy: nat, failed: nat, avgLatencyMs: real)

  datatype ChartPoint = ChartPoint(modelId: string, durationMs: nat, statusLabel: string)

  /** The latencies of the healthy checks only: their sum lies between what their least and their
      greatest would give. */
  lemma {:induction false} LatencyBetween(checks: seq<Check>, n: nat, low: nat, high: nat)
    requires n <= |checks| && forall i :: 0 <= i < n && checks[i].success ==> low <= checks[i].durationMs <= high
    ensures Product(CountHealthy(checks, n), low) <= HealthyLatency(checks, n) <= Product(CountHealthy(checks, n), high)
  {
    hide Product;
    ProductMore(0, low);
    ProductMore(0, high);
    if n > 0 {
      LatencyBetween(checks, n - 1, low, high);
      ProductMore(CountHealthy(checks, n - 1), low);
      ProductMore(CountHealthy(checks, n - 1), high);
    }
  }

  function Mean(sum: nat, count: nat): real {
    if count > 0 then sum as real / count as real else 0.0
  }

  lemma MeanTimesCount(sum: nat, count: nat)
    ensures count == 0 ==> Mean(sum, count) == 0.0
    ensures count > 0 ==> Mean(sum, count) * count as real == sum as real
  {}

  /** The loop of executeModelHealthRun. */
  method Summarize(checks: seq<Check>) returns (s: Summary, chart: seq<ChartPoint>)
    ensures s.total == |checks| == s.healthy + s.failed && s.healthy == CountHealthy(checks, |checks|)
    ensures s.healthy == 0 ==> s.avgLatencyMs == 0.0
    ensures s.avgLatencyMs * s.healthy as real == HealthyLatency(checks, |checks|) as real
    ensures |chart| == |checks|
    ensures forall i :: 0 <= i < |checks| ==> chart[i] == ChartPoint(checks[i].modelId, checks[i].durationMs, checks[i].statusLabel)
  {
    hide Mean;
    var total, healthy, failed, latencySum, latencyCount := 0, 0, 0, 0, 0;
    chart := [];
    for i := 0 to |checks|
      invariant total == i && healthy == latencyCount == CountHealthy(checks, i) && failed == i - healthy
      invariant latencySum == HealthyLatency(checks, i) && (latencyCount == 0 ==> latencySum == 0)
      invariant |chart| == i && forall j :: 0 <= j < i ==>
                  chart[j] == ChartPoint(checks[j].modelId, checks[j].durationMs, checks[j].statusLabel)
    {
      var check := checks[i];
      total := total + 1;
      if check.success {
        healthy, latencySum, latencyCount := healthy + 1, latencySum + check.durationMs, latencyCount + 1;
      } else {
        failed := failed + 1;
      }
      chart := chart + [ChartPoint(check.modelId, check.durationMs, check.statusLabel)];
    }
    MeanTimesCount(latencySum, latencyCount);
    s := Summary(total, healthy, failed, Mean(latencySum, latencyCount));
  }
}
