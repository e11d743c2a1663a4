/** The model health run: building the tasks, the dispatcher and its workers as interleaved steps,
    what they leave behind, and the summary. */
module WorkerPool {
  import opened Optional

  datatype CatalogItem = CatalogItem(id: string, embeddings: bool)

  datatype Task = Task(modelId: string, protocol: string)

  datatype Check = Check(modelId: string, protocol: string, success: bool, durationMs: nat, statusLabel: string)

  /** The zero value a result slot starts with. */
  const ZERO := Check("", "", false, 0, "")

  // ---- building the tasks ----------------------------------------------------------------------

  function TaskFor(item: CatalogItem, protocol: string): Task {
    Task(item.id, if protocol != "auto" then protocol else if item.embeddings then "embeddings" else "chat")
  }

  /** No item before n has the id. */
  predicate NoneBefore(catalog: seq<CatalogItem>, modelId: string, n: nat) {
    forall j :: 0 <= j < n && j < |catalog| ==> catalog[j].id != modelId
  }

  /** buildModelRunTasks: in single scope only the first item with that id, otherwise every item. */
  method BuildTasks(catalog: seq<CatalogItem>, scope: string, modelId: string, protocol: string) returns (tasks: seq<Task>)
    ensures scope != "single" ==> |tasks| == |catalog| && forall i :: 0 <= i < |catalog| ==> tasks[i] == TaskFor(catalog[i], protocol)
    ensures scope == "single" && NoneBefore(catalog, modelId, |catalog|) ==> tasks == []
    ensures scope == "single" ==> forall i :: 0 <= i < |catalog| && catalog[i].id == modelId && NoneBefore(catalog, modelId, i) ==>
              tasks == [TaskFor(catalog[i], protocol)]
  {
    tasks := [];
    if scope == "single" {
      for i := 0 to |catalog|
        invariant tasks == [] && NoneBefore(catalog, modelId, i)
      {
        if catalog[i].id == modelId {
          tasks := tasks + [TaskFor(catalog[i], protocol)];
          break;
        }
      }
      return;
    }
    for i := 0 to |catalog|
      invariant |tasks| == i && forall j :: 0 <= j < i ==> tasks[j] == TaskFor(catalog[j], protocol)
    {
      tasks := tasks + [TaskFor(catalog[i], protocol)];
    }
  }

  // ---- dispatcher and workers ------------------------------------------------------------------

  /** What one probe of the upstream came to; `dimension` is the length of the longest vector in an
      embeddings response, None if the response cannot be read. */
  datatype Probe = NoResponse(ms: nat) | Response(ms: nat, status: int, dimension: Option<nat>)

  function CheckOf(task: Task, probe: Probe): Check {
    if task.protocol == "embeddings" then EmbeddingsCheck(task.modelId, probe) else ChatCheck(task.modelId, probe)
  }

  /** runSingleModelChatCheck. */
  function ChatCheck(modelId: string, probe: Probe): Check {
    match probe
    case NoResponse(ms) => Check(modelId, "chat", false, ms, "Error")
    case Response(ms, status, _) =>
      if status < 200 || status >= 300 then Check(modelId, "chat", false, ms, "Failed") else Check(modelId, "chat", true, ms, "Healthy")
  }

  /** runSingleModelEmbeddingsCheck. */
  function EmbeddingsCheck(modelId: string, probe: Probe): Check {
    match probe
    case NoResponse(ms) => Check(modelId, "embeddings", false, ms, "Error")
    case Response(ms, status, dimension) =>
      if status < 200 || status >= 300 || dimension.None? || dimension.value == 0
      then Check(modelId, "embeddings", false, ms, "Failed")
      else Check(modelId, "embeddings", true, ms, "Healthy")
  }

  datatype WorkerAt = Idle | Busy(task: nat) | Exited

  /** `closed` says the index channel is closed; the dispatcher has then stopped. */
  datatype Pool = Pool(dispatched: nat, closed: bool, cancelled: bool, workers: seq<WorkerAt>, results: seq<Check>)

  const WORKERS := 4

  function Begin(tasks: seq<Task>): Pool {
    var n := if |tasks| < WORKERS then |tasks| else WORKERS;
    Pool(0, false, false, seq(n, _ => Idle), seq(|tasks|, _ => ZERO))
  }

  /** `w` is a worker: it takes the next index, stores a result, or sees the channel closed. */
  datatype Step = Cancel | Dispatch(w: nat) | CloseEarly | CloseAtEnd | Store(w: nat, probe: Probe) | Exit(w: nat)

  predicate Enabled(p: Pool, step: Step, tasks: seq<Task>) {
    match step
    case Cancel => !p.cancelled
    case Dispatch(w) => !p.closed && p.dispatched < |tasks| && w < |p.workers| && p.workers[w].Idle?
    case CloseEarly => !p.closed && p.dispatched < |tasks| && p.cancelled
    case CloseAtEnd => !p.closed && p.dispatched >= |tasks|
    case Store(w, _) => w < |p.workers| && p.workers[w].Busy? && p.workers[w].task < |tasks| == |p.results|
    case Exit(w) => p.closed && w < |p.workers| && p.workers[w].Idle?
  }

  function Do(p: Pool, step: Step, tasks: seq<Task>): Pool
    requires Enabled(p, step, tasks)
  {
    match step
    case Cancel => p.(cancelled := true)
    case Dispatch(w) => p.(dispatched := p.dispatched + 1, workers := p.workers[w := Busy(p.dispatched)])
    case CloseEarly => p.(closed := true)
    case CloseAtEnd => p.(closed := true)
    case Store(w, probe) =>
      var k := p.workers[w].task;
      p.(workers := p.workers[w := Idle], results := p.results[k := CheckOf(tasks[k], probe)])
    case Exit(w) => p.(workers := p.workers[w := Exited])
  }

  predicate Possible(tasks: seq<Task>, steps: seq<Step>, n: nat)
    requires n <= |steps|
    decreases n, 0
  {
    n == 0 || (Possible(tasks, steps, n - 1) && Enabled(After(tasks, steps, n - 1), steps[n - 1], tasks))
  }

  function After(tasks: seq<Task>, steps: seq<Step>, n: nat): Pool
    requires n <= |steps| && Possible(tasks, steps, n)
    decreases n, 1
  {
    if n == 0 then Begin(tasks) else Do(After(tasks, steps, n - 1), steps[n - 1], tasks)
  }

  /** The slot a step writes, if it writes one. */
  predicate Writes(p: Pool, step: Step, k: nat) {
    step.Store? && step.w < |p.workers| && p.workers[step.w] == Busy(k)
  }

  /** How often slot k has been written in the first n steps. */
  function Written(tasks: seq<Task>, steps: seq<Step>, n: nat, k: nat): nat
    requires n <= |steps| && Possible(tasks, steps, n)
  {
    if n == 0 then 0
    else Written(tasks, steps, n - 1, k) + if Writes(After(tasks, steps, n - 1), steps[n - 1], k) then 1 else 0
  }

  // ---- what every step keeps -------------------------------------------------------------------

  ghost predicate Shape(p: Pool, tasks: seq<Task>) {
    && |p.results| == |tasks| && p.dispatched <= |tasks|
    && |p.workers| == (if |tasks| < WORKERS then |tasks| else WORKERS)
    && (p.closed && p.dispatched < |tasks| ==> p.cancelled)
    && (forall w :: 0 <= w < |p.workers| && p.workers[w].Busy? ==> p.workers[w].task < p.dispatched)
    && (forall w :: 0 <= w < |p.workers| && p.workers[w].Exited? ==> p.closed)
  }

  ghost predicate HeldBy(p: Pool, k: nat, w: nat) {
    w < |p.workers| && p.workers[w] == Busy(k)
  }

  ghost predicate Held(p: Pool, k: nat) {
    exists w :: HeldBy(p, k, w)
  }

  /** No two workers hold the same index. */
  ghost predicate Exclusive(p: Pool) {
    forall v, w :: 0 <= v < w < |p.workers| && p.workers[v].Busy? ==> p.workers[v] != p.workers[w]
  }

  /** A check of the task's model by the task's protocol, which says what the probe came to. */
  predicate IsCheck(check: Check, task: Task, probe: Probe) {
    && check.modelId == task.modelId && check.durationMs == probe.ms
    && check.protocol == (if task.protocol == "embeddings" then "embeddings" else "chat")
    && (check.success <==>
          && probe.Response? && 200 <= probe.status <= 299
          && (check.protocol == "embeddings" ==> probe.dimension.Some? && probe.dimension.value > 0))
    && check.statusLabel == (if probe.NoResponse? then "Error" else if check.success then "Healthy" else "Failed")
  }

  lemma CheckIs(task: Task, probe: Probe)
    ensures IsCheck(CheckOf(task, probe), task, probe)
  {}

  ghost predicate WasChecked(check: Check, task: Task) {
    exists probe :: IsCheck(check, task, probe)
  }

  /** Slot k: untouched before dispatch, then held by a worker, then written once. */
  ghost predicate SlotIs(p: Pool, tasks: seq<Task>, k: nat, written: nat)
    requires Shape(p, tasks)
  {
    && (written == (if k < p.dispatched && !Held(p, k) then 1 else 0))
    && (k < |tasks| && written == 0 ==> p.results[k] == ZERO)
    && (k < |tasks| && written == 1 ==> WasChecked(p.results[k], tasks[k]))
  }

  lemma ShapeStep(p: Pool, step: Step, tasks: seq<Task>)
    requires Shape(p, tasks) && Enabled(p, step, tasks)
    ensures Shape(Do(p, step, tasks), tasks)
  {
    hide CheckOf;
  }

  lemma ExclusiveStep(p: Pool, step: Step, tasks: seq<Task>)
    requires Shape(p, tasks) && Enabled(p, step, tasks) && Exclusive(p)
    ensures Exclusive(Do(p, step, tasks))
  {
    hide CheckOf;
  }

  lemma SlotStep(p: Pool, step: Step, tasks: seq<Task>, k: nat, written: nat)
    requires Shape(p, tasks) && Enabled(p, step, tasks) && Exclusive(p) && SlotIs(p, tasks, k, written)
    ensures Shape(Do(p, step, tasks), tasks)
    ensures SlotIs(Do(p, step, tasks), tasks, k, written + if Writes(p, step, k) then 1 else 0)
  {
    ShapeStep(p, step, tasks);
    hide CheckOf;
    match step {
      case Dispatch(w) => SlotDispatch(p, w, tasks, k, written);
      case Store(w, probe) => SlotStore(p, w, probe, tasks, k, written);
      case _ => assert forall v :: HeldBy(Do(p, step, tasks), k, v) <==> HeldBy(p, k, v);
    }
  }

  lemma SlotDispatch(p: Pool, w: nat, tasks: seq<Task>, k: nat, written: nat)
    requires Shape(p, tasks) && Enabled(p, Dispatch(w), tasks) && SlotIs(p, tasks, k, written)
    requires Shape(Do(p, Dispatch(w), tasks), tasks)
    ensures SlotIs(Do(p, Dispatch(w), tasks), tasks, k, written)
  {
    var q := Do(p, Dispatch(w), tasks);
    assert HeldBy(q, p.dispatched, w);
    assert forall v :: HeldBy(p, k, v) ==> HeldBy(q, k, v);
    assert forall v :: HeldBy(q, k, v) && k != p.dispatched ==> HeldBy(p, k, v);
  }

  lemma SlotStore(p: Pool, w: nat, probe: Probe, tasks: seq<Task>, k: nat, written: nat)
    requires Shape(p, tasks) && Enabled(p, Store(w, probe), tasks) && Exclusive(p) && SlotIs(p, tasks, k, written)
    requires Shape(Do(p, Store(w, probe), tasks), tasks)
    ensures SlotIs(Do(p, Store(w, probe), tasks), tasks, k, written + if p.workers[w] == Busy(k) then 1 else 0)
  {
    hide CheckOf, IsCheck;
    var q := Do(p, Store(w, probe), tasks);
    var i := p.workers[w].task;
    assert HeldBy(p, i, w) && i < p.dispatched && Held(p, i);
    CheckIs(tasks[i], probe);
    assert IsCheck(q.results[i], tasks[i], probe);
    assert forall v :: HeldBy(q, k, v) ==> HeldBy(p, k, v);
    if k == i {
      assert forall v :: !HeldBy(q, k, v);
    } else {
      assert forall v :: HeldBy(p, k, v) ==> HeldBy(q, k, v);
      assert Held(p, k) <==> Held(q, k);
      assert k < |tasks| ==> q.results[k] == p.results[k];
    }
  }

  lemma BeginHolds(tasks: seq<Task>, k: nat)
    ensures Shape(Begin(tasks), tasks) && Exclusive(Begin(tasks)) && SlotIs(Begin(tasks), tasks, k, 0)
  {}

  /** In every interleaving, with the run cancelled at any point. */
  lemma {:induction false} Kept(tasks: seq<Task>, steps: seq<Step>, n: nat, k: nat)
    requires n <= |steps| && Possible(tasks, steps, n)
    ensures Shape(After(tasks, steps, n), tasks) && Exclusive(After(tasks, steps, n))
    ensures SlotIs(After(tasks, steps, n), tasks, k, Written(tasks, steps, n, k))
  {
    if n == 0 {
      BeginHolds(tasks, k);
    } else {
      Kept(tasks, steps, n - 1, k);
      var p := After(tasks, steps, n - 1);
      hide Shape, Exclusive, SlotIs, Do, Enabled, Writes;
      ShapeStep(p, steps[n - 1], tasks);
      ExclusiveStep(p, steps[n - 1], tasks);
      SlotStep(p, steps[n - 1], tasks, k, Written(tasks, steps, n - 1, k));
    }
  }

  /** Never more than four probes at a time, nor more than there are tasks. */
  lemma {:induction false} WorkersAreFew(tasks: seq<Task>, steps: seq<Step>, n: nat)
    requires n <= |steps| && Possible(tasks, steps, n)
    ensures |After(tasks, steps, n).workers| == if |tasks| < 4 then |tasks| else 4
  {
    hide CheckOf;
    if n > 0 {
      WorkersAreFew(tasks, steps, n - 1);
    }
  }

  /** A model is probed by embeddings exactly if that protocol was asked for, or the choice was left to
      the catalog and the catalog says so. */
  lemma ProtocolFollowsCatalog(item: CatalogItem, protocol: string, check: Check)
    requires WasChecked(check, TaskFor(item, protocol))
    ensures check.modelId == item.id && check.protocol in {"embeddings", "chat"}
    ensures check.protocol == "embeddings" <==> protocol == "embeddings" || (protocol == "auto" && item.embeddings)
  {}

  // ---- progress and the end --------------------------------------------------------------------

  /** wg.Wait returns. */
  predicate AllExited(p: Pool) {
    p.closed && forall w :: 0 <= w < |p.workers| ==> p.workers[w].Exited?
  }

  function WorkLeft(workers: seq<WorkerAt>, n: nat): nat
    requires n <= |workers|
  {
    if n == 0 then 0
    else WorkLeft(workers, n - 1) + match workers[n - 1] case Busy(_) => 2 case Idle => 1 case Exited => 0
  }

  /** Bounds the steps still to come. */
  function StepsLeft(p: Pool, tasks: seq<Task>): int {
    2 * (|tasks| - p.dispatched) + WorkLeft(p.workers, |p.workers|)
    + (if p.closed then 0 else 1) + if p.cancelled then 0 else 1
  }

  lemma {:induction false} WorkUpdate(workers: seq<WorkerAt>, w: nat, at: WorkerAt, n: nat)
    requires w < |workers| && n <= |workers|
    ensures WorkLeft(workers[w := at], n)
         == WorkLeft(workers, n) + if w < n then WorkLeft([at], 1) - WorkLeft([workers[w]], 1) else 0
  {
    if n > 0 {
      WorkUpdate(workers, w, at, n - 1);
    }
  }

  lemma StepsDecrease(p: Pool, step: Step, tasks: seq<Task>)
    requires Shape(p, tasks) && Enabled(p, step, tasks)
    ensures StepsLeft(Do(p, step, tasks), tasks) < StepsLeft(p, tasks)
  {
    match step {
      case Dispatch(w) => WorkUpdate(p.workers, w, Busy(p.dispatched), |p.workers|);
      case Store(w, _) => WorkUpdate(p.workers, w, Idle, |p.workers|);
      case Exit(w) => WorkUpdate(p.workers, w, Exited, |p.workers|);
      case _ =>
    }
    hide CheckOf;
  }

  lemma {:induction false} WorkAtStart(n: nat, k: nat)
    requires k <= n
    ensures WorkLeft(seq(n, _ => Idle), k) == k
  {
    if k > 0 {
      WorkAtStart(n, k - 1);
    }
  }

  /** No run is longer than two steps a task, one a worker, one close and one cancellation. */
  lemma {:induction false} RunsAreBounded(tasks: seq<Task>, steps: seq<Step>, n: nat)
    requires n <= |steps| && Possible(tasks, steps, n)
    ensures n + StepsLeft(After(tasks, steps, n), tasks) <= 2 * |tasks| + |Begin(tasks).workers| + 2
    ensures n <= 2 * |tasks| + WORKERS + 2
  {
    if n == 0 {
      WorkAtStart(|Begin(tasks).workers|, |Begin(tasks).workers|);
    } else {
      RunsAreBounded(tasks, steps, n - 1);
      Kept(tasks, steps, n - 1, 0);
      hide Do, Enabled, StepsLeft, SlotIs, Exclusive;
      StepsDecrease(After(tasks, steps, n - 1), steps[n - 1], tasks);
    }
    hide Do;
    Kept(tasks, steps, n, 0);
  }

  /** Until every worker has exited some step other than a cancellation is possible, provided each
      probe returns. */
  lemma NeverStuck(tasks: seq<Task>, steps: seq<Step>, n: nat)
    requires n <= |steps| && Possible(tasks, steps, n) && tasks != []
    ensures AllExited(After(tasks, steps, n))
         || exists step: Step :: !step.Cancel? && Enabled(After(tasks, steps, n), step, tasks)
  {
    Kept(tasks, steps, n, 0);
    var p := After(tasks, steps, n);
    hide After, Possible, SlotIs, Exclusive;
    if !AllExited(p) {
      if w: nat :| w < |p.workers| && p.workers[w].Busy? {
        assert Enabled(p, Store(w, NoResponse(0)), tasks);
      } else if p.closed {
        var w: nat :| w < |p.workers| && !p.workers[w].Exited?;
        assert Enabled(p, Exit(w), tasks);
      } else if p.dispatched >= |tasks| {
        assert Enabled(p, CloseAtEnd, tasks);
      } else {
        assert p.workers[0].Idle?;
        assert Enabled(p, Dispatch(0), tasks);
      }
    }
  }

  /** When the workers are gone, the slots below `dispatched` have each been written exactly once,
      with a check of their own task, and no other slot has been touched; nothing is left over unless
      the run was cancelled. */
  lemma PoolDone(tasks: seq<Task>, steps: seq<Step>, n: nat, k: nat)
    requires n <= |steps| && Possible(tasks, steps, n) && AllExited(After(tasks, steps, n)) && k < |tasks|
    ensures var p := After(tasks, steps, n);
            && |p.results| == |tasks|
            && Written(tasks, steps, n, k) == (if k < p.dispatched then 1 else 0)
            && (k < p.dispatched ==> WasChecked(p.results[k], tasks[k]))
            && (k >= p.dispatched ==> p.results[k] == ZERO)
            && (p.cancelled || p.dispatched == |tasks|)
  {
    Kept(tasks, steps, n, k);
    hide After, Possible, Written;
  }
}
