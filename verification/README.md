# Gateway verification

A Dafny model of the parts of the NVIDIA API gateway that decide something hard, and proofs about them.

* **Key scheduler.** `Swrr` is smooth weighted round robin on bare sequences; `Scheduling` is the local
  scheduler as a class whose methods are tied to functions on its state; `SchedulerRuns`,
  `SchedulerHistory` and `SchedulerFairness` are theorems about whole runs; `LuaScript` is the second implementation of the
  acquire step, and how far the two agree.
* **Streaming translators.** `ClaudeStream`, `GeminiStream` and `ResponsesStream` are the translators as
  classes; `ClaudeTheorems`, `ClaudeContent`, `ClaudeLog`, `GeminiTheorems`, `GeminiRuns`, `ResponsesTheorems`,
  `ResponsesOutcome`, `ResponsesForm`, `ResponsesNames` and `ResponsesRuns` say what every stream looks like and that nothing is lost. `Chunks` is their input.
* **SSE relay.** `SseRelay` is the line loop and the printing it undoes, `SseGroups` what the loop does to any
  body, a subset of section 9.2.6 of the
  HTML Living Standard.
* **Concurrent protocols.** `DrainProtocol` (reader goroutine and main loop) and `WorkerPool` (dispatcher and
  workers) are interleaved atomic steps; `HealthRun` is what a model health run reports.
* **Adaptive control.** `HealthScore`, `HealthScorer` and `ModelBreaker`: incremental summaries and the
  histories they stand for.
* **Retry executors.** `Upstream` is one lease and the calls made under it, `LeaseEffects` what they do to
  health, breaker and scheduler, `Executors` the cross-key loops,
  `OneAttempt` the three translators inside them, `RequestLeases` many requests on one scheduler.

`Text`, `Sorting`, `Optional` and `Products` are shared helpers.

Everything outside the program is a parameter: time is an integer number of seconds supplied by the caller,
upstream answers, backoff naps and cancellations come from a script of arbitrary functions, writes succeed,
JSON decoding and argument normalization are arbitrary functions. Weights, scores and ratios are exact reals.
Methods of the classes carry the whole new state in their contracts; the theorems are about the functions
those contracts name.

## Findings

* The silent fallback of the compat stream finishes a fresh translator, which writes nothing; its comment
  speaks of a fake stream. `OneAttempt.FreshFinishIsEmpty`.
* A payload that does not decode ends the relay before Finish; the comment in the compat loop says Finish has
  been called by then. `OneAttempt.ClaudeClientSees`, `SseRelay.PrintThenRelay`.
* In the Responses stream the message takes output index 0 even when a function call already has it.
  `ResponsesOutcome.IndicesAreDense` gives the exact condition.
* `MarkModelCooling` keeps the model untrimmed while the acquires trim theirs, so a mark with a padded model
  has no effect. `SchedulerRuns.PairMarkTakesEffect` gives the exact condition. Both callers in the repository
  pass a trimmed model (pkg/gateway/proxy.go:901, and the health scorer, whose models come from
  pkg/gateway/proxy.go:37), so a padded one can only come through the scheduler's public interface.
* The bar between key and model is not escaped, so two pairs can share a field. `SchedulerRuns.SameFieldIffAliases`
  gives the exact condition, `SchedulerRuns.MarkLeavesAdmission` what it means for admissions.
* The Claude gate drops tool_calls lists whose fields are all blank, white-space arguments included.
  `ClaudeContent.ArgumentsSurvive` gives the exact condition.
* The local scheduler and the Lua script may differ on ties. `LuaScript.TieDecides` gives the exact
  condition; a key with the empty name is a second difference, `LuaScript.StatesAgreeIff`.
* On a transient status a backoff nap cut short by cancellation leaves the `switch` only, so the same key is
  called again; after a transport error it ends the loop. `Upstream.CutNapDecides` and
  `Upstream.CalledAgainAfterCutNap`.
* Chunks that follow the done payload are still translated, and spoil a stream that was whole.
  `OneAttempt.ClaudeClientSees` and `OneAttempt.ResponsesClientGets` give the exact condition.
* The emptiness check after a successful chat call never fires. `Executors.ChatNonStream`.
* A tool call whose first chunk has no id keeps a made-up or generated one for ever: the code that would take a
  later id never runs, in the Claude and in the Responses translator; in the Claude one the same holds for the
  name. `ClaudeLog.ToolsKeepTheirNames`, `ResponsesNames.ToolsKeepTheirNames`.
* The Gemini translator writes nothing for a stream whose only content is tool calls without arguments, so the
  loop tries the next key; the other two translators pass them on. `GeminiTheorems.OutputIsExact`.
* A stream cut by the idle timeout, a cancellation or a read error counts as a success once it has content: only
  a payload that does not decode interrupts. `SseGroups.RelayIsGrouping`, `Executors.CompatStream`.
* A key that only ever fails, but quickly, keeps a score of 40, which is not below the low mark, so evaluations
  do not cool it. `HealthScore.FastFailuresAreNotLow` gives the exact condition.
* Server errors in a row cool a pair for 15, 30, 45 and 60 seconds; the comment at
  pkg/gateway/health_scorer.go:27 leaves out the 45. `HealthScorer.CooldownFromHistory`.
* Lowering a response time to zero can lower a health score. `HealthScore.DroppedTimeHurtsIff` gives the exact
  condition.

## Model

| member | source | states |
|---|---|---|
| Swrr.RoundConservesWeight | pkg/scheduler/redis.go:321-352 | one selection round leaves the sum of all current weights, and that of the eligible ones, unchanged, whatever the eligible subset |
| Swrr.BalanceKept | pkg/scheduler/redis.go:321-352 | with positive weights, "eligible debts sum to zero and each stays above -W" is kept by a round |
| Swrr.Ledger | pkg/scheduler/redis.go:340-350 | over any window of rounds a key's current weight moves by (rounds × weight) − (wins × W) |
| Swrr.OrbitRange | pkg/scheduler/redis.go:321-352 | from zero, after any number of rounds an eligible key stays above −W and at most (n−1)·W |
| Swrr.BoundedDrift | pkg/scheduler/redis.go:321-352 | the number of wins of a key after k rounds lies within k·w/W − (n−1) and k·w/W + 1, multiplied out |
| Swrr.NoStarvation | pkg/scheduler/redis.go:321-352 | any window of at least n·W/w rounds, wherever it starts, contains a win of the key |
| Swrr.FullCycle | pkg/scheduler/redis.go:321-352 | with integer weights summing to W, W rounds from zero bring every current weight back |
| Swrr.ExactShares | pkg/scheduler/redis.go:321-352 | with integer weights summing to W, every W consecutive rounds give a key exactly its weight in wins and repeat the weights |
| Scheduling.Scheduler.IsAdmitted | pkg/scheduler/redis.go:326-339 | exactly the keys that are not dead, not cooling, not cooling for the model, and below the limit |
| Scheduling.SweepExpired | pkg/scheduler/redis.go:310-319 | the deletion loop keeps exactly the entries whose time is now or later, with their values |
| Scheduling.Scheduler.AddKey | pkg/scheduler/redis.go:189-204 | whole new state after adding or re-weighting a key in the local pool |
| Scheduling.Scheduler.SetHealthMultiplier | pkg/scheduler/redis.go:236-250 | whole new state: the first entry of the trimmed key gets the clamped multiplier and base × multiplier |
| Scheduling.Scheduler.RaiseAdmitted | pkg/scheduler/redis.go:321-346 | the selection loop raises exactly the admitted keys, returns the first maximum and the sum of the admitted weights |
| Scheduling.Scheduler.AcquireKey | pkg/scheduler/redis.go:301-353 | whole new state and result of a local acquire; the returned key is the selected maximum, the empty string when nobody is admitted |
| Scheduling.Scheduler.TryAcquireSpecificKey | pkg/scheduler/redis.go:370-422 | whole new state either way, and a grant exactly when the trimmed key is in the pool and admitted under a limit of at least one; what that means for a history is SchedulerHistory.GrantedFromHistory |
| Scheduling.Scheduler.ReleaseKey | pkg/scheduler/redis.go:442-453 | a positive counter drops by one, everything else stays |
| Scheduling.Scheduler.MarkCooling | pkg/scheduler/redis.go:457-467 | the latest cool-until of the key is overwritten, everything else stays |
| Scheduling.Scheduler.MarkModelCooling | pkg/scheduler/redis.go:474-485 | a blank key or model is ignored; otherwise the pair field is overwritten, with the model as given |
| Scheduling.Scheduler.MarkDead | pkg/scheduler/redis.go:489-508 | the key is dead, its first entry's debt and its counter are wiped |
| Scheduling.Scheduler.Reset | pkg/scheduler/redis.go:518-531 | pool, dead set and counters are emptied; both cooling tables survive |
| Scheduling.Scheduler.GetStats | pkg/scheduler/redis.go:562-577 | counts the pool, the unexpired cooling entries and the dead keys, and changes nothing |
| Scheduling.Scheduler.CleanupExpired | pkg/scheduler/redis.go:615-634 | drops exactly the expired entries of both tables |
| SchedulerRuns.LeaseAccounting | pkg/scheduler/redis.go:337-352 | in every run with matched releases a counter stays in 0..M and never above the leases really out; those are at most M·(R+1); without a wipe the two are equal |
| SchedulerRuns.TablesMatchHistory | pkg/scheduler/redis.go:310-319 | after any run the dead set and both cooling tables block exactly what the history of marks says, although entries are dropped along the way |
| SchedulerRuns.AdmissionFromHistory | pkg/scheduler/redis.go:324-339 | whether a key is admitted follows from the history alone |
| SchedulerRuns.AcquireIsSafe | pkg/scheduler/redis.go:324-352 | no acquire in any run returns a key not configured since the last reset, a dead one, one whose latest key or pair cool-until is now or later, or one whose counter has reached the limit |
| SchedulerRuns.SameFieldIffAliases | pkg/scheduler/redis.go:478 | two (key, model) pairs share a field exactly when they are equal, or one key goes on, after a bar, with what the other's model starts with |
| SchedulerRuns.MarkLeavesAdmission | pkg/scheduler/redis.go:332-336 | the exact condition under which a mark on one pair leaves an admission of another, or of the same one, as it was |
| SchedulerRuns.PairsAreIndependent | pkg/scheduler/redis.go:332-336 | so cooling one pair changes nobody else's admission when keys contain no bar |
| SchedulerRuns.BarInKeyCollides | pkg/scheduler/redis.go:478 | an instance: a pending mark on one pair blocks a different pair whose key has a bar |
| SchedulerRuns.PairMarkTakesEffect | pkg/scheduler/redis.go:474-485 | a pending mark bars the (trimmed) model it names exactly when the model was given trimmed, or was barred already |
| SchedulerRuns.CleanupIsInvisible | pkg/scheduler/redis.go:615-634 | inserting a cleanup anywhere into a run whose clock does not go back changes no later outcome |
| SchedulerRuns.WeightFromHistory | pkg/scheduler/redis.go:189-204 | after any run a key is in the pool exactly when configured since the last reset, with weight = base × latest multiplier: nothing compounds |
| SchedulerHistory.GrantedFromHistory | pkg/scheduler/redis.go:370-422 | after any run a specific key is granted exactly when its trimmed name is not empty, it is configured since the last reset, not dead, not cooling, not cooling for the trimmed model, and below a limit of at least one |
| SchedulerHistory.AcquiredFromHistory | pkg/scheduler/redis.go:301-353 | after any run an acquire hands out some key exactly when the history makes one available, and then an available one |
| SchedulerHistory.LeasesAreAvailable | pkg/scheduler/redis.go:396-405 | in every run with a forward clock every lease, of either kind of acquire, goes to a key the history makes available |
| SchedulerHistory.DebtFromHistory | pkg/scheduler/redis.go:189-204 | after any run the current weight of a key is the sum of what the acquires since the last reset or its last death gave and took: it joins with nothing, and re-weighting, health updates, cooling and releases leave it alone |
| SchedulerHistory.StatsFromHistory | pkg/scheduler/redis.go:562-577 | after any run the statistics count the keys configured since the last reset, those cooling at the time asked, and those dead |
| SchedulerHistory.OperationsSweep | pkg/scheduler/redis.go:310-319 | acquires and cleanups leave no expired entry in either table, and no other operation takes one out |
| SchedulerFairness.AcquireConservesWeight | pkg/scheduler/redis.go:301-353 | every AcquireKey call leaves the sum of current weights unchanged |
| SchedulerFairness.SteadyFollowsOrbit | pkg/scheduler/redis.go:301-353 | a run of acquires with the same eligible keys follows the abstract rotation, call by call |
| SchedulerFairness.DebtIsBounded | pkg/scheduler/redis.go:321-352 | in a steady run from zero every eligible current weight stays above −W |
| SchedulerFairness.BlocksAreExactlyFair | pkg/scheduler/redis.go:321-352 | every block of W consecutive AcquireKey calls returns each eligible key exactly its integer weight many times |
| SchedulerFairness.WeightsRepeat | pkg/scheduler/redis.go:321-352 | W calls later all current weights are what they were |
| SchedulerFairness.DriftIsBounded | pkg/scheduler/redis.go:321-352 | after k calls a key has been returned within k·w/W − (n−1) and k·w/W + 1 times, multiplied out |
| SchedulerFairness.NobodyStarves | pkg/scheduler/redis.go:321-352 | any window of at least n·W/w calls returns the key |
| LuaScript.RedisStore.IsAdmitted | pkg/scheduler/redis.go:40-50 | the script's four checks |
| LuaScript.RedisStore.RaiseListed | pkg/scheduler/redis.go:32-59 | the script's loop writes exactly the admitted members' raised weights, returns their sum and the first maximum in listing order |
| LuaScript.RedisStore.LuaAcquireKey | pkg/scheduler/redis.go:20-72 | whole new hash and counters after the script; a winner with the empty name is taken for nobody |
| LuaScript.SameAdmission | pkg/scheduler/redis.go:37-50 | in the same situation the script and the local loop admit the same keys |
| LuaScript.SameTotal | pkg/scheduler/redis.go:51-54 | their total weights agree, although keys are visited in different orders |
| LuaScript.SameWinner | pkg/scheduler/redis.go:55-58 | both pick a maximum of the raised weights; when it is unique they pick the same key |
| LuaScript.SameOutcome | pkg/scheduler/redis.go:67-72 | when both return the same key they leave the same situation behind |
| LuaScript.TieDecides | pkg/scheduler/redis.go:342-345 | with somebody admitted, the two hand out the same key exactly when the local winner is listed before every other admitted key whose raised weight ties with it |
| LuaScript.StatesAgreeIff | pkg/scheduler/redis.go:60-72 | after one call the two are in one situation again exactly when nobody was admitted, or both returned one key with a non-empty name |
| LuaScript.ImplementationsAgree | pkg/scheduler/redis.go:20-72 | with a unique maximum or nobody admitted one call returns the same key, and leaves the same weights and counters unless that key has the empty name |
| LuaScript.SameOrderAgrees | pkg/scheduler/redis.go:32-59 | they return the same key, ties included, when the local list is in listing order |
| LuaScript.TieMayDiffer | pkg/scheduler/redis.go:342-345 | an instance: two equal keys on which the two hand out different ones |
| ClaudeStream.HasMeaningfulCall | pkg/gateway/stream_live_compat.go:579-585 | true exactly when some call of the list has a non-blank id, type, name or arguments |
| ClaudeStream.ClaudeTranslator.Start | pkg/gateway/stream_live_compat.go:675-695 | message_start is written once |
| ClaudeStream.ClaudeTranslator.OpenText | pkg/gateway/stream_live_compat.go:697-712 | a text block takes the next index unless one is open |
| ClaudeStream.ClaudeTranslator.CloseText | pkg/gateway/stream_live_compat.go:714-720 | an open text block is stopped |
| ClaudeStream.ClaudeTranslator.OpenBlock | pkg/gateway/stream_live_compat.go:722-751 | a tool index starts one block; later calls only fill an empty id or name |
| ClaudeStream.ClaudeTranslator.TakeToolCall | pkg/gateway/stream_live_compat.go:722-764 | whole new state after one tool call |
| ClaudeStream.ClaudeTranslator.TakeToolCalls | pkg/gateway/stream_live_compat.go:576-600 | a list is passed on whole, or dropped whole by the gate |
| ClaudeStream.ClaudeTranslator.Consume | pkg/gateway/stream_live_compat.go:547-608 | whole new state after a chunk |
| ClaudeStream.ClaudeTranslator.Finish | pkg/gateway/stream_live_compat.go:610-655 | whole new state: nothing written without content, otherwise every open block is stopped and the message ended; a second call changes nothing |
| ClaudeTheorems.AcceptedIsWellFormed | pkg/gateway/stream_live_compat.go:547-655 | what the event reader accepts is well formed: one start first, block starts numbered 0, 1, 2, …, each delta to an open block of its kind, each block stopped exactly once after its start, delta and stop last |
| ClaudeTheorems.FinishSeals | pkg/gateway/stream_live_compat.go:610-655 | finishing an open stream leaves a finished one that the reader accepts to the end |
| ClaudeTheorems.LateChunk | pkg/gateway/stream_live_compat.go:547-608 | a chunk after Finish either writes nothing or leaves the stream without its end |
| ClaudeTheorems.StreamsAreWellFormed | pkg/gateway/stream_live_compat.go:547-764 | for every sequence of Consume and Finish calls: the client gets nothing or one well-formed stream exactly when no chunk after a Finish asks for output and any content is followed by a Finish |
| ClaudeTheorems.StartedIffContent | pkg/gateway/stream_live_compat.go:614-619 | something has been written exactly when some chunk had content |
| ClaudeLog.StreamIsExact | pkg/gateway/stream_live_compat.go:547-764 | for every sequence of Consume and Finish calls the client receives exactly the log written down from the history of calls: message id and model, one text block for each stretch of text, one block for each tool, each delta in its block, stops in order, stop reason and usage |
| ClaudeLog.ToolsKeepTheirNames | pkg/gateway/stream_live_compat.go:722-751 | each tool that passed the gate has exactly one block start, which carries the id and the name of its first such call, each replaced by a made-up one if blank |
| Text.DigitsMean | pkg/gateway/stream_live_compat.go:727-728 | the digits of a made-up id stand for the tool index |
| ClaudeContent.NothingIsLost | pkg/gateway/stream_live_compat.go:557-606 | the emitted text deltas concatenate to all delta.content; per tool index the emitted JSON concatenates to the fragments the gate lets through |
| ClaudeContent.ArgumentsSurvive | pkg/gateway/stream_live_compat.go:576-600 | all fragments of a tool index arrive exactly when no list the gate drops carries one |
| ClaudeContent.MeaningfulListsSurvive | pkg/gateway/stream_live_compat.go:576-600 | if every tool_calls list has a non-blank field, all fragments of every tool index arrive |
| GeminiStream.GeminiTranslator.Consume | pkg/gateway/stream_live_compat.go:796-839 | whole new state after a chunk |
| GeminiStream.GeminiTranslator.Finish | pkg/gateway/stream_live_compat.go:841-894 | whole new state after Finish |
| GeminiTheorems.OutputIsExact | pkg/gateway/stream_live_compat.go:796-894 | chunks then Finish write nothing when no text and no arguments came; otherwise every non-empty text in order, one call per tool index in ascending order with its first name and all its fragments, and one final frame with the last finish reason, mapped, and the last usage |
| GeminiTheorems.FinishIsIdempotent | pkg/gateway/stream_live_compat.go:841-848 | a second Finish changes nothing |
| GeminiRuns.StreamsAreWhole | pkg/gateway/stream_live_compat.go:796-894 | for every sequence of Consume and Finish calls: the client gets nothing or frames with the one finish frame last exactly when no text comes after a Finish and any text is followed by a Finish |
| Sorting.SortDistinct | pkg/gateway/stream_live_compat.go:849 | sorting the distinct tool indices gives the same indices in strictly ascending order |
| ResponsesStream.ResponsesTranslator.EmitEvent | pkg/gateway/responses.go:642-688 | the first event of all is preceded by response.created |
| ResponsesStream.ResponsesTranslator.EnsureMessageItem | pkg/gateway/responses.go:500-538 | the message item and its part are added once, at output index 0 |
| ResponsesStream.ResponsesTranslator.TakeToolCall | pkg/gateway/responses.go:540-589 | whole new state after one tool call |
| ResponsesStream.ResponsesTranslator.Consume | pkg/gateway/responses.go:310-349 | whole new state after a chunk |
| ResponsesStream.ResponsesTranslator.Finish | pkg/gateway/responses.go:359-472 | whole new state after Finish |
| ResponsesStream.ResponsesTranslator.Error | pkg/gateway/responses.go:474-498 | response.failed and the done marker are written, after response.created if it had not been |
| ResponsesTheorems.FeedIsAtoms | pkg/gateway/responses.go:317-347 | consuming chunks is consuming their texts and tool calls one by one, in order |
| ResponsesOutcome.FeedFields | pkg/gateway/responses.go:310-349 | after any chunks: the message has started exactly when there was text, its text is all the text, and something has been written exactly when there was text or a tool call |
| ResponsesOutcome.FeedCalls | pkg/gateway/responses.go:540-589 | a tool has an item exactly when it was mentioned, holding all its fragments |
| ResponsesOutcome.StreamIsWhole | pkg/gateway/responses.go:310-472 | chunks then Finish: nothing for an empty answer; otherwise created first, each item added once before its deltas and done once, done texts and arguments equal to the concatenated deltas, completed then the done marker last |
| ResponsesOutcome.OutputIsListed | pkg/gateway/responses.go:591-640 | the final response lists the message first, if any, then each tool used, once, ascending, with its normalized arguments |
| ResponsesOutcome.IndicesAreDense | pkg/gateway/responses.go:690-696 | the announced output indices are 0, 1, 2, … and distinct exactly unless a tool call came first and text later |
| ResponsesForm.AcceptedIffWellFormed | pkg/gateway/responses.go:310-472 | the event reader accepts exactly the well-formed logs: created first; the message, if any, opened, text in pieces, the whole text said twice, closed; each tool opened, arguments in pieces, all of them said normalized, closed, under one index; completed with the text, then the done marker |
| ResponsesRuns.StreamsAreWellFormed | pkg/gateway/responses.go:310-472 | for every sequence of Consume and Finish calls: the client gets nothing or one well-formed stream exactly when no chunk after a Finish asks for output and any output is followed by a Finish; it gets nothing exactly when no chunk asks for any |
| ResponsesNames.ToolsKeepTheirNames | pkg/gateway/responses.go:540-589 | in every event of a finished stream a tool goes by the id of its first call, or a generated one if that is blank, and by its first name that is not empty; it is announced under that name or none |
| ResponsesNames.OutputIsNamed | pkg/gateway/responses.go:591-640 | the same in the output list of the final response |
| SseRelay.StreamRelay.FlushData | pkg/gateway/stream_live_compat.go:355-372 | hands over one payload, or reports that it does not decode |
| SseRelay.StreamRelay.TakeLine | pkg/gateway/stream_live_compat.go:471-483 | what one line does |
| SseRelay.StreamRelay.Run | pkg/gateway/stream_live_compat.go:400-506 | the line loop over a whole body, for each way it can stop |
| SseRelay.CrlfIsLf | pkg/gateway/stream_live_compat.go:472 | line ends CR LF and LF are the same |
| SseRelay.PrintThenRelay | pkg/gateway/stream_live_compat.go:471-499 | printed frames, with any event lines and comments, come back as exactly their payloads in order, up to the first that does not decode, and then Finish |
| SseRelay.CutIsPrefix | pkg/gateway/stream_live_compat.go:433-457 | a printed body that stops anywhere by timeout or cancellation hands over whole payloads only, a prefix of the list, and then Finish |
| SseGroups.RelayIsGrouping | pkg/gateway/stream_live_compat.go:352-506 | for any body and each way it can end: the lines between blank lines, their data fields joined by newlines and trimmed, are the payloads; they reach the translator in order up to the first that does not decode; what a last group without a blank line does at an end of body, a read error and a wait given up; when Finish follows |
| DrainProtocol.Kept | pkg/gateway/stream_drain.go:51-121 | in every interleaving no byte is lost or reordered, channels and buffer follow the two processes, and errors travel from the last read to the result |
| DrainProtocol.DeliveredIsPrefix | pkg/gateway/stream_drain.go:75-84 | what onChunk has been given is always a prefix of what has been read |
| DrainProtocol.ReturnMeans | pkg/gateway/stream_drain.go:92-121 | on return the reader is gone and its buffer back; end of stream or read error means the last read met it and everything read was delivered; otherwise at most the last read is missing |
| DrainProtocol.ResultSays | pkg/gateway/stream_drain.go:92-121 | a timeout is reported exactly when the idle timer fired, a cancellation exactly when the context ended or onChunk said stop, and before main leaves none of these has happened |
| DrainProtocol.NeverStuck | pkg/gateway/stream_drain.go:92-121 | until the return some step other than a Read returning is possible, except exactly when main waits for a reader blocked in Read |
| DrainProtocol.ExitIsBounded | pkg/gateway/stream_drain.go:92-96 | at most eight steps follow the moment main is on its way out |
| DrainProtocol.CallReturns | pkg/gateway/stream_drain.go:51-121 | with a body to close, a run has come to a halt exactly when the call has returned; no run is longer than three steps for each read that returns and nine more, or eight once main is on its way out; without a body the only other halt is the blocked Read |
| DrainProtocol.BlockedWithoutCloser | pkg/gateway/stream_drain.go:56-62 | without a body to close a Read that never returns blocks the call for ever |
| WorkerPool.BuildTasks | pkg/gateway/health.go:648-674 | one task per item, or only the first item with the id, with the automatic protocol resolved |
| WorkerPool.ProtocolFollowsCatalog | pkg/gateway/health.go:648-662 | a model is probed by embeddings exactly if that was asked for, or left open and the catalog says so |
| WorkerPool.WorkersAreFew | pkg/gateway/health.go:683-686 | never more than four probes at a time, nor more than tasks |
| WorkerPool.Kept | pkg/gateway/health.go:684-719 | in every interleaving: no two workers hold one index, and a slot is untouched before dispatch, then held, then written once with a check of its task |
| WorkerPool.RunsAreBounded | pkg/gateway/health.go:684-719 | no run is longer than two steps a task, one a worker, one close and one cancellation |
| WorkerPool.NeverStuck | pkg/gateway/health.go:684-719 | until all workers have left some step other than a cancellation is possible, provided probes return |
| WorkerPool.PoolDone | pkg/gateway/health.go:703-719 | at the end each slot below dispatched has been written exactly once, with a check of its own task: model, protocol, duration, and success exactly for a 2xx response, with a vector if embeddings were asked for; the others never; none is left over unless the run was cancelled |
| HealthRun.FillSkipped | pkg/gateway/health.go:723-739 | empty slots from dispatched on become skipped checks, all others stay |
| HealthRun.StableSortSorts | pkg/gateway/health.go:740 | the sort permutes, orders by model id, and keeps checks of one model in order |
| HealthRun.LessMeans | pkg/gateway/health.go:740 | the order is the lexicographic one |
| HealthRun.ReportIsComplete | pkg/gateway/health.go:676-742 | whatever the interleaving and the cancellation point, the report is a sorted permutation of one check a task |
| HealthRun.Summarize | pkg/gateway/health.go:626-640 | total = healthy + failed = number of checks, the mean latency of the healthy ones, one chart point a check |
| HealthRun.LatencyBetween | pkg/gateway/health.go:626-640 | only healthy checks count towards the mean: their latencies sum to between what the least and the greatest of them would give |
| HealthScore.ComputeHealthScore | pkg/gateway/health_scorer.go:233-308 | returns the weighted score, which the final clamps never change |
| HealthScore.ScoreRange | pkg/gateway/health_scorer.go:296-306 | the weighted sum lies in 0..100 for every window |
| HealthScore.ScoreMono | pkg/gateway/health_scorer.go:233-308 | a window no worse in any sample has no lower score |
| HealthScore.SuccessNeverHurts | pkg/gateway/health_scorer.go:244-256 | turning a sample into a success with status 200 never lowers the score |
| HealthScore.FasterNeverHurts | pkg/gateway/health_scorer.go:257-278 | lowering a positive response time that stays positive never lowers the score |
| HealthScore.DroppedTimeHurtsIff | pkg/gateway/health_scorer.go:257-278 | lowering a positive response time to zero or less lowers the score exactly when another time is left, the mean of the others is higher, and the two means are not both on one flat end of the ramp |
| HealthScore.UntimedCanHurt | pkg/gateway/health_scorer.go:257-260 | an instance: a quick answer and a slow one |
| HealthScore.MultiplierFits | pkg/gateway/health_scorer.go:197-199 | multipliers lie in 0.5..2.0 so the scheduler keeps them, are monotone in the score, and are at least 1.1 exactly for keys not cooled for their score |
| HealthScore.ScoreInPoints | pkg/gateway/health_scorer.go:233-308 | the score in plain numbers: 40 points for the share of successes, 20 for the mean response time, 20 each for the shares of 429s and of failures to answer, with their thresholds |
| HealthScore.FastFailuresAreNotLow | pkg/gateway/health_scorer.go:247-256 | a key that only ever failed to answer, or only ever was rate limited, is below the low mark exactly when its mean positive response time is above two seconds |
| HealthScorer.Scorer.Record | pkg/gateway/health_scorer.go:75-114 | new window and counters, and for how long the pair is cooled |
| HealthScorer.Scorer.Doubled | pkg/gateway/health_scorer.go:160-167 | the doubling loop yields min(60·2^(j−1), 600) |
| HealthScorer.Scorer.EvaluateScores | pkg/gateway/health_scorer.go:135-190 | every key is evaluated once, in any order: counters, cooldowns and multipliers |
| HealthScorer.Scorer.Forget | pkg/gateway/health_scorer.go:202-209 | the key's state is gone, the others stay |
| HealthScorer.TrailingErrors | pkg/gateway/health_scorer.go:88-101 | its contract: exactly the length of the run of statuses ≥ 500 that ends the list |
| HealthScorer.StateIsHistory | pkg/gateway/health_scorer.go:82-106 | the incremental state is the newest hundred records, or all if there are fewer, in order; the trailing run of server errors; and the low scores since the last healthy one; since the key was last forgotten |
| HealthScorer.CooldownFromHistory | pkg/gateway/health_scorer.go:88-98 | the k-th server error in a row cools the pair for min(15(k−1), 60) seconds, from k = 2 |
| HealthScorer.EvaluationFromHistory | pkg/gateway/health_scorer.go:148-172 | from ten records on an evaluation writes 0.5 + 0.015 × score of the newest hundred, and it cools exactly the keys whose score is below 40, for a minute doubled with each further low score since the last healthy one, up to ten minutes |
| ModelBreaker.Settings | pkg/gateway/model_breaker.go:57-71 | a window or cooldown that is not positive becomes 30 and 15 seconds |
| ModelBreaker.KeepRecent | pkg/gateway/model_breaker.go:169-176 | the in-place filter leaves exactly the times after the cutoff, in order, at the front of the same array |
| ModelBreaker.AppendRecentWithin | pkg/gateway/model_breaker.go:169-179 | the same, followed by now; the backing array is reused or fresh |
| ModelBreaker.ClassTable.Fail | pkg/gateway/model_breaker.go:94-109 | whole new tables of one failure class; no other model's list changes |
| ModelBreaker.ModelCircuitBreaker.RecordFailure | pkg/gateway/model_breaker.go:83-110 | only the class concerned changes; blank models and a disabled breaker change nothing |
| ModelBreaker.ModelCircuitBreaker.IsOpen | pkg/gateway/model_breaker.go:113-132 | open exactly when either class has an open-until later than now |
| ModelBreaker.TablesMatchHistory | pkg/gateway/model_breaker.go:94-109 | with a clock that does not go back the kept list is the failures since the last trip inside the window at the latest one, so a call trips exactly when that count reaches the threshold |
| ModelBreaker.OpenIffTripped | pkg/gateway/model_breaker.go:113-132 | a model is shut out exactly while the latest trip of either class is inside its cooldown |
| ModelBreaker.DisabledNeverOpens | pkg/gateway/model_breaker.go:84-86 | a threshold of zero or less turns the breaker off |
| ModelBreaker.TripsAreEarned | pkg/gateway/model_breaker.go:96-100 | trips × threshold plus the pending failures never exceed the failures |
| Upstream.CrossKeyBudget | pkg/gateway/upstream_error_policy.go:79-84 | six attempts for a negative setting, otherwise retries + 1 |
| Upstream.SameKeyBudget | pkg/gateway/upstream_error_policy.go:86-92 | three calls under one lease for a setting that is not positive, otherwise transport retries + 1 |
| Upstream.World.AcquirePreferred | pkg/gateway/proxy.go:75-93 | the conversation's key when it is granted, an error when the scheduler fails, else whatever the queue brings; a lease is taken exactly when a key is returned |
| Upstream.World.AcquireWithQueue | pkg/gateway/proxy.go:113-168 | every poll but the last found nothing and every wait but the last was a tick; the last poll decides, or else the last wait; one poll is free of a wait |
| Upstream.World.OpenStream | pkg/gateway/stream_live_compat.go:222-331 | exactly how many calls and naps are made under one lease, that all but the last call were transient, what the last one decides, and every health, breaker and scheduler effect |
| Upstream.World.CallJSON | pkg/gateway/proxy.go:763-871 | the same for JSON requests, where an empty completion counts as transient |
| Upstream.CallsMadeMeans | pkg/gateway/stream_live_compat.go:240-306 | what that number of calls means: a call is followed by another with the same key exactly when it was transient, budget is left, and its nap was slept or it was a status; a transport error or an empty completion with a cut-short nap is the last |
| Upstream.CutNapDecides | pkg/gateway/stream_live_compat.go:267-306 | after a first transient outcome and a nap cut short, with budget left, the same key is called again exactly when the outcome was a status |
| Upstream.CalledAgainAfterCutNap | pkg/gateway/stream_live_compat.go:298-306 | an instance: after a 503 and a cut-short nap the same key is called once more and may be served |
| LeaseEffects.OutcomesByStatus | pkg/gateway/upstream_error_policy.go:63-77 | by status code: which outcomes open a stream, which move on to another key, which are worth another call, and what a JSON request is answered |
| LeaseEffects.GoesOnByStatus | pkg/gateway/stream_live_compat.go:240-306 | which outcomes, with which naps, are followed by another call with the same key |
| LeaseEffects.EffectsByStatus | pkg/gateway/stream_live_compat.go:262-318 | over the calls of a lease: the key dies and its health is forgotten once for each 401 or 403, key and pair are cooled and the breaker told once for each 429, the breaker is told of a server error once for each status of 500 or more, each call leaves one record with its status and success, and no other key is touched |
| LeaseEffects.LeaseEndsWith | pkg/gateway/proxy.go:822-840 | a lease kills or cools its key once at most, exactly when its last call says so, and a killed key's health is forgotten after its last record |
| Executors.TurnMeans | pkg/gateway/stream_live_compat.go:120-144 | one pass asks for a lease; it is in the ledger, given back, exactly when at least one call was made under it, and at most the budget; without a lease nothing else changes |
| Executors.TurnsMean | pkg/gateway/stream_live_compat.go:118-218 | over n passes there are as many runs of calls as leases, each of one call to the budget, and every lease is given back |
| Executors.StreamRound | pkg/gateway/stream_live_compat.go:120-196 | one pass of a stream loop: its whole effect on calls, naps, ledger and effects; every lease is used; and it ends the loop exactly when the last call made under its lease opened a stream that shows something or breaks off |
| Executors.CompatStream | pkg/gateway/stream_live_compat.go:104-218 | the loop is that many passes, and its verdict follows from the last one: it ends with a translation exactly when the last call of a lease opened a stream with content or one that breaks off, and the client sees that translation and nothing of any other attempt; a closed context, a queue timeout and exhaustion after all passes are reported exactly then; every lease is given back; calls are at most (cross-key budget + 5) × (transport retries + 1) |
| Executors.ResponsesStreamed | pkg/gateway/responses.go:220-292 | the same with the plain cross-key budget, ending also at the first pass that opens no stream although the key is not at fault and calls are left; a relay error is reported by the same translator |
| Executors.PlainPass | pkg/gateway/proxy.go:544-660 | one pass of the plain stream loop: its whole effect, and a delivery exactly when the last call under its lease opened a stream |
| Executors.PlainStream | pkg/gateway/proxy.go:521-720 | the loop ends exactly at the first lease whose last call opens a stream, whose bytes are all the client receives; passes, leases, calls, context, timeout and exhaustion as above |
| Executors.JSONPass | pkg/gateway/proxy.go:729-750 | one pass of a JSON loop: its whole effect, and an answer exactly when the last call under its lease does not move on and is a success or has a body; a 2xx chat reply is never an empty completion |
| Executors.ChatNonStream | pkg/gateway/proxy.go:409-519 | the loop answers exactly at the first lease whose last call settles it, with that call's status or a 502 of its own; the second emptiness check never fires; passes, leases, calls, context, timeout and exhaustion as above |
| Executors.JSONPath | pkg/gateway/embeddings.go:46-92 | the same for embeddings and the model list, with the plain cross-key budget and no context check |
| Executors.PairedBalances | pkg/gateway/proxy.go:453-454 | in such a ledger every key is released as often as acquired, and at most one lease is out at any point |
| RequestLeases.RequestsMatch | pkg/gateway/proxy.go:453-454 | when any number of requests follow the retry loops and their scheduler calls interleave in any order, every release gives back a lease that is out: the run is matched, as lease accounting asks |
| RequestLeases.CountersReturn | pkg/scheduler/redis.go:442-453 | in such a run a counter never exceeds the leases the requests hold, at most one each; it equals that unless a reset or a death wiped it; and it is zero once all requests are done |
| OneAttempt.ClaudeIsHonest | pkg/gateway/stream_live_compat.go:667-673 | for every sequence of calls the Claude translator has started exactly when it has written something |
| OneAttempt.GeminiIsHonest | pkg/gateway/stream_live_compat.go:903-909 | the same for Gemini |
| OneAttempt.ResponsesIsHonest | pkg/gateway/responses.go:351-357 | the same for Responses |
| OneAttempt.FreshFinishIsEmpty | pkg/gateway/stream_live_compat.go:215-218 | the silent fallback writes nothing to a Claude or Gemini client |
| OneAttempt.ResponsesClientSees | pkg/gateway/stream_live_compat.go:484-496 | the Finish the relay adds at the end of a body changes nothing after a done payload: a Responses client is shown what chunks and one Finish produce |
| OneAttempt.GeminiClientSees | pkg/gateway/stream_live_compat.go:484-496 | the same for Gemini |
| OneAttempt.ClaudeClientSees | pkg/gateway/stream_live_compat.go:352-506 | a relay that came to its end leaves nothing or one well-formed stream exactly when nothing was asked for after a done payload; one cut off by an undecodable payload with content shown leaves a stream that is not well formed |
| OneAttempt.ClaudeCompatStream | pkg/gateway/stream_live_compat.go:104-218 | over the whole retry loop a Claude client sees one attempt at most; on success it is shown something, and that is one well-formed stream exactly when nothing was asked for after a done payload |
| OneAttempt.GeminiClientGets | pkg/gateway/stream_live_compat.go:352-506 | a relay that came to its end leaves a Gemini client nothing or one whole stream exactly when no text came after a done payload |
| OneAttempt.GeminiCompatStream | pkg/gateway/stream_live_compat.go:104-218 | over the whole retry loop a Gemini client sees one attempt at most; on success that is nothing or one whole stream exactly when no text came after a done payload, and if the relay handed over chunks and then finished, exactly what those chunks and one Finish produce |
| OneAttempt.ResponsesClientGets | pkg/gateway/stream_live_compat.go:352-506 | a relay that came to its end leaves a Responses client nothing or one well-formed stream exactly when nothing was asked for after a done payload |
| OneAttempt.ResponsesClientStream | pkg/gateway/responses.go:220-292 | over the whole retry loop a Responses client sees one attempt at most; on completion that is one well-formed stream exactly when nothing was asked for after a done payload, and after a relay error a log that ends in the failure and the done marker |

## Left out

- Redis operations other than the acquire script, its counter expiry, LuaReleaseKey and LuaTryAcquireSpecificKey: I/O around single reads and writes.
- Sub-second time, clocks that jump back, integer overflow of durations and counters, and floating-point rounding: time is an integer, scores and weights are reals.
- Nil receivers, locks and log lines.
- Whole runs of the Redis implementation: agreement is shown for one acquire, from any one situation the two share.
- Generated ids and time stamps, modelVersion, sequence of headers, and the constant fields of events.
- The Error methods of the Claude and Gemini translators, which no loop modelled here calls.
- How long a 429 cools key and pair (a minute and three, or the Retry-After header if longer).
- Model name, usage and finish reason of Responses streams, and the conversation that is stored: values carried along.
- Keep-alive comments written to the client between events: they are comments to every reader.
- Prefetching of streams (upstream_attempt.go), HTTP clients, headers, caches and usage tracking: an upstream call is one outcome, a stream one body and the way it stops.
- Executors.PlainStream: what is appended after an interrupted drain, and the final fake chunk of the silent fallback, are not part of the client's bytes.
- Executors.JSONPath: the two callers differ in diagnostics, headers and usage records, which are left out.
- Transport error classification by message text: whether an error is transient is part of the outcome.
- Restoring recoverable keys while the queue waits, conversation affinity, response store, runtime events, reports and their history: small tables beside the core.
- Probe and upstream timeouts: every probe of the worker pool is taken to return.
- Unicode: characters are code points, upper-casing is ASCII only, white space is Go's list.
- Request translation, admin pages, master keys, tokenizer, storage, front end and start-up.
