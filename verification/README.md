# load-send, modelled in Dafny

load-send is a load tester. Virtual users (workers) call an HTTP endpoint,
or a user script, over and over until a deadline. Every request's outcome
goes to an aggregator, which prints totals, averages and a per-status
histogram at the end. This project models the parts of it that are
sequential logic, once the goroutines, the terminal UI and the script
engines are set aside:

- **Metrics folding.**
  - `StatusReporter` (`reporter/http.go`) is the single-consumer
    aggregator. Its report channel is a queue field of the class. The
    consumer goroutine is the step `Consume`. `Stop` drains the whole
    queue. `GetResult` derives the integer averages and copies the reason
    map.
  - `SendRequests` (`app.go`) is the older fold over HTTP results:
    timeouts, 2xx against the rest, and per-status counts. It also covers
    the average latency and the sorted status-code lines that
    `printResult` builds.
- **Records and the recorder.**
  - `Records` (`internal/reporter/repoter.go`) is the mutable `Record`
    object. Its timestamps are `Option<int>` nanoseconds.
  - `HttpRepoter` (`internal/reporter/http.go`) is the recorder. It
    collects records in arrival order, and its report does a min-scan, an
    in-place sort by end time and one-second bucket counting.
- **Lifecycle control.**
  - `StarlarkGlobals` holds what both starlark runners share: function
    lookup, the default options, the hook-call events and the error a
    lifecycle returns.
  - `StarlarkLifecycle` is `internal/starlark/script/lifecycle.go`.
  - `LegacyLifecycle` is `internal/script/lifecycle.go`.
  - `LoadScript` is `script/script.go`, the risor runner.
  - Each hook is an abstract outcome: a value or an error. One worker
    iteration is a step function. The iterations a worker manages before
    the deadline are given as a sequence of ticks.
  - A run is described by the events it produces and the error it
    returns.
- **Support modules.**
  - `GoInt` gives Go's truncating integer division, `m[k]++` on a map and
    `time.Second`.
  - `Wrappers` gives `Option` and `Result`.

Go's `int` and `int64` are unbounded `int` here. Go's truncating `/` is
written out as `GoInt.Quo`, because Dafny's `/` is Euclidean.

In three places the code panics where a caller could expect an error. The
model follows the code:

- `Record` on a stopped recorder sends on a closed channel, which panics.
  It does not return an error. The model therefore requires the recorder
  not to be closed.
- `duration` panics when a timestamp is missing. It does not return a
  typed error. The model therefore requires both timestamps to be set.
- `executeScriptLifecycle` makes its error channel with a buffer of `VU`
  slots after calling `before` (script/script.go:117). A negative `VU`
  makes `make` panic, and the command line passes the count through
  unchecked. The model therefore requires `vu` not to be negative in
  `ExecuteScriptLifecycle` and `RunLoadScript`.

## Model

| member | source | states |
|---|---|---|
| GoInt.Quo | reporter/http.go:150 | Go's integer quotient truncates toward zero. `q*b <= a < q*b + b` for `a >= 0`, and the mirror bounds for `a < 0`. |
| GoInt.Average | reporter/http.go:148-161 | A guarded average is 0 when the count is not positive. Otherwise it is the floor quotient of a non-negative total. |
| GoInt.Inc | reporter/http.go:89 | `m[k]++` keeps the key set plus `k`. It raises `k`'s value by one, from 0 when absent, and leaves every other key unchanged. |
| GoInt.SumInc | reporter/http.go:89 | Incrementing one key raises the sum of the map's values by exactly one. |
| StatusReporter.ApplyCounts | reporter/http.go:79-90 | Folding one report adds 1 request and its duration. A success leaves the reason map untouched. A failure adds 1 to the map's value sum. |
| StatusReporter.Apply | reporter/http.go:80-90 | The consumer's loop body for one report, as a function of the counters. It has no contract of its own: ApplyCounts, ApplyConsistent and ApplyCommutes state its properties. |
| StatusReporter.Fold | reporter/http.go:79-91 | The consumer's `range` over the channel, first report first. It has no contract of its own: FoldCounters, FoldReasons and FoldPermutation state its properties. |
| StatusReporter.ApplyConsistent | reporter/http.go:80-90 | Folding a report preserves the bookkeeping identities: total = success + failed (for counts and for times), reason values sum to the failed count, and all counts are non-negative. |
| StatusReporter.FoldConsistent | reporter/http.go:79-91 | Folding any sequence of reports preserves those identities. |
| StatusReporter.FoldAppend | reporter/http.go:79-91 | Folding `p + q` equals folding `p` and then `q`. This is how a queue drained in pieces gives the same counters. |
| StatusReporter.ApplyCommutes | reporter/http.go:79-91 | Two reports folded in either order give identical counters and map. |
| StatusReporter.FoldApplyCommutes | reporter/http.go:79-91 | A report folded first has the same effect as the same report folded last. |
| StatusReporter.FoldPermutation | reporter/http.go:79-91 | Any permutation of the same reports gives identical counters and reason map. |
| StatusReporter.FoldCounters | reporter/http.go:79-90 | After a fold, each counter equals its start value plus the matching count or time sum over the reports, each computed independently. |
| StatusReporter.FoldReasons | reporter/http.go:83-90 | Each reason's count grows by the number of failed reports carrying it. A key is present iff it was already present or some failed report carries it. |
| StatusReporter.ZeroConsistent | reporter/http.go:14-22 | The fresh counters satisfy the bookkeeping identities. |
| StatusReporter.ReachableConsistent | reporter/http.go:79-91 | Every counter state reachable from the fresh reporter satisfies the bookkeeping identities. |
| StatusReporter.FoldFromZero | reporter/http.go:79-91 | From fresh counters, totals equal the number of reports, the number of successes and the sum of durations. Every reason's count equals the number of failed reports carrying it. |
| StatusReporter.AverageAfterFold | reporter/http.go:148-151 | For a non-empty run with non-negative durations, the average latency is the floor of total time over the number of reports. |
| StatusReporter.HttpStatusReporter.constructor | reporter/http.go:14-22 | A new reporter has every counter at 0, an empty reason map, an empty queue, and is neither started nor closed. |
| StatusReporter.HttpStatusReporter.Start | reporter/http.go:77-97 | Start marks the consumer running and records the start time. Counters and queue are unchanged. |
| StatusReporter.HttpStatusReporter.Enqueue | reporter/http.go:114-127 | The channel send shared by the two report methods: the report goes to the back of the queue, and no counter changes. |
| StatusReporter.HttpStatusReporter.ReportSuccessRequest | reporter/http.go:114-119 | Enqueues exactly `report{d, true, ""}` at the back of the queue and changes no counter. |
| StatusReporter.HttpStatusReporter.ReportFailedRequest | reporter/http.go:121-127 | Enqueues exactly `report{d, false, reason}` at the back of the queue and changes no counter. |
| StatusReporter.HttpStatusReporter.Consume | reporter/http.go:79-91 | One consumer step folds the head of the queue into the counters and removes it. The counters stay the fold of everything consumed. |
| StatusReporter.HttpStatusReporter.Stop | reporter/http.go:99-103 | After the drain the queue is empty and the counters are the fold of every report ever enqueued, with no loss and no double counting. The identities hold. |
| StatusReporter.HttpStatusReporter.GetResult | reporter/http.go:145-198 | Each average is the guarded floor quotient of the matching time by the matching count. The totals are copied. The returned reason map equals the internal one. |
| StatusReporter.Drive | reporter/http.go:114-127 | Starting a reporter, reporting a sequence of outcomes through the two report methods and stopping it gives totals equal to that sequence's counts, time sum and per-reason counts. |
| Records.Record.constructor | internal/reporter/repoter.go:21-28 | A new record has the given type, no timestamps, `success == false` and empty maps. |
| Records.Record.Start | internal/reporter/repoter.go:30-33 | Sets only the start timestamp. |
| Records.Record.End | internal/reporter/repoter.go:35-38 | Sets only the end timestamp. |
| Records.Record.Set | internal/reporter/repoter.go:40-42 | `data[k] == v` afterwards. Every other key and every other field is unchanged. |
| Records.Record.Del | internal/reporter/repoter.go:44-46 | Removes only `k` from `data`. Everything else is unchanged. |
| Records.Record.Success | internal/reporter/repoter.go:48-50 | Sets only `success := true`. |
| Records.Record.Failed | internal/reporter/repoter.go:52-54 | Sets only `success := false`. The reason is discarded. |
| Records.Record.Clear | internal/reporter/repoter.go:56-58 | Empties `data`. Timestamps, success flag and reason map are unchanged. |
| Records.Record.Duration | internal/reporter/repoter.go:60-66 | Defined only when both timestamps are set. `start + d == end`, so `d` is non-negative iff start is not after end. |
| Records.Classify | internal/reporter/repoter.go:48-54 | After any sequence of Success/Failed calls, the flag is the last call's. Nothing else changes. |
| Records.TimeRecord | internal/reporter/repoter.go:60-66 | A record started at `t0` and ended at `t1` has duration `t1 - t0`. |
| HttpRepoter.CountSuccessBound | internal/reporter/http.go:72-76 | The number of successful records never exceeds the number of records. |
| HttpRepoter.EarliestStart | internal/reporter/http.go:51-56 | The min-scan returns a start time that some record has and that no record precedes. |
| HttpRepoter.EarliestOfPermutation | internal/reporter/http.go:51-60 | Permuting the records (as the sort does) cannot change their earliest start. |
| HttpRepoter.EarliestUnique | internal/reporter/http.go:51-56 | A value found by the min-scan is the one earliest start of any permutation of the records. |
| HttpRepoter.SortByEnd | internal/reporter/http.go:58-60 | The in-place sort leaves the array ascending by end time and a permutation of its old contents. |
| HttpRepoter.SortRecords | internal/reporter/http.go:58-60 | The sorted records are a permutation of the input, ascending by end, and stay fully timed. |
| HttpRepoter.CountBuckets | internal/reporter/http.go:62-77 | `1 <= bucketCount <= 1 + n`. The count stays 1 iff no record ends more than a second after the first start. Total time is the sum of durations. Success + failed = n, and failed is never negative. |
| HttpRepoter.HttpRepoter.constructor | internal/reporter/http.go:10-16 | A new recorder has an empty queue and no records. |
| HttpRepoter.HttpRepoter.NewRecord | internal/reporter/http.go:27-33 | A fresh record of type "http" with no timestamps, `success == false` and empty maps. |
| HttpRepoter.HttpRepoter.Record | internal/reporter/http.go:35-39 | Always returns nil. Appends the record to the queue, so the enqueued sequence grows by exactly it. |
| HttpRepoter.HttpRepoter.Type | internal/reporter/http.go:41-43 | Always "http". |
| HttpRepoter.HttpRepoter.Start | internal/reporter/http.go:90-100 | Returns nil and starts the collector without changing queue or records. |
| HttpRepoter.HttpRepoter.Collect | internal/reporter/http.go:92-94 | One collector step moves the head of the queue to the end of `records`. |
| HttpRepoter.HttpRepoter.Stop | internal/reporter/http.go:102-107 | Returns nil after the drain. `records` is then exactly the enqueued sequence, in receive order. |
| HttpRepoter.HttpRepoter.GetReport | internal/reporter/http.go:45-88 | Requires records and all timestamps. Afterwards `records` is a permutation sorted by end. Total = n, success + failed = n with failed never negative, total time = the sum of durations, and `1 <= buckets <= 1 + n`. Buckets = 1 iff nothing ends more than a second after the earliest start. |
| SendRequests.CollectResults | app.go:220-237 | The result loop computes exactly the fold of the results, timeouts skipped with `continue`. |
| SendRequests.Milliseconds | app.go:227 | `Duration.Milliseconds()` truncates toward zero: for a non-negative duration the result is the floor of the millisecond count, and for a negative one it is the ceiling. |
| SendRequests.Tallied | app.go:220-237 | The result loop as a function of the results. It has no contract of its own: TalliedMeaning, TimeoutOnlyCountsTimeout and ResponseCounts state its properties. |
| SendRequests.TalliedMeaning | app.go:220-237 | Totals are the number of responses, timeouts, 2xx responses and the millisecond sum. passed + failed = requests. Each status count is its number of responses, and the histogram's values sum to the request count. |
| SendRequests.TimeoutOnlyCountsTimeout | app.go:221-224 | A timeout raises only the timeout count and changes no other counter or the histogram. |
| SendRequests.ResponseCounts | app.go:226-236 | A response adds one request and its truncated milliseconds. It adds one passed request when its status is in [200, 300) and one failed request otherwise. It raises its status's histogram entry by one and leaves every other status's entry unchanged. |
| SendRequests.AverageLatencyBounds | app.go:271-274 | The average latency is 0 without requests, and the floor of total time over requests otherwise. |
| SendRequests.LessEqTotal | app.go:267 | Any two lines are ordered one way or the other by string order. |
| SendRequests.LessEqTrans | app.go:267 | String order is transitive. |
| SendRequests.SortLines | app.go:267 | The in-place sort leaves the lines ascending and a permutation of the old ones. |
| SendRequests.InsertLine | app.go:267 | One insertion step of the sort: a prefix in order stays in order with one more line, and the lines are only permuted. |
| SendRequests.NeighboursGiveSorted | app.go:267 | Lines whose neighbours are in order are in order pairwise, by transitivity of the string order. |
| SendRequests.StatusCodeLines | app.go:261-267 | One line per status code, ascending. Each code's `"    HTTP <code> \t <count>\n"` line is present, and every line is such a line. |
| StarlarkGlobals.GetGlobalFunction | internal/starlark/script/lifecycle.go:218-234 | A missing required name gives `"<f>() function not defined in script"`. A missing optional name gives (nil, nil). A non-function gives `"<f> should be a function, but found: <type>"`. A function is returned with its parameter count. |
| StarlarkGlobals.Resolve | internal/starlark/script/lifecycle.go:56-79 | Lookups in the order run, before_all, after_all, before_each, after_each. Each failing lookup is the result exactly when every lookup before it succeeded, so the first failure in that order is reported. The result is Ok iff all five succeed, and then it holds exactly their functions. |
| StarlarkGlobals.MissingRunFirst | internal/starlark/script/lifecycle.go:56-59 | A script without `run` fails with `"run() function not defined in script"` before any other lookup matters. |
| StarlarkGlobals.Defaults | internal/starlark/script/lifecycle.go:31-36 | Nil options become 5 virtual users for 5 seconds. Given options are used unchanged. |
| StarlarkLifecycle.ArgsFor | internal/starlark/script/lifecycle.go:162-169 | A hook receives the struct argument iff it declares parameters, and then exactly the given fields. |
| StarlarkLifecycle.IterationAsWritten | internal/starlark/script/lifecycle.go:138-195 | One iteration as the source writes it, ending in a panic when `run` succeeds and `after_each` is absent. It has no contract of its own: AsWrittenPanics and RunOnlyScriptPanics state its properties. |
| StarlarkLifecycle.Iteration | internal/starlark/script/lifecycle.go:138-195 | One iteration with the nil check of `after_each` made before its parameter count is read. It has no contract of its own: IterationAgrees, SkipOnError, RunArguments and IterationCount state its properties. |
| StarlarkLifecycle.AsWrittenPanics | internal/starlark/script/lifecycle.go:179-190 | As written, an iteration panics iff `run` is reached and succeeds while `after_each` is absent. The panic is its last event. |
| StarlarkLifecycle.RunOnlyScriptPanics | internal/starlark/script/lifecycle.go:180 | A script defining only a succeeding `run` calls `run()` and then panics. |
| StarlarkLifecycle.IterationAgrees | internal/starlark/script/lifecycle.go:189-195 | The corrected iteration never panics. It equals the source's wherever the source does not panic, and always when `after_each` is defined. |
| StarlarkLifecycle.SkipOnError | internal/starlark/script/lifecycle.go:144-175 | In the corrected iteration, a failing before_each skips run and after_each. A failing run skips after_each. Each error is the iteration's last event. After a successful run, after_each is called iff defined. |
| StarlarkLifecycle.RunArguments | internal/starlark/script/lifecycle.go:144-171 | In the corrected iteration, `run` gets the struct of the before_all and before_each results iff it declares parameters. Without parameters it gets no arguments. `before_each` opens the iteration with the before_all struct under the same rule. |
| StarlarkLifecycle.IterationCount | internal/starlark/script/lifecycle.go:138-195 | Each corrected iteration calls its first hook exactly once and never calls before_all or after_all. |
| StarlarkLifecycle.WorkerKeepsGoing | internal/starlark/script/lifecycle.go:132-199 | The `break` only leaves the `select`, so a worker starts one corrected iteration per tick whatever its hooks return. |
| StarlarkLifecycle.RunIteration | internal/starlark/script/lifecycle.go:138-195 | The sequential body of one iteration produces exactly the corrected iteration's events. |
| StarlarkLifecycle.Worker | internal/starlark/script/lifecycle.go:129-202 | A worker's events are its corrected iterations' events (`Iteration`, with the nil check of `after_each` first), one per tick, in order. |
| StarlarkLifecycle.AllWorkersCounts | internal/starlark/script/lifecycle.go:127-203 | No worker of the corrected runner calls before_all or after_all. |
| StarlarkLifecycle.RunWorkers | internal/starlark/script/lifecycle.go:127-205 | Starting `iterations` workers produces each worker's events over the corrected iteration, worker 0 first. A negative count starts none. |
| StarlarkLifecycle.LifecycleOutcome | internal/starlark/script/lifecycle.go:110-216 | A failing before_all is returned before any worker starts. Otherwise, over the corrected iteration, before_all and after_all are each called once when defined, after_all last, and after_all's error (or nil) is the result. |
| StarlarkLifecycle.RunLifecycle | internal/starlark/script/lifecycle.go:110-216 | runLifecycle, over the corrected iteration, produces exactly the lifecycle's events and error. |
| StarlarkLifecycle.RunScript | internal/starlark/script/lifecycle.go:30-94 | An error from executing the script file is returned first, with no hook called. Then a failed lookup is returned, with no hook called. Otherwise the lifecycle, over the corrected iteration, runs with the defaulted number of workers. |
| LegacyLifecycle.WorkerRunsEveryTick | internal/script/lifecycle.go:109-132 | Worker `num` calls `run` exactly once per tick, always with the single argument `num`, whatever `run` returns. |
| LegacyLifecycle.Worker | internal/script/lifecycle.go:109-132 | The worker loop produces exactly those events, printing each error. |
| LegacyLifecycle.WorkersOnlyRun | internal/script/lifecycle.go:107-133 | The workers call no hook but `run`. |
| LegacyLifecycle.RunWorkers | internal/script/lifecycle.go:107-135 | Starting `iterations` workers gives worker `i` the argument `i`, worker 0 first. |
| LegacyLifecycle.LifecycleOutcome | internal/script/lifecycle.go:93-146 | A failing before_all is returned before any worker starts. Otherwise after_all is called once, last, when defined, and its error is returned. before_each and after_each are never called. |
| LegacyLifecycle.RunLifecycle | internal/script/lifecycle.go:93-146 | runLifecycle produces exactly the lifecycle's events and error. |
| LegacyLifecycle.RunScript | internal/script/lifecycle.go:25-77 | An error from executing the script file is returned first, with no hook called. Then a failed lookup, such as a missing `run`, is returned before before_all is called. Otherwise the lifecycle runs with the defaulted options. |
| LoadScript.GetFunFromVM | script/script.go:86-98 | A lookup error without "not found" propagates. Any other outcome that is not a function, a missing name included, is (nil, nil). A function is returned. |
| LoadScript.NotFoundIsAbsent | script/script.go:87-95 | An error mentioning "not found" counts as an absent function, not an error. |
| LoadScript.BeforeFailure | script/script.go:108-113 | A failing `before` is returned before any clone or worker is created. |
| LoadScript.ExecCalls | script/script.go:107-182 | The calls executeScriptLifecycle makes, in order. It has no contract of its own: BeforeFailure, AfterOnlyOnSuccess and NoRunsOnSetupFailure state its properties. |
| LoadScript.ExecError | script/script.go:107-182 | The error executeScriptLifecycle returns. It has no contract of its own: BeforeFailure and ExecErrorOrder state its properties. |
| LoadScript.ExecErrorOrder | script/script.go:107-182 | The result is nil iff before, every clone, every run and a defined after all succeed. Otherwise it is the first failure in that order. |
| LoadScript.AfterOnlyOnSuccess | script/script.go:170-181 | `after` is called only when before, the clones and the runs all succeeded and it is defined, and then it is the last call. |
| LoadScript.NoRunsOnSetupFailure | script/script.go:108-126 | In the model's order, a failing `before` or clone means no `run` call at all. |
| LoadScript.WorkerStopsAtFirstError | script/script.go:130-146 | A worker calls `run` up to and including its first failure, and no further. |
| LoadScript.Worker | script/script.go:130-146 | The worker loop makes those calls and reports its first error. |
| LoadScript.CloneAll | script/script.go:120-126 | VMs are cloned in order up to and including the first failure, whose error is returned. |
| LoadScript.RunWorkers | script/script.go:149-172 | Every worker runs to its end. The error kept is the first failing worker's. |
| LoadScript.ExecuteScriptLifecycle | script/script.go:107-182 | For a non-negative VU count (a negative one panics at script/script.go:117), executeScriptLifecycle produces exactly the calls of `ExecCalls` and the error of `ExecError`. |
| LoadScript.Setup | script/script.go:35-69 | The chain of early returns yields exactly the error of the first failing step, in the order of `StepErrors`. When nothing fails, `before` and `after` are called iff their lookups found functions. |
| LoadScript.SetupOrder | script/script.go:35-69 | Each step's error is the result exactly when every earlier step succeeded: parse, compile, execute, the `run` lookup, a missing or non-function `run` (`"run() function not defined in script"`), the `before` lookup, then the `after` lookup. Setup succeeds iff every step does. |
| LoadScript.MissingRun | script/script.go:52-59 | Once the script executed, a `run` global that is not a function gives the "not defined" error. |
| LoadScript.StopReporter | script/script.go:81 | Stopping the started reporter drains its queue into the counters: they are the fold of every report sent, and the bookkeeping identities hold. |
| LoadScript.RunLoadScript | script/script.go:25-84 | For a non-negative VU count, the reporter is started first. A setup error is returned with no lifecycle call. Otherwise the lifecycle's error is returned. The reporter is stopped iff every step returned nil. |

## Left out

- Goroutines and their interleavings are not modelled.
  - Consumer goroutines become step methods (`Consume`, `Collect`) that a caller drives.
  - Workers are run one after another, so their events are laid out worker by worker.
  - `sync.WaitGroup`, `context` cancellation, `time.Sleep` and timers are absent.
  - A worker's run until the deadline is a given sequence of ticks.
- LoadScript.RunWorkers: keeps the first failing worker's error in worker order. In the source it is whichever error the catcher goroutine receives first.
- LoadScript.ExecErrorOrder: states that a failed run makes the result non-nil. The source can lose a run error and return nil in three ways, which the model does not capture.
  - `wg.Wait()` can return, and `runErr` be read at script/script.go:170, before the catcher goroutine assigns it at line 154 (a data race).
  - After the deadline, the catcher may leave through `ctx.Done()` (line 156). A run already under way in `context.WithoutCancel` (line 137) that fails later sends into the buffered channel, and nobody reads it.
  - When the channel and `ctx.Done()` are both ready, `select` picks one at random.
- LoadScript.AfterOnlyOnSuccess: states that `after` is never called after a failed run. In each of the three cases above the source calls `after` all the same.
- LoadScript.NoRunsOnSetupFailure: holds for a failing `before` and a failing first clone. When clone k fails for k >= 1, the source has already started workers 0 to k-1, which may call `run` before the `cancel()` at script/script.go:123. The model makes every clone before any run, so it shows no `run` call.
- LoadScript.CloneAll: on a clone failure the workers already started keep running until cancelled. The model starts workers only after every clone succeeded.
- The terminal UI is not modelled: the bubbletea/lipgloss code, `Stop`'s UI half, the progress bar in app.go, and the tabwriter output of `printResult` apart from the status lines and the average. Printed errors are `Printed` events.
- Floating-point rates (reporter/http.go:163-176, internal/reporter/http.go:85, app.go:286) are left out, as is the elapsed wall-clock time they divide by.
  - StatusReporter.HttpStatusReporter.GetResult: does not compute the three RPS fields.
  - HttpRepoter.HttpRepoter.GetReport: returns the integer values instead of the formatted `DisplayLines`.
- Clock readings (`time.Now`) are parameters. `time.Time` values are integer nanoseconds, and `Before`/`After` are `<`/`>`.
- Channel capacities (100 reports, 100 records, VU errors) and blocking sends are not modelled; the queues are unbounded. Sending on a closed channel panics, so `Enqueue`, the report methods and `HttpRepoter.Record` require the queue not to be closed.
- Integer overflow of Go's `int`/`int64` counters is not modelled, because the integers are unbounded.
- Go's map iteration order is random. `StatusCodeLines` collects in an arbitrary order (a choice). `GetResult` copies entry by entry in an arbitrary order.
- `sort.Slice` is not stable. The model proves only that the result is some permutation sorted by end time. Records with equal end times may come out in any order.
- The HTTP sending of `SendRequests` (app.go:110-196), the HTTP built-ins of the script modules, and the CLI wiring (app.go:29-90, main.go) are not modelled. Neither is the `os` module.
- Script parsing, compilation and execution (starlark `ExecFileOptions`, risor `parser`/`compiler`/`vm`) are foreign libraries. Their errors are inputs.
  - Starlark globals are a map from names to a function (with its parameter count) or a value of another type.
  - Hook return values are values known by their printed form.
- The calls through which a risor script reports to the status reporter (script/modules/load/load.go) are not part of this model. `RunLoadScript` only starts and stops the reporter.
- `Record.failedReasons` is created empty and never written by any modelled method. It is kept as a field.

## Findings

| source | as written | input that shows it | evidently intended | confidence | as-written member | corrected member |
|---|---|---|---|---|---|---|
| internal/starlark/script/lifecycle.go:180 | `lc.afterEachFn.NumParams()` is read before the nil check at line 189, so a script without `after_each` dereferences a nil `*starlark.Function` as soon as `run` succeeds, and the program panics | a script defining only `def run(): pass` (`RunOnlyScriptPanics`) | check `afterEachFn != nil` before reading its parameter count, and skip `after_each` when it is absent | high (not executed) | StarlarkLifecycle.IterationAsWritten | StarlarkLifecycle.Iteration |
