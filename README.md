# Pholcus crawler engine, modelled in Dafny

This project models the crawler engine of Pholcus (`app/crawler/crawler.go`).
An engine owns:

- an identifier;
- a two-element pause configuration `[base, spread]` in milliseconds;
- references to its spider, its downloader and its output pipeline.

It works in four steps:

- `Init` takes the spider's request matrix, initialises the pipeline and derives
  the pause configuration from the configured pause time.
- `Run` starts the pipeline, starts the dispatch loop and the spider, waits for
  the loop to return, and stops the pipeline.
- The dispatch loop `run` pulls one request at a time. For each request it takes
  a slot of the spider's pool and starts the request on its own goroutine, which
  releases the slot when the request is done; the loop does not wait for it. It
  pauses after every iteration. It breaks out on an empty pull for which the
  spider says it can stop, and then drains with `Defer`, which waits for the
  requests still running.
- `Process` takes one request from download to a single terminal outcome:
  - success: a history record, the success counter raised, the items and then
    the files handed to the pipeline, and the context returned to its pool;
  - failure: a history record, and the failure counter raised when the spider
    reports a new failure;
  - cancellation: a parse that panics with `ACTIVE_STOP`, which is swallowed.

The model has five modules:

- `Pause`: int64 pause arithmetic (Go's truncating `/`, two's-complement
  wrap-around), the source's spread and sleep time as written, and the corrected
  spread the engine uses.
- `Trace`: the collaborator calls as events, and filtering a trace by kind of
  call.
- `Processor`: the collaborators' answers for one request (`Job`), the calls
  `Process` makes for them (`ProcessEvents`), and the per-outcome properties.
- `Dispatcher`: the loop driven by a finite script of ticks, each an answer to
  the pull plus the random draw. It has the specification functions `Loop` and
  `RunEvents`, and the loop properties: exit, slot pairing, sleeps, counters,
  history and lifecycle.
- `Engine`: the imperative engine. Class `Crawler` has:
  - the `pause` array, which `Init` fills in place;
  - the identifier;
  - the trace of calls;
  - a `Counters` object standing for the runtime cache's page counters.

  Every method is proved against the specification functions above.

The calls that change something are recorded as events in `Crawler.trace`, in
the order the engine makes them. These are the spider's request-matrix, start,
slot, drain, history and context calls; the pipeline's calls; the downloads; the
counter increments; and the error and success logs. The two questions the loop
asks the spider, the pull (`GetOne`) and `CanStop`, are not recorded. Their
answers come from the tick script, as its `Poll`. The one answer `Process` reads
from the spider is the boolean `DoHistory(req, false)` returns.
It comes in with the request, as `Job.newFailure`. The code documents it as
reporting whether the request was queued again as a new failure, and counts a
failure when it is true (crawler.go:116-120).

The model runs each admitted request to completion before the loop goes on, so
in its traces every `FreeOne` directly follows its request's calls. That order
comes from the sequential model, not from the source. What the source promises
whatever the completion order is stated separately (`Dispatcher.SlotsBalance`):
one `UseOne` and one `FreeOne` per admitted request, and all of them before
`Defer`.

## Model

| member | source | states |
|---|---|---|
| Pause.Half | app/crawler/crawler.go:43 | `Pausetime / 2` in Go: truncation toward zero, within one of half the input, and inside int64 |
| Pause.SpreadAsWritten | app/crawler/crawler.go:44-48 | the spread as the code computes it in int64: 1 for a base that is not positive, `3 * base` wherever that does not overflow |
| Pause.SpreadOverflowsAtLargestPause | app/crawler/crawler.go:43-45 | for the largest int64 pause time the as-written spread wraps to a negative value, which `rand.Int63n` rejects |
| Pause.SleepTimeAsWritten | app/crawler/crawler.go:167 | the sleep time as the code computes it: `pause[0] + r` in int64 |
| Pause.SleepTimeWrapsBelowZero | app/crawler/crawler.go:167 | for a pause time whose as-written spread is still positive, the largest draw makes the as-written sleep time negative |
| Pause.Spread | app/crawler/crawler.go:44-48 | the spread is at least 1. It is 1 for a base that is not positive, and `3 * base` while that keeps every delay inside int64. It never exceeds `3 * base`, and `base + spread - 1` always fits in int64 |
| Pause.SpreadAgreesWithSource | app/crawler/crawler.go:44-48 | wherever the code's arithmetic does not overflow, the corrected spread equals the as-written one: `3 * base` for a positive base |
| Pause.SleepTime | app/crawler/crawler.go:167 | a delay for a draw in `[0, spread)` lies in `[base, base + spread)` |
| Pause.SleepTimeBounded | app/crawler/crawler.go:166-169 | for every int64 pause time, the derived spread is a valid `Int63n` argument, and every delay lies in `[base, base + spread)`. Every delay also fits in int64, where it equals the code's own sum |
| Pause.PauseExamples | app/crawler/crawler.go:43-48 | pause time 0 gives `(0, 1)`, 1000 gives `(500, 1500)`, and -3 gives `(-1, 1)` |
| Processor.FetchErrorPath | app/crawler/crawler.go:115-124 | download error: exactly one `DoHistory(req, false)`. The failure counter is raised once exactly when that call returns true. One error is logged. There is no parse, no success count, no sink call and no `PutContext` |
| Processor.ActiveStopPath | app/crawler/crawler.go:126-130 | an `ACTIVE_STOP` panic leaves no history record, no counter change, no error log, no sink call and no `PutContext` |
| Processor.FaultPath | app/crawler/crawler.go:131-138 | any other parse panic leaves exactly the bookkeeping of a download error for the same request and the same spider answer: a failure record, the conditional failure count and an error log |
| Processor.FaultCounts | app/crawler/crawler.go:131-138 | a parse fault gives one failure record. The failure counter is raised exactly when the spider reports a new failure. One error is logged. There is no success count and no sink call |
| Processor.SuccessPath | app/crawler/crawler.go:142-162 | a parse that returns gives one `DoHistory(req, true)`, a success count of exactly 1, no failure count and no error log. Every item is handed to the pipeline in order, then every file, and `PutContext` is the last call |
| Processor.ExactlyOneOutcome | app/crawler/crawler.go:109-163 | for every request, the history receives exactly the record of its one outcome (success, failure, or nothing when cancelled). The counters and the error log move only for that outcome, and sink calls happen only on success |
| Processor.ProcessIsQuiet | app/crawler/crawler.go:109-163 | `Process` makes no slot, sleep, drain or lifecycle call |
| Dispatcher.StopIndex | app/crawler/crawler.go:80-87 | the loop breaks at the first empty pull for which `CanStop` is true, and at no earlier tick |
| Dispatcher.ExitsIffStopTick | app/crawler/crawler.go:80-87 | the loop exits exactly when some tick is an empty pull with `CanStop` true. Empty pulls with `CanStop` false never end it |
| Dispatcher.LoopControl | app/crawler/crawler.go:80-105 | the slot and drain calls of the loop are one `UseOne` and one `FreeOne` per admitted request, then `Defer` once, exactly when the loop exits (that each `FreeOne` comes right after its `UseOne` is due to the sequential model) |
| Dispatcher.SlotsBalance | app/crawler/crawler.go:88-105 | over the loop there are exactly as many `UseOne` calls and as many `FreeOne` calls as admitted requests. `Defer` is called once exactly when the loop exits, and it is then the loop's last call, after every acquisition and release |
| Dispatcher.LoopEndsWithDefer | app/crawler/crawler.go:80-105 | a loop that exits ends with `Defer` |
| Dispatcher.LoopSinks | app/crawler/crawler.go:153-160 | the pipeline receives, over the whole loop, the items and then the files of each admitted request that parsed, in admission order, and nothing from failed or cancelled requests |
| Dispatcher.LoopSleeps | app/crawler/crawler.go:100-101 | the loop's sleeps are exactly one per iteration that does not break, in order, each for its own draw |
| Dispatcher.SleepsBounded | app/crawler/crawler.go:100-101 | there are as many sleeps as iterations before the break, and each delay lies in `[base, base + spread)` |
| Dispatcher.LoopSuccesses | app/crawler/crawler.go:88-97 | over the whole loop, the success counter rises once per admitted request that succeeded |
| Dispatcher.LoopFailures | app/crawler/crawler.go:88-97 | over the whole loop, the failure counter rises once per admitted request that failed and that the spider reported as a new failure |
| Dispatcher.LoopHistories | app/crawler/crawler.go:88-97 | the history records of the whole loop are each admitted request's own record, in admission order |
| Dispatcher.RunLifecycle | app/crawler/crawler.go:53-71 | `Run`'s lifecycle calls are: pipeline start, spider start, the paired slot calls, and then, exactly when the loop exits, `Defer` and pipeline stop. Pipeline stop is then the very last call |
| Dispatcher.ThreeSuccessesThenStop | app/crawler/crawler.go:53-105 | three requests that each parse into one item, then an empty pull with `CanStop` true: the loop admits the three in order and exits at the fourth tick. The pipeline receives the three items, the success counter is raised three times and the failure counter never, and `Run`'s last call is pipeline stop |
| Engine.Counters.PageSuccCount | app/crawler/crawler.go:148 | the success counter rises by one; the failure counter is unchanged |
| Engine.Counters.PageFailCount | app/crawler/crawler.go:119-120 | the failure counter rises by one; the success counter is unchanged |
| Engine.Crawler.New | app/crawler/crawler.go:32-38 | a new engine has the given identifier, a fresh zeroed pause array of length 2, and no calls made yet |
| Engine.Crawler.Init | app/crawler/crawler.go:40-50 | calls `ReqmatrixInit` and then `Pipeline.Init`. Sets `pause[0]` to half the pause time and `pause[1]` to the spread, in place. Leaves a pause configuration under which every draw is valid and every delay fits in int64 |
| Engine.Crawler.SetId | app/crawler/crawler.go:186-192 | `GetId` returns the identifier last set |
| Engine.Crawler.Sleep | app/crawler/crawler.go:166-169 | one pause of `SleepTime(pause[0], pause[1], draw)` milliseconds is recorded |
| Engine.Crawler.RecordFailure | app/crawler/crawler.go:117-122 | records the failure call sequence. Raises the failure counter exactly when the spider reports a new failure. Leaves the success counter unchanged |
| Engine.Crawler.RecordSuccess | app/crawler/crawler.go:145-162 | records the success call sequence, with the items and then the files forwarded one by one. Raises the success counter by one and leaves the failure counter unchanged |
| Engine.Crawler.Process | app/crawler/crawler.go:109-163 | makes exactly the calls `ProcessEvents` prescribes. Moves the counters as the request's outcome says: success +1 on success, failure +1 on a failure the spider reports as new |
| Engine.Crawler.Iterate | app/crawler/crawler.go:88-101 | one iteration that does not break: for an admitted request, a slot is taken, the request processed and the slot freed. Then one pause; the counters move by the request's outcome |
| Engine.Crawler.RunLoop | app/crawler/crawler.go:79-106 | exits exactly when the script holds a stopping tick. Makes exactly the calls `Loop` prescribes. Raises the counters by the successes and counted failures of the admitted requests |
| Engine.Crawler.Run | app/crawler/crawler.go:53-71 | makes exactly the calls `RunEvents` prescribes: pipeline start, spider start, the loop, and pipeline stop once the loop has returned. The counters move as in the loop |

## Left out

- Goroutines, the `chan bool` completion handshake and the `go`/`defer` scheduling (crawler.go:58-67, 91-97). Each admitted request is processed to completion right after its slot is taken, and its deferred `FreeOne` follows at once. The interleaving of concurrent requests' calls is therefore not modelled; the slot counts and the final `Defer` are stated without depending on it (`Dispatcher.SlotsBalance`). `Spider.Start` is recorded before the loop's calls, and the join is the end of the loop.
- The unbounded `for` loop is driven by a finite script of ticks. A script that ends without a stopping tick stands for a loop that has not exited yet: no `Defer` and no pipeline stop are recorded.
- `time.Sleep`, `math/rand` and the conversion to `time.Duration` (crawler.go:167-168). The random draw is an input in `[0, pause[1])`, and only the delay in milliseconds is recorded.
- The internals of the spider, downloader, pipeline, `spider.PutContext` and the runtime cache. They are not part of this model; their calls are recorded events, and the spider's `DoHistory` answer is an input.
- `UseOne` and `FreeOne` (crawler.go:176-184) only forward to the spider. Their calls are recorded directly.
- The pull `GetOne` (crawler.go:82, 172-174) and `Spider.CanStop` (crawler.go:84) are not recorded in the trace. Their answers come from the tick script as a `Poll`: a request, or an empty pull together with the `CanStop` answer. That `CanStop` is asked only after an empty pull is built into the shape of `Poll`; the trace does not show it.
- Log output (crawler.go:95, 122, 137, 151). Only the error and success log calls are recorded, as markers; the debug log is left out.
- `Stop` (crawler.go:74-77) only forwards to `Spider.Stop` and has no logic of its own.
- Panics raised inside `CollectData`, `CollectFile` or `PutContext` after success has been counted. Faults come only from the parse.
- The page counters are process-wide globals in the source. Here they are one `Counters` object shared by reference, so concurrent engines are not modelled.
- Engine.Crawler.Init: uses the corrected spread, not the as-written `pause[0] * 3`. The two agree wherever the code's int64 arithmetic does not overflow (`Pause.SpreadAgreesWithSource`); see Findings.

## Findings

| source | as written | input that shows it | evidently intended | confidence | as-written member | corrected member |
|---|---|---|---|---|---|---|
| app/crawler/crawler.go:43-45 | `pause[1] = pause[0] * 3` in int64 | pause time `0x7fff_ffff_ffff_ffff`: `pause[0] = 0x3fff_ffff_ffff_ffff`, and `pause[1]` wraps to `-0x4000_0000_0000_0003`, so every `rand.Int63n(pause[1])` panics | a spread of at least 1 for every pause time | not executed | Pause.SpreadAsWritten, Pause.SpreadOverflowsAtLargestPause | Pause.Spread, Pause.SleepTimeBounded |
| app/crawler/crawler.go:167 | `pause[0] + rand.Int63n(pause[1])` in int64 | pause time `0x4000_0000_0000_0002`: base `0x2000_0000_0000_0001`, spread `0x6000_0000_0000_0003`, and the draw `0x6000_0000_0000_0002` wraps the sleep time below zero | every delay in `[pause[0], pause[0] + pause[1])` | not executed | Pause.SleepTimeAsWritten, Pause.SleepTimeWrapsBelowZero | Pause.Spread, Pause.SleepTimeBounded |
