// `run`: the dispatch loop, and `Run`: the lifecycle around it.
//
// The loop is `for { ... }` with a single `break`; it pulls a request, and
// either admits it (one slot taken with `UseOne`, the request processed on
// its own goroutine, whose deferred `FreeOne` returns the slot) or, when the
// pull comes back empty, asks the spider whether it may stop. Every
// iteration that does not stop ends with one jittered sleep; after the loop
// the spider's `Defer` waits for the in-flight requests.
//
// The spider's answers are given as a script of ticks, one per iteration:
// what the pull returned (with the collaborators' answers for an admitted
// request), what `CanStop` answered after an empty pull, and the random draw
// of the sleep that ends the iteration. A spawned request runs to completion
// before the loop goes on. A script that runs out before a stopping tick
// describes a loop that has not exited yet.

module Dispatcher {
  import opened Pause
  import opened Trace
  import opened Processor

  /** What `GetOne` returned: a request, or nil together with the answer
      `CanStop` then gives. */
  datatype Poll = Got(job: Job) | Empty(canStop: bool)

  /** One loop iteration's inputs: the poll and the draw in `[0, pause[1])`
      that stands for `rand.Int63n(pause[1])`. */
  datatype Tick = Tick(poll: Poll, draw: int)

  /** The one iteration that breaks out of the loop. */
  predicate Stops(t: Tick) {
    t.poll.Empty? && t.poll.canStop
  }

  /** The index of the iteration that breaks out of the loop: the first
      empty pull on which `CanStop` is true, or `|s|` if there is none. */
  function StopIndex(s: seq<Tick>): (k: nat)
    ensures k <= |s|
    ensures k < |s| ==> Stops(s[k])
    ensures forall j :: 0 <= j < k ==> !Stops(s[j])
  {
    if s == [] then 0
    else if Stops(s[0]) then 0
    else 1 + StopIndex(s[1..])
  }

  /** The loop exits within the script. */
  predicate Exits(s: seq<Tick>) {
    StopIndex(s) < |s|
  }

  /** The loop exits within the script exactly when some tick is an empty
      pull on which `CanStop` is true; empty pulls on which it is false never
      end it. */
  lemma ExitsIffStopTick(s: seq<Tick>)
    ensures Exits(s) <==> exists k :: 0 <= k < |s| && Stops(s[k])
  {
  }

  predicate DrawsFit(s: seq<Tick>, spread: int) {
    forall i :: 0 <= i < |s| ==> 0 <= s[i].draw < spread
  }

  /** The calls of one iteration that does not break. */
  function Iteration(t: Tick, base: int, spread: int): seq<Event>
    requires !Stops(t)
    requires 0 <= t.draw < spread
  {
    var nap := [Slept(SleepTime(base, spread, t.draw))];
    match t.poll
    case Got(job) => [UseOne] + (ProcessEvents(job) + ([FreeOne] + nap))
    case Empty(_) => nap
  }

  /** The calls the loop makes, up to and including the final `Defer`. */
  function Loop(s: seq<Tick>, base: int, spread: int): seq<Event>
    requires DrawsFit(s, spread)
  {
    if s == [] then []
    else if Stops(s[0]) then [Defer]
    else Iteration(s[0], base, spread) + Loop(s[1..], base, spread)
  }

  /** The requests the loop admits, in order. */
  function Admitted(s: seq<Tick>): seq<Job> {
    if s == [] || Stops(s[0]) then []
    else (if s[0].poll.Got? then [s[0].poll.job] else []) + Admitted(s[1..])
  }

  /** The sleeps of the iterations that do not break, in order. */
  function Sleeps(s: seq<Tick>, base: int, spread: int): seq<Event>
    requires DrawsFit(s, spread)
  {
    if s == [] || Stops(s[0]) then []
    else [Slept(SleepTime(base, spread, s[0].draw))] + Sleeps(s[1..], base, spread)
  }

  /** `n` acquisitions and releases, as a model that runs each admitted
      request to completion before the next issues them: each release
      directly after its acquisition's request. */
  function SlotPairs(n: nat): seq<Event> {
    if n == 0 then [] else [UseOne, FreeOne] + SlotPairs(n - 1)
  }

  function Successes(jobs: seq<Job>): nat {
    if jobs == [] then 0
    else (if OutcomeOf(jobs[0]) == Succeeded then 1 else 0) + Successes(jobs[1..])
  }

  function CountedFailures(jobs: seq<Job>): nat {
    if jobs == [] then 0
    else
      var counted := OutcomeOf(jobs[0]) == Failed && jobs[0].newFailure;
      (if counted then 1 else 0) + CountedFailures(jobs[1..])
  }

  /** The history records of a sequence of requests, in order. */
  function Histories(jobs: seq<Job>): seq<Event> {
    if jobs == [] then []
    else HistoryOf(jobs[0].req, OutcomeOf(jobs[0])) + Histories(jobs[1..])
  }

  /** What the pipeline receives from a sequence of requests: every item and
      then every file of each request that parsed, request by request. */
  function Delivered(jobs: seq<Job>): seq<Event> {
    if jobs == [] then []
    else
      var here := match jobs[0].fetch
        case Fetched(Extracted(items, files)) => SinkEvents(items, files)
        case _ => [];
      here + Delivered(jobs[1..])
  }

  lemma IterationFilter(t: Tick, base: int, spread: int, keep: Event -> bool)
    requires !Stops(t)
    requires 0 <= t.draw < spread
    ensures Filter(Iteration(t, base, spread), keep)
         == (if t.poll.Got?
             then KeepSingle(UseOne, keep) + Filter(ProcessEvents(t.poll.job), keep) + KeepSingle(FreeOne, keep)
             else [])
          + KeepSingle(Slept(SleepTime(base, spread, t.draw)), keep)
  {
    var nap := [Slept(SleepTime(base, spread, t.draw))];
    FilterSingle(Slept(SleepTime(base, spread, t.draw)), keep);
    if t.poll.Got? {
      var p := ProcessEvents(t.poll.job);
      FilterConcat([UseOne], p + ([FreeOne] + nap), keep);
      FilterConcat(p, [FreeOne] + nap, keep);
      FilterConcat([FreeOne], nap, keep);
      FilterSingle(UseOne, keep);
      FilterSingle(FreeOne, keep);
    }
  }

  lemma LoopStep(s: seq<Tick>, base: int, spread: int, keep: Event -> bool)
    requires DrawsFit(s, spread)
    requires s != [] && !Stops(s[0])
    ensures DrawsFit(s[1..], spread)
    ensures Filter(Loop(s, base, spread), keep)
         == Filter(Iteration(s[0], base, spread), keep) + Filter(Loop(s[1..], base, spread), keep)
  {
    assert DrawsFit(s[1..], spread) by {
      forall i | 0 <= i < |s[1..]| ensures 0 <= s[1..][i].draw < spread {
        assert s[1..][i] == s[i + 1];
      }
    }
    FilterConcat(Iteration(s[0], base, spread), Loop(s[1..], base, spread), keep);
  }

  /** The slot and drain calls of the loop: one `UseOne` and one `FreeOne`
      per admitted request, then `Defer` once, exactly when the loop exits.
      Nothing else the loop does touches the lifecycle. That each release
      comes before the next acquisition is due to running every admitted
      request to completion in turn; `SlotsBalance` states what holds
      whatever the order of the requests' completions. */
  lemma {:induction false} LoopControl(s: seq<Tick>, base: int, spread: int)
    requires DrawsFit(s, spread)
    ensures Filter(Loop(s, base, spread), IsLifecycle)
         == SlotPairs(|Admitted(s)|) + (if Exits(s) then [Defer] else [])
  {
    if s == [] {
    } else if Stops(s[0]) {
      FilterSingle(Defer, IsLifecycle);
    } else {
      LoopStep(s, base, spread, IsLifecycle);
      LoopControl(s[1..], base, spread);
      IterationControl(s[0], base, spread);
      AdmittedStep(s);
      if s[0].poll.Got? {
        assert |Admitted(s)| == 1 + |Admitted(s[1..])|;
        assert SlotPairs(|Admitted(s)|) == [UseOne, FreeOne] + SlotPairs(|Admitted(s[1..])|);
      }
    }
  }

  /** `n` slot pairs hold `n` acquisitions and `n` releases. */
  lemma {:induction false} SlotPairsCounts(n: nat)
    ensures Count(SlotPairs(n), IsUseOne) == n
    ensures Count(SlotPairs(n), IsFreeOne) == n
  {
    if n > 0 {
      SlotPairsCounts(n - 1);
      assert SlotPairs(n) == [UseOne] + ([FreeOne] + SlotPairs(n - 1));
      FilterConcat([UseOne], [FreeOne] + SlotPairs(n - 1), IsUseOne);
      FilterConcat([FreeOne], SlotPairs(n - 1), IsUseOne);
      FilterConcat([UseOne], [FreeOne] + SlotPairs(n - 1), IsFreeOne);
      FilterConcat([FreeOne], SlotPairs(n - 1), IsFreeOne);
      FilterSingle(UseOne, IsUseOne);
      FilterSingle(FreeOne, IsUseOne);
      FilterSingle(UseOne, IsFreeOne);
      FilterSingle(FreeOne, IsFreeOne);
    }
  }

  /** The loop ends with its drain whenever it exits. */
  lemma {:induction false} LoopEndsWithDefer(s: seq<Tick>, base: int, spread: int)
    requires DrawsFit(s, spread)
    requires Exits(s)
    ensures |Loop(s, base, spread)| > 0 && Loop(s, base, spread)[|Loop(s, base, spread)| - 1] == Defer
  {
    if !Stops(s[0]) {
      LoopUnfold(s, base, spread);
      LoopEndsWithDefer(s[1..], base, spread);
    }
  }

  /** Slot accounting as the concurrent loop promises it: every admitted
      request takes exactly one slot and gives back exactly one, the drain
      is called once exactly when the loop exits, and it is the loop's last
      call, after every acquisition and release. */
  lemma SlotsBalance(s: seq<Tick>, base: int, spread: int)
    requires DrawsFit(s, spread)
    ensures Count(Loop(s, base, spread), IsUseOne) == |Admitted(s)|
    ensures Count(Loop(s, base, spread), IsFreeOne) == |Admitted(s)|
    ensures Count(Loop(s, base, spread), IsDefer) == if Exits(s) then 1 else 0
    ensures Exits(s) ==> Loop(s, base, spread)[|Loop(s, base, spread)| - 1] == Defer
  {
    var loop := Loop(s, base, spread);
    var slots := SlotPairs(|Admitted(s)|);
    var drain: seq<Event> := if Exits(s) then [Defer] else [];
    LoopControl(s, base, spread);
    SlotPairsCounts(|Admitted(s)|);
    assert Filter(loop, IsUseOne) == Filter(slots, IsUseOne) by {
      FilterWithin(loop, IsUseOne, IsLifecycle);
      FilterConcat(slots, drain, IsUseOne);
      FilterSingle(Defer, IsUseOne);
    }
    assert Filter(loop, IsFreeOne) == Filter(slots, IsFreeOne) by {
      FilterWithin(loop, IsFreeOne, IsLifecycle);
      FilterConcat(slots, drain, IsFreeOne);
      FilterSingle(Defer, IsFreeOne);
    }
    assert Filter(loop, IsDefer) == drain by {
      FilterWithin(loop, IsDefer, IsLifecycle);
      FilterConcat(slots, drain, IsDefer);
      FilterSingle(Defer, IsDefer);
      SlotPairsNoDefer(|Admitted(s)|);
    }
    if Exits(s) {
      LoopEndsWithDefer(s, base, spread);
    }
  }

  lemma {:induction false} SlotPairsNoDefer(n: nat)
    ensures Filter(SlotPairs(n), IsDefer) == []
  {
    if n > 0 {
      SlotPairsNoDefer(n - 1);
      assert SlotPairs(n) == [UseOne] + ([FreeOne] + SlotPairs(n - 1));
      FilterConcat([UseOne], [FreeOne] + SlotPairs(n - 1), IsDefer);
      FilterConcat([FreeOne], SlotPairs(n - 1), IsDefer);
      FilterSingle(UseOne, IsDefer);
      FilterSingle(FreeOne, IsDefer);
    }
  }

  /** One iteration's slot calls: an acquisition and its release when it
      admits a request, nothing otherwise. */
  lemma IterationControl(t: Tick, base: int, spread: int)
    requires !Stops(t)
    requires 0 <= t.draw < spread
    ensures Filter(Iteration(t, base, spread), IsLifecycle) == if t.poll.Got? then [UseOne, FreeOne] else []
  {
    IterationFilter(t, base, spread, IsLifecycle);
    if t.poll.Got? {
      ProcessIsQuiet(t.poll.job);
    }
  }

  /** Every iteration that does not break sleeps exactly once, at its end,
      for the delay its own draw gives; the breaking iteration does not
      sleep. */
  lemma {:induction false} LoopSleeps(s: seq<Tick>, base: int, spread: int)
    requires DrawsFit(s, spread)
    ensures Filter(Loop(s, base, spread), IsSleep) == Sleeps(s, base, spread)
  {
    if s == [] {
    } else if Stops(s[0]) {
      FilterSingle(Defer, IsSleep);
    } else {
      LoopStep(s, base, spread, IsSleep);
      LoopSleeps(s[1..], base, spread);
      IterationFilter(s[0], base, spread, IsSleep);
      if s[0].poll.Got? {
        ProcessIsQuiet(s[0].poll.job);
      }
    }
  }

  /** One sleep per iteration before the break, each delay within
      `[base, base + spread)`. */
  lemma {:induction false} SleepsBounded(s: seq<Tick>, base: int, spread: int)
    requires DrawsFit(s, spread)
    ensures |Sleeps(s, base, spread)| == StopIndex(s)
    ensures forall k :: 0 <= k < |Sleeps(s, base, spread)| ==>
      Sleeps(s, base, spread)[k].Slept? && base <= Sleeps(s, base, spread)[k].ms < base + spread
  {
    if s != [] && !Stops(s[0]) {
      LoopStep(s, base, spread, IsSleep);
      SleepsBounded(s[1..], base, spread);
      var rest := Sleeps(s[1..], base, spread);
      assert Sleeps(s, base, spread) == [Slept(SleepTime(base, spread, s[0].draw))] + rest;
    }
  }

  /** The requests admitted by the loop: the first tick's, if it admits
      one, then the rest's. */
  lemma AdmittedStep(s: seq<Tick>)
    requires s != [] && !Stops(s[0])
    ensures Admitted(s) == (if s[0].poll.Got? then [s[0].poll.job] else []) + Admitted(s[1..])
    ensures s[0].poll.Got? ==> Admitted(s)[0] == s[0].poll.job && Admitted(s)[1..] == Admitted(s[1..])
    ensures !s[0].poll.Got? ==> Admitted(s) == Admitted(s[1..])
  {
  }

  /** One iteration that does not break, peeled off the front of the loop,
      with what it adds to the stop index and to the two counters. */
  lemma LoopUnfold(s: seq<Tick>, base: int, spread: int)
    requires DrawsFit(s, spread)
    requires s != [] && !Stops(s[0])
    ensures DrawsFit(s[1..], spread)
    ensures Loop(s, base, spread) == Iteration(s[0], base, spread) + Loop(s[1..], base, spread)
    ensures StopIndex(s) == 1 + StopIndex(s[1..])
    ensures Successes(Admitted(s))
         == (if s[0].poll.Got? && OutcomeOf(s[0].poll.job) == Succeeded then 1 else 0)
          + Successes(Admitted(s[1..]))
    ensures CountedFailures(Admitted(s))
         == (if s[0].poll.Got? && OutcomeOf(s[0].poll.job) == Failed && s[0].poll.job.newFailure then 1 else 0)
          + CountedFailures(Admitted(s[1..]))
  {
    LoopStep(s, base, spread, IsPageSucc);
    AdmittedStep(s);
  }

  /** Over the whole loop the success counter rises once per admitted request
      that succeeded. */
  lemma {:induction false} LoopSuccesses(s: seq<Tick>, base: int, spread: int)
    requires DrawsFit(s, spread)
    ensures Count(Loop(s, base, spread), IsPageSucc) == Successes(Admitted(s))
  {
    if s == [] {
    } else if Stops(s[0]) {
      FilterSingle(Defer, IsPageSucc);
    } else {
      LoopStep(s, base, spread, IsPageSucc);
      LoopSuccesses(s[1..], base, spread);
      IterationFilter(s[0], base, spread, IsPageSucc);
      AdmittedStep(s);
      if s[0].poll.Got? {
        ExactlyOneOutcome(s[0].poll.job);
        assert Successes(Admitted(s)) == (if OutcomeOf(s[0].poll.job) == Succeeded then 1 else 0) + Successes(Admitted(s[1..]));
      }
    }
  }

  /** Over the whole loop the failure counter rises once per admitted request
      that failed and that the spider reported as a new failure. */
  lemma {:induction false} LoopFailures(s: seq<Tick>, base: int, spread: int)
    requires DrawsFit(s, spread)
    ensures Count(Loop(s, base, spread), IsPageFail) == CountedFailures(Admitted(s))
  {
    if s == [] {
    } else if Stops(s[0]) {
      FilterSingle(Defer, IsPageFail);
    } else {
      LoopStep(s, base, spread, IsPageFail);
      LoopFailures(s[1..], base, spread);
      IterationFilter(s[0], base, spread, IsPageFail);
      AdmittedStep(s);
      if s[0].poll.Got? {
        ExactlyOneOutcome(s[0].poll.job);
      }
    }
  }

  /** The spider's history receives exactly one record per admitted request
      that was not cancelled, with its outcome, in admission order. */
  lemma {:induction false} LoopHistories(s: seq<Tick>, base: int, spread: int)
    requires DrawsFit(s, spread)
    ensures Filter(Loop(s, base, spread), IsHistory) == Histories(Admitted(s))
  {
    if s == [] {
    } else if Stops(s[0]) {
      FilterSingle(Defer, IsHistory);
    } else {
      LoopStep(s, base, spread, IsHistory);
      LoopHistories(s[1..], base, spread);
      IterationFilter(s[0], base, spread, IsHistory);
      AdmittedStep(s);
      if s[0].poll.Got? {
        ExactlyOneOutcome(s[0].poll.job);
      }
    }
  }

  /** The pipeline receives the items and files of the admitted requests that
      parsed, in admission order, and nothing from any other request. */
  lemma {:induction false} LoopSinks(s: seq<Tick>, base: int, spread: int)
    requires DrawsFit(s, spread)
    ensures Filter(Loop(s, base, spread), IsSink) == Delivered(Admitted(s))
  {
    if s == [] {
    } else if Stops(s[0]) {
      FilterSingle(Defer, IsSink);
    } else {
      LoopStep(s, base, spread, IsSink);
      LoopSinks(s[1..], base, spread);
      IterationSinks(s[0], base, spread);
      AdmittedStep(s);
      if s[0].poll.Got? {
        DeliveredCons(s[0].poll.job, Admitted(s[1..]));
      }
    }
  }

  /** What one iteration hands to the pipeline. */
  lemma IterationSinks(t: Tick, base: int, spread: int)
    requires !Stops(t)
    requires 0 <= t.draw < spread
    ensures Filter(Iteration(t, base, spread), IsSink)
         == if t.poll.Got? then Delivered([t.poll.job]) else []
  {
    IterationFilter(t, base, spread, IsSink);
    FilterSingle(Slept(SleepTime(base, spread, t.draw)), IsSink);
    if t.poll.Got? {
      FilterSingle(UseOne, IsSink);
      FilterSingle(FreeOne, IsSink);
      JobSinks(t.poll.job);
    }
  }

  lemma DeliveredCons(job: Job, rest: seq<Job>)
    ensures Delivered([job] + rest) == Delivered([job]) + Delivered(rest)
  {
  }

  /** What one request hands to the pipeline. */
  lemma JobSinks(job: Job)
    ensures Filter(ProcessEvents(job), IsSink) == Delivered([job])
  {
    assert [job][1..] == [];
    if OutcomeOf(job) == Succeeded {
      SucceededSink(job);
    } else {
      ExactlyOneOutcome(job);
    }
  }

  /** The calls `Run` makes: start the pipeline, start the spider, run the
      loop, and once the loop has returned, stop the pipeline. */
  function RunEvents(s: seq<Tick>, base: int, spread: int): seq<Event>
    requires DrawsFit(s, spread)
  {
    [PipelineStart, SpiderStart] + Loop(s, base, spread) + (if Exits(s) then [PipelineStop] else [])
  }

  /** The lifecycle of `Run`: the pipeline starts first and the spider next,
      every slot taken is released, and the pipeline stops exactly when the
      loop has exited, after the drain and as the very last call. */
  lemma RunLifecycle(s: seq<Tick>, base: int, spread: int)
    requires DrawsFit(s, spread)
    ensures Filter(RunEvents(s, base, spread), IsLifecycle)
         == [PipelineStart, SpiderStart] + SlotPairs(|Admitted(s)|)
          + (if Exits(s) then [Defer, PipelineStop] else [])
    ensures Exits(s) ==> RunEvents(s, base, spread)[|RunEvents(s, base, spread)| - 1] == PipelineStop
  {
    var head: seq<Event> := [PipelineStart, SpiderStart];
    var loop := Loop(s, base, spread);
    var slots := SlotPairs(|Admitted(s)|);
    var drain: seq<Event> := if Exits(s) then [Defer] else [];
    var tail: seq<Event> := if Exits(s) then [PipelineStop] else [];
    LoopControl(s, base, spread);
    FilterConcat(head + loop, tail, IsLifecycle);
    FilterConcat(head, loop, IsLifecycle);
    assert Filter(head, IsLifecycle) == head by {
      FilterConcat([PipelineStart], [SpiderStart], IsLifecycle);
      assert head == [PipelineStart] + [SpiderStart];
      FilterSingle(PipelineStart, IsLifecycle);
      FilterSingle(SpiderStart, IsLifecycle);
    }
    assert Filter(tail, IsLifecycle) == tail by {
      FilterSingle(PipelineStop, IsLifecycle);
    }
    AppendTwice(head, slots, drain);
    AppendTwice(head + slots, drain, tail);
    assert drain + tail == if Exits(s) then [Defer, PipelineStop] else [];
  }


  /** A request that parses into one item and whose spider answers false. */
  function OneItemJob(r: Request, item: Item): Job {
    Job(r, Fetched(Extracted([item], [])), false)
  }

  /** Three requests that each parse into one item, then an empty pull on
      which `CanStop` is true. */
  function ThreeThenStop(r1: Request, r2: Request, r3: Request, item: Item): seq<Tick> {
    [Tick(Got(OneItemJob(r1, item)), 0), Tick(Got(OneItemJob(r2, item)), 0),
     Tick(Got(OneItemJob(r3, item)), 0), Tick(Empty(true), 0)]
  }

  lemma ThreeAdmitted(r1: Request, r2: Request, r3: Request, item: Item)
    ensures var s := ThreeThenStop(r1, r2, r3, item);
            DrawsFit(s, 1) && Exits(s) && StopIndex(s) == 3
            && Admitted(s) == [OneItemJob(r1, item), OneItemJob(r2, item), OneItemJob(r3, item)]
  {
    var j1, j2, j3 := OneItemJob(r1, item), OneItemJob(r2, item), OneItemJob(r3, item);
    var last := [Tick(Empty(true), 0)];
    var s3 := [Tick(Got(j3), 0)] + last;
    var s2 := [Tick(Got(j2), 0)] + s3;
    var s := [Tick(Got(j1), 0)] + s2;
    assert s == ThreeThenStop(r1, r2, r3, item);
    assert s[1..] == s2 && s2[1..] == s3 && s3[1..] == last;
    assert Admitted(last) == [] && StopIndex(last) == 0;
    AdmittedStep(s3);
    AdmittedStep(s2);
    AdmittedStep(s);
  }

  lemma ThreeDelivered(j1: Job, j2: Job, j3: Job, item: Item)
    requires j1.fetch == j2.fetch == j3.fetch == Fetched(Extracted([item], []))
    ensures Successes([j1, j2, j3]) == 3 && CountedFailures([j1, j2, j3]) == 0
    ensures Delivered([j1, j2, j3]) == [CollectData(item), CollectData(item), CollectData(item)]
  {
    assert [j1, j2, j3][1..] == [j2, j3] && [j2, j3][1..] == [j3] && [j3][1..] == [];
    assert Successes([j3]) == 1 && CountedFailures([j3]) == 0;
    assert Successes([j2, j3]) == 2 && CountedFailures([j2, j3]) == 0;
    var one := [CollectData(item)];
    assert SinkEvents([item], []) == one by {
      assert DataEvents([item]) == one;
      assert FileEvents([]) == [];
    }
    assert Delivered([j3]) == one;
    assert Delivered([j2, j3]) == one + one;
    assert Delivered([j1, j2, j3]) == one + (one + one);
  }

  /** The script above: the loop admits the three requests in order, hands
      the pipeline the three items, counts three successes and no failure,
      and exits, after which the pipeline is stopped as the last call. */
  lemma ThreeSuccessesThenStop(r1: Request, r2: Request, r3: Request, item: Item)
    ensures var s := ThreeThenStop(r1, r2, r3, item);
            DrawsFit(s, 1) && Exits(s) && StopIndex(s) == 3
            && Admitted(s) == [OneItemJob(r1, item), OneItemJob(r2, item), OneItemJob(r3, item)]
            && Successes(Admitted(s)) == 3 && CountedFailures(Admitted(s)) == 0
            && Filter(Loop(s, 0, 1), IsSink) == [CollectData(item), CollectData(item), CollectData(item)]
            && Count(Loop(s, 0, 1), IsPageSucc) == 3
            && RunEvents(s, 0, 1)[|RunEvents(s, 0, 1)| - 1] == PipelineStop
  {
    var s := ThreeThenStop(r1, r2, r3, item);
    ThreeAdmitted(r1, r2, r3, item);
    ThreeDelivered(OneItemJob(r1, item), OneItemJob(r2, item), OneItemJob(r3, item), item);
    LoopSinks(s, 0, 1);
    LoopSuccesses(s, 0, 1);
    RunLifecycle(s, 0, 1);
  }
}
