// The crawler engine itself: its identifier, its pause configuration, the
// calls it makes on its collaborators (recorded in `trace`) and the
// process-wide page counters it raises.

module Engine {
  import opened Pause
  import opened Trace
  import opened Processor
  import opened Dispatcher

  /** The runtime cache's process-wide page counters. */
  class Counters {
    var pageSucc: nat
    var pageFail: nat

    constructor ()
      ensures pageSucc == 0 && pageFail == 0
    {
      pageSucc, pageFail := 0, 0;
    }

    method PageSuccCount()
      modifies this
      ensures pageSucc == old(pageSucc) + 1 && pageFail == old(pageFail)
    {
      pageSucc := pageSucc + 1;
    }

    method PageFailCount()
      modifies this
      ensures pageFail == old(pageFail) + 1 && pageSucc == old(pageSucc)
    {
      pageFail := pageFail + 1;
    }
  }

  class Crawler {
    var id: int
    /** `[shortest delay, width of the random range added to it]`, in
        milliseconds. */
    const pause: array<int>
    const counters: Counters
    /** Every call made on the spider, pipeline, downloader, counters and log,
        in order. */
    var trace: seq<Event>

    /** The pause configuration `Init` leaves behind: a non-empty range for
        the random draw, and every delay inside int64. */
    ghost predicate Ready()
      reads pause
    {
      pause.Length == 2 && IsInt64(pause[0]) && 1 <= pause[1] && pause[0] + pause[1] - 1 <= MaxInt64
    }

    constructor New(id: int, counters: Counters)
      ensures this.id == id && this.counters == counters
      ensures fresh(pause) && pause.Length == 2 && pause[..] == [0, 0]
      ensures trace == []
    {
      this.id := id;
      this.counters := counters;
      pause := new int[2](_ => 0);
      trace := [];
    }

    /** Takes the spider's request matrix, initialises the pipeline, and
        derives the pause configuration from the configured pause time. */
    method Init(pausetime: int)
      requires IsInt64(pausetime)
      requires pause.Length == 2
      modifies this`trace, pause
      ensures pause[0] == Half(pausetime) && pause[1] == Spread(pause[0])
      ensures Ready()
      ensures trace == old(trace) + [ReqmatrixInit, PipelineInit]
    {
      trace := trace + [ReqmatrixInit, PipelineInit];
      pause[0] := Half(pausetime);
      if pause[0] > 0 {
        pause[1] := if 4 * pause[0] <= MaxInt64 + 1 then pause[0] * 3 else MaxInt64 - pause[0] + 1;
      } else {
        pause[1] := 1;
      }
    }

    function GetId(): int
      reads this
    {
      id
    }

    method SetId(id: int)
      modifies this`id
      ensures GetId() == id
    {
      this.id := id;
    }

    /** One jittered pause, for the draw `rand.Int63n(pause[1])` returned. */
    method Sleep(draw: int)
      requires Ready()
      requires 0 <= draw < pause[1]
      modifies this`trace
      ensures trace == old(trace) + [Slept(SleepTime(pause[0], pause[1], draw))]
    {
      var sleeptime := pause[0] + draw;
      trace := trace + [Slept(sleeptime)];
    }

    /** The failure path: record the failed attempt with the spider, count a
        failure if the spider reports it as new, and log the error. */
    method RecordFailure(req: Request, newFailure: bool)
      modifies this`trace, counters
      ensures trace == old(trace) + FailureEvents(req, newFailure)
      ensures counters.pageSucc == old(counters.pageSucc)
      ensures counters.pageFail == old(counters.pageFail) + (if newFailure then 1 else 0)
    {
      trace := trace + [DoHistory(req, false)];
      if newFailure {
        counters.PageFailCount();
        trace := trace + [PageFail];
      }
      trace := trace + [LogError(req)];
    }

    /** The success path once parsing has returned: record the success with
        the spider, count it, log it, hand every item and then every file to
        the pipeline, and return the context to its pool. */
    method RecordSuccess(req: Request, items: seq<Item>, files: seq<File>)
      modifies this`trace, counters
      ensures trace == old(trace) + SuccessEvents(req, items, files)
      ensures counters.pageSucc == old(counters.pageSucc) + 1
      ensures counters.pageFail == old(counters.pageFail)
    {
      ghost var start := trace;
      trace := trace + [DoHistory(req, true)];
      counters.PageSuccCount();
      trace := trace + [PageSucc];
      trace := trace + [LogSuccess(req)];
      assert trace == start + SuccessHead(req) by {
        AppendTwice(start + [DoHistory(req, true)], [PageSucc], [LogSuccess(req)]);
        AppendTwice(start, [DoHistory(req, true)], [PageSucc] + [LogSuccess(req)]);
      }
      ghost var head := trace;
      for k := 0 to |items|
        modifies this`trace
        invariant trace == head + DataEvents(items[..k])
      {
        assert DataEvents(items[..k + 1]) == DataEvents(items[..k]) + [CollectData(items[k])];
        trace := trace + [CollectData(items[k])];
      }
      assert items[..|items|] == items;
      ghost var middle := trace;
      for k := 0 to |files|
        modifies this`trace
        invariant trace == middle + FileEvents(files[..k])
      {
        assert FileEvents(files[..k + 1]) == FileEvents(files[..k]) + [CollectFile(files[k])];
        trace := trace + [CollectFile(files[k])];
      }
      assert files[..|files|] == files;
      assert trace == head + SinkEvents(items, files) by {
        AppendTwice(head, DataEvents(items), FileEvents(files));
      }
      trace := trace + [PutContext(req)];
      assert trace == start + SuccessEvents(req, items, files) by {
        AppendTwice(head, SinkEvents(items, files), [PutContext(req)]);
        AppendTwice(start, SuccessHead(req), SinkEvents(items, files) + [PutContext(req)]);
      }
    }

    /** Takes one request from download to its terminal outcome. */
    method Process(job: Job)
      modifies this`trace, counters
      ensures trace == old(trace) + ProcessEvents(job)
      ensures counters.pageSucc == old(counters.pageSucc) + (if OutcomeOf(job) == Succeeded then 1 else 0)
      ensures counters.pageFail
           == old(counters.pageFail) + (if OutcomeOf(job) == Failed && job.newFailure then 1 else 0)
    {
      ghost var start := trace;
      var req := job.req;
      trace := trace + [Download(req)];
      match job.fetch {
        case FetchError(_) =>
          RecordFailure(req, job.newFailure);
        case Fetched(parse) =>
          trace := trace + [ParseRule(req.rule)];
          match parse {
            case ActiveStop =>
            case Fault(_) =>
              RecordFailure(req, job.newFailure);
            case Extracted(items, files) =>
              RecordSuccess(req, items, files);
          }
          assert trace == start + [Download(req)] + ([ParseRule(req.rule)] + AfterParse(req, parse, job.newFailure)) by {
            AppendTwice(start + [Download(req)], [ParseRule(req.rule)], AfterParse(req, parse, job.newFailure));
          }
      }
      assert trace == start + ProcessEvents(job) by {
        AppendTwice(start, [Download(req)], AfterDownload(job));
      }
    }

    /** One iteration of the dispatch loop that does not break out: run an
        admitted request inside a slot of the pool, then pause. */
    method Iterate(t: Tick)
      requires Ready()
      requires !Stops(t)
      requires 0 <= t.draw < pause[1]
      modifies this`trace, counters
      ensures trace == old(trace) + Iteration(t, pause[0], pause[1])
      ensures counters.pageSucc
           == old(counters.pageSucc) + (if t.poll.Got? && OutcomeOf(t.poll.job) == Succeeded then 1 else 0)
      ensures counters.pageFail
           == old(counters.pageFail)
            + (if t.poll.Got? && OutcomeOf(t.poll.job) == Failed && t.poll.job.newFailure then 1 else 0)
    {
      ghost var start := trace;
      ghost var nap := [Slept(SleepTime(pause[0], pause[1], t.draw))];
      if t.poll.Got? {
        trace := trace + [UseOne];
        ghost var entered := trace;
        Process(t.poll.job);
        ghost var p := ProcessEvents(t.poll.job);
        trace := trace + [FreeOne];
        Sleep(t.draw);
        assert trace == start + Iteration(t, pause[0], pause[1]) by {
          AppendTwice(p, [FreeOne], nap);
          AppendTwice(entered + p, [FreeOne], nap);
          AppendTwice(entered, p, [FreeOne] + nap);
          AppendTwice(start, [UseOne], p + ([FreeOne] + nap));
        }
      } else {
        Sleep(t.draw);
      }
    }

    /** The dispatch loop, driven by `script`; `exited` tells whether it
        broke out (and drained) within the script. */
    method RunLoop(script: seq<Tick>) returns (exited: bool)
      requires Ready()
      requires DrawsFit(script, pause[1])
      modifies this`trace, counters
      ensures exited == Exits(script)
      ensures trace == old(trace) + Loop(script, pause[0], pause[1])
      ensures counters.pageSucc == old(counters.pageSucc) + Successes(Admitted(script))
      ensures counters.pageFail == old(counters.pageFail) + CountedFailures(Admitted(script))
    {
      var i := 0;
      exited := false;
      ghost var done: seq<Event> := [];
      while i < |script|
        invariant 0 <= i <= |script|
        invariant DrawsFit(script[i..], pause[1])
        invariant StopIndex(script) == i + StopIndex(script[i..])
        invariant trace == old(trace) + done
        invariant done + Loop(script[i..], pause[0], pause[1]) == Loop(script, pause[0], pause[1])
        invariant counters.pageSucc + Successes(Admitted(script[i..]))
               == old(counters.pageSucc) + Successes(Admitted(script))
        invariant counters.pageFail + CountedFailures(Admitted(script[i..]))
               == old(counters.pageFail) + CountedFailures(Admitted(script))
        invariant !exited
      {
        var t := script[i];
        ghost var rest := script[i..];
        assert rest[0] == t;
        if t.poll.Empty? && t.poll.canStop {
          exited := true;
          break;
        }
        Iterate(t);
        LoopUnfold(rest, pause[0], pause[1]);
        assert rest[1..] == script[i + 1..];
        assert trace == old(trace) + (done + Iteration(t, pause[0], pause[1])) by {
          AppendTwice(old(trace), done, Iteration(t, pause[0], pause[1]));
        }
        assert (done + Iteration(t, pause[0], pause[1])) + Loop(rest[1..], pause[0], pause[1])
            == Loop(script, pause[0], pause[1]) by {
          AppendTwice(done, Iteration(t, pause[0], pause[1]), Loop(rest[1..], pause[0], pause[1]));
        }
        done := done + Iteration(t, pause[0], pause[1]);
        i := i + 1;
      }
      if exited {
        trace := trace + [Defer];
        assert trace == old(trace) + (done + [Defer]) by {
          AppendTwice(old(trace), done, [Defer]);
        }
      } else {
        assert script[i..] == [];
      }
    }

    /** Starts the pipeline and the spider, runs the loop, and once the loop
        has returned stops the pipeline; `finished` tells whether that
        happened within the script. */
    method Run(script: seq<Tick>) returns (finished: bool)
      requires Ready()
      requires DrawsFit(script, pause[1])
      modifies this`trace, counters
      ensures finished == Exits(script)
      ensures trace == old(trace) + RunEvents(script, pause[0], pause[1])
      ensures counters.pageSucc == old(counters.pageSucc) + Successes(Admitted(script))
      ensures counters.pageFail == old(counters.pageFail) + CountedFailures(Admitted(script))
    {
      ghost var start := trace;
      ghost var opening: seq<Event> := [PipelineStart, SpiderStart];
      trace := trace + [PipelineStart];
      trace := trace + [SpiderStart];
      assert trace == start + opening by {
        AppendTwice(start, [PipelineStart], [SpiderStart]);
      }
      finished := RunLoop(script);
      ghost var loop := Loop(script, pause[0], pause[1]);
      assert trace == start + (opening + loop) by {
        AppendTwice(start, opening, loop);
      }
      if finished {
        trace := trace + [PipelineStop];
        assert trace == start + (opening + loop + [PipelineStop]) by {
          AppendTwice(start, opening + loop, [PipelineStop]);
        }
      } else {
        assert opening + loop + [] == opening + loop;
      }
    }
  }
}
