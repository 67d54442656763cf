// `Process`: one request taken from download to a terminal outcome.
//
// The Go code recovers from panics raised while parsing; the panic value
// `spider.ACTIVE_STOP` is a cooperative cancellation and every other value
// is a fault. Here the collaborators' answers for one request are an input
// value (`Job`), and what the engine does with them is the sequence of
// collaborator calls `ProcessEvents` returns.

module Processor {
  import opened Trace

  /** What `ctx.Parse` does: return normally with the items and files it
      extracted, panic with `ACTIVE_STOP`, or panic with anything else. */
  datatype ParseOutcome =
    | Extracted(items: seq<Item>, files: seq<File>)
    | ActiveStop
    | Fault(reason: string)

  /** What the download yields: a context whose `GetError()` is set, or a
      context that is then parsed. */
  datatype FetchResult =
    | FetchError(reason: string)
    | Fetched(parse: ParseOutcome)

  /** One request together with its collaborators' answers; `newFailure` is
      what `DoHistory(req, false)` returns (whether the request was queued
      again as a new failure), the only one of the spider's answers that
      `Process` reads. */
  datatype Job = Job(req: Request, fetch: FetchResult, newFailure: bool)

  datatype Outcome = Succeeded | Failed | Cancelled

  /** The terminal outcome the inputs lead to. */
  function OutcomeOf(job: Job): Outcome {
    match job.fetch
    case FetchError(_) => Failed
    case Fetched(ActiveStop) => Cancelled
    case Fetched(Fault(_)) => Failed
    case Fetched(Extracted(_, _)) => Succeeded
  }

  /** The history call an outcome records: success, failure, or none. */
  function HistoryOf(req: Request, outcome: Outcome): seq<Event> {
    match outcome
    case Succeeded => [DoHistory(req, true)]
    case Failed => [DoHistory(req, false)]
    case Cancelled => []
  }

  function DataEvents(items: seq<Item>): seq<Event> {
    seq(|items|, k requires 0 <= k < |items| => CollectData(items[k]))
  }

  function FileEvents(files: seq<File>): seq<Event> {
    seq(|files|, k requires 0 <= k < |files| => CollectFile(files[k]))
  }

  /** Every item, then every file, handed to the pipeline. */
  function SinkEvents(items: seq<Item>, files: seq<File>): seq<Event> {
    DataEvents(items) + FileEvents(files)
  }

  /** The failure path, shared by a download error and a parse fault. */
  function FailureEvents(req: Request, newFailure: bool): seq<Event> {
    [DoHistory(req, false)] + ((if newFailure then [PageFail] else []) + [LogError(req)])
  }

  /** The calls that open the success path, before the first sink call. */
  function SuccessHead(req: Request): seq<Event> {
    [DoHistory(req, true)] + ([PageSucc] + [LogSuccess(req)])
  }

  /** The success path after parsing returned. */
  function SuccessEvents(req: Request, items: seq<Item>, files: seq<File>): seq<Event> {
    SuccessHead(req) + (SinkEvents(items, files) + [PutContext(req)])
  }

  /** What follows the parse call, by the parse's outcome. */
  function AfterParse(req: Request, parse: ParseOutcome, newFailure: bool): seq<Event> {
    match parse
    case ActiveStop => []
    case Fault(_) => FailureEvents(req, newFailure)
    case Extracted(items, files) => SuccessEvents(req, items, files)
  }

  /** What follows the download call, by the download's result. */
  function AfterDownload(job: Job): seq<Event> {
    match job.fetch
    case FetchError(_) => FailureEvents(job.req, job.newFailure)
    case Fetched(parse) => [ParseRule(job.req.rule)] + AfterParse(job.req, parse, job.newFailure)
  }

  /** The collaborator calls `Process` makes for one request, in order. */
  function ProcessEvents(job: Job): seq<Event> {
    [Download(job.req)] + AfterDownload(job)
  }

  lemma FailureFilter(req: Request, newFailure: bool, keep: Event -> bool)
    ensures Filter(FailureEvents(req, newFailure), keep)
         == KeepSingle(DoHistory(req, false), keep)
          + (if newFailure then KeepSingle(PageFail, keep) else [])
          + KeepSingle(LogError(req), keep)
  {
    var mid := if newFailure then [PageFail] else [];
    FilterConcat([DoHistory(req, false)], mid + [LogError(req)], keep);
    FilterConcat(mid, [LogError(req)], keep);
    FilterSingle(DoHistory(req, false), keep);
    FilterSingle(LogError(req), keep);
    if newFailure {
      FilterSingle(PageFail, keep);
    }
  }

  lemma SuccessHeadFilter(req: Request, keep: Event -> bool)
    ensures Filter(SuccessHead(req), keep)
         == KeepSingle(DoHistory(req, true), keep) + KeepSingle(PageSucc, keep) + KeepSingle(LogSuccess(req), keep)
  {
    FilterConcat([DoHistory(req, true)], [PageSucc] + [LogSuccess(req)], keep);
    FilterConcat([PageSucc], [LogSuccess(req)], keep);
    FilterSingle(DoHistory(req, true), keep);
    FilterSingle(PageSucc, keep);
    FilterSingle(LogSuccess(req), keep);
  }

  lemma SinkEventsAreSinks(items: seq<Item>, files: seq<File>)
    ensures forall e :: e in SinkEvents(items, files) ==> IsSink(e)
  {
    var es := SinkEvents(items, files);
    forall e | e in es ensures IsSink(e) {
      var k :| 0 <= k < |es| && es[k] == e;
      if k < |items| {
        assert es[k] == DataEvents(items)[k];
      } else {
        assert es[k] == FileEvents(files)[k - |items|];
      }
    }
  }

  /** A filter that keeps every sink call keeps all of them. */
  lemma SinkKept(items: seq<Item>, files: seq<File>, keep: Event -> bool)
    requires forall e :: IsSink(e) ==> keep(e)
    ensures Filter(SinkEvents(items, files), keep) == SinkEvents(items, files)
  {
    SinkEventsAreSinks(items, files);
    FilterAll(SinkEvents(items, files), keep);
  }

  /** A filter that drops every sink call drops all of them. */
  lemma SinkDropped(items: seq<Item>, files: seq<File>, keep: Event -> bool)
    requires forall e :: IsSink(e) ==> !keep(e)
    ensures Filter(SinkEvents(items, files), keep) == []
  {
    SinkEventsAreSinks(items, files);
    FilterNone(SinkEvents(items, files), keep);
  }

  /** The calls of a failed request under any filter, part by part. */
  lemma FailedFilter(job: Job, keep: Event -> bool)
    requires OutcomeOf(job) == Failed
    ensures Filter(ProcessEvents(job), keep)
         == KeepSingle(Download(job.req), keep)
          + ((if job.fetch.Fetched? then KeepSingle(ParseRule(job.req.rule), keep) else [])
          + Filter(FailureEvents(job.req, job.newFailure), keep))
  {
    FilterConcat([Download(job.req)], AfterDownload(job), keep);
    FilterSingle(Download(job.req), keep);
    if job.fetch.Fetched? {
      FilterConcat([ParseRule(job.req.rule)], AfterParse(job.req, job.fetch.parse, job.newFailure), keep);
      FilterSingle(ParseRule(job.req.rule), keep);
    }
  }

  /** The calls of a successful request under any filter, part by part. */
  lemma SucceededFilter(job: Job, keep: Event -> bool)
    requires OutcomeOf(job) == Succeeded
    ensures Filter(ProcessEvents(job), keep)
         == KeepSingle(Download(job.req), keep) + (KeepSingle(ParseRule(job.req.rule), keep)
          + (Filter(SuccessHead(job.req), keep)
          + (Filter(SinkEvents(job.fetch.parse.items, job.fetch.parse.files), keep)
          + KeepSingle(PutContext(job.req), keep))))
  {
    var req, sink := job.req, SinkEvents(job.fetch.parse.items, job.fetch.parse.files);
    FilterConcat([Download(req)], AfterDownload(job), keep);
    FilterSingle(Download(req), keep);
    FilterConcat([ParseRule(req.rule)], AfterParse(req, job.fetch.parse, job.newFailure), keep);
    FilterSingle(ParseRule(req.rule), keep);
    FilterConcat(SuccessHead(req), sink + [PutContext(req)], keep);
    FilterConcat(sink, [PutContext(req)], keep);
    FilterSingle(PutContext(req), keep);
  }

  /** The calls of a cancelled request under any filter: the download and
      the parse call, nothing else. */
  lemma CancelledFilter(job: Job, keep: Event -> bool)
    requires OutcomeOf(job) == Cancelled
    ensures Filter(ProcessEvents(job), keep)
         == KeepSingle(Download(job.req), keep) + KeepSingle(ParseRule(job.req.rule), keep)
  {
    FilterConcat([Download(job.req)], AfterDownload(job), keep);
    FilterSingle(Download(job.req), keep);
    FilterConcat([ParseRule(job.req.rule)], [], keep);
    FilterSingle(ParseRule(job.req.rule), keep);
  }



  // One fact per lemma about each path: the solver handles them cheaply
  // one at a time, and the path lemmas below gather them.

  lemma FailedHistory(job: Job)
    requires OutcomeOf(job) == Failed
    ensures Filter(ProcessEvents(job), IsHistory) == [DoHistory(job.req, false)]
  {
    FailedFilter(job, IsHistory);
    FailureFilter(job.req, job.newFailure, IsHistory);
  }

  lemma FailedPageFail(job: Job)
    requires OutcomeOf(job) == Failed
    ensures Count(ProcessEvents(job), IsPageFail) == if job.newFailure then 1 else 0
  {
    FailedFilter(job, IsPageFail);
    FailureFilter(job.req, job.newFailure, IsPageFail);
  }

  lemma FailedErrorLog(job: Job)
    requires OutcomeOf(job) == Failed
    ensures Count(ProcessEvents(job), IsErrorLog) == 1
  {
    FailedFilter(job, IsErrorLog);
    FailureFilter(job.req, job.newFailure, IsErrorLog);
  }

  lemma FailedPageSucc(job: Job)
    requires OutcomeOf(job) == Failed
    ensures Count(ProcessEvents(job), IsPageSucc) == 0
  {
    FailedFilter(job, IsPageSucc);
    FailureFilter(job.req, job.newFailure, IsPageSucc);
  }

  lemma FailedSink(job: Job)
    requires OutcomeOf(job) == Failed
    ensures Filter(ProcessEvents(job), IsSink) == []
  {
    FailedFilter(job, IsSink);
    FailureFilter(job.req, job.newFailure, IsSink);
  }

  lemma FetchErrorNoParse(job: Job)
    requires job.fetch.FetchError?
    ensures Count(ProcessEvents(job), IsParse) == 0
  {
    FailedFilter(job, IsParse);
    FailureFilter(job.req, job.newFailure, IsParse);
  }

  lemma FetchErrorNoPutContext(job: Job)
    requires job.fetch.FetchError?
    ensures Filter(ProcessEvents(job), IsPutContext) == []
  {
    FailedFilter(job, IsPutContext);
    FailureFilter(job.req, job.newFailure, IsPutContext);
  }

  lemma FailedBookkeeping(job: Job)
    requires OutcomeOf(job) == Failed
    ensures Filter(ProcessEvents(job), IsBookkeeping) == FailureEvents(job.req, job.newFailure)
  {
    FailedFilter(job, IsBookkeeping);
    FailureFilter(job.req, job.newFailure, IsBookkeeping);
  }

  lemma SucceededHistory(job: Job)
    requires OutcomeOf(job) == Succeeded
    ensures Filter(ProcessEvents(job), IsHistory) == [DoHistory(job.req, true)]
  {
    SucceededFilter(job, IsHistory);
    SuccessHeadFilter(job.req, IsHistory);
    SinkDropped(job.fetch.parse.items, job.fetch.parse.files, IsHistory);
  }

  lemma SucceededPageSucc(job: Job)
    requires OutcomeOf(job) == Succeeded
    ensures Count(ProcessEvents(job), IsPageSucc) == 1
  {
    SucceededFilter(job, IsPageSucc);
    SuccessHeadFilter(job.req, IsPageSucc);
    SinkDropped(job.fetch.parse.items, job.fetch.parse.files, IsPageSucc);
  }

  lemma SucceededPageFail(job: Job)
    requires OutcomeOf(job) == Succeeded
    ensures Count(ProcessEvents(job), IsPageFail) == 0
  {
    SucceededFilter(job, IsPageFail);
    SuccessHeadFilter(job.req, IsPageFail);
    SinkDropped(job.fetch.parse.items, job.fetch.parse.files, IsPageFail);
  }

  lemma SucceededErrorLog(job: Job)
    requires OutcomeOf(job) == Succeeded
    ensures Count(ProcessEvents(job), IsErrorLog) == 0
  {
    SucceededFilter(job, IsErrorLog);
    SuccessHeadFilter(job.req, IsErrorLog);
    SinkDropped(job.fetch.parse.items, job.fetch.parse.files, IsErrorLog);
  }

  lemma SucceededSink(job: Job)
    requires OutcomeOf(job) == Succeeded
    ensures Filter(ProcessEvents(job), IsSink)
         == DataEvents(job.fetch.parse.items) + FileEvents(job.fetch.parse.files)
  {
    SucceededFilter(job, IsSink);
    SuccessHeadFilter(job.req, IsSink);
    SinkKept(job.fetch.parse.items, job.fetch.parse.files, IsSink);
  }

  lemma SucceededEndsWithPutContext(job: Job)
    requires OutcomeOf(job) == Succeeded
    ensures ProcessEvents(job)[|ProcessEvents(job)| - 1] == PutContext(job.req)
  {
  }


  /** A download error: one failure record with the spider, the failure
      counter raised exactly when the spider reports a new failure, an error
      logged, and no parse, no success, no sink call and no return of the
      context to the pool. */
  lemma FetchErrorPath(job: Job)
    requires job.fetch.FetchError?
    ensures Filter(ProcessEvents(job), IsHistory) == [DoHistory(job.req, false)]
    ensures Count(ProcessEvents(job), IsPageFail) == if job.newFailure then 1 else 0
    ensures Count(ProcessEvents(job), IsErrorLog) == 1
    ensures Count(ProcessEvents(job), IsPageSucc) == 0
    ensures Count(ProcessEvents(job), IsParse) == 0
    ensures Filter(ProcessEvents(job), IsSink) == []
    ensures Filter(ProcessEvents(job), IsPutContext) == []
  {
    FailedHistory(job);
    FailedPageFail(job);
    FailedErrorLog(job);
    FailedPageSucc(job);
    FetchErrorNoParse(job);
    FailedSink(job);
    FetchErrorNoPutContext(job);
  }

  /** A cancellation raised by the parse is swallowed: it leaves no history
      record, no counter change, no error log, no sink call and no return of
      the context to the pool. */
  lemma ActiveStopPath(job: Job)
    requires job.fetch == Fetched(ActiveStop)
    ensures Filter(ProcessEvents(job), IsBookkeeping) == []
  {
    CancelledFilter(job, IsBookkeeping);
  }

  /** A fault raised by the parse leaves exactly the bookkeeping a download
      error leaves: one failure record, the failure counter raised exactly
      when the spider reports a new failure, an error logged, and no success,
      no sink call and no return of the context to the pool. */
  lemma FaultPath(job: Job, reason: string)
    requires job.fetch.Fetched? && job.fetch.parse.Fault?
    ensures Filter(ProcessEvents(job), IsBookkeeping)
         == Filter(ProcessEvents(Job(job.req, FetchError(reason), job.newFailure)), IsBookkeeping)
    ensures Filter(ProcessEvents(job), IsBookkeeping) == FailureEvents(job.req, job.newFailure)
  {
    FailedBookkeeping(job);
    FailedBookkeeping(Job(job.req, FetchError(reason), job.newFailure));
  }

  /** The fault path's history record and counters. */
  lemma FaultCounts(job: Job)
    requires job.fetch.Fetched? && job.fetch.parse.Fault?
    ensures Filter(ProcessEvents(job), IsHistory) == [DoHistory(job.req, false)]
    ensures Count(ProcessEvents(job), IsPageFail) == if job.newFailure then 1 else 0
    ensures Count(ProcessEvents(job), IsErrorLog) == 1
    ensures Count(ProcessEvents(job), IsPageSucc) == 0
    ensures Filter(ProcessEvents(job), IsSink) == []
  {
    FailedHistory(job);
    FailedPageFail(job);
    FailedErrorLog(job);
    FailedPageSucc(job);
    FailedSink(job);
  }

  /** A parse that returns: one success record with the spider, the success
      counter raised by one and the failure counter untouched, no error
      logged, every item and then every file forwarded to the pipeline in
      extraction order, and the context returned to the pool as the last
      call. */
  lemma SuccessPath(job: Job)
    requires job.fetch.Fetched? && job.fetch.parse.Extracted?
    ensures Filter(ProcessEvents(job), IsHistory) == [DoHistory(job.req, true)]
    ensures Count(ProcessEvents(job), IsPageSucc) == 1
    ensures Count(ProcessEvents(job), IsPageFail) == 0
    ensures Count(ProcessEvents(job), IsErrorLog) == 0
    ensures Filter(ProcessEvents(job), IsSink)
         == DataEvents(job.fetch.parse.items) + FileEvents(job.fetch.parse.files)
    ensures ProcessEvents(job)[|ProcessEvents(job)| - 1] == PutContext(job.req)
  {
    SucceededHistory(job);
    SucceededPageSucc(job);
    SucceededPageFail(job);
    SucceededErrorLog(job);
    SucceededSink(job);
    SucceededEndsWithPutContext(job);
  }

  /** Every request ends in exactly one terminal outcome: the spider's history
      receives one success record, one failure record, or (cancellation)
      nothing, and the counters move accordingly: the success counter by one
      on success only, the failure counter by one on failure only and only
      when the spider reports a new failure; an error is logged on failure
      only and the pipeline receives data on success only. */
  lemma ExactlyOneOutcome(job: Job)
    ensures Filter(ProcessEvents(job), IsHistory) == HistoryOf(job.req, OutcomeOf(job))
    ensures Count(ProcessEvents(job), IsPageSucc) == if OutcomeOf(job) == Succeeded then 1 else 0
    ensures Count(ProcessEvents(job), IsPageFail)
         == if OutcomeOf(job) == Failed && job.newFailure then 1 else 0
    ensures Count(ProcessEvents(job), IsErrorLog) == if OutcomeOf(job) == Failed then 1 else 0
    ensures OutcomeOf(job) != Succeeded ==> Filter(ProcessEvents(job), IsSink) == []
  {
    match OutcomeOf(job)
    case Failed =>
      FailedHistory(job);
      FailedPageFail(job);
      FailedErrorLog(job);
      FailedPageSucc(job);
      FailedSink(job);
    case Cancelled =>
      CancelledFilter(job, IsHistory);
      CancelledFilter(job, IsPageSucc);
      CancelledFilter(job, IsPageFail);
      CancelledFilter(job, IsErrorLog);
      CancelledFilter(job, IsSink);
    case Succeeded =>
      SucceededHistory(job);
      SucceededPageSucc(job);
      SucceededPageFail(job);
      SucceededErrorLog(job);
  }

  lemma FailedNoLifecycle(job: Job)
    requires OutcomeOf(job) == Failed
    ensures Filter(ProcessEvents(job), IsLifecycle) == []
  {
    FailedFilter(job, IsLifecycle);
    FailureFilter(job.req, job.newFailure, IsLifecycle);
  }

  lemma CancelledNoLifecycle(job: Job)
    requires OutcomeOf(job) == Cancelled
    ensures Filter(ProcessEvents(job), IsLifecycle) == []
  {
    CancelledFilter(job, IsLifecycle);
  }

  lemma SucceededNoLifecycle(job: Job)
    requires OutcomeOf(job) == Succeeded
    ensures Filter(ProcessEvents(job), IsLifecycle) == []
  {
    SucceededFilter(job, IsLifecycle);
    SuccessHeadFilter(job.req, IsLifecycle);
    SinkDropped(job.fetch.parse.items, job.fetch.parse.files, IsLifecycle);
  }

  lemma QuietLifecycle(job: Job)
    ensures Filter(ProcessEvents(job), IsLifecycle) == []
  {
    match OutcomeOf(job)
    case Failed => FailedNoLifecycle(job);
    case Cancelled => CancelledNoLifecycle(job);
    case Succeeded => SucceededNoLifecycle(job);
  }


  lemma QuietSleep(job: Job)
    ensures Filter(ProcessEvents(job), IsSleep) == []
  {
    match OutcomeOf(job)
    case Failed =>
      FailedFilter(job, IsSleep);
      FailureFilter(job.req, job.newFailure, IsSleep);
    case Cancelled =>
      CancelledFilter(job, IsSleep);
    case Succeeded =>
      SucceededFilter(job, IsSleep);
      SuccessHeadFilter(job.req, IsSleep);
      SinkDropped(job.fetch.parse.items, job.fetch.parse.files, IsSleep);
  }


  /** `Process` never touches the dispatch loop's slots, sleep or drain, nor
      the pipeline's or spider's lifecycle. */
  lemma ProcessIsQuiet(job: Job)
    ensures Filter(ProcessEvents(job), IsLifecycle) == []
    ensures Filter(ProcessEvents(job), IsSleep) == []
  {
    QuietLifecycle(job);
    QuietSleep(job);
  }
}
