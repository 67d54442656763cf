// The values the engine passes around and the calls it makes on its
// collaborators (spider, pipeline, downloader, counters, log), recorded as
// events in the order the engine makes them. The spider's answers to the pull
// and to `CanStop` are inputs of the loop, not events.

module Trace {

  /** A fetch target: its URL and the name of the rule that parses it. */
  datatype Request = Request(url: string, rule: string)

  /** One extracted text record and one extracted file. */
  datatype Item = Item(fields: seq<(string, string)>)
  datatype File = File(name: string, bytes: seq<int>)

  datatype Event =
    // Init
    | ReqmatrixInit
    | PipelineInit
    // Run's lifecycle
    | PipelineStart
    | SpiderStart
    | PipelineStop
    // the dispatch loop
    | UseOne
    | FreeOne
    | Slept(ms: int)
    | Defer
    // Process
    | Download(req: Request)
    | ParseRule(rule: string)
    | DoHistory(req: Request, success: bool)
    | PageSucc
    | PageFail
    | LogError(req: Request)
    | LogSuccess(req: Request)
    | CollectData(item: Item)
    | CollectFile(file: File)
    | PutContext(req: Request)

  predicate IsHistory(e: Event) { e.DoHistory? }
  predicate IsPageSucc(e: Event) { e.PageSucc? }
  predicate IsPageFail(e: Event) { e.PageFail? }
  predicate IsSink(e: Event) { e.CollectData? || e.CollectFile? }
  predicate IsParse(e: Event) { e.ParseRule? }
  predicate IsSleep(e: Event) { e.Slept? }
  predicate IsErrorLog(e: Event) { e.LogError? }
  predicate IsPutContext(e: Event) { e.PutContext? }
  predicate IsUseOne(e: Event) { e.UseOne? }
  predicate IsFreeOne(e: Event) { e.FreeOne? }
  predicate IsDefer(e: Event) { e.Defer? }

  /** Slot acquisition, release and the final drain. */
  predicate IsControl(e: Event) { e.UseOne? || e.FreeOne? || e.Defer? }

  /** The control events together with the start and stop of the pipeline
      and the start of the spider. */
  predicate IsLifecycle(e: Event) {
    IsControl(e) || e.PipelineStart? || e.SpiderStart? || e.PipelineStop?
  }

  /** Everything a request's outcome leaves behind: history, counters, error
      log, sink calls and the context's return to the pool. */
  predicate IsBookkeeping(e: Event) {
    IsHistory(e) || IsPageSucc(e) || IsPageFail(e) || IsErrorLog(e) || IsSink(e) || IsPutContext(e)
  }

  /** The events of `es` that satisfy `keep`, in their order. */
  function Filter(es: seq<Event>, keep: Event -> bool): (r: seq<Event>)
    ensures |r| <= |es|
  {
    if es == [] then []
    else if keep(es[0]) then [es[0]] + Filter(es[1..], keep)
    else Filter(es[1..], keep)
  }

  /** How many events of `es` satisfy `keep`. */
  function Count(es: seq<Event>, keep: Event -> bool): nat {
    |Filter(es, keep)|
  }

  lemma {:induction false} FilterConcat(a: seq<Event>, b: seq<Event>, keep: Event -> bool)
    ensures Filter(a + b, keep) == Filter(a, keep) + Filter(b, keep)
  {
    if a == [] {
      assert a + b == b;
    } else {
      assert (a + b)[0] == a[0];
      assert (a + b)[1..] == a[1..] + b;
      FilterConcat(a[1..], b, keep);
      if keep(a[0]) {
        assert Filter(a + b, keep) == [a[0]] + (Filter(a[1..], keep) + Filter(b, keep));
      }
    }
  }

  /** Appending to a trace in two steps appends the two parts' concatenation. */
  lemma AppendTwice(a: seq<Event>, b: seq<Event>, c: seq<Event>)
    ensures (a + b) + c == a + (b + c)
  {
  }

  /** A single event, kept or dropped. */
  function KeepSingle(e: Event, keep: Event -> bool): seq<Event> {
    if keep(e) then [e] else []
  }

  lemma FilterSingle(e: Event, keep: Event -> bool)
    ensures Filter([e], keep) == KeepSingle(e, keep)
  {
    assert [e][1..] == [];
  }

  /** Filtering keeps the whole sequence when every event passes. */
  lemma {:induction false} FilterAll(es: seq<Event>, keep: Event -> bool)
    requires forall e :: e in es ==> keep(e)
    ensures Filter(es, keep) == es
  {
    if es != [] {
      assert forall e :: e in es[1..] ==> e in es;
      FilterAll(es[1..], keep);
    }
  }

  /** Filtering drops the whole sequence when no event passes. */
  lemma {:induction false} FilterNone(es: seq<Event>, keep: Event -> bool)
    requires forall e :: e in es ==> !keep(e)
    ensures Filter(es, keep) == []
  {
    if es != [] {
      assert forall e :: e in es[1..] ==> e in es;
      FilterNone(es[1..], keep);
    }
  }

  /** Filtering what a wider filter kept by a narrower one is filtering by
      the narrower one. */
  lemma {:induction false} FilterWithin(es: seq<Event>, narrow: Event -> bool, wide: Event -> bool)
    requires forall e :: narrow(e) ==> wide(e)
    ensures Filter(Filter(es, wide), narrow) == Filter(es, narrow)
  {
    if es != [] {
      FilterWithin(es[1..], narrow, wide);
      if wide(es[0]) {
        assert Filter(es, wide) == [es[0]] + Filter(es[1..], wide);
        FilterConcat([es[0]], Filter(es[1..], wide), narrow);
        FilterSingle(es[0], narrow);
      }
    }
  }
}
