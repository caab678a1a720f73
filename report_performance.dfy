/** The run of `reportPerformance` once the collection results are in: the nested
    loops that fill `events`, and the stage / shouldPush / token gating that prints
    the events or queues them on the Splunk logger and flushes once
    (src/reportPerformance.ts). */
module ReportPerformance {
  import opened Wrappers
  import opened PerfEvents

  const SplunkEndpoint := "https://input-prd-p-kwnk36xd58jf.cloud.splunk.com:8088/services/collector/event"
  const NoTokenMessage := "No token was provided for Splunk logger"

  /** The error the run throws. */
  datatype RunError = TypeError(message: string)

  /** One call made on the logger, in the order it was made. */
  datatype LogOp<E> = Queued(event: E) | Flushed(batch: seq<E>)

  /** The calls `addEventToQueue(e)` for every `e` of `es`, in order. */
  ghost function Enqueues<E>(es: seq<E>): (ops: seq<LogOp<E>>)
    ensures |ops| == |es|
    decreases |es|
  {
    if es == [] then [] else Enqueues(es[..|es| - 1]) + [Queued(es[|es| - 1])]
  }

  /** The events queued since the last flush. */
  ghost function Pending<E>(trace: seq<LogOp<E>>): seq<E>
    decreases |trace|
  {
    if trace == [] then []
    else match trace[|trace| - 1]
      case Queued(e) => Pending(trace[..|trace| - 1]) + [e]
      case Flushed(_) => []
  }

  /** The number of flushes in a trace. */
  ghost function FlushCount<E>(trace: seq<LogOp<E>>): nat
    decreases |trace|
  {
    if trace == [] then 0
    else FlushCount(trace[..|trace| - 1]) + (if trace[|trace| - 1].Flushed? then 1 else 0)
  }

  lemma {:induction false} EnqueuesPending<E>(es: seq<E>)
    ensures Pending(Enqueues(es)) == es && FlushCount(Enqueues(es)) == 0
    decreases |es|
  {
    if es != [] {
      var init := es[..|es| - 1];
      EnqueuesPending(init);
      assert (Enqueues(init) + [Queued(es[|es| - 1])])[..|Enqueues(es)| - 1] == Enqueues(init);
      assert es == init + [es[|es| - 1]];
    }
  }

  /** The Splunk logger, seen only as a queue of events and a count of flushes;
      `trace` records every call made on it. */
  class SplunkLogger<E> {
    const token: string
    const endpoint: string
    var queue: seq<E>
    var flushes: nat
    ghost var trace: seq<LogOp<E>>

    ghost predicate Valid()
      reads this
    {
      queue == Pending(trace) && flushes == FlushCount(trace)
    }

    constructor (token: string, endpoint: string)
      ensures Valid()
      ensures this.token == token && this.endpoint == endpoint
      ensures queue == [] && flushes == 0 && trace == []
    {
      this.token := token;
      this.endpoint := endpoint;
      queue := [];
      flushes := 0;
      trace := [];
    }

    /** `addEventToQueue`: buffers one event; no delivery happens. */
    method AddEventToQueue(e: E)
      requires Valid()
      modifies this
      ensures Valid()
      ensures queue == old(queue) + [e] && flushes == old(flushes)
      ensures trace == old(trace) + [Queued(e)]
    {
      queue := queue + [e];
      trace := trace + [Queued(e)];
      assert trace[..|trace| - 1] == old(trace);
    }

    /** `flushEvents`: hands the whole queue to the sink as one batch. */
    method FlushEvents()
      requires Valid()
      modifies this
      ensures Valid()
      ensures queue == [] && flushes == old(flushes) + 1
      ensures trace == old(trace) + [Flushed(old(queue))]
    {
      trace := trace + [Flushed(queue)];
      queue := [];
      flushes := flushes + 1;
      assert trace[..|trace| - 1] == old(trace);
    }
  }

  /** JavaScript's `!token`: the token is undefined or empty. */
  predicate MissingToken(token: Option<string>)
  {
    token.None? || token.value == ""
  }

  /** The innermost `forEach`: pushes one event per record of a non-error report. */
  method PushRecordEvents<V>(events: seq<PerfEvent<V>>, pageUrl: string, report: Outcome<V>, dateStr: string)
    returns (events': seq<PerfEvent<V>>)
    requires report.Ok?
    ensures events' == events + RecordEvents(pageUrl, report, report.records, dateStr)
  {
    events' := events;
    var k := 0;
    while k < |report.records|
      invariant 0 <= k <= |report.records|
      invariant events' == events + RecordEvents(pageUrl, report, report.records[..k], dateStr)
    {
      var rec := report.records[k];
      events' := events' + [PerfEvent(report.testName, rec.id, rec.value, dateStr, pageUrl, report.url)];
      assert report.records[..k + 1][..k] == report.records[..k];
      k := k + 1;
    }
    assert report.records[..k] == report.records;
  }

  /** The middle `forEach`: skips error entries and pushes the events of every other
      entry of one page, in entry order. */
  method PushPageEvents<V>(events: seq<PerfEvent<V>>, pageUrl: string, reports: seq<Outcome<V>>, dateStr: string)
    returns (events': seq<PerfEvent<V>>)
    ensures events' == events + OutcomesEvents(pageUrl, reports, dateStr)
  {
    events' := events;
    var j := 0;
    while j < |reports|
      invariant 0 <= j <= |reports|
      invariant events' == events + OutcomesEvents(pageUrl, reports[..j], dateStr)
    {
      var report := reports[j];
      if !report.Err? {
        events' := PushRecordEvents(events', pageUrl, report, dateStr);
      }
      assert reports[..j + 1][..j] == reports[..j];
      j := j + 1;
    }
    assert reports[..j] == reports;
  }

  /** The nested `forEach` loops that push one event per record of every non-error
      entry of every page. */
  method BuildEvents<V>(pageReports: seq<PageReports<V>>, dateStr: string) returns (events: seq<PerfEvent<V>>)
    ensures events == Flatten(pageReports, dateStr)
  {
    events := [];
    var i := 0;
    while i < |pageReports|
      invariant 0 <= i <= |pageReports|
      invariant events == Flatten(pageReports[..i], dateStr)
    {
      events := PushPageEvents(events, pageReports[i].url, pageReports[i].reports, dateStr);
      assert pageReports[..i + 1][..i] == pageReports[..i];
      i := i + 1;
    }
    assert pageReports[..i] == pageReports;
  }

  /** `reportPerformance` from the collected results on: builds the events, then
      prints them in the `local` stage, does nothing when pushing is off, throws a
      `TypeError` when pushing without a token, and otherwise queues every event on
      a new logger and flushes it once. `genericReports` is collected by the source
      but never read. The returned `printed` is what `console.info` shows. */
  method ReportPerformance<V>(
    pageReports: seq<PageReports<V>>,
    genericReports: seq<Outcome<V>>,
    dateStr: string,
    stage: Option<string>,
    shouldPush: bool,
    token: Option<string>)
    returns (events: seq<PerfEvent<V>>, printed: Option<seq<PerfEvent<V>>>, err: Option<RunError>,
             logger: SplunkLogger?<PerfEvent<V>>)
    ensures events == Flatten(pageReports, dateStr)
    ensures stage == Some("local") ==> printed == Some(events) && err.None? && logger == null
    ensures stage != Some("local") ==> printed.None?
    ensures stage != Some("local") && !shouldPush ==> err.None? && logger == null
    ensures stage != Some("local") && shouldPush && MissingToken(token) ==>
              err == Some(TypeError(NoTokenMessage)) && logger == null
    ensures stage != Some("local") && shouldPush && !MissingToken(token) ==>
              err.None? && logger != null && fresh(logger) && logger.Valid() &&
              logger.token == token.value && logger.endpoint == SplunkEndpoint &&
              logger.trace == Enqueues(events) + [Flushed(events)] &&
              logger.queue == [] && logger.flushes == 1
  {
    events := BuildEvents(pageReports, dateStr);
    printed, err, logger := None, None, null;

    if stage == Some("local") {
      printed := Some(events);
      return;
    }

    if shouldPush {
      if MissingToken(token) {
        err := Some(TypeError(NoTokenMessage));
        return;
      }

      var l := new SplunkLogger<PerfEvent<V>>(token.value, SplunkEndpoint);
      var i := 0;
      while i < |events|
        invariant 0 <= i <= |events|
        invariant l.Valid() && l.token == token.value && l.endpoint == SplunkEndpoint
        invariant l.trace == Enqueues(events[..i])
      {
        l.AddEventToQueue(events[i]);
        assert events[..i + 1][..i] == events[..i];
        i := i + 1;
      }
      assert events[..i] == events;
      EnqueuesPending(events);
      l.FlushEvents();
      logger := l;
    }
  }
}
