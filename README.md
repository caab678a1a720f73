# track-performance: event flattening, push gating and the Elastic Beanstalk health report

This project models, in Dafny, two pieces of the `track-performance` script.

- **The end of `reportPerformance`.** The page reporters have already run once per
  page URL. Their results (`pageReports`: a URL plus the entries collected for it,
  each entry either a report `{testName, url?, records}` or an error entry) are
  flattened by three nested loops into one `PerfEvent` per record of every non-error
  report. Each event carries the page URL, the report's test name and URL, the
  record's id and value, and the one date string of the run. The run then prints the
  events in the `local` stage. When pushing is disabled it does nothing. When pushing
  without a Splunk token it throws a `TypeError`. Otherwise it queues every event on a
  new Splunk logger and flushes once.
- **`AwsHealthReporter`.** `formatAwsHealth` maps a health colour to its display label.
  `getReports` turns the environments returned by Elastic Beanstalk into exactly one
  report with one record per environment. A missing name and a missing health get
  defaults.

Layout:

- `wrappers.dfy`: `Option` and `Result`.
- `perf_events.dfy` (module `PerfEvents`): the entry and event datatypes. It also holds
  the pure specification `Flatten` of the event list, with its laws: size, order,
  error skipping, provenance of every field, and the shared date.
- `report_performance.dfy` (module `ReportPerformance`): `BuildEvents`, the loop method
  that fills `events`, proved equal to `Flatten`. It also holds the `SplunkLogger`
  class and `ReportPerformance`, the stage / push / token gating. The logger is a
  queue, a flush counter and a ghost trace of every call made on it.
- `aws_health_reporter.dfy` (module `AwsHealthReporter`): `FormatAwsHealth` and
  `GetReports`.

Two points of behaviour that are easy to misread:

- Stage gating. Only the stage `local` prints. A non-local stage with `shouldPush` off
  neither prints nor pushes. Any non-local stage with `shouldPush` on pushes; no
  stage is singled out as "production".
- Entry shape. Each collected entry is read directly as a report, with `testName`,
  `url` and `records`, or as an error entry. There is no `{name, report[]}` wrapper.

## Model

| member | source | states |
|---|---|---|
| PerfEvents.RecordEvents | src/reportPerformance.ts:60-69 | one event per record of a report |
| PerfEvents.RecordEventsAt | src/reportPerformance.ts:60-69 | event k of a report's events is made from record k |
| PerfEvents.RecordEventsAppend | src/reportPerformance.ts:60-69 | the events of a report's records keep record order (concatenation of records gives concatenation of events) |
| PerfEvents.OutcomesEventsAppend | src/reportPerformance.ts:58-71 | the events of one page keep entry order |
| PerfEvents.FlattenAppend | src/reportPerformance.ts:57-72 | the events of a run keep page order: the events of earlier pages all precede those of later pages |
| PerfEvents.SingleReportEvents | src/reportPerformance.ts:57-72 | one page with one report yields exactly that report's records as events, in order |
| PerfEvents.OutcomesEventsSize | src/reportPerformance.ts:58-71 | a page yields as many events as its non-error entries have records |
| PerfEvents.FlattenSize | src/reportPerformance.ts:55-72 | the number of events equals the sum of record counts over every page and every non-error entry |
| PerfEvents.ErrorEntryIgnored | src/reportPerformance.ts:59 | an error entry, wherever it stands, adds no event and does not change the others |
| PerfEvents.RecordEventsMembers | src/reportPerformance.ts:60-69 | an event comes from a report's records exactly when it is made from one of them |
| PerfEvents.OutcomesEventsMembers | src/reportPerformance.ts:58-71 | an event comes from a page exactly when it is made from some record of some non-error entry of that page |
| PerfEvents.FlattenMembers | src/reportPerformance.ts:57-72 | an event is in the run's list exactly when it is made from some record of some non-error entry of some page, with that page's URL and the run's date |
| PerfEvents.EventFields | src/reportPerformance.ts:45-68 | every event carries the one date of the run, the page URL of an input page, the test name and report URL of a non-error report of that page, and the id and value of a record of that report as its score name and score value |
| PerfEvents.NoEventsIff | src/reportPerformance.ts:57-72 | there are no events exactly when no non-error entry has a record; in particular when every entry is an error |
| PerfEvents.TwoPageScenario | src/reportPerformance.ts:55-72 | a first page with one record and a second page whose only reporter failed give exactly one event, for the first page |
| ReportPerformance.PushRecordEvents | src/reportPerformance.ts:60-69 | the record loop appends exactly the events of the report's records, in record order, after the events already pushed |
| ReportPerformance.PushPageEvents | src/reportPerformance.ts:58-71 | the entry loop skips error entries and appends the events of every other entry of the page, in entry order, after the events already pushed |
| ReportPerformance.BuildEvents | src/reportPerformance.ts:55-72 | the nested loops produce exactly `Flatten` of the page results and the date |
| ReportPerformance.Enqueues | src/reportPerformance.ts:94-96 | one queue call per event |
| ReportPerformance.EnqueuesPending | src/reportPerformance.ts:94-98 | after queueing every event on a new logger, the pending queue is exactly the events, in order, and nothing was flushed yet |
| ReportPerformance.SplunkLogger.constructor | src/reportPerformance.ts:88-92 | a new logger holds the token and endpoint, an empty queue and no flush |
| ReportPerformance.SplunkLogger.AddEventToQueue | src/reportPerformance.ts:95 | queueing appends the event to the queue and flushes nothing |
| ReportPerformance.SplunkLogger.FlushEvents | src/reportPerformance.ts:98 | a flush hands the whole queue as one batch, empties the queue and counts one flush |
| ReportPerformance.ReportPerformance | src/reportPerformance.ts:36-99 | the events are `Flatten` of the page results only (the generic reports never become events); `local` prints them and builds no logger; a non-local stage with pushing off neither prints nor builds a logger; pushing with a missing or empty token raises the `TypeError` before any logger exists; otherwise a fresh logger with the token and Splunk endpoint receives every event queued once in order followed by exactly one flush of all of them |
| AwsHealthReporter.FormatAwsHealth | src/reporters/AwsHealthReporter.ts:4-15 | Green, Red and Yellow map to the OK, Error and Warning labels, each if and only if; every other colour, Grey included, maps to Unknown |
| AwsHealthReporter.GetReports | src/reporters/AwsHealthReporter.ts:33-50 | absent environments give the error and no report; otherwise exactly one report named Elastic Beanstalk with test name Environment and score names [Health], one record per environment in order, each with the environment's name or "Unknown environment", exactly one score (its health or Grey) and the `formatAwsHealth` formatter |
| AwsHealthReporter.ShownHealth | src/reporters/AwsHealthReporter.ts:4-47 | the label shown for environment i is OK, Error or Warning exactly when its health is Green, Red or Yellow, and Unknown when its health is missing |

## Left out

- The concurrent collection (`bluebird.map` over the URLs, `collectReports` for the page and generic reporters) is not modelled. Its results, `pageReports` and `genericReports`, are inputs. `collectReports` is not part of this model.
- Configuration loading (`getConfig`) and `process.env.STAGE` are not modelled. The stage, `shouldPush` and the token are parameters.
- Date formatting with `date-fns` is not modelled. The date is an opaque string parameter, computed once per run.
- `console.info` is modelled only as the returned `printed` value.
- The `SplunkLogger` internals are not part of this model. The logger is a queue with add and flush. A flush is taken to hand the whole queue over as one batch and to empty the queue. Delivery failure, retry and the wire format are not modelled.
- `ReportPerformance.ReportPerformance`: the `TypeError` and the flush are results and logger state. The asynchronous `await` of the flush is not modelled.
- The score value is passed through as an opaque type parameter. The source types it as `any` and never inspects it.
- The `formatScore` closure stored on each health record is modelled as a tag naming `formatAwsHealth`. It is not a function value.
- The Elastic Beanstalk SDK call (`describeEnvironments`) and the reporter's constructor are not modelled. The `Environments` field of the answer, present or absent, is the input of `GetReports`. A rejected SDK call is the collector's concern and is not modelled.
- `src/helpers/format.ts` (number formatting) is not part of this model.
- The fixed list of page URLs and reporter classes is configuration and is not modelled.
