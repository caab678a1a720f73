/** The flat performance events built from the per-URL collection results,
    and the pure specification of the flattening (src/reportPerformance.ts). */
module PerfEvents {
  import opened Wrappers

  /** One measurement of a report: `{ id, value }`; the value is passed through untouched. */
  datatype ScoreRecord<V> = ScoreRecord(id: string, value: V)

  /** One entry of a page's collected reports: a report, or an error entry
      (the entries for which `'error' in report` holds). */
  datatype Outcome<V> =
    | Ok(testName: string, url: Option<string>, records: seq<ScoreRecord<V>>)
    | Err(name: string)

  /** One element of `pageReports`: the page URL and what the page reporters returned for it. */
  datatype PageReports<V> = PageReports(url: string, reports: seq<Outcome<V>>)

  /** The `PerfEvent` shape pushed to the sink. */
  datatype PerfEvent<V> = PerfEvent(
    testName: string,
    scoreName: string,
    scoreValue: V,
    date: string,
    pageUrl: string,
    reportUrl: Option<string>)

  /** The event made from one record of a (non-error) report on one page. */
  function ToEvent<V>(pageUrl: string, report: Outcome<V>, rec: ScoreRecord<V>, date: string): (e: PerfEvent<V>)
    requires report.Ok?
    ensures e.testName == report.testName && e.reportUrl == report.url
    ensures e.scoreName == rec.id && e.scoreValue == rec.value
    ensures e.pageUrl == pageUrl && e.date == date
  {
    PerfEvent(report.testName, rec.id, rec.value, date, pageUrl, report.url)
  }

  /** The events for a list of records of one report, in record order. */
  function RecordEvents<V>(pageUrl: string, report: Outcome<V>, recs: seq<ScoreRecord<V>>, date: string): (r: seq<PerfEvent<V>>)
    requires report.Ok?
    ensures |r| == |recs|
    decreases |recs|
  {
    if recs == [] then []
    else RecordEvents(pageUrl, report, recs[..|recs| - 1], date) + [ToEvent(pageUrl, report, recs[|recs| - 1], date)]
  }

  /** The events contributed by one collected entry: none for an error entry. */
  function OutcomeEvents<V>(pageUrl: string, o: Outcome<V>, date: string): seq<PerfEvent<V>>
  {
    match o
    case Err(_) => []
    case Ok(_, _, recs) => RecordEvents(pageUrl, o, recs, date)
  }

  /** The events of one page's entries, in entry order. */
  function OutcomesEvents<V>(pageUrl: string, os: seq<Outcome<V>>, date: string): (r: seq<PerfEvent<V>>)
    decreases |os|
  {
    if os == [] then []
    else OutcomesEvents(pageUrl, os[..|os| - 1], date) + OutcomeEvents(pageUrl, os[|os| - 1], date)
  }

  /** The whole `events` array of one run: pages in order, then entries, then records. */
  function Flatten<V>(ps: seq<PageReports<V>>, date: string): (r: seq<PerfEvent<V>>)
    decreases |ps|
  {
    if ps == [] then []
    else Flatten(ps[..|ps| - 1], date) + OutcomesEvents(ps[|ps| - 1].url, ps[|ps| - 1].reports, date)
  }

  /** Number of records over the non-error entries of one page. */
  function OkRecordCount<V>(os: seq<Outcome<V>>): nat
    decreases |os|
  {
    if os == [] then 0
    else OkRecordCount(os[..|os| - 1]) + (if os[|os| - 1].Ok? then |os[|os| - 1].records| else 0)
  }

  /** Number of records over every page and every non-error entry. */
  function TotalRecords<V>(ps: seq<PageReports<V>>): nat
    decreases |ps|
  {
    if ps == [] then 0
    else TotalRecords(ps[..|ps| - 1]) + OkRecordCount(ps[|ps| - 1].reports)
  }

  // ---------------------------------------------------------------------------
  // Ordering: each level of the flattening distributes over concatenation.

  lemma {:induction false} RecordEventsAppend<V>(pageUrl: string, report: Outcome<V>, a: seq<ScoreRecord<V>>, b: seq<ScoreRecord<V>>, date: string)
    requires report.Ok?
    ensures RecordEvents(pageUrl, report, a + b, date)
         == RecordEvents(pageUrl, report, a, date) + RecordEvents(pageUrl, report, b, date)
    decreases |b|
  {
    if b == [] {
      assert a + b == a;
    } else {
      var b', last := b[..|b| - 1], b[|b| - 1];
      var tail := [ToEvent(pageUrl, report, last, date)];
      assert (a + b)[..|a + b| - 1] == a + b';
      assert (a + b)[|a + b| - 1] == last;
      assert RecordEvents(pageUrl, report, a + b, date) == RecordEvents(pageUrl, report, a + b', date) + tail;
      assert RecordEvents(pageUrl, report, b, date) == RecordEvents(pageUrl, report, b', date) + tail;
      RecordEventsAppend(pageUrl, report, a, b', date);
    }
  }

  lemma {:induction false} OutcomesEventsAppend<V>(pageUrl: string, a: seq<Outcome<V>>, b: seq<Outcome<V>>, date: string)
    ensures OutcomesEvents(pageUrl, a + b, date)
         == OutcomesEvents(pageUrl, a, date) + OutcomesEvents(pageUrl, b, date)
    decreases |b|
  {
    if b == [] {
      assert a + b == a;
    } else {
      var b', last := b[..|b| - 1], b[|b| - 1];
      var tail := OutcomeEvents(pageUrl, last, date);
      assert (a + b)[..|a + b| - 1] == a + b';
      assert (a + b)[|a + b| - 1] == last;
      assert OutcomesEvents(pageUrl, a + b, date) == OutcomesEvents(pageUrl, a + b', date) + tail;
      assert OutcomesEvents(pageUrl, b, date) == OutcomesEvents(pageUrl, b', date) + tail;
      OutcomesEventsAppend(pageUrl, a, b', date);
    }
  }

  /** Events of earlier pages come first: the page loop is the outermost one. */
  lemma {:induction false} FlattenAppend<V>(a: seq<PageReports<V>>, b: seq<PageReports<V>>, date: string)
    ensures Flatten(a + b, date) == Flatten(a, date) + Flatten(b, date)
    decreases |b|
  {
    if b == [] {
      assert a + b == a;
    } else {
      var b', last := b[..|b| - 1], b[|b| - 1];
      var tail := OutcomesEvents(last.url, last.reports, date);
      assert (a + b)[..|a + b| - 1] == a + b';
      assert (a + b)[|a + b| - 1] == last;
      assert Flatten(a + b, date) == Flatten(a + b', date) + tail;
      assert Flatten(b, date) == Flatten(b', date) + tail;
      FlattenAppend(a, b', date);
    }
  }

  /** A single page, single report run yields exactly that report's records, in order. */
  lemma {:induction false} SingleReportEvents<V>(pageUrl: string, report: Outcome<V>, date: string)
    requires report.Ok?
    ensures Flatten([PageReports(pageUrl, [report])], date)
         == seq(|report.records|, k requires 0 <= k < |report.records| => ToEvent(pageUrl, report, report.records[k], date))
  {
    var ps := [PageReports(pageUrl, [report])];
    var os := [report];
    assert ps[..0] == [];
    assert os[..0] == [];
    assert Flatten(ps, date) == OutcomesEvents(pageUrl, os, date);
    assert OutcomesEvents(pageUrl, os, date) == RecordEvents(pageUrl, report, report.records, date);
    RecordEventsAt(pageUrl, report, report.records, date);
  }

  /** Event k of a report's record list is made from record k. */
  lemma {:induction false} RecordEventsAt<V>(pageUrl: string, report: Outcome<V>, recs: seq<ScoreRecord<V>>, date: string)
    requires report.Ok?
    ensures forall k :: 0 <= k < |recs| ==> RecordEvents(pageUrl, report, recs, date)[k] == ToEvent(pageUrl, report, recs[k], date)
    decreases |recs|
  {
    if recs != [] {
      RecordEventsAt(pageUrl, report, recs[..|recs| - 1], date);
    }
  }

  // ---------------------------------------------------------------------------
  // Size and error skipping.

  lemma {:induction false} OutcomesEventsSize<V>(pageUrl: string, os: seq<Outcome<V>>, date: string)
    ensures |OutcomesEvents(pageUrl, os, date)| == OkRecordCount(os)
    decreases |os|
  {
    if os != [] {
      OutcomesEventsSize(pageUrl, os[..|os| - 1], date);
    }
  }

  /** The number of events is the number of records of all non-error entries of all pages. */
  lemma {:induction false} FlattenSize<V>(ps: seq<PageReports<V>>, date: string)
    ensures |Flatten(ps, date)| == TotalRecords(ps)
    decreases |ps|
  {
    if ps != [] {
      FlattenSize(ps[..|ps| - 1], date);
      OutcomesEventsSize(ps[|ps| - 1].url, ps[|ps| - 1].reports, date);
    }
  }

  /** An error entry, wherever it sits among a page's entries, contributes no event. */
  lemma ErrorEntryIgnored<V>(pageUrl: string, before: seq<Outcome<V>>, name: string, after: seq<Outcome<V>>, date: string)
    ensures OutcomesEvents(pageUrl, before + [Err(name)] + after, date)
         == OutcomesEvents(pageUrl, before + after, date)
  {
    var withErr := before + [Err(name)];
    assert withErr[..|withErr| - 1] == before;
    assert OutcomesEvents(pageUrl, withErr, date) == OutcomesEvents(pageUrl, before, date);
    OutcomesEventsAppend(pageUrl, withErr, after, date);
    OutcomesEventsAppend(pageUrl, before, after, date);
  }

  // ---------------------------------------------------------------------------
  // Provenance: which events appear, both directions.

  /** `e` is the event of some record of some non-error entry of page `p`. */
  ghost predicate FromPage<V>(p: PageReports<V>, e: PerfEvent<V>, date: string)
  {
    exists o, rec :: o in p.reports && o.Ok? && rec in o.records && e == ToEvent(p.url, o, rec, date)
  }

  lemma {:induction false} RecordEventsMembers<V>(pageUrl: string, report: Outcome<V>, recs: seq<ScoreRecord<V>>, date: string, e: PerfEvent<V>)
    requires report.Ok?
    ensures e in RecordEvents(pageUrl, report, recs, date)
        <==> exists rec :: rec in recs && e == ToEvent(pageUrl, report, rec, date)
    decreases |recs|
  {
    if recs != [] {
      var init := recs[..|recs| - 1];
      assert recs == init + [recs[|recs| - 1]];
      RecordEventsMembers(pageUrl, report, init, date, e);
    }
  }

  lemma {:induction false} OutcomesEventsMembers<V>(p: PageReports<V>, date: string, e: PerfEvent<V>)
    ensures e in OutcomesEvents(p.url, p.reports, date) <==> FromPage(p, e, date)
    decreases |p.reports|
  {
    var os := p.reports;
    if os == [] {
    } else {
      var init := os[..|os| - 1];
      var last := os[|os| - 1];
      assert os == init + [last];
      var q := PageReports(p.url, init);
      OutcomesEventsMembers(q, date, e);
      if last.Ok? {
        RecordEventsMembers(p.url, last, last.records, date, e);
      }
      if e in OutcomesEvents(p.url, os, date) {
        if e in OutcomesEvents(p.url, init, date) {
          var o, rec :| o in init && o.Ok? && rec in o.records && e == ToEvent(p.url, o, rec, date);
          assert o in os;
        } else {
          assert last.Ok?;
          var rec :| rec in last.records && e == ToEvent(p.url, last, rec, date);
          assert last in os;
        }
      }
      if FromPage(p, e, date) {
        var o, rec :| o in os && o.Ok? && rec in o.records && e == ToEvent(p.url, o, rec, date);
        if o in init {
          assert FromPage(q, e, date);
        } else {
          assert o == last;
        }
      }
    }
  }

  /** An event is produced exactly when it is made from some record of some non-error
      entry of some page, with that page's URL and the run's date. */
  lemma {:induction false} FlattenMembers<V>(ps: seq<PageReports<V>>, date: string, e: PerfEvent<V>)
    ensures e in Flatten(ps, date) <==> exists p :: p in ps && FromPage(p, e, date)
    decreases |ps|
  {
    if ps != [] {
      var init := ps[..|ps| - 1];
      var last := ps[|ps| - 1];
      assert ps == init + [last];
      FlattenMembers(init, date, e);
      OutcomesEventsMembers(last, date, e);
      if e in Flatten(ps, date) {
        if e in Flatten(init, date) {
          var p :| p in init && FromPage(p, e, date);
          assert p in ps;
        } else {
          assert last in ps;
        }
      }
      if exists p :: p in ps && FromPage(p, e, date) {
        var p :| p in ps && FromPage(p, e, date);
        if p in init {
          assert e in Flatten(init, date);
        } else {
          assert p == last;
        }
      }
    }
  }

  /** Every event of one run carries the run's single date string, the page URL
      of a page, the test name and report URL of a non-error report of that page,
      and the id and value of a record of that report as its score name and value. */
  lemma EventFields<V>(ps: seq<PageReports<V>>, date: string)
    ensures forall e :: e in Flatten(ps, date) ==>
      e.date == date &&
      (exists p, o, rec :: p in ps && o in p.reports && o.Ok? && rec in o.records &&
                           e.pageUrl == p.url && e.testName == o.testName && e.reportUrl == o.url &&
                           e.scoreName == rec.id && e.scoreValue == rec.value)
  {
    forall e | e in Flatten(ps, date)
      ensures e.date == date
      ensures exists p, o, rec :: (p in ps && o in p.reports && o.Ok? && rec in o.records &&
                                   e.pageUrl == p.url && e.testName == o.testName && e.reportUrl == o.url &&
                                   e.scoreName == rec.id && e.scoreValue == rec.value)
    {
      FlattenMembers(ps, date, e);
      var p :| p in ps && FromPage(p, e, date);
      var o, rec :| o in p.reports && o.Ok? && rec in o.records && e == ToEvent(p.url, o, rec, date);
    }
  }

  /** No event at all exactly when no non-error entry of any page has a record;
      in particular when every entry is an error. */
  lemma NoEventsIff<V>(ps: seq<PageReports<V>>, date: string)
    ensures Flatten(ps, date) == []
        <==> forall p, o :: p in ps && o in p.reports && o.Ok? ==> o.records == []
  {
    if Flatten(ps, date) == [] {
      forall p, o | p in ps && o in p.reports && o.Ok?
        ensures o.records == []
      {
        if o.records != [] {
          var e := ToEvent(p.url, o, o.records[0], date);
          assert FromPage(p, e, date);
          FlattenMembers(ps, date, e);
        }
      }
    } else {
      var e := Flatten(ps, date)[0];
      FlattenMembers(ps, date, e);
    }
  }

  /** The run of the two-page scenario: one record on the first page, a failing reporter on the second. */
  lemma TwoPageScenario<V>(v: V, date: string)
    ensures Flatten([PageReports("/a", [Ok("X", None, [ScoreRecord("score", v)])]),
                     PageReports("/b", [Err("Reporter")])], date)
         == [PerfEvent("X", "score", v, date, "/a", None)]
  {
    var ps := [PageReports("/a", [Ok("X", None, [ScoreRecord("score", v)])]),
               PageReports("/b", [Err("Reporter")])];
    FlattenAppend([ps[0]], [ps[1]], date);
    assert ps == [ps[0]] + [ps[1]];
    SingleReportEvents("/a", Ok("X", None, [ScoreRecord("score", v)]), date);
    assert [ps[1]][..0] == [];
    var failing: seq<Outcome<V>> := [Err("Reporter")];
    assert failing[..0] == [];
  }
}
