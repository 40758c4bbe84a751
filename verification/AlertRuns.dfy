/** Whole runs over the alert tables: ingestion, triage and aggregation batches with a commit or
    rollback per item, and whatever later stages do to an event's status and priority. */
module AlertRuns {
  import opened Wrappers
  import Scoring
  import EventKey
  import opened Alerts
  import opened AlertInvariants

  /** Where an exception strikes while one alert is triaged: the count of model calls is not part of
      the transaction. */
  datatype Fault = NoFault | BeforeModel | AfterModel

  datatype TriageItem = TriageItem(alert: nat, now: int, signals: Signals, fault: Fault)
  datatype AggregationItem = AggregationItem(result: nat, fails: bool)

  datatype Step =
    | Ingest(alert: Alert)
    | TriageBatch(window: nat, config: Scoring.Config, items: seq<TriageItem>)
    | AggregationBatch(pending: seq<AggregationItem>)
    | SetPending(event: nat, open: bool)
    | Correlation(event: nat, found: seq<nat>, key: string)

  /** The model calls answered in the batch after one more item. */
  function CallsAfter(db: Db, it: TriageItem, window: nat, cfg: Scoring.Config, calls: nat): nat
    requires it.alert < |db.alerts|
  {
    if it.fault.BeforeModel? then calls else Decide(db, it.alert, it.now, window, it.signals, cfg, calls).calls
  }

  /** A failing item is rolled back and the batch goes on. */
  function TriageItemDone(db: Db, it: TriageItem, window: nat, cfg: Scoring.Config, calls: nat): Db
    requires it.alert < |db.alerts|
  {
    if it.fault.NoFault? then TriageOne(db, it.alert, it.now, window, it.signals, cfg, calls) else db
  }

  /** A batch, with the model calls answered in it. */
  function TriageAll(db: Db, window: nat, cfg: Scoring.Config, items: seq<TriageItem>, calls: nat): (Db, nat)
    requires forall i :: 0 <= i < |items| ==> items[i].alert < |db.alerts|
    decreases |items|
  {
    if items == [] then (db, calls) else
    TriageAll(TriageItemDone(db, items[0], window, cfg, calls), window, cfg, items[1..],
              CallsAfter(db, items[0], window, cfg, calls))
  }

  /** The result names a stored alert. */
  predicate Known(db: Db, j: nat) {
    j < |db.results| && db.results[j].alert < |db.alerts|
  }

  function AggregateAll(db: Db, items: seq<AggregationItem>, cfg: EventKey.Config): Db
    requires forall i :: 0 <= i < |items| ==> Known(db, items[i].result)
    decreases |items|
  {
    if items == [] then db else
    var it := items[0];
    assert Known(db, it.result);
    var db' := if it.fails then db else AggregateOne(db, it.result, cfg);
    assert forall i :: 0 <= i < |items| && Known(db, items[i].result) ==> Known(db', items[i].result);
    AggregateAll(db', items[1..], cfg)
  }

  ghost predicate TriageItemsOk(db: Db, items: seq<TriageItem>) {
    && (forall i :: 0 <= i < |items| ==> Waiting(db, items[i].alert))
    && (forall i, j :: 0 <= i < |items| && 0 <= j < |db.results| ==> db.results[j].at <= items[i].now)
    && (forall i, j :: 0 <= i < j < |items| ==> items[i].alert != items[j].alert && items[i].now <= items[j].now)
  }

  ghost predicate AggregationItemsOk(db: Db, items: seq<AggregationItem>) {
    && (forall i :: 0 <= i < |items| ==> Linkable(db, items[i].result))
    && (forall i, j :: 0 <= i < j < |items| ==> items[i].result != items[j].result)
  }

  ghost predicate Enabled(db: Db, step: Step) {
    match step
    case Ingest(alert) => alert.status.New?
    case TriageBatch(_, _, items) => TriageItemsOk(db, items)
    case AggregationBatch(items) => AggregationItemsOk(db, items)
    case SetPending(e, _) => e < |db.events|
    case Correlation(e, _, _) => e < |db.events|
  }

  function Apply(db: Db, step: Step, agg: EventKey.Config): Db
    requires Enabled(db, step)
  {
    match step
    case Ingest(alert) => db.(alerts := db.alerts + [alert])
    case TriageBatch(window, cfg, items) => TriageAll(db, window, cfg, items, 0).0
    case AggregationBatch(items) => AggregateAll(db, items, agg)
    case SetPending(e, pending) => db.(events := db.events[e := db.events[e].(pending := pending)])
    case Correlation(e, found, key) => Correlate(db, e, found, key)
  }

  ghost predicate Legal(db: Db, steps: seq<Step>, agg: EventKey.Config)
    decreases |steps|
  {
    steps == [] || (Enabled(db, steps[0]) && Legal(Apply(db, steps[0], agg), steps[1..], agg))
  }

  function After(db: Db, steps: seq<Step>, agg: EventKey.Config): Db
    requires Legal(db, steps, agg)
    decreases |steps|
  {
    if steps == [] then db else After(Apply(db, steps[0], agg), steps[1..], agg)
  }

  const Empty: Db := Db([], [], [], map[], [], [])

  // ---- preservation ------------------------------------------------------------------

  /** An alert that waits keeps waiting while another one is triaged. */
  lemma StillWaiting(db: Db, it: TriageItem, window: nat, cfg: Scoring.Config, calls: nat, x: nat)
    requires it.alert < |db.alerts| && Waiting(db, x) && x != it.alert
    ensures Waiting(TriageOne(db, it.alert, it.now, window, it.signals, cfg, calls), x)
  {
  }

  lemma TriageElsewhere(db: Db, window: nat, cfg: Scoring.Config, items: seq<TriageItem>, calls: nat)
    requires items != [] && TriageItemsOk(db, items)
    ensures var it := items[0];
      TriageItemsOk(TriageOne(db, it.alert, it.now, window, it.signals, cfg, calls), items[1..])
  {
    var it := items[0];
    var db' := TriageOne(db, it.alert, it.now, window, it.signals, cfg, calls);
    forall i | 0 <= i < |items| - 1 ensures Waiting(db', items[1..][i].alert) {
      StillWaiting(db, it, window, cfg, calls, items[i + 1].alert);
    }
    forall i, j | 0 <= i < |items| - 1 && 0 <= j < |db'.results| ensures db'.results[j].at <= items[1..][i].now {
      assert items[1..][i] == items[i + 1];
    }
  }

  lemma TriageHead(db: Db, window: nat, cfg: Scoring.Config, items: seq<TriageItem>, calls: nat, agg: EventKey.Config)
    requires Inv(db, agg) && items != [] && TriageItemsOk(db, items)
    ensures Inv(TriageItemDone(db, items[0], window, cfg, calls), agg)
  {
    var it := items[0];
    assert Waiting(db, it.alert);
    if it.fault.NoFault? {
      TriageConserves(db, it.alert, it.now, window, it.signals, cfg, calls);
      TriageKeepsWindows(db, it.alert, it.now, window, it.signals, cfg, calls);
      TriageKeepsStats(db, it.alert, it.now, window, it.signals, cfg, calls, agg);
      TriageKeepsSamples(db, it.alert, it.now, window, it.signals, cfg, calls);
    }
  }

  lemma {:induction false} TriageAllKeeps(db: Db, window: nat, cfg: Scoring.Config, items: seq<TriageItem>, calls: nat,
                                          agg: EventKey.Config)
    requires Inv(db, agg) && TriageItemsOk(db, items)
    ensures Inv(TriageAll(db, window, cfg, items, calls).0, agg)
    decreases |items|
  {
    if items != [] {
      TriageHead(db, window, cfg, items, calls, agg);
      if items[0].fault.NoFault? { TriageElsewhere(db, window, cfg, items, calls); }
      TriageAllKeeps(TriageItemDone(db, items[0], window, cfg, calls), window, cfg, items[1..],
                     CallsAfter(db, items[0], window, cfg, calls), agg);
    }
  }

  /** Linking one alert leaves the other fetched alerts without a link. */
  lemma AggregateElsewhere(db: Db, j: nat, k: nat, agg: EventKey.Config)
    requires Conserved(db) && Linkable(db, j) && Linkable(db, k) && j != k
    ensures Linkable(AggregateOne(db, j, agg), k)
  {
    assert db.results[j].alert != db.results[k].alert;
  }

  lemma {:induction false} AggregateAllKeeps(db: Db, items: seq<AggregationItem>, agg: EventKey.Config)
    requires Inv(db, agg) && AggregationItemsOk(db, items)
    ensures Inv(AggregateAll(db, items, agg), agg)
    decreases |items|
  {
    if items != [] {
      var it := items[0];
      assert Linkable(db, it.result);
      if !it.fails {
        AggregateOneKeeps(db, it.result, agg);
        AggregateHead(db, items, agg);
        AggregateAllKeeps(AggregateOne(db, it.result, agg), items[1..], agg);
      } else {
        AggregateAllKeeps(db, items[1..], agg);
      }
    }
  }

  lemma AggregateOneKeeps(db: Db, j: nat, agg: EventKey.Config)
    requires Inv(db, agg) && Linkable(db, j)
    ensures Inv(AggregateOne(db, j, agg), agg)
  {
    var db' := AggregateOne(db, j, agg);
    AggregationConserves(db, j, agg);
    AggregationKeepsStats(db, j, agg);
    GroupsUnaffected(db, db');
    SamplesUnaffected(db, db');
  }

  lemma SamplesUnaffected(db: Db, db': Db)
    requires SamplesOk(db) && db'.results == db.results && db'.samples == db.samples
    ensures SamplesOk(db')
  {
    assert forall x :: Sampled(db', x) <==> Sampled(db, x);
  }

  lemma AggregateHead(db: Db, items: seq<AggregationItem>, agg: EventKey.Config)
    requires Conserved(db) && AggregationItemsOk(db, items) && items != []
    ensures AggregationItemsOk(AggregateOne(db, items[0].result, agg), items[1..])
  {
    var j := items[0].result;
    assert Linkable(db, j);
    forall i | 1 <= i < |items| ensures Linkable(AggregateOne(db, j, agg), items[i].result) {
      assert Linkable(db, items[i].result);
      AggregateElsewhere(db, j, items[i].result, agg);
    }
  }

  lemma GroupsUnaffected(db: Db, db': Db)
    requires DedupOk(db) && db'.results == db.results && db'.groups == db.groups
    ensures DedupOk(db')
  {
    forall fp ensures GroupOk(db', fp) { assert GroupOk(db, fp); }
  }

  /** Later stages may change whether an event is pending, raise its priority and relate other events. */
  lemma EventTouched(db: Db, e: nat, ev: EventRow, agg: EventKey.Config)
    requires Inv(db, agg) && e < |db.events| && db.events[e].priority <= ev.priority <= 100
    requires ev == db.events[e].(
      pending := ev.pending, priority := ev.priority, related := ev.related, correlation := ev.correlation)
    requires Distinct(ev.related) && |ev.related| <= 20 && e !in ev.related
    ensures Inv(db.(events := db.events[e := ev]), agg)
  {
    var db' := db.(events := db.events[e := ev]);
    SamplesUnaffected(db, db');
    assert EventOk(db.events[e], e, agg);
    GroupsUnaffected(db, db');
    forall a | 0 <= a < |db'.alerts| ensures Placed(db', a) { assert Placed(db, a); }
    RaiseKeepsStats(db.events[e], db'.events[e], Members(db.alerts, db.results, db.links, e, agg));
  }

  lemma RaiseKeepsStats(ev: EventRow, ev': EventRow, ms: seq<Option<Member>>)
    requires StatsOf(ev, ms) && ev.priority <= ev'.priority <= 100
    requires ev' == ev.(
      pending := ev'.pending, priority := ev'.priority, related := ev'.related, correlation := ev'.correlation)
    ensures StatsOf(ev', ms)
  {
    assert forall i :: 0 <= i < |ms| ==> ms[i].Some? && Bounded(ev, ms[i].value);
  }

  /** Related events stay distinct and never include the event itself. */
  lemma {:induction false} MergeRelatedKeeps(related: seq<nat>, found: seq<nat>, e: nat)
    requires Distinct(related) && e !in related
    ensures var r := MergeRelated(related, found, e);
      Distinct(r) && e !in r && related <= r && forall x :: x in r <==> x in related || (x in found && x != e)
    decreases |found|
  {
    if found != [] {
      var next := if found[0] == e || found[0] in related then related else related + [found[0]];
      MergeRelatedKeeps(next, found[1..], e);
      assert forall x :: x in found <==> x == found[0] || x in found[1..];
    }
  }

  lemma CorrelateKeeps(db: Db, e: nat, found: seq<nat>, key: string, agg: EventKey.Config)
    requires Inv(db, agg) && e < |db.events|
    ensures Inv(Correlate(db, e, found, key), agg)
  {
    assert StatsOf(db.events[e], Members(db.alerts, db.results, db.links, e, agg)) && EventOk(db.events[e], e, agg);
    MergeRelatedKeeps(db.events[e].related, found, e);
    EventTouched(db, e, Correlate(db, e, found, key).events[e], agg);
  }

  lemma IngestKeeps(db: Db, alert: Alert, agg: EventKey.Config)
    requires Inv(db, agg) && alert.status.New?
    ensures Inv(db.(alerts := db.alerts + [alert]), agg)
  {
    var db' := db.(alerts := db.alerts + [alert]);
    GroupsUnaffected(db, db');
    forall a | 0 <= a < |db'.alerts| ensures Placed(db', a) {
      if a < |db.alerts| { assert Placed(db, a); }
    }
    forall x | 0 <= x < |db.events| ensures StatsOf(db'.events[x], Members(db'.alerts, db.results, db.links, x, agg)) {
      MembersSame(db'.alerts, db.results, db.alerts, db.results, db.links, x, agg);
    }
  }

  lemma ApplyKeeps(db: Db, step: Step, agg: EventKey.Config)
    requires Inv(db, agg) && Enabled(db, step)
    ensures Inv(Apply(db, step, agg), agg)
  {
    match step
    case Ingest(alert) => IngestKeeps(db, alert, agg);
    case TriageBatch(window, cfg, items) => TriageAllKeeps(db, window, cfg, items, 0, agg);
    case AggregationBatch(items) => AggregateAllKeeps(db, items, agg);
    case SetPending(e, pending) =>
      assert StatsOf(db.events[e], Members(db.alerts, db.results, db.links, e, agg));
      assert EventOk(db.events[e], e, agg);
      EventTouched(db, e, db.events[e].(pending := pending), agg);
    case Correlation(e, found, key) => CorrelateKeeps(db, e, found, key, agg);
  }

  lemma {:induction false} RunKeeps(db: Db, steps: seq<Step>, agg: EventKey.Config)
    requires Inv(db, agg) && Legal(db, steps, agg)
    ensures Inv(After(db, steps, agg), agg)
    decreases |steps|
  {
    if steps != [] {
      ApplyKeeps(db, steps[0], agg);
      RunKeeps(Apply(db, steps[0], agg), steps[1..], agg);
    }
  }

  // ---- what every run guarantees -----------------------------------------------------

  /** No alert is lost or handled twice: its status is decided by its rows, which are unique. */
  lemma AlertsConserved(steps: seq<Step>, agg: EventKey.Config, a: nat)
    requires Legal(Empty, steps, agg) && a < |After(Empty, steps, agg).alerts|
    ensures var db := After(Empty, steps, agg);
      && (db.alerts[a].status.New? <==> !HasResult(db, a, true) && !HasResult(db, a, false))
      && (db.alerts[a].status.Archived? <==> HasResult(db, a, false))
      && (db.alerts[a].status.Triaged? <==> HasResult(db, a, true) && !HasLink(db, a))
      && (db.alerts[a].status.EventLinked? <==> HasResult(db, a, true) && HasLink(db, a))
      && (HasLink(db, a) ==> HasResult(db, a, true))
      && (forall j, k :: 0 <= j < k < |db.results| ==> db.results[j].alert != db.results[k].alert)
      && (forall l, m :: 0 <= l < m < |db.links| ==> db.links[l].alert != db.links[m].alert)
      && (a in db.samples <==> Sampled(db, a)) && Distinct(db.samples)
  {
    RunKeeps(Empty, steps, agg);
    var db := After(Empty, steps, agg);
    assert Placed(db, a);
  }

  /** Duplicate suppression: full triages of a fingerprint are more than a window apart, every
      suppressed alert lies in the window of one, and every group names its representative and
      counts exactly the alerts of its window. */
  lemma DuplicatesWindowed(steps: seq<Step>, agg: EventKey.Config)
    requires Legal(Empty, steps, agg)
    ensures Windowed(After(Empty, steps, agg).results)
    ensures var db := After(Empty, steps, agg);
      forall fp :: fp in db.groups ==>
        Opener(db.results, fp).Some? && Describes(db.groups[fp], db.results, Opener(db.results, fp).value, fp)
  {
    RunKeeps(Empty, steps, agg);
    var db := After(Empty, steps, agg);
    forall fp | fp in db.groups
      ensures Opener(db.results, fp).Some? && Describes(db.groups[fp], db.results, Opener(db.results, fp).value, fp)
    {
      assert GroupOk(db, fp);
    }
  }

  /** Event statistics equal their recomputation; every alert of an event has its key and lies in its window. */
  lemma EventsAddUp(steps: seq<Step>, agg: EventKey.Config, e: nat)
    requires Legal(Empty, steps, agg) && e < |After(Empty, steps, agg).events|
    ensures var db := After(Empty, steps, agg);
      && StatsOf(db.events[e], Members(db.alerts, db.results, db.links, e, agg))
      && forall l :: 0 <= l < |db.links| && db.links[l].event == e ==> LinkFits(db, l, agg)
  {
    RunKeeps(Empty, steps, agg);
    var db := After(Empty, steps, agg);
    forall l | 0 <= l < |db.links| && db.links[l].event == e ensures LinkFits(db, l, agg) {
      LinksFit(db, l, agg);
    }
  }

  /** The linked alert has the key of its event and lies in the window of its event. */
  ghost predicate LinkFits(db: Db, l: nat, agg: EventKey.Config)
    requires l < |db.links|
  {
    var link := db.links[l];
    && link.alert < |db.alerts| && link.event < |db.events|
    && Key(db.alerts[link.alert], agg) == db.events[link.event].key
    && var w := db.events[link.event].windowStart; w <= db.alerts[link.alert].occurredAt < w + agg.hours * 3600
  }

  lemma LinksFit(db: Db, l: nat, agg: EventKey.Config)
    requires Inv(db, agg) && l < |db.links|
    ensures LinkFits(db, l, agg)
  {
    var link := db.links[l];
    assert StatsOf(db.events[link.event], Members(db.alerts, db.results, db.links, link.event, agg));
    LinkIsMember(db.alerts, db.results, db.links, l, link.event, agg);
    var alert, ev := db.alerts[link.alert], db.events[link.event];
    assert EventOk(ev, link.event, agg);
    var d: EventKey.Dims :| d.windowStart == ev.windowStart && EventKey.KeyText(d, agg) == ev.key;
    EventKey.KeyNamesWindow(Dims(alert, agg), d, agg);
    EventKey.WindowContains(alert.occurredAt, agg.hours);
  }

  /** No name of the alert, and no stand-in for a missing name, holds a separator. */
  predicate PlainAlert(alert: Alert, agg: EventKey.Config) {
    && EventKey.PlainName(alert.host) && EventKey.PlainName(alert.user) && EventKey.PlainName(alert.category)
    && EventKey.Plain(agg.unknownHost) && EventKey.Plain(agg.unknownUser)
  }

  /** An alert without separators shares its event only with alerts of its own dimensions. */
  lemma PlainAlertsShareDims(steps: seq<Step>, agg: EventKey.Config, l: nat, m: nat)
    requires Legal(Empty, steps, agg)
    requires var db := After(Empty, steps, agg);
      && l < |db.links| && m < |db.links| && db.links[l].event == db.links[m].event
      && db.links[l].alert < |db.alerts| && PlainAlert(db.alerts[db.links[l].alert], agg)
    ensures var db := After(Empty, steps, agg);
      db.links[m].alert < |db.alerts| &&
        Dims(db.alerts[db.links[m].alert], agg) == Dims(db.alerts[db.links[l].alert], agg)
  {
    RunKeeps(Empty, steps, agg);
    var db := After(Empty, steps, agg);
    LinksFit(db, l, agg);
    LinksFit(db, m, agg);
    var a, b := db.alerts[db.links[l].alert], db.alerts[db.links[m].alert];
    EventKey.PlainDims(a.host, a.user, a.category, a.occurredAt, agg);
    EventKey.PlainKeyIdentifies(Dims(a, agg), Dims(b, agg), agg);
  }

  /** With separators, alerts of different hosts and users land in one event. */
  lemma CollidingAlertsShareEvent(db: Db, j: nat, k: nat, agg: EventKey.Config, x: string, y: string, z: string)
    requires Known(db, j) && Known(db, k) && db.results[j].alert != db.results[k].alert
    requires var a, b := db.alerts[db.results[j].alert], db.alerts[db.results[k].alert];
      && EventKey.Normal(x) && EventKey.Normal(y) && EventKey.Normal(z)
      && a.host == Some(EventKey.Join(x, y)) && a.user == Some(z)
      && b.host == Some(x) && b.user == Some(EventKey.Join(y, z))
      && a.category == b.category && a.occurredAt == b.occurredAt
    ensures var a, b := db.alerts[db.results[j].alert], db.alerts[db.results[k].alert];
      Dims(a, agg).host != Dims(b, agg).host && Dims(a, agg).user != Dims(b, agg).user
    ensures var links := AggregateOne(AggregateOne(db, j, agg), k, agg).links;
      links[|db.links|].event == links[|db.links| + 1].event
  {
    var a := db.alerts[db.results[j].alert];
    EventKey.KeysCollide(x, y, z, a.category, a.occurredAt, agg);
    var db' := AggregateOne(db, j, agg);
    var e := db'.links[|db.links|].event;
    assert db'.events[e].pending && db'.events[e].key == Key(a, agg);
    assert db'.alerts[db.results[k].alert] == db.alerts[db.results[k].alert];
  }

  lemma {:induction false} LinkIsMember(alerts: seq<Alert>, results: seq<ResultRow>, links: seq<Link>, l: nat,
    e: nat, agg: EventKey.Config)
    requires l < |links| && links[l].event == e
    ensures MemberOf(alerts, results, links[l].alert, agg) in Members(alerts, results, links, e, agg)
  {
    if l < |links| - 1 { LinkIsMember(alerts, results, links[..|links| - 1], l, e, agg); }
  }

  /** An aggregation step opens a second pending event for a key only if one of them was reopened by
      another stage: it keeps pending events unique per key. */
  lemma AggregationKeepsPendingUnique(db: Db, j: nat, agg: EventKey.Config)
    requires j < |db.results| && db.results[j].alert < |db.alerts|
    requires forall x, y :: 0 <= x < y < |db.events| && db.events[x].pending && db.events[y].pending ==>
      db.events[x].key != db.events[y].key
    ensures var es := AggregateOne(db, j, agg).events;
      forall x, y :: 0 <= x < y < |es| && es[x].pending && es[y].pending ==> es[x].key != es[y].key
  {
  }
}
