/** The alert tables, and triage and aggregation as functions on them: one alert through the triage
    pipeline (app/triage/pipeline.py with handlers/dedup.py, whitelist.py and persist.py), one
    triaged alert into an event (app/aggregation/services/aggregation_service.py). Rows are never
    deleted; a row's index is its key, and events are created in index order. */
module Alerts {
  import opened Wrappers
  import Scoring
  import EventKey

  datatype AlertStatus = New | Triaged | EventLinked | Archived

  datatype Alert = Alert(
    status: AlertStatus, fingerprint: string, severity: int,
    host: Option<string>, user: Option<string>, category: Option<string>, occurredAt: int)

  /** `at` is the time of the duplicate check and `window` the window width in force then. */
  datatype ResultRow = ResultRow(alert: nat, fingerprint: string, route: Scoring.Route, ruleScore: real, at: int,
    window: nat)

  datatype Group = Group(windowStart: int, windowEnd: int, lastSeen: int, count: nat, representative: Option<nat>)

  datatype EventRow = EventRow(
    key: string, windowStart: int, pending: bool, count: nat, first: Option<int>, last: Option<int>,
    risk: real, priority: int, related: seq<nat>, correlation: Option<string>)

  datatype Link = Link(event: nat, alert: nat)

  /** `samples` lists the alerts drawn for audit. */
  datatype Db = Db(alerts: seq<Alert>, results: seq<ResultRow>, samples: seq<nat>, groups: map<string, Group>,
                   events: seq<EventRow>, links: seq<Link>)

  // ---- triage --------------------------------------------------------------

  datatype Dedup = Duplicate(group: Group) | Lead(group: Group)

  function OpenWindow(now: int, window: nat): Group {
    Group(now, now + window, now, 1, None)
  }

  /** The duplicate check against the group of a fingerprint. */
  function CheckDuplicate(found: Option<Group>, now: int, window: nat): Dedup {
    if found.None? then Lead(OpenWindow(now, window)) else
    var g := found.value;
    if g.windowEnd >= now && g.representative.Some? then Duplicate(g.(count := g.count + 1, lastSeen := now))
    else if g.windowEnd < now then Lead(OpenWindow(now, window))
    else Lead(g.(lastSeen := now))
  }

  /** What the world contributes to one alert's triage: whitelist match, profiles, duty notes,
      frequency count, asset, a cached model score, the model's answer (None when it fails) and the audit draw. */
  datatype Signals = Signals(
    whitelisted: bool, profiles: seq<Option<Scoring.Profile>>, knowledge: seq<bool>, frequency: int,
    asset: Option<Scoring.Criticality>, cached: Option<real>, answer: Option<real>, sampled: bool)

  /** Route and rule score of an alert, and the model calls answered in the batch by then. */
  datatype Assessment = Assessment(route: Scoring.Route, score: real, calls: nat)

  function RuleOf(alert: Alert, sig: Signals, cfg: Scoring.Config): real {
    var hint := Scoring.HintScore(sig.profiles, sig.knowledge, cfg.hintCap);
    var category := Scoring.CategoryScore(alert.category, cfg.weights);
    Scoring.RuleScore(alert.severity, sig.frequency, sig.asset, category, hint, cfg.discountCap)
  }

  /** The assessment of an alert that is not a duplicate. */
  function Assess(alert: Alert, sig: Signals, cfg: Scoring.Config, calls: nat): Assessment {
    if sig.whitelisted then Assessment(Scoring.ArchiveWhitelist, 0.0, calls) else
    var rule := RuleOf(alert, sig, cfg);
    var (llm, calls') := Scoring.Assist(rule, sig.cached, sig.answer, cfg, calls);
    var effective := if llm.Some? then Scoring.Blend(rule, llm.value, cfg.llmWeight) else rule;
    Assessment(Scoring.RouteFor(effective, cfg, sig.sampled), rule, calls')
  }

  /** Whether the model would be asked about the alert if its limit allowed. */
  predicate Eligible(alert: Alert, sig: Signals, cfg: Scoring.Config) {
    !sig.whitelisted && Scoring.OfInterest(RuleOf(alert, sig, cfg), cfg) && sig.cached.None?
  }

  function GroupOf(groups: map<string, Group>, fingerprint: string): Option<Group> {
    if fingerprint in groups then Some(groups[fingerprint]) else None
  }

  function StatusFor(route: Scoring.Route): AlertStatus {
    if Scoring.IsQueue(route) then Triaged else Archived
  }

  /** What the handlers before persisting decide about one alert. */
  function Decide(db: Db, a: nat, now: int, window: nat, sig: Signals, cfg: Scoring.Config, calls: nat): Assessment
    requires a < |db.alerts|
  {
    var alert := db.alerts[a];
    if CheckDuplicate(GroupOf(db.groups, alert.fingerprint), now, window).Duplicate?
    then Assessment(Scoring.ArchiveDedup, 0.0, calls) else Assess(alert, sig, cfg, calls)
  }

  /** One alert through the whole pipeline. */
  function TriageOne(db: Db, a: nat, now: int, window: nat, sig: Signals, cfg: Scoring.Config, calls: nat): Db
    requires a < |db.alerts|
  {
    var alert := db.alerts[a];
    var check := CheckDuplicate(GroupOf(db.groups, alert.fingerprint), now, window);
    var o := Decide(db, a, now, window, sig, cfg, calls);
    var group := if check.Lead? && check.group.representative.None? then check.group.(representative := Some(a))
      else check.group;
    db.(
      alerts := db.alerts[a := alert.(status := StatusFor(o.route))],
      results := db.results + [ResultRow(a, alert.fingerprint, o.route, o.score, now, window)],
      samples := if o.route.SampleAudit? then db.samples + [a] else db.samples,
      groups := db.groups[alert.fingerprint := group])
  }

  /** New alerts without a result. */
  predicate Waiting(db: Db, a: nat) {
    a < |db.alerts| && db.alerts[a].status.New? && forall j :: 0 <= j < |db.results| ==> db.results[j].alert != a
  }

  // ---- aggregation ----------------------------------------------------------

  function Dims(alert: Alert, cfg: EventKey.Config): EventKey.Dims {
    EventKey.DimsOf(alert.host, alert.user, alert.category, alert.occurredAt, cfg)
  }

  function Key(alert: Alert, cfg: EventKey.Config): string {
    EventKey.KeyText(Dims(alert, cfg), cfg)
  }

  /** The newest pending event with the key. */
  function MergeTarget(events: seq<EventRow>, key: string): (r: Option<nat>)
    ensures r.Some? ==> r.value < |events| && events[r.value].pending && events[r.value].key == key
    ensures forall e :: (if r.Some? then r.value + 1 else 0) <= e < |events| ==>
      !(events[e].pending && events[e].key == key)
  {
    if events == [] then None
    else if events[|events| - 1].pending && events[|events| - 1].key == key then Some(|events| - 1)
    else MergeTarget(events[..|events| - 1], key)
  }

  function RoutePriority(route: Scoring.Route): int {
    if route.QueueDeepReview? then 10 else if route.QueueUncertain? then 5 else 0
  }

  function NewEvent(key: string, windowStart: int): EventRow {
    EventRow(key, windowStart, true, 0, None, None, 0.0, 0, [], None)
  }

  /** The running statistics after one more alert. */
  function AddToStats(event: EventRow, occurredAt: int, score: real, route: Scoring.Route): EventRow {
    event.(
      count := event.count + 1,
      first := Some(if event.first.None? then occurredAt else Min(event.first.value, occurredAt)),
      last := Some(if event.last.None? then occurredAt else Max(event.last.value, occurredAt)),
      risk := if event.risk >= score then event.risk else score,
      priority := Max(event.priority, RoutePriority(route)))
  }

  /** Triaged alerts with a queue route and no link; `j` is the alert's result. */
  predicate Linkable(db: Db, j: nat) {
    && j < |db.results| && db.results[j].alert < |db.alerts|
    && db.alerts[db.results[j].alert].status.Triaged? && Scoring.IsQueue(db.results[j].route)
    && forall l :: 0 <= l < |db.links| ==> db.links[l].alert != db.results[j].alert
  }

  /** One pending alert, given by its result, into a new or existing event. */
  function AggregateOne(db: Db, j: nat, cfg: EventKey.Config): Db
    requires j < |db.results| && db.results[j].alert < |db.alerts|
  {
    var r := db.results[j];
    var alert := db.alerts[r.alert];
    var key := Key(alert, cfg);
    var target := MergeTarget(db.events, key);
    var events := if target.Some? then db.events else db.events + [NewEvent(key, Dims(alert, cfg).windowStart)];
    var e := if target.Some? then target.value else |db.events|;
    db.(
      alerts := db.alerts[r.alert := alert.(status := EventLinked)],
      events := events[e := AddToStats(events[e], alert.occurredAt, r.ruleScore, r.route)],
      links := db.links + [Link(e, r.alert)])
  }

  /** `related` with the events found beside e that it does not list yet. */
  function MergeRelated(related: seq<nat>, found: seq<nat>, e: nat): seq<nat>
    decreases |found|
  {
    if found == [] then related else
    MergeRelated(if found[0] == e || found[0] in related then related else related + [found[0]], found[1..], e)
  }

  function FirstTwenty(s: seq<nat>): seq<nat> {
    if |s| > 20 then s[..20] else s
  }

  /** Correlation raises the priority of an event under investigation, and lists the events found
      beside it (app/skills/query_history_alerts.py). */
  function Correlate(db: Db, e: nat, found: seq<nat>, key: string): Db
    requires e < |db.events|
  {
    var ev := db.events[e];
    db.(events := db.events[e := ev.(
      priority := Min(ev.priority + 1, 100), correlation := Some(key),
      related := FirstTwenty(MergeRelated(ev.related, found, e)))])
  }
}
