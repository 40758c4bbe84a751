/** The pipeline as a whole: alerts and cases over the one event table that aggregation fills and the
    investigation services read. The table is kept twice, as each side sees it: aggregation merges into
    events whose status is pending review, and the other services decide that status. */
module Pipeline {
  import opened Wrappers
  import AgentLoop
  import Closure
  import EventKey
  import Alerts
  import AlertRuns
  import Cases
  import CaseInvariants
  import CaseRuns
  import CaseHistory

  datatype World = World(alerts: Alerts.Db, cases: CaseRuns.World)

  const Empty: World := World(AlertRuns.Empty, CaseRuns.Empty)

  /** `Link` is one alert aggregated and committed; `probe` tells whether it is a health probe. */
  datatype Step =
    | OnAlerts(alertStep: AlertRuns.Step)
    | Link(result: nat, probe: bool)
    | OnCases(caseStep: CaseRuns.Step)

  /** Both sides see the same events, pending for one exactly when they are for the other. */
  ghost predicate Coupled(w: World) {
    && |w.alerts.events| == |w.cases.db.events|
    && forall e :: 0 <= e < |w.alerts.events| ==>
      (w.alerts.events[e].pending <==> w.cases.db.events[e].status.PendingReview?)
  }

  ghost predicate Enabled(w: World, step: Step) {
    match step
    case OnAlerts(s) => (s.Ingest? || s.TriageBatch? || s.Correlation?) && AlertRuns.Enabled(w.alerts, s)
    case Link(j, _) => Alerts.Linkable(w.alerts, j)
    case OnCases(s) => !s.AddEvent? && !s.MergeProbe? && CaseRuns.Enabled(w.cases, s)
  }

  ghost predicate Obeys(step: Step, p: CaseInvariants.Policy) {
    step.OnCases? ==> CaseRuns.Obeys(step.caseStep, p)
  }

  /** The event table after a link, as the case services see it. */
  function RowsAfterLink(rows: seq<Cases.EventRow>, target: Option<nat>, probe: bool): seq<Cases.EventRow> {
    if target.None? then rows + [Cases.EventRow(Cases.PendingReview, probe)]
    else if probe && target.value < |rows| then rows[target.value := Cases.EventRow(Cases.PendingReview, true)]
    else rows
  }

  /** The event that takes the alert of a result, if one does. */
  function TargetOf(db: Alerts.Db, j: nat, agg: EventKey.Config): Option<nat>
    requires AlertRuns.Known(db, j)
  {
    Alerts.MergeTarget(db.events, Alerts.Key(db.alerts[db.results[j].alert], agg))
  }

  /** The event table after a service call, as aggregation sees it. */
  function Seen(events: seq<Alerts.EventRow>, rows: seq<Cases.EventRow>): (r: seq<Alerts.EventRow>)
    ensures |r| == |events|
  {
    seq(|events|, e requires 0 <= e < |events| =>
      events[e].(pending := e < |rows| && rows[e].status.PendingReview?))
  }

  function Apply(w: World, step: Step, agg: EventKey.Config): World
    requires Enabled(w, step)
  {
    match step
    case OnAlerts(s) => w.(alerts := AlertRuns.Apply(w.alerts, s, agg))
    case Link(j, probe) =>
      var rows := RowsAfterLink(w.cases.db.events, TargetOf(w.alerts, j, agg), probe);
      World(Alerts.AggregateOne(w.alerts, j, agg), w.cases.(db := w.cases.db.(events := rows)))
    case OnCases(s) =>
      var cases := CaseRuns.Apply(w.cases, s);
      World(w.alerts.(events := Seen(w.alerts.events, cases.db.events)), cases)
  }

  ghost predicate Legal(w: World, steps: seq<Step>, p: CaseInvariants.Policy, agg: EventKey.Config)
    decreases |steps|
  {
    steps == [] || (Enabled(w, steps[0]) && Obeys(steps[0], p) && Legal(Apply(w, steps[0], agg), steps[1..], p, agg))
  }

  function After(w: World, steps: seq<Step>, p: CaseInvariants.Policy, agg: EventKey.Config): World
    requires Legal(w, steps, p, agg)
    decreases |steps|
  {
    if steps == [] then w else After(Apply(w, steps[0], agg), steps[1..], p, agg)
  }

  // ---- the two sides agree -----------------------------------------------------------

  ghost predicate Sound(w: World, p: CaseInvariants.Policy) {
    Coupled(w) && CaseRuns.Good(w.cases, p)
  }

  /** No service call but aggregation adds an event. */
  lemma CasesKeepEvents(w: CaseRuns.World, p: CaseInvariants.Policy, s: CaseRuns.Step)
    requires CaseRuns.Good(w, p) && CaseRuns.Enabled(w, s) && CaseRuns.Obeys(s, p) && !s.AddEvent?
    ensures |CaseRuns.Apply(w, s).db.events| == |w.db.events|
  {
    match s
    case InvestigationBatch(day, t, picks) => CaseHistory.BatchAdvances(w, p, day, t, picks);
    case ReviewBatch(now, cutoff, _, sends, _) =>
      CaseHistory.DispatchAllEvents(Cases.Tidy(w.db, cutoff), sends, now);
    case SettleBatch(cfg, limit, picked, faults, _) => CaseHistory.SettleAdvances(w.db, cfg, limit, picked, faults);
    case _ =>
  }

  /** Triage touches no event, and of the stored alerts only their status. */
  ghost predicate Retriaged(a: Alerts.Db, b: Alerts.Db) {
    && b.events == a.events && b.links == a.links && |b.alerts| == |a.alerts|
    && forall x :: 0 <= x < |a.alerts| ==> b.alerts[x] == a.alerts[x].(status := b.alerts[x].status)
  }

  lemma {:induction false} TriageRetriages(db: Alerts.Db, window: nat, cfg: AlertRuns.Scoring.Config,
    items: seq<AlertRuns.TriageItem>, calls: nat)
    requires forall i :: 0 <= i < |items| ==> items[i].alert < |db.alerts|
    ensures Retriaged(db, AlertRuns.TriageAll(db, window, cfg, items, calls).0)
    decreases |items|
  {
    if items != [] {
      TriageRetriages(AlertRuns.TriageItemDone(db, items[0], window, cfg, calls), window, cfg, items[1..],
                      AlertRuns.CallsAfter(db, items[0], window, cfg, calls));
    }
  }

  /** How the alert tables change: keys, names and links stay, events and links are only added. */
  ghost predicate AlertsAdvance(a: Alerts.Db, b: Alerts.Db) {
    && |a.alerts| <= |b.alerts| && |a.events| <= |b.events| && a.links <= b.links
    && (forall x :: 0 <= x < |a.alerts| ==> b.alerts[x] == a.alerts[x].(status := b.alerts[x].status))
    && (forall e :: 0 <= e < |a.events| ==> b.events[e].key == a.events[e].key)
  }

  lemma OnAlertsAdvances(w: World, s: AlertRuns.Step, agg: EventKey.Config)
    requires Enabled(w, OnAlerts(s))
    ensures var b := AlertRuns.Apply(w.alerts, s, agg);
      && AlertsAdvance(w.alerts, b) && b.links == w.alerts.links && |b.events| == |w.alerts.events|
      && forall e :: 0 <= e < |b.events| ==> b.events[e].pending == w.alerts.events[e].pending
  {
    if s.TriageBatch? {
      assert forall i :: 0 <= i < |s.items| ==> Alerts.Waiting(w.alerts, s.items[i].alert);
      TriageRetriages(w.alerts, s.window, s.config, s.items, 0);
    }
  }

  /** The step of the case services that a link amounts to, if any. */
  ghost function CaseStepOf(target: Option<nat>, probe: bool): seq<CaseRuns.Step> {
    if target.None? then [CaseRuns.AddEvent(probe)]
    else if probe then [CaseRuns.MergeProbe(target.value)] else []
  }

  lemma LinkIsCaseSteps(w: World, p: CaseInvariants.Policy, j: nat, probe: bool, agg: EventKey.Config)
    requires Sound(w, p) && Enabled(w, Link(j, probe))
    ensures var caseSteps := CaseStepOf(TargetOf(w.alerts, j, agg), probe);
      && CaseRuns.Legal(w.cases, caseSteps, p)
      && CaseRuns.After(w.cases, caseSteps, p) == Apply(w, Link(j, probe), agg).cases
  {
    var caseSteps := CaseStepOf(TargetOf(w.alerts, j, agg), probe);
    if caseSteps != [] {
      assert CaseRuns.Enabled(w.cases, caseSteps[0]);
      var next := CaseRuns.Apply(w.cases, caseSteps[0]);
      assert CaseRuns.After(next, caseSteps[1..], p) == next;
    }
  }

  lemma AggregatePends(db: Alerts.Db, j: nat, agg: EventKey.Config)
    requires AlertRuns.Known(db, j)
    ensures var events, target := Alerts.AggregateOne(db, j, agg).events, TargetOf(db, j, agg);
      && |events| == |db.events| + (if target.None? then 1 else 0)
      && forall e :: 0 <= e < |events| ==> events[e].pending == if e < |db.events| then db.events[e].pending else true
  {
  }

  lemma RowsPend(rows: seq<Cases.EventRow>, target: Option<nat>, probe: bool)
    requires target.Some? ==> target.value < |rows| && rows[target.value].status.PendingReview?
    ensures var r := RowsAfterLink(rows, target, probe);
      && |r| == |rows| + (if target.None? then 1 else 0)
      && forall e :: 0 <= e < |r| ==>
        r[e].status.PendingReview? == if e < |rows| then rows[e].status.PendingReview? else true
  {
  }

  lemma LinkKeepsCoupled(w: World, j: nat, probe: bool, agg: EventKey.Config)
    requires Coupled(w) && Enabled(w, Link(j, probe))
    ensures Coupled(Apply(w, Link(j, probe), agg))
  {
    AggregatePends(w.alerts, j, agg);
    RowsPend(w.cases.db.events, TargetOf(w.alerts, j, agg), probe);
  }

  lemma LinkKeepsSound(w: World, p: CaseInvariants.Policy, j: nat, probe: bool, agg: EventKey.Config)
    requires Sound(w, p) && Enabled(w, Link(j, probe))
    ensures Sound(Apply(w, Link(j, probe), agg), p)
  {
    LinkKeepsCoupled(w, j, probe, agg);
    LinkIsCaseSteps(w, p, j, probe, agg);
    CaseRuns.RunKeeps(w.cases, CaseStepOf(TargetOf(w.alerts, j, agg), probe), p);
  }

  lemma ApplyKeepsSound(w: World, p: CaseInvariants.Policy, step: Step, agg: EventKey.Config)
    requires Sound(w, p) && Enabled(w, step) && Obeys(step, p)
    ensures Sound(Apply(w, step, agg), p)
  {
    match step
    case OnAlerts(s) => OnAlertsAdvances(w, s, agg);
    case Link(j, probe) => LinkKeepsSound(w, p, j, probe, agg);
    case OnCases(s) =>
      CasesKeepEvents(w.cases, p, s);
      CaseRuns.ApplyKeeps(w.cases, p, s);
  }

  // ---- every run of the pipeline is a run of either side -----------------------------------

  lemma {:induction false} AlertConcat(db: Alerts.Db, a: seq<AlertRuns.Step>, b: seq<AlertRuns.Step>,
    agg: EventKey.Config)
    requires AlertRuns.Legal(db, a, agg) && AlertRuns.Legal(AlertRuns.After(db, a, agg), b, agg)
    ensures AlertRuns.Legal(db, a + b, agg)
    ensures AlertRuns.After(db, a + b, agg) == AlertRuns.After(AlertRuns.After(db, a, agg), b, agg)
    decreases |a|
  {
    if a == [] {
      assert a + b == b;
    } else {
      assert (a + b)[0] == a[0] && (a + b)[1..] == a[1..] + b;
      AlertConcat(AlertRuns.Apply(db, a[0], agg), a[1..], b, agg);
    }
  }

  lemma {:induction false} CaseConcat(w: CaseRuns.World, a: seq<CaseRuns.Step>, b: seq<CaseRuns.Step>,
    p: CaseInvariants.Policy)
    requires CaseRuns.Legal(w, a, p) && CaseRuns.Legal(CaseRuns.After(w, a, p), b, p)
    ensures CaseRuns.Legal(w, a + b, p)
    ensures CaseRuns.After(w, a + b, p) == CaseRuns.After(CaseRuns.After(w, a, p), b, p)
    decreases |a|
  {
    if a == [] {
      assert a + b == b;
    } else {
      assert (a + b)[0] == a[0] && (a + b)[1..] == a[1..] + b;
      CaseConcat(CaseRuns.Apply(w, a[0]), a[1..], b, p);
    }
  }

  /** What a service call does to the statuses, one event after the other from event k on. */
  ghost function Statuses(rows: seq<Cases.EventRow>, k: nat): (r: seq<AlertRuns.Step>)
    decreases |rows| - k
  {
    if k >= |rows| then []
    else [AlertRuns.SetPending(k, rows[k].status.PendingReview?)] + Statuses(rows, k + 1)
  }

  lemma {:induction false} StatusesProject(db: Alerts.Db, rows: seq<Cases.EventRow>, k: nat, agg: EventKey.Config)
    requires |rows| == |db.events| && k <= |rows|
    ensures AlertRuns.Legal(db, Statuses(rows, k), agg)
    ensures AlertRuns.After(db, Statuses(rows, k), agg) ==
      db.(events := db.events[..k] + Seen(db.events, rows)[k..])
    decreases |rows| - k
  {
    if k == |rows| {
      assert db.events[..k] + Seen(db.events, rows)[k..] == db.events;
    } else {
      var db' := db.(events := db.events[k := db.events[k].(pending := rows[k].status.PendingReview?)]);
      assert Statuses(rows, k)[1..] == Statuses(rows, k + 1);
      StatusesProject(db', rows, k + 1, agg);
      assert Seen(db'.events, rows) == Seen(db.events, rows);
      assert db'.events[..k + 1] + Seen(db.events, rows)[k + 1..] == db.events[..k] + Seen(db.events, rows)[k..];
    }
  }

  /** One step of the pipeline is a run of the alert side and a run of the case side. */
  lemma StepProjects(w: World, p: CaseInvariants.Policy, step: Step, agg: EventKey.Config)
    returns (alertSteps: seq<AlertRuns.Step>, caseSteps: seq<CaseRuns.Step>)
    requires Sound(w, p) && Enabled(w, step) && Obeys(step, p)
    ensures AlertRuns.Legal(w.alerts, alertSteps, agg) && CaseRuns.Legal(w.cases, caseSteps, p)
    ensures AlertRuns.After(w.alerts, alertSteps, agg) == Apply(w, step, agg).alerts
    ensures CaseRuns.After(w.cases, caseSteps, p) == Apply(w, step, agg).cases
  {
    match step
    case OnAlerts(s) =>
      alertSteps, caseSteps := [s], [];
      var next := AlertRuns.Apply(w.alerts, s, agg);
      assert AlertRuns.After(next, alertSteps[1..], agg) == next;
    case Link(j, probe) =>
      alertSteps := AlertLink(w.alerts, j, agg);
      caseSteps := CaseStepOf(TargetOf(w.alerts, j, agg), probe);
      LinkIsCaseSteps(w, p, j, probe, agg);
    case OnCases(s) =>
      alertSteps, caseSteps := CallProjects(w, p, s, agg);
  }

  lemma AlertLink(db: Alerts.Db, j: nat, agg: EventKey.Config) returns (alertSteps: seq<AlertRuns.Step>)
    requires Alerts.Linkable(db, j)
    ensures AlertRuns.Legal(db, alertSteps, agg)
    ensures AlertRuns.After(db, alertSteps, agg) == Alerts.AggregateOne(db, j, agg)
  {
    var item := AlertRuns.AggregationItem(j, false);
    alertSteps := [AlertRuns.AggregationBatch([item])];
    assert AlertRuns.Enabled(db, alertSteps[0]);
    assert AlertRuns.AggregateAll(Alerts.AggregateOne(db, j, agg), [item][1..], agg) ==
      Alerts.AggregateOne(db, j, agg);
    assert AlertRuns.Apply(db, alertSteps[0], agg) == Alerts.AggregateOne(db, j, agg);
    var next := AlertRuns.Apply(db, alertSteps[0], agg);
    assert AlertRuns.After(next, alertSteps[1..], agg) == next;
  }

  lemma CallProjects(w: World, p: CaseInvariants.Policy, s: CaseRuns.Step, agg: EventKey.Config)
    returns (alertSteps: seq<AlertRuns.Step>, caseSteps: seq<CaseRuns.Step>)
    requires Sound(w, p) && Enabled(w, OnCases(s)) && CaseRuns.Obeys(s, p)
    ensures AlertRuns.Legal(w.alerts, alertSteps, agg) && CaseRuns.Legal(w.cases, caseSteps, p)
    ensures AlertRuns.After(w.alerts, alertSteps, agg) == Apply(w, OnCases(s), agg).alerts
    ensures CaseRuns.After(w.cases, caseSteps, p) == Apply(w, OnCases(s), agg).cases
  {
    var rows := CaseRuns.Apply(w.cases, s).db.events;
    alertSteps, caseSteps := Statuses(rows, 0), [s];
    CasesKeepEvents(w.cases, p, s);
    StatusesProject(w.alerts, rows, 0, agg);
    assert w.alerts.events[..0] + Seen(w.alerts.events, rows)[0..] == Seen(w.alerts.events, rows);
    assert CaseRuns.After(CaseRuns.Apply(w.cases, s), caseSteps[1..], p) == CaseRuns.Apply(w.cases, s);
  }

  /** A run of the pipeline is a run of the alert side and a run of the case side, so that what is
      proved of either holds of it; both sides see the same pending events all along. */
  lemma {:induction false} RunProjects(w: World, p: CaseInvariants.Policy, steps: seq<Step>, agg: EventKey.Config)
    returns (alertSteps: seq<AlertRuns.Step>, caseSteps: seq<CaseRuns.Step>)
    requires Sound(w, p) && Legal(w, steps, p, agg)
    ensures AlertRuns.Legal(w.alerts, alertSteps, agg) && CaseRuns.Legal(w.cases, caseSteps, p)
    ensures AlertRuns.After(w.alerts, alertSteps, agg) == After(w, steps, p, agg).alerts
    ensures CaseRuns.After(w.cases, caseSteps, p) == After(w, steps, p, agg).cases
    ensures Sound(After(w, steps, p, agg), p)
    decreases |steps|
  {
    if steps == [] {
      alertSteps, caseSteps := [], [];
    } else {
      var alertHead, caseHead := StepProjects(w, p, steps[0], agg);
      ApplyKeepsSound(w, p, steps[0], agg);
      var alertTail, caseTail := RunProjects(Apply(w, steps[0], agg), p, steps[1..], agg);
      AlertConcat(w.alerts, alertHead, alertTail, agg);
      CaseConcat(w.cases, caseHead, caseTail, p);
      alertSteps, caseSteps := alertHead + alertTail, caseHead + caseTail;
    }
  }

  lemma StepKeepsParked(w: World, p: CaseInvariants.Policy, step: Step, agg: EventKey.Config, e: nat)
    requires Sound(w, p) && Enabled(w, step) && Obeys(step, p) && CaseHistory.Parked(w.cases.db, e)
    ensures CaseHistory.Parked(Apply(w, step, agg).cases.db, e)
  {
    var _, caseSteps := StepProjects(w, p, step, agg);
    CaseHistory.RunKeepsParked(w.cases, caseSteps, p, e);
  }

  /** Along a run a probe event stays one, and a parked event stays parked. */
  lemma RunKeepsEvent(w: World, p: CaseInvariants.Policy, steps: seq<Step>, agg: EventKey.Config, e: nat)
    requires Sound(w, p) && Legal(w, steps, p, agg) && e < |w.cases.db.events|
    ensures var db := After(w, steps, p, agg).cases.db;
      && e < |db.events| && (w.cases.db.events[e].probe ==> db.events[e].probe)
      && (CaseHistory.Parked(w.cases.db, e) ==> CaseHistory.Parked(db, e))
  {
    var _, caseSteps := RunProjects(w, p, steps, agg);
    CaseHistory.RunAdvances(w.cases, caseSteps, p);
    if CaseHistory.Parked(w.cases.db, e) { CaseHistory.RunKeepsParked(w.cases, caseSteps, p, e); }
  }

  // ---- an answered review takes in its key --------------------------------------------------

  /** The alert behind link l has the key. */
  predicate HasKey(db: Alerts.Db, l: nat, key: string, agg: EventKey.Config)
    requires l < |db.links|
  {
    db.links[l].alert < |db.alerts| && Alerts.Key(db.alerts[db.links[l].alert], agg) == key
  }

  /** From a to b no event with the key of e has been added, and every alert with that key that was
      linked went to e or to a newer event with the key that a had already. */
  ghost predicate TakesIn(a: Alerts.Db, b: Alerts.Db, e: nat, agg: EventKey.Config)
    requires e < |a.events|
  {
    var key := a.events[e].key;
    && AlertsAdvance(a, b)
    && (forall f :: |a.events| <= f < |b.events| ==> b.events[f].key != key)
    && (forall l :: |a.links| <= l < |b.links| ==> b.links[l].alert < |b.alerts|)
    && (forall l :: |a.links| <= l < |b.links| && HasKey(b, l, key, agg) ==> Joins(a, b, l, e, key))
  }

  /** The link goes to one of the events with the key, from e on, that a has. */
  ghost predicate Joins(a: Alerts.Db, b: Alerts.Db, l: nat, e: nat, key: string)
    requires l < |b.links|
  {
    e <= b.links[l].event < |a.events| && a.events[b.links[l].event].key == key
  }

  lemma TakesInTransitive(a: Alerts.Db, b: Alerts.Db, c: Alerts.Db, e: nat, agg: EventKey.Config)
    requires e < |a.events| <= |b.events| && TakesIn(a, b, e, agg) && TakesIn(b, c, e, agg)
    ensures TakesIn(a, c, e, agg)
  {
    var key := a.events[e].key;
    forall l | |a.links| <= l < |c.links| && HasKey(c, l, key, agg) ensures Joins(a, c, l, e, key) {
      if l < |b.links| {
        assert c.links[l] == b.links[l] && HasKey(b, l, key, agg);
        assert Joins(a, b, l, e, key);
      } else {
        assert Joins(b, c, l, e, key);
      }
    }
  }

  lemma AggregateAdvances(db: Alerts.Db, j: nat, agg: EventKey.Config)
    requires AlertRuns.Known(db, j)
    ensures AlertsAdvance(db, Alerts.AggregateOne(db, j, agg))
  {
  }

  lemma AggregateTakesIn(db: Alerts.Db, j: nat, agg: EventKey.Config, e: nat)
    requires AlertRuns.Known(db, j) && e < |db.events| && db.events[e].pending
    ensures TakesIn(db, Alerts.AggregateOne(db, j, agg), e, agg)
  {
    AggregateAdvances(db, j, agg);
  }

  lemma StepTakesIn(w: World, p: CaseInvariants.Policy, step: Step, agg: EventKey.Config, e: nat)
    requires Sound(w, p) && Enabled(w, step) && Obeys(step, p)
    requires CaseHistory.Parked(w.cases.db, e) && !w.cases.db.events[e].probe
    ensures TakesIn(w.alerts, Apply(w, step, agg).alerts, e, agg)
  {
    match step
    case OnAlerts(s) => OnAlertsAdvances(w, s, agg);
    case Link(j, probe) => AggregateTakesIn(w.alerts, j, agg, e);
    case OnCases(s) =>
  }

  lemma {:induction false} RunTakesIn(w: World, p: CaseInvariants.Policy, steps: seq<Step>, agg: EventKey.Config,
    e: nat)
    requires Sound(w, p) && Legal(w, steps, p, agg) && CaseHistory.Parked(w.cases.db, e)
    requires var db := After(w, steps, p, agg).cases.db; e < |db.events| && !db.events[e].probe
    ensures TakesIn(w.alerts, After(w, steps, p, agg).alerts, e, agg)
    decreases |steps|
  {
    if steps != [] {
      var w' := Apply(w, steps[0], agg);
      RunKeepsEvent(w, p, steps, agg, e);
      StepTakesIn(w, p, steps[0], agg, e);
      ApplyKeepsSound(w, p, steps[0], agg);
      StepKeepsParked(w, p, steps[0], agg, e);
      RunTakesIn(w', p, steps[1..], agg, e);
      TakesInTransitive(w.alerts, w'.alerts, After(w, steps, p, agg).alerts, e, agg);
    }
  }

  /** From w to w' the event stays out of the batch's reach and takes in the alerts of its key, unless it
      has become a probe event. */
  ghost predicate Swallows(w: World, w': World, e: nat, agg: EventKey.Config) {
    && e < |w.alerts.events| && e < |w'.alerts.events| && e < |w'.cases.db.events|
    && (w'.cases.db.events[e].probe ||
        (w'.alerts.events[e].pending && !Cases.Pickable(w'.cases.db, e) && TakesIn(w.alerts, w'.alerts, e, agg)))
  }

  lemma ParkedSwallows(w: World, p: CaseInvariants.Policy, steps: seq<Step>, agg: EventKey.Config, e: nat)
    requires Sound(w, p) && Legal(w, steps, p, agg) && CaseHistory.Parked(w.cases.db, e)
    ensures Swallows(w, After(w, steps, p, agg), e, agg)
  {
    var _, _ := RunProjects(w, p, steps, agg);
    var w' := After(w, steps, p, agg);
    RunKeepsEvent(w, p, steps, agg, e);
    CaseHistory.ParkedIsNotPickable(w'.cases.db, p, e);
    if !w'.cases.db.events[e].probe { RunTakesIn(w, p, steps, agg, e); }
  }

  /** The event whose review a message answers. */
  function AnsweredEvent(db: Cases.Db, message: Cases.Incoming): nat
    requires Cases.Addressee(db, message).Some?
  {
    db.reqs[Cases.Addressee(db, message).value.0].event
  }

  /** The message is stored, the event reopened, and both committed. */
  function Answered(w: World, message: Cases.Incoming, agg: EventKey.Config): World {
    Apply(w, OnCases(CaseRuns.HandleReply(message, true, true)), agg)
  }

  lemma AnsweredIsParked(w: World, p: CaseInvariants.Policy, message: Cases.Incoming, agg: EventKey.Config)
    requires Sound(w, p) && Cases.Addressee(w.cases.db, message).Some?
    ensures Sound(Answered(w, message, agg), p)
    ensures CaseHistory.Parked(Answered(w, message, agg).cases.db, AnsweredEvent(w.cases.db, message))
  {
    CaseHistory.AnsweredParks(w.cases, p, message);
    ApplyKeepsSound(w, p, OnCases(CaseRuns.HandleReply(message, true, true)), agg);
  }

  lemma AnsweredRunSwallows(w: World, message: Cases.Incoming, after: seq<Step>, p: CaseInvariants.Policy,
    agg: EventKey.Config)
    requires Sound(w, p) && Cases.Addressee(w.cases.db, message).Some?
    requires Legal(Answered(w, message, agg), after, p, agg)
    ensures var w' := Answered(w, message, agg);
      Swallows(w', After(w', after, p, agg), AnsweredEvent(w.cases.db, message), agg)
  {
    AnsweredIsParked(w, p, message, agg);
    ParkedSwallows(Answered(w, message, agg), p, after, agg, AnsweredEvent(w.cases.db, message));
  }

  /** From the moment a reply is stored its event stays pending, the batch never picks it, and no event
      is created for its key any more: every alert of that key goes to it, or to a newer event of the
      same key that existed by then; unless a health probe is merged into the event. */
  lemma AnsweredSwallows(before: seq<Step>, message: Cases.Incoming, after: seq<Step>, p: CaseInvariants.Policy,
    agg: EventKey.Config)
    requires Legal(Empty, before, p, agg)
    requires Cases.Addressee(After(Empty, before, p, agg).cases.db, message).Some?
    requires Legal(Answered(After(Empty, before, p, agg), message, agg), after, p, agg)
    ensures var w := After(Empty, before, p, agg);
      var w' := Answered(w, message, agg);
      Swallows(w', After(w', after, p, agg), AnsweredEvent(w.cases.db, message), agg)
  {
    StartsSound(p);
    var _, _ := RunProjects(Empty, p, before, agg);
    AnsweredRunSwallows(After(Empty, before, p, agg), message, after, p, agg);
  }

  lemma StartsSound(p: CaseInvariants.Policy)
    ensures Sound(Empty, p)
  {
  }

  // ---- a settled event misses no alert ----------------------------------------------------------

  /** The ordinary event has been decided: no human is waited for. */
  predicate Decided(db: Cases.Db, e: nat) {
    e < |db.events| && !db.events[e].probe && (db.events[e].status.Concluded? || db.events[e].status.Closed?)
  }

  /** From a to b no alert has been linked to e. */
  ghost predicate NoneLinked(a: Alerts.Db, b: Alerts.Db, e: nat) {
    && |a.events| <= |b.events| && a.links <= b.links
    && forall l :: |a.links| <= l < |b.links| ==> b.links[l].event != e
  }

  lemma NoneLinkedTransitive(a: Alerts.Db, b: Alerts.Db, c: Alerts.Db, e: nat)
    requires NoneLinked(a, b, e) && NoneLinked(b, c, e)
    ensures NoneLinked(a, c, e)
  {
    forall l | |a.links| <= l < |c.links| ensures c.links[l].event != e {
      if l < |b.links| { assert c.links[l] == b.links[l]; }
    }
  }

  lemma StepLinksElsewhere(w: World, step: Step, agg: EventKey.Config, e: nat)
    requires Coupled(w) && Enabled(w, step) && e < |w.alerts.events| && !w.alerts.events[e].pending
    ensures NoneLinked(w.alerts, Apply(w, step, agg).alerts, e)
  {
    match step
    case OnAlerts(s) => OnAlertsAdvances(w, s, agg);
    case _ =>
  }

  lemma StepKeepsInv(w: World, p: CaseInvariants.Policy, step: Step, agg: EventKey.Config, e: nat)
    requires Sound(w, p) && Enabled(w, step) && Obeys(step, p) && CaseInvariants.HasInv(w.cases.db, e)
    ensures CaseInvariants.HasInv(Apply(w, step, agg).cases.db, e)
  {
    var _, caseSteps := StepProjects(w, p, step, agg);
    CaseHistory.RunAdvances(w.cases, caseSteps, p);
    CaseInvariants.LinksGrow(w.cases.db, Apply(w, step, agg).cases.db);
  }

  /** An event that has been investigated and is decided in the end takes no alert in between: the case
      that settles it leaves out none of its alerts. */
  lemma {:induction false} DecidedMissesNothing(w: World, p: CaseInvariants.Policy, steps: seq<Step>,
    agg: EventKey.Config, e: nat)
    requires Sound(w, p) && Legal(w, steps, p, agg) && CaseInvariants.HasInv(w.cases.db, e)
    requires Decided(After(w, steps, p, agg).cases.db, e)
    ensures NoneLinked(w.alerts, After(w, steps, p, agg).alerts, e)
    decreases |steps|
  {
    if steps != [] {
      var w' := Apply(w, steps[0], agg);
      assert e < |w.cases.db.events|;
      RunKeepsEvent(w, p, steps, agg, e);
      assert !CaseHistory.Parked(w.cases.db, e);
      StepLinksElsewhere(w, steps[0], agg, e);
      ApplyKeepsSound(w, p, steps[0], agg);
      StepKeepsInv(w, p, steps[0], agg, e);
      DecidedMissesNothing(w', p, steps[1..], agg, e);
      NoneLinkedTransitive(w.alerts, w'.alerts, After(w, steps, p, agg).alerts, e);
    }
  }

  /** An event that has been investigated by some moment of a run, and is decided at the end, has no
      alert that came later. */
  lemma CasesAreComplete(before: seq<Step>, after: seq<Step>, p: CaseInvariants.Policy, agg: EventKey.Config, e: nat)
    requires Legal(Empty, before, p, agg) && Legal(After(Empty, before, p, agg), after, p, agg)
    requires CaseInvariants.HasInv(After(Empty, before, p, agg).cases.db, e)
    requires Decided(After(After(Empty, before, p, agg), after, p, agg).cases.db, e)
    ensures var w := After(Empty, before, p, agg); NoneLinked(w.alerts, After(w, after, p, agg).alerts, e)
  {
    StartsSound(p);
    var _, _ := RunProjects(Empty, p, before, agg);
    DecidedMissesNothing(After(Empty, before, p, agg), p, after, agg, e);
  }

  /** What a decided event owes to the evidence gate (see CaseRuns.EvidenceGate). */
  ghost predicate Gated(db: Cases.Db, e: nat, i: nat) {
    && i < |db.invs| && db.invs[i].event == e && db.invs[i].status.Completed? && db.invs[i].conclusion.Some?
    && var c, ev := db.invs[i].conclusion.value, db.invs[i].evidence;
       && !Closure.NeedsHuman(c.verdict)
       && (ev.supervisor.enabled && ev.supervisor.block ==> ev.auditPassed)
       && (ev.closure.enabled ==> Closure.EvidenceMet(c, AgentLoop.Names(ev.toolRows), ev.template, ev.closure))
  }

  lemma ClosedIsGated(caseSteps: seq<CaseRuns.Step>, p: CaseInvariants.Policy, e: nat) returns (i: nat)
    requires CaseRuns.Legal(CaseRuns.Empty, caseSteps, p)
    requires var db := CaseRuns.After(CaseRuns.Empty, caseSteps, p).db;
      e < |db.events| && db.events[e] == Cases.EventRow(Cases.Closed, false)
    ensures var db := CaseRuns.After(CaseRuns.Empty, caseSteps, p).db;
      Gated(db, e, i) && i in db.cases && (p.confirm ==> Cases.Resolved(db.disps, i))
  {
    i := CaseRuns.EvidenceGate(caseSteps, p, e);
    CaseRuns.SettlementSafety(caseSteps, p);
  }

  lemma LinkedAlertFits(alertSteps: seq<AlertRuns.Step>, agg: EventKey.Config, l: nat)
    requires AlertRuns.Legal(AlertRuns.Empty, alertSteps, agg)
    requires l < |AlertRuns.After(AlertRuns.Empty, alertSteps, agg).links|
    ensures AlertRuns.LinkFits(AlertRuns.After(AlertRuns.Empty, alertSteps, agg), l, agg)
  {
    AlertRuns.RunKeeps(AlertRuns.Empty, alertSteps, agg);
    AlertRuns.LinksFit(AlertRuns.After(AlertRuns.Empty, alertSteps, agg), l, agg);
  }

  /** Investigation i settles the closed event of link l. */
  ghost predicate SettledBy(w: World, p: CaseInvariants.Policy, l: nat, i: nat) {
    && l < |w.alerts.links| && Gated(w.cases.db, w.alerts.links[l].event, i) && i in w.cases.db.cases
    && (p.confirm ==> Cases.Resolved(w.cases.db.disps, i))
  }

  /** The alert of link l belongs to an ordinary event that is closed. */
  predicate LinkedToClosed(w: World, l: nat) {
    && l < |w.alerts.links| && w.alerts.links[l].event < |w.cases.db.events|
    && w.cases.db.events[w.alerts.links[l].event] == Cases.EventRow(Cases.Closed, false)
  }

  /** From alert to case: an alert whose ordinary event is closed has the key of the event and lies in
      its window, and the event's one investigation met the evidence gate and has its case. */
  lemma FromAlertToCase(steps: seq<Step>, p: CaseInvariants.Policy, agg: EventKey.Config, l: nat) returns (i: nat)
    requires Legal(Empty, steps, p, agg) && LinkedToClosed(After(Empty, steps, p, agg), l)
    ensures AlertRuns.LinkFits(After(Empty, steps, p, agg).alerts, l, agg)
    ensures SettledBy(After(Empty, steps, p, agg), p, l, i)
  {
    StartsSound(p);
    var alertSteps, caseSteps := RunProjects(Empty, p, steps, agg);
    LinkedAlertFits(alertSteps, agg, l);
    i := ClosedIsGated(caseSteps, p, After(Empty, steps, p, agg).alerts.links[l].event);
  }
}
