/** What triage, aggregation and correlation do to the alert tables, said of the rows themselves. */
module AlertOutcomes {
  import opened Wrappers
  import Scoring
  import EventKey
  import opened Alerts
  import opened AlertRuns

  // ---- triage ---------------------------------------------------------------------

  /** A window of the fingerprint that has a representative is still running. */
  predicate Repeats(db: Db, fingerprint: string, now: int) {
    && fingerprint in db.groups && db.groups[fingerprint].representative.Some?
    && now <= db.groups[fingerprint].windowEnd
  }

  /** The duplicate check: no group, or one whose window is over, opens a window now; within a running window
      an alert is a duplicate once the window has a representative, and only then counts. */
  lemma CheckExact(found: Option<Group>, now: int, window: nat)
    ensures var check := CheckDuplicate(found, now, window);
      if found.None? || found.value.windowEnd < now
      then check == Lead(Group(now, now + window, now, 1, None))
      else if found.value.representative.Some?
      then check == Duplicate(found.value.(lastSeen := now, count := found.value.count + 1))
      else check == Lead(found.value.(lastSeen := now))
  {
  }

  /** The score the route depends on: the rule score, blended with the model's when one is wanted, allowed
      and obtained. */
  function EffectiveScore(rule: real, sig: Signals, cfg: Scoring.Config, calls: nat): real {
    if !Scoring.OfInterest(rule, cfg) || calls >= cfg.maxCalls then rule
    else if sig.cached.Some? then Scoring.Blend(rule, sig.cached.value, cfg.llmWeight)
    else if sig.answer.Some? then Scoring.Blend(rule, sig.answer.value, cfg.llmWeight)
    else rule
  }

  /** The route of a stored result, by cases that exclude each other: a duplicate, a whitelisted alert, or
      the region its effective score falls into; and so its score and the status of its alert. */
  ghost predicate Routed(db: Db, a: nat, now: int, sig: Signals, cfg: Scoring.Config, calls: nat, row: ResultRow)
    requires a < |db.alerts|
  {
    var alert := db.alerts[a];
    var repeated, rule := Repeats(db, alert.fingerprint, now), RuleOf(alert, sig, cfg);
    var full, score := !repeated && !sig.whitelisted, EffectiveScore(rule, sig, cfg, calls);
    var banded := cfg.bandLow <= score && score < cfg.bandHigh;
    && row.alert == a && row.fingerprint == alert.fingerprint && row.at == now
    && row.ruleScore == (if full then rule else 0.0)
    && (row.route.ArchiveDedup? <==> repeated)
    && (row.route.ArchiveWhitelist? <==> !repeated && sig.whitelisted)
    && (row.route.QueueDeepReview? <==> full && score >= cfg.deep)
    && (row.route.QueueUncertain? <==> full && score < cfg.deep && (banded || score >= cfg.low))
    && (row.route.SampleAudit? <==> full && score < cfg.deep && !banded && score < cfg.low && sig.sampled)
    && (row.route.ArchiveLowRisk? <==> full && score < cfg.deep && !banded && score < cfg.low && !sig.sampled)
  }

  /** Triage stores one result, routed as its alert and signals demand, and leaves the alert triaged when
      it is queued and archived otherwise. */
  lemma TriageExact(db: Db, a: nat, now: int, window: nat, sig: Signals, cfg: Scoring.Config, calls: nat)
    requires a < |db.alerts|
    ensures var db' := TriageOne(db, a, now, window, sig, cfg, calls);
      && |db'.results| == |db.results| + 1 && db'.results[..|db.results|] == db.results
      && Routed(db, a, now, sig, cfg, calls, db'.results[|db.results|])
      && db'.results[|db.results|].window == window
      && db'.events == db.events && db'.links == db.links
    ensures var db' := TriageOne(db, a, now, window, sig, cfg, calls);
      var route := db'.results[|db.results|].route;
      db'.alerts == db.alerts[a := db.alerts[a].(status :=
        if route.QueueDeepReview? || route.QueueUncertain? then Triaged else Archived)]
  {
    var alert := db.alerts[a];
    var rule := RuleOf(alert, sig, cfg);
    Scoring.RouteRegions(EffectiveScore(rule, sig, cfg, calls), cfg, sig.sampled);
    AssessedRoute(alert, sig, cfg, calls);
  }

  lemma AssessedRoute(alert: Alert, sig: Signals, cfg: Scoring.Config, calls: nat)
    ensures !sig.whitelisted ==>
      Assess(alert, sig, cfg, calls).route ==
        Scoring.RouteFor(EffectiveScore(RuleOf(alert, sig, cfg), sig, cfg, calls), cfg, sig.sampled)
    ensures !sig.whitelisted ==> Assess(alert, sig, cfg, calls).score == RuleOf(alert, sig, cfg)
  {
  }

  // ---- aggregation ------------------------------------------------------------------

  /** The event took the alert in: as its first, with the key and window of the alert, or as one more. */
  ghost predicate TookIn(before: Option<EventRow>, after: EventRow, at: int, score: real, deep: bool) {
    var priority := if deep then 10 else 5;
    if before.None? then
      && after.pending && after.count == 1 && after.first == Some(at) && after.last == Some(at)
      && after.risk == score && after.priority == priority && after.related == [] && after.correlation.None?
    else
      var b := before.value;
      && after == b.(count := b.count + 1, first := after.first, last := after.last, risk := after.risk,
           priority := after.priority)
      && after.first == Some(if b.first.Some? && b.first.value <= at then b.first.value else at)
      && after.last == Some(if b.last.Some? && b.last.value >= at then b.last.value else at)
      && after.risk == (if b.risk >= score then b.risk else score)
      && after.priority == (if b.priority >= priority then b.priority else priority)
  }

  /** No event among the rows from index n on waits under the key. */
  ghost predicate NonePending(events: seq<EventRow>, n: nat, key: string) {
    forall x :: n <= x < |events| && events[x].pending ==> events[x].key != key
  }

  /** Aggregation links the alert to the newest pending event of its key, or to a new one when there is
      none, and changes nothing else. */
  ghost predicate Aggregated(db: Db, db': Db, j: nat, cfg: EventKey.Config)
    requires Known(db, j) && |db'.links| == |db.links| + 1
  {
    var r := db.results[j];
    var alert, key, e := db.alerts[r.alert], Key(db.alerts[r.alert], cfg), db'.links[|db.links|].event;
    && db' == db.(alerts := db.alerts[r.alert := alert.(status := EventLinked)], events := db'.events,
         links := db.links + [Link(e, r.alert)])
    && |db'.events| == (if e < |db.events| then |db.events| else e + 1) && e <= |db.events|
    && (forall x :: 0 <= x < |db.events| && x != e ==> db'.events[x] == db.events[x])
    && TookIn(if e < |db.events| then Some(db.events[e]) else None, db'.events[e], alert.occurredAt, r.ruleScore,
         r.route.QueueDeepReview?)
    && db'.events[e].key == key
    && (e < |db.events| ==> db.events[e].pending && NonePending(db.events, e + 1, key))
    && (e == |db.events| ==> NonePending(db.events, 0, key))
    && (e == |db.events| ==> db'.events[e].windowStart == Dims(alert, cfg).windowStart)
  }

  lemma AggregationExact(db: Db, j: nat, cfg: EventKey.Config)
    requires Known(db, j) && Scoring.IsQueue(db.results[j].route) && db.results[j].ruleScore >= 0.0
    ensures |AggregateOne(db, j, cfg).links| == |db.links| + 1 && Aggregated(db, AggregateOne(db, j, cfg), j, cfg)
  {
  }

  // ---- correlation ------------------------------------------------------------------

  /** Correlation raises the priority by one, up to 100, and lists at most twenty related events: those
      listed before first, then those found; nothing else changes. */
  lemma CorrelationExact(db: Db, e: nat, found: seq<nat>, key: string)
    requires e < |db.events| && Distinct(db.events[e].related) && e !in db.events[e].related
    ensures var ev, db' := db.events[e], Correlate(db, e, found, key);
      var ev' := db'.events[e];
      && db' == db.(events := db.events[e := ev'])
      && ev' == ev.(priority := ev'.priority, related := ev'.related, correlation := Some(key))
      && ev'.priority == (if ev.priority < 100 then ev.priority + 1 else 100)
      && |ev'.related| <= 20 && (|ev.related| <= 20 ==> ev.related <= ev'.related)
      && (forall x :: x in ev'.related ==> x in ev.related || (x in found && x != e))
      && (|ev'.related| < 20 ==> forall x :: x in found && x != e ==> x in ev'.related)
  {
    MergeRelatedKeeps(db.events[e].related, found, e);
  }
}
