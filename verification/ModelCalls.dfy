/** Requests to the language model within one triage batch (app/triage/handlers/llm_assist.py and
    app/triage/services/triage_service.py): only those that are answered count towards the limit. */
module ModelCalls {
  import opened Wrappers
  import Scoring
  import EventKey
  import opened Alerts
  import opened AlertRuns

  /** The item sends a request to the model, whether or not it is answered. */
  predicate Sends(db: Db, it: TriageItem, window: nat, cfg: Scoring.Config, calls: nat)
    requires it.alert < |db.alerts|
  {
    var alert := db.alerts[it.alert];
    && !it.fault.BeforeModel?
    && CheckDuplicate(GroupOf(db.groups, alert.fingerprint), it.now, window).Lead?
    && Eligible(alert, it.signals, cfg) && calls < cfg.maxCalls
  }

  /** The requests a batch sends after `calls` answered ones, and how many of them fail. */
  function Requests(db: Db, window: nat, cfg: Scoring.Config, items: seq<TriageItem>, calls: nat): (nat, nat)
    requires forall i :: 0 <= i < |items| ==> items[i].alert < |db.alerts|
    decreases |items|
  {
    if items == [] then (0, 0) else
    var (sent, failed) := Requests(TriageItemDone(db, items[0], window, cfg, calls), window, cfg, items[1..],
                                   CallsAfter(db, items[0], window, cfg, calls));
    if !Sends(db, items[0], window, cfg, calls) then (sent, failed)
    else (sent + 1, if items[0].signals.answer.None? then failed + 1 else failed)
  }

  /** A batch never has more answered model calls than its limit, whichever items fail. */
  lemma {:induction false} ModelCallsBounded(db: Db, window: nat, cfg: Scoring.Config, items: seq<TriageItem>,
    calls: nat)
    requires forall i :: 0 <= i < |items| ==> items[i].alert < |db.alerts|
    ensures calls <= TriageAll(db, window, cfg, items, calls).1 <= Max(calls, cfg.maxCalls)
    decreases |items|
  {
    if items != [] {
      ModelCallsBounded(TriageItemDone(db, items[0], window, cfg, calls), window, cfg, items[1..],
                        CallsAfter(db, items[0], window, cfg, calls));
    }
  }

  /** Every request sent is answered, and then counted, or fails. */
  lemma {:induction false} SentIsAnsweredPlusFailed(db: Db, window: nat, cfg: Scoring.Config, items: seq<TriageItem>,
    calls: nat)
    requires forall i :: 0 <= i < |items| ==> items[i].alert < |db.alerts|
    ensures var (sent, failed) := Requests(db, window, cfg, items, calls);
      && calls + sent == TriageAll(db, window, cfg, items, calls).1 + failed
      && failed <= sent <= |items|
    decreases |items|
  {
    if items != [] {
      SentIsAnsweredPlusFailed(TriageItemDone(db, items[0], window, cfg, calls), window, cfg, items[1..],
                               CallsAfter(db, items[0], window, cfg, calls));
    }
  }

  // ---- when the limit bounds the requests ------------------------------------------------

  /** Items of different fingerprints whose requests all fail. */
  ghost predicate Fruitless(db: Db, items: seq<TriageItem>, cfg: Scoring.Config) {
    && (forall i :: 0 <= i < |items| ==> FruitlessAt(db, items[i], cfg))
    && (forall i, j :: 0 <= i < j < |items| ==>
          db.alerts[items[i].alert].fingerprint != db.alerts[items[j].alert].fingerprint)
  }

  ghost predicate FruitlessAt(db: Db, it: TriageItem, cfg: Scoring.Config) {
    && it.alert < |db.alerts| && it.fault.NoFault? && it.signals.answer.None?
    && db.alerts[it.alert].fingerprint !in db.groups && Eligible(db.alerts[it.alert], it.signals, cfg)
  }

  lemma FruitlessTail(db: Db, window: nat, cfg: Scoring.Config, items: seq<TriageItem>, calls: nat)
    requires items != [] && Fruitless(db, items, cfg)
    ensures Fruitless(TriageItemDone(db, items[0], window, cfg, calls), items[1..], cfg)
  {
    assert FruitlessAt(db, items[0], cfg);
    var db' := TriageItemDone(db, items[0], window, cfg, calls);
    forall i | 0 <= i < |items| - 1 ensures FruitlessAt(db', items[1..][i], cfg) {
      assert FruitlessAt(db, items[i + 1], cfg);
    }
    forall i | 1 <= i < |items| ensures db'.alerts[items[i].alert] == db.alerts[items[i].alert] {
      assert FruitlessAt(db, items[i], cfg);
    }
  }

  lemma FruitlessHead(db: Db, it: TriageItem, window: nat, cfg: Scoring.Config, calls: nat)
    requires FruitlessAt(db, it, cfg) && calls < cfg.maxCalls
    ensures Sends(db, it, window, cfg, calls) && CallsAfter(db, it, window, cfg, calls) == calls
  {
  }

  /** While the limit leaves room, a request that fails leaves as much. */
  lemma {:induction false} FailuresGoOn(db: Db, window: nat, cfg: Scoring.Config, items: seq<TriageItem>, calls: nat)
    requires forall i :: 0 <= i < |items| ==> items[i].alert < |db.alerts|
    requires Fruitless(db, items, cfg) && calls < cfg.maxCalls
    ensures Requests(db, window, cfg, items, calls) == (|items|, |items|)
    decreases |items|
  {
    if items != [] {
      assert FruitlessAt(db, items[0], cfg);
      FruitlessHead(db, items[0], window, cfg, calls);
      FruitlessTail(db, window, cfg, items, calls);
      FailuresGoOn(TriageItemDone(db, items[0], window, cfg, calls), window, cfg, items[1..], calls);
    }
  }

  /** n copies of an alert, told apart by their fingerprints alone. */
  function Copies(alert: Alert, n: nat): (r: seq<Alert>)
    ensures |r| == n
    ensures forall i :: 0 <= i < n ==> r[i] == alert.(status := New, fingerprint := r[i].fingerprint)
    ensures forall i, j :: 0 <= i < j < n ==> r[i].fingerprint != r[j].fingerprint
  {
    var r := seq(n, i requires 0 <= i => alert.(status := New, fingerprint := seq(i, _ => 'x')));
    assert forall i :: 0 <= i < n ==> |r[i].fingerprint| == i;
    r
  }

  function Ingests(alerts: seq<Alert>): (r: seq<Step>)
    ensures |r| == |alerts|
  {
    seq(|alerts|, i requires 0 <= i < |alerts| => Ingest(alerts[i]))
  }

  lemma {:induction false} IngestAll(db: Db, alerts: seq<Alert>, agg: EventKey.Config)
    requires forall i :: 0 <= i < |alerts| ==> alerts[i].status.New?
    ensures Legal(db, Ingests(alerts), agg)
    ensures After(db, Ingests(alerts), agg) == db.(alerts := db.alerts + alerts)
    decreases |alerts|
  {
    if alerts == [] {
      assert db.alerts + alerts == db.alerts;
    } else {
      assert Ingests(alerts)[1..] == Ingests(alerts[1..]);
      IngestAll(db.(alerts := db.alerts + [alerts[0]]), alerts[1..], agg);
      assert db.alerts + [alerts[0]] + alerts[1..] == db.alerts + alerts;
    }
  }

  /** One item per alert, at the same moment, without faults. */
  function Items(n: nat, sig: Signals): (r: seq<TriageItem>)
    ensures |r| == n && forall i :: 0 <= i < n ==> r[i] == TriageItem(i, 0, sig, NoFault)
  {
    seq(n, i requires 0 <= i => TriageItem(i, 0, sig, NoFault))
  }

  lemma CopiesFruitless(db: Db, alert: Alert, sig: Signals, n: nat, cfg: Scoring.Config)
    requires db == Empty.(alerts := Copies(alert, n))
    requires Eligible(alert, sig, cfg) && sig.answer.None?
    ensures Fruitless(db, Items(n, sig), cfg)
  {
    var items := Items(n, sig);
    forall i | 0 <= i < n ensures FruitlessAt(db, items[i], cfg) {
      assert RuleOf(db.alerts[i], sig, cfg) == RuleOf(alert, sig, cfg);
    }
  }

  lemma CopiesIngested(alert: Alert, n: nat, sig: Signals, agg: EventKey.Config)
    ensures var steps := Ingests(Copies(alert, n));
      && Legal(Empty, steps, agg) && After(Empty, steps, agg) == Empty.(alerts := Copies(alert, n))
      && TriageItemsOk(After(Empty, steps, agg), Items(n, sig))
  {
    IngestAll(Empty, Copies(alert, n), agg);
    assert [] + Copies(alert, n) == Copies(alert, n);
  }

  /** For any number of alerts that the model would be asked about, a batch over freshly ingested ones
      sends a request for each, under any limit of at least one, and counts none: all requests fail. */
  lemma FailedRequestsEscapeTheLimit(alert: Alert, sig: Signals, n: nat, window: nat, cfg: Scoring.Config,
    agg: EventKey.Config)
    requires Eligible(alert, sig, cfg) && sig.answer.None? && cfg.maxCalls > 0
    ensures var steps, items := Ingests(Copies(alert, n)), Items(n, sig);
      && Legal(Empty, steps, agg) && TriageItemsOk(After(Empty, steps, agg), items)
      && Requests(After(Empty, steps, agg), window, cfg, items, 0) == (n, n)
      && TriageAll(After(Empty, steps, agg), window, cfg, items, 0).1 == 0
  {
    CopiesIngested(alert, n, sig, agg);
    var db, items := After(Empty, Ingests(Copies(alert, n)), agg), Items(n, sig);
    CopiesFruitless(db, alert, sig, n, cfg);
    FailuresGoOn(db, window, cfg, items, 0);
    SentIsAnsweredPlusFailed(db, window, cfg, items, 0);
  }

  /** The shipped thresholds, weight and filter of routes, with the model enabled and a limit of one. */
  const ONE_CALL: Scoring.Config :=
    Scoring.Config(70.0, 30.0, 30.0, 70.0, 20.0, 6.0, map[], true, 0.15, {"queue_uncertain"}, 1)

  lemma UncertainIsEligible(alert: Alert, sig: Signals)
    requires alert.severity == 3 && alert.category.None?
    requires sig == Signals(false, [], [], 0, None, None, None, false)
    ensures Eligible(alert, sig, ONE_CALL)
  {
    assert RuleOf(alert, sig, ONE_CALL) == Scoring.Round2(41 as real);
    Scoring.Round2Whole(41);
  }

  /** Two new alerts, a limit of one and a model that fails both times: two requests, none counted. */
  lemma TwoRequestsUnderALimitOfOne(agg: EventKey.Config)
    ensures var alert := Alert(New, "", 3, None, None, None, 0);
      var sig := Signals(false, [], [], 0, None, None, None, false);
      var steps, items := Ingests(Copies(alert, 2)), Items(2, sig);
      && Legal(Empty, steps, agg) && TriageItemsOk(After(Empty, steps, agg), items)
      && Requests(After(Empty, steps, agg), 3600, ONE_CALL, items, 0) == (2, 2)
      && TriageAll(After(Empty, steps, agg), 3600, ONE_CALL, items, 0).1 == 0
  {
    var alert := Alert(New, "", 3, None, None, None, 0);
    var sig := Signals(false, [], [], 0, None, None, None, false);
    UncertainIsEligible(alert, sig);
    FailedRequestsEscapeTheLimit(alert, sig, 2, 3600, ONE_CALL, agg);
  }

  /** The batch, if it may follow the run and has at most n alerts, sends no more requests than the limit. */
  ghost predicate BatchWithin(steps: seq<Step>, agg: EventKey.Config, window: nat, items: seq<TriageItem>, n: nat,
    cfg: Scoring.Config)
  {
    Legal(Empty, steps, agg) && TriageItemsOk(After(Empty, steps, agg), items) && |items| <= n ==>
      Requests(After(Empty, steps, agg), window, cfg, items, 0).0 <= Max(cfg.maxCalls, 0)
  }

  /** Every batch of at most n alerts, after any run, sends at most as many requests as the limit says. */
  ghost predicate LimitHolds(n: nat, cfg: Scoring.Config) {
    forall steps, agg, window, items :: BatchWithin(steps, agg, window, items, n, cfg)
  }

  /** There is an alert for which the configuration has the model asked. */
  ghost predicate Askable(cfg: Scoring.Config) {
    exists alert, sig :: Eligible(alert, sig, cfg)
  }

  lemma {:induction false} NothingSent(db: Db, window: nat, cfg: Scoring.Config, items: seq<TriageItem>, calls: nat)
    requires forall i :: 0 <= i < |items| ==> items[i].alert < |db.alerts|
    requires !Askable(cfg) || cfg.maxCalls <= 0
    ensures Requests(db, window, cfg, items, calls).0 == 0
    decreases |items|
  {
    if items != [] {
      NothingSent(TriageItemDone(db, items[0], window, cfg, calls), window, cfg, items[1..],
                  CallsAfter(db, items[0], window, cfg, calls));
    }
  }

  /** The per-run limit bounds the requests a batch sends exactly when the batch is no larger than the
      limit, the limit leaves no room at all, or the model is never asked. With the model enabled and
      no filter of routes it is asked. */
  lemma LimitHoldsIff(n: nat, cfg: Scoring.Config)
    ensures LimitHolds(n, cfg) <==> n <= cfg.maxCalls || cfg.maxCalls <= 0 || !Askable(cfg)
    ensures cfg.llmEnabled && cfg.filter == {} ==> Askable(cfg)
  {
    if n <= cfg.maxCalls || cfg.maxCalls <= 0 || !Askable(cfg) {
      forall steps, agg, window, items ensures BatchWithin(steps, agg, window, items, n, cfg) {
        if Legal(Empty, steps, agg) && TriageItemsOk(After(Empty, steps, agg), items) && |items| <= n {
          SentWithinLimit(After(Empty, steps, agg), window, cfg, items, n);
        }
      }
    } else {
      LimitFails(n, cfg);
    }
    if cfg.llmEnabled && cfg.filter == {} {
      assert Eligible(Alert(New, "", 3, None, None, None, 0), Signals(false, [], [], 0, None, None, None, false), cfg);
    }
  }

  lemma SentWithinLimit(db: Db, window: nat, cfg: Scoring.Config, items: seq<TriageItem>, n: nat)
    requires TriageItemsOk(db, items) && |items| <= n
    requires n <= cfg.maxCalls || cfg.maxCalls <= 0 || !Askable(cfg)
    ensures Requests(db, window, cfg, items, 0).0 <= Max(cfg.maxCalls, 0)
  {
    assert forall i :: 0 <= i < |items| ==> Waiting(db, items[i].alert);
    SentIsAnsweredPlusFailed(db, window, cfg, items, 0);
    if !(n <= cfg.maxCalls) { NothingSent(db, window, cfg, items, 0); }
  }

  lemma FailingSignals(cfg: Scoring.Config) returns (alert: Alert, sig: Signals)
    requires Askable(cfg)
    ensures Eligible(alert, sig, cfg) && sig.answer.None?
  {
    var some: Signals;
    alert, some :| Eligible(alert, some, cfg);
    sig := some.(answer := None);
    assert RuleOf(alert, sig, cfg) == RuleOf(alert, some, cfg);
  }

  lemma LimitFails(n: nat, cfg: Scoring.Config)
    requires 0 < cfg.maxCalls < n && Askable(cfg)
    ensures !LimitHolds(n, cfg)
  {
    var alert, sig := FailingSignals(cfg);
    var agg := EventKey.Config(24, "", "", EventKey.Tally);
    FailedRequestsEscapeTheLimit(alert, sig, n, 0, cfg, agg);
    assert !BatchWithin(Ingests(Copies(alert, n)), agg, 0, Items(n, sig), n, cfg);
  }
}
