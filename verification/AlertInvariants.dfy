/** What every committed state of the alert tables satisfies, and its preservation. */
module AlertInvariants {
  import opened Wrappers
  import Scoring
  import EventKey
  import opened Alerts

  // ---- conservation -----------------------------------------------------------

  predicate HasResult(db: Db, a: nat, queued: bool) {
    exists j :: 0 <= j < |db.results| && db.results[j].alert == a && Scoring.IsQueue(db.results[j].route) == queued
  }

  predicate HasLink(db: Db, a: nat) {
    exists l :: 0 <= l < |db.links| && db.links[l].alert == a
  }

  /** An alert's status says exactly which rows exist for it. */
  ghost predicate Placed(db: Db, a: nat)
    requires a < |db.alerts|
  {
    match db.alerts[a].status
    case New => !HasResult(db, a, true) && !HasResult(db, a, false) && !HasLink(db, a)
    case Archived => HasResult(db, a, false) && !HasLink(db, a)
    case Triaged => HasResult(db, a, true) && !HasLink(db, a)
    case EventLinked => HasResult(db, a, true) && HasLink(db, a)
  }

  /** Every alert is in its place, with at most one result and at most one link. */
  ghost predicate Conserved(db: Db) {
    && (forall a :: 0 <= a < |db.alerts| ==> Placed(db, a))
    && (forall j :: 0 <= j < |db.results| ==> db.results[j].alert < |db.alerts|)
    && (forall j, k :: 0 <= j < k < |db.results| ==> db.results[j].alert != db.results[k].alert)
    && (forall l :: 0 <= l < |db.links| ==> db.links[l].alert < |db.alerts| && db.links[l].event < |db.events|)
    && (forall l, m :: 0 <= l < m < |db.links| ==> db.links[l].alert != db.links[m].alert)
  }

  lemma TriageConserves(db: Db, a: nat, now: int, window: nat, sig: Signals, cfg: Scoring.Config, calls: nat)
    requires Conserved(db) && Waiting(db, a)
    ensures Conserved(TriageOne(db, a, now, window, sig, cfg, calls))
  {
    var db' := TriageOne(db, a, now, window, sig, cfg, calls);
    var n := |db.results|;
    assert db'.results[n].alert == a;
    forall x | 0 <= x < |db'.alerts| ensures Placed(db', x) {
      assert Placed(db, x);
      forall q ensures HasResult(db', x, q) <==>
        HasResult(db, x, q) || (x == a && Scoring.IsQueue(db'.results[n].route) == q) {
        ResultsGrow(db, db', x, q);
      }
    }
  }

  lemma ResultsGrow(db: Db, db': Db, x: nat, q: bool)
    requires |db'.results| == |db.results| + 1 && db'.results[..|db.results|] == db.results
    ensures var r := db'.results[|db.results|];
      HasResult(db', x, q) <==> HasResult(db, x, q) || (x == r.alert && Scoring.IsQueue(r.route) == q)
  {
    var n := |db.results|;
    if HasResult(db, x, q) {
      var j :| 0 <= j < n && db.results[j].alert == x && Scoring.IsQueue(db.results[j].route) == q;
      assert db'.results[j] == db'.results[..n][j];
    }
    if HasResult(db', x, q) {
      var j :| 0 <= j < |db'.results| && db'.results[j].alert == x && Scoring.IsQueue(db'.results[j].route) == q;
      assert j < n ==> db'.results[..n][j] == db'.results[j];
    }
  }

  lemma AggregationConserves(db: Db, j: nat, cfg: EventKey.Config)
    requires Conserved(db) && Linkable(db, j)
    ensures Conserved(AggregateOne(db, j, cfg))
  {
    var db' := AggregateOne(db, j, cfg);
    var a := db.results[j].alert;
    forall x | 0 <= x < |db'.alerts| ensures Placed(db', x) {
      assert Placed(db, x);
      LinksGrow(db, db', x);
    }
    LinkedOnce(db, db', a);
  }

  lemma LinkedOnce(db: Db, db': Db, a: nat)
    requires Conserved(db) && !HasLink(db, a) && a < |db.alerts| && |db'.events| >= |db.events| &&
      |db'.alerts| == |db.alerts|
    requires exists e: nat :: e < |db'.events| && db'.links == db.links + [Link(e, a)]
    ensures forall l :: 0 <= l < |db'.links| ==> db'.links[l].alert < |db'.alerts| && db'.links[l].event < |db'.events|
    ensures forall l, m :: 0 <= l < m < |db'.links| ==> db'.links[l].alert != db'.links[m].alert
  {
  }

  lemma LinksGrow(db: Db, db': Db, x: nat)
    requires |db'.links| == |db.links| + 1 && db'.links[..|db.links|] == db.links
    ensures HasLink(db', x) <==> HasLink(db, x) || x == db'.links[|db.links|].alert
  {
    var n := |db.links|;
    if HasLink(db, x) {
      var l :| 0 <= l < n && db.links[l].alert == x;
      assert db'.links[l] == db'.links[..n][l];
    }
    if HasLink(db', x) {
      var l :| 0 <= l < |db'.links| && db'.links[l].alert == x;
      assert l < n ==> db'.links[..n][l] == db'.links[l];
    }
  }

  // ---- duplicate windows ---------------------------------------------------------

  /** The newest result of the fingerprint that is not a duplicate. */
  function Opener(results: seq<ResultRow>, fp: string): (r: Option<nat>)
    ensures r.Some? ==>
      r.value < |results| && results[r.value].fingerprint == fp && !results[r.value].route.ArchiveDedup?
    ensures forall j :: (if r.Some? then r.value + 1 else 0) <= j < |results| && results[j].fingerprint == fp ==>
      results[j].route.ArchiveDedup?
  {
    if results == [] then None
    else if results[|results| - 1].fingerprint == fp && !results[|results| - 1].route.ArchiveDedup?
      then Some(|results| - 1)
    else Opener(results[..|results| - 1], fp)
  }

  /** How many results the fingerprint has from index k on. */
  function CountFrom(results: seq<ResultRow>, k: nat, fp: string): nat {
    if |results| <= k then 0
    else CountFrom(results[..|results| - 1], k, fp) + if results[|results| - 1].fingerprint == fp then 1 else 0
  }

  /** When the fingerprint was last seen. */
  function LastSeen(results: seq<ResultRow>, fp: string): Option<int> {
    if results == [] then None
    else if results[|results| - 1].fingerprint == fp then Some(results[|results| - 1].at)
    else LastSeen(results[..|results| - 1], fp)
  }

  /** The group describes the window opened by result k. */
  ghost predicate Describes(g: Group, results: seq<ResultRow>, k: nat, fp: string)
    requires k < |results|
  {
    && g.representative == Some(results[k].alert)
    && g.windowStart == results[k].at && g.windowEnd == results[k].at + results[k].window
    && g.count == CountFrom(results, k, fp) && Some(g.lastSeen) == LastSeen(results, fp)
  }

  ghost predicate GroupOk(db: Db, fp: string) {
    var k := Opener(db.results, fp);
    if k.None? then fp !in db.groups else fp in db.groups && Describes(db.groups[fp], db.results, k.value, fp)
  }

  /** Result k opened a window that contains result j. */
  ghost predicate Covers(results: seq<ResultRow>, k: nat, j: nat)
    requires k < j < |results|
  {
    && results[k].fingerprint == results[j].fingerprint && !results[k].route.ArchiveDedup?
    && results[k].at <= results[j].at <= results[k].at + results[k].window
  }

  /** Duplicates lie in the window of an earlier full triage; full triages of one fingerprint are
      strictly more than a window apart. */
  ghost predicate Windowed(results: seq<ResultRow>) {
    && (forall j :: 0 <= j < |results| && results[j].route.ArchiveDedup? ==>
      exists k :: 0 <= k < j && Covers(results, k, j))
    && (forall j, k ::
          0 <= j < k < |results| && results[j].fingerprint == results[k].fingerprint &&
            !results[j].route.ArchiveDedup? && !results[k].route.ArchiveDedup?
          ==> results[k].at > results[j].at + results[j].window)
  }

  ghost predicate InTimeOrder(results: seq<ResultRow>) {
    forall j, k :: 0 <= j < k < |results| ==> results[j].at <= results[k].at
  }

  ghost predicate DedupOk(db: Db) {
    && InTimeOrder(db.results) && Windowed(db.results)
    && forall fp :: GroupOk(db, fp)
  }

  lemma OpenerSnoc(results: seq<ResultRow>, r: ResultRow, fp: string)
    ensures Opener(results + [r], fp) == if r.fingerprint == fp && !r.route.ArchiveDedup? then Some(|results|)
      else Opener(results, fp)
  {
    assert (results + [r])[..|results|] == results;
  }

  lemma LastSeenSnoc(results: seq<ResultRow>, r: ResultRow, fp: string)
    ensures LastSeen(results + [r], fp) == if r.fingerprint == fp then Some(r.at) else LastSeen(results, fp)
  {
    assert (results + [r])[..|results|] == results;
  }

  lemma CountFromSnoc(results: seq<ResultRow>, r: ResultRow, k: nat, fp: string)
    requires k <= |results|
    ensures CountFrom(results + [r], k, fp) == CountFrom(results, k, fp) + if r.fingerprint == fp then 1 else 0
  {
    assert (results + [r])[..|results|] == results;
  }

  lemma AssessIsFull(alert: Alert, sig: Signals, cfg: Scoring.Config, calls: nat)
    ensures !Assess(alert, sig, cfg, calls).route.ArchiveDedup? && Assess(alert, sig, cfg, calls).score >= 0.0
  {
    if !sig.whitelisted {
      var hint := Scoring.HintScore(sig.profiles, sig.knowledge, cfg.hintCap);
      Scoring.RuleScoreNonNegative(alert.severity, sig.frequency, sig.asset,
        Scoring.CategoryScore(alert.category, cfg.weights), hint, cfg.discountCap);
    }
  }

  /** A row that continues the current window of its fingerprint, or opens a new one after it ended. */
  ghost predicate Extends(results: seq<ResultRow>, r: ResultRow) {
    var k := Opener(results, r.fingerprint);
    && (forall j :: 0 <= j < |results| ==> results[j].at <= r.at)
    && if r.route.ArchiveDedup? then k.Some? && r.at <= results[k.value].at + results[k.value].window
       else k.Some? ==> r.at > results[k.value].at + results[k.value].window
  }

  lemma WindowedSnoc(results: seq<ResultRow>, r: ResultRow)
    requires InTimeOrder(results) && Windowed(results) && Extends(results, r)
    ensures InTimeOrder(results + [r]) && Windowed(results + [r])
  {
    var all, n, k := results + [r], |results|, Opener(results, r.fingerprint);
    forall j | 0 <= j < |all| && all[j].route.ArchiveDedup? ensures exists i :: 0 <= i < j && Covers(all, i, j) {
      if j < n {
        var i :| 0 <= i < j && Covers(results, i, j);
        assert Covers(all, i, j);
      } else {
        assert Covers(all, k.value, j);
      }
    }
  }

  lemma GroupsFollow(db: Db, db': Db, r: ResultRow, fp: string)
    requires DedupOk(db) && db'.results == db.results + [r] && Extends(db.results, r)
    requires forall x :: x != r.fingerprint ==>
      (x in db'.groups <==> x in db.groups) && (x in db.groups ==> db'.groups[x] == db.groups[x])
    requires r.fingerprint in db'.groups
    requires var g := db'.groups[r.fingerprint];
      if r.route.ArchiveDedup? then r.fingerprint in db.groups &&
        g == db.groups[r.fingerprint].(count := db.groups[r.fingerprint].count + 1, lastSeen := r.at)
      else g == Group(r.at, r.at + r.window, r.at, 1, Some(r.alert))
    ensures GroupOk(db', fp)
  {
    assert GroupOk(db, fp) && GroupOk(db, r.fingerprint);
    OpenerSnoc(db.results, r, fp);
    LastSeenSnoc(db.results, r, fp);
    var k := Opener(db'.results, fp);
    if k.Some? { CountFromSnoc(db.results, r, k.value, fp); }
  }

  lemma TriageKeepsWindows(db: Db, a: nat, now: int, window: nat, sig: Signals, cfg: Scoring.Config, calls: nat)
    requires DedupOk(db) && a < |db.alerts|
    requires forall j :: 0 <= j < |db.results| ==> db.results[j].at <= now
    ensures DedupOk(TriageOne(db, a, now, window, sig, cfg, calls))
  {
    var db' := TriageOne(db, a, now, window, sig, cfg, calls);
    var r := db'.results[|db.results|];
    assert GroupOk(db, r.fingerprint);
    AssessIsFull(db.alerts[a], sig, cfg, calls);
    assert Extends(db.results, r);
    WindowedSnoc(db.results, r);
    forall fp ensures GroupOk(db', fp) { GroupsFollow(db, db', r, fp); }
  }

  // ---- event statistics ------------------------------------------------------------

  /** What an event knows of one linked alert. */
  datatype Member = Member(at: int, key: string, score: real, priority: int)

  function ResultOf(results: seq<ResultRow>, a: nat): (r: Option<nat>)
    ensures r.Some? ==> r.value < |results| && results[r.value].alert == a
    ensures r.None? ==> forall j :: 0 <= j < |results| ==> results[j].alert != a
  {
    if results == [] then None
    else if results[|results| - 1].alert == a then Some(|results| - 1)
    else ResultOf(results[..|results| - 1], a)
  }

  function MemberOf(alerts: seq<Alert>, results: seq<ResultRow>, a: nat, cfg: EventKey.Config): Option<Member> {
    var j := ResultOf(results, a);
    if a < |alerts| && j.Some?
    then Some(Member(alerts[a].occurredAt, Key(alerts[a], cfg), results[j.value].ruleScore,
      if results[j.value].route.QueueDeepReview? then 10 else if results[j.value].route.QueueUncertain? then 5 else 0))
    else None
  }

  /** The alerts linked to event e, in link order. */
  function Members(alerts: seq<Alert>, results: seq<ResultRow>, links: seq<Link>, e: nat,
    cfg: EventKey.Config): seq<Option<Member>> {
    if links == [] then [] else
    var l := links[|links| - 1];
    Members(alerts, results, links[..|links| - 1], e, cfg) + if l.event == e
      then [MemberOf(alerts, results, l.alert, cfg)] else []
  }

  /** The incremental fields of an event are what one would compute from its alerts. */
  ghost predicate StatsOf(ev: EventRow, ms: seq<Option<Member>>) {
    && ev.count == |ms| > 0 && ev.first.Some? && ev.last.Some? && 0 <= ev.priority <= 100
    && (forall i :: 0 <= i < |ms| ==> ms[i].Some? && Bounded(ev, ms[i].value))
    && (exists i :: 0 <= i < |ms| && ms[i].value.at == ev.first.value)
    && (exists i :: 0 <= i < |ms| && ms[i].value.at == ev.last.value)
    && (exists i :: 0 <= i < |ms| && ms[i].value.score == ev.risk)
  }

  ghost predicate Bounded(ev: EventRow, m: Member)
    requires ev.first.Some? && ev.last.Some?
  {
    ev.first.value <= m.at <= ev.last.value && m.score <= ev.risk && m.priority <= ev.priority && m.key == ev.key
  }

  ghost predicate EventsNamed(db: Db, cfg: EventKey.Config) {
    forall e :: 0 <= e < |db.events| ==> EventOk(db.events[e], e, cfg)
  }

  /** The event's window is the one its key names, and its related events are at most twenty others. */
  ghost predicate EventOk(ev: EventRow, e: nat, cfg: EventKey.Config) {
    && (exists d: EventKey.Dims :: d.windowStart == ev.windowStart && EventKey.KeyText(d, cfg) == ev.key)
    && Distinct(ev.related) && |ev.related| <= 20 && e !in ev.related
  }

  ghost predicate EventsOk(db: Db, cfg: EventKey.Config) {
    && EventsNamed(db, cfg)
    && (forall j :: 0 <= j < |db.results| ==> db.results[j].ruleScore >= 0.0)
    && (forall e :: 0 <= e < |db.events| ==> StatsOf(db.events[e], Members(db.alerts, db.results, db.links, e, cfg)))
  }

  /** One more alert, whatever came before it. */
  lemma AddKeepsStats(ev: EventRow, ms: seq<Option<Member>>, m: Member, route: Scoring.Route)
    requires StatsOf(ev, ms) || (ev == NewEvent(ev.key, ev.windowStart) && ms == [])
    requires m.key == ev.key && m.score >= 0.0 && m.priority == RoutePriority(route)
    ensures StatsOf(AddToStats(ev, m.at, m.score, route), ms + [Some(m)])
  {
    var ev', ms', n := AddToStats(ev, m.at, m.score, route), ms + [Some(m)], |ms|;
    assert ms'[n] == Some(m);
    if ms != [] {
      var i1 :| 0 <= i1 < n && ms[i1].value.at == ev.first.value;
      var i2 :| 0 <= i2 < n && ms[i2].value.at == ev.last.value;
      var i3 :| 0 <= i3 < n && ms[i3].value.score == ev.risk;
      assert ms'[i1] == ms[i1] && ms'[i2] == ms[i2] && ms'[i3] == ms[i3];
    }
  }

  lemma {:induction false} MembersSame(a1: seq<Alert>, r1: seq<ResultRow>, a2: seq<Alert>, r2: seq<ResultRow>,
    links: seq<Link>, e: nat, cfg: EventKey.Config)
    requires forall l :: 0 <= l < |links| ==>
      MemberOf(a1, r1, links[l].alert, cfg) == MemberOf(a2, r2, links[l].alert, cfg)
    ensures Members(a1, r1, links, e, cfg) == Members(a2, r2, links, e, cfg)
  {
    if links != [] { MembersSame(a1, r1, a2, r2, links[..|links| - 1], e, cfg); }
  }

  lemma {:induction false} NoMembers(alerts: seq<Alert>, results: seq<ResultRow>, links: seq<Link>, e: nat,
    cfg: EventKey.Config)
    requires forall l :: 0 <= l < |links| ==> links[l].event != e
    ensures Members(alerts, results, links, e, cfg) == []
  {
    if links != [] { NoMembers(alerts, results, links[..|links| - 1], e, cfg); }
  }

  /** Triage changes no alert that is already linked. */
  lemma TriageKeepsMembers(db: Db, a: nat, now: int, window: nat, sig: Signals, cfg: Scoring.Config, calls: nat, e: nat,
    agg: EventKey.Config)
    requires Conserved(db) && Waiting(db, a)
    ensures var db' := TriageOne(db, a, now, window, sig, cfg, calls);
      Members(db'.alerts, db'.results, db'.links, e, agg) == Members(db.alerts, db.results, db.links, e, agg)
  {
    var db' := TriageOne(db, a, now, window, sig, cfg, calls);
    assert Placed(db, a);
    forall l | 0 <= l < |db.links|
      ensures MemberOf(db'.alerts, db'.results, db.links[l].alert, agg) ==
        MemberOf(db.alerts, db.results, db.links[l].alert, agg) {
      assert db.links[l].alert != a;
      assert db'.results[..|db.results|] == db.results;
    }
    MembersSame(db'.alerts, db'.results, db.alerts, db.results, db.links, e, agg);
  }

  lemma TriageKeepsStats(db: Db, a: nat, now: int, window: nat, sig: Signals, cfg: Scoring.Config, calls: nat,
    agg: EventKey.Config)
    requires Conserved(db) && EventsOk(db, agg) && Waiting(db, a)
    ensures EventsOk(TriageOne(db, a, now, window, sig, cfg, calls), agg)
  {
    AssessIsFull(db.alerts[a], sig, cfg, calls);
    forall e | 0 <= e < |db.events| ensures
      var db' := TriageOne(db, a, now, window, sig, cfg, calls);
      StatsOf(db'.events[e], Members(db'.alerts, db'.results, db'.links, e, agg))
    {
      TriageKeepsMembers(db, a, now, window, sig, cfg, calls, e, agg);
    }
  }

  /** Aggregation adds its alert to the members of one event and changes no other membership. */
  lemma AggregationAddsMember(db: Db, j: nat, e: nat, cfg: EventKey.Config)
    requires Conserved(db) && Linkable(db, j)
    ensures var db' := AggregateOne(db, j, cfg);
      var (a, before) := (db.results[j].alert, Members(db.alerts, db.results, db.links, e, cfg));
      Members(db'.alerts, db'.results, db'.links, e, cfg) ==
        if e == db'.links[|db.links|].event
        then before + [Some(Member(db.alerts[a].occurredAt, Key(db.alerts[a], cfg), db.results[j].ruleScore,
          RoutePriority(db.results[j].route)))]
        else before
  {
    var db' := AggregateOne(db, j, cfg);
    MembersSame(db'.alerts, db.results, db.alerts, db.results, db.links, e, cfg);
    MembersSnoc(db'.alerts, db.results, db.links, db'.links[|db.links|], e, cfg);
    ResultOfUnique(db, j);
  }

  lemma ResultOfUnique(db: Db, j: nat)
    requires Conserved(db) && j < |db.results|
    ensures ResultOf(db.results, db.results[j].alert) == Some(j)
  {
  }

  lemma MembersSnoc(alerts: seq<Alert>, results: seq<ResultRow>, links: seq<Link>, l: Link, e: nat,
    cfg: EventKey.Config)
    ensures Members(alerts, results, links + [l], e, cfg) ==
      Members(alerts, results, links, e, cfg) + (if l.event == e then [MemberOf(alerts, results, l.alert, cfg)] else [])
  {
    assert (links + [l])[..|links|] == links;
  }

  lemma AggregationKeepsNames(db: Db, j: nat, cfg: EventKey.Config)
    requires EventsNamed(db, cfg) && j < |db.results| && db.results[j].alert < |db.alerts|
    ensures EventsNamed(AggregateOne(db, j, cfg), cfg)
  {
    var db' := AggregateOne(db, j, cfg);
    forall e | 0 <= e < |db'.events| ensures EventOk(db'.events[e], e, cfg) {
      if e < |db.events| {
        assert EventOk(db.events[e], e, cfg);
      } else {
        var d := Dims(db.alerts[db.results[j].alert], cfg);
        assert d.windowStart == db'.events[e].windowStart && EventKey.KeyText(d, cfg) == db'.events[e].key;
      }
    }
  }

  /** The event that takes the alert of result j in has the statistics of its members. */
  lemma TargetStats(db: Db, j: nat, e: nat, cfg: EventKey.Config)
    requires Conserved(db) && EventsOk(db, cfg) && Linkable(db, j)
    requires e == AggregateOne(db, j, cfg).links[|db.links|].event
    ensures var db' := AggregateOne(db, j, cfg);
      e < |db'.events| && StatsOf(db'.events[e], Members(db'.alerts, db'.results, db'.links, e, cfg))
  {
    var r := db.results[j];
    var m := Member(db.alerts[r.alert].occurredAt, Key(db.alerts[r.alert], cfg), r.ruleScore, RoutePriority(r.route));
    var before := Members(db.alerts, db.results, db.links, e, cfg);
    AggregationAddsMember(db, j, e, cfg);
    if e == |db.events| {
      NoMembers(db.alerts, db.results, db.links, e, cfg);
      AddKeepsStats(NewEvent(m.key, Dims(db.alerts[r.alert], cfg).windowStart), before, m, r.route);
    } else {
      AddKeepsStats(db.events[e], before, m, r.route);
    }
  }

  lemma AggregationKeepsStats(db: Db, j: nat, cfg: EventKey.Config)
    requires Conserved(db) && EventsOk(db, cfg) && Linkable(db, j)
    ensures EventsOk(AggregateOne(db, j, cfg), cfg)
  {
    var db' := AggregateOne(db, j, cfg);
    AggregationKeepsNames(db, j, cfg);
    forall e | 0 <= e < |db'.events|
      ensures StatsOf(db'.events[e], Members(db'.alerts, db'.results, db'.links, e, cfg)) {
      if e == db'.links[|db.links|].event {
        TargetStats(db, j, e, cfg);
      } else {
        AggregationAddsMember(db, j, e, cfg);
      }
    }
  }

  // ---- audit samples -------------------------------------------------------------------

  predicate Sampled(db: Db, a: nat) {
    exists j :: 0 <= j < |db.results| && db.results[j].alert == a && db.results[j].route.SampleAudit?
  }

  /** The alerts drawn for audit are exactly those routed to it, each once. */
  ghost predicate SamplesOk(db: Db) {
    Distinct(db.samples) && forall a :: a in db.samples <==> Sampled(db, a)
  }

  lemma TriageKeepsSamples(db: Db, a: nat, now: int, window: nat, sig: Signals, cfg: Scoring.Config, calls: nat)
    requires SamplesOk(db) && Waiting(db, a)
    ensures SamplesOk(TriageOne(db, a, now, window, sig, cfg, calls))
  {
    var db', n := TriageOne(db, a, now, window, sig, cfg, calls), |db.results|;
    assert a !in db.samples;
    forall x ensures x in db'.samples <==> Sampled(db', x) {
      assert db'.results[n].alert == a;
      if Sampled(db, x) {
        var j :| 0 <= j < n && db.results[j].alert == x && db.results[j].route.SampleAudit?;
        assert db'.results[j] == db.results[j];
      }
    }
  }

  // ---- all together ------------------------------------------------------------------

  ghost predicate Inv(db: Db, cfg: EventKey.Config) {
    Conserved(db) && DedupOk(db) && EventsOk(db, cfg) && SamplesOk(db)
  }
}
