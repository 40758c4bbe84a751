/** Triage and aggregation as the program runs them: handlers that fill one mutable context and
    write to the working session, one transaction per item. */
module AlertServices {
  import opened Wrappers
  import Scoring
  import EventKey
  import opened Alerts
  import opened AlertRuns
  import opened ModelCalls

  /** The language model's client, with the number of requests it has sent. */
  class LlmClient {
    var sent: nat

    constructor ()
      ensures sent == 0
    {
      sent := 0;
    }

    /** One prompt; no answer comes back when the request fails. */
    method Complete(answer: Option<real>) returns (score: Option<real>)
      modifies this
      ensures score == answer && sent == old(sent) + 1
    {
      sent := sent + 1;
      score := answer;
    }
  }

  /** What the handlers pass along for one alert. */
  class Context {
    const id: nat
    const alert: Alert
    var representative: bool
    var shortCircuit: bool
    var hint: real
    var ruleScore: real
    var effective: real
    var route: Option<Scoring.Route>

    constructor (id: nat, alert: Alert)
      ensures this.id == id && this.alert == alert && representative && !shortCircuit
      ensures hint == ruleScore == effective == 0.0 && route.None?
    {
      this.id, this.alert := id, alert;
      representative, shortCircuit, hint, ruleScore, effective, route := true, false, 0.0, 0.0, 0.0, None;
    }

    /** Applies a matching whitelist rule (app/triage/handlers/whitelist.py). */
    method Whitelist(matched: bool)
      modifies this
      ensures hint == old(hint) && ruleScore == old(ruleScore) && effective == old(effective) &&
        representative == old(representative)
      ensures var hit := !old(shortCircuit) && matched;
        shortCircuit == (old(shortCircuit) || hit) && route == if hit then Some(Scoring.ArchiveWhitelist)
          else old(route)
    {
      if shortCircuit { return; }
      if matched {
        shortCircuit := true;
        route := Some(Scoring.ArchiveWhitelist);
      }
    }

    /** Accumulates profile hints, capped (app/triage/handlers/profile_hint.py). */
    method ProfileHint(profiles: seq<Option<Scoring.Profile>>, knowledge: seq<bool>, cap: real)
      modifies this`hint
      ensures hint == if shortCircuit then old(hint) else Scoring.HintScore(profiles, knowledge, cap)
    {
      if shortCircuit { return; }
      var score := 0.0;
      var i := 0;
      while i < |profiles|
        invariant 0 <= i <= |profiles| && score == Scoring.ProfileHints(profiles[..i])
      {
        assert profiles[..i + 1][..i] == profiles[..i];
        if profiles[i].Some? {
          var p := profiles[i].value;
          ghost var before := score;
          if p.scanner { score := score + 8.0; }
          if p.jumpHost { score := score + 5.0; }
          if p.decommissioned { score := score + 10.0; }
          var m := 0;
          while m < |p.memories|
            invariant 0 <= m <= |p.memories|
            invariant score == before + Scoring.FlagHints(p) + Scoring.MemoryHints(p.memories[..m])
          {
            assert p.memories[..m + 1][..m] == p.memories[..m];
            var (confidence, expired) := p.memories[m];
            if !expired {
              var bonus := if confidence * 5.0 < 5.0 then confidence * 5.0 else 5.0;
              if bonus > 0.0 { score := score + bonus; }
            }
            m := m + 1;
          }
          assert p.memories[..|p.memories|] == p.memories;
        }
        i := i + 1;
      }
      assert profiles[..|profiles|] == profiles;
      var k := 0;
      while k < |knowledge|
        invariant 0 <= k <= |knowledge| && true !in knowledge[..k] && score == Scoring.ProfileHints(profiles)
      {
        if knowledge[k] {
          score := score + 5.0;
          break;
        }
        k := k + 1;
      }
      assert true in knowledge <==> k < |knowledge|;
      hint := if score < cap then score else cap;
    }

    method RuleScore(sig: Signals, cfg: Scoring.Config)
      modifies this`ruleScore, this`effective
      ensures shortCircuit ==> ruleScore == old(ruleScore) && effective == old(effective)
      ensures !shortCircuit ==> effective == ruleScore && ruleScore == Scoring.RuleScore(
        alert.severity, sig.frequency, sig.asset, Scoring.CategoryScore(alert.category, cfg.weights), hint,
          cfg.discountCap)
    {
      if shortCircuit { return; }
      var severity, frequency := Scoring.SeverityScore(alert.severity), Scoring.FrequencyScore(sig.frequency);
      var asset, category := Scoring.AssetScore(sig.asset), Scoring.CategoryScore(alert.category, cfg.weights);
      var score := severity * 0.4 + frequency * 0.3 + asset * 0.2 + category * 0.1;
      var discount := if hint * 0.3 < cfg.discountCap then hint * 0.3 else cfg.discountCap;
      score := if score - discount > 0.0 then score - discount else 0.0;
      ruleScore := Scoring.Round2(score);
      effective := ruleScore;
    }

    /** Asks the model, or its cache, about an alert whose predicted route is of interest; `calls` counts
        the calls answered in this batch. */
    method LlmAssist(client: LlmClient, cached: Option<real>, answer: Option<real>, cfg: Scoring.Config, calls: nat)
      returns (calls': nat)
      requires effective == ruleScore
      modifies this`effective, client
      ensures client.sent == old(client.sent) +
        if !shortCircuit && Scoring.MayAsk(ruleScore, cfg, calls) && cached.None? then 1 else 0
      ensures shortCircuit ==> effective == old(effective) && calls' == calls
      ensures !shortCircuit ==>
        var (llm, c) := Scoring.Assist(ruleScore, cached, answer, cfg, calls);
        calls' == c && effective == if llm.Some? then Scoring.Blend(ruleScore, llm.value, cfg.llmWeight) else ruleScore
    {
      calls' := calls;
      if shortCircuit { return; }
      if !cfg.llmEnabled { return; }
      var predicted := Scoring.PredictRoute(effective, cfg);
      if cfg.filter != {} && Scoring.RouteName(predicted) !in cfg.filter { return; }
      if calls >= cfg.maxCalls { return; }
      var score := cached;
      if score.None? {
        score := client.Complete(answer);
        if score.Some? { calls' := calls + 1; }
      }
      if score.Some? {
        effective := Scoring.Blend(ruleScore, score.value, cfg.llmWeight);
      }
    }

    /** The handlers between the duplicate check and the router. */
    method Score(client: LlmClient, sig: Signals, cfg: Scoring.Config, calls: nat) returns (calls': nat)
      requires hint == ruleScore == effective == 0.0 && (shortCircuit <==> route.Some?)
      modifies this, client
      ensures client.sent == old(client.sent) +
        if !old(shortCircuit) && Eligible(alert, sig, cfg) && calls < cfg.maxCalls then 1 else 0
      ensures representative == old(representative)
      ensures old(shortCircuit) ==> route == old(route) && ruleScore == 0.0 && calls' == calls
      ensures !old(shortCircuit) ==>
        var o := Assess(alert, sig, cfg, calls);
        && ruleScore == o.score && calls' == o.calls
        && o.route == if route.Some? then route.value else Scoring.RouteFor(effective, cfg, sig.sampled)
    {
      Whitelist(sig.whitelisted);
      ProfileHint(sig.profiles, sig.knowledge, cfg.hintCap);
      RuleScore(sig, cfg);
      calls' := LlmAssist(client, sig.cached, sig.answer, cfg, calls);
    }

    method ChooseRoute(sampled: bool, cfg: Scoring.Config)
      modifies this`route
      ensures route == if old(route).Some? then old(route) else Some(Scoring.RouteFor(effective, cfg, sampled))
      ensures var banded := cfg.bandLow <= effective && effective < cfg.bandHigh;
        old(route).None? ==>
          && (route == Some(Scoring.QueueDeepReview) <==> effective >= cfg.deep)
          && (route == Some(Scoring.QueueUncertain) <==> effective < cfg.deep && (banded || effective >= cfg.low))
          && (route == Some(if sampled then Scoring.SampleAudit else Scoring.ArchiveLowRisk) <==>
                effective < cfg.deep && !banded && effective < cfg.low)
    {
      if route.Some? { return; }
      if effective >= cfg.deep {
        route := Some(Scoring.QueueDeepReview);
      } else if cfg.bandLow <= effective < cfg.bandHigh {
        route := Some(Scoring.QueueUncertain);
      } else if effective < cfg.low {
        route := Some(if sampled then Scoring.SampleAudit else Scoring.ArchiveLowRisk);
      } else {
        route := Some(Scoring.QueueUncertain);
      }
    }
  }

  class Service {
    const session: Session<Db>
    const client: LlmClient

    constructor (session: Session<Db>, client: LlmClient)
      ensures this.session == session && this.client == client
    {
      this.session, this.client := session, client;
    }

    /** The duplicate check opens, extends or hits the group's window in place. */
    method CheckForDuplicate(ctx: Context, now: int, window: nat)
      requires ctx.route.None? && !ctx.shortCircuit
      modifies session`working, ctx
      ensures var check := CheckDuplicate(GroupOf(old(session.working).groups, ctx.alert.fingerprint), now, window);
        && session.working == old(session.working).(groups :=
          old(session.working).groups[ctx.alert.fingerprint := check.group])
        && ctx.representative == check.Lead? && ctx.shortCircuit == check.Duplicate?
        && ctx.route == if check.Duplicate? then Some(Scoring.ArchiveDedup) else None
      ensures ctx.hint == old(ctx.hint) && ctx.ruleScore == old(ctx.ruleScore) && ctx.effective == old(ctx.effective)
    {
      var fp := ctx.alert.fingerprint;
      if fp !in session.working.groups {
        session.working := session.working.(groups :=
          session.working.groups[fp := Group(now, now + window, now, 1, None)]);
        ctx.representative := true;
        return;
      }
      var g := session.working.groups[fp];
      if g.windowEnd >= now && g.representative.Some? {
        g := g.(count := g.count + 1, lastSeen := now);
        ctx.representative, ctx.shortCircuit, ctx.route := false, true, Some(Scoring.ArchiveDedup);
      } else {
        if g.windowEnd < now {
          g := Group(now, now + window, now, 1, None);
        }
        g := g.(lastSeen := now);
        ctx.representative := true;
      }
      session.working := session.working.(groups := session.working.groups[fp := g]);
    }

    /** Writes the result, the alert's status and, for a new window, its representative; an alert drawn
        for audit is also listed as a sample. */
    method Persist(ctx: Context, now: int, window: nat)
      requires ctx.route.Some? && ctx.id < |session.working.alerts| && ctx.alert == session.working.alerts[ctx.id]
      requires ctx.alert.fingerprint in session.working.groups
      modifies session`working
      ensures var w, route := old(session.working), ctx.route.value;
        var g := w.groups[ctx.alert.fingerprint];
        session.working == w.(
          results := w.results + [ResultRow(ctx.id, ctx.alert.fingerprint, route, ctx.ruleScore, now, window)],
          alerts := w.alerts[ctx.id := ctx.alert.(status := StatusFor(route))],
          samples := if route.SampleAudit? then w.samples + [ctx.id] else w.samples,
          groups := w.groups[ctx.alert.fingerprint :=
            if ctx.representative && g.representative.None? then g.(representative := Some(ctx.id)) else g])
    {
      var fp, route := ctx.alert.fingerprint, ctx.route.value;
      var row := ResultRow(ctx.id, fp, route, ctx.ruleScore, now, window);
      session.working := session.working.(results := session.working.results + [row]);
      var archived := {Scoring.ArchiveLowRisk, Scoring.ArchiveWhitelist, Scoring.ArchiveDedup, Scoring.SampleAudit};
      var alert := ctx.alert.(status := if route in archived then Archived else Triaged);
      session.working := session.working.(alerts := session.working.alerts[ctx.id := alert]);
      var g := session.working.groups[fp];
      if ctx.representative && g.representative.None? {
        g := g.(representative := Some(ctx.id));
      }
      session.working := session.working.(groups := session.working.groups[fp := g]);
      if route.SampleAudit? {
        session.working := session.working.(samples := session.working.samples + [ctx.id]);
      }
    }

    /** The handlers in their order. An exception before the model is asked, or after, leaves what has
        been written so far. */
    method RunPipeline(it: TriageItem, window: nat, cfg: Scoring.Config, calls: nat) returns (raised: bool, calls': nat)
      requires it.alert < |session.working.alerts|
      modifies session`working, client
      ensures client.sent == old(client.sent) + if Sends(old(session.working), it, window, cfg, calls) then 1 else 0
      ensures raised <==> !it.fault.NoFault?
      ensures calls' == CallsAfter(old(session.working), it, window, cfg, calls)
      ensures !raised ==>
        session.working == TriageOne(old(session.working), it.alert, it.now, window, it.signals, cfg, calls)
    {
      var sig := it.signals;
      var ctx := new Context(it.alert, session.working.alerts[it.alert]);
      CheckForDuplicate(ctx, it.now, window);
      if it.fault.BeforeModel? { return true, calls; }
      calls' := ctx.Score(client, sig, cfg, calls);
      if it.fault.AfterModel? { return true, calls'; }
      ctx.ChooseRoute(sig.sampled, cfg);
      Persist(ctx, it.now, window);
      return false, calls';
    }

    /** One triage batch: a transaction per alert. The count of model calls is the batch's own. */
    method RunTriage(window: nat, cfg: Scoring.Config, items: seq<TriageItem>) returns (processed: nat, errors: nat)
      requires session.working == session.committed
      requires forall i :: 0 <= i < |items| ==> items[i].alert < |session.committed.alerts|
      modifies session, client
      ensures session.working == session.committed == TriageAll(old(session.committed), window, cfg, items, 0).0
      ensures client.sent == old(client.sent) + Requests(old(session.committed), window, cfg, items, 0).0
      ensures processed + errors == |items|
      ensures |session.committed.results| == |old(session.committed).results| + processed
    {
      processed, errors := 0, 0;
      var calls, i := 0, 0;
      while i < |items|
        invariant 0 <= i <= |items| && processed + errors == i && session.working == session.committed
        invariant |session.committed.alerts| == |old(session.committed).alerts|
        invariant |session.committed.results| == |old(session.committed).results| + processed
        invariant TriageAll(session.committed, window, cfg, items[i..], calls) ==
          TriageAll(old(session.committed), window, cfg, items, 0)
        invariant client.sent + Requests(session.committed, window, cfg, items[i..], calls).0 ==
          old(client.sent) + Requests(old(session.committed), window, cfg, items, 0).0
      {
        assert items[i..][0] == items[i] && items[i..][1..] == items[i + 1..];
        var raised;
        raised, calls := RunPipeline(items[i], window, cfg, calls);
        if raised {
          session.Rollback();
          errors := errors + 1;
        } else {
          session.Commit();
          processed := processed + 1;
        }
        i := i + 1;
      }
    }

    /** Links one triaged alert to the event of its key; tells whether the event is new. */
    method Aggregate(j: nat, agg: EventKey.Config) returns (created: bool)
      requires j < |session.working.results| && session.working.results[j].alert < |session.working.alerts|
      modifies session`working
      ensures session.working == AggregateOne(old(session.working), j, agg)
      ensures created <==> |session.working.events| > |old(session.working).events|
    {
      var r := session.working.results[j];
      var alert := session.working.alerts[r.alert];
      var key := Key(alert, agg);
      var found := MergeTarget(session.working.events, key);
      created := found.None?;
      var e := if created then |session.working.events| else found.value;
      if created {
        session.working := session.working.(events := session.working.events +
          [NewEvent(key, Dims(alert, agg).windowStart)]);
      }
      session.working := session.working.(links := session.working.links + [Link(e, r.alert)]);
      session.working := session.working.(alerts := session.working.alerts[r.alert := alert.(status := EventLinked)]);
      var ev := session.working.events[e];
      ev := ev.(count := ev.count + 1);
      ev := ev.(first := Some(if ev.first.None? then alert.occurredAt else Min(ev.first.value, alert.occurredAt)));
      ev := ev.(last := Some(if ev.last.None? then alert.occurredAt else Max(ev.last.value, alert.occurredAt)));
      ev := ev.(risk := if ev.risk >= r.ruleScore then ev.risk else r.ruleScore);
      ev := ev.(priority := Max(ev.priority, RoutePriority(r.route)));
      session.working := session.working.(events := session.working.events[e := ev]);
    }

    /** One pending alert in its own transaction. */
    method AggregateItem(it: AggregationItem, agg: EventKey.Config) returns (created: nat, merged: nat)
      requires session.working == session.committed && Known(session.committed, it.result)
      modifies session
      ensures session.working == session.committed
      ensures session.committed == if it.fails then old(session.committed)
        else AggregateOne(old(session.committed), it.result, agg)
      ensures |session.committed.events| == |old(session.committed).events| + created
      ensures |session.committed.links| == |old(session.committed).links| + created + merged
      ensures created + merged == if it.fails then 0 else 1
    {
      created, merged := 0, 0;
      var isNew := Aggregate(it.result, agg);
      if it.fails {
        session.Rollback();
      } else {
        session.Commit();
        if isNew { created := 1; } else { merged := 1; }
      }
    }

    /** One aggregation batch: a transaction per alert. */
    method RunAggregation(items: seq<AggregationItem>, agg: EventKey.Config) returns (created: nat, merged: nat,
      errors: nat)
      requires session.working == session.committed
      requires forall i :: 0 <= i < |items| ==> Known(session.committed, items[i].result)
      modifies session
      ensures session.working == session.committed == AggregateAll(old(session.committed), items, agg)
      ensures |session.committed.events| == |old(session.committed).events| + created
      ensures |session.committed.links| == |old(session.committed).links| + created + merged
      ensures created + merged + errors == |items|
    {
      created, merged, errors := 0, 0, 0;
      var i := 0;
      while i < |items|
        invariant 0 <= i <= |items| && session.working == session.committed && created + merged + errors == i
        invariant forall k :: 0 <= k < |items| ==> Known(session.committed, items[k].result)
        invariant |session.committed.events| == |old(session.committed).events| + created
        invariant |session.committed.links| == |old(session.committed).links| + created + merged
        invariant AggregateAll(session.committed, items[i..], agg) == AggregateAll(old(session.committed), items, agg)
      {
        assert items[i..][0] == items[i] && items[i..][1..] == items[i + 1..];
        var c, m := AggregateItem(items[i], agg);
        created, merged := created + c, merged + m;
        if items[i].fails { errors := errors + 1; }
        i := i + 1;
      }
    }

    /** The event under investigation moves up when the search found other events beside it, and lists
        the first twenty of them. */
    method RaiseOnCorrelation(e: nat, found: seq<nat>, key: string, autoRaise: bool) returns (raised: bool)
      requires e < |session.working.events|
      modifies session`working
      ensures raised <==> autoRaise && |found| > 1 && exists k :: 0 <= k < |found| && found[k] != e
      ensures session.working == if raised then Correlate(old(session.working), e, found, key) else old(session.working)
    {
      if !autoRaise || |found| <= 1 { return false; }
      var ev := session.working.events[e];
      var other, merged, i := false, ev.related, 0;
      while i < |found|
        invariant 0 <= i <= |found| && (other <==> exists k :: 0 <= k < i && found[k] != e)
        invariant MergeRelated(merged, found[i..], e) == MergeRelated(ev.related, found, e)
      {
        assert found[i..][0] == found[i] && found[i..][1..] == found[i + 1..];
        if found[i] != e {
          other := true;
          if found[i] !in merged { merged := merged + [found[i]]; }
        }
        i := i + 1;
      }
      if !other { return false; }
      ev := ev.(priority := Min(ev.priority + 1, 100));
      ev := ev.(correlation := Some(key));
      ev := ev.(related := if |merged| > 20 then merged[..20] else merged);
      session.working := session.working.(events := session.working.events[e := ev]);
      return true;
    }
  }
}
