/** The services as the program runs them: loops over the working session, with commit and rollback. */
module CaseServices {
  import opened Wrappers
  import Closure
  import AgentLoop
  import ReviewTag
  import opened Cases
  import opened CaseInvariants
  import opened CaseRuns
  import CaseOutcomes

  /** The Redis keys of the daily budget, with the days on which they expire, and the re-investigation
      markers. */
  class Redis {
    var counts: map<int, nat>
    var expires: map<int, int>
    var markers: set<nat>

    constructor ()
      ensures counts == map[] && expires == map[] && markers == {}
    {
      counts, expires, markers := map[], map[], {};
    }

    /** Every counter expires two days after its day. */
    ghost predicate Timed()
      reads this`counts, this`expires
    {
      expires.Keys == counts.Keys && forall day :: day in expires ==> expires[day] == day + 2
    }

    /** The first count of a day lets its key expire two days later. */
    method IncrementDailyCount(day: int)
      modifies this`counts, this`expires
      ensures old(Timed()) ==> Timed()
      ensures counts == old(counts)[day := CountOn(old(counts), day) + 1]
      ensures expires == if CountOn(old(counts), day) == 0 then old(expires)[day := day + 2] else old(expires)
    {
      var count := (if day in counts then counts[day] else 0) + 1;
      counts := counts[day := count];
      if count == 1 {
        expires := expires[day := day + 2];
      }
    }

    /** Redis drops a counter whose time has come. */
    method Drop(day: int, today: int)
      requires day in expires && expires[day] <= today
      modifies this`counts, this`expires
      ensures old(Timed()) ==> Timed() && day + 2 <= today
      ensures counts == old(counts) - {day} && expires == old(expires) - {day}
    {
      counts, expires := counts - {day}, expires - {day};
    }

    method BudgetRemaining(day: int, budget: int) returns (r: int)
      ensures r == Remaining(counts, day, budget)
    {
      r := Max(0, budget - (if day in counts then counts[day] else 0));
    }

    method MarkReinvestigation(e: nat)
      modifies this`markers
      ensures markers == old(markers) + {e}
    {
      markers := markers + {e};
    }

    method ConsumeSkipBudget(e: nat) returns (had: bool)
      modifies this`markers
      ensures had <==> e in old(markers)
      ensures markers == old(markers) - {e}
    {
      had := e in markers;
      markers := markers - {e};
    }

    method Charge(e: nat, day: int)
      modifies this
      ensures old(Timed()) ==> Timed()
      ensures (counts, markers) == ChargeKeys(old(counts), old(markers), e, day)
      ensures markers == old(markers) - {e}
      ensures counts == if e in old(markers) then old(counts)
        else old(counts)[day := (if day in old(counts) then old(counts)[day] else 0) + 1]
    {
      var skipped := ConsumeSkipBudget(e);
      if !skipped {
        assert markers == old(markers);
        IncrementDailyCount(day);
      }
    }
  }

  /** The first n rows of `before` have been replaced by those of `after`. */
  ghost predicate Rewritten(before: seq<ReqRow>, after: seq<ReqRow>, rows: seq<ReqRow>, n: nat) {
    && |before| == |after| == |rows| && n <= |rows|
    && (forall j :: 0 <= j < n ==> rows[j] == after[j])
    && (forall j :: n <= j < |rows| ==> rows[j] == before[j])
  }

  /** How many targets were settled without an exception. */
  function Unharmed(targets: seq<Target>, faults: nat -> SettleFault): nat {
    if targets == [] then 0 else (if faults(targets[0].event) == NoFault then 1 else 0) + Unharmed(targets[1..], faults)
  }

  function Succeeded(picks: seq<Pick>): nat {
    if picks == [] then 0 else (if picks[0].fault.Fine? then 1 else 0) + Succeeded(picks[1..])
  }

  function Delivered(sends: seq<Send>): nat {
    if sends == [] then 0 else (if sends[0].delivered then 1 else 0) + Delivered(sends[1..])
  }

  /** How many rows among the first n have changed. */
  function Changes(before: seq<ReqRow>, after: seq<ReqRow>, n: nat): nat
    requires n <= |before| == |after|
  {
    if n == 0 then 0 else Changes(before, after, n - 1) + if before[n - 1] != after[n - 1] then 1 else 0
  }

  /** The case tables and Redis behind one service call; `lastDay` is the newest day used as a counter key. */
  class Backend {
    const session: Session<Db>
    const redis: Redis
    var lastDay: int

    constructor (session: Session<Db>, redis: Redis, today: int)
      ensures this.session == session && this.redis == redis && lastDay == today
    {
      this.session, this.redis, lastDay := session, redis, today;
    }

    ghost function Now(): World
      reads this, session, redis
    {
      World(session.committed, redis.counts, redis.markers, lastDay)
    }

    /** A session with nothing uncommitted. */
    ghost predicate Clean()
      reads session
    {
      session.working == session.committed
    }

    // ---- app/agent/orchestrator.py ------------------------------------------------

    /** Investigates one event in the working session. When the investigation raises, the session is
        left with a running investigation and an event under investigation, for the caller to roll back. */
    method InvestigateEvent(s: Settings, pick: Pick) returns (raised: bool)
      requires pick.event < |session.working.events|
      modifies session`working
      ensures raised <==> pick.fault.InInvestigation?
      ensures !raised ==>
        && session.working == Investigate(old(session.working), pick.event, EnvOf(s, pick), s.supervisor, pick.end)
        && |session.working.events| == |old(session.working).events|
        && session.working.events[pick.event].probe == old(session.working.events[pick.event].probe)
    {
      var e, env := pick.event, EnvOf(s, pick);
      var current := |session.working.invs|;
      var opened' := InvRow(e, AgentLoop.Running, None, None,
        Evidence(pick.template, s.loop.closure, [], s.supervisor, pick.end.auditPassed));
      session.working := session.working.(invs := session.working.invs + [opened']);
      session.working := WithStatus(session.working, e, Investigating);
      if pick.fault.InInvestigation? { return true; }

      var loop := new AgentLoop.Loop(env);
      var o := loop.RunAll();
      var conclusion, status := o.conclusion, o.status;
      if s.supervisor.enabled && s.supervisor.block && !pick.end.auditPassed {
        conclusion, status := Closure.Degraded, AgentLoop.NeedsHuman;
      }
      if EventStatusFor(conclusion) == HumanPending { status := AgentLoop.NeedsHuman; }
      var row := InvRow(e, status, Some(pick.end.at), Some(conclusion),
        Evidence(pick.template, s.loop.closure, loop.toolRows, s.supervisor, pick.end.auditPassed));
      assert row == Result(e, env, s.supervisor, pick.end);
      FinishInvestigation(row, current, old(session.working));
      return false;
    }

    /** The writes after the loop, on tables that hold the running investigation already. */
    method FinishInvestigation(row: InvRow, current: nat, ghost before: Db)
      requires row.event < |before.events| && row.conclusion.Some? && current == |before.invs|
      requires exists running ::
        session.working == WithStatus(before, row.event, Investigating).(invs := before.invs + [running])
      modifies session`working
      ensures session.working == Conclude(before, row)
      ensures |session.working.events| == |before.events|
      ensures session.working.events[row.event].probe == before.events[row.event].probe
    {
      var e, conclusion := row.event, row.conclusion.value;
      session.working := WithStatus(session.working, e, EventStatusFor(conclusion));
      session.working := session.working.(invs := session.working.invs[current := row]);
      CancelObsoleteReviews(e, current, EventStatusFor(conclusion));
      if conclusion.action.Some? && conclusion.action.value != "" {
        session.working := session.working.(disps := session.working.disps + [DispRow(current, Suggested)]);
      }
    }

    method CancelObsoleteReviews(e: nat, current: nat, status: EventStatus)
      modifies session`working
      ensures session.working ==
        old(session.working).(reqs := CancelObsoleteFor(old(session.working).reqs, e, current, status))
    {
      var i := 0;
      while i < |session.working.reqs|
        invariant 0 <= i <= |session.working.reqs| == |old(session.working).reqs|
        invariant session.working == old(session.working).(reqs := session.working.reqs)
        invariant Rewritten(old(session.working).reqs,
          CancelObsoleteFor(old(session.working).reqs, e, current, status), session.working.reqs, i)
      {
        var req := session.working.reqs[i];
        if req.event == e && req.status.Sent? {
          if status != HumanPending || req.inv != current {
            session.working := session.working.(reqs := session.working.reqs[i := req.(status := Cancelled)]);
          }
        }
        i := i + 1;
      }
    }

    /** One batch over the events that were picked. */
    method RunInvestigations(s: Settings, picks: seq<Pick>) returns (processed: nat, errors: nat)
      requires Clean() && forall i :: 0 <= i < |picks| ==> picks[i].event < |session.committed.events|
      modifies this, session, redis
      ensures Clean() && Now() == ProcessAll(old(Now()), s, picks) && (old(redis.Timed()) ==> redis.Timed())
      ensures processed + errors == |picks| && processed == Succeeded(picks)
    {
      processed, errors := 0, 0;
      var i := 0;
      while i < |picks|
        invariant 0 <= i <= |picks| && processed + errors == i && Clean() && (old(redis.Timed()) ==> redis.Timed())
        invariant |session.committed.events| == |old(session.committed).events|
        invariant ProcessAll(Now(), s, picks[i..]) == ProcessAll(old(Now()), s, picks)
        invariant processed + Succeeded(picks[i..]) == Succeeded(picks)
      {
        assert picks[i..][0] == picks[i] && picks[i..][1..] == picks[i + 1..];
        var ok := ProcessPick(s, picks[i]);
        if ok { processed := processed + 1; } else { errors := errors + 1; }
        i := i + 1;
      }
    }

    /** The body of the batch loop: investigate, charge, commit; or roll back. */
    method ProcessPick(s: Settings, pick: Pick) returns (ok: bool)
      requires Clean() && pick.event < |session.committed.events|
      modifies this, session, redis
      ensures Clean() && Now() == Process(old(Now()), s, pick) && (old(redis.Timed()) ==> redis.Timed())
      ensures ok <==> pick.fault.Fine?
    {
      lastDay := pick.day;
      var raised := InvestigateEvent(s, pick);
      if raised {
        session.Rollback();
        return false;
      }
      if !session.working.events[pick.event].probe {
        redis.Charge(pick.event, pick.day);
      }
      if pick.fault.InCommit? {
        session.Rollback();
        return false;
      }
      session.Commit();
      return true;
    }

    /** Redis drops a counter whose time has come, at some moment of a day: the expiry step of a run. */
    method ExpireCounter(day: int, today: int)
      requires redis.Timed() && lastDay <= today && day in redis.expires && redis.expires[day] <= today
      modifies this`lastDay, redis`counts, redis`expires
      ensures redis.Timed()
      ensures Enabled(old(Now()), CounterExpires(day, today)) &&
        Now() == Apply(old(Now()), CounterExpires(day, today))
    {
      lastDay := today;
      redis.Drop(day, today);
    }

    // ---- app/human_review/service.py, stale.py ------------------------------------

    method ExpireStale(cutoff: int) returns (expired: nat)
      modifies session`working
      ensures session.working == old(session.working).(reqs := Expire(old(session.working).reqs, cutoff))
      ensures forall r :: 0 <= r < |session.working.reqs| ==>
        session.working.reqs[r] ==
          var row := old(session.working).reqs[r];
          if row.status.Sent? && row.sentAt < cutoff then row.(status := Expired) else row
      ensures expired == Changes(old(session.working).reqs, session.working.reqs, |session.working.reqs|)
    {
      expired := 0;
      var i := 0;
      while i < |session.working.reqs|
        invariant 0 <= i <= |session.working.reqs| == |old(session.working).reqs|
        invariant session.working == old(session.working).(reqs := session.working.reqs)
        invariant Rewritten(old(session.working).reqs, Expire(old(session.working).reqs, cutoff),
          session.working.reqs, i)
        invariant expired == Changes(old(session.working).reqs, Expire(old(session.working).reqs, cutoff), i)
      {
        var req := session.working.reqs[i];
        if req.status.Sent? && req.sentAt < cutoff {
          session.working := session.working.(reqs := session.working.reqs[i := req.(status := Expired)]);
          expired := expired + 1;
        }
        i := i + 1;
      }
    }

    method CancelAllObsolete() returns (cancelled: nat)
      modifies session`working
      ensures session.working == old(session.working).(reqs := Sweep(old(session.working)))
      ensures cancelled == Changes(old(session.working).reqs, session.working.reqs, |session.working.reqs|)
    {
      cancelled := 0;
      var i := 0;
      while i < |session.working.reqs|
        invariant 0 <= i <= |session.working.reqs| == |old(session.working).reqs|
        invariant session.working == old(session.working).(reqs := session.working.reqs)
        invariant Rewritten(old(session.working).reqs, Sweep(old(session.working)), session.working.reqs, i)
        invariant cancelled == Changes(old(session.working).reqs, Sweep(old(session.working)), i)
      {
        var req := session.working.reqs[i];
        if Obsolete(session.working, req) {
          session.working := session.working.(reqs := session.working.reqs[i := req.(status := Cancelled)]);
          cancelled := cancelled + 1;
        }
        i := i + 1;
      }
    }

    /** Asks about one event; nothing is stored when the message cannot be sent. */
    method DispatchOne(c: Send, now: int) returns (sent: bool)
      requires c.inv < |session.working.invs|
      modifies session`working
      ensures session.working == if c.delivered then Dispatch(old(session.working), c, now) else old(session.working)
      ensures sent == c.delivered
    {
      if !c.delivered { return false; }
      session.working := session.working.(reqs := session.working.reqs + [ReqRow(c.event, c.inv, Sent, now, c.id)]);
      var inv := session.working.invs[c.inv];
      session.working := session.working.(invs := session.working.invs[c.inv := inv.(status := AgentLoop.NeedsHuman)]);
      return true;
    }

    /** Asks about the picked events in turn. */
    method SendAll(sends: seq<Send>, now: int) returns (dispatched: nat)
      requires forall k :: 0 <= k < |sends| ==> sends[k].inv < |session.working.invs|
      modifies session`working
      ensures session.working == DispatchAll(old(session.working), sends, now)
      ensures dispatched == Delivered(sends)
    {
      dispatched := 0;
      var i := 0;
      while i < |sends|
        invariant 0 <= i <= |sends| && |session.working.invs| == |old(session.working).invs|
        invariant dispatched + Delivered(sends[i..]) == Delivered(sends)
        invariant DispatchAll(session.working, sends[i..], now) == DispatchAll(old(session.working), sends, now)
      {
        assert sends[i..][0] == sends[i] && sends[i..][1..] == sends[i + 1..];
        var sent := DispatchOne(sends[i], now);
        if sent { dispatched := dispatched + 1; }
        i := i + 1;
      }
    }

    /** Expires, sweeps, asks about the picked events in turn, and commits the batch once. In a
        reachable state the sweep cancels nothing (CaseInvariants.TidyKeeps). */
    method RunReview(now: int, cutoff: int, maxResend: int, sends: seq<Send>, commits: bool)
      returns (expired: nat, cancelled: nat, dispatched: nat)
      requires Clean() && SendsOk(Tidy(session.committed, cutoff), sends, maxResend)
      modifies session
      ensures Clean() && session.committed == if commits then Review(old(session.committed), cutoff, sends, now)
        else old(session.committed)
      ensures var reqs, swept := old(session.committed.reqs), old(Tidy(session.committed, cutoff).reqs);
        expired == Changes(reqs, Expire(reqs, cutoff), |reqs|) &&
          cancelled == Changes(Expire(reqs, cutoff), swept, |reqs|)
      ensures dispatched == Delivered(sends)
      ensures forall p :: Inv(old(session.committed), p) && commits ==>
        CaseOutcomes.Reviewed(old(session.committed), session.committed, cutoff, sends, now)
    {
      forall p | Inv(session.committed, p)
        ensures CaseOutcomes.Reviewed(session.committed, Review(session.committed, cutoff, sends, now), cutoff,
          sends, now)
      {
        CaseOutcomes.ReviewExact(session.committed, p, cutoff, maxResend, sends, now);
      }
      expired := ExpireStale(cutoff);
      cancelled := CancelAllObsolete();
      assert session.working == Tidy(session.committed, cutoff);
      assert forall k :: 0 <= k < |sends| ==> Candidate(session.working, sends[k], maxResend);
      dispatched := SendAll(sends, now);
      if commits { session.Commit(); } else { session.Rollback(); }
    }

    /** A reply: the request it answers is looked up, a response that is already stored is ignored, and the
        marker is set before the commit. */
    method HandleReply(message: Incoming, reinvestigate: bool, commits: bool) returns (accepted: bool)
      requires Clean()
      modifies session, redis
      ensures Clean() && Now() == Apply(old(Now()), CaseRuns.HandleReply(message, reinvestigate, commits))
      ensures var to := Addressee(old(session.committed), message);
        accepted <==> to.Some? && !IsDuplicate(old(session.committed), to.value.0, to.value.1, message.external)
    {
      var raw := message.raw;
      var found := message.request;
      if found.Some? {
        if !CanReply(session.working, found.value) { return false; }
      } else {
        var (code, body) := ReviewTag.ParseReply(raw);
        if code.None? { return false; }
        found := FindByCode(session.working, code.value, |session.working.reqs|);
        if found.None? { return false; }
        raw := body;
      }
      if IsDuplicate(session.working, found.value, raw, message.external) { return false; }
      Answer(found.value, raw, reinvestigate);
      if commits { session.Commit(); } else { session.Rollback(); }
      return true;
    }

    /** Stores the response, answers the request, marks and reopens its event, completes its investigation. */
    method Answer(r: nat, raw: string, reinvestigate: bool)
      requires CanReply(session.working, r)
      modifies session`working, redis`markers
      ensures session.working == Reply(old(session.working), r, raw, reinvestigate)
      ensures redis.markers == if reinvestigate then old(redis.markers) + {old(session.working.reqs[r].event)}
        else old(redis.markers)
    {
      session.working := session.working.(responses := session.working.responses + [Response(r, raw)]);
      var req := session.working.reqs[r];
      session.working := session.working.(reqs := session.working.reqs[r := req.(status := Answered)]);
      if reinvestigate {
        redis.MarkReinvestigation(req.event);
        session.working := WithStatus(session.working, req.event, PendingReview);
      }
      var inv := session.working.invs[req.inv];
      if inv.status.NeedsHuman? {
        session.working := session.working.(invs :=
          session.working.invs[req.inv := inv.(status := AgentLoop.Completed)]);
      }
    }

    method CancelRequest(r: nat) returns (done: bool)
      requires Clean()
      modifies session
      ensures Clean() && session.committed == Cancel(old(session.committed), r)
      ensures done <==> session.committed != old(session.committed)
      ensures done <==> r < |old(session.committed).reqs| && old(session.committed).reqs[r].status.Sent?
      ensures done ==> session.committed == old(session.committed).(reqs :=
        old(session.committed).reqs[r := old(session.committed).reqs[r].(status := Cancelled)])
    {
      if r >= |session.working.reqs| || !session.working.reqs[r].status.Sent? { return false; }
      ghost var before := session.working.reqs;
      session.working := session.working.(reqs :=
        session.working.reqs[r := session.working.reqs[r].(status := Cancelled)]);
      assert session.working.reqs[r] != before[r];
      session.Commit();
      return true;
    }

    // ---- app/defense_assets/disposition/service.py ----------------------------------

    /** Confirms or rejects a disposition that is still a suggestion. */
    method DecideDisposition(d: nat, confirm: bool) returns (decided: bool)
      modifies session`working
      ensures session.working == Decide(old(session.working), d, if confirm then Confirmed else Rejected)
      ensures decided <==> session.working != old(session.working)
      ensures decided <==> d < |old(session.working).disps| && old(session.working).disps[d].status.Suggested?
      ensures decided ==> session.working == old(session.working).(disps :=
        old(session.working).disps[d := DispRow(old(session.working).disps[d].inv,
          if confirm then Confirmed else Rejected)])
    {
      if d >= |session.working.disps| || !session.working.disps[d].status.Suggested? { return false; }
      ghost var before := session.working.disps;
      var record := session.working.disps[d];
      record := if confirm then record.(status := Confirmed) else record.(status := Rejected);
      session.working := session.working.(disps := session.working.disps[d := record]);
      assert session.working.disps[d] != before[d];
      return true;
    }

    // ---- app/defense_assets/pipeline.py ----------------------------------------------

    /** Looks at one concluded event: closes it, makes it a target, or leaves it. */
    method PickTarget(e: nat, targets: seq<Target>, cfg: SettleConfig) returns (targets': seq<Target>)
      modifies session`working
      ensures session.working == ScanOne(old(session.working), e, cfg)
      ensures targets' == AddTarget(old(session.working), targets, e)
    {
      targets' := targets;
      if e >= |session.working.events| || session.working.events[e].probe { return; }
      var settling := Settleable(session.working, e);
      if settling.None? { return; }
      if settling.value in session.working.cases {
        if MayClose(session.working, settling.value, cfg) {
          session.working := WithStatus(session.working, e, Closed);
        }
      } else {
        targets' := targets + [Target(e, settling.value)];
      }
    }

    method PickTargets(picked: seq<nat>, limit: nat, cfg: SettleConfig) returns (targets: seq<Target>)
      modifies session`working
      ensures (session.working, targets) == Scan(old(session.working), picked, [], limit, cfg)
    {
      targets := [];
      var i := 0;
      while i < |picked|
        invariant 0 <= i <= |picked|
        invariant forall k :: 0 <= k < |targets| ==> targets[k].event < |session.working.events|
        invariant Scan(session.working, picked[i..], targets, limit, cfg) ==
          Scan(old(session.working), picked, [], limit, cfg)
      {
        assert picked[i..][0] == picked[i] && picked[i..][1..] == picked[i + 1..];
        if |targets| >= limit { return; }
        targets := PickTarget(picked[i], targets, cfg);
        i := i + 1;
      }
    }

    /** Builds the case of one target; an exception before or after the case has been added is
        recorded by the caller, and what the session holds by then is kept. */
    method SettleTarget(t: Target, fault: SettleFault, cfg: SettleConfig) returns (ok: bool)
      requires t.event < |session.working.events|
      modifies session`working
      ensures session.working == SettleOne(old(session.working), t, fault, cfg)
      ensures ok <==> fault == NoFault
    {
      if fault == BeforeCase { return false; }
      session.working := session.working.(cases := session.working.cases + [t.inv]);
      if fault == AfterCase { return false; }
      if cfg.autoClose && !cfg.confirm {
        session.working := WithStatus(session.working, t.event, Closed);
      } else if cfg.autoClose && cfg.confirm {
        if Resolved(session.working.disps, t.inv) {
          session.working := WithStatus(session.working, t.event, Closed);
        }
      }
      return true;
    }

    /** Settles the targets in turn; a failing one is reported. */
    method SettleTargets(targets: seq<Target>, faults: nat -> SettleFault,
      cfg: SettleConfig) returns (processed: nat, errors: nat)
      requires forall k :: 0 <= k < |targets| ==> targets[k].event < |session.working.events|
      modifies session`working
      ensures session.working == SettleAll(old(session.working), targets, faults, cfg)
      ensures processed + errors == |targets| && processed == Unharmed(targets, faults)
    {
      processed, errors := 0, 0;
      var i := 0;
      while i < |targets|
        invariant 0 <= i <= |targets|
        invariant forall k :: 0 <= k < |targets| ==> targets[k].event < |session.working.events|
        invariant SettleAll(session.working, targets[i..], faults, cfg) ==
          SettleAll(old(session.working), targets, faults, cfg)
        invariant processed + errors == i && processed + Unharmed(targets[i..], faults) == Unharmed(targets, faults)
      {
        assert targets[i..][0] == targets[i] && targets[i..][1..] == targets[i + 1..];
        var ok := SettleTarget(targets[i], faults(targets[i].event), cfg);
        if ok { processed := processed + 1; } else { errors := errors + 1; }
        i := i + 1;
      }
    }

    /** One settlement batch: whatever the targets added is committed at the end. */
    method RunSettlement(cfg: SettleConfig, limit: nat, picked: seq<nat>, faults: nat -> SettleFault, commits: bool)
      returns (processed: nat, errors: nat)
      requires Clean()
      modifies session
      ensures Clean() && session.committed == if commits
        then Settle(old(session.committed), cfg, limit, picked, faults) else old(session.committed)
      ensures var targets := Scan(old(session.committed), picked, [], limit, cfg).1;
        processed + errors == |targets| && processed == Unharmed(targets, faults)
    {
      var targets := PickTargets(picked, limit, cfg);
      processed, errors := SettleTargets(targets, faults, cfg);
      if commits { session.Commit(); } else { session.Rollback(); }
    }
  }
}
