/** Whole runs: any sequence of service calls, with their rollbacks, over the case tables and the
    Redis budget keys (app/agent/budget.py, app/human_review/reinvestigation.py). */
module CaseRuns {
  import opened Wrappers
  import Closure
  import AgentLoop
  import ReviewTag
  import Text
  import opened Cases
  import opened CaseInvariants

  /** The committed tables, the per-day counters, the skip-budget markers, and the last UTC day seen. */
  datatype World = World(db: Db, counts: map<int, nat>, markers: set<nat>, today: int)

  const Empty: World := World(Db([], [], [], [], [], []), map[], {}, 0)

  /** Where an exception strikes while one event is processed. */
  datatype Fault = Fine | InInvestigation | InCommit

  /** One picked event: the day it is counted on, and everything the outside world contributes. */
  datatype Pick = Pick(
    event: nat, day: int, template: Option<Closure.Template>, llm: nat -> AgentLoop.Reply, skill: nat -> bool,
    end: Ending, fault: Fault)

  datatype Settings = Settings(loop: AgentLoop.Config, supervisor: Supervisor, budget: int, limit: nat)

  datatype Step =
    | AddEvent(probe: bool)
    | MergeProbe(event: nat)
    | ProbeInvestigation(event: nat, env: AgentLoop.Env, end: Ending)
    | InvestigationBatch(day: int, settings: Settings, picks: seq<Pick>)
    | ReviewBatch(now: int, cutoff: int, maxResend: int, sends: seq<Send>, commits: bool)
    | HandleReply(message: Incoming, reinvestigate: bool, commits: bool)
    | CancelRequest(req: nat)
    | SettleBatch(config: SettleConfig, limit: nat, picked: seq<nat>, faults: nat -> SettleFault, commits: bool)
    | DecideDisposition(disp: nat, status: DispStatus)
    | MarkerExpires(event: nat)
    | CounterExpires(day: int, today: int)

  function CountOn(counts: map<int, nat>, day: int): nat {
    if day in counts then counts[day] else 0
  }

  function Remaining(counts: map<int, nat>, day: int, budget: int): (r: int)
    ensures r >= 0 && (r > 0 ==> r + CountOn(counts, day) == budget) && (r == 0 <==> CountOn(counts, day) >= budget)
  {
    Max(0, budget - CountOn(counts, day))
  }

  function EnvOf(s: Settings, pick: Pick): AgentLoop.Env {
    AgentLoop.Env(s.loop, pick.template, pick.llm, pick.skill)
  }

  /** A marker is consumed; without one the day's counter goes up. */
  function ChargeKeys(counts: map<int, nat>, markers: set<nat>, e: nat, day: int): (map<int, nat>, set<nat>) {
    if e in markers then (counts, markers - {e}) else (counts[day := CountOn(counts, day) + 1], markers)
  }

  /** Charging a processed event; a probe is free. */
  function Charge(w: World, e: nat, day: int): World
    requires e < |w.db.events|
  {
    if w.db.events[e].probe then w else
    var (counts, markers) := ChargeKeys(w.counts, w.markers, e, day);
    w.(counts := counts, markers := markers)
  }

  /** Redis is not part of the transaction: a failed commit keeps the charge. */
  function Process(w: World, s: Settings, pick: Pick): World
    requires pick.event < |w.db.events|
  {
    var w' := w.(today := pick.day);
    if pick.fault.InInvestigation? then w' else
    var charged := Charge(w', pick.event, pick.day);
    if pick.fault.InCommit? then charged
    else charged.(db := Investigate(w.db, pick.event, EnvOf(s, pick), s.supervisor, pick.end))
  }

  function ProcessAll(w: World, s: Settings, picks: seq<Pick>): World
    requires forall i :: 0 <= i < |picks| ==> picks[i].event < |w.db.events|
    decreases |picks|
  {
    if picks == [] then w else ProcessAll(Process(w, s, picks[0]), s, picks[1..])
  }

  ghost predicate PicksOk(db: Db, picks: seq<Pick>, day: int) {
    && (forall i :: 0 <= i < |picks| ==> Pickable(db, picks[i].event) && day <= picks[i].day)
    && (forall i, j :: 0 <= i < j < |picks| ==> picks[i].event != picks[j].event && picks[i].day <= picks[j].day)
  }

  ghost predicate Enabled(w: World, step: Step) {
    match step
    case AddEvent(_) => true
    case MergeProbe(e) => e < |w.db.events| && w.db.events[e].status.PendingReview?
    case ProbeInvestigation(e, _, _) => e < |w.db.events| && w.db.events[e] == EventRow(PendingReview, true)
    case InvestigationBatch(day, s, picks) =>
      w.today <= day && PicksOk(w.db, picks, day) && |picks| <= Min(s.limit, Remaining(w.counts, day, s.budget))
    case ReviewBatch(now, cutoff, maxResend, sends, _) => SendsOk(Tidy(w.db, cutoff), sends, maxResend)
    case HandleReply(_, _, _) => true
    case CancelRequest(_) => true
    case SettleBatch(_, _, picked, _, _) => Distinct(picked) && forall i :: 0 <= i < |picked| ==>
      picked[i] < |w.db.events| && w.db.events[picked[i]].status.Concluded?
    case DecideDisposition(_, status) => !status.Suggested?
    case MarkerExpires(_) => true
    case CounterExpires(day, today) => w.today <= today && day + 2 <= today
  }

  function Apply(w: World, step: Step): World
    requires Enabled(w, step)
  {
    var db := w.db;
    match step
    case AddEvent(probe) => w.(db := db.(events := db.events + [EventRow(PendingReview, probe)]))
    case MergeProbe(e) => w.(db := db.(events := db.events[e := EventRow(PendingReview, true)]))
    case ProbeInvestigation(e, env, end) =>
      w.(db := Investigate(db, e, env, Supervisor(false, false), end))
    case InvestigationBatch(day, s, picks) => ProcessAll(w.(today := day), s, picks)
    case ReviewBatch(now, cutoff, maxResend, sends, commits) =>
      if commits then w.(db := Review(db, cutoff, sends, now)) else w
    case HandleReply(message, reinvestigate, commits) =>
      var to := Addressee(db, message);
      if to.None? || IsDuplicate(db, to.value.0, to.value.1, message.external) then w else
      var marked := if reinvestigate then w.(markers := w.markers + {db.reqs[to.value.0].event}) else w;
      if commits then marked.(db := Reply(db, to.value.0, to.value.1, reinvestigate)) else marked
    case CancelRequest(r) => w.(db := Cancel(db, r))
    case SettleBatch(cfg, limit, picked, faults, commits) =>
      if commits then w.(db := Settle(db, cfg, limit, picked, faults)) else w
    case DecideDisposition(d, status) => w.(db := Decide(db, d, status))
    case MarkerExpires(e) => w.(markers := w.markers - {e})
    case CounterExpires(day, today) => w.(counts := w.counts - {day}, today := today)
  }

  /** The step respects the limits of the policy. */
  ghost predicate Obeys(step: Step, p: Policy) {
    match step
    case InvestigationBatch(_, s, _) => s.budget <= p.budget
    case ReviewBatch(_, _, maxResend, _, _) => maxResend <= p.resend
    case SettleBatch(cfg, _, _, _, _) => p.confirm ==> cfg.confirm
    case _ => true
  }

  ghost predicate Legal(w: World, steps: seq<Step>, p: Policy)
    decreases |steps|
  {
    steps == [] || (Enabled(w, steps[0]) && Obeys(steps[0], p) && Legal(Apply(w, steps[0]), steps[1..], p))
  }

  function After(w: World, steps: seq<Step>, p: Policy): World
    requires Legal(w, steps, p)
    decreases |steps|
  {
    if steps == [] then w else After(Apply(w, steps[0]), steps[1..], p)
  }

  // ---- the invariant over runs ----------------------------------------------------

  /** Counters stay within the budget and never run ahead of the clock; every marked event has been
      investigated before. */
  ghost predicate RedisOk(w: World, p: Policy) {
    && (forall d :: d in w.counts ==> d <= w.today && w.counts[d] <= p.budget)
    && (forall e :: e in w.markers ==> HasInv(w.db, e))
  }

  ghost predicate Good(w: World, p: Policy) {
    Inv(w.db, p) && RedisOk(w, p)
  }

  lemma InvestigateElsewhere(db: Db, e: nat, env: AgentLoop.Env, sup: Supervisor, end: Ending, x: nat)
    requires e < |db.events| && Pickable(db, x) && x != e
    ensures Pickable(Investigate(db, e, env, sup, end), x)
  {
  }

  lemma InvestigateLinks(db: Db, e: nat, env: AgentLoop.Env, sup: Supervisor, end: Ending)
    requires e < |db.events|
    ensures forall x :: HasInv(db, x) ==> HasInv(Investigate(db, e, env, sup, end), x)
  {
    LinksGrow(db, Investigate(db, e, env, sup, end));
  }

  /** Every picked event is charged to its day's counter, unless its investigation raised: a skip
      marker is never consumed. */
  lemma PickIsCounted(w: World, p: Policy, s: Settings, pick: Pick)
    requires Good(w, p) && Pickable(w.db, pick.event)
    ensures Process(w, s, pick).markers == w.markers
    ensures forall d ::
      CountOn(Process(w, s, pick).counts, d) == CountOn(w.counts, d) +
        (if d == pick.day && !pick.fault.InInvestigation? then 1 else 0)
  {
    PickableIsFresh(w.db, p, pick.event);
  }

  lemma ProcessKeepsRedis(w: World, p: Policy, s: Settings, pick: Pick)
    requires Good(w, p) && Pickable(w.db, pick.event) && w.today <= pick.day
    requires CountOn(w.counts, w.today) < p.budget
    ensures RedisOk(Process(w, s, pick), p)
  {
    var w' := Process(w, s, pick);
    PickIsCounted(w, p, s, pick);
    forall d | d in w'.counts ensures d <= w'.today && w'.counts[d] <= p.budget {
      assert w'.counts[d] == CountOn(w'.counts, d);
    }
    InvestigateLinks(w.db, pick.event, EnvOf(s, pick), s.supervisor, pick.end);
  }

  lemma ProcessKeeps(w: World, p: Policy, s: Settings, pick: Pick)
    requires Good(w, p) && Pickable(w.db, pick.event) && w.today <= pick.day
    requires CountOn(w.counts, w.today) < p.budget
    ensures Good(Process(w, s, pick), p)
  {
    ProcessKeepsRedis(w, p, s, pick);
    InvestigateKeeps(w.db, p, pick.event, EnvOf(s, pick), s.supervisor, pick.end);
  }

  /** After one pick, the rest of the batch can still be processed. */
  lemma ProcessHead(w: World, p: Policy, s: Settings, picks: seq<Pick>)
    requires picks != [] && Good(w, p) && PicksOk(w.db, picks, w.today) &&
      CountOn(w.counts, w.today) + |picks| <= p.budget
    ensures var w' := Process(w, s, picks[0]);
      Good(w', p) && PicksOk(w'.db, picks[1..], w'.today) && CountOn(w'.counts, w'.today) + |picks[1..]| <= p.budget
  {
    var w' := Process(w, s, picks[0]);
    PickIsCounted(w, p, s, picks[0]);
    ProcessKeeps(w, p, s, picks[0]);
    forall i | 1 <= i < |picks| ensures Pickable(w'.db, picks[i].event) {
      InvestigateElsewhere(w.db, picks[0].event, EnvOf(s, picks[0]), s.supervisor, picks[0].end,
        picks[i].event);
    }
  }

  ghost function Counted(picks: seq<Pick>, d: int): nat {
    if picks == [] then 0 else Counted(picks[1..], d) + if picks[0].day == d && !picks[0].fault.InInvestigation?
      then 1 else 0
  }

  lemma {:induction false} ProcessAllKeeps(w: World, p: Policy, s: Settings, picks: seq<Pick>)
    requires Good(w, p) && PicksOk(w.db, picks, w.today) && CountOn(w.counts, w.today) + |picks| <= p.budget
    ensures Good(ProcessAll(w, s, picks), p)
    ensures ProcessAll(w, s, picks).markers == w.markers
    ensures forall d :: CountOn(ProcessAll(w, s, picks).counts, d) == CountOn(w.counts, d) + Counted(picks, d)
    decreases |picks|
  {
    if picks != [] {
      PickIsCounted(w, p, s, picks[0]);
      ProcessHead(w, p, s, picks);
      ProcessAllKeeps(Process(w, s, picks[0]), p, s, picks[1..]);
    }
  }

  lemma ReviewBatchKeeps(db: Db, p: Policy, now: int, cutoff: int, maxResend: int, sends: seq<Send>)
    requires Inv(db, p) && SendsOk(Tidy(db, cutoff), sends, maxResend) && maxResend <= p.resend
    ensures var db' := Review(db, cutoff, sends, now);
      Inv(db', p) && forall x :: HasInv(db, x) ==> HasInv(db', x)
  {
    TidyKeeps(db, p, cutoff);
    DispatchAllKeeps(Tidy(db, cutoff), p, sends, now, maxResend);
    ReviewLinks(Tidy(db, cutoff), sends, now);
    LinksGrow(db, Tidy(db, cutoff));
  }

  lemma SettleBatchKeeps(db: Db, p: Policy, cfg: SettleConfig, limit: nat, picked: seq<nat>, faults: nat -> SettleFault)
    requires Inv(db, p) && Distinct(picked) && (p.confirm ==> cfg.confirm)
    ensures var db' := Settle(db, cfg, limit, picked, faults);
      Inv(db', p) && forall x :: HasInv(db, x) ==> HasInv(db', x)
  {
    var (scanned, targets) := Scan(db, picked, [], limit, cfg);
    ScanKeeps(db, p, picked, [], limit, cfg);
    SettleAllKeeps(scanned, p, targets, faults, cfg);
    ScanInvs(db, picked, [], limit, cfg);
    SettleInvs(scanned, targets, faults, cfg);
    LinksGrow(db, SettleAll(scanned, targets, faults, cfg));
  }

  /** Tables that keep their invariant and their links keep the whole world good. */
  lemma TablesKeep(w: World, p: Policy, db: Db)
    requires Good(w, p) && Inv(db, p) && forall x :: HasInv(w.db, x) ==> HasInv(db, x)
    ensures Good(w.(db := db), p)
  {
  }

  lemma HandleReplyKeeps(w: World, p: Policy, message: Incoming, reinvestigate: bool, commits: bool)
    requires Good(w, p)
    ensures Good(Apply(w, HandleReply(message, reinvestigate, commits)), p)
  {
    var to := Addressee(w.db, message);
    if to.Some? {
      var (r, raw) := to.value;
      var db' := Reply(w.db, r, raw, reinvestigate);
      ReplyKeeps(w.db, p, r, raw, reinvestigate);
      LinksGrow(w.db, db');
      assert Open(w.db, w.db.reqs[r]);
      var marked := w.(markers := w.markers + {w.db.reqs[r].event});
      assert Good(marked, p);
      TablesKeep(w, p, db');
      TablesKeep(marked, p, db');
    }
  }

  /** A reply that quotes the tag of an open request reaches that request, or one with the same short
      code that was sent no earlier, with the text around the tag. */
  lemma ReplyReachesRequest(db: Db, r: nat, before: string, code: string, after: string, external: bool)
    requires CanReply(db, r) && ReviewTag.IsCode(code) && ReviewTag.TagFree(before) && ReviewTag.TagFree(after)
    requires Text.Lower(code) == ReviewTag.ShortCode(db.reqs[r].id)
    ensures var to := Addressee(db, Incoming(ReviewTag.Tagged(before, code, after), external, None));
      && to.Some? && db.reqs[r].sentAt <= db.reqs[to.value.0].sentAt
      && ReviewTag.ShortCode(db.reqs[to.value.0].id) == ReviewTag.ShortCode(db.reqs[r].id)
      && var rest := Text.Strip(before + after);
         to.value.1 == if rest != "" then rest else Text.Strip(ReviewTag.Tagged(before, code, after))
  {
    ReviewTag.ReplyRoundTrip(before, code, after);
    ReviewTag.ReplyNamesRequest(db.reqs[r].id, before, code, after);
  }

  lemma AddEventStepKeeps(w: World, p: Policy, probe: bool)
    requires Good(w, p)
    ensures Good(Apply(w, AddEvent(probe)), p)
  {
    var db' := Apply(w, AddEvent(probe)).db;
    AddEventKeeps(w.db, p, probe);
    LinksGrow(w.db, db');
    TablesKeep(w, p, db');
  }

  lemma MergeProbeStepKeeps(w: World, p: Policy, e: nat)
    requires Good(w, p) && Enabled(w, MergeProbe(e))
    ensures Good(Apply(w, MergeProbe(e)), p)
  {
    var db' := Apply(w, MergeProbe(e)).db;
    MergeProbeKeeps(w.db, p, e);
    LinksGrow(w.db, db');
    TablesKeep(w, p, db');
  }

  lemma ProbeStepKeeps(w: World, p: Policy, e: nat, env: AgentLoop.Env, end: Ending)
    requires Good(w, p) && Enabled(w, ProbeInvestigation(e, env, end))
    ensures Good(Apply(w, ProbeInvestigation(e, env, end)), p)
  {
    InvestigateKeeps(w.db, p, e, env, Supervisor(false, false), end);
    InvestigateLinks(w.db, e, env, Supervisor(false, false), end);
    TablesKeep(w, p, Investigate(w.db, e, env, Supervisor(false, false), end));
  }

  lemma CancelStepKeeps(w: World, p: Policy, r: nat)
    requires Good(w, p)
    ensures Good(Apply(w, CancelRequest(r)), p)
  {
    CancelKeeps(w.db, p, r);
    LinksGrow(w.db, Cancel(w.db, r));
    TablesKeep(w, p, Cancel(w.db, r));
  }

  lemma DecideStepKeeps(w: World, p: Policy, d: nat, status: DispStatus)
    requires Good(w, p) && !status.Suggested?
    ensures Good(Apply(w, DecideDisposition(d, status)), p)
  {
    DecideKeeps(w.db, p, d, status);
    LinksGrow(w.db, Decide(w.db, d, status));
    TablesKeep(w, p, Decide(w.db, d, status));
  }

  lemma InvestigationStepKeeps(w: World, p: Policy, day: int, s: Settings, picks: seq<Pick>)
    requires Good(w, p) && Enabled(w, InvestigationBatch(day, s, picks)) && s.budget <= p.budget
    ensures Good(Apply(w, InvestigationBatch(day, s, picks)), p)
  {
    assert Good(w.(today := day), p);
    ProcessAllKeeps(w.(today := day), p, s, picks);
  }

  lemma ApplyKeeps(w: World, p: Policy, step: Step)
    requires Good(w, p) && Enabled(w, step) && Obeys(step, p)
    ensures Good(Apply(w, step), p)
  {
    match step
    case AddEvent(probe) => AddEventStepKeeps(w, p, probe);
    case MergeProbe(e) => MergeProbeStepKeeps(w, p, e);
    case ProbeInvestigation(e, env, end) => ProbeStepKeeps(w, p, e, env, end);
    case InvestigationBatch(day, s, picks) => InvestigationStepKeeps(w, p, day, s, picks);
    case ReviewBatch(now, cutoff, maxResend, sends, commits) =>
      ReviewBatchKeeps(w.db, p, now, cutoff, maxResend, sends);
      if commits { TablesKeep(w, p, Review(w.db, cutoff, sends, now)); }
    case HandleReply(message, reinvestigate, commits) => HandleReplyKeeps(w, p, message, reinvestigate, commits);
    case CancelRequest(r) => CancelStepKeeps(w, p, r);
    case SettleBatch(cfg, limit, picked, faults, commits) =>
      SettleBatchKeeps(w.db, p, cfg, limit, picked, faults);
      if commits { TablesKeep(w, p, Settle(w.db, cfg, limit, picked, faults)); }
    case DecideDisposition(d, status) => DecideStepKeeps(w, p, d, status);
    case MarkerExpires(e) =>
    case CounterExpires(day, today) =>
  }

  lemma {:induction false} ReviewLinks(db: Db, sends: seq<Send>, now: int)
    requires forall k :: 0 <= k < |sends| ==> sends[k].inv < |db.invs|
    ensures forall x :: HasInv(db, x) ==> HasInv(DispatchAll(db, sends, now), x)
    decreases |sends|
  {
    if sends != [] {
      var db' := if sends[0].delivered then Dispatch(db, sends[0], now) else db;
      LinksGrow(db, db');
      ReviewLinks(db', sends[1..], now);
    }
  }

  lemma {:induction false} ScanInvs(db: Db, picked: seq<nat>, targets: seq<Target>, limit: nat, cfg: SettleConfig)
    requires forall k :: 0 <= k < |targets| ==> targets[k].event < |db.events|
    ensures var r := Scan(db, picked, targets, limit, cfg).0; r.invs == db.invs && r.cases == db.cases
    decreases |picked|
  {
    if picked != [] && |targets| < limit {
      ScanInvs(ScanOne(db, picked[0], cfg), picked[1..], AddTarget(db, targets, picked[0]), limit, cfg);
    }
  }

  lemma {:induction false} SettleInvs(db: Db, targets: seq<Target>, faults: nat -> SettleFault, cfg: SettleConfig)
    requires forall k :: 0 <= k < |targets| ==> targets[k].event < |db.events|
    ensures var r := SettleAll(db, targets, faults, cfg); r.invs == db.invs && db.cases <= r.cases
    decreases |targets|
  {
    if targets != [] {
      SettleInvs(SettleOne(db, targets[0], faults(targets[0].event), cfg), targets[1..], faults, cfg);
    }
  }

  lemma {:induction false} RunKeeps(w: World, steps: seq<Step>, p: Policy)
    requires Good(w, p) && Legal(w, steps, p)
    ensures Good(After(w, steps, p), p)
    decreases |steps|
  {
    if steps != [] {
      ApplyKeeps(w, p, steps[0]);
      RunKeeps(Apply(w, steps[0]), steps[1..], p);
    }
  }

  // ---- what every run guarantees -----------------------------------------------------

  /** Human review: at most one open request per event, always to the newest investigation of an
      event that waits for a human; nothing for the sweep to cancel; a bounded number of requests. */
  lemma ReviewSafety(steps: seq<Step>, p: Policy)
    requires Legal(Empty, steps, p)
    ensures var db := After(Empty, steps, p).db;
      && (forall r, q :: 0 <= r < q < |db.reqs| && db.reqs[r].status.Sent? && db.reqs[q].status.Sent? ==>
        db.reqs[r].event != db.reqs[q].event)
      && (forall r :: 0 <= r < |db.reqs| && db.reqs[r].status.Sent? ==>
            Open(db, db.reqs[r]) && LatestInv(db.invs, db.reqs[r].event) == Some(db.reqs[r].inv))
      && Sweep(db) == db.reqs
      && (forall e: nat :: CountReqs(db.reqs, e) <= p.resend + 1)
  {
    RunKeeps(Empty, steps, p);
    var db := After(Empty, steps, p).db;
    SweepFindsNothing(db, p);
    forall r | 0 <= r < |db.reqs| && db.reqs[r].status.Sent?
      ensures Open(db, db.reqs[r]) && LatestInv(db.invs, db.reqs[r].event) == Some(db.reqs[r].inv)
    {
      NewestIsOnly(db, p, db.reqs[r].inv);
    }
  }

  /** The evidence gate, end to end: an ordinary event that is concluded or closed has exactly one
      investigation; it completed, a blocking supervisor passed it, and with the closure check on its
      stored attempts cover what its template demands. */
  lemma EvidenceGate(steps: seq<Step>, p: Policy, e: nat) returns (i: nat)
    requires Legal(Empty, steps, p)
    requires var db := After(Empty, steps, p).db;
      e < |db.events| && !db.events[e].probe && (db.events[e].status.Concluded? || db.events[e].status.Closed?)
    ensures var db := After(Empty, steps, p).db;
      && i < |db.invs| && db.invs[i].event == e && (forall j :: 0 <= j < |db.invs| && db.invs[j].event == e ==> j == i)
      && db.invs[i].status.Completed? && db.invs[i].conclusion.Some?
      && var c, ev := db.invs[i].conclusion.value, db.invs[i].evidence;
         && !Closure.NeedsHuman(c.verdict)
         && (ev.supervisor.enabled && ev.supervisor.block ==> ev.auditPassed)
         && (ev.closure.enabled ==> Closure.EvidenceMet(c, AgentLoop.Names(ev.toolRows), ev.template, ev.closure))
  {
    RunKeeps(Empty, steps, p);
    var db := After(Empty, steps, p).db;
    assert HasInv(db, e);
    i :| 0 <= i < |db.invs| && db.invs[i].event == e;
    var c, ev := db.invs[i].conclusion.value, db.invs[i].evidence;
    if ev.closure.enabled { Closure.AcceptedMeansEvidence(c, AgentLoop.Names(ev.toolRows), ev.template, ev.closure); }
  }

  lemma ClosedIsSettled(db: Db, p: Policy, e: nat)
    requires Inv(db, p) && e < |db.events| && db.events[e].status.Closed?
    ensures Settleable(db, e).Some? && Settleable(db, e).value in db.cases
    ensures p.confirm ==> Resolved(db.disps, Settleable(db, e).value)
  {
    assert HasCase(db, e);
    var c :| 0 <= c < |db.cases| && db.cases[c] < |db.invs| && db.invs[db.cases[c]].event == e;
    NewestIsOnly(db, p, db.cases[c]);
    assert db.invs[db.cases[c]].status.Completed?;
    NewestIsOnly(db, p, LatestCompleted(db.invs, e).value);
  }

  /** Settlement: one case per investigation, each from a settling investigation; a closed event has
      its case, and no open suggestion when decisions are required. */
  lemma SettlementSafety(steps: seq<Step>, p: Policy)
    requires Legal(Empty, steps, p)
    ensures var db := After(Empty, steps, p).db;
      && Distinct(db.cases) && (forall c :: 0 <= c < |db.cases| ==> Settles(db, db.cases[c]))
      && (forall e :: 0 <= e < |db.events| && db.events[e].status.Closed? ==>
            && Settleable(db, e).Some? && Settleable(db, e).value in db.cases
            && (p.confirm ==> Resolved(db.disps, Settleable(db, e).value)))
  {
    RunKeeps(Empty, steps, p);
    var db := After(Empty, steps, p).db;
    forall e | 0 <= e < |db.events| && db.events[e].status.Closed?
      ensures Settleable(db, e).Some? && Settleable(db, e).value in db.cases &&
        (p.confirm ==> Resolved(db.disps, Settleable(db, e).value))
    {
      ClosedIsSettled(db, p, e);
    }
  }

  /** The daily budget is kept on every UTC day, through failures and runs across midnight. */
  lemma BudgetKept(steps: seq<Step>, p: Policy, day: int)
    requires Legal(Empty, steps, p)
    ensures CountOn(After(Empty, steps, p).counts, day) <= p.budget
  {
    RunKeeps(Empty, steps, p);
  }

  lemma {:induction false} NotCounted(picks: seq<Pick>, day: int)
    requires forall i :: 0 <= i < |picks| ==> day < picks[i].day
    ensures Counted(picks, day) == 0
  {
    if picks != [] { NotCounted(picks[1..], day); }
  }

  /** A day that is over is never charged again, so a counter that has expired loses nothing. */
  lemma {:induction false} PastDaysStayClosed(w: World, steps: seq<Step>, p: Policy, day: int)
    requires Good(w, p) && Legal(w, steps, p) && day < w.today
    ensures CountOn(After(w, steps, p).counts, day) <= CountOn(w.counts, day)
    decreases |steps|
  {
    if steps != [] {
      var w' := Apply(w, steps[0]);
      if steps[0].InvestigationBatch? {
        var start := w.(today := steps[0].day);
        ProcessAllKeeps(start, p, steps[0].settings, steps[0].picks);
        NotCounted(steps[0].picks, day);
        ClockAdvances(start, steps[0].settings, steps[0].picks);
      }
      ApplyKeeps(w, p, steps[0]);
      PastDaysStayClosed(w', steps[1..], p, day);
    }
  }

  lemma {:induction false} ClockAdvances(w: World, s: Settings, picks: seq<Pick>)
    requires forall i :: 0 <= i < |picks| ==> picks[i].event < |w.db.events|
    requires forall i :: 0 <= i < |picks| ==> w.today <= picks[i].day
    requires forall i, j :: 0 <= i < j < |picks| ==> picks[i].day <= picks[j].day
    ensures w.today <= ProcessAll(w, s, picks).today
    decreases |picks|
  {
    if picks != [] { ClockAdvances(Process(w, s, picks[0]), s, picks[1..]); }
  }
}
