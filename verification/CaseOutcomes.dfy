/** What each service call does to the case tables, said of the rows themselves: the outcome of an
    investigation and its suggestion, a review batch, a reply, a decision and a settlement batch. */
module CaseOutcomes {
  import opened Wrappers
  import Closure
  import AgentLoop
  import opened Cases
  import opened CaseInvariants
  import opened CaseRuns
  import opened CaseHistory

  // ---- an investigation -------------------------------------------------------------

  /** The conclusion recommends an action. */
  predicate Recommends(inv: InvRow) {
    inv.conclusion.Some? && inv.conclusion.value.action.Some? && inv.conclusion.value.action.value != ""
  }

  predicate Blocked(sup: Supervisor, end: Ending) {
    sup.enabled && sup.block && !end.auditPassed
  }

  /** The event is concluded exactly when the loop accepted a settling verdict and no supervisor blocked it;
      otherwise it waits for a human. The new row holds the conclusion, unless it was blocked, and what it
      rests on; a recommended action leaves one suggestion, and a run that was given up recommends one. */
  lemma InvestigationExact(db: Db, e: nat, env: AgentLoop.Env, sup: Supervisor, end: Ending)
    requires e < |db.events|
    ensures var o, db' := AgentLoop.Run(env), Investigate(db, e, env, sup, end);
      && |db'.invs| == |db.invs| + 1 && db'.invs[..|db.invs|] == db.invs
      && var inv := db'.invs[|db.invs|];
         && inv.event == e && inv.finished == Some(end.at)
         && inv.conclusion == Some(if Blocked(sup, end) then Closure.Degraded else o.conclusion)
         && inv.evidence == Evidence(env.template, env.config.closure, o.state.toolRows, sup, end.auditPassed)
         && db'.disps == db.disps + (if Recommends(inv) then [DispRow(|db.invs|, Suggested)] else [])
         && (!o.exit.Accepted? || Blocked(sup, end) ==> Recommends(inv) && Asks(inv))
    ensures var o := AgentLoop.Run(env);
      var settled := o.exit.Accepted? && !Closure.NeedsHuman(o.conclusion.verdict) && !Blocked(sup, end);
      Investigate(db, e, env, sup, end).events ==
        db.events[e := EventRow(if settled then Concluded else HumanPending, db.events[e].probe)]
  {
    AgentLoop.RunFinishes(env);
  }

  // ---- suggestions ------------------------------------------------------------------

  predicate HasDisp(disps: seq<DispRow>, i: nat) {
    exists d :: 0 <= d < |disps| && disps[d].inv == i
  }

  /** An investigation has exactly one disposition when its conclusion recommends an action, and none
      otherwise. */
  ghost predicate SuggestionsOk(db: Db) {
    && (forall d :: 0 <= d < |db.disps| ==> db.disps[d].inv < |db.invs| && Recommends(db.invs[db.disps[d].inv]))
    && (forall c, d :: 0 <= c < d < |db.disps| ==> db.disps[c].inv != db.disps[d].inv)
    && (forall i :: 0 <= i < |db.invs| && Recommends(db.invs[i]) ==> HasDisp(db.disps, i))
  }

  /** No row is added, and none changes but in its status. */
  ghost predicate RowsStay(a: Db, b: Db) {
    && |a.disps| == |b.disps| && |a.invs| == |b.invs|
    && (forall d :: 0 <= d < |a.disps| ==> b.disps[d].inv == a.disps[d].inv)
    && (forall i :: 0 <= i < |a.invs| ==> b.invs[i] == a.invs[i].(status := b.invs[i].status))
  }

  lemma RowsStayTransitive(a: Db, b: Db, c: Db)
    requires RowsStay(a, b) && RowsStay(b, c)
    ensures RowsStay(a, c)
  {
    forall i | 0 <= i < |a.invs| ensures c.invs[i] == a.invs[i].(status := c.invs[i].status) {
      assert b.invs[i] == a.invs[i].(status := b.invs[i].status);
    }
  }

  lemma StayingSuggestions(a: Db, b: Db)
    requires SuggestionsOk(a) && RowsStay(a, b)
    ensures SuggestionsOk(b)
  {
    forall i | 0 <= i < |b.invs| && Recommends(b.invs[i]) ensures HasDisp(b.disps, i) {
      assert Recommends(a.invs[i]);
      var d :| 0 <= d < |a.disps| && a.disps[d].inv == i;
      assert b.disps[d].inv == i;
    }
  }

  lemma SuggestionAdded(db: Db, db': Db)
    requires SuggestionsOk(db) && |db'.invs| == |db.invs| + 1 && db'.invs[..|db.invs|] == db.invs
    requires db'.disps == db.disps +
      (if Recommends(db'.invs[|db.invs|]) then [DispRow(|db.invs|, Suggested)] else [])
    ensures SuggestionsOk(db')
  {
    forall i | 0 <= i < |db.invs| ensures db'.invs[i] == db.invs[i] { assert db'.invs[..|db.invs|][i] == db.invs[i]; }
    forall i | 0 <= i < |db'.invs| && Recommends(db'.invs[i]) ensures HasDisp(db'.disps, i) {
      if i < |db.invs| {
        var d :| 0 <= d < |db.disps| && db.disps[d].inv == i;
        assert db'.disps[d].inv == i;
      } else {
        assert db'.disps[|db.disps|].inv == i;
      }
    }
  }

  lemma InvestigateSuggests(db: Db, e: nat, env: AgentLoop.Env, sup: Supervisor, end: Ending)
    requires SuggestionsOk(db) && e < |db.events|
    ensures SuggestionsOk(Investigate(db, e, env, sup, end))
  {
    InvestigationExact(db, e, env, sup, end);
    SuggestionAdded(db, Investigate(db, e, env, sup, end));
  }

  lemma {:induction false} ProcessAllSuggests(w: World, s: Settings, picks: seq<Pick>)
    requires SuggestionsOk(w.db) && forall i :: 0 <= i < |picks| ==> picks[i].event < |w.db.events|
    ensures SuggestionsOk(ProcessAll(w, s, picks).db)
    decreases |picks|
  {
    if picks != [] {
      InvestigateSuggests(w.db, picks[0].event, EnvOf(s, picks[0]), s.supervisor, picks[0].end);
      ProcessAllSuggests(Process(w, s, picks[0]), s, picks[1..]);
    }
  }

  lemma {:induction false} DispatchAllStays(db: Db, sends: seq<Send>, now: int)
    requires forall k :: 0 <= k < |sends| ==> sends[k].inv < |db.invs|
    ensures RowsStay(db, DispatchAll(db, sends, now))
    decreases |sends|
  {
    if sends != [] {
      var db' := if sends[0].delivered then Dispatch(db, sends[0], now) else db;
      DispatchAllStays(db', sends[1..], now);
      RowsStayTransitive(db, db', DispatchAll(db', sends[1..], now));
    }
  }

  lemma {:induction false} ScanDisps(db: Db, picked: seq<nat>, targets: seq<Target>, limit: nat, cfg: SettleConfig)
    requires forall k :: 0 <= k < |targets| ==> targets[k].event < |db.events|
    ensures Scan(db, picked, targets, limit, cfg).0.disps == db.disps
    decreases |picked|
  {
    if picked != [] && |targets| < limit {
      ScanDisps(ScanOne(db, picked[0], cfg), picked[1..], AddTarget(db, targets, picked[0]), limit, cfg);
    }
  }

  lemma {:induction false} SettleDisps(db: Db, targets: seq<Target>, faults: nat -> SettleFault, cfg: SettleConfig)
    requires forall k :: 0 <= k < |targets| ==> targets[k].event < |db.events|
    ensures SettleAll(db, targets, faults, cfg).disps == db.disps
    decreases |targets|
  {
    if targets != [] {
      SettleDisps(SettleOne(db, targets[0], faults(targets[0].event), cfg), targets[1..], faults, cfg);
    }
  }

  lemma SettleStays(db: Db, cfg: SettleConfig, limit: nat, picked: seq<nat>, faults: nat -> SettleFault)
    ensures var db' := Settle(db, cfg, limit, picked, faults); db'.disps == db.disps && db'.invs == db.invs
  {
    var (scanned, targets) := Scan(db, picked, [], limit, cfg);
    ScanDisps(db, picked, [], limit, cfg);
    ScanInvs(db, picked, [], limit, cfg);
    SettleDisps(scanned, targets, faults, cfg);
    SettleInvs(scanned, targets, faults, cfg);
  }

  /** Every service call but an investigation leaves the rows in place. */
  lemma OthersStay(w: World, p: Policy, step: Step)
    requires Good(w, p) && Enabled(w, step) && !step.InvestigationBatch? && !step.ProbeInvestigation?
    ensures RowsStay(w.db, Apply(w, step).db)
  {
    match step
    case ReviewBatch(now, cutoff, _, sends, _) => DispatchAllStays(Tidy(w.db, cutoff), sends, now);
    case SettleBatch(cfg, limit, picked, faults, _) => SettleStays(w.db, cfg, limit, picked, faults);
    case _ =>
  }

  lemma ApplySuggests(w: World, p: Policy, step: Step)
    requires Good(w, p) && Enabled(w, step) && SuggestionsOk(w.db)
    ensures SuggestionsOk(Apply(w, step).db)
  {
    match step
    case InvestigationBatch(day, s, picks) => ProcessAllSuggests(w.(today := day), s, picks);
    case ProbeInvestigation(e, env, end) => InvestigateSuggests(w.db, e, env, Supervisor(false, false), end);
    case _ =>
      OthersStay(w, p, step);
      StayingSuggestions(w.db, Apply(w, step).db);
  }

  lemma {:induction false} RunSuggests(w: World, steps: seq<Step>, p: Policy)
    requires Good(w, p) && Legal(w, steps, p) && SuggestionsOk(w.db)
    ensures SuggestionsOk(After(w, steps, p).db)
    decreases |steps|
  {
    if steps != [] {
      ApplyKeeps(w, p, steps[0]);
      ApplySuggests(w, p, steps[0]);
      RunSuggests(Apply(w, steps[0]), steps[1..], p);
    }
  }

  /** The newest completed investigation of the event recommends an action, and the event is closed. */
  predicate ClosedWithAction(db: Db, e: nat) {
    && e < |db.events| && db.events[e].status.Closed?
    && Settleable(db, e).Some? && Recommends(db.invs[Settleable(db, e).value])
  }

  lemma SuggestionDecided(db: Db, p: Policy, e: nat)
    requires Inv(db, p) && SuggestionsOk(db) && p.confirm && ClosedWithAction(db, e)
    ensures ActionDecided(db.disps, Settleable(db, e).value)
  {
    ClosedIsSettled(db, p, e);
    var d :| 0 <= d < |db.disps| && db.disps[d].inv == Settleable(db, e).value;
  }

  /** In every reachable state an investigation has exactly one disposition when its conclusion recommends
      an action, and none otherwise; that of a closed event has been confirmed or rejected, when closing
      requires decisions. */
  lemma RecommendedIsDecided(steps: seq<Step>, p: Policy)
    requires Legal(Empty, steps, p)
    ensures SuggestionsOk(After(Empty, steps, p).db)
    ensures var db := After(Empty, steps, p).db;
      forall e :: p.confirm && ClosedWithAction(db, e) ==> ActionDecided(db.disps, Settleable(db, e).value)
  {
    RunKeeps(Empty, steps, p);
    RunSuggests(Empty, steps, p);
    var db := After(Empty, steps, p).db;
    forall e | p.confirm && ClosedWithAction(db, e) ensures ActionDecided(db.disps, Settleable(db, e).value) {
      SuggestionDecided(db, p, e);
    }
  }

  predicate ActionDecided(disps: seq<DispRow>, i: nat) {
    exists d :: 0 <= d < |disps| && disps[d].inv == i && (disps[d].status.Confirmed? || disps[d].status.Rejected?)
  }

  // ---- decisions --------------------------------------------------------------------

  /** A row is decided in b only if it was in a, in the same way, or the step has decided just that row. */
  ghost predicate DecidedBy(a: Db, b: Db, step: Step) {
    |a.disps| <= |b.disps| &&
    forall d :: 0 <= d < |b.disps| ==>
      if step.DecideDisposition? && step.disp == d && d < |a.disps| && a.disps[d].status.Suggested?
      then b.disps[d] == a.disps[d].(status := step.status)
      else if d < |a.disps| then b.disps[d] == a.disps[d] else b.disps[d].status.Suggested?
  }

  lemma {:induction false} ProcessAllDecides(w: World, s: Settings, picks: seq<Pick>)
    requires forall i :: 0 <= i < |picks| ==> picks[i].event < |w.db.events|
    ensures var b := ProcessAll(w, s, picks).db;
      w.db.disps <= b.disps && forall d :: |w.db.disps| <= d < |b.disps| ==> b.disps[d].status.Suggested?
    decreases |picks|
  {
    if picks != [] { ProcessAllDecides(Process(w, s, picks[0]), s, picks[1..]); }
  }

  lemma {:induction false} DispatchAllDisps(db: Db, sends: seq<Send>, now: int)
    requires forall k :: 0 <= k < |sends| ==> sends[k].inv < |db.invs|
    ensures DispatchAll(db, sends, now).disps == db.disps
    decreases |sends|
  {
    if sends != [] {
      DispatchAllDisps(if sends[0].delivered then Dispatch(db, sends[0], now) else db, sends[1..], now);
    }
  }

  /** Dispositions start as suggestions, and only a decision on that very row changes one, to what was
      decided. */
  lemma OnlyDecisionsDecide(w: World, p: Policy, step: Step)
    requires Good(w, p) && Enabled(w, step)
    ensures DecidedBy(w.db, Apply(w, step).db, step)
  {
    match step
    case InvestigationBatch(day, s, picks) => ProcessAllDecides(w.(today := day), s, picks);
    case ReviewBatch(now, cutoff, _, sends, _) => DispatchAllDisps(Tidy(w.db, cutoff), sends, now);
    case SettleBatch(cfg, limit, picked, faults, _) => SettleStays(w.db, cfg, limit, picked, faults);
    case _ =>
  }

  // ---- a review batch -----------------------------------------------------------------

  /** The sends that get through, in their order. */
  function Through(sends: seq<Send>): seq<Send> {
    if sends == [] then [] else (if sends[0].delivered then [sends[0]] else []) + Through(sends[1..])
  }

  /** One open request per message that got through, sent now. */
  ghost predicate AsksAll(reqs: seq<ReqRow>, first: nat, through: seq<Send>, now: int) {
    && |reqs| == first + |through|
    && forall k :: 0 <= k < |through| ==>
      reqs[first + k] == ReqRow(through[k].event, through[k].inv, Sent, now, through[k].id)
  }

  lemma {:induction false} DispatchAllAsks(db: Db, sends: seq<Send>, now: int)
    requires forall k :: 0 <= k < |sends| ==> sends[k].inv < |db.invs|
    ensures var reqs := DispatchAll(db, sends, now).reqs;
      db.reqs <= reqs && AsksAll(reqs, |db.reqs|, Through(sends), now)
    decreases |sends|
  {
    if sends != [] {
      var db' := if sends[0].delivered then Dispatch(db, sends[0], now) else db;
      DispatchAllAsks(db', sends[1..], now);
      if sends[0].delivered {
        var reqs, rest := DispatchAll(db', sends[1..], now).reqs, Through(sends[1..]);
        assert reqs[|db.reqs|] == db'.reqs[|db.reqs|];
        assert Through(sends) == [sends[0]] + rest;
        forall k | 1 <= k < |Through(sends)|
          ensures reqs[|db.reqs| + k] == ReqRow(Through(sends)[k].event, Through(sends)[k].inv, Sent, now,
            Through(sends)[k].id) {
          assert reqs[|db'.reqs| + (k - 1)] ==
            ReqRow(rest[k - 1].event, rest[k - 1].inv, Sent, now, rest[k - 1].id);
        }
      } else {
        assert Through(sends) == Through(sends[1..]);
      }
    }
  }

  /** The requests after a batch: an open one sent before the cutoff has expired, every other is as it was,
      and each message that got through has a new one. */
  ghost predicate Reviewed(a: Db, b: Db, cutoff: int, sends: seq<Send>, now: int) {
    && AsksAll(b.reqs, |a.reqs|, Through(sends), now)
    && forall r :: 0 <= r < |a.reqs| ==>
      b.reqs[r] == if a.reqs[r].status.Sent? && a.reqs[r].sentAt < cutoff
        then a.reqs[r].(status := Expired) else a.reqs[r]
  }

  lemma ReviewExact(db: Db, p: Policy, cutoff: int, maxResend: int, sends: seq<Send>, now: int)
    requires Inv(db, p) && SendsOk(Tidy(db, cutoff), sends, maxResend)
    ensures Reviewed(db, Review(db, cutoff, sends, now), cutoff, sends, now)
  {
    TidyKeeps(db, p, cutoff);
    DispatchAllAsks(Tidy(db, cutoff), sends, now);
    var reqs := Review(db, cutoff, sends, now).reqs;
    forall r | 0 <= r < |db.reqs|
      ensures reqs[r] == if db.reqs[r].status.Sent? && db.reqs[r].sentAt < cutoff
        then db.reqs[r].(status := Expired) else db.reqs[r] {
      assert reqs[r] == Tidy(db, cutoff).reqs[r];
    }
  }

  /** So no request that is open after a batch was sent before its cutoff. */
  lemma NoneOverdue(a: Db, b: Db, cutoff: int, sends: seq<Send>, now: int)
    requires Reviewed(a, b, cutoff, sends, now) && now >= cutoff
    ensures forall r :: 0 <= r < |b.reqs| && b.reqs[r].status.Sent? ==> b.reqs[r].sentAt >= cutoff
  {
    forall r | 0 <= r < |b.reqs| && b.reqs[r].status.Sent? ensures b.reqs[r].sentAt >= cutoff {
      if r >= |a.reqs| {
        var k, through := r - |a.reqs|, Through(sends);
        assert b.reqs[|a.reqs| + k] == ReqRow(through[k].event, through[k].inv, Sent, now, through[k].id);
      }
    }
  }

  /** In a reachable state an event may be asked about exactly when it waits for a human, no request for it
      is open, and it has not been asked about too often. */
  lemma DispatchableIff(db: Db, p: Policy, e: nat, maxResend: int)
    requires Inv(db, p)
    ensures Dispatchable(db, e, maxResend) <==>
      && e < |db.events| && db.events[e] == EventRow(HumanPending, false) && CountReqs(db.reqs, e) <= maxResend
      && forall r :: 0 <= r < |db.reqs| && db.reqs[r].event == e ==> !db.reqs[r].status.Sent?
  {
    if e < |db.events| && db.events[e] == EventRow(HumanPending, false) {
      assert HasInv(db, e);
      var i :| 0 <= i < |db.invs| && db.invs[i].event == e;
      NewestIsOnly(db, p, i);
    }
  }

  /** In a reachable state the batch may pick exactly the ordinary pending events without an investigation. */
  lemma PickableIff(db: Db, p: Policy, e: nat)
    requires Inv(db, p)
    ensures Pickable(db, e) <==> e < |db.events| && db.events[e] == EventRow(PendingReview, false) && !HasInv(db, e)
  {
    if Pickable(db, e) { PickableIsFresh(db, p, e); }
    if e < |db.events| && !HasInv(db, e) {
      forall i | 0 <= i < |db.invs| ensures db.invs[i].event != e { if db.invs[i].event == e { assert HasInv(db, e); } }
    }
  }

  /** Whatever the tables hold, the sweep cancels just the open requests of events that do not wait for a
      human, and those to an investigation that is not the newest of its event. */
  lemma SweepExact(db: Db, r: nat)
    requires r < |db.reqs|
    ensures var row := db.reqs[r];
      var kept := row.event < |db.events| && db.events[row.event].status.HumanPending? && row.inv < |db.invs| &&
        db.invs[row.inv].event == row.event && forall j :: row.inv < j < |db.invs| ==> db.invs[j].event != row.event;
      Sweep(db)[r] == if row.status.Sent? && !kept then row.(status := Cancelled) else row
  {
  }

  /** After an investigation, no request of its event stays open but one to that investigation, when the
      event waits for a human; no other request changes. */
  lemma CancelObsoleteExact(reqs: seq<ReqRow>, e: nat, current: nat, status: EventStatus, r: nat)
    requires r < |reqs|
    ensures var after := CancelObsoleteFor(reqs, e, current, status)[r];
      && (after.event == e && after.status.Sent? ==> status.HumanPending? && after.inv == current)
      && (after == reqs[r] || (reqs[r].event == e && reqs[r].status.Sent? &&
            !(status.HumanPending? && reqs[r].inv == current) && after == reqs[r].(status := Cancelled)))
  {
  }

  // ---- a reply ----------------------------------------------------------------------

  /** Request r has been answered by the text: its row and its investigation are done, the event is back in
      the queue if it is to be investigated again, and nothing else has changed. */
  ghost predicate AnsweredWith(a: Db, b: Db, r: nat, raw: string, reinvestigate: bool)
    requires r < |a.reqs|
  {
    var row := a.reqs[r];
    && b.responses == a.responses + [Response(r, raw)]
    && b.reqs == a.reqs[r := ReqRow(row.event, row.inv, Answered, row.sentAt, row.id)]
    && b.disps == a.disps && b.cases == a.cases && |b.events| == |a.events| && |b.invs| == |a.invs|
    && (forall e :: 0 <= e < |a.events| ==>
          b.events[e] == if e == row.event && reinvestigate then EventRow(PendingReview, false) else a.events[e])
    && (forall i :: 0 <= i < |a.invs| ==>
          b.invs[i] == if i == row.inv then a.invs[i].(status := AgentLoop.Completed) else a.invs[i])
  }

  lemma ReplyExact(db: Db, p: Policy, r: nat, raw: string, reinvestigate: bool)
    requires Inv(db, p) && CanReply(db, r)
    ensures AnsweredWith(db, Reply(db, r, raw, reinvestigate), r, raw, reinvestigate)
  {
    assert Open(db, db.reqs[r]);
  }

  /** A message that names an open request through its channel answers that request with its whole text,
      and marks its event even if the answer cannot be committed; a named request that is not open is not
      answered. */
  lemma NamedRequestAnswered(w: World, p: Policy, message: Incoming, reinvestigate: bool, commits: bool)
    requires Good(w, p) && message.request.Some?
    ensures var r, w' := message.request.value, Apply(w, HandleReply(message, reinvestigate, commits));
      if r < |w.db.reqs| && w.db.reqs[r].status.Sent?
      then (if commits then AnsweredWith(w.db, w'.db, r, message.raw, reinvestigate) else w'.db == w.db) &&
        w'.markers == w.markers + (if reinvestigate then {w.db.reqs[r].event} else {})
      else w' == w
  {
    var r := message.request.value;
    if r < |w.db.reqs| && w.db.reqs[r].status.Sent? {
      OpenCanBeAnswered(w.db, p, r);
      NoReplyIsDuplicate(w.db, p, r, message.raw, message.external);
      ReplyExact(w.db, p, r, message.raw, reinvestigate);
    }
  }

  /** In any state, a message from a channel that repeats a stored response changes nothing. */
  lemma RepeatedResponseIgnored(w: World, message: Incoming, reinvestigate: bool, commits: bool, k: nat)
    requires message.external && Addressee(w.db, message).Some? && k < |w.db.responses|
    requires var (r, raw) := Addressee(w.db, message).value;
      w.db.responses[k].req == r && w.db.responses[k].raw == raw
    ensures Apply(w, HandleReply(message, reinvestigate, commits)) == w
  {
    assert w.db.responses[k] in w.db.responses;
  }

  lemma OpenCanBeAnswered(db: Db, p: Policy, r: nat)
    requires Inv(db, p) && r < |db.reqs| && db.reqs[r].status.Sent?
    ensures CanReply(db, r)
  {
    assert Open(db, db.reqs[r]);
  }

  /** A call that does not commit leaves the tables as they were; a pick leaves them so exactly as far as an
      exception strikes. */
  lemma UncommittedLeavesTables(w: World, step: Step)
    requires Enabled(w, step)
    requires match step
      case ReviewBatch(_, _, _, _, commits) => !commits
      case HandleReply(_, _, commits) => !commits
      case SettleBatch(_, _, _, _, commits) => !commits
      case _ => false
    ensures Apply(w, step).db == w.db
  {
  }

  lemma ProcessExact(w: World, s: Settings, pick: Pick)
    requires pick.event < |w.db.events|
    ensures var w' := Process(w, s, pick);
      var charged := !pick.fault.InInvestigation? && !w.db.events[pick.event].probe;
      && w'.markers == w.markers - (if charged then {pick.event} else {})
      && forall d ::
        CountOn(w'.counts, d) == CountOn(w.counts, d) +
          if d == pick.day && charged && pick.event !in w.markers then 1 else 0
    ensures Process(w, s, pick).db == if pick.fault.Fine?
      then Investigate(w.db, pick.event, EnvOf(s, pick), s.supervisor, pick.end) else w.db
    ensures Process(w, s, pick).today == pick.day
  {
  }

  // ---- a settlement batch -------------------------------------------------------------

  /** The configuration lets the event of investigation i be closed: automatically, and with every
      disposition of i decided if that is required. */
  ghost predicate Allowed(db: Db, i: nat, cfg: SettleConfig) {
    cfg.autoClose && (!cfg.confirm || forall d :: 0 <= d < |db.disps| && db.disps[d].inv == i ==>
      db.disps[d].status.Confirmed? || db.disps[d].status.Rejected?)
  }

  /** An ordinary event can be settled exactly when it is concluded or closed. */
  lemma SettleableIff(db: Db, p: Policy, e: nat)
    requires Inv(db, p) && e < |db.events| && !db.events[e].probe
    ensures Settleable(db, e).Some? <==> db.events[e].status.Concluded? || db.events[e].status.Closed?
  {
    if Settleable(db, e).Some? { SettleableSettles(db, p, e); }
    if db.events[e].status.Concluded? || db.events[e].status.Closed? {
      assert HasInv(db, e);
      var i :| 0 <= i < |db.invs| && db.invs[i].event == e;
      assert db.invs[i].status.Completed?;
    }
  }

  /** The scan makes an event a target exactly when it comes to it and the event can be settled and has no
      case yet. */
  lemma {:induction false} ScanTargetsExact(db: Db, picked: seq<nat>, targets: seq<Target>, limit: nat,
    cfg: SettleConfig, e: nat)
    requires forall k :: 0 <= k < |targets| ==> targets[k].event < |db.events|
    ensures Targeted(Scan(db, picked, targets, limit, cfg).1, e) <==>
      Targeted(targets, e) || (ComesTo(db, picked, |targets|, limit, e) && IsTarget(db, e))
    decreases |picked|
  {
    if picked != [] && |targets| < limit {
      var x, more := picked[0], AddTarget(db, targets, picked[0]);
      ScanTargetsExact(ScanOne(db, x, cfg), picked[1..], more, limit, cfg, e);
      ComesToCons(db, picked, targets, limit, e, cfg);
      ScanOneTarget(db, x, cfg, e);
      AddTargeted(db, targets, x, e);
    }
  }

  lemma ScanOneTarget(db: Db, x: nat, cfg: SettleConfig, e: nat)
    ensures IsTarget(ScanOne(db, x, cfg), e) <==> IsTarget(db, e)
  {
    ScanOneKeepsTargets(db, x, cfg, [e]);
    assert [e][1..] == [];
  }

  lemma AddTargeted(db: Db, targets: seq<Target>, x: nat, e: nat)
    ensures Targeted(AddTarget(db, targets, x), e) <==> Targeted(targets, e) || (x == e && IsTarget(db, e))
  {
    var more := AddTarget(db, targets, x);
    if Targeted(targets, e) {
      var k :| 0 <= k < |targets| && targets[k].event == e;
      assert more[k].event == e;
    }
    if Targeted(more, e) {
      var k :| 0 <= k < |more| && more[k].event == e;
      if k < |targets| { assert targets[k].event == e; }
    }
    if x == e && IsTarget(db, e) { assert more[|targets|].event == e; }
  }

  /** The targets whose case has been built. */
  function Built(targets: seq<Target>, faults: nat -> SettleFault): seq<nat> {
    if targets == [] then [] else
    (if faults(targets[0].event) == BeforeCase then [] else [targets[0].inv]) + Built(targets[1..], faults)
  }

  /** The target is settled to the end, and its event may be closed. */
  ghost predicate Closing(db: Db, t: Target, faults: nat -> SettleFault, cfg: SettleConfig) {
    faults(t.event) == NoFault && Allowed(db, t.inv, cfg)
  }

  ghost predicate ClosedByTarget(db: Db, targets: seq<Target>, faults: nat -> SettleFault, cfg: SettleConfig, e: nat) {
    exists k :: 0 <= k < |targets| && targets[k].event == e && Closing(db, targets[k], faults, cfg)
  }

  lemma ClosedByTargetCons(db: Db, targets: seq<Target>, faults: nat -> SettleFault, cfg: SettleConfig, e: nat)
    requires targets != []
    ensures ClosedByTarget(db, targets, faults, cfg, e) <==>
      (targets[0].event == e && Closing(db, targets[0], faults, cfg)) ||
      ClosedByTarget(db, targets[1..], faults, cfg, e)
  {
    if ClosedByTarget(db, targets[1..], faults, cfg, e) {
      var k :| 0 <= k < |targets| - 1 && targets[1..][k].event == e && Closing(db, targets[1..][k], faults, cfg);
      assert targets[k + 1] == targets[1..][k];
    }
    if ClosedByTarget(db, targets, faults, cfg, e) {
      var k :| 0 <= k < |targets| && targets[k].event == e && Closing(db, targets[k], faults, cfg);
      if k > 0 { assert targets[1..][k - 1] == targets[k]; }
    }
  }

  lemma MayCloseIff(db: Db, i: nat, cfg: SettleConfig)
    ensures MayClose(db, i, cfg) <==> Allowed(db, i, cfg)
  {
  }

  /** Settling the targets adds a case for each that gets that far, and closes the event of each that gets
      to the end and may be closed. */
  lemma {:induction false} SettleAllExact(db: Db, targets: seq<Target>, faults: nat -> SettleFault, cfg: SettleConfig)
    requires forall k :: 0 <= k < |targets| ==> targets[k].event < |db.events|
    ensures var r := SettleAll(db, targets, faults, cfg);
      && r == db.(events := r.events, cases := r.cases) && r.cases == db.cases + Built(targets, faults)
      && |r.events| == |db.events|
      && forall e :: 0 <= e < |db.events| ==>
        r.events[e] == if ClosedByTarget(db, targets, faults, cfg, e)
          then db.events[e].(status := Closed) else db.events[e]
    decreases |targets|
  {
    if targets != [] {
      var t := targets[0];
      var db' := SettleOne(db, t, faults(t.event), cfg);
      MayCloseIff(db, t.inv, cfg);
      SettleAllExact(db', targets[1..], faults, cfg);
      assert db.cases + Built(targets, faults) == db'.cases + Built(targets[1..], faults);
      forall e { SameClosing(db, db', targets[1..], faults, cfg, e); }
      forall e { ClosedByTargetCons(db, targets, faults, cfg, e); }
    }
  }

  lemma SameClosing(db: Db, db': Db, targets: seq<Target>, faults: nat -> SettleFault, cfg: SettleConfig, e: nat)
    requires db'.disps == db.disps
    ensures ClosedByTarget(db', targets, faults, cfg, e) <==> ClosedByTarget(db, targets, faults, cfg, e)
  {
    forall k | 0 <= k < |targets|
      ensures Closing(db', targets[k], faults, cfg) <==> Closing(db, targets[k], faults, cfg) {
    }
  }

  lemma {:induction false} BuiltMember(targets: seq<Target>, faults: nat -> SettleFault, i: nat)
    ensures i in Built(targets, faults) <==>
      exists k :: 0 <= k < |targets| && targets[k].inv == i && faults(targets[k].event) != BeforeCase
  {
    if targets != [] {
      BuiltMember(targets[1..], faults, i);
      forall k | 0 <= k < |targets| - 1 ensures targets[1..][k] == targets[k + 1] {}
    }
  }

  /** A batch comes to the event, and the event is an ordinary one that can be settled. */
  ghost predicate Reaches(db: Db, picked: seq<nat>, limit: nat, e: nat) {
    ComesTo(db, picked, 0, limit, e) && e < |db.events| && !db.events[e].probe && Settleable(db, e).Some?
  }

  /** The case of the event has been there or is built without an exception, and it may be closed. */
  ghost predicate ClosesEvent(db: Db, faults: nat -> SettleFault, cfg: SettleConfig, e: nat)
    requires Settleable(db, e).Some?
  {
    var i := Settleable(db, e).value;
    Allowed(db, i, cfg) && (i in db.cases || faults(e) == NoFault)
  }

  lemma ClosedByTargetIff(db: Db, p: Policy, cfg: SettleConfig, limit: nat, picked: seq<nat>,
    faults: nat -> SettleFault, e: nat)
    requires Inv(db, p) && Distinct(picked) && (p.confirm ==> cfg.confirm)
    ensures var (scanned, targets) := Scan(db, picked, [], limit, cfg);
      ClosedByTarget(scanned, targets, faults, cfg, e) <==>
        Reaches(db, picked, limit, e) && Settleable(db, e).value !in db.cases && ClosesEvent(db, faults, cfg, e)
  {
    var (scanned, targets) := Scan(db, picked, [], limit, cfg);
    ScanKeeps(db, p, picked, [], limit, cfg);
    ScanClosesWhatMayClose(db, picked, [], limit, cfg);
    ScanTargetsExact(db, picked, [], limit, cfg, e);
    SameSettleable(db, scanned, e);
    if Targeted(targets, e) {
      var k :| 0 <= k < |targets| && targets[k].event == e;
      assert TargetOk(scanned, targets[k]);
      assert Closing(scanned, targets[k], faults, cfg) <==> ClosesEvent(db, faults, cfg, e);
    }
  }

  lemma SameSettleable(db: Db, scanned: Db, e: nat)
    requires scanned == db.(events := scanned.events)
    ensures Settleable(scanned, e) == Settleable(db, e)
  {
  }

  /** A settlement batch closes exactly the events that it comes to, that can be settled and may be closed,
      and whose case was there or has been built without an exception; nothing else changes about them. */
  lemma SettlementCloses(db: Db, p: Policy, cfg: SettleConfig, limit: nat, picked: seq<nat>,
    faults: nat -> SettleFault, e: nat)
    requires Inv(db, p) && Distinct(picked) && (p.confirm ==> cfg.confirm) && e < |db.events|
    ensures var db' := Settle(db, cfg, limit, picked, faults);
      && |db'.events| == |db.events| && db' == db.(events := db'.events, cases := db'.cases)
      && db'.events[e] == if Reaches(db, picked, limit, e) && ClosesEvent(db, faults, cfg, e)
        then EventRow(Closed, false) else db.events[e]
  {
    var (scanned, targets) := Scan(db, picked, [], limit, cfg);
    ScanClosesWhatMayClose(db, picked, [], limit, cfg);
    SettleAllExact(scanned, targets, faults, cfg);
    ClosedByTargetIff(db, p, cfg, limit, picked, faults, e);
    if Settleable(db, e).Some? { MayCloseIff(db, Settleable(db, e).value, cfg); }
  }

  /** It adds exactly the cases of the events that it comes to, that can be settled and had none, unless an
      exception strikes before. */
  lemma SettlementBuilds(db: Db, p: Policy, cfg: SettleConfig, limit: nat, picked: seq<nat>,
    faults: nat -> SettleFault, e: nat)
    requires Inv(db, p) && Distinct(picked) && (p.confirm ==> cfg.confirm)
    requires e < |db.events| && !db.events[e].probe && Settleable(db, e).Some?
    ensures var i := Settleable(db, e).value;
      i in Settle(db, cfg, limit, picked, faults).cases <==>
        i in db.cases || (Reaches(db, picked, limit, e) && faults(e) != BeforeCase)
  {
    var i := Settleable(db, e).value;
    var (scanned, targets) := Scan(db, picked, [], limit, cfg);
    ScanKeeps(db, p, picked, [], limit, cfg);
    ScanInvs(db, picked, [], limit, cfg);
    SettleAllExact(scanned, targets, faults, cfg);
    BuiltMember(targets, faults, i);
    ScanTargetsExact(db, picked, [], limit, cfg, e);
    TargetsOfEvent(db, p, scanned, targets, e);
    ScanClosesWhatMayClose(db, picked, [], limit, cfg);
    if Targeted(targets, e) {
      var k :| 0 <= k < |targets| && targets[k].event == e;
      assert targets[k].inv == i;
    }
  }

  /** The targets of an event are those with its investigation. */
  lemma TargetsOfEvent(db: Db, p: Policy, scanned: Db, targets: seq<Target>, e: nat)
    requires Inv(db, p) && e < |db.events| && !db.events[e].probe && Settleable(db, e).Some?
    requires TargetsOk(scanned, targets) && scanned.invs == db.invs
    ensures forall k :: 0 <= k < |targets| ==> (targets[k].event == e <==> targets[k].inv == Settleable(db, e).value)
  {
    forall k | 0 <= k < |targets| ensures targets[k].event == e <==> targets[k].inv == Settleable(db, e).value {
      assert TargetOk(scanned, targets[k]);
      assert Settleable(scanned, targets[k].event) == Settleable(db, targets[k].event);
    }
  }
}
