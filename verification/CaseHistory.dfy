/** What a run never undoes, and where an answered review leaves its event. */
module CaseHistory {
  import AgentLoop
  import opened Cases
  import opened CaseInvariants
  import opened CaseRuns

  // ---- decided rows are final ----------------------------------------------------

  ghost predicate ReqsAdvance(a: seq<ReqRow>, b: seq<ReqRow>) {
    && |a| <= |b|
    && forall r :: 0 <= r < |a| ==> b[r] == a[r].(status := b[r].status) && (!a[r].status.Sent? ==> b[r] == a[r])
  }

  ghost predicate DispsAdvance(a: seq<DispRow>, b: seq<DispRow>) {
    && |a| <= |b|
    && forall d :: 0 <= d < |a| ==> b[d].inv == a[d].inv && (!a[d].status.Suggested? ==> b[d] == a[d])
  }

  ghost predicate InvsAdvance(a: seq<InvRow>, b: seq<InvRow>) {
    && |a| <= |b|
    && forall i :: 0 <= i < |a| ==> b[i] == a[i].(status := b[i].status) && (!Asks(a[i]) ==> b[i] == a[i])
  }

  ghost predicate EventsAdvance(a: seq<EventRow>, b: seq<EventRow>) {
    && |a| <= |b|
    && forall e :: 0 <= e < |a| ==> (a[e].probe ==> b[e].probe) && (a[e].status.Closed? ==> b[e] == a[e])
  }

  /** Answered, expired and cancelled requests, decided dispositions, settled investigations, closed
      events and judgment cases never change again. */
  ghost predicate Advances(a: Db, b: Db) {
    ReqsAdvance(a.reqs, b.reqs) && DispsAdvance(a.disps, b.disps) && InvsAdvance(a.invs, b.invs)
    && EventsAdvance(a.events, b.events) && a.cases <= b.cases
  }

  lemma AdvancesSelf(db: Db)
    ensures Advances(db, db)
  {
  }

  lemma DispatchAdvances(db: Db, c: Send, now: int, maxResend: int)
    requires Candidate(db, c, maxResend)
    ensures Advances(db, Dispatch(db, c, now))
  {
  }

  lemma {:induction false} DispatchAllAdvances(db: Db, sends: seq<Send>, now: int, maxResend: int)
    requires SendsOk(db, sends, maxResend)
    ensures Advances(db, DispatchAll(db, sends, now))
    decreases |sends|
  {
    if sends == [] {
      AdvancesSelf(db);
    } else {
      var db' := if sends[0].delivered then Dispatch(db, sends[0], now) else db;
      if sends[0].delivered { DispatchAdvances(db, sends[0], now, maxResend); } else { AdvancesSelf(db); }
      DispatchHead(db, sends, now, maxResend);
      DispatchAllAdvances(db', sends[1..], now, maxResend);
      AdvancesTransitive(db, db', DispatchAll(db', sends[1..], now));
    }
  }

  lemma AdvancesTransitive(a: Db, b: Db, c: Db)
    requires Advances(a, b) && Advances(b, c)
    ensures Advances(a, c)
  {
    forall i | 0 <= i < |a.invs|
      ensures c.invs[i] == a.invs[i].(status := c.invs[i].status) && (!Asks(a.invs[i]) ==> c.invs[i] == a.invs[i]) {
      assert b.invs[i] == a.invs[i].(status := b.invs[i].status);
    }
  }

  lemma {:induction false} ScanAdvances(db: Db, picked: seq<nat>, targets: seq<Target>, limit: nat, cfg: SettleConfig)
    requires forall k :: 0 <= k < |targets| ==> targets[k].event < |db.events|
    ensures var r := Scan(db, picked, targets, limit, cfg).0;
      && Advances(db, r) && |r.events| == |db.events|
      && (forall e :: 0 <= e < |db.events| && (e !in picked || db.events[e].probe) ==> r.events[e] == db.events[e])
    decreases |picked|
  {
    if picked != [] && |targets| < limit {
      var db' := ScanOne(db, picked[0], cfg);
      ScanAdvances(db', picked[1..], AddTarget(db, targets, picked[0]), limit, cfg);
      AdvancesTransitive(db, db', Scan(db, picked, targets, limit, cfg).0);
    }
  }

  /** Probe events and events that were not picked are no targets. */
  lemma {:induction false} ScanTargets(db: Db, picked: seq<nat>, targets: seq<Target>, limit: nat, cfg: SettleConfig)
    requires forall k :: 0 <= k < |targets| ==> targets[k].event < |db.events|
    ensures forall e ::
      0 <= e < |db.events| && (e !in picked || db.events[e].probe) && !Targeted(targets, e)
      ==> !Targeted(Scan(db, picked, targets, limit, cfg).1, e)
    decreases |picked|
  {
    if picked != [] && |targets| < limit {
      var x := picked[0];
      var more := AddTarget(db, targets, x);
      ScanTargets(ScanOne(db, x, cfg), picked[1..], more, limit, cfg);
      forall e | Targeted(more, e) ensures Targeted(targets, e) || (e == x && !db.events[x].probe) {
        var k :| 0 <= k < |more| && more[k].event == e;
        if k < |targets| { assert targets[k].event == e; }
      }
    }
  }

  ghost predicate Targeted(targets: seq<Target>, e: nat) {
    exists k :: 0 <= k < |targets| && targets[k].event == e
  }

  lemma {:induction false} SettleAllAdvances(db: Db, targets: seq<Target>, faults: nat -> SettleFault,
    cfg: SettleConfig)
    requires forall k :: 0 <= k < |targets| ==> targets[k].event < |db.events|
    ensures var r := SettleAll(db, targets, faults, cfg);
      && Advances(db, r) && |r.events| == |db.events|
      && (forall e :: 0 <= e < |db.events| && !Targeted(targets, e) ==> r.events[e] == db.events[e])
    decreases |targets|
  {
    if targets != [] {
      var db' := SettleOne(db, targets[0], faults(targets[0].event), cfg);
      SettleAllAdvances(db', targets[1..], faults, cfg);
      AdvancesTransitive(db, db', SettleAll(db, targets, faults, cfg));
      forall e | Targeted(targets[1..], e) ensures Targeted(targets, e) {
        var k :| 0 <= k < |targets| - 1 && targets[1..][k].event == e;
        assert targets[k + 1].event == e;
      }
      assert Targeted(targets, targets[0].event);
    }
  }

  lemma InvestigateAdvances(db: Db, e: nat, env: AgentLoop.Env, sup: Supervisor, end: Ending)
    requires e < |db.events| && db.events[e].status.PendingReview?
    ensures Advances(db, Investigate(db, e, env, sup, end))
  {
    var (conclusion, _) := Verdict(env, sup, end);
    var status := EventStatusFor(conclusion);
    assert ReqsAdvance(db.reqs, CancelObsoleteFor(db.reqs, e, |db.invs|, status));
    assert EventsAdvance(db.events, db.events[e := db.events[e].(status := status)]);
  }

  ghost predicate Untouched(a: Db, b: Db, picks: seq<Pick>) {
    && |a.events| == |b.events|
    && forall e :: 0 <= e < |a.events| && (forall i :: 0 <= i < |picks| ==> picks[i].event != e) ==>
      b.events[e] == a.events[e]
  }

  lemma {:induction false} ProcessAllAdvances(w: World, p: Policy, s: Settings, picks: seq<Pick>)
    requires Good(w, p) && PicksOk(w.db, picks, w.today) && CountOn(w.counts, w.today) + |picks| <= p.budget
    ensures Advances(w.db, ProcessAll(w, s, picks).db) && Untouched(w.db, ProcessAll(w, s, picks).db, picks)
    decreases |picks|
  {
    if picks != [] {
      var w' := Process(w, s, picks[0]);
      ProcessHead(w, p, s, picks);
      InvestigateAdvances(w.db, picks[0].event, EnvOf(s, picks[0]), s.supervisor, picks[0].end);
      ProcessAllAdvances(w', p, s, picks[1..]);
      var last := ProcessAll(w', s, picks[1..]).db;
      AdvancesTransitive(w.db, w'.db, last);
      UntouchedCons(w.db, w'.db, last, picks);
    }
  }

  lemma UntouchedCons(a: Db, b: Db, c: Db, picks: seq<Pick>)
    requires picks != [] && |a.events| == |b.events|
    requires forall e :: 0 <= e < |a.events| && e != picks[0].event ==> b.events[e] == a.events[e]
    requires Untouched(b, c, picks[1..])
    ensures Untouched(a, c, picks)
  {
    forall e | 0 <= e < |a.events| && (forall i :: 0 <= i < |picks| ==> picks[i].event != e)
      ensures c.events[e] == a.events[e] {
      assert picks[0].event != e;
      assert forall i :: 0 <= i < |picks| - 1 ==> picks[1..][i] == picks[i + 1];
    }
  }

  lemma ReplyAdvances(db: Db, p: Policy, r: nat, raw: string, reinvestigate: bool)
    requires Inv(db, p) && CanReply(db, r)
    ensures Advances(db, Reply(db, r, raw, reinvestigate))
  {
    assert Open(db, db.reqs[r]);
  }

  lemma CancelAdvances(db: Db, r: nat)
    ensures Advances(db, Cancel(db, r))
  {
  }

  lemma AddEventAdvances(db: Db, probe: bool)
    ensures Advances(db, db.(events := db.events + [EventRow(PendingReview, probe)]))
  {
  }

  lemma MergeProbeAdvances(db: Db, e: nat)
    requires e < |db.events| && db.events[e].status.PendingReview?
    ensures Advances(db, db.(events := db.events[e := EventRow(PendingReview, true)]))
  {
  }

  lemma DecideAdvances(db: Db, d: nat, status: DispStatus)
    ensures Advances(db, Decide(db, d, status))
  {
  }

  lemma ClosingAdvances(db: Db, reqs: seq<ReqRow>)
    requires Closes(db.reqs, reqs)
    ensures Advances(db, db.(reqs := reqs))
  {
  }

  lemma ReviewAdvances(db: Db, p: Policy, now: int, cutoff: int, maxResend: int, sends: seq<Send>)
    requires Inv(db, p) && SendsOk(Tidy(db, cutoff), sends, maxResend) && maxResend <= p.resend
    ensures Advances(db, Review(db, cutoff, sends, now))
  {
    TidyKeeps(db, p, cutoff);
    ClosingAdvances(db, Expire(db.reqs, cutoff));
    DispatchAllAdvances(Tidy(db, cutoff), sends, now, maxResend);
    AdvancesTransitive(db, Tidy(db, cutoff), DispatchAll(Tidy(db, cutoff), sends, now));
  }

  /** Settlement touches picked ordinary events only. */
  lemma SettleAdvances(db: Db, cfg: SettleConfig, limit: nat, picked: seq<nat>, faults: nat -> SettleFault)
    ensures var db' := Settle(db, cfg, limit, picked, faults);
      && Advances(db, db') && |db'.events| == |db.events|
      && (forall e :: 0 <= e < |db.events| && (e !in picked || db.events[e].probe) ==> db'.events[e] == db.events[e])
  {
    var (scanned, targets) := Scan(db, picked, [], limit, cfg);
    ScanAdvances(db, picked, [], limit, cfg);
    ScanTargets(db, picked, [], limit, cfg);
    SettleAllAdvances(scanned, targets, faults, cfg);
    AdvancesTransitive(db, scanned, SettleAll(scanned, targets, faults, cfg));
  }

  lemma HandleReplyAdvances(w: World, p: Policy, message: Incoming, reinvestigate: bool, commits: bool)
    requires Good(w, p)
    ensures Advances(w.db, Apply(w, HandleReply(message, reinvestigate, commits)).db)
  {
    var to := Addressee(w.db, message);
    AdvancesSelf(w.db);
    if to.Some? { ReplyAdvances(w.db, p, to.value.0, to.value.1, reinvestigate); }
  }

  lemma BatchAdvances(w: World, p: Policy, day: int, s: Settings, picks: seq<Pick>)
    requires Good(w, p) && Enabled(w, InvestigationBatch(day, s, picks)) && s.budget <= p.budget
    ensures var db' := Apply(w, InvestigationBatch(day, s, picks)).db;
      Advances(w.db, db') && Untouched(w.db, db', picks)
  {
    ProcessAllAdvances(w.(today := day), p, s, picks);
  }

  lemma ApplyAdvances(w: World, p: Policy, step: Step)
    requires Good(w, p) && Enabled(w, step) && Obeys(step, p)
    ensures Advances(w.db, Apply(w, step).db)
  {
    AdvancesSelf(w.db);
    match step
    case AddEvent(probe) => AddEventAdvances(w.db, probe);
    case MergeProbe(e) => MergeProbeAdvances(w.db, e);
    case ProbeInvestigation(e, env, end) => InvestigateAdvances(w.db, e, env, Supervisor(false, false), end);
    case InvestigationBatch(day, s, picks) => BatchAdvances(w, p, day, s, picks);
    case ReviewBatch(now, cutoff, maxResend, sends, _) => ReviewAdvances(w.db, p, now, cutoff, maxResend, sends);
    case HandleReply(message, reinvestigate, commits) => HandleReplyAdvances(w, p, message, reinvestigate, commits);
    case CancelRequest(r) => CancelAdvances(w.db, r);
    case SettleBatch(cfg, limit, picked, faults, _) => SettleAdvances(w.db, cfg, limit, picked, faults);
    case DecideDisposition(d, status) => DecideAdvances(w.db, d, status);
    case MarkerExpires(_) =>
    case CounterExpires(_, _) =>
  }

  lemma {:induction false} RunAdvances(w: World, steps: seq<Step>, p: Policy)
    requires Good(w, p) && Legal(w, steps, p)
    ensures Advances(w.db, After(w, steps, p).db)
    decreases |steps|
  {
    if steps != [] {
      ApplyAdvances(w, p, steps[0]);
      ApplyKeeps(w, p, steps[0]);
      RunAdvances(Apply(w, steps[0]), steps[1..], p);
      AdvancesTransitive(w.db, Apply(w, steps[0]).db, After(w, steps, p).db);
    }
  }

  // ---- an answered review -----------------------------------------------------------

  /** The event has been investigated and sits in the queue, or has become a probe event. */
  ghost predicate Parked(db: Db, e: nat) {
    e < |db.events| && HasInv(db, e) && (db.events[e].probe || db.events[e].status.PendingReview?)
  }

  lemma ReplyParks(db: Db, p: Policy, r: nat, raw: string)
    requires Inv(db, p) && CanReply(db, r)
    ensures Parked(Reply(db, r, raw, true), db.reqs[r].event)
  {
    assert Open(db, db.reqs[r]);
    assert Reply(db, r, raw, true).invs[db.reqs[r].inv].event == db.reqs[r].event;
  }

  lemma ParkedIsNotPickable(db: Db, p: Policy, e: nat)
    requires Inv(db, p) && Parked(db, e)
    ensures !Pickable(db, e)
  {
    if Pickable(db, e) { PickableIsFresh(db, p, e); }
  }

  /** Which step leaves the event as it is, or makes it a probe event. */
  ghost predicate EventKept(a: Db, b: Db, e: nat) {
    e < |a.events| <= |b.events| && (b.events[e] == a.events[e] || b.events[e] == EventRow(PendingReview, true) ||
      (a.events[e].probe && b.events[e].probe))
  }

  lemma BatchKeepsEvent(w: World, p: Policy, day: int, s: Settings, picks: seq<Pick>, e: nat)
    requires Good(w, p) && Enabled(w, InvestigationBatch(day, s, picks)) && s.budget <= p.budget
    requires e < |w.db.events| && !Pickable(w.db, e)
    ensures EventKept(w.db, Apply(w, InvestigationBatch(day, s, picks)).db, e)
  {
    BatchAdvances(w, p, day, s, picks);
  }

  lemma ReplyKeepsEvent(w: World, p: Policy, message: Incoming, reinvestigate: bool, commits: bool, e: nat)
    requires Good(w, p) && Parked(w.db, e)
    ensures EventKept(w.db, Apply(w, HandleReply(message, reinvestigate, commits)).db, e)
  {
    var to := Addressee(w.db, message);
    if to.Some? { assert Open(w.db, w.db.reqs[to.value.0]); }
  }

  lemma ApplyKeepsEvent(w: World, p: Policy, step: Step, e: nat)
    requires Good(w, p) && Enabled(w, step) && Obeys(step, p) && Parked(w.db, e)
    ensures EventKept(w.db, Apply(w, step).db, e)
  {
    match step
    case InvestigationBatch(day, s, picks) =>
      ParkedIsNotPickable(w.db, p, e);
      BatchKeepsEvent(w, p, day, s, picks, e);
    case ReviewBatch(now, cutoff, maxResend, sends, commits) => DispatchAllEvents(Tidy(w.db, cutoff), sends, now);
    case HandleReply(message, reinvestigate, commits) => ReplyKeepsEvent(w, p, message, reinvestigate, commits, e);
    case SettleBatch(cfg, limit, picked, faults, _) => SettleAdvances(w.db, cfg, limit, picked, faults);
    case _ =>
  }

  lemma ApplyKeepsParked(w: World, p: Policy, step: Step, e: nat)
    requires Good(w, p) && Enabled(w, step) && Obeys(step, p) && Parked(w.db, e)
    ensures Parked(Apply(w, step).db, e)
  {
    ApplyAdvances(w, p, step);
    LinksGrow(w.db, Apply(w, step).db);
    ApplyKeepsEvent(w, p, step, e);
  }

  lemma {:induction false} DispatchAllEvents(db: Db, sends: seq<Send>, now: int)
    requires forall k :: 0 <= k < |sends| ==> sends[k].inv < |db.invs|
    ensures DispatchAll(db, sends, now).events == db.events
    decreases |sends|
  {
    if sends != [] {
      DispatchAllEvents(if sends[0].delivered then Dispatch(db, sends[0], now) else db, sends[1..], now);
    }
  }

  lemma {:induction false} RunKeepsParked(w: World, steps: seq<Step>, p: Policy, e: nat)
    requires Good(w, p) && Legal(w, steps, p) && Parked(w.db, e)
    ensures Parked(After(w, steps, p).db, e)
    decreases |steps|
  {
    if steps != [] {
      ApplyKeepsParked(w, p, steps[0], e);
      ApplyKeeps(w, p, steps[0]);
      RunKeepsParked(Apply(w, steps[0]), steps[1..], p, e);
    }
  }

  /** No reply is ignored, so an addressed message with a working commit answers its request. */
  lemma MessageAnswers(w: World, p: Policy, message: Incoming)
    requires Inv(w.db, p) && Addressee(w.db, message).Some?
    ensures var (r, raw) := Addressee(w.db, message).value;
      Apply(w, HandleReply(message, true, true)).db == Reply(w.db, r, raw, true)
  {
    var (r, raw) := Addressee(w.db, message).value;
    NoReplyIsDuplicate(w.db, p, r, raw, message.external);
  }

  lemma AnsweredParks(w: World, p: Policy, message: Incoming)
    requires Inv(w.db, p) && Addressee(w.db, message).Some?
    ensures Parked(Apply(w, HandleReply(message, true, true)).db, w.db.reqs[Addressee(w.db, message).value.0].event)
  {
    var (r, raw) := Addressee(w.db, message).value;
    MessageAnswers(w, p, message);
    ReplyParks(w.db, p, r, raw);
  }

  lemma ParkedForGood(w: World, steps: seq<Step>, p: Policy, e: nat)
    requires Good(w, p) && Legal(w, steps, p) && Parked(w.db, e)
    ensures !Pickable(After(w, steps, p).db, e)
  {
    RunKeepsParked(w, steps, p, e);
    RunKeeps(w, steps, p);
    ParkedIsNotPickable(After(w, steps, p).db, p, e);
  }

  /** A reply announces a re-investigation, but the batch never picks its event again, whatever
      happens before and after: answering completes the investigation, and an event with a completed
      investigation is excluded. */
  lemma AnsweredIsNeverPickedAgain(before: seq<Step>, message: Incoming, after: seq<Step>, p: Policy)
    requires Legal(Empty, before, p)
    requires Addressee(After(Empty, before, p).db, message).Some?
    requires Legal(Apply(After(Empty, before, p), HandleReply(message, true, true)), after, p)
    ensures var w := After(Empty, before, p);
      !Pickable(After(Apply(w, HandleReply(message, true, true)), after, p).db,
                w.db.reqs[Addressee(w.db, message).value.0].event)
  {
    RunKeeps(Empty, before, p);
    var w := After(Empty, before, p);
    AnsweredParks(w, p, message);
    HandleReplyKeeps(w, p, message, true, true);
    ParkedForGood(Apply(w, HandleReply(message, true, true)), after, p,
      w.db.reqs[Addressee(w.db, message).value.0].event);
  }
}
