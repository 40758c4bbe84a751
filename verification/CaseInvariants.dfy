/** What every committed state of the case tables satisfies, and its preservation by each service call. */
module CaseInvariants {
  import opened Wrappers
  import Closure
  import AgentLoop
  import opened Cases

  /** Limits that hold of a whole run: `resend` bounds every configured max_resend, `budget`
      every daily budget, and `confirm`
      says that dispositions must be decided before an event is closed. */
  datatype Policy = Policy(resend: nat, confirm: bool, budget: nat)

  /** The investigation ended as its conclusion demands: a settling verdict means it completed, its
      submission passed the evidence gate, and a blocking supervisor let it through. */
  ghost predicate InvOk(inv: InvRow) {
    && inv.conclusion.Some?
    && (inv.status.Completed? || inv.status.NeedsHuman?)
    && (!Asks(inv) ==> inv.status.Completed? && GatePassed(inv))
  }

  ghost predicate GatePassed(inv: InvRow)
    requires inv.conclusion.Some?
  {
    var ev := inv.evidence;
    && Closure.Evaluate(inv.conclusion.value, AgentLoop.Names(ev.toolRows), ev.template, ev.closure).passed
    && (ev.supervisor.enabled && ev.supervisor.block ==> ev.auditPassed)
  }

  /** How the status of an ordinary event constrains one of its investigations. */
  ghost predicate Fits(status: EventStatus, inv: InvRow) {
    match status
    case PendingReview => Asks(inv) && inv.status.Completed?
    case HumanPending => Asks(inv)
    case Concluded => !Asks(inv)
    case Closed => !Asks(inv)
    case Investigating => false
  }

  ghost predicate InvsOk(db: Db) {
    && (forall i :: 0 <= i < |db.invs| ==> db.invs[i].event < |db.events| && InvOk(db.invs[i]))
    && (forall i :: 0 <= i < |db.invs| && !db.events[db.invs[i].event].probe ==>
      Fits(db.events[db.invs[i].event].status, db.invs[i]))
    && (forall i, j :: 0 <= i < j < |db.invs| && db.invs[i].event == db.invs[j].event ==>
      db.events[db.invs[i].event].probe)
  }

  ghost predicate HasInv(db: Db, e: nat) {
    exists i :: 0 <= i < |db.invs| && db.invs[i].event == e
  }

  ghost predicate EventsOk(db: Db) {
    forall e :: 0 <= e < |db.events| ==>
      && !db.events[e].status.Investigating?
      && (!db.events[e].probe && !db.events[e].status.PendingReview? ==> HasInv(db, e))
  }

  /** An open request belongs to an ordinary event that waits for a human, and to its newest investigation. */
  ghost predicate Open(db: Db, r: ReqRow) {
    && r.event < |db.events| && db.events[r.event] == EventRow(HumanPending, false)
    && r.inv < |db.invs| && db.invs[r.inv].event == r.event && db.invs[r.inv].status.NeedsHuman?
  }

  ghost predicate ReqsOk(db: Db, p: Policy) {
    && (forall r :: 0 <= r < |db.reqs| && db.reqs[r].status.Sent? ==> Open(db, db.reqs[r]))
    && (forall r, q :: 0 <= r < q < |db.reqs| && db.reqs[r].status.Sent? && db.reqs[q].status.Sent? ==>
      db.reqs[r].event != db.reqs[q].event)
    && (forall e: nat :: CountReqs(db.reqs, e) <= p.resend + 1)
  }

  /** Only answered requests have a response. */
  ghost predicate ResponsesOk(db: Db) {
    forall k :: 0 <= k < |db.responses| ==>
      db.responses[k].req < |db.reqs| && db.reqs[db.responses[k].req].status.Answered?
  }

  /** A judgment case is built once, from the settling investigation of a concluded or closed event. */
  ghost predicate Settles(db: Db, i: nat) {
    && i < |db.invs| && !Asks(db.invs[i]) && db.invs[i].event < |db.events|
    && var row := db.events[db.invs[i].event]; !row.probe && (row.status.Concluded? || row.status.Closed?)
  }

  ghost predicate CasesOk(db: Db) {
    && Distinct(db.cases)
    && (forall c :: 0 <= c < |db.cases| ==> Settles(db, db.cases[c]))
    && (forall e :: 0 <= e < |db.events| && db.events[e].status.Closed? ==> HasCase(db, e))
  }

  ghost predicate HasCase(db: Db, e: nat) {
    exists c :: 0 <= c < |db.cases| && db.cases[c] < |db.invs| && db.invs[db.cases[c]].event == e
  }

  /** No disposition of a closed event is still a suggestion, when closing requires decisions. */
  ghost predicate DispsOk(db: Db, p: Policy) {
    && (forall d :: 0 <= d < |db.disps| ==> db.disps[d].inv < |db.invs| && db.invs[db.disps[d].inv].event < |db.events|)
    && (p.confirm ==> forall d :: 0 <= d < |db.disps| && db.events[db.invs[db.disps[d].inv].event].status.Closed? ==>
      !db.disps[d].status.Suggested?)
  }

  ghost predicate Inv(db: Db, p: Policy) {
    InvsOk(db) && EventsOk(db) && ReqsOk(db, p) && ResponsesOk(db) && CasesOk(db) && DispsOk(db, p)
  }

  // ---- consequences -----------------------------------------------------------

  lemma NewestIsOnly(db: Db, p: Policy, i: nat)
    requires Inv(db, p) && i < |db.invs| && !db.events[db.invs[i].event].probe
    ensures LatestInv(db.invs, db.invs[i].event) == Some(i)
  {
  }

  /** An ordinary event that can be picked has never been investigated. */
  lemma PickableIsFresh(db: Db, p: Policy, e: nat)
    requires Inv(db, p) && Pickable(db, e)
    ensures !HasInv(db, e) && !HasSent(db.reqs, e)
  {
  }

  /** The global sweep never finds an obsolete request. */
  lemma SweepFindsNothing(db: Db, p: Policy)
    requires Inv(db, p)
    ensures Sweep(db) == db.reqs
  {
    forall r | 0 <= r < |db.reqs| ensures !Obsolete(db, db.reqs[r]) {
      if db.reqs[r].status.Sent? { NewestIsOnly(db, p, db.reqs[r].inv); }
    }
  }

  // ---- counting requests ---------------------------------------------------------

  lemma CountSnoc(reqs: seq<ReqRow>, r: ReqRow, e: nat)
    ensures CountReqs(reqs + [r], e) == CountReqs(reqs, e) + if r.event == e then 1 else 0
  {
    assert (reqs + [r])[..|reqs|] == reqs;
  }

  lemma {:induction false} CountSameEvents(a: seq<ReqRow>, b: seq<ReqRow>, e: nat)
    requires |a| == |b| && forall i :: 0 <= i < |a| ==> a[i].event == b[i].event
    ensures CountReqs(a, e) == CountReqs(b, e)
  {
    if a != [] { CountSameEvents(a[..|a| - 1], b[..|b| - 1], e); }
  }

  /** Requests only lose their open status. */
  ghost predicate Closes(a: seq<ReqRow>, b: seq<ReqRow>) {
    |a| == |b| && forall i :: 0 <= i < |a| ==>
      b[i] == a[i] || (a[i].status.Sent? && !b[i].status.Sent? && b[i] == a[i].(status := b[i].status))
  }

  lemma ClosingKeeps(db: Db, reqs: seq<ReqRow>, p: Policy)
    requires Inv(db, p) && Closes(db.reqs, reqs)
    ensures Inv(db.(reqs := reqs), p)
  {
    forall e: nat ensures CountReqs(reqs, e) <= p.resend + 1 { CountSameEvents(db.reqs, reqs, e); }
  }

  // ---- investigation ---------------------------------------------------------------

  lemma NoneObsoleteFor(db: Db, p: Policy, e: nat, current: nat, status: EventStatus)
    requires Inv(db, p) && e < |db.events| && db.events[e].status.PendingReview?
    ensures CancelObsoleteFor(db.reqs, e, current, status) == db.reqs
  {
  }

  /** The event is concluded exactly when its investigation completed, and the row meets the gate. */
  lemma InvestigateOutcome(db: Db, e: nat, env: AgentLoop.Env, sup: Supervisor, end: Ending)
    requires e < |db.events|
    ensures var db' := Investigate(db, e, env, sup, end);
      var inv := db'.invs[|db.invs|];
      && |db'.invs| == |db.invs| + 1 && inv.event == e && InvOk(inv)
      && (db'.events[e].status.Concluded? <==> inv.status.Completed?)
      && (db'.events[e].status.HumanPending? <==> inv.status.NeedsHuman?)
      && (Asks(inv) <==> db'.events[e].status.HumanPending?)
  {
    AgentLoop.RunFinishes(env);
  }

  lemma InvestigateKeeps(db: Db, p: Policy, e: nat, env: AgentLoop.Env, sup: Supervisor, end: Ending)
    requires Inv(db, p)
    requires Pickable(db, e) || (e < |db.events| && db.events[e] == EventRow(PendingReview, true))
    ensures Inv(Investigate(db, e, env, sup, end), p)
  {
    var db' := Investigate(db, e, env, sup, end);
    var inv := db'.invs[|db.invs|];
    InvestigateOutcome(db, e, env, sup, end);
    NoneObsoleteFor(db, p, e, |db.invs|, db'.events[e].status);
    RecordInvestigation(db, p, e, inv, db'.events[e].status, db'.disps);
  }

  lemma RecordInvestigation(db: Db, p: Policy, e: nat, inv: InvRow, status: EventStatus, disps: seq<DispRow>)
    requires Inv(db, p) && InvOk(inv) && inv.event == e
    requires Pickable(db, e) || (e < |db.events| && db.events[e] == EventRow(PendingReview, true))
    requires status == if Asks(inv) then HumanPending else Concluded
    requires disps == db.disps || disps == db.disps + [DispRow(|db.invs|, Suggested)]
    ensures Inv(WithStatus(db, e, status).(invs := db.invs + [inv], disps := disps), p)
  {
    RecordInvs(db, p, e, inv, status, disps);
    RecordReqs(db, p, e, inv, status, disps);
    RecordLinks(db, p, e, inv, status, disps);
  }

  lemma RecordInvs(db: Db, p: Policy, e: nat, inv: InvRow, status: EventStatus, disps: seq<DispRow>)
    requires Inv(db, p) && InvOk(inv) && inv.event == e
    requires Pickable(db, e) || (e < |db.events| && db.events[e] == EventRow(PendingReview, true))
    requires status == if Asks(inv) then HumanPending else Concluded
    requires disps == db.disps || disps == db.disps + [DispRow(|db.invs|, Suggested)]
    ensures var db' := WithStatus(db, e, status).(invs := db.invs + [inv], disps := disps); InvsOk(db') && EventsOk(db')
  {
    var db' := WithStatus(db, e, status).(invs := db.invs + [inv], disps := disps);
    if Pickable(db, e) { PickableIsFresh(db, p, e); }
    LinksGrow(db, db');
    assert db'.invs[|db.invs|].event == e;
  }

  lemma RecordReqs(db: Db, p: Policy, e: nat, inv: InvRow, status: EventStatus, disps: seq<DispRow>)
    requires Inv(db, p) && InvOk(inv) && inv.event == e
    requires Pickable(db, e) || (e < |db.events| && db.events[e] == EventRow(PendingReview, true))
    ensures ReqsOk(WithStatus(db, e, status).(invs := db.invs + [inv], disps := disps), p)
  {
  }

  lemma RecordLinks(db: Db, p: Policy, e: nat, inv: InvRow, status: EventStatus, disps: seq<DispRow>)
    requires Inv(db, p) && InvOk(inv) && inv.event == e
    requires Pickable(db, e) || (e < |db.events| && db.events[e] == EventRow(PendingReview, true))
    requires status == if Asks(inv) then HumanPending else Concluded
    requires disps == db.disps || disps == db.disps + [DispRow(|db.invs|, Suggested)]
    ensures var db' := WithStatus(db, e, status).(invs := db.invs + [inv], disps := disps);
      CasesOk(db') && DispsOk(db', p)
  {
    var db' := WithStatus(db, e, status).(invs := db.invs + [inv], disps := disps);
    if Pickable(db, e) { PickableIsFresh(db, p, e); }
    LinksGrow(db, db');
  }

  /** Adding rows keeps every event's investigations and cases. */
  lemma LinksGrow(db: Db, db': Db)
    requires |db'.invs| >= |db.invs| && forall i :: 0 <= i < |db.invs| ==> db'.invs[i].event == db.invs[i].event
    requires db.cases <= db'.cases
    ensures forall e :: HasInv(db, e) ==> HasInv(db', e)
    ensures forall e :: HasCase(db, e) ==> HasCase(db', e)
  {
    forall e | HasInv(db, e) ensures HasInv(db', e) {
      var i :| 0 <= i < |db.invs| && db.invs[i].event == e;
      assert db'.invs[i].event == e;
    }
    forall e | HasCase(db, e) ensures HasCase(db', e) {
      var c :| 0 <= c < |db.cases| && db.cases[c] < |db.invs| && db.invs[db.cases[c]].event == e;
      assert db'.cases[c] == db.cases[c];
    }
  }

  // ---- human review -------------------------------------------------------------------

  lemma DispatchKeeps(db: Db, p: Policy, c: Send, now: int)
    requires Inv(db, p) && Candidate(db, c, p.resend)
    ensures Inv(Dispatch(db, c, now), p)
  {
    LinksGrow(db, Dispatch(db, c, now));
    DispatchReqs(db, p, c, now);
  }

  lemma DispatchReqs(db: Db, p: Policy, c: Send, now: int)
    requires Inv(db, p) && Candidate(db, c, p.resend)
    ensures ReqsOk(Dispatch(db, c, now), p)
  {
    forall x: nat ensures CountReqs(Dispatch(db, c, now).reqs, x) <= p.resend + 1 {
      CountSnoc(db.reqs, ReqRow(c.event, c.inv, Sent, now, c.id), x);
    }
  }

  lemma TidyKeeps(db: Db, p: Policy, cutoff: int)
    requires Inv(db, p)
    ensures Inv(Tidy(db, cutoff), p) && Tidy(db, cutoff) == db.(reqs := Expire(db.reqs, cutoff))
  {
    var expired := db.(reqs := Expire(db.reqs, cutoff));
    ClosingKeeps(db, expired.reqs, p);
    SweepFindsNothing(expired, p);
  }

  ghost predicate SendsOk(db: Db, sends: seq<Send>, maxResend: int) {
    && (forall i :: 0 <= i < |sends| ==> Candidate(db, sends[i], maxResend))
    && (forall i, j :: 0 <= i < j < |sends| ==> sends[i].event != sends[j].event)
  }

  lemma DispatchElsewhere(db: Db, c: Send, now: int, x: Send, maxResend: int)
    requires Candidate(db, c, maxResend) && Candidate(db, x, maxResend) && x.event != c.event
    ensures Candidate(Dispatch(db, c, now), x, maxResend)
  {
    var db' := Dispatch(db, c, now);
    CountSnoc(db.reqs, ReqRow(c.event, c.inv, Sent, now, c.id), x.event);
    LatestSame(db.invs, db'.invs, x.event);
  }

  lemma LatestSame(a: seq<InvRow>, b: seq<InvRow>, e: nat)
    requires |a| == |b| && forall i :: 0 <= i < |a| ==> a[i].event == b[i].event
    ensures LatestInv(a, e) == LatestInv(b, e)
  {
  }

  /** After one send, the remaining candidates are still candidates. */
  lemma DispatchHead(db: Db, sends: seq<Send>, now: int, maxResend: int)
    requires sends != [] && SendsOk(db, sends, maxResend)
    ensures SendsOk(if sends[0].delivered then Dispatch(db, sends[0], now) else db, sends[1..], maxResend)
  {
    if sends[0].delivered {
      forall i | 1 <= i < |sends| ensures Candidate(Dispatch(db, sends[0], now), sends[i], maxResend) {
        DispatchElsewhere(db, sends[0], now, sends[i], maxResend);
      }
    }
  }

  lemma {:induction false} DispatchAllKeeps(db: Db, p: Policy, sends: seq<Send>, now: int, maxResend: int)
    requires Inv(db, p) && SendsOk(db, sends, maxResend) && maxResend <= p.resend
    ensures Inv(DispatchAll(db, sends, now), p)
    decreases |sends|
  {
    if sends != [] {
      if sends[0].delivered { DispatchKeeps(db, p, sends[0], now); }
      DispatchHead(db, sends, now, maxResend);
      DispatchAllKeeps(if sends[0].delivered then Dispatch(db, sends[0], now) else db, p, sends[1..], now, maxResend);
    }
  }

  /** An open request has no response yet, so no reply is ever ignored as a duplicate. */
  lemma NoReplyIsDuplicate(db: Db, p: Policy, r: nat, raw: string, external: bool)
    requires Inv(db, p) && CanReply(db, r)
    ensures !IsDuplicate(db, r, raw, external)
  {
    assert forall k :: 0 <= k < |db.responses| ==> db.responses[k].req != r;
  }

  lemma RespondKeeps(db: Db, p: Policy, r: nat, raw: string)
    requires Inv(db, p) && r < |db.reqs| && db.reqs[r].status.Answered?
    ensures Inv(db.(responses := db.responses + [Response(r, raw)]), p)
  {
    var db' := db.(responses := db.responses + [Response(r, raw)]);
    LinksGrow(db, db');
  }

  lemma ReplyKeeps(db: Db, p: Policy, r: nat, raw: string, reinvestigate: bool)
    requires Inv(db, p) && CanReply(db, r)
    ensures Inv(Reply(db, r, raw, reinvestigate), p)
  {
    var req := db.reqs[r];
    var closed := db.(reqs := db.reqs[r := req.(status := Answered)]);
    ClosingKeeps(db, closed.reqs, p);
    assert Open(db, req);
    RespondKeeps(closed, p, r, raw);
    var responded := closed.(responses := db.responses + [Response(r, raw)]);
    assert !HasSent(responded.reqs, req.event);
    AnswerInvestigation(responded, p, req.event, req.inv, reinvestigate);
  }

  function Answer(db: Db, e: nat, i: nat, reinvestigate: bool): Db
    requires e < |db.events| && i < |db.invs|
  {
    (if reinvestigate then WithStatus(db, e, PendingReview) else db).(
      invs := db.invs[i := db.invs[i].(status := AgentLoop.Completed)])
  }

  lemma AnswerInvestigation(db: Db, p: Policy, e: nat, i: nat, reinvestigate: bool)
    requires Inv(db, p) && e < |db.events| && db.events[e] == EventRow(HumanPending, false) && !HasSent(db.reqs, e)
    requires i < |db.invs| && db.invs[i].event == e && db.invs[i].status.NeedsHuman?
    ensures Inv(Answer(db, e, i, reinvestigate), p)
  {
    AnswerInvs(db, p, e, i, reinvestigate);
    AnswerLinks(db, p, e, i, reinvestigate);
  }

  lemma AnswerInvs(db: Db, p: Policy, e: nat, i: nat, reinvestigate: bool)
    requires Inv(db, p) && e < |db.events| && db.events[e] == EventRow(HumanPending, false) && !HasSent(db.reqs, e)
    requires i < |db.invs| && db.invs[i].event == e && db.invs[i].status.NeedsHuman?
    ensures InvsOk(Answer(db, e, i, reinvestigate)) && EventsOk(Answer(db, e, i, reinvestigate))
  {
    LinksGrow(db, Answer(db, e, i, reinvestigate));
  }

  lemma AnswerLinks(db: Db, p: Policy, e: nat, i: nat, reinvestigate: bool)
    requires Inv(db, p) && e < |db.events| && db.events[e] == EventRow(HumanPending, false) && !HasSent(db.reqs, e)
    requires i < |db.invs| && db.invs[i].event == e && db.invs[i].status.NeedsHuman?
    ensures var db' := Answer(db, e, i, reinvestigate);
      ReqsOk(db', p) && ResponsesOk(db') && CasesOk(db') && DispsOk(db', p)
  {
    LinksGrow(db, Answer(db, e, i, reinvestigate));
  }

  lemma CancelKeeps(db: Db, p: Policy, r: nat)
    requires Inv(db, p)
    ensures Inv(Cancel(db, r), p)
  {
    ClosingKeeps(db, Cancel(db, r).reqs, p);
  }

  // ---- settlement ---------------------------------------------------------------------

  lemma SettleableSettles(db: Db, p: Policy, e: nat)
    requires Inv(db, p) && e < |db.events| && !db.events[e].probe && Settleable(db, e).Some?
    ensures Settles(db, Settleable(db, e).value) && db.invs[Settleable(db, e).value].event == e
  {
  }

  lemma CloseKeeps(db: Db, p: Policy, e: nat, cfg: SettleConfig)
    requires Inv(db, p) && e < |db.events| && !db.events[e].probe && Settleable(db, e).Some?
    requires Settleable(db, e).value in db.cases
    requires MayClose(db, Settleable(db, e).value, cfg) && (p.confirm ==> cfg.confirm)
    ensures Inv(WithStatus(db, e, Closed), p)
  {
    CloseInvs(db, p, e);
    CloseReqs(db, p, e);
    CloseCases(db, p, e);
    CloseDisps(db, p, e, cfg);
  }

  lemma CloseInvs(db: Db, p: Policy, e: nat)
    requires Inv(db, p) && e < |db.events| && !db.events[e].probe && Settleable(db, e).Some?
    ensures InvsOk(WithStatus(db, e, Closed)) && EventsOk(WithStatus(db, e, Closed))
  {
    SettleableSettles(db, p, e);
    LinksGrow(db, WithStatus(db, e, Closed));
  }

  lemma CloseReqs(db: Db, p: Policy, e: nat)
    requires Inv(db, p) && e < |db.events| && !db.events[e].probe && Settleable(db, e).Some?
    ensures ReqsOk(WithStatus(db, e, Closed), p)
  {
    SettleableSettles(db, p, e);
  }

  lemma CloseCases(db: Db, p: Policy, e: nat)
    requires Inv(db, p) && e < |db.events| && !db.events[e].probe && Settleable(db, e).Some?
    requires Settleable(db, e).value in db.cases
    ensures CasesOk(WithStatus(db, e, Closed))
  {
    SettleableSettles(db, p, e);
    LinksGrow(db, WithStatus(db, e, Closed));
    var c :| 0 <= c < |db.cases| && db.cases[c] == Settleable(db, e).value;
    assert db.cases[c] < |db.invs|;
    assert HasCase(db, e);
  }

  lemma CloseDisps(db: Db, p: Policy, e: nat, cfg: SettleConfig)
    requires Inv(db, p) && e < |db.events| && !db.events[e].probe && Settleable(db, e).Some?
    requires MayClose(db, Settleable(db, e).value, cfg) && (p.confirm ==> cfg.confirm)
    ensures DispsOk(WithStatus(db, e, Closed), p)
  {
    var i := Settleable(db, e).value;
    forall d | p.confirm && 0 <= d < |db.disps| && db.invs[db.disps[d].inv].event == e
      ensures !db.disps[d].status.Suggested? {
      NewestIsOnly(db, p, i);
      NewestIsOnly(db, p, db.disps[d].inv);
    }
  }

  lemma AddCaseCases(db: Db, p: Policy, e: nat)
    requires Inv(db, p) && IsTarget(db, e)
    ensures CasesOk(db.(cases := db.cases + [Settleable(db, e).value]))
  {
    SettleableSettles(db, p, e);
    LinksGrow(db, db.(cases := db.cases + [Settleable(db, e).value]));
    AddDistinct(db.cases, Settleable(db, e).value);
  }

  lemma AddDistinct(cases: seq<nat>, i: nat)
    requires Distinct(cases) && i !in cases
    ensures Distinct(cases + [i])
  {
  }

  /** The invariant but for the cases does not depend on them. */
  lemma OtherTablesKept(db: Db, p: Policy, cases: seq<nat>)
    requires Inv(db, p)
    ensures var db' := db.(cases := cases);
      InvsOk(db') && EventsOk(db') && ReqsOk(db', p) && ResponsesOk(db') && DispsOk(db', p)
  {
    assert forall e :: HasInv(db, e) <==> HasInv(db.(cases := cases), e);
  }

  lemma AddCaseKeeps(db: Db, p: Policy, e: nat)
    requires Inv(db, p) && IsTarget(db, e)
    ensures Inv(db.(cases := db.cases + [Settleable(db, e).value]), p)
  {
    AddCaseCases(db, p, e);
    OtherTablesKept(db, p, db.cases + [Settleable(db, e).value]);
  }

  /** The target has no case yet, and names the investigation that settles its event. */
  ghost predicate TargetOk(db: Db, t: Target) {
    IsTarget(db, t.event) && t.inv == Settleable(db, t.event).value
  }

  ghost predicate TargetsOk(db: Db, targets: seq<Target>) {
    && (forall k :: 0 <= k < |targets| ==> TargetOk(db, targets[k]))
    && (forall j, k :: 0 <= j < k < |targets| ==> targets[j].event != targets[k].event)
  }

  lemma SettleOneKeeps(db: Db, p: Policy, t: Target, fault: SettleFault, cfg: SettleConfig)
    requires Inv(db, p) && TargetOk(db, t) && (p.confirm ==> cfg.confirm)
    ensures Inv(SettleOne(db, t, fault, cfg), p)
  {
    var e, i := t.event, t.inv;
    AddCaseKeeps(db, p, e);
    var db' := db.(cases := db.cases + [i]);
    if fault == NoFault && MayClose(db, i, cfg) { CloseKeeps(db', p, e, cfg); }
  }

  lemma ScanStep(db: Db, targets: seq<Target>, e: nat, cfg: SettleConfig)
    requires TargetsOk(db, targets) && forall k :: 0 <= k < |targets| ==> targets[k].event != e
    ensures TargetsOk(ScanOne(db, e, cfg), AddTarget(db, targets, e))
  {
    var db', after := ScanOne(db, e, cfg), AddTarget(db, targets, e);
    forall k | 0 <= k < |after| ensures TargetOk(db', after[k]) {
      assert TargetOk(db, after[k]);
    }
  }

  /** Scanning distinct events yields targets that all lack a case. */
  lemma {:induction false} ScanKeeps(db: Db, p: Policy, picked: seq<nat>, targets: seq<Target>, limit: nat,
    cfg: SettleConfig)
    requires Inv(db, p) && (p.confirm ==> cfg.confirm) && TargetsOk(db, targets)
    requires Distinct(picked) && forall k :: 0 <= k < |targets| ==> targets[k].event !in picked
    ensures var (r, ts) := Scan(db, picked, targets, limit, cfg); Inv(r, p) && TargetsOk(r, ts)
    decreases |picked|
  {
    if picked != [] && |targets| < limit {
      var e, db' := picked[0], ScanOne(db, picked[0], cfg);
      assert forall x :: x in picked[1..] ==> x != e;
      if db' != db { CloseKeeps(db, p, e, cfg); }
      ScanStep(db, targets, e, cfg);
      ScanKeeps(db', p, picked[1..], AddTarget(db, targets, e), limit, cfg);
    }
  }

  /** A scan that comes to the event closes it: it is settled, has its case, and is allowed to close. */
  predicate Closable(db: Db, e: nat, cfg: SettleConfig) {
    && e < |db.events| && !db.events[e].probe
    && Settleable(db, e).Some? && Settleable(db, e).value in db.cases && MayClose(db, Settleable(db, e).value, cfg)
  }

  /** The targets among picked events. */
  function Found(db: Db, picked: seq<nat>): nat {
    if picked == [] then 0 else (if IsTarget(db, picked[0]) then 1 else 0) + Found(db, picked[1..])
  }

  /** Closing an event changes neither what is a target nor what may be closed. */
  lemma {:induction false} ScanOneKeepsTargets(db: Db, x: nat, cfg: SettleConfig, picked: seq<nat>)
    ensures Found(ScanOne(db, x, cfg), picked) == Found(db, picked)
    ensures forall e :: Closable(ScanOne(db, x, cfg), e, cfg) <==> Closable(db, e, cfg)
    decreases |picked|
  {
    assert forall e :: Settleable(ScanOne(db, x, cfg), e) == Settleable(db, e);
    if picked != [] { ScanOneKeepsTargets(db, x, cfg, picked[1..]); }
  }

  /** A scan closes exactly the closable events that it comes to before it has found enough targets, and
      changes nothing else. */
  lemma {:induction false} ScanClosesWhatMayClose(db: Db, picked: seq<nat>, targets: seq<Target>, limit: nat,
    cfg: SettleConfig)
    requires forall k :: 0 <= k < |targets| ==> targets[k].event < |db.events|
    ensures var r := Scan(db, picked, targets, limit, cfg).0;
      && r == db.(events := r.events) && |r.events| == |db.events|
      && forall e :: 0 <= e < |db.events| ==>
        r.events[e] == if ComesTo(db, picked, |targets|, limit, e) && Closable(db, e, cfg)
          then db.events[e].(status := Closed) else db.events[e]
    decreases |picked|
  {
    if picked != [] && |targets| < limit {
      var x := picked[0];
      var next, more := ScanOne(db, x, cfg), AddTarget(db, targets, x);
      ScanClosesWhatMayClose(next, picked[1..], more, limit, cfg);
      forall e | 0 <= e < |db.events|
        ensures ComesTo(db, picked, |targets|, limit, e) <==> e == x || ComesTo(next, picked[1..], |more|, limit, e)
      {
        ComesToCons(db, picked, targets, limit, e, cfg);
      }
      ScanOneKeepsTargets(db, x, cfg, []);
    }
  }

  /** The scan, having found `found` targets already, comes to the event. */
  ghost predicate ComesTo(db: Db, picked: seq<nat>, found: nat, limit: nat, e: nat) {
    exists k :: 0 <= k < |picked| && picked[k] == e && found + Found(db, picked[..k]) < limit
  }

  lemma ComesToCons(db: Db, picked: seq<nat>, targets: seq<Target>, limit: nat, e: nat, cfg: SettleConfig)
    requires picked != [] && |targets| < limit
    ensures var next, more := ScanOne(db, picked[0], cfg), AddTarget(db, targets, picked[0]);
      ComesTo(db, picked, |targets|, limit, e) <==> e == picked[0] || ComesTo(next, picked[1..], |more|, limit, e)
  {
    var next, rest := ScanOne(db, picked[0], cfg), picked[1..];
    forall k | 0 <= k < |rest| ensures Found(db, picked[..k + 1]) ==
      (if IsTarget(db, picked[0]) then 1 else 0) + Found(next, rest[..k]) {
      assert picked[..k + 1][1..] == rest[..k];
      ScanOneKeepsTargets(db, picked[0], cfg, rest[..k]);
    }
    if ComesTo(db, picked, |targets|, limit, e) && e != picked[0] {
      var k :| 0 <= k < |picked| && picked[k] == e && |targets| + Found(db, picked[..k]) < limit;
      assert rest[k - 1] == e;
    }
    var more := AddTarget(db, targets, picked[0]);
    if ComesTo(next, rest, |more|, limit, e) {
      var k :| 0 <= k < |rest| && rest[k] == e && |more| + Found(next, rest[..k]) < limit;
      assert picked[k + 1] == e;
    }
    assert picked[..0] == [];
  }

  /** Settling one target leaves the others without a case. */
  lemma SettleElsewhere(db: Db, t: Target, u: Target, fault: SettleFault, cfg: SettleConfig)
    requires TargetOk(db, t) && TargetOk(db, u) && t.event != u.event
    ensures TargetOk(SettleOne(db, t, fault, cfg), u)
  {
    var db' := SettleOne(db, t, fault, cfg);
    assert Settleable(db', u.event) == Settleable(db, u.event);
    assert db.invs[t.inv].event == t.event && db.invs[u.inv].event == u.event;
  }

  lemma {:induction false} SettleAllKeeps(db: Db, p: Policy, targets: seq<Target>, faults: nat -> SettleFault,
    cfg: SettleConfig)
    requires Inv(db, p) && (p.confirm ==> cfg.confirm) && TargetsOk(db, targets)
    ensures Inv(SettleAll(db, targets, faults, cfg), p)
    decreases |targets|
  {
    if targets != [] {
      var t := targets[0];
      assert TargetOk(db, t);
      SettleOneKeeps(db, p, t, faults(t.event), cfg);
      forall k | 1 <= k < |targets| ensures TargetOk(SettleOne(db, t, faults(t.event), cfg), targets[k]) {
        SettleElsewhere(db, t, targets[k], faults(t.event), cfg);
      }
      SettleAllKeeps(SettleOne(db, t, faults(t.event), cfg), p, targets[1..], faults, cfg);
    }
  }

  lemma DecideKeeps(db: Db, p: Policy, d: nat, status: DispStatus)
    requires Inv(db, p) && !status.Suggested?
    ensures Inv(Decide(db, d, status), p)
  {
    var db' := Decide(db, d, status);
    LinksGrow(db, db');
  }

  // ---- aggregation, seen from here --------------------------------------------------

  lemma AddEventKeeps(db: Db, p: Policy, probe: bool)
    requires Inv(db, p)
    ensures Inv(db.(events := db.events + [EventRow(PendingReview, probe)]), p)
  {
    var db' := db.(events := db.events + [EventRow(PendingReview, probe)]);
    LinksGrow(db, db');
  }

  /** A health probe alert is merged into an event that is still pending. */
  lemma MergeProbeKeeps(db: Db, p: Policy, e: nat)
    requires Inv(db, p) && e < |db.events| && db.events[e].status.PendingReview?
    ensures Inv(db.(events := db.events[e := EventRow(PendingReview, true)]), p)
  {
    var db' := db.(events := db.events[e := EventRow(PendingReview, true)]);
    LinksGrow(db, db');
  }
}
