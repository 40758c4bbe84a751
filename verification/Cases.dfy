/** The shared tables that carry an event from investigation to settlement, and every service call
    on them as a function: the orchestrator (app/agent/orchestrator.py), human review
    (app/human_review/service.py, stale.py, reinvestigation.py), the asset pipeline
    (app/defense_assets/pipeline.py) and disposition decisions. Tables are append-only sequences;
    a row's index is its key, and investigations are started in index order. */
module Cases {
  import opened Wrappers
  import Closure
  import AgentLoop
  import ReviewTag

  // ---- tables ----------------------------------------------------------------

  datatype EventStatus = PendingReview | Investigating | Concluded | HumanPending | Closed
  datatype EventRow = EventRow(status: EventStatus, probe: bool)

  datatype Supervisor = Supervisor(enabled: bool, block: bool)

  /** What an investigation was run with and what it recorded. */
  datatype Evidence = Evidence(
    template: Option<Closure.Template>, closure: Closure.Config, toolRows: seq<AgentLoop.ToolCallRow>,
    supervisor: Supervisor, auditPassed: bool)

  datatype InvRow = InvRow(
    event: nat, status: AgentLoop.InvestigationStatus, finished: Option<int>, conclusion: Option<Closure.Conclusion>,
    evidence: Evidence)

  datatype ReviewStatus = Sent | Answered | Expired | Cancelled
  datatype ReqRow = ReqRow(event: nat, inv: nat, status: ReviewStatus, sentAt: int, id: ReviewTag.RequestId)
  datatype Response = Response(req: nat, raw: string)

  datatype DispStatus = Suggested | Confirmed | Rejected
  datatype DispRow = DispRow(inv: nat, status: DispStatus)

  /** `cases` holds, per judgment case, the investigation it was built from. */
  datatype Db = Db(events: seq<EventRow>, invs: seq<InvRow>, reqs: seq<ReqRow>, responses: seq<Response>,
                   disps: seq<DispRow>, cases: seq<nat>)

  function WithStatus(db: Db, e: nat, status: EventStatus): Db
    requires e < |db.events|
  {
    db.(events := db.events[e := db.events[e].(status := status)])
  }

  // ---- queries -----------------------------------------------------------------

  /** The newest investigation of e. */
  function LatestInv(invs: seq<InvRow>, e: nat): (r: Option<nat>)
    ensures r.Some? ==> r.value < |invs| && invs[r.value].event == e && forall j :: r.value < j < |invs| ==>
      invs[j].event != e
    ensures r.None? ==> forall j :: 0 <= j < |invs| ==> invs[j].event != e
  {
    if invs == [] then None
    else if invs[|invs| - 1].event == e then Some(|invs| - 1)
    else LatestInv(invs[..|invs| - 1], e)
  }

  /** a is at least as late as b; a missing time comes first. */
  predicate AtOrAfter(a: Option<int>, b: Option<int>) {
    b.None? || (a.Some? && a.value >= b.value)
  }

  /** The completed investigation of e that finished last, the newest of several. */
  function LatestCompleted(invs: seq<InvRow>, e: nat): (r: Option<nat>)
    ensures r.Some? ==> r.value < |invs| && invs[r.value].event == e && invs[r.value].status.Completed?
    ensures forall j :: 0 <= j < |invs| && invs[j].event == e && invs[j].status.Completed? ==>
      r.Some? && AtOrAfter(invs[r.value].finished, invs[j].finished) &&
        (j > r.value ==> !AtOrAfter(invs[j].finished, invs[r.value].finished))
  {
    if invs == [] then None else
    var n := |invs| - 1;
    var r := LatestCompleted(invs[..n], e);
    if invs[n].event == e && invs[n].status.Completed? && (r.None? ||
      AtOrAfter(invs[n].finished, invs[r.value].finished))
    then Some(n) else r
  }

  function CountReqs(reqs: seq<ReqRow>, e: nat): nat {
    if reqs == [] then 0 else CountReqs(reqs[..|reqs| - 1], e) + if reqs[|reqs| - 1].event == e then 1 else 0
  }

  predicate HasSent(reqs: seq<ReqRow>, e: nat) {
    exists r :: 0 <= r < |reqs| && reqs[r].event == e && reqs[r].status.Sent?
  }

  predicate Asks(inv: InvRow) {
    inv.conclusion.Some? && Closure.NeedsHuman(inv.conclusion.value.verdict)
  }

  // ---- orchestrator ------------------------------------------------------------

  /** The events a batch may pick. */
  predicate Pickable(db: Db, e: nat) {
    && e < |db.events| && db.events[e] == EventRow(PendingReview, false)
    && forall i :: 0 <= i < |db.invs| && db.invs[i].event == e ==>
      !db.invs[i].status.Running? && !db.invs[i].status.Completed?
  }

  /** Open requests of e that a new investigation makes obsolete. */
  function CancelObsoleteFor(reqs: seq<ReqRow>, e: nat, current: nat, status: EventStatus): (r: seq<ReqRow>)
    ensures |r| == |reqs|
  {
    seq(|reqs|, i requires 0 <= i < |reqs| =>
      if reqs[i].event == e && reqs[i].status.Sent? && (status != HumanPending || reqs[i].inv != current)
      then reqs[i].(status := Cancelled) else reqs[i])
  }

  /** What the supervisor finds, and when the investigation ends. */
  datatype Ending = Ending(auditPassed: bool, at: int)

  /** The conclusion and status an investigation ends with, after the supervisor. */
  function Verdict(env: AgentLoop.Env, sup: Supervisor, end: Ending)
    : (Closure.Conclusion, AgentLoop.InvestigationStatus)
  {
    var o := AgentLoop.Run(env);
    if sup.enabled && sup.block && !end.auditPassed then (Closure.Degraded, AgentLoop.NeedsHuman)
      else (o.conclusion, o.status)
  }

  function EventStatusFor(c: Closure.Conclusion): EventStatus {
    if Closure.NeedsHuman(c.verdict) then HumanPending else Concluded
  }

  /** What an investigation that ended with row `inv` writes: the event's status, the row, the
      cancellation of obsolete requests, and a suggestion for a recommended action. */
  function Conclude(db: Db, inv: InvRow): Db
    requires inv.event < |db.events| && inv.conclusion.Some?
  {
    var c := inv.conclusion.value;
    var status := EventStatusFor(c);
    WithStatus(db, inv.event, status).(
      invs := db.invs + [inv],
      reqs := CancelObsoleteFor(db.reqs, inv.event, |db.invs|, status),
      disps := if c.action.Some? && c.action.value != "" then db.disps + [DispRow(|db.invs|, Suggested)] else db.disps)
  }

  /** The row of an investigation of e that runs to its end. */
  function Result(e: nat, env: AgentLoop.Env, sup: Supervisor, end: Ending): (inv: InvRow)
    ensures inv.event == e && inv.conclusion.Some?
  {
    var (conclusion, status) := Verdict(env, sup, end);
    InvRow(e, if EventStatusFor(conclusion) == HumanPending then AgentLoop.NeedsHuman else status, Some(end.at),
           Some(conclusion),
           Evidence(env.template, env.config.closure, AgentLoop.Run(env).state.toolRows, sup, end.auditPassed))
  }

  /** One successful investigation of e. */
  function Investigate(db: Db, e: nat, env: AgentLoop.Env, sup: Supervisor, end: Ending): Db
    requires e < |db.events|
  {
    Conclude(db, Result(e, env, sup, end))
  }

  // ---- human review --------------------------------------------------------------

  function Expire(reqs: seq<ReqRow>, cutoff: int): (r: seq<ReqRow>)
    ensures |r| == |reqs|
  {
    seq(|reqs|, i requires 0 <= i < |reqs| =>
      if reqs[i].status.Sent? && reqs[i].sentAt < cutoff then reqs[i].(status := Expired) else reqs[i])
  }

  /** A request that the global sweep cancels. */
  predicate Obsolete(db: Db, r: ReqRow) {
    r.status.Sent? && (r.event >= |db.events| || db.events[r.event].status != HumanPending ||
      LatestInv(db.invs, r.event) != Some(r.inv))
  }

  function Sweep(db: Db): (r: seq<ReqRow>)
    ensures |r| == |db.reqs|
  {
    seq(|db.reqs|, i requires 0 <= i < |db.reqs| =>
      if Obsolete(db, db.reqs[i]) then db.reqs[i].(status := Cancelled) else db.reqs[i])
  }

  predicate Dispatchable(db: Db, e: nat, maxResend: int) {
    && e < |db.events| && db.events[e] == EventRow(HumanPending, false)
    && !HasSent(db.reqs, e) && CountReqs(db.reqs, e) <= maxResend
    && LatestInv(db.invs, e).Some? && Asks(db.invs[LatestInv(db.invs, e).value])
  }

  /** An event picked for a message, with the investigation that asks, the identifier of the request, and
      whether the message gets through. */
  datatype Send = Send(event: nat, inv: nat, id: ReviewTag.RequestId, delivered: bool)

  predicate Candidate(db: Db, c: Send, maxResend: int) {
    Dispatchable(db, c.event, maxResend) && LatestInv(db.invs, c.event) == Some(c.inv)
  }

  function Dispatch(db: Db, c: Send, now: int): Db
    requires c.inv < |db.invs|
  {
    db.(reqs := db.reqs + [ReqRow(c.event, c.inv, Sent, now, c.id)],
        invs := db.invs[c.inv := db.invs[c.inv].(status := AgentLoop.NeedsHuman)])
  }

  /** Sending to each picked event in turn; a failed send leaves no trace. */
  function DispatchAll(db: Db, sends: seq<Send>, now: int): Db
    requires forall k :: 0 <= k < |sends| ==> sends[k].inv < |db.invs|
    decreases |sends|
  {
    if sends == [] then db else
    DispatchAll(if sends[0].delivered then Dispatch(db, sends[0], now) else db, sends[1..], now)
  }

  /** A batch up to the point where events are picked. */
  function Tidy(db: Db, cutoff: int): Db {
    var expired := db.(reqs := Expire(db.reqs, cutoff));
    expired.(reqs := Sweep(expired))
  }

  /** One review batch. */
  function Review(db: Db, cutoff: int, sends: seq<Send>, now: int): Db
    requires forall k :: 0 <= k < |sends| ==> sends[k].inv < |db.invs|
  {
    DispatchAll(Tidy(db, cutoff), sends, now)
  }

  predicate CanReply(db: Db, r: nat) {
    r < |db.reqs| && db.reqs[r].status.Sent? && db.reqs[r].event < |db.events| && db.reqs[r].inv < |db.invs|
  }

  /** The open request with the short code that was sent last, among the first n. */
  function FindByCode(db: Db, code: string, n: nat): (r: Option<nat>)
    requires n <= |db.reqs|
    ensures r.Some? ==> r.value < n && CanReply(db, r.value) && ReviewTag.ShortCode(db.reqs[r.value].id) == code
    ensures forall i :: 0 <= i < n && CanReply(db, i) && ReviewTag.ShortCode(db.reqs[i].id) == code ==>
      r.Some? && db.reqs[i].sentAt <= db.reqs[r.value].sentAt
  {
    if n == 0 then None else
    var r := FindByCode(db, code, n - 1);
    if CanReply(db, n - 1) && ReviewTag.ShortCode(db.reqs[n - 1].id) == code &&
       (r.None? || db.reqs[n - 1].sentAt >= db.reqs[r.value].sentAt)
    then Some(n - 1) else r
  }

  /** A message that comes in: its text, whether the channel gave it an identifier, and the request it
      names, if the channel knows. */
  datatype Incoming = Incoming(raw: string, external: bool, request: Option<nat>)

  /** The request that a message answers, and the text that is stored. */
  function Addressee(db: Db, msg: Incoming): (r: Option<(nat, string)>)
    ensures r.Some? ==> CanReply(db, r.value.0)
  {
    if msg.request.Some? then
      if CanReply(db, msg.request.value) then Some((msg.request.value, msg.raw)) else None
    else
      var (code, body) := ReviewTag.ParseReply(msg.raw);
      if code.None? then None else
      var r := FindByCode(db, code.value, |db.reqs|);
      if r.None? then None else Some((r.value, body))
  }

  predicate IsDuplicate(db: Db, r: nat, raw: string, external: bool) {
    external && Response(r, raw) in db.responses
  }

  function Reply(db: Db, r: nat, raw: string, reinvestigate: bool): Db
    requires CanReply(db, r)
  {
    var req := db.reqs[r];
    var inv := db.invs[req.inv];
    (if reinvestigate then WithStatus(db, req.event, PendingReview) else db).(
      responses := db.responses + [Response(r, raw)],
      reqs := db.reqs[r := req.(status := Answered)],
      invs := if inv.status.NeedsHuman? then db.invs[req.inv := inv.(status := AgentLoop.Completed)] else db.invs)
  }

  function Cancel(db: Db, r: nat): Db {
    if r < |db.reqs| && db.reqs[r].status.Sent? then db.(reqs := db.reqs[r := db.reqs[r].(status := Cancelled)]) else db
  }

  // ---- settlement ------------------------------------------------------------------

  datatype SettleConfig = SettleConfig(autoClose: bool, confirm: bool)
  datatype SettleFault = NoFault | BeforeCase | AfterCase

  /** The investigation that settles e, if its newest completed one has a settling verdict. */
  function Settleable(db: Db, e: nat): Option<nat> {
    var i := LatestCompleted(db.invs, e);
    if i.Some? && db.invs[i.value].conclusion.Some? && !Closure.NeedsHuman(db.invs[i.value].conclusion.value.verdict)
      then i else None
  }

  predicate Resolved(disps: seq<DispRow>, i: nat) {
    forall d :: 0 <= d < |disps| && disps[d].inv == i ==> !disps[d].status.Suggested?
  }

  predicate MayClose(db: Db, i: nat, cfg: SettleConfig) {
    cfg.autoClose && (cfg.confirm ==> Resolved(db.disps, i))
  }

  predicate IsTarget(db: Db, e: nat) {
    && e < |db.events| && !db.events[e].probe && Settleable(db, e).Some? && Settleable(db, e).value !in db.cases
  }

  /** The first pass closes settled events whose dispositions have been decided meanwhile. */
  function ScanOne(db: Db, e: nat, cfg: SettleConfig): Db {
    if e < |db.events| && !db.events[e].probe && Settleable(db, e).Some? && Settleable(db, e).value in db.cases
       && MayClose(db, Settleable(db, e).value, cfg)
    then WithStatus(db, e, Closed) else db
  }

  /** An event picked for settlement, with the investigation that settles it. */
  datatype Target = Target(event: nat, inv: nat)

  /** The second pass builds the case of a target and closes its event when allowed. */
  function SettleOne(db: Db, t: Target, fault: SettleFault, cfg: SettleConfig): Db
    requires t.event < |db.events|
  {
    if fault == BeforeCase then db else
    var db' := db.(cases := db.cases + [t.inv]);
    if fault == NoFault && MayClose(db, t.inv, cfg) then WithStatus(db', t.event, Closed) else db'
  }

  function AddTarget(db: Db, targets: seq<Target>, e: nat): seq<Target> {
    if IsTarget(db, e) then targets + [Target(e, Settleable(db, e).value)] else targets
  }

  /** The first pass over the picked events, stopping once `limit` targets are found. */
  function Scan(db: Db, picked: seq<nat>, targets: seq<Target>, limit: nat, cfg: SettleConfig): (r: (Db, seq<Target>))
    requires forall k :: 0 <= k < |targets| ==> targets[k].event < |db.events|
    ensures forall k :: 0 <= k < |r.1| ==> r.1[k].event < |r.0.events|
    decreases |picked|
  {
    if picked == [] || |targets| >= limit then (db, targets) else
    Scan(ScanOne(db, picked[0], cfg), picked[1..], AddTarget(db, targets, picked[0]), limit, cfg)
  }

  function SettleAll(db: Db, targets: seq<Target>, faults: nat -> SettleFault, cfg: SettleConfig): Db
    requires forall k :: 0 <= k < |targets| ==> targets[k].event < |db.events|
    decreases |targets|
  {
    if targets == [] then db else
    SettleAll(SettleOne(db, targets[0], faults(targets[0].event), cfg), targets[1..], faults, cfg)
  }

  /** One settlement batch. */
  function Settle(db: Db, cfg: SettleConfig, limit: nat, picked: seq<nat>, faults: nat -> SettleFault): Db {
    var (scanned, targets) := Scan(db, picked, [], limit, cfg);
    SettleAll(scanned, targets, faults, cfg)
  }

  function Decide(db: Db, d: nat, status: DispStatus): Db {
    if d < |db.disps| && db.disps[d].status.Suggested?
      then db.(disps := db.disps[d := db.disps[d].(status := status)]) else db
  }
}
