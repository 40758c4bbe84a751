/** The ReAct agent loop (app/agent/loop.py) over an arbitrary language model and arbitrary skills. */
module AgentLoop {
  import opened Wrappers
  import opened Closure

  const SUBMIT_CONCLUSION := "submit_conclusion"

  datatype ToolCall = ToolCall(id: string, name: string, args: Submission)

  /** One answer of the model: an exception, or text with any tool calls. */
  datatype Reply = Raised | Reply(content: string, calls: seq<ToolCall>)

  datatype Answer = Output(success: bool) | Rejection | Invalid

  datatype Message =
    | System
    | User
    | Reminder
    | Assistant(content: string, calls: seq<ToolCall>)
    | Tool(callId: string, answer: Answer)

  datatype Role = SystemRole | UserRole | AssistantRole | ToolRole

  /** What a row holds: the text of its message, or the shorter note that is stored for a reminder. */
  datatype Content = TextOf(message: Message) | ReminderNote
  datatype MessageRow = MessageRow(role: Role, content: Content, callId: Option<string>, sequence: nat)
  datatype ToolCallRow = ToolCallRow(step: nat, skill: string, success: bool, attempt: nat)

  datatype InvestigationStatus = Running | Completed | NeedsHuman | DegradedRun

  datatype Config = Config(maxSteps: int, maxSkillCalls: int, skillRetries: nat, closure: Closure.Config)

  /** Everything the loop does not control: `llm(k)` is the answer to the k-th request, `skill(k)`
      tells whether the k-th skill attempt succeeds (an exception counts as a failure). */
  datatype Env = Env(config: Config, template: Option<Template>, llm: nat -> Reply, skill: nat -> bool)

  /** `requests` lists the conversations sent to the model; `rows` and `toolRows` are what is stored. */
  datatype State = State(
    messages: seq<Message>, rows: seq<MessageRow>, sequence: nat, toolRows: seq<ToolCallRow>,
    requests: seq<seq<Message>>, step: nat, skillCalls: nat, called: set<string>, retries: nat, recorded: nat)

  /** The ways out of the loop: an accepted conclusion, too many rejected ones, no skill calls or no
      steps left, or a failing model. */
  datatype Exit = Accepted | RetriesSpent | SkillsSpent | StepsSpent | ModelFailed

  datatype Outcome =
    | Go(state: State)
    | Stop(state: State, exit: Exit, status: InvestigationStatus, conclusion: Conclusion, closure: Option<Result>)

  // ---- the loop as a function ---------------------------------------------

  function RoleOf(m: Message): Role {
    match m
    case System => SystemRole
    case User => UserRole
    case Reminder => UserRole
    case Assistant(_, _) => AssistantRole
    case Tool(_, _) => ToolRole
  }

  function CallIdOf(m: Message): Option<string> {
    if m.Tool? then Some(m.callId) else None
  }

  function ContentOf(m: Message): Content {
    if m.Reminder? then ReminderNote else TextOf(m)
  }

  function RowOf(m: Message, sequence: nat): MessageRow {
    MessageRow(RoleOf(m), ContentOf(m), CallIdOf(m), sequence)
  }

  /** Append a message to the conversation and store its row. */
  function Post(s: State, m: Message): State {
    s.(messages := s.messages + [m], rows := s.rows + [RowOf(m, s.sequence)], sequence := s.sequence + 1)
  }

  /** The attempt rows after running a skill from attempt number `attempt` on. */
  function Attempts(env: Env, rows: seq<ToolCallRow>, step: nat, name: string, attempt: nat): (r: seq<ToolCallRow>)
    requires attempt <= env.config.skillRetries
    ensures |r| > |rows| && rows <= r
    decreases env.config.skillRetries - attempt
  {
    var success := env.skill(|rows|);
    var rows' := rows + [ToolCallRow(step, name, success, attempt)];
    if success || attempt == env.config.skillRetries then rows' else Attempts(env, rows', step, name, attempt + 1)
  }

  function Submit(env: Env, s: State, call: ToolCall): (o: Outcome)
    ensures o.state.step == s.step && o.state.requests == s.requests
  {
    match ParseConclusion(call.args)
    case None => Go(Post(s, Tool(call.id, Invalid)))
    case Some(c) =>
      var r := Evaluate(c, s.called, env.template, env.config.closure);
      if r.passed then Stop(s.(recorded := s.skillCalls), Accepted, Completed, c, Some(r)) else
      var s' := s.(retries := s.retries + 1);
      if s'.retries > env.config.closure.maxRetries
      then Stop(s'.(recorded := s.skillCalls), RetriesSpent, NeedsHuman, Degraded, Some(r))
      else Go(Post(s', Tool(call.id, Rejection)))
  }

  function UseSkill(env: Env, s: State, call: ToolCall): (o: Outcome)
    ensures o.state.step == s.step && o.state.requests == s.requests
  {
    var s' := s.(skillCalls := s.skillCalls + 1, called := s.called + {call.name});
    if s'.skillCalls > env.config.maxSkillCalls then Stop(s', SkillsSpent, NeedsHuman, Degraded, None) else
    var rows := Attempts(env, s.toolRows, s.step, call.name, 0);
    Go(Post(s'.(toolRows := rows), Tool(call.id, Output(rows[|rows| - 1].success))))
  }

  function HandleCall(env: Env, s: State, call: ToolCall): (o: Outcome)
    ensures o.state.step == s.step && o.state.requests == s.requests
  {
    if call.name == SUBMIT_CONCLUSION then Submit(env, s, call) else UseSkill(env, s, call)
  }

  function HandleCalls(env: Env, s: State, calls: seq<ToolCall>): (o: Outcome)
    ensures o.state.step == s.step && o.state.requests == s.requests
    decreases |calls|
  {
    if calls == [] then Go(s) else
    var o := HandleCall(env, s, calls[0]);
    if o.Stop? then o else HandleCalls(env, o.state, calls[1..])
  }

  function Step(env: Env, s: State): (o: Outcome)
    ensures o.state.step == s.step + 1 && o.state.requests == s.requests + [s.messages]
  {
    var s' := s.(step := s.step + 1, requests := s.requests + [s.messages]);
    match env.llm(|s.requests|)
    case Raised => Stop(s', ModelFailed, DegradedRun, Degraded, None)
    case Reply(content, calls) =>
      if calls != [] then HandleCalls(env, Post(s', Assistant(content, calls)), calls)
      else if content != "" then Go(Post(Post(s', Assistant(content, [])), Reminder))
      else Go(s')
  }

  function RunFrom(env: Env, s: State): (o: Outcome)
    ensures o.Stop?
    decreases env.config.maxSteps - s.step
  {
    if s.step >= env.config.maxSteps
      then Stop(s.(recorded := s.skillCalls), StepsSpent, NeedsHuman, Degraded, None) else
    var o := Step(env, s);
    if o.Stop? then o else RunFrom(env, o.state)
  }

  const Initial: State := State(
    [System, User], [RowOf(System, 0), RowOf(User, 1)], 2, [], [], 0, 0, {}, 0, 0)

  function Run(env: Env): (o: Outcome)
    ensures o.Stop?
  {
    RunFrom(env, Initial)
  }

  // ---- what is promised ------------------------------------------------------

  /** The row tells the message: who speaks, the text or its note, the call it answers, and its number. */
  ghost predicate Tells(row: MessageRow, m: Message, number: nat) {
    && row.sequence == number
    && (row.role.SystemRole? <==> m.System?) && (row.role.AssistantRole? <==> m.Assistant?)
    && (row.role.ToolRole? <==> m.Tool?) && (row.role.UserRole? <==> m.User? || m.Reminder?)
    && (row.content == if m.Reminder? then ReminderNote else TextOf(m))
    && (row.callId == if m.Tool? then Some(m.callId) else None)
  }

  /** The stored rows mirror the conversation one to one, numbered from zero. */
  ghost predicate Mirrored(s: State) {
    && |s.rows| == |s.messages| == s.sequence
    && forall i :: 0 <= i < |s.rows| ==> Tells(s.rows[i], s.messages[i], i)
  }

  /** tools are the answers to calls: one each, in order, with the matching id. */
  ghost predicate Answers(tools: seq<Message>, calls: seq<ToolCall>) {
    && |tools| == |calls|
    && forall i :: 0 <= i < |calls| ==> tools[i].Tool? && tools[i].callId == calls[i].id
  }

  /** A sequence of finished turns: every assistant message with tool calls is followed by exactly
      one answer per call, every plain assistant message by one reminder. */
  ghost predicate Turns(ms: seq<Message>) {
    ms == [] ||
    (ms[0].Assistant? &&
      var n := |ms[0].calls|;
      if n == 0 then |ms| >= 2 && ms[1].Reminder? && Turns(ms[2..])
      else |ms| > n && Answers(ms[1..n + 1], ms[0].calls) && Turns(ms[n + 1..]))
  }

  ghost predicate Protocol(ms: seq<Message>) {
    |ms| >= 2 && ms[0].System? && ms[1].User? && Turns(ms[2..])
  }

  lemma SliceOfConcat<T>(a: seq<T>, b: seq<T>, n: nat)
    requires 1 <= n <= |a|
    ensures (a + b)[0] == a[0] && (a + b)[1..n] == a[1..n] && (a + b)[n..] == a[n..] + b
  {
  }

  lemma {:induction false} TurnsConcat(a: seq<Message>, b: seq<Message>)
    requires Turns(a) && Turns(b)
    ensures Turns(a + b)
  {
    if a == [] {
      assert a + b == b;
    } else {
      var n := if |a[0].calls| == 0 then 1 else |a[0].calls|;
      TurnsConcat(a[n + 1..], b);
      SliceOfConcat(a, b, n + 1);
    }
  }

  /** Attempts of one skill run are consecutive rows, counted from zero; a further attempt is made
      only after a failure, and only while retries remain. */
  ghost predicate WellTried(rows: seq<ToolCallRow>, retries: nat) {
    forall i :: 0 <= i < |rows| ==> TriedAt(rows, i, retries)
  }

  ghost predicate TriedAt(rows: seq<ToolCallRow>, i: nat, retries: nat)
    requires i < |rows|
  {
    && rows[i].attempt <= retries
    && (rows[i].attempt > 0 ==>
          i > 0 && rows[i - 1] == ToolCallRow(rows[i].step, rows[i].skill, false, rows[i].attempt - 1))
  }

  /** Each of the first n attempts that failed with retries left was followed by the next attempt. */
  ghost predicate Retried(rows: seq<ToolCallRow>, n: nat, retries: nat)
    requires n <= |rows|
  {
    forall i :: 0 <= i < n ==> RetriedAt(rows, i, retries)
  }

  ghost predicate RetriedAt(rows: seq<ToolCallRow>, i: nat, retries: nat)
    requires i < |rows|
  {
    var r := rows[i];
    r.success || r.attempt == retries ||
    (i + 1 < |rows| && rows[i + 1] == ToolCallRow(r.step, r.skill, rows[i + 1].success, r.attempt + 1))
  }

  /** The number of skill runs that the rows record. */
  ghost function Runs(rows: seq<ToolCallRow>): nat {
    if rows == [] then 0 else Runs(rows[..|rows| - 1]) + (if rows[|rows| - 1].attempt == 0 then 1 else 0)
  }

  function Names(rows: seq<ToolCallRow>): set<string> {
    set r | r in rows :: r.skill
  }

  ghost function Rejections(ms: seq<Message>): nat {
    if ms == [] then 0 else
    Rejections(ms[..|ms| - 1]) + (if ms[|ms| - 1].Tool? && ms[|ms| - 1].answer.Rejection? then 1 else 0)
  }

  /** The k-th row holds the outcome of the k-th attempt. */
  ghost predicate Truthful(env: Env, rows: seq<ToolCallRow>) {
    forall k :: 0 <= k < |rows| ==> rows[k].success == env.skill(k)
  }

  /** The stored attempts agree with the loop's own counters. */
  ghost predicate ToolsKept(env: Env, rows: seq<ToolCallRow>, skillCalls: nat, called: set<string>) {
    && called == Names(rows) && Truthful(env, rows)
    && WellTried(rows, env.config.skillRetries) && Retried(rows, |rows|, env.config.skillRetries)
    && Runs(rows) == skillCalls <= Max(env.config.maxSkillCalls, 0)
  }

  /** Every request was a well-formed conversation that has only been extended since. */
  ghost predicate Asked(env: Env, requests: seq<seq<Message>>, messages: seq<Message>) {
    && |requests| <= Max(env.config.maxSteps, 0)
    && forall k :: 0 <= k < |requests| ==> Protocol(requests[k]) && requests[k] <= messages
  }

  /** Holds between any two actions of the loop. */
  ghost predicate Inv(env: Env, s: State) {
    && Mirrored(s)
    && ToolsKept(env, s.toolRows, s.skillCalls, s.called)
    && Rejections(s.messages) == s.retries <= Max(env.config.closure.maxRetries, 0)
    && Asked(env, s.requests, s.messages) && |s.requests| == s.step
    && s.recorded == 0
  }

  /** What holds when the loop has returned. */
  ghost predicate Finished(env: Env, o: Outcome)
    requires o.Stop?
  {
    var s := o.state;
    && Mirrored(s)
    && WellTried(s.toolRows, env.config.skillRetries) && Retried(s.toolRows, |s.toolRows|, env.config.skillRetries)
    && Truthful(env, s.toolRows) && Runs(s.toolRows) <= Max(env.config.maxSkillCalls, 0)
    && Rejections(s.messages) <= Max(env.config.closure.maxRetries, 0)
    && Asked(env, s.requests, s.messages)
    && ExitFits(env, o)
    && s.recorded == if Stores(o.exit) then Runs(s.toolRows) else 0
  }

  /** Whether leaving this way stores the number of skill calls. */
  predicate Stores(exit: Exit) {
    exit.Accepted? || exit.RetriesSpent? || exit.StepsSpent?
  }

  /** The loop ends with an accepted conclusion, or gives up with the degraded one, and then only when a
      budget is used up or the model failed. */
  ghost predicate ExitFits(env: Env, o: Outcome)
    requires o.Stop?
  {
    var s := o.state;
    match o.exit
    case Accepted =>
      && o.status.Completed? && o.closure.Some? && o.closure.value.passed
    case RetriesSpent =>
      && o.status.NeedsHuman? && o.conclusion == Degraded && o.closure.Some? && !o.closure.value.passed
      && Rejections(s.messages) == Max(env.config.closure.maxRetries, 0)
    case SkillsSpent =>
      && o.status.NeedsHuman? && o.conclusion == Degraded && o.closure.None?
      && Runs(s.toolRows) == Max(env.config.maxSkillCalls, 0)
    case StepsSpent =>
      && o.status.NeedsHuman? && o.conclusion == Degraded && o.closure.None?
      && |s.requests| == Max(env.config.maxSteps, 0) && Protocol(s.messages)
    case ModelFailed =>
      && o.status.DegradedRun? && o.conclusion == Degraded && o.closure.None?
      && |s.requests| > 0 && env.llm(|s.requests| - 1).Raised?
  }

  // ---- and proved ---------------------------------------------------------------

  lemma NamesSnoc(rows: seq<ToolCallRow>, r: ToolCallRow)
    ensures Names(rows + [r]) == Names(rows) + {r.skill}
  {
    assert forall x :: x in rows + [r] <==> x in rows || x == r;
  }

  lemma TriedSnoc(rows: seq<ToolCallRow>, r: ToolCallRow, retries: nat)
    requires WellTried(rows, retries) && r.attempt <= retries
    requires r.attempt > 0 ==> |rows| > 0 && rows[|rows| - 1] == ToolCallRow(r.step, r.skill, false, r.attempt - 1)
    ensures WellTried(rows + [r], retries)
  {
    forall i | 0 <= i < |rows| + 1 ensures TriedAt(rows + [r], i, retries) {
      if i < |rows| { assert TriedAt(rows, i, retries); }
    }
  }

  lemma RunsSnoc(rows: seq<ToolCallRow>, r: ToolCallRow)
    ensures Runs(rows + [r]) == Runs(rows) + if r.attempt == 0 then 1 else 0
  {
    assert (rows + [r])[..|rows|] == rows;
  }

  lemma RejectionsSnoc(ms: seq<Message>, m: Message)
    ensures Rejections(ms + [m]) == Rejections(ms) + if m.Tool? && m.answer.Rejection? then 1 else 0
  {
    assert (ms + [m])[..|ms|] == ms;
  }

  lemma {:induction false} AttemptsRecorded(env: Env, rows: seq<ToolCallRow>, step: nat, name: string, attempt: nat)
    requires attempt <= env.config.skillRetries && WellTried(rows, env.config.skillRetries)
    requires attempt > 0 ==> |rows| > 0 && rows[|rows| - 1] == ToolCallRow(step, name, false, attempt - 1)
    ensures var r := Attempts(env, rows, step, name, attempt);
      && WellTried(r, env.config.skillRetries)
      && Names(r) == Names(rows) + {name}
      && Runs(r) == Runs(rows) + (if attempt == 0 then 1 else 0)
    decreases env.config.skillRetries - attempt
  {
    var success := env.skill(|rows|);
    var row := ToolCallRow(step, name, success, attempt);
    NamesSnoc(rows, row);
    RunsSnoc(rows, row);
    TriedSnoc(rows, row, env.config.skillRetries);
    if !success && attempt < env.config.skillRetries {
      AttemptsRecorded(env, rows + [row], step, name, attempt + 1);
    }
  }

  lemma {:induction false} AttemptsTruthful(env: Env, rows: seq<ToolCallRow>, step: nat, name: string, attempt: nat)
    requires attempt <= env.config.skillRetries && Truthful(env, rows)
    ensures Truthful(env, Attempts(env, rows, step, name, attempt))
    decreases env.config.skillRetries - attempt
  {
    var row := ToolCallRow(step, name, env.skill(|rows|), attempt);
    if !row.success && attempt < env.config.skillRetries {
      AttemptsTruthful(env, rows + [row], step, name, attempt + 1);
    }
  }

  lemma {:induction false} AttemptsRetried(env: Env, rows: seq<ToolCallRow>, step: nat, name: string, attempt: nat)
    requires attempt <= env.config.skillRetries
    requires if attempt == 0 then Retried(rows, |rows|, env.config.skillRetries)
             else |rows| > 0 && Retried(rows, |rows| - 1, env.config.skillRetries)
                  && rows[|rows| - 1] == ToolCallRow(step, name, false, attempt - 1)
    ensures var r := Attempts(env, rows, step, name, attempt); Retried(r, |r|, env.config.skillRetries)
    decreases env.config.skillRetries - attempt
  {
    var row := ToolCallRow(step, name, env.skill(|rows|), attempt);
    forall i | 0 <= i < |rows| ensures RetriedAt(rows + [row], i, env.config.skillRetries) {
      if attempt == 0 || i < |rows| - 1 { assert RetriedAt(rows, i, env.config.skillRetries); }
    }
    if !row.success && attempt < env.config.skillRetries {
      AttemptsRetried(env, rows + [row], step, name, attempt + 1);
    }
  }

  lemma RowTells(m: Message, number: nat)
    ensures Tells(RowOf(m, number), m, number)
  {
  }

  lemma PostMirrors(s: State, m: Message)
    requires Mirrored(s)
    ensures Mirrored(Post(s, m))
  {
    RowTells(m, s.sequence);
    var s' := Post(s, m);
    forall i | 0 <= i < |s'.rows| ensures Tells(s'.rows[i], s'.messages[i], i) {
      if i < |s.rows| { assert Tells(s.rows[i], s.messages[i], i); }
    }
  }

  lemma PostAsked(env: Env, requests: seq<seq<Message>>, ms: seq<Message>, m: Message)
    requires Asked(env, requests, ms)
    ensures Asked(env, requests, ms + [m])
  {
  }

  lemma PostKeeps(env: Env, s: State, m: Message)
    requires Inv(env, s) && !(m.Tool? && m.answer.Rejection?)
    ensures Inv(env, Post(s, m))
  {
    PostMirrors(s, m);
    PostAsked(env, s.requests, s.messages, m);
    RejectionsSnoc(s.messages, m);
  }

  lemma PostRejectionKeeps(env: Env, s: State, id: string)
    requires Inv(env, s) && s.retries + 1 <= env.config.closure.maxRetries
    ensures Inv(env, Post(s.(retries := s.retries + 1), Tool(id, Rejection)))
  {
    PostMirrors(s, Tool(id, Rejection));
    PostAsked(env, s.requests, s.messages, Tool(id, Rejection));
    RejectionsSnoc(s.messages, Tool(id, Rejection));
  }

  lemma HandleCallKeeps(env: Env, s: State, call: ToolCall)
    requires Inv(env, s)
    ensures var o := HandleCall(env, s, call);
      if o.Stop? then Finished(env, o)
      else Inv(env, o.state) && exists a :: o.state.messages == s.messages + [Tool(call.id, a)]
  {
    if call.name == SUBMIT_CONCLUSION { SubmitKeeps(env, s, call); } else { UseSkillKeeps(env, s, call); }
  }

  lemma UseSkillKeeps(env: Env, s: State, call: ToolCall)
    requires Inv(env, s)
    ensures var o := UseSkill(env, s, call);
      if o.Stop? then Finished(env, o)
      else Inv(env, o.state) && exists a :: o.state.messages == s.messages + [Tool(call.id, a)]
  {
    if s.skillCalls + 1 <= env.config.maxSkillCalls {
      UseSkillAnswers(env, s, call);
      UseSkillRuns(env, s, call);
    } else {
      UseSkillStops(env, s, call);
    }
  }

  lemma UseSkillStops(env: Env, s: State, call: ToolCall)
    requires Inv(env, s) && s.skillCalls + 1 > env.config.maxSkillCalls
    ensures var o := UseSkill(env, s, call); o.Stop? && Finished(env, o)
  {
  }

  /** A skill call within the budget is answered by one tool message. */
  lemma UseSkillAnswers(env: Env, s: State, call: ToolCall)
    requires s.skillCalls + 1 <= env.config.maxSkillCalls
    ensures var o := UseSkill(env, s, call);
      o.Go? && exists a :: o.state.messages == s.messages + [Tool(call.id, a)]
  {
    var rows := Attempts(env, s.toolRows, s.step, call.name, 0);
    assert UseSkill(env, s, call).state.messages ==
      s.messages + [Tool(call.id, Output(rows[|rows| - 1].success))];
  }

  lemma SkillCounted(env: Env, rows: seq<ToolCallRow>, step: nat, name: string, skillCalls: nat, called: set<string>)
    requires ToolsKept(env, rows, skillCalls, called) && skillCalls + 1 <= env.config.maxSkillCalls
    ensures ToolsKept(env, Attempts(env, rows, step, name, 0), skillCalls + 1, called + {name})
  {
    AttemptsRecorded(env, rows, step, name, 0);
    AttemptsTruthful(env, rows, step, name, 0);
    AttemptsRetried(env, rows, step, name, 0);
  }

  lemma UseSkillRuns(env: Env, s: State, call: ToolCall)
    requires Inv(env, s) && s.skillCalls + 1 <= env.config.maxSkillCalls
    ensures UseSkill(env, s, call).Go? && Inv(env, UseSkill(env, s, call).state)
  {
    var rows := Attempts(env, s.toolRows, s.step, call.name, 0);
    SkillCounted(env, s.toolRows, s.step, call.name, s.skillCalls, s.called);
    AnswerPosted(env, s, s.called + {call.name}, rows, call.id, Output(rows[|rows| - 1].success));
  }

  lemma AnswerPosted(env: Env, s: State, called: set<string>, rows: seq<ToolCallRow>, id: string, answer: Answer)
    requires Inv(env, s) && !answer.Rejection?
    requires ToolsKept(env, rows, s.skillCalls + 1, called)
    ensures Inv(env, Post(s.(skillCalls := s.skillCalls + 1, called := called, toolRows := rows), Tool(id, answer)))
  {
    var s' := s.(skillCalls := s.skillCalls + 1, called := called, toolRows := rows);
    assert Inv(env, s');
    PostKeeps(env, s', Tool(id, answer));
  }

  lemma SubmitStops(env: Env, s: State, call: ToolCall)
    requires Inv(env, s) && Submit(env, s, call).Stop?
    ensures Finished(env, Submit(env, s, call))
  {
  }

  lemma SubmitGoesOn(env: Env, s: State, call: ToolCall)
    requires Inv(env, s) && Submit(env, s, call).Go?
    ensures var o := Submit(env, s, call);
      Inv(env, o.state) && exists a :: o.state.messages == s.messages + [Tool(call.id, a)]
  {
    match ParseConclusion(call.args)
    case None => PostKeeps(env, s, Tool(call.id, Invalid));
    case Some(c) => PostRejectionKeeps(env, s, call.id);
  }

  lemma SubmitKeeps(env: Env, s: State, call: ToolCall)
    requires Inv(env, s)
    ensures var o := Submit(env, s, call);
      if o.Stop? then Finished(env, o)
      else Inv(env, o.state) && exists a :: o.state.messages == s.messages + [Tool(call.id, a)]
  {
    if Submit(env, s, call).Stop? { SubmitStops(env, s, call); } else { SubmitGoesOn(env, s, call); }
  }

  lemma {:induction false} HandleCallsKeep(env: Env, s: State, calls: seq<ToolCall>)
    requires Inv(env, s)
    ensures var o := HandleCalls(env, s, calls);
      if o.Stop? then Finished(env, o)
      else Inv(env, o.state) && exists tools :: o.state.messages == s.messages + tools && Answers(tools, calls)
    decreases |calls|
  {
    if calls == [] {
      assert s.messages + [] == s.messages && Answers([], calls);
    } else {
      HandleCallKeeps(env, s, calls[0]);
      var o := HandleCall(env, s, calls[0]);
      if o.Go? {
        HandleCallsKeep(env, o.state, calls[1..]);
        var last := HandleCalls(env, o.state, calls[1..]);
        if last.Go? { Chain(s.messages, o.state.messages, last.state.messages, calls); }
      }
    }
  }

  lemma Chain(before: seq<Message>, middle: seq<Message>, after: seq<Message>, calls: seq<ToolCall>)
    requires calls != []
    requires exists a :: middle == before + [Tool(calls[0].id, a)]
    requires exists tools :: after == middle + tools && Answers(tools, calls[1..])
    ensures exists tools :: after == before + tools && Answers(tools, calls)
  {
    var a :| middle == before + [Tool(calls[0].id, a)];
    var tools :| after == middle + tools && Answers(tools, calls[1..]);
    AnswersCons(Tool(calls[0].id, a), tools, calls);
    assert after == before + ([Tool(calls[0].id, a)] + tools);
  }

  lemma AnswersCons(tool: Message, tools: seq<Message>, calls: seq<ToolCall>)
    requires calls != [] && tool.Tool? && tool.callId == calls[0].id && Answers(tools, calls[1..])
    ensures Answers([tool] + tools, calls)
  {
    forall i | 1 <= i < |calls| ensures ([tool] + tools)[i].Tool? && ([tool] + tools)[i].callId == calls[i].id {
      assert ([tool] + tools)[i] == tools[i - 1] && calls[i] == calls[1..][i - 1];
    }
  }

  /** A reply with tool calls: every call is answered, or one of them ends the loop. */
  lemma CallsKeep(env: Env, s: State, content: string, calls: seq<ToolCall>)
    requires Inv(env, s) && Protocol(s.messages) && calls != []
    ensures var o := HandleCalls(env, Post(s, Assistant(content, calls)), calls);
      if o.Stop? then Finished(env, o) else Inv(env, o.state) && Protocol(o.state.messages)
  {
    var posted := Post(s, Assistant(content, calls));
    PostKeeps(env, s, Assistant(content, calls));
    HandleCallsKeep(env, posted, calls);
    var o := HandleCalls(env, posted, calls);
    if o.Go? {
      var tools :| o.state.messages == posted.messages + tools && Answers(tools, calls);
      OneTurn(Assistant(content, calls), tools);
      TurnAdded(s.messages, Assistant(content, calls), tools);
    }
  }

  /** A reply without tool calls is followed by a reminder. */
  lemma TextKeeps(env: Env, s: State, content: string)
    requires Inv(env, s) && Protocol(s.messages)
    ensures var s' := Post(Post(s, Assistant(content, [])), Reminder); Inv(env, s') && Protocol(s'.messages)
  {
    var posted := Post(s, Assistant(content, []));
    PostKeeps(env, s, Assistant(content, []));
    PostKeeps(env, posted, Reminder);
    OneTurn(Assistant(content, []), [Reminder]);
    TurnAdded(s.messages, Assistant(content, []), [Reminder]);
  }

  lemma AskKeeps(env: Env, s: State)
    requires Inv(env, s) && Protocol(s.messages) && s.step < env.config.maxSteps
    ensures Inv(env, s.(step := s.step + 1, requests := s.requests + [s.messages]))
  {
  }

  lemma StepKeeps(env: Env, s: State)
    requires Inv(env, s) && Protocol(s.messages) && s.step < env.config.maxSteps
    ensures var o := Step(env, s);
      if o.Stop? then Finished(env, o) else Inv(env, o.state) && Protocol(o.state.messages)
  {
    var s' := s.(step := s.step + 1, requests := s.requests + [s.messages]);
    AskKeeps(env, s);
    match env.llm(|s.requests|)
    case Raised =>
    case Reply(content, calls) =>
      if calls != [] {
        CallsKeep(env, s', content, calls);
      } else if content != "" {
        TextKeeps(env, s', content);
      }
  }

  lemma OneTurn(head: Message, rest: seq<Message>)
    requires head.Assistant?
    requires if head.calls == [] then rest == [Reminder] else Answers(rest, head.calls)
    ensures Turns([head] + rest)
  {
    var turn, n := [head] + rest, |rest|;
    assert turn[1..n + 1] == rest && turn[n + 1..] == [];
  }

  lemma TurnAdded(ms: seq<Message>, head: Message, rest: seq<Message>)
    requires Protocol(ms) && Turns([head] + rest)
    ensures Protocol(ms + [head] + rest)
  {
    TurnsConcat(ms[2..], [head] + rest);
    assert (ms + [head] + rest)[2..] == ms[2..] + ([head] + rest);
  }

  lemma {:induction false} RunFromFinishes(env: Env, s: State)
    requires Inv(env, s) && Protocol(s.messages)
    ensures Finished(env, RunFrom(env, s))
    decreases env.config.maxSteps - s.step
  {
    if s.step < env.config.maxSteps {
      StepKeeps(env, s);
      var o := Step(env, s);
      if o.Go? { RunFromFinishes(env, o.state); }
    }
  }

  // ---- what every answer is due to -------------------------------------------------

  /** Message i answers `call`, or will when it comes: the call stands at its place in the assistant
      message at a, and only answers lie between. */
  ghost predicate CallFrom(ms: seq<Message>, a: nat, i: nat, call: ToolCall) {
    && a < i <= |ms| && ms[a].Assistant? && i - a - 1 < |ms[a].calls| && ms[a].calls[i - a - 1] == call
    && forall j :: a < j < i ==> ms[j].Tool?
  }

  ghost predicate CallAt(ms: seq<Message>, i: nat, call: ToolCall) {
    exists a :: 0 <= a < i && CallFrom(ms, a, i, call)
  }

  /** The number of answers that give the output of a skill. */
  ghost function Outputs(ms: seq<Message>): nat {
    if ms == [] then 0 else
    Outputs(ms[..|ms| - 1]) + (if ms[|ms| - 1].Tool? && ms[|ms| - 1].answer.Output? then 1 else 0)
  }

  /** The first n rows are those of the first `runs` skill runs. */
  ghost predicate StoredBy(rows: seq<ToolCallRow>, runs: nat, n: nat) {
    n <= |rows| && Runs(rows[..n]) == runs && (n == |rows| || rows[n].attempt == 0)
  }

  /** The step: the answer at position i follows its request and precedes the next. */
  ghost predicate InStep(requests: seq<seq<Message>>, step: nat, i: nat) {
    && 1 <= step <= |requests| && |requests[step - 1]| <= i && (step < |requests| ==> i < |requests[step]|)
  }

  /** The answer is due to its call, and to the attempts stored when it was given: a submission is invalid
      only when it does not parse and rejected only when it fails the gate; an output is that of the last
      attempt at the skill called. */
  ghost predicate Due(env: Env, requests: seq<seq<Message>>, i: nat, m: Message, call: ToolCall,
    stored: seq<ToolCallRow>)
    requires m.Tool?
  {
    m.callId == call.id &&
    match m.answer
    case Invalid => call.name == SUBMIT_CONCLUSION && ParseConclusion(call.args).None?
    case Rejection =>
      && call.name == SUBMIT_CONCLUSION && ParseConclusion(call.args).Some?
      && !Evaluate(ParseConclusion(call.args).value, Names(stored), env.template, env.config.closure).passed
    case Output(success) =>
      && call.name != SUBMIT_CONCLUSION && stored != []
      && var last := stored[|stored| - 1];
         last.skill == call.name && last.success == success && InStep(requests, last.step, i)
  }

  ghost predicate DueWith(env: Env, requests: seq<seq<Message>>, ms: seq<Message>, rows: seq<ToolCallRow>, i: nat,
    call: ToolCall, n: nat)
    requires i < |ms| && ms[i].Tool?
  {
    && CallAt(ms, i, call) && StoredBy(rows, Outputs(ms[..i + 1]), n)
    && Due(env, requests, i, ms[i], call, rows[..n])
  }

  ghost predicate GroundedAt(env: Env, requests: seq<seq<Message>>, ms: seq<Message>, rows: seq<ToolCallRow>, i: nat)
    requires i < |ms|
  {
    ms[i].Tool? ==> exists call, n :: 0 <= n <= |rows| && DueWith(env, requests, ms, rows, i, call, n)
  }

  /** Every answer is due. */
  ghost predicate Grounded(env: Env, requests: seq<seq<Message>>, ms: seq<Message>, rows: seq<ToolCallRow>) {
    forall i :: 0 <= i < |ms| ==> GroundedAt(env, requests, ms, rows, i)
  }

  /** What a reply adds to the conversation: its message with answers to its calls, its text with a
      reminder, or nothing. */
  ghost predicate Follows(reply: Reply, before: seq<Message>, after: seq<Message>) {
    && reply.Reply? && before <= after
    && if reply.calls != [] then
         && |before| < |after| <= |before| + 1 + |reply.calls|
         && after[|before|] == Assistant(reply.content, reply.calls)
         && forall j :: |before| < j < |after| ==> after[j].Tool?
       else after == before + if reply.content != "" then [Assistant(reply.content, []), Reminder] else []
  }

  /** The conversation starts with the prompts, and each request is the one before it and what its reply
      has added. */
  ghost predicate Told(env: Env, requests: seq<seq<Message>>) {
    && (requests != [] ==> requests[0] == [System, User])
    && forall k :: 0 <= k < |requests| - 1 ==> Follows(env.llm(k), requests[k], requests[k + 1])
  }

  /** And so is the conversation as it stands. */
  ghost predicate ToldLast(env: Env, requests: seq<seq<Message>>, ms: seq<Message>) {
    if requests == [] then ms == [System, User]
    else Follows(env.llm(|requests| - 1), requests[|requests| - 1], ms)
  }

  /** The call that the loop has stopped at, which stays without an answer. */
  ghost predicate Unanswered(ms: seq<Message>, call: ToolCall) {
    CallAt(ms, |ms|, call)
  }

  /** The loop has stopped at a submission of c, and the result is that of the closure check on c, with
      the stored skills as called. */
  ghost predicate Checked(env: Env, s: State, c: Conclusion, result: Result) {
    && (exists call :: Unanswered(s.messages, call) && call.name == SUBMIT_CONCLUSION &&
          ParseConclusion(call.args) == Some(c))
    && result == Evaluate(c, Names(s.toolRows), env.template, env.config.closure)
  }

  /** Why the loop stopped where it did. */
  ghost predicate StoppedAt(env: Env, o: Outcome)
    requires o.Stop?
  {
    var s := o.state;
    match o.exit
    case Accepted => o.closure.Some? && Checked(env, s, o.conclusion, o.closure.value)
    case RetriesSpent => o.closure.Some? && exists c :: Checked(env, s, c, o.closure.value)
    case SkillsSpent => exists call :: Unanswered(s.messages, call) && call.name != SUBMIT_CONCLUSION
    case StepsSpent => true
    case ModelFailed => s.requests != [] && s.messages == s.requests[|s.requests| - 1]
  }

  /** The whole conversation is explained by the model's replies and the stored attempts. */
  ghost predicate Sourced(env: Env, s: State) {
    && Grounded(env, s.requests, s.messages, s.toolRows) && Outputs(s.messages) == Runs(s.toolRows)
    && Told(env, s.requests)
  }

  ghost predicate Explained(env: Env, o: Outcome)
    requires o.Stop?
  {
    && Sourced(env, o.state) && StoppedAt(env, o)
    && (!o.exit.ModelFailed? ==> ToldLast(env, o.state.requests, o.state.messages))
  }

  lemma OutputsSnoc(ms: seq<Message>, m: Message)
    ensures Outputs(ms + [m]) == Outputs(ms) + if m.Tool? && m.answer.Output? then 1 else 0
  {
    assert (ms + [m])[..|ms|] == ms;
  }

  /** More messages and more skill runs leave an answer due. */
  lemma StaysDue(env: Env, requests: seq<seq<Message>>, ms: seq<Message>, rows: seq<ToolCallRow>, i: nat, m: Message,
    rows': seq<ToolCallRow>)
    requires i < |ms| && GroundedAt(env, requests, ms, rows, i)
    requires rows <= rows' && (|rows| < |rows'| ==> rows'[|rows|].attempt == 0)
    ensures GroundedAt(env, requests, ms + [m], rows', i)
  {
    var ms' := ms + [m];
    if ms[i].Tool? {
      var call, n :| 0 <= n <= |rows| && DueWith(env, requests, ms, rows, i, call, n);
      var a :| 0 <= a < i && CallFrom(ms, a, i, call);
      assert CallFrom(ms', a, i, call);
      assert ms'[..i + 1] == ms[..i + 1] && rows'[..n] == rows[..n];
      assert DueWith(env, requests, ms', rows', i, call, n);
    }
  }

  lemma GroundedSnoc(env: Env, requests: seq<seq<Message>>, ms: seq<Message>, rows: seq<ToolCallRow>, m: Message,
    rows': seq<ToolCallRow>)
    requires Grounded(env, requests, ms, rows) && GroundedAt(env, requests, ms + [m], rows', |ms|)
    requires rows <= rows' && (|rows| < |rows'| ==> rows'[|rows|].attempt == 0)
    ensures Grounded(env, requests, ms + [m], rows')
  {
    forall i | 0 <= i < |ms| + 1 ensures GroundedAt(env, requests, ms + [m], rows', i) {
      if i < |ms| { StaysDue(env, requests, ms, rows, i, m, rows'); }
    }
  }

  /** An answer that is due keeps the conversation grounded. */
  lemma AnswerGrounds(env: Env, requests: seq<seq<Message>>, ms: seq<Message>, rows: seq<ToolCallRow>, call: ToolCall,
    answer: Answer, rows': seq<ToolCallRow>)
    requires Grounded(env, requests, ms, rows) && CallAt(ms, |ms|, call)
    requires rows <= rows' && (|rows| < |rows'| ==> rows'[|rows|].attempt == 0)
    requires Outputs(ms) + (if answer.Output? then 1 else 0) == Runs(rows')
    requires Due(env, requests, |ms|, Tool(call.id, answer), call, rows')
    ensures Grounded(env, requests, ms + [Tool(call.id, answer)], rows')
    ensures Outputs(ms + [Tool(call.id, answer)]) == Runs(rows')
  {
    var m, n := Tool(call.id, answer), |rows'|;
    var ms' := ms + [m];
    OutputsSnoc(ms, m);
    var a :| 0 <= a < |ms| && CallFrom(ms, a, |ms|, call);
    assert CallFrom(ms', a, |ms|, call);
    assert ms'[..|ms| + 1] == ms' && rows'[..n] == rows';
    assert DueWith(env, requests, ms', rows', |ms|, call, n);
    GroundedSnoc(env, requests, ms, rows, m, rows');
  }

  /** The rows of one skill run. */
  lemma {:induction false} AttemptsNamed(env: Env, rows: seq<ToolCallRow>, step: nat, name: string, attempt: nat)
    requires attempt <= env.config.skillRetries
    ensures var r := Attempts(env, rows, step, name, attempt);
      r[|rows|].attempt == attempt && r[|r| - 1].skill == name && r[|r| - 1].step == step
    decreases env.config.skillRetries - attempt
  {
    var row := ToolCallRow(step, name, env.skill(|rows|), attempt);
    if !row.success && attempt < env.config.skillRetries {
      AttemptsNamed(env, rows + [row], step, name, attempt + 1);
      assert (rows + [row])[|rows|] == row;
    }
  }

  /** The next message answers `call`. */
  ghost predicate UpNext(s: State, call: ToolCall) {
    && CallAt(s.messages, |s.messages|, call)
    && |s.requests| > 0 && |s.requests[|s.requests| - 1]| <= |s.messages|
  }

  lemma SubmitSourced(env: Env, s: State, call: ToolCall)
    requires Inv(env, s) && Sourced(env, s) && UpNext(s, call) && call.name == SUBMIT_CONCLUSION
    ensures var o := Submit(env, s, call); Sourced(env, o.state) && (o.Stop? ==> StoppedAt(env, o))
  {
    match ParseConclusion(call.args)
    case None => AnswerGrounds(env, s.requests, s.messages, s.toolRows, call, Invalid, s.toolRows);
    case Some(c) =>
      var r := Evaluate(c, s.called, env.template, env.config.closure);
      if r.passed || s.retries + 1 > env.config.closure.maxRetries {
        assert Checked(env, Submit(env, s, call).state, c, r);
      } else {
        AnswerGrounds(env, s.requests, s.messages, s.toolRows, call, Rejection, s.toolRows);
      }
  }

  /** The output of a skill run is due to its call. */
  lemma OutputGrounds(env: Env, requests: seq<seq<Message>>, ms: seq<Message>, rows: seq<ToolCallRow>, call: ToolCall)
    requires Grounded(env, requests, ms, rows) && Outputs(ms) == Runs(rows) && CallAt(ms, |ms|, call)
    requires requests != [] && |requests[|requests| - 1]| <= |ms| && call.name != SUBMIT_CONCLUSION
    requires WellTried(rows, env.config.skillRetries)
    ensures var r := Attempts(env, rows, |requests|, call.name, 0);
      var ms' := ms + [Tool(call.id, Output(r[|r| - 1].success))];
      Grounded(env, requests, ms', r) && Outputs(ms') == Runs(r)
  {
    var r := Attempts(env, rows, |requests|, call.name, 0);
    AttemptsRecorded(env, rows, |requests|, call.name, 0);
    AttemptsNamed(env, rows, |requests|, call.name, 0);
    AnswerGrounds(env, requests, ms, rows, call, Output(r[|r| - 1].success), r);
  }

  lemma UseSkillSourced(env: Env, s: State, call: ToolCall)
    requires Inv(env, s) && Sourced(env, s) && UpNext(s, call) && call.name != SUBMIT_CONCLUSION
    ensures var o := UseSkill(env, s, call); Sourced(env, o.state) && (o.Stop? ==> StoppedAt(env, o))
  {
    if s.skillCalls + 1 <= env.config.maxSkillCalls { RunSourced(env, s, call); } else { SkillStops(env, s, call); }
  }

  lemma SkillRuns(env: Env, s: State, call: ToolCall)
    requires s.skillCalls + 1 <= env.config.maxSkillCalls
    ensures var o, rows := UseSkill(env, s, call), Attempts(env, s.toolRows, s.step, call.name, 0);
      && o.Go? && o.state.toolRows == rows && o.state.requests == s.requests
      && o.state.messages == s.messages + [Tool(call.id, Output(rows[|rows| - 1].success))]
  {
  }

  lemma RunSourced(env: Env, s: State, call: ToolCall)
    requires WellTried(s.toolRows, env.config.skillRetries) && |s.requests| == s.step
    requires Sourced(env, s) && UpNext(s, call) && call.name != SUBMIT_CONCLUSION
    requires s.skillCalls + 1 <= env.config.maxSkillCalls
    ensures Sourced(env, UseSkill(env, s, call).state) && UseSkill(env, s, call).Go?
  {
    OutputGrounds(env, s.requests, s.messages, s.toolRows, call);
    SkillRuns(env, s, call);
  }

  lemma SkillStops(env: Env, s: State, call: ToolCall)
    requires Sourced(env, s) && UpNext(s, call) && call.name != SUBMIT_CONCLUSION
    requires s.skillCalls + 1 > env.config.maxSkillCalls
    ensures var o := UseSkill(env, s, call); Sourced(env, o.state) && o.Stop? && StoppedAt(env, o)
  {
  }

  lemma HandleCallSourced(env: Env, s: State, call: ToolCall)
    requires Inv(env, s) && Sourced(env, s) && UpNext(s, call)
    ensures var o := HandleCall(env, s, call); Sourced(env, o.state) && (o.Stop? ==> StoppedAt(env, o))
  {
    if call.name == SUBMIT_CONCLUSION { SubmitSourced(env, s, call); } else { UseSkillSourced(env, s, call); }
  }

  /** The assistant message at a has been answered up to the end of the conversation. */
  ghost predicate Answering(ms: seq<Message>, a: nat) {
    && a < |ms| && ms[a].Assistant? && |ms| <= a + 1 + |ms[a].calls|
    && forall j :: a < j < |ms| ==> ms[j].Tool?
  }

  lemma AnsweringNext(ms: seq<Message>, a: nat, m: Message)
    requires Answering(ms, a) && |ms| <= a + |ms[a].calls| && m.Tool?
    ensures Answering(ms + [m], a) && (ms + [m])[a] == ms[a]
  {
  }

  /** The calls of the assistant message at a that are still to be answered. */
  ghost predicate ToAnswer(s: State, a: nat, calls: seq<ToolCall>) {
    && Answering(s.messages, a) && calls == s.messages[a].calls[|s.messages| - a - 1..]
    && |s.requests| > 0 && |s.requests[|s.requests| - 1]| <= |s.messages|
  }

  lemma FirstUpNext(s: State, a: nat, calls: seq<ToolCall>)
    requires ToAnswer(s, a, calls) && calls != []
    ensures UpNext(s, calls[0])
  {
    assert CallFrom(s.messages, a, |s.messages|, calls[0]);
  }

  lemma AnswerGiven(env: Env, s: State, call: ToolCall) returns (m: Message)
    requires Inv(env, s) && HandleCall(env, s, call).Go?
    ensures m.Tool? && HandleCall(env, s, call).state.messages == s.messages + [m]
  {
    HandleCallKeeps(env, s, call);
    var a :| HandleCall(env, s, call).state.messages == s.messages + [Tool(call.id, a)];
    m := Tool(call.id, a);
  }

  lemma RestToAnswer(s: State, s': State, a: nat, calls: seq<ToolCall>, m: Message)
    requires ToAnswer(s, a, calls) && calls != [] && m.Tool?
    requires s'.messages == s.messages + [m] && s'.requests == s.requests
    ensures ToAnswer(s', a, calls[1..])
  {
    AnsweringNext(s.messages, a, m);
  }

  lemma {:induction false} HandleCallsSourced(env: Env, s: State, a: nat, calls: seq<ToolCall>)
    requires Inv(env, s) && Sourced(env, s) && ToAnswer(s, a, calls)
    ensures var o := HandleCalls(env, s, calls);
      && Sourced(env, o.state) && (o.Stop? ==> StoppedAt(env, o))
      && s.messages <= o.state.messages && Answering(o.state.messages, a)
    decreases |calls|
  {
    if calls != [] {
      FirstUpNext(s, a, calls);
      HandleCallSourced(env, s, calls[0]);
      if HandleCall(env, s, calls[0]).Go? {
        HandleCallKeeps(env, s, calls[0]);
        var m := AnswerGiven(env, s, calls[0]);
        RestToAnswer(s, HandleCall(env, s, calls[0]).state, a, calls, m);
        HandleCallsSourced(env, HandleCall(env, s, calls[0]).state, a, calls[1..]);
      } else {
        StopsWithout(env, s, calls[0]);
      }
    }
  }

  /** A call that ends the loop gets no answer. */
  lemma StopsWithout(env: Env, s: State, call: ToolCall)
    requires HandleCall(env, s, call).Stop?
    ensures HandleCall(env, s, call).state.messages == s.messages
  {
  }

  lemma CallsSourced(env: Env, s: State, before: seq<Message>, content: string, calls: seq<ToolCall>)
    requires Inv(env, s) && Sourced(env, s) && calls != [] && s.messages == before
    requires s.requests != [] && s.requests[|s.requests| - 1] == before
    ensures var o := HandleCalls(env, Post(s, Assistant(content, calls)), calls);
      && Sourced(env, o.state) && (o.Stop? ==> StoppedAt(env, o))
      && Follows(Reply(content, calls), before, o.state.messages)
  {
    var m := Assistant(content, calls);
    var posted := Post(s, m);
    PostKeeps(env, s, m);
    PostPlain(env, s, m);
    assert posted.messages[|before|] == m;
    HandleCallsSourced(env, posted, |before|, calls);
  }

  lemma PostPlain(env: Env, s: State, m: Message)
    requires Sourced(env, s) && !m.Tool?
    ensures Sourced(env, Post(s, m))
  {
    OutputsSnoc(s.messages, m);
    GroundedSnoc(env, s.requests, s.messages, s.toolRows, m, s.toolRows);
  }

  /** A new request comes after every answer so far. */
  lemma AskGrounds(env: Env, requests: seq<seq<Message>>, ms: seq<Message>, rows: seq<ToolCallRow>)
    requires Grounded(env, requests, ms, rows)
    ensures Grounded(env, requests + [ms], ms, rows)
  {
    forall i | 0 <= i < |ms| ensures GroundedAt(env, requests + [ms], ms, rows, i) {
      assert GroundedAt(env, requests, ms, rows, i);
      if ms[i].Tool? {
        var call, n :| 0 <= n <= |rows| && DueWith(env, requests, ms, rows, i, call, n);
        assert DueWith(env, requests + [ms], ms, rows, i, call, n);
      }
    }
  }

  lemma AskSourced(env: Env, s: State)
    requires Sourced(env, s) && ToldLast(env, s.requests, s.messages)
    ensures Sourced(env, s.(step := s.step + 1, requests := s.requests + [s.messages]))
  {
    AskGrounds(env, s.requests, s.messages, s.toolRows);
  }

  lemma TextSourced(env: Env, s: State, before: seq<Message>, content: string)
    requires Sourced(env, s) && s.messages == before && content != ""
    ensures var s' := Post(Post(s, Assistant(content, [])), Reminder);
      Sourced(env, s') && Follows(Reply(content, []), before, s'.messages)
  {
    PostPlain(env, s, Assistant(content, []));
    PostPlain(env, Post(s, Assistant(content, [])), Reminder);
    assert before + [Assistant(content, [])] + [Reminder] == before + [Assistant(content, []), Reminder];
  }

  lemma StepSourced(env: Env, s: State)
    requires Inv(env, s) && Protocol(s.messages) && s.step < env.config.maxSteps
    requires Sourced(env, s) && ToldLast(env, s.requests, s.messages)
    ensures var o := Step(env, s);
      if o.Stop? then Explained(env, o) else Sourced(env, o.state) && ToldLast(env, o.state.requests, o.state.messages)
  {
    var s' := s.(step := s.step + 1, requests := s.requests + [s.messages]);
    AskKeeps(env, s);
    AskSourced(env, s);
    match env.llm(|s.requests|)
    case Raised =>
    case Reply(content, calls) =>
      if calls != [] {
        CallsSourced(env, s', s.messages, content, calls);
      } else if content != "" {
        TextSourced(env, s', s.messages, content);
      }
  }

  lemma {:induction false} RunFromExplained(env: Env, s: State)
    requires Inv(env, s) && Protocol(s.messages)
    requires Sourced(env, s) && ToldLast(env, s.requests, s.messages)
    ensures Explained(env, RunFrom(env, s))
    decreases env.config.maxSteps - s.step
  {
    if s.step < env.config.maxSteps {
      StepKeeps(env, s);
      StepSourced(env, s);
      var o := Step(env, s);
      if o.Go? { RunFromExplained(env, o.state); }
    }
  }

  /** Between any two actions of the loop: a call ends it with an accepted conclusion exactly when it
      submits that conclusion and the conclusion passes the gate on the attempts stored by then. */
  lemma AcceptedIff(env: Env, s: State, call: ToolCall, c: Conclusion)
    requires Inv(env, s)
    ensures var o := HandleCall(env, s, call);
      (o.Stop? && o.exit.Accepted? && o.conclusion == c) <==>
        && call.name == SUBMIT_CONCLUSION && ParseConclusion(call.args) == Some(c)
        && Evaluate(c, Names(s.toolRows), env.template, env.config.closure).passed
  {
  }

  /** For any model and any skills, the loop keeps the conversation protocol and all its budgets, and
      ends either with an accepted conclusion or with the degraded one; every message of the conversation
      is due to a reply of the model, and every answer in it to its call and the attempts stored by then. */
  lemma RunFinishes(env: Env)
    ensures Finished(env, Run(env)) && Explained(env, Run(env))
  {
    StartsInv(env);
    RunFromFinishes(env, Initial);
    RunFromExplained(env, Initial);
  }

  lemma StartsInv(env: Env)
    ensures Inv(env, Initial) && Sourced(env, Initial)
  {
    assert Rejections(Initial.messages[..1]) == 0 && Outputs(Initial.messages[..1]) == 0;
    assert Names([]) == {};
  }

  /** The stored number of skill calls is the number of skills run exactly when none was run, or the loop
      did not end by a failing model or an exhausted skill budget. */
  lemma SkillCountStoredIff(env: Env)
    ensures var o := Run(env);
      (o.state.recorded == Runs(o.state.toolRows)) <==> Stores(o.exit) || Runs(o.state.toolRows) == 0
  {
    RunFinishes(env);
  }

  // ---- the loop as the program runs it ------------------------------------------

  /** One run of the loop. The first four fields are its local variables, the next five the stored
      investigation, and `requests` is what the model has been sent. */
  class Loop {
    const env: Env
    var messages: seq<Message>
    var sequence: nat
    var skillCalls: nat
    var called: set<string>
    var rows: seq<MessageRow>
    var toolRows: seq<ToolCallRow>
    var step: nat
    var retries: nat
    var recorded: nat
    var requests: seq<seq<Message>>

    function Now(): State
      reads this
    {
      State(messages, rows, sequence, toolRows, requests, step, skillCalls, called, retries, recorded)
    }

    constructor (env: Env)
      ensures this.env == env && Now() == State([], [], 0, [], [], 0, 0, {}, 0, 0)
    {
      this.env := env;
      messages, rows, sequence, toolRows, requests := [], [], 0, [], [];
      step, skillCalls, called, retries, recorded := 0, 0, {}, 0, 0;
    }

    method SaveMessage(role: Role, content: Content, callId: Option<string>)
      modifies this`rows, this`sequence
      ensures rows == old(rows) + [MessageRow(role, content, callId, old(sequence))] && sequence == old(sequence) + 1
    {
      rows := rows + [MessageRow(role, content, callId, sequence)];
      sequence := sequence + 1;
    }

    /** Every message is appended to the conversation and stored right away. */
    method Say(m: Message)
      modifies this`messages, this`rows, this`sequence
      ensures Now() == Post(old(Now()), m)
    {
      messages := messages + [m];
      SaveMessage(RoleOf(m), ContentOf(m), CallIdOf(m));
    }

    method Chat() returns (reply: Reply)
      modifies this`requests
      ensures reply == env.llm(|old(requests)|) && requests == old(requests) + [messages]
    {
      reply := env.llm(|requests|);
      requests := requests + [messages];
    }

    /** Runs one skill until it succeeds or the retries are used up, one row per attempt. */
    method ExecuteSkillWithRetry(name: string) returns (success: bool)
      modifies this`toolRows
      ensures toolRows == Attempts(env, old(toolRows), step, name, 0)
      ensures success == toolRows[|toolRows| - 1].success
    {
      success := false;
      var attempt := 0;
      ghost var all := Attempts(env, toolRows, step, name, 0);
      while attempt <= env.config.skillRetries
        invariant if attempt <= env.config.skillRetries
                  then Attempts(env, toolRows, step, name, attempt) == all
                  else toolRows == all && !success && !all[|all| - 1].success
      {
        success := env.skill(|toolRows|);
        toolRows := toolRows + [ToolCallRow(step, name, success, attempt)];
        if success { return; }
        attempt := attempt + 1;
      }
    }

    method SubmitConclusion(call: ToolCall) returns (o: Outcome)
      modifies this
      ensures o == Submit(env, old(Now()), call) && Now() == o.state
    {
      var parsed := ParseConclusion(call.args);
      if parsed.None? {
        Say(Tool(call.id, Invalid));
      } else {
        var verdict := Evaluate(parsed.value, called, env.template, env.config.closure);
        if verdict.passed {
          recorded := skillCalls;
          return Stop(Now(), Accepted, Completed, parsed.value, Some(verdict));
        }
        retries := retries + 1;
        if retries > env.config.closure.maxRetries {
          recorded := skillCalls;
          return Stop(Now(), RetriesSpent, NeedsHuman, Degraded, Some(verdict));
        }
        Say(Tool(call.id, Rejection));
      }
      o := Go(Now());
    }

    method CallSkill(call: ToolCall) returns (o: Outcome)
      modifies this
      ensures o == UseSkill(env, old(Now()), call) && Now() == o.state
    {
      skillCalls := skillCalls + 1;
      called := called + {call.name};
      if skillCalls > env.config.maxSkillCalls {
        return Stop(Now(), SkillsSpent, NeedsHuman, Degraded, None);
      }
      var success := ExecuteSkillWithRetry(call.name);
      Say(Tool(call.id, Output(success)));
      o := Go(Now());
    }

    method AnswerCalls(calls: seq<ToolCall>) returns (o: Outcome)
      modifies this
      ensures o == HandleCalls(env, old(Now()), calls) && Now() == o.state
    {
      var i := 0;
      while i < |calls|
        invariant 0 <= i <= |calls|
        invariant HandleCalls(env, Now(), calls[i..]) == HandleCalls(env, old(Now()), calls)
      {
        var call := calls[i];
        assert calls[i..][0] == call && calls[i..][1..] == calls[i + 1..];
        if call.name == SUBMIT_CONCLUSION {
          o := SubmitConclusion(call);
        } else {
          o := CallSkill(call);
        }
        if o.Stop? { return; }
        i := i + 1;
      }
      o := Go(Now());
    }

    method TakeStep() returns (o: Outcome)
      modifies this
      ensures o == Step(env, old(Now())) && Now() == o.state
    {
      step := step + 1;
      var reply := Chat();
      if reply.Raised? {
        return Stop(Now(), ModelFailed, DegradedRun, Degraded, None);
      }
      if reply.calls != [] {
        Say(Assistant(reply.content, reply.calls));
        o := AnswerCalls(reply.calls);
        return;
      }
      if reply.content != "" {
        Say(Assistant(reply.content, []));
        Say(Reminder);
      }
      o := Go(Now());
    }

    method RunAll() returns (o: Outcome)
      requires Now() == State([], [], 0, [], [], 0, 0, {}, 0, 0)
      modifies this
      ensures o == RunFrom(env, Initial) && Now() == o.state
    {
      messages := [System, User];
      SaveMessage(SystemRole, TextOf(System), None);
      SaveMessage(UserRole, TextOf(User), None);
      assert Now() == Initial;
      while step < env.config.maxSteps
        invariant RunFrom(env, Now()) == RunFrom(env, Initial)
        decreases env.config.maxSteps - step
      {
        o := TakeStep();
        if o.Stop? { return; }
      }
      recorded := skillCalls;
      o := Stop(Now(), StepsSpent, NeedsHuman, Degraded, None);
    }
  }
}
