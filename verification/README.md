# A verified model of the alert triage pipeline

The repository turns SIEM alerts into settled cases: alerts are ingested, triaged, aggregated into
events, investigated by an LLM agent, put to a human where the agent cannot decide, and settled into
judgment cases. This project models the stateful core of that pipeline in Dafny and proves what it keeps
over every run, for any language model, any skill failures and any interleaving of the modelled steps.

Where the program changes state, the model does too: services are classes whose methods write to a
session with commit and rollback, and each method is proved equal to a function on the tables. Theorems
about whole runs are proved on those functions.

| file | models |
|---|---|
| `Wrappers.dfy`, `Text.dfy` | options, the database session, string helpers |
| `EntityGraph.dfy` | the bounded breadth-first walk over entity relations, against walks of bounded length |
| `Closure.dfy`, `AgentLoop.dfy` | conclusions, the evidence gate, the ReAct loop |
| `Cases.dfy`, `CaseInvariants.dfy`, `CaseRuns.dfy`, `CaseHistory.dfy`, `CaseOutcomes.dfy`, `CaseServices.dfy` | orchestrator, daily budget, human review, settlement and dispositions over shared tables |
| `EventKey.dfy`, `Scoring.dfy`, `Alerts.dfy`, `AlertInvariants.dfy`, `AlertRuns.dfy`, `AlertOutcomes.dfy`, `ModelCalls.dfy`, `AlertServices.dfy` | triage and aggregation over the alert tables, and the requests a triage batch sends to the model |
| `Pipeline.dfy` | both sides over the event table they share |
| `LeaseLock.dfy` | the Redis lease lock, with any number of workers |
| `Ingestion.dfy` | pulls, idempotent insertion and cursors |
| `RuleNoise.dfy` | the rule-noise roll-up and ranking |
| `ReviewTag.dfy` | the tag that ties a reply to its request |

## What the proofs bring to light

Where the code departs from its documentation or from what a name suggests, the model follows the code.

- A reply sets its event back to pending and marks it as exempt from the daily budget, but it also
  completes the investigation, and an event with a completed investigation is never picked. So the
  announced re-investigation never takes place through the batch (`CaseHistory.AnsweredIsNeverPickedAgain`)
  and no skip marker is ever consumed (`CaseRuns.PickIsCounted`). What is more, the event now stays pending, so
  that no event is created for its key any more: later alerts of the key are merged into it, or into a newer event
  of the key that existed by then, and the batch never gets to see them there (`Pipeline.AnsweredSwallows`).
- The sweep for obsolete review requests, and the cancellation at the end of an investigation, never find
  anything to cancel in a reachable state (`CaseInvariants.SweepFindsNothing`, `NoneObsoleteFor`).
- The node cap of the graph walk counts repeated queue entries, so a neighbourhood that fits the cap can be
  truncated. The walk is exact when no neighbour is refused (`EntityGraph.UnrefusedIsExact`), and none is while
  the active relations that touch entities within one hop less than the limit are fewer than the cap
  (`EntityGraph.FewRelationsAreExact`). As a bound on the number of those relations this is tight, even where the
  neighbourhood is known to fit the cap (`EntityGraph.ExactIffBelowCap`): with as many as the cap a neighbour can
  be hidden (`EntityGraph.QueuedDuplicatesHideANeighbour`).
- The one-hop summary compares keys without types, so it names the wrong end exactly when a relation
  comes from an entity of another type with the same key (`EntityGraph.SummaryEndExact`).
- A truncated review message loses its tag, unless the limit lies between 4 and 19, where the slice bound is
  negative (`ReviewTag.TagSurvivesIff`); the limit itself is kept exactly when the body fits or the limit is
  at least 20 (`ReviewTag.LimitKeptIff`).
- The duplicate window is documented as sliding but is never extended: it tumbles (`AlertRuns.DuplicatesWindowed`).
- Mutual exclusion is guaranteed exactly when a bound within the lease is known for every hold up to its release
  (`LeaseLock.SafeIffHoldsFitTheLease`). It is not enough that critical sections end in time: a release that reads
  its token in time but deletes too late breaks mutual exclusion (`LeaseLock.LateDeleteBreaksMutex`).
- The hashed key payload joins names with `|`: it identifies its dimensions exactly when none of the names holds
  that character (`EventKey.IdentifiedIffPlain`), and is shared by alerts of other dimensions exactly when the
  joined names could be cut at another separator without a blank beside it (`EventKey.SharedIffRecuttable`). Then
  alerts of different hosts and users can share an event (`AlertRuns.CollidingAlertsShareEvent`); its window is
  right in any case (`AlertRuns.EventsAddUp`).
- An open review request has no response yet, so the check for duplicate responses never finds one
  (`CaseInvariants.NoReplyIsDuplicate`).
- A request to the model that fails during triage is not counted towards the per-run limit
  (`ModelCalls.SentIsAnsweredPlusFailed`), so a batch can send more requests than its limit
  (`ModelCalls.TwoRequestsUnderALimitOfOne`). The limit bounds the requests exactly when the batch is no larger than
  the limit, the limit leaves no room at all, or the model is never asked (`ModelCalls.LimitHoldsIff`); the shipped
  limit is 20 and the shipped batch size 500. What it always bounds is the answered calls
  (`ModelCalls.ModelCallsBounded`).
- The number of skill calls is stored on three of the five exits of the loop; it stays 0 after a model error and
  after an exhausted skill budget (`AgentLoop.SkillCountStoredIff`).
- For window widths other than 24 hours the code refers to a time-zone constant that its file does not import
  (`app/aggregation/key.py:32-33`); the model has the intended fixed-width buckets.

## Model

| member | source | states |
|---|---|---|
| `EntityGraph.NodeIdInjective` | app/entity/graph.py:24-25 | node identifiers separate entities, whatever characters a key holds |
| `EntityGraph.AdjacentSymmetric` | app/entity/graph.py:102-133 | relations are walked in both directions |
| `EntityGraph.OpenLevel` | app/entity/graph.py:76-146 | once only the next depth is queued, everything at the current depth has been recorded |
| `EntityGraph.DropDuplicate` | app/entity/graph.py:77-80 | skipping an entry that was already visited loses nothing |
| `EntityGraph.RecordHead` | app/entity/graph.py:81-146 | recording a node and queueing its unseen neighbours keeps the walk exact |
| `EntityGraph.QueueDrained` | app/entity/graph.py:76-153 | when the queue runs empty without a refusal, exactly the ball of the hop limit has been recorded |
| `EntityGraph.OfferPaid` | app/entity/graph.py:71-146 | offering the neighbours of a node keeps nodes plus queue within the cap and within one more than the near relations charged so far; a refusal means that the near relations reach the cap |
| `EntityGraph.OfferQueues` | app/entity/graph.py:144-146 | without a refusal every neighbour of the popped node has been recorded or queued |
| `EntityGraph.ReportExact` | app/entity/graph.py:113-143 | the reported edges are exactly the active relations at the node |
| `EntityGraph.ReportOrdered` | app/entity/graph.py:113-143 | every relation of a popped node is reported once, with its ends, kind and confidence, in table order |
| `EntityGraph.GoodPop` | app/entity/graph.py:81-146 | popping a new node keeps the invariant of the walk: the cap, reachability, the edges, and exactness while nothing has been refused |
| `EntityGraph.WalkIsSound` | app/entity/graph.py:71-153 | every node once, the seed first, at most the cap, each at a depth at which it is reachable and within the hop limit; edges are exactly the active relations of expanded nodes |
| `EntityGraph.UnrefusedIsExact` | app/entity/graph.py:71-153 | when no enqueue is refused, the nodes are exactly the ball of the hop limit, pop depths are the distances from the seed, and nodes come in order of distance |
| `EntityGraph.RefusalNeedsRelations` | app/entity/graph.py:144-146 | an enqueue is refused only when at least as many active relations as the cap touch entities within one hop less than the limit |
| `EntityGraph.FewRelationsAreExact` | app/entity/graph.py:71-153 | so a cap above the number of those relations makes the walk exact |
| `EntityGraph.Follow` | app/entity/graph.py:113-146 | one relation of the popped node: its edge, and its unseen far end if nodes and queue leave room |
| `EntityGraph.Expand` | app/entity/graph.py:102-146 | the loop over the relations of a popped node offers its neighbours and reports its edges as specified |
| `EntityGraph.Traverse` | app/entity/graph.py:71-153 | the loop computes the nodes and edges of the specified walk, of which the rows above speak |
| `EntityGraph.TraverseEntityGraph` | app/entity/graph.py:54-153 | the walk from the entity whose type the kind names, in any letter case, and whose key is the stripped one; nothing if and only if the key is blank or the kind names no type, provided the cap leaves room for a node |
| `EntityGraph.SeedIsNamed` | app/entity/graph.py:64-69 | a request has a seed exactly when its key is not blank and its kind is one of the four names, and the seed is of that type |
| `EntityGraph.OneHopEdges` | app/entity/graph.py:102-146 | a walk of one hop reports exactly the active relations of its seed |
| `EntityGraph.OneHopNeighbors` | app/entity/graph.py:156-179 | for a stripped key: summaries of relations in force at the entity itself, at most `limit`, all of them while the limit is not reached, each with kind, confidence and far end (but for equal keys, see `SummaryEndExact`); nothing for a blank key |
| `EntityGraph.SummaryEndExact` | app/entity/graph.py:171-179 | the summary names the far end if and only if the relation does not come from a namesake of another type |
| `EntityGraph.ParallelNear` | app/entity/graph.py:110-118 | parallel relations to one neighbour and one relation to another are all near their source |
| `EntityGraph.ParallelAround` | app/entity/graph.py:110-146 | the ball of one hop around that source has three entities |
| `EntityGraph.ExactIffBelowCap` | app/entity/graph.py:71-153 | for every cap of at least 3, all walks with at most n near relations report exactly the ball if and only if n is below the cap; the same among walks whose ball fits the cap |
| `EntityGraph.QueuedDuplicatesHideANeighbour` | app/entity/graph.py:144-146 | for every cap of at least 3, with as many near relations as the cap, the walk refuses one of the three entities and does not report it |
| `Closure.ParseConclusion` | app/agent/conclusion.py:12-53 | a payload is accepted if and only if every field has its form, the confidence lies in [0, 1] and a question accompanies insufficient information; the accepted fields are the submitted ones |
| `Closure.ScoresInUnitInterval` | app/agent/closure_evaluator.py:49-92 | both scores lie in [0, 1] |
| `Closure.ScoreMonotone` | app/agent/closure_evaluator.py:63-85 | more called skills never lower the closure score |
| `Closure.MoreEvidenceNeverRejects` | app/agent/closure_evaluator.py:49-136 | more called skills never turn an accepted conclusion into a rejected one |
| `Closure.ExhaustedIsDecidedByThresholds` | app/agent/closure_evaluator.py:63-136 | with every skill that the template names called, a conclusion passes if and only if the share of hints that name a skill meets the thresholds |
| `Closure.ScoreInTenths` | app/agent/closure_evaluator.py:69-91 | the score is four tenths of the share of required skills called and three tenths each of the shares of supporting and refuting hints tried, empty lists counting as covered |
| `Closure.AcceptedExactly` | app/agent/closure_evaluator.py:50-136 | with the gate on a settling verdict passes if and only if every required skill was called, the score reaches its minimum and, for an attack with refuting hints, enough of them were tried; every other verdict passes |
| `Closure.AcceptedMeansEvidence` | app/agent/closure_evaluator.py:68-128 | an accepted settling verdict had all required skills called, and a confirmed attack met both refutation minimums |
| `Closure.RequiredSkillsAloneAreRejected` | app/agent/closure_evaluator.py:12-19 | under the default thresholds required skills without any hint tried are not enough |
| `AgentLoop.AttemptsRecorded` | app/agent/loop.py:246-283 | one skill run adds consecutive attempt rows from zero, for one skill, counted as one run |
| `AgentLoop.AttemptsRetried` | app/agent/loop.py:259-283 | every failed attempt with retries left is followed by the next one |
| `AgentLoop.HandleCallsKeep` | app/agent/loop.py:108-215 | each tool call gets exactly one tool message, in order, with its id; budgets and mirror are kept |
| `AgentLoop.AcceptedIff` | app/agent/loop.py:108-169 | between any two actions of the loop a call ends it with an accepted conclusion if and only if it submits that conclusion and the conclusion passes the gate on the attempts stored by then |
| `AgentLoop.HandleCallsSourced` | app/agent/loop.py:108-215 | handling the calls of a message keeps every answer due, or stops at a call that stays without an answer |
| `AgentLoop.StepKeeps` | app/agent/loop.py:65-240 | every step keeps the protocol and the budgets, or returns with what is promised of a result |
| `AgentLoop.RunFinishes` | app/agent/loop.py:44-244 | for any model and any skills: every request is a well-formed conversation, rows mirror messages with sequence 0..n-1, at most max_steps requests, max_skill_calls skill runs, max_retries+1 attempts each and max_closure_retries rejections; each of the five exits has its status and conclusion and is taken only when its budget is spent, the model failed, or the gate accepts the conclusion on the stored attempts; a closure result is always that of the submission the loop stopped at, on the stored attempts; the stored skill-call number is that of the skills run on three of them, and 0 on the others; every request is the one before it and what the model's reply adds to it, and every answer is due: Invalid to a submission that does not parse, Rejection to one that fails the gate on the attempts stored by then, an output to a skill call, whose last attempt it tells |
| `AgentLoop.SkillCountStoredIff` | app/agent/loop.py:142-244 | the stored number of skill calls is the number of skills run if and only if none was run, or the exit is neither a failing model nor an exhausted skill budget |
| `AgentLoop.Loop.SaveMessage` | app/agent/loop.py:285-302 | adds one row with role, content, call id and the next sequence number |
| `AgentLoop.Loop.Say` | app/agent/loop.py:98-106 | appends a message and its row; a reminder is stored as its shorter note |
| `AgentLoop.Loop.ExecuteSkillWithRetry` | app/agent/loop.py:246-283 | the attempt loop is the specified sequence of attempts, and reports the last one |
| `AgentLoop.Loop.SubmitConclusion` | app/agent/loop.py:109-184 | a submitted conclusion is accepted, answered back or given up as specified |
| `AgentLoop.Loop.CallSkill` | app/agent/loop.py:186-214 | a skill call is counted before the budget check, run, and answered |
| `AgentLoop.Loop.AnswerCalls` | app/agent/loop.py:108-215 | the calls of one reply are handled in order until one ends the loop |
| `AgentLoop.Loop.TakeStep` | app/agent/loop.py:65-240 | one iteration of the loop is the specified step |
| `AgentLoop.Loop.RunAll` | app/agent/loop.py:51-244 | the whole loop is the specified run |
| `Cases.LatestInv` | app/human_review/stale.py:25-32 | the newest investigation of an event |
| `Cases.LatestCompleted` | app/defense_assets/pipeline.py:150-161 | the completed investigation of an event that finished last, missing times first, the newest of several |
| `Cases.FindByCode` | app/human_review/service.py:368-380 | the open request with the short code that was sent last |
| `CaseInvariants.InvestigateOutcome` | app/agent/orchestrator.py:234-282 | the event is concluded if and only if its investigation completed, and waits for a human if and only if its conclusion asks for one |
| `CaseOutcomes.InvestigationExact` | app/agent/orchestrator.py:234-284 | the event is concluded if and only if the loop accepted a settling verdict and no supervisor blocked it, and waits for a human otherwise; the row holds conclusion, finishing time and evidence; a recommended action leaves exactly one suggestion, and a run that was given up recommends one |
| `CaseOutcomes.PickableIff` | app/agent/orchestrator.py:188-203 | in a reachable state the batch may pick exactly the ordinary pending events without an investigation |
| `CaseOutcomes.ProcessExact` | app/agent/orchestrator.py:69-93 | a pick writes its investigation exactly when neither it nor the commit raises; unless the investigation raised, an ordinary event consumes its marker or else is counted on its day |
| `CaseOutcomes.CancelObsoleteExact` | app/human_review/stale.py:35-58 | after an investigation no request of its event stays open but one to it, when the event waits; nothing else changes |
| `CaseInvariants.NoneObsoleteFor` | app/human_review/stale.py:35-58 | a new investigation finds no open request of its event to cancel |
| `CaseInvariants.InvestigateKeeps` | app/agent/orchestrator.py:205-282 | an investigation keeps the invariant of the tables |
| `CaseInvariants.PickableIsFresh` | app/agent/orchestrator.py:188-203 | an ordinary event that can be picked has never been investigated |
| `CaseInvariants.SweepFindsNothing` | app/human_review/stale.py:61-79 | the global sweep changes nothing |
| `CaseInvariants.TidyKeeps` | app/human_review/service.py:84-85 | expiring and sweeping keep the invariant and only expire |
| `CaseOutcomes.ReviewExact` | app/human_review/service.py:78-122 | after a batch an open request has expired if and only if it was sent before the cutoff, every other is unchanged, and each message that got through has one new open request, sent now |
| `CaseOutcomes.NoneOverdue` | app/human_review/service.py:354-366 | so no request that is open after a batch was sent before its cutoff |
| `CaseOutcomes.DispatchableIff` | app/human_review/service.py:249-311 | in a reachable state an event may be asked about if and only if it is ordinary and waits, has no open request, and at most max_resend requests |
| `CaseOutcomes.SweepExact` | app/human_review/stale.py:61-79 | in any state the sweep cancels exactly the open requests of events that do not wait, and those not to the newest investigation of their event |
| `CaseOutcomes.ReplyExact` | app/human_review/service.py:159-191 | a reply stores its text, answers its request, completes its investigation, puts the event back if asked to, and changes nothing else |
| `CaseOutcomes.NamedRequestAnswered` | app/human_review/service.py:128-191 | a message that names a request is stored as a reply to it with its whole text if and only if the request is open; the marker is set even when the commit fails |
| `CaseOutcomes.RepeatedResponseIgnored` | app/human_review/service.py:159-163 | in any state a message from a channel that repeats a stored response changes nothing |
| `CaseInvariants.DispatchAllKeeps` | app/human_review/service.py:98-104 | sending to the picked candidates keeps at most one open request per event and the resend limit |
| `CaseInvariants.NoReplyIsDuplicate` | app/human_review/service.py:382-397 | an open request has no response, so no reply is ever ignored as a duplicate |
| `CaseInvariants.ReplyKeeps` | app/human_review/service.py:165-188 | a reply keeps the invariant |
| `CaseInvariants.CancelKeeps` | app/human_review/service.py:193-199 | cancelling a request keeps the invariant |
| `CaseInvariants.ScanKeeps` | app/defense_assets/pipeline.py:116-145 | scanning distinct concluded events keeps the invariant, and yields distinct targets without a case |
| `CaseInvariants.ScanClosesWhatMayClose` | app/defense_assets/pipeline.py:131-144 | a scan closes exactly the picked events that it comes to before it has its targets, that have their case, and that the configuration and their dispositions allow to close; it changes nothing else |
| `CaseInvariants.SettleOneKeeps` | app/defense_assets/pipeline.py:168-218 | settling a target keeps one case per investigation, also when it fails half-way |
| `CaseInvariants.SettleAllKeeps` | app/defense_assets/pipeline.py:67-73 | a batch over distinct targets never builds a second case for an investigation |
| `CaseInvariants.DecideKeeps` | app/defense_assets/disposition/service.py:18-40 | deciding a disposition keeps the invariant |
| `CaseInvariants.MergeProbeKeeps` | app/eval/probe/guard.py:26-47 | a probe alert joining a pending event keeps the invariant |
| `CaseRuns.Remaining` | app/agent/budget.py:30-31 | the remainder completes the count to the budget, and is 0 if and only if the count has reached it |
| `CaseRuns.PickIsCounted` | app/agent/orchestrator.py:73-80 | every picked event is charged once to the day of its processing unless its investigation raised, also when its commit fails; markers are left alone |
| `CaseRuns.ProcessAllKeeps` | app/agent/orchestrator.py:71-84 | a batch keeps the invariant and the budget, and each day's counter grows by the events charged to it |
| `CaseRuns.ApplyKeeps` | app/human_review/service.py:75-199 | every service call, committed or rolled back, keeps the tables' invariant and the budget keys |
| `CaseRuns.RunKeeps` | app/agent/orchestrator.py:61-105 | so does every sequence of service calls |
| `CaseRuns.ReviewSafety` | app/human_review/service.py:249-366 | in every reachable state an event has at most one open request, it belongs to the newest investigation of an event waiting for a human, the sweep finds nothing, and an event has at most max_resend+1 requests |
| `CaseRuns.EvidenceGate` | app/agent/orchestrator.py:234-274 | a concluded or closed ordinary event has exactly one investigation, completed, let through by a blocking supervisor, whose stored attempts cover what the template demands when closure is enabled |
| `CaseRuns.ClosedIsSettled` | app/defense_assets/pipeline.py:147-166 | in a good state the newest completed investigation of a closed event is the one its case was built from |
| `CaseRuns.SettlementSafety` | app/defense_assets/pipeline.py:116-235 | one case per investigation; a closed event has the case of its latest completed, settling investigation, and none of its dispositions is a suggestion when decisions are required |
| `CaseOutcomes.RecommendedIsDecided` | app/agent/orchestrator.py:275-282 | in every run an investigation has exactly one disposition if its conclusion recommends an action, and none otherwise; that of a closed event is confirmed or rejected when decisions are required |
| `CaseOutcomes.OnlyDecisionsDecide` | app/defense_assets/disposition/service.py:18-40 | dispositions start as suggestions, and in every step only a decision on that row changes one, to what was decided |
| `CaseOutcomes.SettleableIff` | app/defense_assets/pipeline.py:147-167 | in a reachable state an ordinary event can be settled if and only if it is concluded or closed |
| `CaseOutcomes.SettlementCloses` | app/defense_assets/pipeline.py:116-235 | a batch closes exactly the events it comes to that can be settled, that the configuration and their dispositions allow to close, and whose case was there or was built without an exception |
| `CaseOutcomes.SettlementBuilds` | app/defense_assets/pipeline.py:116-221 | and builds exactly the missing cases of those it comes to, unless an exception strikes before |
| `CaseOutcomes.UncommittedLeavesTables` | app/human_review/service.py:78-122 | a call that does not commit leaves the tables as they were |
| `CaseRuns.BudgetKept` | app/agent/budget.py:10-31 | no day's counter ever exceeds the budget, through failures, runs across midnight and expiring counters |
| `CaseRuns.PastDaysStayClosed` | app/agent/budget.py:10-27 | a day that is over is never charged again, so nothing is lost when its counter expires |
| `CaseRuns.ReplyReachesRequest` | app/human_review/service.py:148-157 | a reply that quotes the tag of an open request among tag-free text reaches that request, or one with the same short code sent no earlier, with the text around the tag |
| `CaseHistory.RunAdvances` | app/human_review/service.py:143-199 | answered, expired and cancelled requests, decided dispositions, settled investigations, closed events and cases never change again |
| `CaseHistory.ReplyParks` | app/human_review/service.py:173-186 | a reply leaves its event investigated and pending |
| `CaseHistory.AnsweredIsNeverPickedAgain` | app/agent/orchestrator.py:188-203 | after a reply the batch never picks the event again, whatever happens before and after |
| `CaseServices.Redis.IncrementDailyCount` | app/agent/budget.py:21-27 | one more on that day, nothing on others; the first count sets the expiry, so that every counter has one, two days after its day |
| `CaseServices.Backend.ExpireCounter` | app/agent/budget.py:25-26 | a counter dropped at its expiry is the expiry step of a run |
| `CaseServices.Redis.BudgetRemaining` | app/agent/budget.py:30-31 | the remainder of the day, never negative |
| `CaseServices.Redis.MarkReinvestigation` | app/human_review/reinvestigation.py:16-18 | marks the event |
| `CaseServices.Redis.ConsumeSkipBudget` | app/human_review/reinvestigation.py:21-27 | tells whether the event was marked, and removes the marker |
| `CaseServices.Redis.Charge` | app/agent/orchestrator.py:77-78 | consumes a marker, or else adds one to the day's counter |
| `CaseServices.Backend.InvestigateEvent` | app/agent/orchestrator.py:205-282 | the stepwise writes of an investigation amount to the specified one, with the agent loop inside |
| `CaseServices.Backend.FinishInvestigation` | app/agent/orchestrator.py:262-282 | status, conclusion, cancelled requests and suggestion, written over the running row |
| `CaseServices.Backend.CancelObsoleteReviews` | app/human_review/stale.py:35-58 | the loop cancels exactly the obsolete requests of the event |
| `CaseServices.Backend.ProcessPick` | app/agent/orchestrator.py:73-84 | investigate, charge, commit; a failure rolls the tables back and leaves Redis as it is |
| `CaseServices.Backend.RunInvestigations` | app/agent/orchestrator.py:71-84 | the batch processes the picks in order, and counts successes and errors |
| `CaseServices.Backend.ExpireStale` | app/human_review/service.py:354-366 | expires exactly the open requests sent before the cutoff, and counts them |
| `CaseServices.Backend.CancelAllObsolete` | app/human_review/stale.py:61-79 | cancels exactly the requests whose event or investigation has moved on, and counts them |
| `CaseServices.Backend.DispatchOne` | app/human_review/service.py:313-352 | one open request after a delivered message, nothing otherwise |
| `CaseServices.Backend.SendAll` | app/human_review/service.py:98-104 | the candidates in turn, counting the delivered ones |
| `CaseServices.Backend.RunReview` | app/human_review/service.py:78-122 | the batch as one transaction: expire, sweep, send, commit; in a reachable state its requests are exactly those of `ReviewExact` |
| `CaseServices.Backend.Answer` | app/human_review/service.py:165-186 | stores the response, answers the request, marks and reopens the event, completes the investigation |
| `CaseServices.Backend.HandleReply` | app/human_review/service.py:143-191 | finds the request by identifier or by the tag, ignores a stored response, and answers; a failed commit leaves only the marker |
| `CaseServices.Backend.CancelRequest` | app/human_review/service.py:193-199 | cancels an open request and nothing else |
| `CaseServices.Backend.DecideDisposition` | app/defense_assets/disposition/service.py:18-40 | confirms or rejects, as asked, exactly a row that is still a suggestion |
| `CaseServices.Backend.PickTarget` | app/defense_assets/pipeline.py:131-144 | closes an event that is settled and decided, or makes it a target |
| `CaseServices.Backend.PickTargets` | app/defense_assets/pipeline.py:116-145 | closes settled events and lists the targets up to the limit |
| `CaseServices.Backend.SettleTarget` | app/defense_assets/pipeline.py:168-218 | adds the case, and closes the event when the configuration and the dispositions allow |
| `CaseServices.Backend.SettleTargets` | app/defense_assets/pipeline.py:67-73 | the targets in turn, counting successes and failures |
| `CaseServices.Backend.RunSettlement` | app/defense_assets/pipeline.py:54-94 | pick, settle and one commit, which keeps what failing targets had added |
| `Scoring.Round2Monotone` | app/triage/handlers/rule_score.py:51 | rounding to hundredths, halves to even, keeps the order of scores |
| `Scoring.RuleScoreInRange` | app/triage/handlers/rule_score.py:38-51 | the score lies in [0, 100] when the category weight does |
| `Scoring.RuleScoreInPoints` | app/triage/handlers/rule_score.py:38-51 | the score in points: 8 a step of severity, 4.5 an occurrence up to 30, 8 to 20 for the asset, a tenth of the category's weight, less 0.3 for each point of hints up to the cap, never below 0 |
| `Scoring.CategoryWeighed` | app/triage/scoring/category_risk.py:24-27 | a category counts with its weight, any other as uncategorized, which counts 50 without a weight of its own |
| `Scoring.HintScoreInPoints` | app/triage/handlers/profile_hint.py:31-85 | 8 for each scanner, 5 for each jump host, 10 for each decommissioned host, 5 for each full confidence of a memory that has not expired, and 5 for a matching duty note, up to the cap |
| `Scoring.RuleScoreMonotone` | app/triage/handlers/rule_score.py:38-51 | higher severity, frequency, criticality or category weight never lowers the score; more hints never raise it |
| `Scoring.HintsLowerByAtMostCap` | app/triage/handlers/rule_score.py:45-49 | profile hints lower the rounded score by at most the discount cap, for any whole cap |
| `Scoring.QueuedWhateverElseIffSevere` | app/triage/handlers/router.py:27-75 | with the shipped thresholds, no model score and at least one occurrence, an alert is queued whatever its other signals if and only if its severity is neither 1 nor 2 |
| `Scoring.PredictionAgrees` | app/triage/handlers/llm_assist.py:20-28 | the predicted route is the chosen one, up to the audit draw on low-risk alerts |
| `Scoring.RouteRegions` | app/triage/handlers/router.py:36-75 | the region of every route: deep review if and only if the score reaches its threshold; low risk, or by the draw an audit sample, if and only if it is below both thresholds and outside the band; uncertain otherwise |
| `Scoring.OfInterestIff` | app/triage/handlers/llm_assist.py:48-55 | the model is wanted for a score if and only if it is enabled and the filter is empty or names the route the score leads to |
| `Scoring.RouteMonotoneIff` | app/triage/handlers/router.py:36-75 | a higher score never leaves the queue if and only if the uncertain band is empty or reaches the smaller of the two thresholds |
| `Scoring.BlendInRange` | app/triage/handlers/llm_assist.py:76-80 | blending keeps a score in [0, 100] |
| `Scoring.BlendMoves` | app/triage/handlers/llm_assist.py:76-80 | the blend moves the rule score by the weight towards the model's, to the nearest hundredth |
| `EventKey.WindowContains` | app/aggregation/key.py:24-33 | a window contains the times floored to it and starts at a multiple of its width; flooring is idempotent |
| `EventKey.IdentifiedIffPlain` | app/aggregation/key.py:51-52 | the payload determines host, user, category and window if and only if none of the three names holds a separator |
| `EventKey.PayloadNamesWindow` | app/aggregation/key.py:51-52 | whatever the names hold, equal payloads name the same window |
| `EventKey.PlainKeyIdentifies` | app/aggregation/key.py:36-52 | dimensions without separators share their key with no other dimensions |
| `EventKey.SharedIffRecuttable` | app/aggregation/key.py:36-52 | when the sentinels are normalized, as the shipped ones are, an alert shares its key with an alert of other dimensions if and only if its joined names hold another separator without a blank beside it, a user that is a lone separator not counted |
| `EventKey.PlainDims` | app/aggregation/key.py:46-49 | names and sentinels without separators normalize to dimensions without separators |
| `EventKey.DimsAreNormalized` | app/aggregation/key.py:46-49 | names are trimmed and lower-cased; a missing or blank host or user gets its sentinel, a missing or empty category is uncategorized |
| `EventKey.KeysCollide` | app/aggregation/key.py:36-52 | any three names make two alerts of different normalized hosts and users, in any category and window, that share a key |
| `Alerts.MergeTarget` | app/aggregation/services/aggregation_service.py:227-237 | the newest pending event whose key is the joined payload |
| `AlertInvariants.TriageConserves` | app/triage/handlers/persist.py:44-93 | triage moves one alert to its place and no other |
| `AlertInvariants.TriageKeepsSamples` | app/triage/handlers/persist.py:84-91 | an alert is sampled if and only if it is routed to audit |
| `AlertOutcomes.TriageExact` | app/triage/pipeline.py:18-38 | the stored result is a duplicate, whitelisted, or in the region of its effective score, which is a deep review if and only if the alert is neither of the first two and the score reaches the threshold; its score, times and the alert's status follow |
| `AlertOutcomes.CheckExact` | app/triage/handlers/dedup.py:28-77 | a missing or ended window opens one now; within a running one an alert is a duplicate once the window has a representative, and only then counted |
| `AlertInvariants.AggregationConserves` | app/aggregation/services/aggregation_service.py:168-214 | aggregation links one alert once |
| `AlertInvariants.WindowedSnoc` | app/triage/handlers/dedup.py:51-77 | a result that continues the current window, or opens one after it ended, keeps the window discipline |
| `AlertInvariants.TriageKeepsWindows` | app/triage/handlers/dedup.py:28-77 | triage at a non-decreasing time keeps windows apart, duplicates inside them, and groups describing them |
| `AlertInvariants.AddKeepsStats` | app/aggregation/services/aggregation_service.py:239-259 | the incremental update agrees with recomputation over the members, in any order |
| `AlertInvariants.AggregationKeepsStats` | app/aggregation/services/aggregation_service.py:168-259 | every event's statistics stay those of its alerts |
| `AlertOutcomes.AggregationExact` | app/aggregation/services/aggregation_service.py:168-259 | the alert joins the newest pending event of its key, or a new one when there is none; count, times, risk and priority (10 for a deep review, 5 otherwise) of that event take it in, and nothing else changes |
| `AlertOutcomes.CorrelationExact` | app/skills/query_history_alerts.py:142-156 | correlation raises the priority by one, up to 100, keeps the listed events and adds found ones up to twenty |
| `AlertRuns.AggregateAllKeeps` | app/aggregation/services/aggregation_service.py:62-74 | a batch over the fetched alerts, with failures, keeps all invariants |
| `AlertRuns.TriageAllKeeps` | app/triage/services/triage_service.py:45-74 | so does a triage batch |
| `ModelCalls.ModelCallsBounded` | app/triage/handlers/llm_assist.py:57-74 | the answered model calls of a batch never exceed the limit, whichever items fail |
| `ModelCalls.SentIsAnsweredPlusFailed` | app/triage/handlers/llm_assist.py:65-74 | in every batch the requests sent are the answered calls and the failed requests |
| `ModelCalls.FailedRequestsEscapeTheLimit` | app/triage/handlers/llm_assist.py:57-74 | for any alert the model would be asked about and any number of new alerts like it, a batch whose requests fail sends one for each, under any limit of at least one, and counts none |
| `ModelCalls.TwoRequestsUnderALimitOfOne` | app/triage/handlers/llm_assist.py:57-74 | with the shipped thresholds and filter, two new alerts and a limit of one lead to two requests |
| `ModelCalls.LimitHoldsIff` | app/triage/handlers/llm_assist.py:57-74 | every batch of at most n alerts, after any run, sends at most as many requests as the limit if and only if n is within the limit, the limit is not positive, or no alert is one the model is asked about; with the model enabled and no filter there is such an alert |
| `AlertRuns.RunKeeps` | app/triage/services/triage_service.py:37-99 | and every sequence of ingestion, triage, aggregation, status changes and correlation |
| `AlertRuns.AlertsConserved` | app/triage/services/triage_service.py:142-152 | an alert's status says exactly which rows exist for it: new, archived, triaged or linked; results, links and audit samples are unique per alert, and the samples are the alerts routed to audit |
| `AlertRuns.DuplicatesWindowed` | app/triage/handlers/dedup.py:28-77 | full triages of a fingerprint are more than a window apart, every suppressed alert lies in the window of one, each group has a representative, counts the alerts of its window and tells when the fingerprint was last seen |
| `AlertRuns.EventsAddUp` | app/aggregation/services/aggregation_service.py:168-259 | count, first, last, risk and priority of an event agree with its linked alerts, which have its key and lie in its window |
| `AlertRuns.PlainAlertsShareDims` | app/aggregation/services/aggregation_service.py:174-200 | an alert whose names, like the sentinels, hold no separator shares its event only with alerts of its own dimensions |
| `AlertRuns.CollidingAlertsShareEvent` | app/aggregation/services/aggregation_service.py:184-210 | with separators, alerts of different hosts and users are linked to one event |
| `AlertRuns.AggregationKeepsPendingUnique` | app/aggregation/services/aggregation_service.py:184-200 | aggregation never makes a second pending event for a key |
| `AlertServices.Context.Whitelist` | app/triage/handlers/whitelist.py:29-53 | archives a matching alert and skips the rest |
| `AlertServices.Context.ProfileHint` | app/triage/handlers/profile_hint.py:26-85 | the nested loops add up the hints and cap them |
| `AlertServices.Context.RuleScore` | app/triage/handlers/rule_score.py:34-61 | assigns the specified score |
| `AlertServices.Context.LlmAssist` | app/triage/handlers/llm_assist.py:43-81 | asks the cache or the model within filter and limit, sends a request only when the cache has no score, counts an answered call, and blends an obtained score |
| `AlertServices.Context.Score` | app/triage/pipeline.py:18-38 | the handlers between duplicate check and router assess the alert as specified |
| `AlertServices.Context.ChooseRoute` | app/triage/handlers/router.py:27-75 | keeps a route already set, otherwise assigns the one whose region the effective score is in |
| `AlertServices.Service.CheckForDuplicate` | app/triage/handlers/dedup.py:28-77 | opens, continues or hits the window of the fingerprint in place |
| `AlertServices.Service.Persist` | app/triage/handlers/persist.py:44-93 | writes the result, the status, a missing representative and an audit sample |
| `AlertServices.Service.RunPipeline` | app/triage/pipeline.py:18-38 | the handlers in their order amount to the specified triage of one alert |
| `AlertServices.Service.RunTriage` | app/triage/services/triage_service.py:45-74 | one transaction per alert; a failure leaves no trace in the tables; the client sends as many requests as specified |
| `AlertServices.Service.Aggregate` | app/aggregation/services/aggregation_service.py:168-214 | the stepwise writes link one alert as specified, and tell whether the event is new |
| `AlertServices.Service.AggregateItem` | app/aggregation/services/aggregation_service.py:63-74 | one transaction per alert, counted as created, merged or failed |
| `AlertServices.Service.RunAggregation` | app/aggregation/services/aggregation_service.py:62-74 | the batch; created events, merged alerts and errors add up |
| `AlertRuns.MergeRelatedKeeps` | app/skills/query_history_alerts.py:152-156 | merging found events keeps the list free of repetitions and of the event itself, and loses none |
| `AlertServices.Service.RaiseOnCorrelation` | app/skills/query_history_alerts.py:142-156 | when other events were found, raises the priority, up to 100, and lists the first twenty of them |
| `Pipeline.TakesInTransitive` | app/aggregation/services/aggregation_service.py:184-210 | what an event takes in over two stretches of a run it takes in over both: no event of its key is added, and its key's alerts join the events of that key from it on |
| `Pipeline.RunProjects` | app/aggregation/services/aggregation_service.py:184-237 | every run over the shared event table is a run of the alert side and a run of the case side, and both see the same events pending all along |
| `Pipeline.AnsweredSwallows` | app/human_review/service.py:173-186 | from a stored reply on, unless a probe is merged into it, the event stays pending and out of the batch's reach, no event is created for its key, and every alert of the key joins it or a newer event of the key that existed by then |
| `Pipeline.DecidedMissesNothing` | app/agent/orchestrator.py:188-203 | along any run, an event that has been investigated and is concluded or closed at the end takes no alert in between |
| `Pipeline.CasesAreComplete` | app/defense_assets/pipeline.py:116-235 | so in every run no alert of a decided ordinary event came after its investigation |
| `Pipeline.FromAlertToCase` | app/defense_assets/pipeline.py:116-235 | an alert of a closed ordinary event has the event's key, lies in its window, and belongs to an investigation that met the evidence gate and has its case |
| `LeaseLock.StepKeepsOwned` | app/agent/lock.py:19-32 | whoever is inside owns the stored lease |
| `LeaseLock.MutualExclusion` | app/agent/lock.py:18-32 | for any number of workers and any interleaving, at most one is in the critical section when each completes its release, or dies, within the lease |
| `LeaseLock.SafeIffHoldsFitTheLease` | app/agent/lock.py:18-32 | with at least two workers, all runs whose holders release or die in less than a bound keep mutual exclusion if and only if the bound is at most the lease |
| `LeaseLock.LeaseEnds` | app/agent/lock.py:22-28 | after any run, even if the holder died, an idle worker that tries once a lease length has passed gets in |
| `LeaseLock.ForeignLeaseSurvives` | app/agent/lock.py:30-32 | in any state and whatever ticks and steps of other workers come in between, a worker that left without reading its own token leaves the key as it finds it |
| `LeaseLock.OwnReleaseFrees` | app/agent/lock.py:30-32 | a worker that leaves while its lease is stored frees the key by its release, whatever ticks and steps of others come in between |
| `LeaseLock.OverrunBreaksMutex` | app/agent/lock.py:22-28 | for every lease length and any bound beyond it, some run within the bound puts two workers into the critical section |
| `LeaseLock.LateDeleteBreaksMutex` | app/agent/lock.py:30-32 | so does a deletion after the lease has run out |
| `LeaseLock.Server.SetNx` | app/agent/lock.py:22 | takes the key exactly when no live lease holds it |
| `LeaseLock.Server.TryEnter` | app/agent/lock.py:21-28 | entering is the specified step |
| `LeaseLock.Server.LeaveAndRead` | app/agent/lock.py:30-31 | leaving reads the token |
| `LeaseLock.Server.DeleteIfOwn` | app/agent/lock.py:31-32 | deletes only after reading the own token |
| `Ingestion.ApplyKeeps` | app/ingestion/services/ingest_service.py:141-232 | every batch, look-back change or probe keeps alerts distinct and the totals equal to their number |
| `Ingestion.ApplyAdds` | app/ingestion/services/ingest_service.py:152-208 | and adds exactly the identifiers it delivers |
| `Ingestion.IngestedExactlyOnce` | app/ingestion/services/ingest_service.py:74-93 | over any overlapping pulls, failed commits and cursor resets a source's alerts are exactly the delivered identifiers, each once, and its total is their number |
| `Ingestion.CursorFollows` | app/ingestion/services/ingest_service.py:210-232 | a source resumes where its last committed pull left off, or anew when its look-back has been extended since |
| `Ingestion.ProbesInjected` | app/eval/probe/inject.py:35-78 | the probe source's alerts are exactly those injected, and no step removes or moves an alert |
| `Ingestion.Service.Insert` | app/ingestion/services/ingest_service.py:197-208 | inserts the rows whose identifier is new, and counts them |
| `Ingestion.Service.RunBatch` | app/ingestion/services/ingest_service.py:141-232 | items = inserted + duplicates + mapping errors, the last being the items that cannot be mapped and the first the new rows; rows and cursor are committed together |
| `Ingestion.Service.RunForSource` | app/ingestion/services/ingest_service.py:79-85 | stops after the first pull without more, at the limit, or when a pull or commit raises, with the earlier batches committed |
| `Ingestion.Service.Extend` | app/services/ingestion_diagnostics.py:95-125 | resets the position and keeps the total, for Wazuh sources only |
| `RuleNoise.GroupingCounts` | app/console/rule_noise.py:31-75 | on distinct (rule, event) pairs every counter is the number of matching samples, and alerts add up |
| `RuleNoise.OrderIrrelevant` | app/console/rule_noise.py:31-75 | permuting the samples changes no counter |
| `RuleNoise.CountersConsistent` | app/console/rule_noise.py:59-75 | on any samples confirmed + rejected is at most the events of that verdict, and both verdicts at most all events |
| `RuleNoise.NoisiestIsTop` | app/console/rule_noise.py:77-110 | the list is descending, holds only qualifying rules, and leaves one out only when full of rules that rank at least as high |
| `RuleNoise.SuggestedFor` | app/console/rule_noise.py:113-126 | the numbers for which a rule is to be tightened or spot-checked |
| `RuleNoise.ListedIff` | app/console/rule_noise.py:77-126 | on distinct pairs a rule qualifies if and only if the plain counts over its samples reach those numbers |
| `RuleNoise.NoisiestInOrder` | app/console/rule_noise.py:102-110 | the list is sorted by confirmed false positives, then false positives, then alerts, and ties keep the order in which the rules appeared |
| `RuleNoise.BucketsNamed` | app/console/rule_noise.py:33-55 | a rule has the identifier of its first sample and the first name any of its samples gives |
| `RuleNoise.MergedPairsDistinct` | app/console/rule_noise.py:167-202 | the merge reports every (rule, event) pair once |
| `RuleNoise.MergeExact` | app/console/rule_noise.py:167-189 | a merged item holds exactly the alerts of its pair, is confirmed or rejected when some row is, and has the verdict and names of the pair's first row |
| `RuleNoise.SamplesExact` | app/console/rule_noise.py:190-203 | the merged samples are one for each pair that some row has, with the number of its distinct alerts, its decisions, and verdict and names of its first row |
| `RuleNoise.MergedCounts` | app/console/rule_noise.py:167-203 | so every listed counter is a plain count over merged pairs |
| `RuleNoise.Absorb` | app/console/rule_noise.py:53-75 | the branches update one bucket as specified |
| `RuleNoise.RollUp` | app/console/rule_noise.py:31-75 | the loop groups the samples as specified |
| `RuleNoise.AggregateRuleNoise` | app/console/rule_noise.py:25-110 | groups, selects, sorts stably and cuts as specified |
| `RuleNoise.MergeRow` | app/console/rule_noise.py:168-189 | merges one joined row |
| `RuleNoise.MergeRows` | app/console/rule_noise.py:167-189 | merges all joined rows |
| `RuleNoise.ListNoisyRules` | app/console/rule_noise.py:167-203 | ranks the merged samples; every listed row has consistent counters |
| `ReviewTag.FindFirst` | app/human_review/reply_parser.py:7-14 | the first tag decides the extracted code |
| `ReviewTag.AppendAllTagFree` | app/human_review/message_builder.py:37-53 | fixed wording between tag-free values makes no tag |
| `ReviewTag.PrefixKeepsTag` | app/human_review/message_builder.py:53-57 | a cut body keeps its tag exactly when the cut lies behind it |
| `ReviewTag.TagSurvivesIff` | app/human_review/message_builder.py:20-65 | for any request and tag-free fields the message parses back to the request's short code if and only if it fits, or the limit lies between 4 and 19 |
| `ReviewTag.LimitKeptIff` | app/human_review/message_builder.py:56-57 | the message respects its limit if and only if the body fits or the limit is at least 20; truncated under such a limit it stays 11 characters below |
| `ReviewTag.BodyQuotes` | app/human_review/message_builder.py:20-54 | an uncut message quotes every field of its request, the first 500 characters of the reasoning and the first five missing items |
| `ReviewTag.RemoveNothing` | app/human_review/reply_parser.py:20 | removing tags leaves tag-free text alone |
| `ReviewTag.RemoveOne` | app/human_review/reply_parser.py:20 | removing the only tag joins the text before and after it |
| `ReviewTag.ReplyRoundTrip` | app/human_review/reply_parser.py:10-21 | a reply with one tag anywhere parses to the code in lower case and to the stripped text around it; one that holds nothing else is kept |
| `ReviewTag.ReplyNamesRequest` | app/human_review/reply_parser.py:10-21 | a reply that quotes a request's tag, in either letter case, names its short code |
| `Text.StripIdempotent` | app/console/rule_noise.py:33-35 | stripping twice is stripping once |

## Left out

- LLM, instant-messaging, Wazuh, GeoIP and threat-intelligence calls: their answers are inputs of the model.
- SQL queries and their ordering: picked rows are inputs that satisfy the query's conditions; rows are never deleted, and a row's index stands for its key and its creation order.
- Unique constraints, atomic commits and strictly increasing start times per event are taken from the database.
- Floating point: scores and confidences are exact reals; only the rounding to hundredths is modelled. Frequency scoring takes its count as an input.
- SHA-256 and UUIDs: hashes of different payloads differ, and identifiers are distinct, though their short codes may not be.
- The ISO form of a window start is any rendering that separates times and holds no separator (`EventKey.Rendering`).
- The cache of model scores: whether it holds a score for an alert is an input.
- Audit-log rows, titles, entity snapshots, token counts, latencies, and skill outputs beyond what decides a branch.
- Clock times of Redis expiries within a day: the expiry of a skip marker or of a counter is a step of its own, a counter's no earlier than two days after its day.
- The supervisor's rules, playbook matching and the whitelist's matching operators: their verdicts are inputs.
- Whitelist, profile and rule candidates and embeddings made during settlement: they only decide whether settling a target fails.
- The health-check runner, except for its probe events and the investigation it starts on them.
- `app/eval/lock.py`: it carries no owner token and is not the same protocol.
- Calls of different services at the same time: service calls are steps of a sequence; only the lock itself is modelled with interleaved workers.
- A change of the aggregation window width during a run, and widths of zero or fewer hours.
- Letter case beyond ASCII in `Text.Lower`.
- EntityGraph.OneHopNeighbors: takes a natural number as its limit, because a negative one only re-slices the list.
- EntityGraph.Traverse: does not carry display names, owners and metadata of profiles, which no branch depends on.
- Pipeline.CasesAreComplete: takes service calls one after the other; an alert linked while an uncommitted investigation of its event is under way is not modelled.
- EventKey.SharedIffRecuttable: takes sentinels that normalizing leaves alone, as the shipped ones are; for any others `EventKey.IdentifiedIffPlain` is the condition on the payload.
- CaseRuns.EvidenceGate: speaks of ordinary events; probe events are investigated with the gate switched off.
- CaseInvariants.PickableIsFresh: speaks of what the batch picks; a probe investigation may follow an earlier one.
- Ingestion.IngestedExactlyOnce: leaves out the probe source, whose alerts do not pass through a cursor.
