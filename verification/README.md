# Verified model of the agent orchestration runtime

The runtime plans agent work as a graph of nodes, runs each node as a chain of tool actions, and drives
everything by events on a queue that may deliver an event more than once and in any order. This project
models that runtime in Dafny and proves what it keeps over whole runs. It also models the durable state
store and the tool that creates a tree of work items. `dafny verify dfyconfig.toml` checks all of it.

| module | file | what it holds |
|---|---|---|
| `Common`, `Events`, `Plans`, `Planner`, `Subtasks` | common, events, plans, planner, subtasks | run ids, events, action plans, normalization and keys, the task graph |
| `JoinProtocol`, `Confluence` | join_protocol, confluence | theorems about the task graph alone: any order of claims and settlements |
| `Runtime` | runtime | every handler as a function on the state all handlers share |
| `Orchestration`, `Quiescence`, `Progress` | orchestration, quiescence, progress | the composed system: bag of messages, plans and graph in one transition system |
| `Decisions`, `Deliveries`, `SubPlans` | decisions, deliveries, subplans | what each answer leads to, whether its plan is a sub-plan or not; which answers account for an execution and for a result; what a node's plan and result hold |
| `WorkflowRun`, `WorkflowKeys`, `WorkflowCounts`, `WorkflowExecutions`, `WorkflowWitness` | workflow_run, workflow_keys, workflow_counts, workflow_executions, workflow_witness | runs of a single plan under redelivery: shape and commits, keys, reports, executions, and the runs in which redelivery does harm |
| `SingleToken` | single_token | runs of a single plan in which every message is delivered once |
| `Inlining`, `Interference` | inlining, interference | inline chaining refines plain delivery; runs do not disturb one another |
| `Queues`, `MemoryStores`, `Handlers`, `Coordination`, `RecursionRunners` | queue, memory_store, handlers, coordinator, recursion_runner | queue, store, handlers and drain loop as classes, proved against `Runtime` |
| `DurableStores`, `DurableHistories`, `PrismApiStateStores` | durable_store, durable_histories, prism_api_state_store | the durable store as a cache over durable memory, as value and as class; keys over whole histories |
| `WorkItemValidation`, `WorkItemRollup`, `WorkItemTrees`, `WorkItemNames`, `WorkItemCreation` | work_item_validation, work_item_rollup, work_item_tree, work_item_names, work_item_creation | the work-item tree tool |

The three layers compose. The classes are proved to do what the functions of `Runtime` say, the
functions are the steps of the transition system in `Quiescence`, and its theorems therefore hold of the
classes: `RecursionRunners.RecursionRunner.Run` ends with the statement that a drained run is decided.

Validator, executor, planner, router and the backend are outside the model. Their answers are parameters:
a function from the number of the question to an answer, about which nothing is assumed but what follows.
An event is delivered in one atomic step.

## Assumptions

- Node ids are unique, differ from `root` and from the synthesizer's id; nothing has started in a new graph.
- Action ids are unique within a plan, and a replan draws ids of actions that were never executed or asked for.
- Tool names contain no `:`.
- A workspace id and a run or plan id go together as one `RunId`.
- Events have ids that are not empty, and the seed of a run can be traced to its root.
- The theorems about runs of a single plan take a run id without white space around it; `Planner.ReplanKeepsRunId`
  says why.
- Memory ids, which the source derives by hashing, are taken as distinct for distinct parts.

## What the code does where one might expect something else

- `plan_advance` alone lets a COMPLETED node become FAILED (`JoinProtocol.AdvanceAloneFlips`): it keeps all
  terminal statuses exactly if the settlement does not contradict one (`JoinProtocol.TerminalIsKeptIff`). In the
  composed system no node ever flips (`Quiescence.NeverFlips`), because a node settles only the way its
  sub-plan ended.
- A run whose id came from a correlation id with white space around it loses that id when it is replanned,
  because the replan event carries the id in its payload, where it is stripped (`Planner.PaddedIdLosesItsRun`).
  `Planner.ReplanKeepsRunId` says exactly when the id is kept.
- A replan event that is delivered again while a later plan of the run asks for a replan makes a plan under
  the prefix of an earlier one, and an action of it can be taken for a duplicate of a COMPLETED one. Then the
  run stops with an action that is never executed (`WorkflowWitness.HangingRun`). A replan event is harmless
  exactly if it is that of the action that is stale now, or no key under its prefix is recorded
  (`WorkflowKeys.ReplanGuardIsExact`).
- A finished run of a single plan is reported completed once, and once more for every later delivery of an
  event for one of its actions (`WorkflowCounts.CompletionsAreCounted`, `WorkflowWitness.ReportedTwice`).
- A redelivered action event starts a new count of attempts. An action is executed up to three times for the
  message that starts the run and up to three times for every redelivery (`WorkflowExecutions.ExecutionsAreBounded`).
- The durable store loses a key that is recorded before the process knows its plan, and reading the plan
  afterwards does not bring it back (`DurableHistories.EarlyKeyIsLost`). The answer about a key is right exactly
  if the key was never recorded, is cached, or was located both when it was recorded and when it is checked
  (`DurableHistories.KeyAnswerOverHistory`).
- The second cleaning of assignee names can change them, when a member's full name or user id is another
  member's username (`WorkItemRollup.FullNameCollides`). `WorkItemRollup.SecondCleaningIsIdle` says exactly when it cannot.

## Model

| member | source | states |
|---|---|---|
| Subtasks.TaskGraph.ClaimReady | src/domain/subtasks.py:72-82 | The loop that starts ready nodes one by one hands out exactly the PENDING nodes whose dependencies are all COMPLETED, and starts no other |
| Subtasks.TaskGraph.PlanAdvance | src/domain/subtasks.py:84-128 | The step-by-step advance, its loop included, computes the outcome that all theorems about settlements speak of |
| Subtasks.Runnable | src/domain/subtasks.py:133-139 | A node is ready if and only if it is PENDING and unblocked |
| JoinProtocol.ClaimEffect | src/domain/subtasks.py:72-82 | Position by position, what a claim does to each node and what it hands out |
| JoinProtocol.JoinEffect | src/domain/subtasks.py:107-128 | Position by position, what a completion releases, and when synthesizer, finish and block are signalled |
| JoinProtocol.SettleUnit | src/domain/subtasks.py:84-128 | A settlement changes the settled unit and the units it hands out, which were PENDING, and nothing else |
| JoinProtocol.AtMostOnceDispatch | src/domain/subtasks.py:72-128 | Over any sequence of claims and settlements, duplicate, contradictory or out of order, no node and no synthesizer is handed out twice |
| JoinProtocol.Reapply | src/domain/subtasks.py:84-96 | Settling again with the same status changes nothing and hands nothing out |
| JoinProtocol.TerminalIsKeptIff | src/domain/subtasks.py:84-128 | An advance keeps every COMPLETED and FAILED unit as it is exactly if it does not contradict the status of a settled one |
| JoinProtocol.AdvanceAloneFlips | src/domain/subtasks.py:95-98 | A concrete COMPLETED node becomes FAILED, since only the same status is recognised as a duplicate |
| JoinProtocol.RunIsSafe | src/domain/subtasks.py:84-128 | In a run whose settlements arrive for RUNNING units, a node has started if and only if all its dependencies are COMPLETED, and the synthesizer if and only if all nodes are |
| JoinProtocol.DependencySafety | src/domain/subtasks.py:72-128 | The same from the initial claim of a graph on which nobody has worked |
| Confluence.CompletedIsLeastFixedPoint | src/domain/subtasks.py:72-139 | After any maximal failure-free order of completions the COMPLETED ids are the least fixed point of "all my dependencies are COMPLETED" |
| Confluence.OrderDoesNotMatter | src/domain/subtasks.py:72-139 | Any two such orders end in the same graph |
| Confluence.CoversIffAcyclic | src/domain/subtasks.py:98-128 | Such a run completes every node if and only if dependencies exist and form no cycle |
| Confluence.FlagsAreExact | src/domain/subtasks.py:84-128 | The flags of an outcome say exactly whether the graph it leaves is finished, failed or stuck |
| Confluence.BlockedIsExact | src/domain/subtasks.py:126-128 | A run is called blocked if and only if the graph is not acyclic, and only at the last completion |
| Confluence.ExactFinish | src/domain/subtasks.py:104-124 | A run is called completed if and only if every unit has settled and none failed, hence at most once and never after a failure |
| Confluence.AcyclicFinishes | src/domain/subtasks.py:84-128 | A failure-free run over an acyclic graph ends completed, after as many completions as there are units, and is never blocked |
| Plans.NextIsFrontier | src/domain/plans.py:55-68 | In a plan of the proper shape the next action is the first one not COMPLETED, if it is PENDING |
| Plans.TurnKeepsShape | src/domain/plans.py:70-90 | Ending, retrying or completing the action on turn keeps COMPLETED\*, one other, PENDING\*, and yields the plan status that goes with it |
| Plans.SkippedDoesNotUnblock | src/domain/plans.py:50-68 | An action that depends on a SKIPPED one is never the next |
| Planner.Normalize | src/application/planner.py:141-155 | The loop that carries the previous id builds the chain keyed by position |
| Planner.NormalizedAt | src/application/planner.py:141-155 | Each action takes id and tool from its draft, is PENDING, depends exactly on the action before it if that has an id, needs approval as the policy says for its tool, and is keyed by its position |
| Planner.DecimalHasItsValue | src/application/planner.py:150-150 | The digits in a key stand for the position, counted from 1, without leading zeros |
| Planner.NormalizedIsChain | src/application/planner.py:128-165 | A normalized plan is a chain at its start, keyed by prefix, tool and position |
| Planner.KeyIsInjective | src/application/planner.py:150-150 | Equal keys have equal prefix, tool and index |
| Planner.ReplanKeepsRunId | src/application/action_event_handler.py:573-604 | A replan event resolves to the id of its run if and only if that id is trimmed, or blank and carried by a correlation id |
| Planner.PaddedIdLosesItsRun | src/domain/agent_run.py:28-46 | A concrete padded id that a replan event resolves differently |
| Planner.KeysStayFresh | src/application/planner.py:93-100 | Over any number of replans, each for an action of the generation before, the run id stays and no two planned actions of any generations share a key |
| Orchestration.VisitIsOk | src/application/action_event_handler.py:53-432 | A delivery up to the choice of the next action makes at most one turn of one plan, and sends only what fits the plan it leaves; which turn it makes is said by the rows of `Decisions` |
| Decisions.RejectIsObeyed | src/application/action_event_handler.py:218-249 | In any plan, a rejected PENDING action is FAILED and nothing else changes: its tool is not run, nothing is stored or reported, and a sub-plan settles its node as failed |
| Decisions.SuggestIsObeyed | src/application/action_event_handler.py:126-157 | A suggested action waits for approval without its tool being run; the suggestion is stored, the key recorded, each emitted event sent once in order, and then a sub-plan settles its node as waiting |
| Decisions.ReplanIsObeyed | src/application/action_event_handler.py:159-216 | A stale action is STALE without its tool being run; a sub-plan settles its node as failed, any other plan sends one replan event under its own id and a key made from the action's |
| Decisions.RaiseIsObeyed | src/application/action_event_handler.py:268-312 | A tool that raises leaves its action FAILED and no result; the exception leaves the handler exactly if the plan is no sub-plan |
| Decisions.RetryIsObeyed | src/application/action_event_handler.py:361-400 | A result to be retried, on the first two attempts, puts its action back to PENDING and asks for it again with the next attempt number |
| Decisions.FailureIsObeyed | src/application/action_event_handler.py:402-432 | Any other result that is not accepted is stored and leaves its action FAILED, and a sub-plan's node is settled as failed |
| Decisions.CommitIsObeyed | src/application/action_event_handler.py:331-359 | An accepted result is stored, its action COMPLETED and its key recorded; each event of the tool is sent once in order; a plan that is done settles its node or is reported, any other goes on to its next action |
| Decisions.NotDueIsIdle | src/application/action_event_handler.py:53-97 | A request for an action that is not PENDING, or whose key is recorded, runs no tool and changes no plan, key or result |
| Decisions.LateRequestGoesOn | src/application/action_event_handler.py:65-76 | A request for an action that is done goes on to what is next, or repeats how the plan ended, and does nothing else |
| Decisions.OtherRequestIsSilent | src/application/action_event_handler.py:65-97 | Any other request for an action that is not due does nothing at all |
| Deliveries.ChainedNeedsNoApproval | src/application/action_event_handler.py:477-495 | An action handled in the delivery of another one's request is one that needs no approval |
| Deliveries.ChainStops | src/application/action_event_handler.py:477-509 | A next action is left to a request of its own only if it needs approval or the inline budget is used up |
| Deliveries.ExecutedOnlyIfLet | src/application/action_event_handler.py:117-269 | Over any orchestrated run, an action is executed only in a delivery for its plan that gets an answer about that action which lets its tool run |
| Deliveries.ResultsAreAccepted | src/application/action_event_handler.py:313-359 | At every moment of such a run the result stored for a COMPLETED action is the output that was accepted from its tool in one of the deliveries |
| SubPlans.NodeGetsItsDrafts | src/application/subagent_coordinator.py:57-127 | The first task of a node stores a plan with exactly the proposed actions, in order, PENDING, each after the one before it and keyed by its position, and asks for the first; only without any is the node settled at once |
| SubPlans.PlannedNodeResumes | src/application/subagent_coordinator.py:129-208 | A repeated task of a node sends one message: for the action of its plan that is next, or else the outcome with which the plan ended |
| SubPlans.WorkflowGetsItsDrafts | src/application/domain_event_handler.py:64-209 | The same of the plan of a workflow without a task graph, which has failed if nothing was proposed |
| SubPlans.PlansAreProposed | src/application/subagent_coordinator.py:87-127 | Over any orchestrated run, every plan holds position by position what was proposed in one delivery of its node's task |
| SubPlans.ResultHoldsOutputs | src/application/subagent_coordinator.py:338-351 | A tool is among a node's outputs exactly if an action of its sub-plan with that tool has a stored result, and the output is that of the last such action |
| SubPlans.JoinCarriesOutputs | src/application/subagent_coordinator.py:259-277 | When the synthesizer has started, the result of every node names exactly the tools of the node's sub-plan, each with the output accepted from its last action |
| Orchestration.HandleActionKeeps | src/application/action_event_handler.py:53-509 | Delivering an action event with inline chaining keeps the invariant of the composed system |
| Orchestration.HandleTaskKeeps | src/application/subagent_coordinator.py:57-208 | So does a task event, first or redelivered |
| Orchestration.HandleSettledKeeps | src/application/subagent_coordinator.py:229-297 | So does a settlement, first or repeated |
| Quiescence.BeginIsOk | src/application/domain_event_handler.py:211-290 | The state after the trigger was handled satisfies the invariant |
| Quiescence.NextKeeps | src/application/subagent_coordinator.py:46-53 | Every delivery and every redelivery keeps the invariant; the graph changes only by settlements of RUNNING units |
| Quiescence.RunIsOk | src/application/subagent_coordinator.py:57-297 | Every reachable state satisfies the invariant: graph, plans, keys, results, reports and waiting messages agree |
| Quiescence.SettleAgreement | src/application/action_event_handler.py:434-549 | All terminal settlements ever sent for one node carry the same outcome |
| Quiescence.StatusIsFinal | src/application/subagent_coordinator.py:229-260 | A node that is COMPLETED or FAILED stays so to the end of the run |
| Quiescence.NeverFlips | src/application/subagent_coordinator.py:129-260 | No node is COMPLETED at one moment and FAILED at a later one |
| Quiescence.CommitsAtMostOnce | src/application/action_event_handler.py:331-341 | In an orchestrated run under redelivery an action's result is accepted at most once, and once if and only if the action is COMPLETED |
| Quiescence.KeysAreExact | src/application/action_event_handler.py:85-138 | At every moment of an orchestrated run a key is recorded if and only if its action is COMPLETED or REQUIRES_APPROVAL |
| Quiescence.ReportsAreConsistent | src/application/subagent_coordinator.py:262-297 | A run is reported completed at most once, and never both completed and failed |
| Quiescence.JoinIsSound | src/application/subagent_coordinator.py:259-277 | When the synthesizer has started, every node's sub-plan is COMPLETED and its result is stored; what the result holds is said by `SubPlans.JoinCarriesOutputs` |
| Quiescence.QuiescentIsDecided | src/application/subagent_coordinator.py:57-297 | When no message waits, the run is completed and reported so, failed or stuck and reported so, or waits for approval; over an acyclic graph it is not stuck without a failure |
| Progress.DeliveryLess | src/application/subagent_coordinator.py:57-297 | Every delivery lowers a measure: PENDING units, units without a plan, PENDING actions, weight of messages |
| Progress.Drain | src/application/subagent_coordinator.py:57-297 | From any reachable state delivering in any order ends, with nothing waiting and the run decided |
| Progress.EveryRunIsDecided | src/application/subagent_coordinator.py:57-297 | So every run over an acyclic graph, after any redeliveries, comes to a decision |
| Inlining.InlineIsTransparent | src/application/action_event_handler.py:477-495 | Handling successors in the same invocation reaches the store and messages that delivering each of them on its own reaches |
| WorkflowRun.VisitIs | src/application/action_event_handler.py:53-432 | A delivery to a plan without a task graph gives the action on turn its turn, or chooses the next action again, or does nothing |
| WorkflowRun.RunKept | src/application/action_event_handler.py:53-509 | Under any redelivery every state of a single-plan run is in order: plan, commits and messages agree |
| WorkflowRun.ShapeIsKept | src/domain/plans.py:55-90 | At every moment and under any redelivery the plan reads COMPLETED\*, at most one other status, PENDING\*, with the plan status that goes with it |
| WorkflowRun.SoloCommitsAtMostOnce | src/application/action_event_handler.py:331-341 | In a single-plan run under any redelivery no action's result is accepted twice, and once exactly if the action of the plan is COMPLETED |
| WorkflowKeys.SoloKeysAreExact | src/application/action_event_handler.py:85-138 | In a single-plan run under any redelivery, as long as no plan is made under a prefix with a recorded key, a key is recorded exactly if its action is COMPLETED or REQUIRES_APPROVAL |
| WorkflowKeys.DueActionIsNoDuplicate | src/application/action_event_handler.py:85-97 | In such a run the next action is never taken for a duplicate |
| WorkflowKeys.PlanningIsSafe | src/application/domain_event_handler.py:64-142 | No proposal for a trigger can lead to an action whose key is recorded exactly if no key under the trigger's prefix is |
| WorkflowKeys.CurrentRunIsSafe | src/application/action_event_handler.py:573-604 | A run in which every replan is made for the event of the action that is stale then, told by its key, is one of those |
| WorkflowKeys.ReplanGuardIsExact | src/application/action_event_handler.py:573-604 | A replan event is harmless, whatever is proposed, exactly if it is that of the stale action or no key under its prefix is recorded |
| WorkflowKeys.ReplayedReplanHangs | src/application/domain_event_handler.py:64-142 | Replayed after an action of its plan is COMPLETED, with the same tool first, a replan event leaves a next action that no delivery executes |
| WorkflowCounts.CompletionsAreCounted | src/application/action_event_handler.py:434-448 | A run is reported completed exactly once when its plan becomes COMPLETED and once more for every delivery of an event for one of its actions since, by `record_run_completed` |
| WorkflowCounts.ReportedOnceIff | src/application/action_event_handler.py:65-76 | A finished run was reported completed once exactly if no such event was delivered since |
| WorkflowExecutions.ExecutionsAreBounded | src/application/action_event_handler.py:361-375 | No action is executed more than three times for the message that starts the run and three times for every redelivery |
| WorkflowWitness.RedeliveryReportsAgain | src/application/action_event_handler.py:65-76 | Every finished run goes on to one that is reported completed once more |
| WorkflowWitness.ReportedTwice | src/application/action_event_handler.py:65-76 | A run from one trigger that is reported completed twice |
| WorkflowWitness.HangingRun | src/application/domain_event_handler.py:64-142 | A run from one trigger in which a replan event is delivered twice: nothing waits any more and the next action is never executed |
| SingleToken.ChainAndSingleToken | src/application/action_event_handler.py:361-509 | When every message is delivered once, at most one action or replan event waits and it names the next action or the stale one |
| SingleToken.OnceIsSingle | src/application/action_event_handler.py:361-509 | Such a run replans for the currently stale action only, so its keys are exact |
| SingleToken.AtMostThreeExecutions | src/application/action_event_handler.py:361-375 | When every message is delivered once, no action is executed more than three times |
| SingleToken.CompletedReportedOnce | src/application/action_event_handler.py:434-448 | When every message is delivered once, `record_run_completed` is called exactly when the plan is COMPLETED, and then once |
| Interference.DeliveryIsAlike | src/infrastructure/state/memory_state_store.py:90-94 | A delivery to a plan does and sends the same in any two stores that hold the plan and agree on its keys, and touches no other plan or key |
| Interference.OtherRunsDoNotDisturb | src/application/planner.py:93-100 | Plans and keys of other runs, under other key prefixes, make no difference to a delivery |
| Events.ChildIsTraced | src/domain/events.py:22-29 | A caused event counts one more in its depth and chain, and keeps root and parent at the ends of the chain |
| Events.FirstIdIs | src/domain/agent_run.py:28-40 | Of the ids an event may carry, the first with text counts, without the white space around it |
| Handlers.Shared.Emit | src/application/subagent_coordinator.py:210-225 | What a handler sends is caused by the event in hand, with its correlation id; every event the runtime sends can be traced to its root |
| Queues.MemoryQueue.Enqueue | src/infrastructure/queue/memory_queue.py:15-18 | A message goes to the end under an id of its own |
| Queues.MemoryQueue.Dequeue | src/infrastructure/queue/memory_queue.py:20-23 | The first message leaves, or there is none; what waits stays in the order it was enqueued |
| Queues.MemoryQueue.Ack | src/infrastructure/queue/memory_queue.py:25-26 | The id joins the acknowledged ones, and nothing else changes |
| Queues.MemoryQueue.Fail | src/infrastructure/queue/memory_queue.py:28-29 | The message and the reason join the failed ones, and nothing else changes |
| Queues.ConservedIsExclusive | src/infrastructure/queue/memory_queue.py:15-29 | A conserved message is in exactly one of queue, hands, acknowledged and failed |
| MemoryStores.MemoryStateStore.ClaimReadyNodes | src/infrastructure/state/memory_state_store.py:45-51 | The stored graph becomes the claimed one, and the claimed nodes are returned; nothing without a graph |
| MemoryStores.MemoryStateStore.AdvanceTaskGraph | src/infrastructure/state/memory_state_store.py:53-61 | The stored graph becomes the advanced one, and the outcome is returned; None without a graph |
| Handlers.ActionEventHandler.Handle | src/application/action_event_handler.py:53-432 | The handler object leaves the store, queue, budget and exception of the function the theorems are about, those of `Decisions` and `Deliveries` among them |
| Handlers.ActionEventHandler.EnqueueNextAction | src/application/action_event_handler.py:434-509 | Inline chaining by recursion with a shared budget, ended by that budget, does what the function says |
| Handlers.ActionEventHandler.Run | src/application/action_event_handler.py:251-432 | Running a tool, with its intermediate RUNNING save of which nothing is left, does what the function says |
| Handlers.ExecuteOverwrites | src/application/action_event_handler.py:251-259 | Whatever follows the call of a tool overwrites the plan that was saved before it |
| Coordination.SubAgentCoordinator.HandleTask | src/application/subagent_coordinator.py:57-127 | The coordinator's task step does what the function says, whether the sub-plan is new (`SubPlans.NodeGetsItsDrafts`), in flight or ended |
| Coordination.SubAgentCoordinator.ResumeExistingSubplan | src/application/subagent_coordinator.py:129-208 | A redelivered task sends the one message its sub-plan calls for |
| Coordination.SubAgentCoordinator.HandleCompleted | src/application/subagent_coordinator.py:229-297 | The settlement step, with its dispatch loop, does what the function says |
| Coordination.SubAgentCoordinator.BuildResult | src/application/subagent_coordinator.py:338-351 | The loop collects what `SubPlans.ResultHoldsOutputs` says: the recorded output of each tool, later actions winning |
| Coordination.DomainEventHandler.HandleOrchestrated | src/application/domain_event_handler.py:211-290 | The trigger of an orchestrated run saves, claims and fans out once; a repeated trigger does nothing |
| Coordination.DomainEventHandler.HandleWhole | src/application/domain_event_handler.py:64-209 | The trigger of a single plan resumes, replans or creates it |
| RecursionRunners.HandleActionCost | src/application/action_event_handler.py:29-34 | One delivery runs tools at most once, and once more for each action it chains inline |
| RecursionRunners.RecursionRunner.Step | src/application/recursion_runner.py:46-96 | One pass conserves messages and does exactly one of: fail a message beyond the depth or number limit, which no handler gets to see, and report its run; acknowledge a duplicate; hand over and settle |
| RecursionRunners.RefusedIsReportedRight | src/application/recursion_runner.py:108-143 | A refused event is reported against an action's plan, and against the run a trigger would start exactly if the trigger, whose event id is not empty, names that run other than by it |
| RecursionRunners.RecursionRunner.Run | src/application/recursion_runner.py:39-99 | The loop ends; all messages are acknowledged or failed once; no event id reaches a handler twice; tool calls are bounded by depth limit plus inline budget; if nothing was cut off the run is decided |
| RecursionRunners.RecursionRunner.Drain | src/application/recursion_runner.py:46-96 | The loop alone: termination although handlers enqueue, conservation, no event id twice, and the bound on tool calls |
| RecursionRunners.PassesAreRun | src/application/recursion_runner.py:46-96 | The passes of the loop are a run of the composed system |
| RecursionRunners.DrainedIsDecided | src/application/recursion_runner.py:46-96 | An orchestrated run drained without a dropped message ends decided |
| DurableStores.AbsorbExtends | src/infrastructure/state/prism_api_state_store.py:226-268 | Reading one more record extends the overlay of the cache by it, so the order of listing does not matter |
| DurableStores.LoadIsComplete | src/infrastructure/state/prism_api_state_store.py:94-95 | Loading a run makes the cache complete for that run and leaves it faithful |
| DurableStores.OpSimulates | src/infrastructure/state/prism_api_state_store.py:50-150 | Every operation answers as the in-memory store does, up to graph versions, and keeps the relation |
| DurableStores.SeriesAgrees | src/infrastructure/state/prism_api_state_store.py:26-43 | Any series of operations and restarts gets the answers of one in-memory store that is never restarted |
| DurableStores.ColdSeriesAgrees | src/infrastructure/state/prism_api_state_store.py:26-43 | The same from empty memory |
| DurableStores.ReadPlanLocatesKeys | src/infrastructure/state/prism_api_state_store.py:270-275 | After a plan was read, the key of each of its actions is located under it, may be recorded and may be asked for |
| DurableStores.SavedPlanLocatesKeys | src/infrastructure/state/prism_api_state_store.py:270-275 | Saving a plan locates the key of each of its actions, and changes no other location |
| DurableStores.UnnamedLocation | src/infrastructure/state/prism_api_state_store.py:144-180 | Under a location without a run id, a provisioning key is recorded under the run it names itself, and any other key not beyond the process |
| DurableStores.KeyAnswerIsRight | src/infrastructure/state/prism_api_state_store.py:135-142 | As long as keys are recorded located, the answer about a key is right exactly if the key is not recorded, cached or located |
| DurableHistories.KeyAnswerOverHistory | src/infrastructure/state/prism_api_state_store.py:135-150 | After any history the answer about a key is right exactly if the key was never recorded, is cached, or was located when it was recorded and is located now |
| DurableHistories.LocatedKeySurvives | src/infrastructure/state/prism_api_state_store.py:135-150 | The key of any action, recorded once its plan was saved, is answered as recorded by every later process that has read the plan, whatever happened before and in between, while durable memory holds a plan with that key |
| DurableHistories.RecordedKeySurvives | src/infrastructure/state/prism_api_state_store.py:135-150 | In particular after any history followed by saving a plan, recording the key of any of its actions, a restart and reading the plan |
| DurableHistories.EarlyKeyIsLost | src/infrastructure/state/prism_api_state_store.py:144-150 | Every key recorded before its plan was read is lost with the process, although reading the plan locates it |
| DurableHistories.LostKey | src/infrastructure/state/prism_api_state_store.py:144-150 | One such plan and key |
| DurableStores.VersionCountsChanges | src/infrastructure/state/prism_api_state_store.py:71-92 | The stored version grows by one with a claim that hands something out or an advance that is news, and otherwise stays |
| PrismApiStateStores.PrismApiStateStore.LoadStateMemories | src/infrastructure/state/prism_api_state_store.py:226-268 | The loop over memories in any order leaves the overlay |
| PrismApiStateStores.PrismApiStateStore.GetPlan | src/infrastructure/state/prism_api_state_store.py:97-108 | Reading a plan loads its run, answers from the cache, and locates the key of each action of the stored plan |
| PrismApiStateStores.PrismApiStateStore.ClaimReadyNodes | src/infrastructure/state/prism_api_state_store.py:71-78 | Claims over the durable graph, written back only if something was claimed |
| PrismApiStateStores.PrismApiStateStore.AdvanceTaskGraph | src/infrastructure/state/prism_api_state_store.py:80-92 | Advances over the durable graph, written back unless a duplicate |
| PrismApiStateStores.PrismApiStateStore.CheckIdempotencyKey | src/infrastructure/state/prism_api_state_store.py:135-167 | The cache first, then the memories of the run the key is located in |
| PrismApiStateStores.PrismApiStateStore.RecordIdempotencyKey | src/infrastructure/state/prism_api_state_store.py:144-180 | The cache, and durable memory if the key is located |
| WorkItemValidation.Walker.Walk | src/capabilities/tools/workitem_tools.py:826-845 | The walk with a counter shared by all levels finds the first error in pre-order and the count then |
| WorkItemValidation.ValidateWorkItemTree | src/capabilities/tools/workitem_tools.py:820-847 | Accepts exactly the non-empty lists of well-typed, titled nodes of at most three levels and a hundred items |
| WorkItemValidation.WalkIsExact | src/capabilities/tools/workitem_tools.py:826-845 | The early-exit walk finds no error if and only if types, depth and size all fit |
| WorkItemValidation.DraftsRoundTrip | src/capabilities/tools/workitem_tools.py:585-603 | Converting typed drafts loses no title, assignee, nesting or order, and keeps the size |
| WorkItemValidation.DraftsAreAccepted | src/capabilities/tools/workitem_tools.py:585-603 | Typed drafts are never too deep, and are accepted if and only if there are some, at most a hundred, all titled |
| WorkItemRollup.KnownMemberUsernames | src/capabilities/tools/workitem_tools.py:691-717 | The resolver is built by first claim, with lower-case keys |
| WorkItemNames.ResolverIsExact | src/capabilities/tools/workitem_tools.py:699-717 | A key is in the resolver exactly if a member with a username has it as username, full name or user id in lower case, and it leads to the first such member's username |
| WorkItemNames.NameLeadsTo | src/capabilities/tools/workitem_tools.py:751-761 | A name stands for the username of the first member found under it, for itself if no member has a username, and for nobody if it has no text |
| WorkItemNames.BlankIs | src/capabilities/tools/workitem_tools.py:833-834 | A title is refused as blank exactly if it does not count as true or shows only white space |
| WorkItemRollup.CleanUsernames | src/capabilities/tools/workitem_tools.py:751-761 | The resolved usernames, each once |
| WorkItemRollup.DedupKeepsOrder | src/capabilities/tools/workitem_tools.py:759-760 | Each name stands in the order of first occurrence |
| WorkItemRollup.SecondCleaningIsIdle | src/capabilities/tools/workitem_tools.py:800-805 | Cleaning cleaned names changes nothing, for all names, if and only if every username resolves to itself |
| WorkItemRollup.FullNameCollides | src/capabilities/tools/workitem_tools.py:710-716 | Two members with whom the second cleaning changes a name |
| WorkItemTrees.WorkItem.RollUp | src/capabilities/tools/workitem_tools.py:764-780 | The in-place, bottom-up roll-up gives each item the usernames of its subtree in pre-order, each once |
| WorkItemTrees.AncestorsHaveEveryone | src/capabilities/tools/workitem_tools.py:764-780 | Whoever works on an item works on every item above it |
| WorkItemNames.EveryoneIs | src/capabilities/tools/workitem_tools.py:764-780 | Exactly those who work on the arriving node or on one below it are listed for it, each once, the node's own names first |
| WorkItemTrees.SentAssignees | src/capabilities/tools/workitem_tools.py:800-805 | What is sent after the second cleaning is everyone in the subtree, if usernames resolve to themselves |
| WorkItemCreation.CreateLevel | src/capabilities/tools/workitem_tools.py:229-279 | One payload and one id per item of a level, in order, each titled with the first hundred characters of the item's text |
| WorkItemCreation.CreateTree | src/capabilities/tools/workitem_tools.py:184-210 | The level-by-level loop ends, makes one entry per item, each after its parent and one level deeper, and with fresh ids the list rebuilds to the forest, every title the first hundred characters of the text it came with, or "Generated task" without any |
| WorkItemCreation.RebuiltIs | src/capabilities/tools/workitem_tools.py:198-210 | Rebuilding from parent ids in list order returns, for every created item, its children in order |
| WorkItemCreation.LocalIdsAreFresh | src/capabilities/tools/workitem_tools.py:267-275 | Ids made without a backend are fresh |
| WorkItemCreation.Execute | src/capabilities/tools/workitem_tools.py:164-227 | An unacceptable tree changes and creates nothing; an acceptable one is created whole, and the entries give back the arriving nodes, each with its title cut at a hundred characters and, if usernames resolve to themselves, with exactly those assigned who work on it or below it |

## Left out

- Language-model planning, prompts, registries, approval policies: a proposal of the planner is a parameter; only its normalization is modelled.
- HTTP client, object storage, authentication and command line: durable memory is a map by workspace, run and memory id; encoding and decoding are inverse.
- Steps, titles and statuses written through `agent_run_sync`: only "run completed" and "run failed" reports are kept, and a run already closed elsewhere counts as an ignored trigger.
- Trace events: they steer nothing.
- Domain events emitted by validators and tools: they are put on the queue and handled as events that no workflow takes up.
- Context snapshots: the triggering event a plan remembers is kept with the plan and always found; entities and versions are not modelled.
- Exceptions of the planner during a delivery, and crashes in the middle of one.
- Simultaneous writers to one durable graph: the repository documents that race as open.
- Hydration of statuses from backend records, and approval resume: the durable memory holds memories only.
- DurableStores.OpSimulates: action results and context snapshots are not among the operations; the source stores a result only when it knows the plan's workspace from its keys.
- DurableStores.SeriesAgrees: the same.
- DurableStores.ColdSeriesAgrees: the same.
- DurableStores.KeyAnswerIsRight: takes histories in which keys are recorded located; `DurableHistories.KeyAnswerOverHistory` takes all.
- Handlers over the durable store: the handler classes work on the in-memory store, and the refinement is not composed with a run.
- Handlers.ActionEventHandler.Handle: the exception for a context snapshot that is missing.
- Coordination.SubAgentCoordinator.HandleTask: a planner that raises, and a context snapshot that is missing.
- Coordination.DomainEventHandler.HandleOrchestrated: the skip of a run that is closed elsewhere counts as an ignored trigger.
- Coordination.DomainEventHandler.HandleWhole: the same skip, and a planner that raises.
- MemoryStores.MemoryStateStore.SaveActionResult: results are kept per workspace and plan, where the source uses the plan id alone.
- Planner.KeysStayFresh: one chain of generations; a replan event delivered again is the subject of `WorkflowKeys`.
- WorkflowCounts.CompletionsAreCounted: counts `record_run_completed`; the status that `record_action_state` also posts for a plan that is no sub-plan is not modelled.
- SingleToken.CompletedReportedOnce: the same.
- SingleToken.AtMostThreeExecutions: without redelivery; `WorkflowExecutions.ExecutionsAreBounded` is the bound with it.
- Quiescence.QuiescentIsDecided: speaks of runs without the depth limit; `RecursionRunners.RecursionRunner.Run` says what the limit cuts off and when it does not.
- WorkItemCreation.CreateLevel: descriptions, dates, labels and the parallel calls; ids come back in the order of the payloads.
- WorkItemCreation.CreateTree: descriptions, dates, priorities, labels and the thread pool are not modelled; ids come back in the order of the payloads.
- WorkItemRollup.KnownMemberUsernames: lower case is that of Latin letters, and white space is blank, tab, line feed and carriage return.
- Planner.ReplanKeepsRunId: uses the same white space.
- The tools that update work items or search for duplicates, the clean-up of dates and labels, the coercion of planner input, and the list of unresolved names: none of them has state or order that the theorems above depend on.
