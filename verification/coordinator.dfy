/**
  The handlers that start and join work, in the form the source gives them: the sub-agent coordinator
  (src/application/subagent_coordinator.py) and the handler of triggering events
  (src/application/domain_event_handler.py). Each is proved to do what the functions of `Runtime` say.
 */
module Coordination {
  import opened Common
  import opened Events
  import opened Subtasks
  import opened Plans
  import opened Planner
  import opened Runtime
  import opened Queues
  import opened MemoryStores
  import opened Handlers

  /** `plan_for_node`, with the planner's normalization of what was proposed. */
  method PlanNode(nodeId: string, proposal: Proposal, e: Source, run: RunId) returns (p: AgentPlan)
    ensures p == PlanForNode(nodeId, e, run, proposal.drafts, proposal.approval)
  {
    if nodeId == ROOT_NODE_ID {
      var actions := Normalize(proposal.drafts, proposal.approval, RunPrefix(e, run.id));
      p := AgentPlan(run, None, None, e, actions, Planned);
    } else {
      var pid := SubPlanId(run, nodeId);
      var actions := Normalize(proposal.drafts, proposal.approval, pid.id);
      p := AgentPlan(pid, Some(run), Some(nodeId), e, actions, Planned);
    }
  }

  class SubAgentCoordinator {
    const shared: Shared

    constructor (shared: Shared)
      ensures this.shared == shared
    {
      this.shared := shared;
    }

    /** The state and the queue after a delivery are those of `r`. */
    ghost predicate Did(before: QueueState, r: (Store, seq<Message>))
      reads this, shared, shared.store, shared.queue, shared.outside
    {
      shared.Valid() && shared.State() == r.0 && Grew(before, shared.queue.View(), r.1)
    }

    /** `handle`. */
    method Handle(envelope: Envelope)
      requires shared.Valid() && IsCause(envelope) && (envelope.message.body.TaskRequested? || envelope.message.body.NodeSettled?)
      modifies shared.store, shared.queue, shared.outside`drawn, shared.outside`asked, shared.outside`reports
      ensures Did(old(shared.queue.View()),
                  match envelope.message.body
                  case TaskRequested(run, nodeId) =>
                    Runtime.HandleTask(old(shared.State()), run, nodeId, shared.outside.proposals(old(shared.outside.asked)))
                  case NodeSettled(run, nodeId, outcome) => HandleSettled(old(shared.State()), run, nodeId, outcome)
                  case _ => (old(shared.State()), []))
    {
      hide Runtime.HandleTask, HandleSettled, Grew;
      match envelope.message.body
      case TaskRequested(run, nodeId) => HandleTask(envelope, run, nodeId);
      case NodeSettled(run, nodeId, outcome) => HandleCompleted(envelope, run, nodeId, outcome);
    }

    /** `_resume_existing_subplan`. */
    method ResumeExistingSubplan(envelope: Envelope, run: RunId, nodeId: string, p: AgentPlan)
      requires shared.Valid() && IsCause(envelope)
      modifies shared.queue, shared.outside`drawn
      ensures shared.Valid() && Grew(old(shared.queue.View()), shared.queue.View(), Resume(run, nodeId, p))
    {
      hide AgentPlan.NextPendingAction;
      GrewNot(shared.queue.View());
      var next := p.NextPendingAction();
      if next.Some? {
        shared.Emit(envelope, Send(ActionRequested(p.planId, next.value.actionId)));
      } else if p.status in {PlanStatus.Completed, Planned} {
        shared.Emit(envelope, Send(NodeSettled(run, nodeId, NodeCompleted)));
      } else if p.status == WaitingForApproval {
        shared.Emit(envelope, Send(NodeSettled(run, nodeId, NodeWaiting)));
      } else if p.status in {PlanStatus.Failed, Cancelled, ReplanRequired} {
        shared.Emit(envelope, Send(NodeSettled(run, nodeId, NodeFailed)));
      }
    }

    /** `_handle_task`; the planner is asked only for a node that has no sub-plan yet. */
    method HandleTask(envelope: Envelope, run: RunId, nodeId: string)
      requires shared.Valid() && IsCause(envelope)
      modifies shared.store, shared.queue, shared.outside`drawn, shared.outside`asked
      ensures Did(old(shared.queue.View()),
                  Runtime.HandleTask(old(shared.State()), run, nodeId, shared.outside.proposals(old(shared.outside.asked))))
    {
      hide AgentPlan.NextPendingAction, PlanForNode, Resume, Contents, Grew, AllTraced, IsCause;
      GrewNot(shared.queue.View());
      var graph := shared.store.GetTaskGraph(run);
      if graph.None? {
        return;
      }
      var node := graph.value.GetNode(nodeId);
      if node.None? || node.value.status in {SubTaskStatus.Completed, SubTaskStatus.Failed} {
        return;
      }
      var existing := shared.store.GetPlan(SubPlanId(run, nodeId));
      if existing.Some? {
        ResumeExistingSubplan(envelope, run, nodeId, existing.value);
        return;
      }
      var proposal := shared.outside.proposals(shared.outside.asked);
      shared.outside.asked := shared.outside.asked + 1;
      var p := PlanNode(nodeId, proposal, proposal.source, run);
      shared.store.SavePlan(p);
      var first := p.NextPendingAction();
      if first.None? {
        shared.Emit(envelope, Send(NodeSettled(run, nodeId, NodeCompleted)));
      } else {
        shared.Emit(envelope, Send(ActionRequested(p.planId, first.value.actionId)));
      }
    }

    /** `_build_result`: the outputs of a sub-plan's actions under the names of their tools; later actions win. */
    method BuildResult(nodeId: string, plan: Option<AgentPlan>) returns (r: SubAgentResult)
      ensures r == SubAgentResult(nodeId, if plan.None? then map[]
                                          else Outputs(plan.value, shared.store.actionResults, |plan.value.actions|))
    {
      if plan.None? {
        return SubAgentResult(nodeId, map[]);
      }
      var p := plan.value;
      var outputs: map<string, string> := map[];
      for i := 0 to |p.actions|
        invariant outputs == Outputs(p, shared.store.actionResults, i)
      {
        var result := shared.store.GetActionResult(p.planId, p.actions[i].actionId);
        if result.Some? {
          outputs := outputs[p.actions[i].toolName := result.value];
        }
      }
      r := SubAgentResult(nodeId, outputs);
    }

    /** `_handle_completed`. */
    method HandleCompleted(envelope: Envelope, run: RunId, nodeId: string, outcome: NodeOutcome)
      requires shared.Valid() && IsCause(envelope)
      modifies shared.store, shared.queue, shared.outside`drawn, shared.outside`reports
      ensures Did(old(shared.queue.View()), HandleSettled(old(shared.State()), run, nodeId, outcome))
    {
      hide TaskGraph.Advanced, Tasks;
      GrewNot(shared.queue.View());
      if outcome.NodeWaiting? {
        return;
      }
      var status := if outcome.NodeCompleted? then SubTaskStatus.Completed else SubTaskStatus.Failed;
      AdvanceKeepsPlan(shared.store, run, nodeId, status);
      var advance := shared.store.AdvanceTaskGraph(run, nodeId, status);
      if advance.None? || advance.value.alreadyProcessed {
        return;
      }
      ghost var saved := shared.State();
      FollowUpOn(envelope, run, nodeId, outcome, advance.value);
      assert old(shared.State()).SaveGraph(advance.value.graph) == saved;
    }

    /** `_store_result`. */
    method StoreResult(run: RunId, nodeId: string)
      requires shared.Valid()
      modifies shared.store`subAgentResults
      ensures shared.Valid()
      ensures shared.State() == old(shared.State()).SaveSubAgentResult(run, Runtime.BuildResult(old(shared.State()), run, nodeId))
    {
      hide Outputs;
      var plan := shared.store.GetPlan(SubPlanId(run, nodeId));
      assert plan.Some? ==> plan.value.planId == SubPlanId(run, nodeId);
      var result := BuildResult(nodeId, plan);
      shared.store.SaveSubAgentResult(run, result);
    }

    /** The dispatch of newly ready nodes and of the synthesizer. */
    method DispatchNodes(envelope: Envelope, run: RunId, a: Advance)
      requires shared.Valid() && IsCause(envelope)
      modifies shared.queue, shared.outside`drawn
      ensures shared.Valid() && Grew(old(shared.queue.View()), shared.queue.View(), Dispatch(run, a))
    {
      hide Tasks;
      ghost var before := shared.queue.View();
      shared.EmitTasks(envelope, run, a.newlyReady);
      if a.dispatchSynthesizer.Some? {
        ghost var mid := shared.queue.View();
        shared.EmitTasks(envelope, run, [a.dispatchSynthesizer.value]);
        GrewTwice(before, mid, shared.queue.View(), Tasks(run, a.newlyReady), Tasks(run, [a.dispatchSynthesizer.value]));
      } else {
        assert Tasks(run, a.newlyReady) + [] == Tasks(run, a.newlyReady);
      }
    }

    /** What is reported of the run. */
    method ReportOutcome(run: RunId, a: Advance)
      modifies shared.outside`reports
      ensures shared.outside.reports == old(shared.outside.reports) + Reports(run, a)
    {
      if a.runFailed {
        shared.outside.reports := shared.outside.reports + [RunFailed(run)];
        return;
      }
      if a.runCompleted {
        shared.outside.reports := shared.outside.reports + [RunCompleted(run)];
      }
      if a.blocked {
        shared.outside.reports := shared.outside.reports + [RunFailed(run)];
      }
    }

    /** The rest of `_handle_completed`, once the outcome `a` of the graph is known to be news. */
    method FollowUpOn(envelope: Envelope, run: RunId, nodeId: string, outcome: NodeOutcome, a: Advance)
      requires shared.Valid() && IsCause(envelope)
      modifies shared.store, shared.queue, shared.outside`drawn, shared.outside`reports
      ensures Did(old(shared.queue.View()), FollowUp(old(shared.State()), run, nodeId, outcome, a))
    {
      hide Dispatch, Runtime.BuildResult, Contents, Reports, Grew;
      GrewNot(shared.queue.View());
      if outcome.NodeCompleted? && !a.isSynthesizer {
        StoreResult(run, nodeId);
      }
      if !a.runFailed {
        DispatchNodes(envelope, run, a);
      }
      ReportOutcome(run, a);
    }
  }

  lemma AdvanceKeepsPlan(store: MemoryStateStore, run: RunId, nodeId: string, status: SubTaskStatus)
    requires store.Valid()
    ensures run in store.taskGraphs ==> store.taskGraphs[run].Advanced(nodeId, status).graph.planId == run
  {
    if run in store.taskGraphs {
      AdvanceKeepsPlanId(store.taskGraphs[run], nodeId, status);
    }
  }

  class DomainEventHandler {
    const shared: Shared

    constructor (shared: Shared)
      ensures this.shared == shared
    {
      this.shared := shared;
    }

    ghost predicate Did(before: QueueState, r: (Store, seq<Message>))
      reads this, shared, shared.store, shared.queue, shared.outside
    {
      shared.Valid() && shared.State() == r.0 && Grew(before, shared.queue.View(), r.1)
    }

    /** `_handle_orchestrated`. */
    method HandleOrchestrated(envelope: Envelope, run: RunId, nodes: seq<SubTask>, synthesizer: Option<SubTask>)
      requires shared.Valid() && IsCause(envelope) && TaskGraph(run, 0, nodes, synthesizer).WellFormed()
      modifies shared.store, shared.queue, shared.outside`drawn, shared.outside`reports
      ensures Did(old(shared.queue.View()), Runtime.HandleOrchestrated(old(shared.State()), run, nodes, synthesizer))
    {
      hide TaskGraph.Claimed, Tasks, AllTraced, IsCause, Contents;
      GrewNot(shared.queue.View());
      var existing := shared.store.GetTaskGraph(run);
      if existing.Some? {
        return;
      }
      var graph := TaskGraph(run, 0, nodes, synthesizer);
      AdvanceKeepsPlanId(graph, "", SubTaskStatus.Completed);
      shared.store.SaveTaskGraph(graph);
      var ready := shared.store.ClaimReadyNodes(run);
      assert shared.store.taskGraphs == old(shared.store.taskGraphs)[run := graph.Claimed().graph];
      if ready == [] {
        shared.outside.reports := shared.outside.reports + [RunFailed(run)];
        return;
      }
      shared.EmitTasks(envelope, run, ready);
    }

    /** What both a resumed and a new plan go through at the end of `handle`. */
    method StartPlan(envelope: Envelope, p: AgentPlan)
      requires shared.Valid() && IsCause(envelope)
      modifies shared.store, shared.queue, shared.outside`drawn, shared.outside`reports
      ensures Did(old(shared.queue.View()), Runtime.StartPlan(old(shared.State()), p))
    {
      hide AgentPlan.NextPendingAction;
      GrewNot(shared.queue.View());
      var first := p.NextPendingAction();
      if first.None? {
        if p.status in {PlanStatus.Completed, PlanStatus.Failed, Cancelled, WaitingForApproval, ReplanRequired} {
          return;
        }
        shared.store.SavePlan(p.(status := PlanStatus.Failed));
        shared.outside.reports := shared.outside.reports + [RunFailed(p.planId)];
        return;
      }
      shared.Emit(envelope, Send(ActionRequested(p.planId, first.value.actionId)));
    }

    /** `handle` for a workflow without a task graph of its own. */
    method HandleWhole(envelope: Envelope, e: Source, proposal: Proposal)
      requires shared.Valid() && IsCause(envelope)
      modifies shared.store, shared.queue, shared.outside`drawn, shared.outside`reports
      ensures Did(old(shared.queue.View()), Runtime.HandleWhole(old(shared.State()), e, proposal))
    {
      hide Runtime.StartPlan, PlanForNode, RunOf;
      var run := RunOf(e);
      var existing := shared.store.GetPlan(run);
      var replan := existing.Some? && existing.value.status == ReplanRequired && e.replan;
      if existing.Some? && !replan {
        StartPlan(envelope, existing.value);
        return;
      }
      var root := SubTask(ROOT_NODE_ID, [], SubTaskStatus.Pending);
      var graph := TaskGraph(run, 0, [root], None);
      shared.store.SaveTaskGraph(graph);
      var p := PlanNode(ROOT_NODE_ID, proposal, e, run);
      shared.store.SavePlan(p);
      StartPlan(envelope, p);
    }

    /** `handle`: the router decides what a trigger means. */
    method Handle(envelope: Envelope, e: Source)
      requires shared.Valid() && IsCause(envelope) && shared.outside.Routes()
      modifies shared.store, shared.queue, shared.outside`drawn, shared.outside`reports, shared.outside`asked
      ensures Did(old(shared.queue.View()),
                  match shared.outside.routes(old(shared.outside.asked))
                  case Ignored => (old(shared.State()), [])
                  case Orchestrated(nodes, synthesizer) => Runtime.HandleOrchestrated(old(shared.State()), RunOf(e), nodes, synthesizer)
                  case Whole(proposal) => Runtime.HandleWhole(old(shared.State()), e, proposal))
    {
      hide Runtime.HandleWhole, Runtime.HandleOrchestrated, RunOf;
      GrewNot(shared.queue.View());
      var route := shared.outside.routes(shared.outside.asked);
      shared.outside.asked := shared.outside.asked + 1;
      match route
      case Ignored =>
      case Orchestrated(nodes, synthesizer) =>
        assert TaskGraph(RunId("", ""), 0, nodes, synthesizer).WellFormed();
        HandleOrchestrated(envelope, RunOf(e), nodes, synthesizer);
      case Whole(proposal) =>
        HandleWhole(envelope, e, proposal);
    }
  }
}
