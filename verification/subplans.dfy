/**
  The plan a node of a task graph gets, and the result it hands on: the plan holds what was proposed for
  the node, and the result holds, for each tool, the output accepted from the last action with that tool.
 */
module SubPlans {
  import opened Common
  import opened Events
  import opened Subtasks
  import opened Plans
  import opened Planner
  import opened Runtime
  import Orchestration
  import opened Decisions
  import opened Deliveries
  import opened Quiescence

  // ---------------------------------------------------------------------
  // The plan of a node
  // ---------------------------------------------------------------------

  /** Action `a` is made from draft number `i`, counted from 0, in a plan whose keys begin with `prefix`; its status is left open. */
  ghost predicate FromDraft(a: PlannedAction, w: Proposal, prefix: string, i: nat)
    requires i < |w.drafts|
  {
    && a.actionId == w.drafts[i].actionId && a.toolName == w.drafts[i].toolName
    && a.requiresApproval == w.approval(w.drafts[i].toolName)
    && a.idempotencyKey == prefix + ":" + w.drafts[i].toolName + ":" + Decimal(i + 1)
    && a.dependsOn == if i > 0 && w.drafts[i - 1].actionId != "" then [w.drafts[i - 1].actionId] else []
  }

  /** Plan `p` of node `u` has one action for each draft, in order. */
  ghost predicate HoldsDrafts(p: AgentPlan, run: RunId, u: string, w: Proposal) {
    && p.planId == RunId(run.workspace, run.id + "::" + u) && p.parentRunId == Some(run) && p.nodeId == Some(u) && p.source == w.source
    && |p.actions| == |w.drafts| && forall i :: 0 <= i < |w.drafts| ==> FromDraft(p.actions[i], w, p.planId.id, i)
  }

  /** Node `u` is waiting for its tools: it is neither COMPLETED nor FAILED and no plan was made for it. */
  ghost predicate Unplanned(s: Store, run: RunId, u: string) {
    && run in s.graphs && s.graphs[run].GetNode(u).Some?
    && s.graphs[run].GetNode(u).value.status !in {SubTaskStatus.Completed, SubTaskStatus.Failed}
    && RunId(run.workspace, run.id + "::" + u) !in s.plans
  }

  /** The first task of a node stores a plan with all the proposed actions PENDING and asks for the first; without any the node is settled. */
  lemma NodeGetsItsDrafts(s: Store, run: RunId, u: string, w: Proposal)
    requires Unplanned(s, run, u) && u != ROOT_NODE_ID
    ensures var (t, sent) := HandleTask(s, run, u, w);
            var pid := RunId(run.workspace, run.id + "::" + u);
            && pid in t.plans && t == s.(plans := s.plans[pid := t.plans[pid]])
            && HoldsDrafts(t.plans[pid], run, u, w) && t.plans[pid].status == Planned
            && (forall i :: 0 <= i < |t.plans[pid].actions| ==> t.plans[pid].actions[i].status == ActionStatus.Pending)
            && sent == [if w.drafts == [] then Send(NodeSettled(run, u, NodeCompleted)) else Send(ActionRequested(pid, w.drafts[0].actionId))]
  {
    hide Decimal, TaskGraph.GetNode, AgentPlan.NextPendingAction;
    var p := HandleTask(s, run, u, w).0.plans[SubPlanId(run, u)];
    forall i | 0 <= i < |w.drafts| ensures FromDraft(p.actions[i], w, p.planId.id, i) && p.actions[i].status == ActionStatus.Pending {
      NormalizedAt(w.drafts, w.approval, p.planId.id, i);
    }
    FirstIsNext(p);
  }

  /** In a planned plan whose first action depends on nothing, that action is next. */
  lemma FirstIsNext(p: AgentPlan)
    requires p.status == Planned && (p.actions != [] ==> p.actions[0].status == ActionStatus.Pending && p.actions[0].dependsOn == [])
    ensures p.NextPendingAction() == if p.actions == [] then None else Some(p.actions[0])
  {
  }

  /** A node that has a plan already keeps it, and a COMPLETED or FAILED one gets none. */
  lemma PlannedNodeIsKept(s: Store, run: RunId, u: string, w: Proposal)
    requires !Unplanned(s, run, u)
    ensures HandleTask(s, run, u, w).0 == s
  {
  }

  /** A repeated task sends one message: for the action of the node's plan that is next, or else how the plan ended. */
  lemma PlannedNodeResumes(s: Store, run: RunId, u: string, w: Proposal)
    requires run in s.graphs && s.graphs[run].GetNode(u).Some?
    requires s.graphs[run].GetNode(u).value.status !in {SubTaskStatus.Completed, SubTaskStatus.Failed}
    requires SubPlanId(run, u) in s.plans && Shaped(s.plans[SubPlanId(run, u)]) && s.plans[SubPlanId(run, u)].planId == SubPlanId(run, u)
    ensures var p, sent := s.plans[SubPlanId(run, u)], HandleTask(s, run, u, w).1;
            |sent| == 1 && if p.NextPendingAction().Some? then sent[0] == Send(ActionRequested(SubPlanId(run, u), p.NextPendingAction().value.actionId))
                           else exists o :: sent[0] == Send(NodeSettled(run, u, o)) && Orchestration.Ended(p, o)
  {
    hide TaskGraph.GetNode, AgentPlan.NextPendingAction, SubPlanId;
    var p := s.plans[SubPlanId(run, u)];
    Orchestration.EndedOneWay(p);
    if p.NextPendingAction().None? {
      if p.status == PlanStatus.Completed || p.status == Planned {
        assert Orchestration.Ended(p, NodeCompleted);
      } else if p.status == WaitingForApproval {
        assert Orchestration.Ended(p, NodeWaiting);
      } else {
        assert Orchestration.Ended(p, NodeFailed);
      }
    }
  }

  /** A task of an unknown node, or of one that is COMPLETED or FAILED, does nothing. */
  lemma SettledNodeIsLeft(s: Store, run: RunId, u: string, w: Proposal)
    requires run in s.graphs && s.graphs[run].GetNode(u).Some? ==>
               s.graphs[run].GetNode(u).value.status in {SubTaskStatus.Completed, SubTaskStatus.Failed}
    ensures HandleTask(s, run, u, w) == (s, [])
  {
  }

  // ---------------------------------------------------------------------
  // The plan of a workflow without a task graph
  // ---------------------------------------------------------------------

  /**
    A trigger makes a plan if there is none, or if it asks for a replan and the plan waits for one. The plan
    holds all the proposed actions, keyed by the trigger's key or else by the run; without any the run has failed.
   */
  lemma WorkflowGetsItsDrafts(s: Store, e: Source, w: Proposal)
    requires RunOf(e) in s.plans ==> s.plans[RunOf(e)].status == ReplanRequired && e.replan
    ensures var (t, sent) := HandleWhole(s, e, w);
            var run := RunOf(e);
            var prefix := if Truthy(e.idempotencyKey) then e.idempotencyKey.value else run.id;
            && run in t.plans && t.plans == s.plans[run := t.plans[run]]
            && var p := t.plans[run];
            && p.planId == run && p.parentRunId.None? && p.nodeId.None? && p.source == e
            && p.status == (if w.drafts == [] then PlanStatus.Failed else Planned)
            && |p.actions| == |w.drafts|
            && (forall i :: 0 <= i < |w.drafts| ==> FromDraft(p.actions[i], w, prefix, i) && p.actions[i].status == ActionStatus.Pending)
            && sent == (if w.drafts == [] then [] else [Send(ActionRequested(run, w.drafts[0].actionId))])
            && t.reports == s.reports + (if w.drafts == [] then [RunFailed(run)] else [])
            && t.executions == s.executions && t.commits == s.commits && t.keys == s.keys && t.actionResults == s.actionResults
  {
    hide Decimal, RunOf, AgentPlan.NextPendingAction;
    var run := RunOf(e);
    var p := PlanForNode(ROOT_NODE_ID, e, run, w.drafts, w.approval);
    var prefix := if Truthy(e.idempotencyKey) then e.idempotencyKey.value else run.id;
    forall i | 0 <= i < |w.drafts| ensures FromDraft(p.actions[i], w, prefix, i) && p.actions[i].status == ActionStatus.Pending {
      NormalizedAt(w.drafts, w.approval, prefix, i);
    }
    FirstIsNext(p);
    assert s.reports + [] == s.reports;
  }

  // ---------------------------------------------------------------------
  // Over whole runs, every plan is what was proposed for its node
  // ---------------------------------------------------------------------

  /** Delivering message `m` plans for a node, with the proposal that plan `p` holds. */
  ghost predicate PlannedBy(x: Setup, m: Message, w: World, p: AgentPlan) {
    && m.body.TaskRequested? && m.body.run == x.Run()
    && HoldsDrafts(p, x.Run(), m.body.nodeId, w.proposal)
  }

  /** Choice number `j` of the run delivers the task of the node whose plan is `p`, with the proposal that `p` holds. */
  ghost predicate ProposedAt(x: Setup, cs: seq<Choice>, j: nat, p: AgentPlan) {
    && j < |cs| && cs[j].Deliver? && cs[j].at < |Quiescence.Run(x, cs[..j]).bag|
    && PlannedBy(x, Quiescence.Run(x, cs[..j]).bag[cs[j].at], cs[j].world, p)
  }

  lemma SameHolds(p: AgentPlan, q: AgentPlan, run: RunId, u: string, w: Proposal)
    requires HoldsDrafts(p, run, u, w) && SameActions(p, q)
    ensures HoldsDrafts(q, run, u, w)
  {
    hide Decimal;
    forall i | 0 <= i < |w.drafts| ensures FromDraft(q.actions[i], w, q.planId.id, i) {
      assert FromDraft(p.actions[i], w, p.planId.id, i);
    }
  }

  /** A plan that is there after a choice was there before with the same actions, or the choice planned it. */
  lemma LastPlan(x: Setup, n: Net, c: Choice, pid: RunId)
    requires NetOk(x, n) && pid in Next(x, n, c).store.plans
    ensures var p := Next(x, n, c).store.plans[pid];
            || (pid in n.store.plans && SameActions(n.store.plans[pid], p))
            || (c.Deliver? && c.at < |n.bag| && PlannedBy(x, n.bag[c.at], c.world, p))
  {
    hide HandleAction, NetOk, Tidy, Steady, HandleTask, HandleSettled, HandleWhole, HandleOrchestrated, HoldsDrafts, Unplanned;
    if c.Deliver? && c.at < |n.bag| {
      var m := n.bag[c.at];
      match m.body
      case ActionRequested(q, aid) =>
        RequestedPlanIsKnown(x, n, m);
        OnlyLetRun(n.store, q, aid, m.attempt, Around(x, c.world), 0, c.inlined, (q, ""));
      case TaskRequested(run, u) =>
        WaitingIsOk(x, n, m);
        TaskPlans(n.store, run, u, c.world.proposal, pid);
      case NodeSettled(run, u, o) => SettledKeepsPlans(n.store, run, u, o);
      case Trigger(e) => TriggerKeepsPlans(x, n, m, c);
      case Notice(_) =>
    }
  }

  lemma TaskPlans(s: Store, run: RunId, u: string, w: Proposal, pid: RunId)
    requires run in s.graphs && s.graphs[run].GetNode(ROOT_NODE_ID).None? && pid in HandleTask(s, run, u, w).0.plans
    ensures var p := HandleTask(s, run, u, w).0.plans[pid];
            (pid in s.plans && s.plans[pid] == p) || HoldsDrafts(p, run, u, w)
  {
    hide HandleTask, HoldsDrafts, TaskGraph.GetNode;
    if Unplanned(s, run, u) {
      NodeGetsItsDrafts(s, run, u, w);
    } else {
      PlannedNodeIsKept(s, run, u, w);
    }
  }

  lemma SettledKeepsPlans(s: Store, run: RunId, u: string, o: NodeOutcome)
    ensures HandleSettled(s, run, u, o).0.plans == s.plans
  {
    hide TaskGraph.Advanced, BuildResult, Reports, Dispatch;
  }

  lemma TriggerKeepsPlans(x: Setup, n: Net, m: Message, c: Choice)
    requires NetOk(x, n) && c.Deliver? && c.at < |n.bag| && n.bag[c.at] == m && m.body.Trigger?
    ensures Next(x, n, c).store.plans == n.store.plans
  {
    hide NetOk, TaskGraph.Claimed, RunOf;
    WaitingIsOk(x, n, m);
  }

  /** Every plan of a run holds, position by position, what was proposed in a delivery of its node's task. */
  lemma {:induction false} PlansAreProposed(x: Setup, cs: seq<Choice>, pid: RunId)
    requires x.Valid() && forall c :: c in cs ==> Proper(c)
    requires pid in Quiescence.Run(x, cs).store.plans
    ensures exists j: nat :: ProposedAt(x, cs, j, Quiescence.Run(x, cs).store.plans[pid])
  {
    hide Next, HoldsDrafts, Setup.Valid, Proper, SameActions;
    if cs == [] {
      BeginStore(x);
    } else {
      var last := |cs| - 1;
      var before := cs[..last];
      var n, p := Quiescence.Run(x, before), Quiescence.Run(x, cs).store.plans[pid];
      RunIsOk(x, before);
      LastPlan(x, n, cs[last], pid);
      if pid in n.store.plans && SameActions(n.store.plans[pid], p) {
        PlansAreProposed(x, before, pid);
        var j: nat :| ProposedAt(x, before, j, n.store.plans[pid]);
        PrefixRun(x, cs, j);
        SameHolds(n.store.plans[pid], p, x.Run(), Quiescence.Run(x, cs[..j]).bag[cs[j].at].body.nodeId, cs[j].world.proposal);
        assert ProposedAt(x, cs, j, p);
      } else {
        assert ProposedAt(x, cs, last, p);
      }
    }
  }

  // ---------------------------------------------------------------------
  // The result of a node
  // ---------------------------------------------------------------------

  /** Among the first `n` actions of `p`, number `i` is the last one of tool `tool` that has a stored result. */
  predicate LastOf(p: AgentPlan, results: map<(RunId, string), string>, n: nat, tool: string, i: nat)
    requires n <= |p.actions|
  {
    && i < n && p.actions[i].toolName == tool && (p.planId, p.actions[i].actionId) in results
    && forall j :: i < j < n && p.actions[j].toolName == tool ==> (p.planId, p.actions[j].actionId) !in results
  }

  /** A tool is among the outputs exactly if one of its actions has a stored result; the last such result is its output. */
  lemma {:induction false} OutputsAre(p: AgentPlan, results: map<(RunId, string), string>, n: nat, tool: string)
    requires n <= |p.actions|
    ensures tool in Outputs(p, results, n) <==>
            exists i :: 0 <= i < n && p.actions[i].toolName == tool && (p.planId, p.actions[i].actionId) in results
    ensures forall i: nat :: LastOf(p, results, n, tool, i) ==>
              tool in Outputs(p, results, n) && Outputs(p, results, n)[tool] == results[(p.planId, p.actions[i].actionId)]
  {
    if n > 0 {
      OutputsAre(p, results, n - 1, tool);
      forall i: nat | LastOf(p, results, n, tool, i) && i < n - 1 ensures LastOf(p, results, n - 1, tool, i) {}
    }
  }

  /** `_build_result` in terms of what is stored: node, tools and outputs. */
  lemma ResultHoldsOutputs(s: Store, run: RunId, u: string, tool: string)
    ensures var r, pid := BuildResult(s, run, u), SubPlanId(run, u);
            && r.nodeId == u && (pid !in s.plans ==> r.outputs == map[])
            && (pid in s.plans ==>
                  var p := s.plans[pid];
                  && (tool in r.outputs <==>
                        exists i :: 0 <= i < |p.actions| && p.actions[i].toolName == tool && (p.planId, p.actions[i].actionId) in s.actionResults)
                  && (forall i: nat :: LastOf(p, s.actionResults, |p.actions|, tool, i) ==>
                        tool in r.outputs && r.outputs[tool] == s.actionResults[(p.planId, p.actions[i].actionId)]))
  {
    var pid := SubPlanId(run, u);
    if pid in s.plans {
      OutputsAre(s.plans[pid], s.actionResults, |s.plans[pid].actions|, tool);
    }
  }

  /** Action number `i` is the last one of its tool. */
  predicate LastWith(actions: seq<PlannedAction>, tool: string, i: nat) {
    i < |actions| && actions[i].toolName == tool && forall j :: i < j < |actions| ==> actions[j].toolName != tool
  }

  lemma EndedIsAllCompleted(p: AgentPlan)
    requires Shaped(p) && Orchestration.Ended(p, NodeCompleted)
    ensures forall i :: 0 <= i < |p.actions| ==> p.actions[i].status == ActionStatus.Completed
  {
  }

  /**
    The result stored for node `u`: its tools are those of its sub-plan's actions, and the output of each is
    what was accepted from the last action with that tool.
   */
  ghost predicate CarriesOutputs(x: Setup, cs: seq<Choice>, u: string) {
    var s, run, pid := Quiescence.Run(x, cs).store, x.Run(), SubPlanId(x.Run(), u);
    && pid in s.plans && run in s.subResults && u in s.subResults[run] && s.subResults[run][u].nodeId == u
    && var p, outputs := s.plans[pid], s.subResults[run][u].outputs;
    && (forall tool :: tool in outputs <==> exists i :: 0 <= i < |p.actions| && p.actions[i].toolName == tool)
    && (forall tool, i: nat :: LastWith(p.actions, tool, i) ==>
          tool in outputs && exists j: nat :: AcceptsAt(x, cs, j, pid, p.actions[i].actionId, outputs[tool]))
  }

  /** When the synthesizer has started, it finds for every node the outputs accepted from all the tools of the node's sub-plan. */
  lemma JoinCarriesOutputs(x: Setup, cs: seq<Choice>, i: nat)
    requires x.Valid() && forall c :: c in cs ==> Proper(c)
    requires i < |x.nodes| && x.Run() in Quiescence.Run(x, cs).store.graphs
    requires var g := Quiescence.Run(x, cs).store.graphs[x.Run()]; g.synthesizer.Some? && g.synthesizer.value.status != SubTaskStatus.Pending
    ensures CarriesOutputs(x, cs, x.nodes[i].nodeId)
  {
    hide SubPlanId, BuildResult, Orchestration.Ended, Next, AcceptsAt, Shaped, LastWith, NetOk;
    JoinIsSound(x, cs);
    RunIsOk(x, cs);
    var n, u := Quiescence.Run(x, cs), x.nodes[i].nodeId;
    var s, run, pid := n.store, x.Run(), SubPlanId(x.Run(), u);
    assert HasResult(s, run, u);
    EndedInRun(x, n, pid);
    var p := s.plans[pid];
    forall k | 0 <= k < |p.actions| ensures Accounted(x, cs, s, pid, p.actions[k].actionId) {
      ResultsAreAccepted(x, cs, pid, k);
    }
    OutputsAreAccepted(x, cs, u);
  }

  lemma EndedInRun(x: Setup, n: Net, pid: RunId)
    requires NetOk(x, n) && pid in n.store.plans && Orchestration.Ended(n.store.plans[pid], NodeCompleted)
    ensures n.store.plans[pid].planId == pid
    ensures forall i :: 0 <= i < |n.store.plans[pid].actions| ==> n.store.plans[pid].actions[i].status == ActionStatus.Completed
  {
    assert Orchestration.PlanOk(x.Run(), n.store.graphs[x.Run()], pid, n.store.plans[pid]);
    EndedIsAllCompleted(n.store.plans[pid]);
  }

  lemma OutputsAreAccepted(x: Setup, cs: seq<Choice>, u: string)
    requires HasResult(Quiescence.Run(x, cs).store, x.Run(), u)
    requires var s, pid := Quiescence.Run(x, cs).store, SubPlanId(x.Run(), u);
             && s.plans[pid].planId == pid
             && forall k :: 0 <= k < |s.plans[pid].actions| ==> Accounted(x, cs, s, pid, s.plans[pid].actions[k].actionId)
    ensures CarriesOutputs(x, cs, u)
  {
    hide SubPlanId, Quiescence.Run, AcceptsAt, BuildResult, Orchestration.Ended;
    var s, run, pid := Quiescence.Run(x, cs).store, x.Run(), SubPlanId(x.Run(), u);
    var p, outputs := s.plans[pid], s.subResults[run][u].outputs;
    ResultHoldsOutputs(s, run, u, "");
    forall tool ensures tool in outputs <==> exists i :: 0 <= i < |p.actions| && p.actions[i].toolName == tool {
      ResultHoldsOutputs(s, run, u, tool);
    }
    forall tool, i: nat | LastWith(p.actions, tool, i)
      ensures tool in outputs && exists j: nat :: AcceptsAt(x, cs, j, pid, p.actions[i].actionId, outputs[tool]) {
      ResultHoldsOutputs(s, run, u, tool);
      assert LastOf(p, s.actionResults, |p.actions|, tool, i);
    }
  }
}
