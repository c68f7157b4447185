/**
  The event handlers as functions on the state they share: what delivering one message does to the
  stored plans, graphs, results and keys, and which messages it sends. `Handlers` and `Coordination`
  hold the handlers in the form the source gives them and prove them against these functions.
  Validator, executor, planner and router are outside: their answers come in as parameters.
 */
module Runtime {
  import opened Common
  import opened Events
  import opened Subtasks
  import opened Plans
  import opened Planner

  const ACTION_EXECUTION_ATTEMPTS := 3
  const INLINE_ACTION_CHAIN_BUDGET := 8
  const ROOT_NODE_ID := "root"

  datatype SubAgentResult = SubAgentResult(nodeId: string, outputs: map<string, string>)

  datatype Report = RunCompleted(run: RunId) | RunFailed(run: RunId)

  /**
    The state store, and three logs: what was reported of runs, every executor call, and every action
    whose result was accepted as COMPLETED.
   */
  datatype Store = Store(plans: map<RunId, AgentPlan>, graphs: map<RunId, TaskGraph>, keys: set<string>,
                         subResults: map<RunId, map<string, SubAgentResult>>,
                         actionResults: map<(RunId, string), string>,
                         reports: seq<Report>, executions: multiset<(RunId, string)>, commits: multiset<(RunId, string)>) {
    function SavePlan(p: AgentPlan): Store {
      this.(plans := plans[p.planId := p])
    }

    function SaveGraph(g: TaskGraph): Store {
      this.(graphs := graphs[g.planId := g])
    }

    function SaveActionResult(plan: RunId, actionId: string, output: string): Store {
      this.(actionResults := actionResults[(plan, actionId) := output])
    }

    function SaveSubAgentResult(run: RunId, r: SubAgentResult): Store {
      this.(subResults := subResults[run := (if run in subResults then subResults[run] else map[])[r.nodeId := r]])
    }

    function RecordKey(key: string): Store {
      this.(keys := keys + {key})
    }

    function Reported(r: Report): Store {
      this.(reports := reports + [r])
    }
  }

  const EMPTY_STORE := Store(map[], map[], {}, map[], map[], [], multiset{}, multiset{})

  datatype Decision = Commit | Suggest | Retry | Replan | Reject | Noop

  /** The executor raises, or returns an output that the validator then decides on. */
  datatype Call = Raised | Returned(output: string, decision: Decision, events: seq<string>)

  /** The validator's decision before execution, the events it emits, the executor's answer, and ids the handler draws. */
  datatype Outcome = Outcome(decision: Decision, events: seq<string>, call: Call, suggestion: string, eventId: string)

  function Notices(events: seq<string>): seq<Message> {
    seq(|events|, i requires 0 <= i < |events| => Send(Notice(events[i])))
  }

  // ---------------------------------------------------------------------
  // Actions
  // ---------------------------------------------------------------------

  /** One delivery up to the point where the next action is chosen; `raised` means the handler raised an exception. */
  datatype Visited = Visited(store: Store, sent: seq<Message>, next: Option<PlannedAction>, raised: bool)

  function Still(s: Store): Visited {
    Visited(s, [], None, false)
  }

  /** `_settle_subplan`: what a sub-plan tells the coordinator; nothing for any other plan. */
  function Settlement(p: AgentPlan, outcome: NodeOutcome): seq<Message> {
    if p.parentRunId.Some? && p.nodeId.Some? then [Send(NodeSettled(p.parentRunId.value, p.nodeId.value, outcome))] else []
  }

  /** `_enqueue_next_action` without the sending: the next action, or what the end of the plan entails. */
  function ChooseNext(s: Store, p: AgentPlan, sent: seq<Message>): (v: Visited)
    ensures v.store.graphs == s.graphs && v.store.executions == s.executions
  {
    var next := p.NextPendingAction();
    if next.Some? then Visited(s, sent, next, false)
    else if p.status == PlanStatus.Completed then
      if p.IsSubplan() then Visited(s, sent + Settlement(p, NodeCompleted), None, false)
      else Visited(s.Reported(RunCompleted(p.planId)), sent, None, false)
    else Visited(s, sent, None, false)
  }

  /** The action ends in `status` and a sub-plan settles with `outcome`. */
  function End(s: Store, p: AgentPlan, a: PlannedAction, status: ActionStatus, outcome: NodeOutcome, sent: seq<Message>): (v: Visited)
    ensures v.store.graphs == s.graphs && v.store.executions == s.executions
  {
    var q := p.ReplaceAction(a.WithStatus(status));
    Visited(s.SavePlan(q), sent + Settlement(q, outcome), None, false)
  }

  /** Execution and what follows from it. */
  function Execute(s: Store, p: AgentPlan, a: PlannedAction, attempt: nat, o: Outcome): (v: Visited)
    ensures v.store.graphs == s.graphs
  {
    var running := p.ReplaceAction(a.WithStatus(ActionStatus.Running));
    var called := s.(executions := s.executions + multiset{(p.planId, a.actionId)});
    match o.call
    case Raised => End(called, running, a, ActionStatus.Failed, NodeFailed, []).(raised := !p.IsSubplan())
    case Returned(output, decision, events) =>
      var saved := called.SaveActionResult(p.planId, a.actionId, output);
      if decision == Commit then
        var q := running.ReplaceAction(a.WithStatus(ActionStatus.Completed));
        var done := saved.SavePlan(q).RecordKey(a.idempotencyKey);
        ChooseNext(done.(commits := done.commits + multiset{(p.planId, a.actionId)}), q, Notices(events))
      else if decision == Retry && attempt + 1 < ACTION_EXECUTION_ATTEMPTS then
        Visited(saved.SavePlan(running.ReplaceAction(a.WithStatus(ActionStatus.Pending))),
                [Message(ActionRequested(p.planId, a.actionId), attempt + 1)], None, false)
      else End(saved, running, a, ActionStatus.Failed, NodeFailed, [])
  }

  /** What the validator's decision before execution leads to. */
  function ActOn(s: Store, p: AgentPlan, a: PlannedAction, attempt: nat, correlation: Option<string>, o: Outcome): (v: Visited)
    ensures v.store.graphs == s.graphs
  {
    match o.decision
    case Suggest =>
      var v := End(s.SaveActionResult(p.planId, a.actionId, o.suggestion), p, a, RequiresApproval, NodeWaiting, Notices(o.events));
      v.(store := v.store.RecordKey(a.idempotencyKey))
    case Replan =>
      var v := End(s, p, a, Stale, NodeFailed, []);
      if p.IsSubplan() then v
      else v.(sent := [Send(Trigger(ReplanSource(p.source, p.planId.id, a.idempotencyKey, correlation, o.eventId)))])
    case Reject => End(s, p, a, ActionStatus.Failed, NodeFailed, [])
    case _ => Execute(s, p, a, attempt, o)
  }

  /** One delivery of an action event (`ActionEventHandler.handle`), short of chaining the next action. */
  function Visit(s: Store, pid: RunId, aid: string, attempt: nat, correlation: Option<string>, o: Outcome): (v: Visited)
    ensures v.store.graphs == s.graphs
  {
    if pid !in s.plans || s.plans[pid].GetAction(aid).None? then Still(s).(raised := true)
    else
      var p := s.plans[pid];
      var a := p.GetAction(aid).value;
      if a.status != ActionStatus.Pending then
        if a.status in {ActionStatus.Completed, Skipped} then ChooseNext(s, p, []) else Still(s)
      else if a.idempotencyKey in s.keys then Still(s)
      else ActOn(s, p, a, attempt, correlation, o)
  }

  /** A whole delivery: the state it leaves, what it sent, how many validator answers and inline steps it has used so far. */
  datatype Handled = Handled(store: Store, sent: seq<Message>, answers: nat, inlined: nat, raised: bool)

  /**
    A delivery with inline chaining: while the budget lasts, an auto-commit successor is handled at
    once instead of being sent.
   */
  function HandleAction(s: Store, pid: RunId, aid: string, attempt: nat, correlation: Option<string>,
                        oracle: nat -> Outcome, answers: nat, inlined: nat): (h: Handled)
    ensures h.store.graphs == s.graphs
    decreases INLINE_ACTION_CHAIN_BUDGET - inlined
  {
    var v := Visit(s, pid, aid, attempt, correlation, oracle(answers));
    match v.next
    case None => Handled(v.store, v.sent, answers + 1, inlined, v.raised)
    case Some(next) =>
      if !next.requiresApproval && inlined < INLINE_ACTION_CHAIN_BUDGET then
        var h := HandleAction(v.store, pid, next.actionId, 0, correlation, oracle, answers + 1, inlined + 1);
        h.(sent := v.sent + h.sent)
      else Handled(v.store, v.sent + [Send(ActionRequested(pid, next.actionId))], answers + 1, inlined, false)
  }

  // ---------------------------------------------------------------------
  // The coordinator
  // ---------------------------------------------------------------------

  function SubPlanId(run: RunId, nodeId: string): RunId {
    RunId(run.workspace, run.id + "::" + nodeId)
  }

  /** `plan_for_node`: the root node stands for the whole workflow, any other node gets a sub-plan of its own. */
  function PlanForNode(nodeId: string, e: Source, run: RunId, drafts: seq<Draft>, approval: string -> bool): AgentPlan {
    if nodeId == ROOT_NODE_ID then AgentPlan(run, None, None, e, Normalized(drafts, approval, RunPrefix(e, run.id)), Planned)
    else
      var pid := SubPlanId(run, nodeId);
      AgentPlan(pid, Some(run), Some(nodeId), e, Normalized(drafts, approval, pid.id), Planned)
  }

  /** What the planner proposes for the node, which of its tools need approval, and the triggering event it plans for. */
  datatype Proposal = Proposal(source: Source, drafts: seq<Draft>, approval: string -> bool)

  /** `_handle_task`, including a redelivered task whose sub-plan already exists. */
  function HandleTask(s: Store, run: RunId, nodeId: string, proposal: Proposal): (Store, seq<Message>) {
    if run !in s.graphs || s.graphs[run].GetNode(nodeId).None? then (s, [])
    else if s.graphs[run].GetNode(nodeId).value.status in {SubTaskStatus.Completed, SubTaskStatus.Failed} then (s, [])
    else if SubPlanId(run, nodeId) in s.plans then (s, Resume(run, nodeId, s.plans[SubPlanId(run, nodeId)]))
    else
      var p := PlanForNode(nodeId, proposal.source, run, proposal.drafts, proposal.approval);
      var first := p.NextPendingAction();
      (s.SavePlan(p), if first.None? then [Send(NodeSettled(run, nodeId, NodeCompleted))]
                      else [Send(ActionRequested(p.planId, first.value.actionId))])
  }

  /** `_resume_existing_subplan`. */
  function Resume(run: RunId, nodeId: string, p: AgentPlan): seq<Message> {
    var next := p.NextPendingAction();
    if next.Some? then [Send(ActionRequested(p.planId, next.value.actionId))]
    else if p.status in {PlanStatus.Completed, Planned} then [Send(NodeSettled(run, nodeId, NodeCompleted))]
    else if p.status == WaitingForApproval then [Send(NodeSettled(run, nodeId, NodeWaiting))]
    else if p.status in {PlanStatus.Failed, Cancelled, ReplanRequired} then [Send(NodeSettled(run, nodeId, NodeFailed))]
    else []
  }

  /** The last recorded output of each tool of the first `n` actions. */
  function Outputs(p: AgentPlan, results: map<(RunId, string), string>, n: nat): map<string, string>
    requires n <= |p.actions|
  {
    if n == 0 then map[]
    else
      var a := p.actions[n - 1];
      var before := Outputs(p, results, n - 1);
      if (p.planId, a.actionId) in results then before[a.toolName := results[(p.planId, a.actionId)]] else before
  }

  /** `_build_result` for the node's sub-plan. */
  function BuildResult(s: Store, run: RunId, nodeId: string): SubAgentResult {
    var pid := SubPlanId(run, nodeId);
    if pid in s.plans then SubAgentResult(nodeId, Outputs(s.plans[pid], s.actionResults, |s.plans[pid].actions|))
    else SubAgentResult(nodeId, map[])
  }

  function Tasks(run: RunId, nodes: seq<SubTask>): seq<Message> {
    seq(|nodes|, i requires 0 <= i < |nodes| => Send(TaskRequested(run, nodes[i].nodeId)))
  }

  /** The tasks an outcome of the graph calls for. */
  function Dispatch(run: RunId, a: Advance): seq<Message> {
    Tasks(run, a.newlyReady) + if a.dispatchSynthesizer.Some? then Tasks(run, [a.dispatchSynthesizer.value]) else []
  }

  /** `_handle_completed`. */
  function HandleSettled(s: Store, run: RunId, nodeId: string, outcome: NodeOutcome): (Store, seq<Message>) {
    if outcome.NodeWaiting? || run !in s.graphs then (s, [])
    else
      var a := s.graphs[run].Advanced(nodeId, if outcome.NodeCompleted? then SubTaskStatus.Completed else SubTaskStatus.Failed);
      if a.alreadyProcessed then (s.SaveGraph(a.graph), []) else FollowUp(s.SaveGraph(a.graph), run, nodeId, outcome, a)
  }

  /** What outcome `a` of the graph has reported of the run, in order. */
  function Reports(run: RunId, a: Advance): seq<Report> {
    if a.runFailed then [RunFailed(run)]
    else (if a.runCompleted then [RunCompleted(run)] else []) + if a.blocked then [RunFailed(run)] else []
  }

  /** What follows from outcome `a` of the graph, which is news: the node's result, the report of the run, the tasks it calls for. */
  function FollowUp(s: Store, run: RunId, nodeId: string, outcome: NodeOutcome, a: Advance): (Store, seq<Message>) {
    var stored := if outcome.NodeCompleted? && !a.isSynthesizer then s.SaveSubAgentResult(run, BuildResult(s, run, nodeId)) else s;
    (stored.(reports := stored.reports + Reports(run, a)), if a.runFailed then [] else Dispatch(run, a))
  }

  // ---------------------------------------------------------------------
  // Triggers
  // ---------------------------------------------------------------------

  /** Where the router sends a trigger: nowhere, to a workflow with a task graph, or to a single plan. */
  datatype Route = Ignored | Orchestrated(nodes: seq<SubTask>, synthesizer: Option<SubTask>) | Whole(proposal: Proposal)

  /** `_handle_orchestrated`, for a run that has not been closed elsewhere. */
  function HandleOrchestrated(s: Store, run: RunId, nodes: seq<SubTask>, synthesizer: Option<SubTask>): (Store, seq<Message>) {
    if run in s.graphs then (s, [])
    else
      var a := TaskGraph(run, 0, nodes, synthesizer).Claimed();
      var saved := s.SaveGraph(a.graph);
      if a.newlyReady == [] then (saved.Reported(RunFailed(run)), []) else (saved, Tasks(run, a.newlyReady))
  }

  /** The first action of a plan, or the failure of one that has nothing to do. */
  function StartPlan(s: Store, p: AgentPlan): (Store, seq<Message>) {
    var first := p.NextPendingAction();
    if first.Some? then (s, [Send(ActionRequested(p.planId, first.value.actionId))])
    else if p.status in {PlanStatus.Completed, PlanStatus.Failed, Cancelled, WaitingForApproval, ReplanRequired} then (s, [])
    else (s.SavePlan(p.(status := PlanStatus.Failed)).Reported(RunFailed(p.planId)), [])
  }

  /** `DomainEventHandler.handle` for a workflow without a task graph: resume, replan or create the plan. */
  function HandleWhole(s: Store, e: Source, proposal: Proposal): (Store, seq<Message>) {
    var run := RunOf(e);
    if run in s.plans && !(s.plans[run].status == ReplanRequired && e.replan) then StartPlan(s, s.plans[run])
    else
      var p := PlanForNode(ROOT_NODE_ID, e, run, proposal.drafts, proposal.approval);
      var root := SubTask(ROOT_NODE_ID, [], SubTaskStatus.Pending);
      StartPlan(s.SaveGraph(TaskGraph(run, 0, [root], None)).SavePlan(p), p)
  }

  /** Everything outside the runtime that one delivery may ask. */
  datatype World = World(oracle: nat -> Outcome, proposal: Proposal, route: Route, correlation: Option<string>)

  /** One delivered message. */
  function Handle(s: Store, m: Message, w: World, answers: nat, inlined: nat): Handled {
    match m.body
    case Notice(_) => Handled(s, [], answers, inlined, false)
    case ActionRequested(pid, aid) => HandleAction(s, pid, aid, m.attempt, w.correlation, w.oracle, answers, inlined)
    case TaskRequested(run, nodeId) =>
      var r := HandleTask(s, run, nodeId, w.proposal);
      Handled(r.0, r.1, answers, inlined, false)
    case NodeSettled(run, nodeId, outcome) =>
      var r := HandleSettled(s, run, nodeId, outcome);
      Handled(r.0, r.1, answers, inlined, false)
    case Trigger(e) =>
      var r := match w.route
        case Ignored => (s, [])
        case Orchestrated(nodes, synthesizer) => HandleOrchestrated(s, RunOf(e), nodes, synthesizer)
        case Whole(proposal) => HandleWhole(s, e, proposal);
      Handled(r.0, r.1, answers, inlined, false)
  }

  // ---------------------------------------------------------------------
  // At-least-once delivery
  // ---------------------------------------------------------------------

  /** The shared store, the waiting messages, and every message ever sent. */
  datatype Net = Net(store: Store, bag: seq<Message>, sent: set<Message>)

  /**
    `Deliver` hands the waiting message at position `at` to its handler, with the answers it will get
    and the inline steps its process has used; `Redeliver` copies any message ever sent.
   */
  datatype Choice = Deliver(at: nat, world: World, inlined: nat) | Redeliver(message: Message)
}
