/**
  The whole orchestrated run as one transition system: the shared store, the messages waiting to be
  delivered, and every message ever sent. A step delivers any waiting message, in any order, or puts
  a copy of any message ever sent back among the waiting ones (at-least-once delivery). Validator,
  executor, planner and the remaining inline budget are chosen anew at every step.
 */
module Orchestration {
  import opened Common
  import opened Events
  import opened Subtasks
  import opened JoinProtocol
  import opened Confluence
  import opened Plans
  import opened Planner
  import opened Runtime

  // ---------------------------------------------------------------------
  // What every reachable state satisfies
  // ---------------------------------------------------------------------

  /** What a sub-plan has to look like when its node is told to have settled as `o`. */
  predicate Ended(p: AgentPlan, o: NodeOutcome) {
    match o
    case NodeCompleted => p.status == PlanStatus.Completed || p.actions == []
    case NodeFailed => p.status == PlanStatus.Failed || p.status == ReplanRequired
    case NodeWaiting => p.status == WaitingForApproval
  }

  /** `p` is the sub-plan of one of the run's units that has started, a chain with keys of its own. */
  ghost predicate PlanOk(run: RunId, g: TaskGraph, pid: RunId, p: AgentPlan) {
    && p.planId == pid && p.parentRunId == Some(run) && p.nodeId.Some? && pid == SubPlanId(run, p.nodeId.value)
    && Started(g, p.nodeId.value)
    && Shaped(p) && Keyed(p.actions, pid.id)
  }

  /** Action `aid` of the plan had its turn already, or it is its turn. */
  ghost predicate Reached(p: AgentPlan, aid: string) {
    exists i :: 0 <= i <= Frontier(p.actions) && i < |p.actions| && p.actions[i].actionId == aid
  }

  /** The statuses under which an action's key is recorded. */
  predicate Consumed(s: ActionStatus) {
    s == ActionStatus.Completed || s == RequiresApproval
  }

  ghost predicate HasKey(plans: map<RunId, AgentPlan>, key: string) {
    exists pid, i :: pid in plans && 0 <= i < |plans[pid].actions|
      && plans[pid].actions[i].idempotencyKey == key && Consumed(plans[pid].actions[i].status)
  }

  predicate IsCommitted(plans: map<RunId, AgentPlan>, pid: RunId, aid: string) {
    pid in plans && plans[pid].GetAction(aid).Some? && plans[pid].GetAction(aid).value.status == ActionStatus.Completed
  }

  /** A message that may be sent in state `s`. */
  ghost predicate MessageOk(run: RunId, s: Store, m: Message)
    requires run in s.graphs
  {
    match m.body
    case Trigger(e) => RunOf(e) == run
    case Notice(_) => true
    case ActionRequested(pid, aid) => pid in s.plans && Reached(s.plans[pid], aid)
    case TaskRequested(r, u) => r == run && Started(s.graphs[run], u)
    case NodeSettled(r, u, o) => r == run && SubPlanId(run, u) in s.plans && Ended(s.plans[SubPlanId(run, u)], o)
  }

  predicate HasStatus(g: TaskGraph, u: string, status: SubTaskStatus) {
    g.GetNode(u).Some? && g.GetNode(u).value.status == status
  }

  /** A terminal node settled the way its sub-plan ended. */
  ghost predicate NodesAgree(run: RunId, s: Store)
    requires run in s.graphs
  {
    forall u ::
      && (HasStatus(s.graphs[run], u, SubTaskStatus.Completed) ==>
            SubPlanId(run, u) in s.plans && Ended(s.plans[SubPlanId(run, u)], NodeCompleted))
      && (HasStatus(s.graphs[run], u, SubTaskStatus.Failed) ==>
            SubPlanId(run, u) in s.plans && Ended(s.plans[SubPlanId(run, u)], NodeFailed))
  }

  /** Every completed node's result is stored, ready for the synthesizer: the outputs of its sub-plan. */
  ghost predicate ResultsStored(run: RunId, s: Store)
    requires run in s.graphs
  {
    forall u :: u in s.graphs[run].CompletedNodeIds() ==> run in s.subResults && u in s.subResults[run] && s.subResults[run][u] == BuildResult(s, run, u)
  }

  /** The run is reported completed once exactly if it is finished, and failed exactly if something failed or nothing can move. */
  ghost predicate ReportsAgree(run: RunId, s: Store)
    requires run in s.graphs
  {
    && multiset(s.reports)[RunCompleted(run)] == (if Finished(s.graphs[run]) then 1 else 0)
    && (RunFailed(run) in s.reports <==> HasFailure(s.graphs[run]) || Stuck(s.graphs[run]))
  }

  ghost predicate GraphOk(run: RunId, s: Store) {
    && run in s.graphs && Safe(s.graphs[run]) && s.graphs[run].planId == run
    && s.graphs[run].GetNode(ROOT_NODE_ID).None?
  }

  ghost predicate PlansOk(run: RunId, s: Store)
    requires run in s.graphs
  {
    forall pid :: pid in s.plans ==> PlanOk(run, s.graphs[run], pid, s.plans[pid])
  }

  /** The recorded keys are those of the actions that are COMPLETED or REQUIRES_APPROVAL. */
  ghost predicate KeysOk(plans: map<RunId, AgentPlan>, keys: set<string>) {
    forall key :: key in keys <==> HasKey(plans, key)
  }

  /** An action's result was accepted once if it is COMPLETED, and never otherwise. */
  ghost predicate CommitsOk(plans: map<RunId, AgentPlan>, commits: multiset<(RunId, string)>) {
    forall pid, aid :: commits[(pid, aid)] == if IsCommitted(plans, pid, aid) then 1 else 0
  }

  ghost predicate StoreOk(run: RunId, s: Store) {
    && GraphOk(run, s) && PlansOk(run, s) && KeysOk(s.plans, s.keys) && CommitsOk(s.plans, s.commits)
    && NodesAgree(run, s) && ResultsStored(run, s) && ReportsAgree(run, s)
  }

  ghost predicate HasAction(bag: set<Message>, pid: RunId) {
    exists m :: m in bag && m.body.ActionRequested? && m.body.plan == pid
  }

  ghost predicate HasBody(bag: set<Message>, body: Body) {
    exists m :: m in bag && m.body == body
  }

  /** Something still waiting moves the plan of unit `u` on, or makes it settle; or the plan waits for approval. */
  ghost predicate PlanLive(run: RunId, p: AgentPlan, bag: set<Message>, u: string) {
    || p.status == WaitingForApproval
    || (Ended(p, NodeCompleted) && HasBody(bag, NodeSettled(run, u, NodeCompleted)))
    || (Ended(p, NodeFailed) && HasBody(bag, NodeSettled(run, u, NodeFailed)))
    || (!Ended(p, NodeFailed) && HasAction(bag, SubPlanId(run, u)))
  }

  /** No RUNNING unit is forgotten. */
  ghost predicate Live(run: RunId, s: Store, bag: set<Message>)
    requires run in s.graphs
  {
    forall u :: HasStatus(s.graphs[run], u, SubTaskStatus.Running) ==>
      || HasBody(bag, TaskRequested(run, u))
      || (SubPlanId(run, u) in s.plans && PlanLive(run, s.plans[SubPlanId(run, u)], bag, u))
  }

  ghost predicate Inv(run: RunId, s: Store, bag: set<Message>, sent: set<Message>) {
    && StoreOk(run, s)
    && (forall m :: m in sent ==> MessageOk(run, s, m))
    && bag <= sent
    && Live(run, s, bag)
  }

  // ---------------------------------------------------------------------
  // Facts about plans, keys and ids
  // ---------------------------------------------------------------------

  lemma SubPlanIdIsInjective(run: RunId, u: string, v: string)
    requires SubPlanId(run, u) == SubPlanId(run, v)
    ensures u == v
  {
    var a, b := run.id + "::" + u, run.id + "::" + v;
    assert u == a[|run.id| + 2..] && v == b[|run.id| + 2..];
  }

  /** Plans of one run share no key, and no plan uses a key twice. */
  lemma KeyOwner(run: RunId, s: Store, pid: RunId, i: nat, qid: RunId, j: nat)
    requires run in s.graphs && PlansOk(run, s) && pid in s.plans && qid in s.plans
    requires i < |s.plans[pid].actions| && j < |s.plans[qid].actions|
    requires s.plans[pid].actions[i].idempotencyKey == s.plans[qid].actions[j].idempotencyKey
    ensures pid == qid && i == j
  {
    assert PlanOk(run, s.graphs[run], pid, s.plans[pid]) && PlanOk(run, s.graphs[run], qid, s.plans[qid]);
    KeyTells(s.plans[pid].actions, pid.id, i, s.plans[qid].actions, qid.id, j);
  }

  /** A key is recorded exactly when its action is COMPLETED or REQUIRES_APPROVAL. */
  lemma KeyRecordedExactly(run: RunId, s: Store, pid: RunId, i: nat)
    requires run in s.graphs && PlansOk(run, s) && KeysOk(s.plans, s.keys) && pid in s.plans && i < |s.plans[pid].actions|
    ensures s.plans[pid].actions[i].idempotencyKey in s.keys <==> Consumed(s.plans[pid].actions[i].status)
  {
    var key := s.plans[pid].actions[i].idempotencyKey;
    if HasKey(s.plans, key) {
      var qid, j :| qid in s.plans && 0 <= j < |s.plans[qid].actions|
        && s.plans[qid].actions[j].idempotencyKey == key && Consumed(s.plans[qid].actions[j].status);
      KeyOwner(run, s, pid, i, qid, j);
    }
  }

  lemma EndedOneWay(p: AgentPlan)
    requires Shaped(p)
    ensures !(Ended(p, NodeCompleted) && Ended(p, NodeFailed))
    ensures !(Ended(p, NodeWaiting) && (Ended(p, NodeCompleted) || Ended(p, NodeFailed)))
    ensures p.NextPendingAction().Some? ==> !Ended(p, NodeCompleted) && !Ended(p, NodeFailed) && !Ended(p, NodeWaiting)
    ensures p.NextPendingAction().None? ==> Ended(p, NodeCompleted) || Ended(p, NodeFailed) || Ended(p, NodeWaiting)
  {
    NextIsFrontier(p);
  }

  // ---------------------------------------------------------------------
  // A plan takes its turn
  // ---------------------------------------------------------------------

  /** Plan `q` is `p` with its `k`-th action, so far PENDING, in `status`. */
  ghost predicate Moves(p: AgentPlan, k: nat, status: ActionStatus, q: AgentPlan) {
    && k < |p.actions| && p.actions[k].status == ActionStatus.Pending
    && q == p.(actions := p.actions[k := p.actions[k].WithStatus(status)], status := q.status)
  }

  lemma MoveKeys(plans: map<RunId, AgentPlan>, keys: set<string>, pid: RunId, k: nat, status: ActionStatus, q: AgentPlan)
    requires KeysOk(plans, keys) && pid in plans && Moves(plans[pid], k, status, q)
    ensures KeysOk(plans[pid := q], keys + (if Consumed(status) then {q.actions[k].idempotencyKey} else {}))
  {
    var after := plans[pid := q];
    var recorded := keys + (if Consumed(status) then {q.actions[k].idempotencyKey} else {});
    forall key ensures key in recorded <==> HasKey(after, key) {
      if key in keys {
        var qid, j :| qid in plans && 0 <= j < |plans[qid].actions|
          && plans[qid].actions[j].idempotencyKey == key && Consumed(plans[qid].actions[j].status);
        assert after[qid].actions[j] == plans[qid].actions[j];
      }
      if Consumed(status) {
        assert after[pid].actions[k].idempotencyKey == q.actions[k].idempotencyKey;
        assert HasKey(after, q.actions[k].idempotencyKey);
      }
      if HasKey(after, key) {
        var qid, j :| qid in after && 0 <= j < |after[qid].actions|
          && after[qid].actions[j].idempotencyKey == key && Consumed(after[qid].actions[j].status);
        if qid != pid || j != k {
          assert plans[qid].actions[j] == after[qid].actions[j];
        }
      }
    }
  }

  lemma MoveCommits(plans: map<RunId, AgentPlan>, commits: multiset<(RunId, string)>, pid: RunId, k: nat, status: ActionStatus, q: AgentPlan)
    requires CommitsOk(plans, commits) && pid in plans && Moves(plans[pid], k, status, q) && UniqueActions(plans[pid].actions)
    ensures CommitsOk(plans[pid := q],
                      commits + (if status == ActionStatus.Completed then multiset{(pid, q.actions[k].actionId)} else multiset{}))
  {
    var p := plans[pid];
    FindActionAt(p.actions, k);
    assert UniqueActions(q.actions);
    FindActionAt(q.actions, k);
    var done := commits + (if status == ActionStatus.Completed then multiset{(pid, q.actions[k].actionId)} else multiset{});
    forall qid, aid ensures done[(qid, aid)] == if IsCommitted(plans[pid := q], qid, aid) then 1 else 0 {
      if qid == pid && aid != p.actions[k].actionId {
        SameFind(p.actions, k, p.actions[k].WithStatus(status), aid);
      }
    }
  }

  lemma {:induction false} SameFind(actions: seq<PlannedAction>, k: nat, a: PlannedAction, aid: string)
    requires k < |actions| && a.actionId == actions[k].actionId != aid
    ensures FindAction(actions[k := a], aid) == FindAction(actions, aid)
  {
    if k > 0 {
      assert actions[k := a][1..] == actions[1..][k - 1 := a];
      SameFind(actions[1..], k - 1, a, aid);
    } else {
      assert actions[k := a][1..] == actions[1..];
    }
  }

  lemma MoveReaches(p: AgentPlan, k: nat, status: ActionStatus, q: AgentPlan, aid: string)
    requires Moves(p, k, status, q) && Frontier(p.actions) == k <= Frontier(q.actions) && Reached(p, aid)
    ensures Reached(q, aid)
  {
    var i :| 0 <= i <= Frontier(p.actions) && i < |p.actions| && p.actions[i].actionId == aid;
    assert q.actions[i].actionId == aid;
  }

  /** The results of actions of other plans than `pid` are the same. */
  ghost predicate ResultsApart(before: map<(RunId, string), string>, after: map<(RunId, string), string>, pid: RunId) {
    forall q, x :: q != pid ==> ((q, x) in before <==> (q, x) in after) && ((q, x) in before ==> after[(q, x)] == before[(q, x)])
  }

  lemma {:induction false} SameOutputs(p: AgentPlan, before: map<(RunId, string), string>, after: map<(RunId, string), string>, n: nat, pid: RunId)
    requires n <= |p.actions| && ResultsApart(before, after, pid) && p.planId != pid
    ensures Outputs(p, before, n) == Outputs(p, after, n)
  {
    if n > 0 {
      SameOutputs(p, before, after, n - 1, pid);
    }
  }

  /** The result of a unit whose plan did not change is the same. */
  lemma SameResult(run: RunId, s: Store, t: Store, u: string, pid: RunId)
    requires ResultsApart(s.actionResults, t.actionResults, pid) && SubPlanId(run, u) != pid
    requires SubPlanId(run, u) in s.plans && s.plans[SubPlanId(run, u)].planId == SubPlanId(run, u)
    requires SubPlanId(run, u) in t.plans && t.plans[SubPlanId(run, u)] == s.plans[SubPlanId(run, u)]
    ensures BuildResult(t, run, u) == BuildResult(s, run, u)
  {
    hide Outputs;
    SameOutputs(s.plans[SubPlanId(run, u)], s.actionResults, t.actionResults, |s.plans[SubPlanId(run, u)].actions|, pid);
  }

  /** A COMPLETED node has a COMPLETED sub-plan of its own. */
  lemma CompletedHasPlan(run: RunId, s: Store, u: string)
    requires GraphOk(run, s) && PlansOk(run, s) && NodesAgree(run, s) && u in s.graphs[run].CompletedNodeIds()
    ensures SubPlanId(run, u) in s.plans && Ended(s.plans[SubPlanId(run, u)], NodeCompleted) && s.plans[SubPlanId(run, u)].planId == SubPlanId(run, u)
  {
    hide Shaped, Keyed, SubPlanId, Ended;
    var g := s.graphs[run];
    var i :| 0 <= i < |g.nodes| && g.nodes[i].status == SubTaskStatus.Completed && g.nodes[i].nodeId == u;
    NodeIsUnit(g);
    assert HasStatus(g, u, SubTaskStatus.Completed);
    assert PlanOk(run, g, SubPlanId(run, u), s.plans[SubPlanId(run, u)]);
  }

  /** Stored results stay right when a plan that has not ended changes, or a plan is added. */
  lemma ResultsStay(run: RunId, s: Store, t: Store, pid: RunId)
    requires GraphOk(run, s) && PlansOk(run, s) && NodesAgree(run, s) && ResultsStored(run, s) && t.graphs == s.graphs && t.subResults == s.subResults
    requires ResultsApart(s.actionResults, t.actionResults, pid) && (pid in s.plans ==> !Ended(s.plans[pid], NodeCompleted))
    requires forall q :: q in s.plans && q != pid ==> q in t.plans && t.plans[q] == s.plans[q]
    ensures ResultsStored(run, t)
  {
    hide GraphOk, PlansOk, NodesAgree, Ended, SubPlanId, BuildResult, ResultsApart;
    GraphOkSays(run, s);
    forall u | u in t.graphs[run].CompletedNodeIds()
      ensures run in t.subResults && u in t.subResults[run] && t.subResults[run][u] == BuildResult(t, run, u) {
      CompletedHasPlan(run, s, u);
      SameResult(run, s, t, u, pid);
    }
  }

  /** `t` is `s` after the action whose turn it is in plan `pid` went to `status`; `q` is the plan then. */
  ghost predicate Turned(s: Store, t: Store, pid: RunId, q: AgentPlan, status: ActionStatus) {
    && pid in s.plans && Shaped(s.plans[pid]) && (Resting(status) || status == ActionStatus.Completed)
    && var k := Frontier(s.plans[pid].actions);
    && k < |s.plans[pid].actions| && s.plans[pid].actions[k].status == ActionStatus.Pending
    && var a := s.plans[pid].actions[k];
    && q == s.plans[pid].ReplaceAction(a.WithStatus(status))
    && t.plans == s.plans[pid := q] && t.graphs == s.graphs && t.subResults == s.subResults && t.reports == s.reports
    && ResultsApart(s.actionResults, t.actionResults, pid)
    && t.keys == s.keys + (if Consumed(status) then {a.idempotencyKey} else {})
    && t.commits == s.commits + (if status == ActionStatus.Completed then multiset{(pid, a.actionId)} else multiset{})
  }

  /** A turn of a plan: one action moves, the chain stays, and no unit can have settled on the plan before. */
  lemma TurnOf(p: AgentPlan, status: ActionStatus, q: AgentPlan)
    requires Shaped(p) && Frontier(p.actions) < |p.actions| && p.actions[Frontier(p.actions)].status == ActionStatus.Pending
    requires Resting(status) || status == ActionStatus.Completed
    requires q == p.ReplaceAction(p.actions[Frontier(p.actions)].WithStatus(status))
    ensures Moves(p, Frontier(p.actions), status, q) && Shaped(q)
    ensures Frontier(q.actions) == Frontier(p.actions) + (if status == ActionStatus.Completed then 1 else 0)
    ensures forall o :: !Ended(p, o)
  {
    hide Replaced, StatusOf, UniqueActions, Chained;
    TurnKeepsShape(p, status);
  }

  lemma MoveKeyed(p: AgentPlan, k: nat, status: ActionStatus, q: AgentPlan, prefix: string)
    requires Moves(p, k, status, q) && Keyed(p.actions, prefix)
    ensures Keyed(q.actions, prefix)
  {
    forall i | 0 <= i < |q.actions|
      ensures Plain(q.actions[i].toolName) && q.actions[i].idempotencyKey == Key(prefix, q.actions[i].toolName, i + 1) {
      assert q.actions[i].toolName == p.actions[i].toolName && q.actions[i].idempotencyKey == p.actions[i].idempotencyKey;
    }
  }

  /** A turn keeps the plan's identity and chain. */
  lemma TurnPlan(run: RunId, s: Store, t: Store, pid: RunId, q: AgentPlan, status: ActionStatus)
    requires run in s.graphs && Turned(s, t, pid, q, status) && PlanOk(run, s.graphs[run], pid, s.plans[pid])
    ensures PlanOk(run, s.graphs[run], pid, q)
    ensures Moves(s.plans[pid], Frontier(s.plans[pid].actions), status, q)
    ensures Frontier(q.actions) == Frontier(s.plans[pid].actions) + (if status == ActionStatus.Completed then 1 else 0)
    ensures forall o :: !Ended(s.plans[pid], o)
  {
    TurnOf(s.plans[pid], status, q);
    MoveKeyed(s.plans[pid], Frontier(s.plans[pid].actions), status, q, pid.id);
  }

  lemma TurnNodes(run: RunId, s: Store, t: Store, pid: RunId)
    requires run in s.graphs && NodesAgree(run, s) && t.graphs == s.graphs
    requires pid in s.plans && forall o :: !Ended(s.plans[pid], o)
    requires pid in t.plans && t.plans == s.plans[pid := t.plans[pid]]
    ensures NodesAgree(run, t)
  {
    forall u
      ensures HasStatus(s.graphs[run], u, SubTaskStatus.Completed) ==>
                SubPlanId(run, u) in t.plans && Ended(t.plans[SubPlanId(run, u)], NodeCompleted)
      ensures HasStatus(s.graphs[run], u, SubTaskStatus.Failed) ==>
                SubPlanId(run, u) in t.plans && Ended(t.plans[SubPlanId(run, u)], NodeFailed)
    {
      assert SubPlanId(run, u) != pid ==> (SubPlanId(run, u) in t.plans <==> SubPlanId(run, u) in s.plans);
    }
  }

  lemma PlansAfter(run: RunId, s: Store, t: Store, pid: RunId)
    requires run in s.graphs && PlansOk(run, s) && t.graphs == s.graphs
    requires pid in t.plans && t.plans == s.plans[pid := t.plans[pid]] && PlanOk(run, s.graphs[run], pid, t.plans[pid])
    ensures PlansOk(run, t)
  {
    forall qid | qid in t.plans ensures PlanOk(run, t.graphs[run], qid, t.plans[qid]) {
      assert qid != pid ==> t.plans[qid] == s.plans[qid];
    }
  }

  /** A turn keeps the store in order. */
  lemma TurnKeepsStore(run: RunId, s: Store, t: Store, pid: RunId, q: AgentPlan, status: ActionStatus)
    requires StoreOk(run, s) && Turned(s, t, pid, q, status)
    ensures StoreOk(run, t)
  {
    hide Shaped, Keyed, SubPlanId, Ended, KeysOk, CommitsOk, NodesAgree, ResultsStored, ResultsApart, AgentPlan.ReplaceAction, Safe, Finished,
         HasFailure, Stuck;
    assert PlanOk(run, s.graphs[run], pid, s.plans[pid]);
    TurnPlan(run, s, t, pid, q, status);
    TurnKeepsLedger(s, t, pid, q, status);
    TurnNodes(run, s, t, pid);
    ResultsStay(run, s, t, pid);
    PlansAfter(run, s, t, pid);
  }

  lemma TurnKeepsLedger(s: Store, t: Store, pid: RunId, q: AgentPlan, status: ActionStatus)
    requires Turned(s, t, pid, q, status) && KeysOk(s.plans, s.keys) && CommitsOk(s.plans, s.commits)
    ensures KeysOk(t.plans, t.keys) && CommitsOk(t.plans, t.commits)
  {
    hide KeysOk, CommitsOk, ResultsApart, Replaced, StatusOf;
    var k := Frontier(s.plans[pid].actions);
    TurnOf(s.plans[pid], status, q);
    MoveKeys(s.plans, s.keys, pid, k, status, q);
    MoveCommits(s.plans, s.commits, pid, k, status, q);
    assert q.actions[k].idempotencyKey == s.plans[pid].actions[k].idempotencyKey;
    assert q.actions[k].actionId == s.plans[pid].actions[k].actionId;
  }

  /** A turn keeps every message ever sent acceptable. */
  lemma TurnKeepsMessages(run: RunId, s: Store, t: Store, pid: RunId, q: AgentPlan, status: ActionStatus, m: Message)
    requires run in s.graphs && Turned(s, t, pid, q, status) && PlanOk(run, s.graphs[run], pid, s.plans[pid])
    requires MessageOk(run, s, m)
    ensures MessageOk(run, t, m)
  {
    hide PlanOk, Ended, SubPlanId, Shaped, Keyed, Reached, AgentPlan.ReplaceAction;
    TurnPlan(run, s, t, pid, q, status);
    if m.body.ActionRequested? && m.body.plan == pid {
      MoveReaches(s.plans[pid], Frontier(s.plans[pid].actions), status, q, m.body.actionId);
    }
  }

  // ---------------------------------------------------------------------
  // Delivering an action event
  // ---------------------------------------------------------------------

  /** A message that plan `q`, of unit `u`, may send. */
  ghost predicate FromPlan(run: RunId, u: string, q: AgentPlan, m: Message) {
    || m.body.Notice?
    || (m.body.ActionRequested? && m.body.plan == q.planId && Reached(q, m.body.actionId))
    || (m.body.NodeSettled? && m.body.run == run && m.body.nodeId == u && Ended(q, m.body.outcome))
  }

  /** After the visit the plan waits for approval, or what it needs next has been sent or chosen. */
  ghost predicate Follows(run: RunId, u: string, q: AgentPlan, v: Visited) {
    || q.status == WaitingForApproval
    || (Ended(q, NodeCompleted) && Send(NodeSettled(run, u, NodeCompleted)) in v.sent)
    || (Ended(q, NodeFailed) && Send(NodeSettled(run, u, NodeFailed)) in v.sent)
    || (!Ended(q, NodeFailed) && (v.next.Some? || exists m :: m in v.sent && m.body.ActionRequested? && m.body.plan == q.planId))
  }

  /** What one visit of plan `pid` does: at most one turn of that plan, and messages that fit the plan it leaves. */
  ghost predicate VisitOk(run: RunId, s: Store, pid: RunId, v: Visited)
    requires pid in s.plans && s.plans[pid].nodeId.Some?
  {
    var u := s.plans[pid].nodeId.value;
    && !v.raised && pid in v.store.plans
    && (v.store == s || exists status :: Turned(s, v.store, pid, v.store.plans[pid], status))
    && (forall m :: m in v.sent ==> FromPlan(run, u, v.store.plans[pid], m))
    && (v.next.Some? ==> FromPlan(run, u, v.store.plans[pid], Send(ActionRequested(pid, v.next.value.actionId))))
    && (Follows(run, u, v.store.plans[pid], v) || (v.store == s && Ended(s.plans[pid], NodeFailed)))
  }

  lemma ChooseNextIsOk(run: RunId, u: string, t: Store, q: AgentPlan, sent: seq<Message>)
    requires Shaped(q) && q.actions != [] && q.parentRunId == Some(run) && q.nodeId == Some(u)
    requires forall m :: m in sent ==> m.body.Notice?
    ensures var v := ChooseNext(t, q, sent);
            && !v.raised && v.store == t
            && (forall m :: m in v.sent ==> FromPlan(run, u, q, m))
            && (v.next.Some? ==> FromPlan(run, u, q, Send(ActionRequested(q.planId, v.next.value.actionId))))
            && (Follows(run, u, q, v) || Ended(q, NodeFailed))
  {
    NextIsFrontier(q);
    EndedOneWay(q);
    var k := Frontier(q.actions);
    if q.NextPendingAction().Some? {
      assert q.actions[k].actionId == q.NextPendingAction().value.actionId;
    }
    var v := ChooseNext(t, q, sent);
    if v.next.None? && q.status == PlanStatus.Completed {
      assert v.sent[|sent|] == Send(NodeSettled(run, u, NodeCompleted));
    }
  }

  lemma EndIsOk(run: RunId, s: Store, t: Store, pid: RunId, a: PlannedAction, status: ActionStatus, o: NodeOutcome, sent: seq<Message>)
    requires pid in s.plans && run in s.graphs && PlanOk(run, s.graphs[run], pid, s.plans[pid])
    requires Frontier(s.plans[pid].actions) < |s.plans[pid].actions| && a == s.plans[pid].actions[Frontier(s.plans[pid].actions)]
    requires a.status == ActionStatus.Pending && forall m :: m in sent ==> m.body.Notice?
    requires (status == RequiresApproval && o == NodeWaiting) || (status in {ActionStatus.Failed, Stale} && o == NodeFailed)
    requires t.plans == s.plans
    ensures var q := s.plans[pid].ReplaceAction(a.WithStatus(status));
            var v := End(t, s.plans[pid], a, status, o, sent);
            && q.planId == pid && v.store == t.SavePlan(q) && v.next.None? && !v.raised
            && (forall m :: m in v.sent ==> FromPlan(run, s.plans[pid].nodeId.value, q, m))
            && Follows(run, s.plans[pid].nodeId.value, q, v)
  {
    TurnKeepsShape(s.plans[pid], status);
    var v := End(t, s.plans[pid], a, status, o, sent);
    assert v.sent[|sent|] == Send(NodeSettled(run, s.plans[pid].nodeId.value, o));
  }

  lemma NoticesAreNotices(events: seq<string>)
    ensures forall m :: m in Notices(events) ==> m.body.Notice?
  {
  }

  /** The transient RUNNING status leaves no trace in what execution stores. */
  lemma ExecuteForm(s: Store, p: AgentPlan, a: PlannedAction, attempt: nat, o: Outcome)
    ensures var called := s.(executions := s.executions + multiset{(p.planId, a.actionId)});
            Execute(s, p, a, attempt, o) ==
            match o.call
            case Raised => End(called, p, a, ActionStatus.Failed, NodeFailed, []).(raised := !p.IsSubplan())
            case Returned(output, decision, events) =>
              var saved := called.SaveActionResult(p.planId, a.actionId, output);
              if decision == Commit then
                var q := p.ReplaceAction(a.WithStatus(ActionStatus.Completed));
                var done := saved.SavePlan(q).RecordKey(a.idempotencyKey);
                ChooseNext(done.(commits := done.commits + multiset{(p.planId, a.actionId)}), q, Notices(events))
              else if decision == Retry && attempt + 1 < ACTION_EXECUTION_ATTEMPTS then
                Visited(saved.SavePlan(p.ReplaceAction(a.WithStatus(ActionStatus.Pending))),
                        [Message(ActionRequested(p.planId, a.actionId), attempt + 1)], None, false)
              else End(saved, p, a, ActionStatus.Failed, NodeFailed, [])
  {
    ReplaceTwice(p, a, ActionStatus.Running, ActionStatus.Failed);
    ReplaceTwice(p, a, ActionStatus.Running, ActionStatus.Pending);
    ReplaceTwice(p, a, ActionStatus.Running, ActionStatus.Completed);
  }

  /** Unit `pid` has action `a`, still PENDING, on turn. */
  ghost predicate OnTurn(run: RunId, s: Store, pid: RunId, a: PlannedAction) {
    && pid in s.plans && run in s.graphs && PlanOk(run, s.graphs[run], pid, s.plans[pid])
    && Frontier(s.plans[pid].actions) < |s.plans[pid].actions| && a == s.plans[pid].actions[Frontier(s.plans[pid].actions)]
    && a.status == ActionStatus.Pending
  }

  /** An end stored in `t`, which differs from `s` in logs and results only. */
  lemma EndVisit(run: RunId, s: Store, t: Store, pid: RunId, a: PlannedAction, status: ActionStatus, o: NodeOutcome, sent: seq<Message>)
    requires OnTurn(run, s, pid, a) && forall m :: m in sent ==> m.body.Notice?
    requires (status == RequiresApproval && o == NodeWaiting) || (status in {ActionStatus.Failed, Stale} && o == NodeFailed)
    requires t.plans == s.plans && t.graphs == s.graphs && t.subResults == s.subResults && t.reports == s.reports && t.commits == s.commits
    requires t.keys == s.keys && ResultsApart(s.actionResults, t.actionResults, pid)
    ensures var v := End(t, s.plans[pid], a, status, o, sent);
            VisitOk(run, s, pid, if status == RequiresApproval then v.(store := v.store.RecordKey(a.idempotencyKey)) else v)
  {
    EndIsOk(run, s, t, pid, a, status, o, sent);
    var v := End(t, s.plans[pid], a, status, o, sent);
    var store := if status == RequiresApproval then v.store.RecordKey(a.idempotencyKey) else v.store;
    assert Turned(s, store, pid, store.plans[pid], status);
  }

  lemma CommitVisit(run: RunId, s: Store, t: Store, pid: RunId, a: PlannedAction, events: seq<string>)
    requires OnTurn(run, s, pid, a)
    requires Turned(s, t, pid, s.plans[pid].ReplaceAction(a.WithStatus(ActionStatus.Completed)), ActionStatus.Completed)
    ensures VisitOk(run, s, pid, ChooseNext(t, t.plans[pid], Notices(events)))
  {
    TurnKeepsShape(s.plans[pid], ActionStatus.Completed);
    NoticesAreNotices(events);
    ChooseNextIsOk(run, s.plans[pid].nodeId.value, t, t.plans[pid], Notices(events));
  }

  lemma RetryVisit(run: RunId, s: Store, t: Store, pid: RunId, a: PlannedAction, attempt: nat)
    requires OnTurn(run, s, pid, a)
    requires Turned(s, t, pid, s.plans[pid].ReplaceAction(a.WithStatus(ActionStatus.Pending)), ActionStatus.Pending)
    ensures VisitOk(run, s, pid, Visited(t, [Message(ActionRequested(pid, a.actionId), attempt)], None, false))
  {
    hide Shaped, Keyed, SubPlanId, AgentPlan.ReplaceAction;
    TurnKeepsShape(s.plans[pid], ActionStatus.Pending);
    var v := Visited(t, [Message(ActionRequested(pid, a.actionId), attempt)], None, false);
    assert t.plans[pid].actions[Frontier(t.plans[pid].actions)].actionId == a.actionId;
    assert v.sent[0] in v.sent;
  }

  lemma ExecuteCommits(run: RunId, s: Store, pid: RunId, a: PlannedAction, attempt: nat, o: Outcome)
    requires OnTurn(run, s, pid, a) && o.call.Returned? && o.call.decision == Commit
    ensures VisitOk(run, s, pid, Execute(s, s.plans[pid], a, attempt, o))
  {
    var p := s.plans[pid];
    ExecuteForm(s, p, a, attempt, o);
    var saved := s.(executions := s.executions + multiset{(pid, a.actionId)}).SaveActionResult(pid, a.actionId, o.call.output);
    var done := saved.SavePlan(p.ReplaceAction(a.WithStatus(ActionStatus.Completed))).RecordKey(a.idempotencyKey);
    CommitVisit(run, s, done.(commits := done.commits + multiset{(pid, a.actionId)}), pid, a, o.call.events);
  }

  lemma ExecuteRetries(run: RunId, s: Store, pid: RunId, a: PlannedAction, attempt: nat, o: Outcome)
    requires OnTurn(run, s, pid, a)
    requires o.call.Returned? && o.call.decision == Retry && attempt + 1 < ACTION_EXECUTION_ATTEMPTS
    ensures VisitOk(run, s, pid, Execute(s, s.plans[pid], a, attempt, o))
  {
    var p := s.plans[pid];
    ExecuteForm(s, p, a, attempt, o);
    var saved := s.(executions := s.executions + multiset{(pid, a.actionId)}).SaveActionResult(pid, a.actionId, o.call.output);
    RetryVisit(run, s, saved.SavePlan(p.ReplaceAction(a.WithStatus(ActionStatus.Pending))), pid, a, attempt + 1);
  }

  lemma ExecuteFails(run: RunId, s: Store, pid: RunId, a: PlannedAction, attempt: nat, o: Outcome)
    requires OnTurn(run, s, pid, a)
    requires o.call.Returned? ==> o.call.decision != Commit && !(o.call.decision == Retry && attempt + 1 < ACTION_EXECUTION_ATTEMPTS)
    ensures VisitOk(run, s, pid, Execute(s, s.plans[pid], a, attempt, o))
  {
    ExecuteForm(s, s.plans[pid], a, attempt, o);
    var called := s.(executions := s.executions + multiset{(pid, a.actionId)});
    var saved := if o.call.Raised? then called else called.SaveActionResult(pid, a.actionId, o.call.output);
    EndVisit(run, s, saved, pid, a, ActionStatus.Failed, NodeFailed, []);
  }

  /** Execution: the plan takes one turn, to COMPLETED, FAILED or back to PENDING. */
  lemma ExecuteIsOk(run: RunId, s: Store, pid: RunId, a: PlannedAction, attempt: nat, o: Outcome)
    requires OnTurn(run, s, pid, a)
    ensures VisitOk(run, s, pid, Execute(s, s.plans[pid], a, attempt, o))
  {
    if o.call.Returned? && o.call.decision == Commit {
      ExecuteCommits(run, s, pid, a, attempt, o);
    } else if o.call.Returned? && o.call.decision == Retry && attempt + 1 < ACTION_EXECUTION_ATTEMPTS {
      ExecuteRetries(run, s, pid, a, attempt, o);
    } else {
      ExecuteFails(run, s, pid, a, attempt, o);
    }
  }

  /** A visit to an action on turn whose key is not recorded. */
  lemma TurnVisit(run: RunId, s: Store, pid: RunId, a: PlannedAction, attempt: nat, correlation: Option<string>, o: Outcome)
    requires OnTurn(run, s, pid, a) && s.plans[pid].GetAction(a.actionId) == Some(a) && a.idempotencyKey !in s.keys
    ensures VisitOk(run, s, pid, Visit(s, pid, a.actionId, attempt, correlation, o))
  {
    match o.decision
    case Suggest =>
      NoticesAreNotices(o.events);
      EndVisit(run, s, s.SaveActionResult(pid, a.actionId, o.suggestion), pid, a, RequiresApproval, NodeWaiting, Notices(o.events));
    case Replan => EndVisit(run, s, s, pid, a, Stale, NodeFailed, []);
    case Reject => EndVisit(run, s, s, pid, a, ActionStatus.Failed, NodeFailed, []);
    case _ => ExecuteIsOk(run, s, pid, a, attempt, o);
  }

  /** A visit to an action that has had its turn. */
  lemma LateVisit(run: RunId, s: Store, pid: RunId, a: PlannedAction, attempt: nat, correlation: Option<string>, o: Outcome)
    requires pid in s.plans && run in s.graphs && PlanOk(run, s.graphs[run], pid, s.plans[pid])
    requires s.plans[pid].GetAction(a.actionId) == Some(a) && a.status != ActionStatus.Pending && s.plans[pid].actions != []
    requires a.status == ActionStatus.Completed || (a.status != Skipped && s.plans[pid].status in {PlanStatus.Failed, ReplanRequired, WaitingForApproval})
    ensures VisitOk(run, s, pid, Visit(s, pid, a.actionId, attempt, correlation, o))
  {
    if a.status == ActionStatus.Completed {
      ChooseNextIsOk(run, s.plans[pid].nodeId.value, s, s.plans[pid], []);
    }
  }

  /** One delivery of an action event of the run. */
  lemma VisitIsOk(run: RunId, s: Store, pid: RunId, aid: string, attempt: nat, correlation: Option<string>, o: Outcome)
    requires run in s.graphs && PlansOk(run, s) && KeysOk(s.plans, s.keys) && pid in s.plans && Reached(s.plans[pid], aid)
    ensures s.plans[pid].nodeId.Some? && VisitOk(run, s, pid, Visit(s, pid, aid, attempt, correlation, o))
  {
    hide KeysOk, VisitOk, ActOn, ChooseNext, Keyed, SubPlanId, Frontier;
    var p := s.plans[pid];
    assert PlanOk(run, s.graphs[run], pid, p);
    var i :| 0 <= i <= Frontier(p.actions) && i < |p.actions| && p.actions[i].actionId == aid;
    FindActionAt(p.actions, i);
    KeyRecordedExactly(run, s, pid, i);
    if p.actions[i].status == ActionStatus.Pending {
      TurnVisit(run, s, pid, p.actions[i], attempt, correlation, o);
    } else {
      LateVisit(run, s, pid, p.actions[i], attempt, correlation, o);
    }
  }

  /** What a visit adds to the waiting messages once its choice of next action is sent. */
  function Sent(v: Visited, pid: RunId): set<Message> {
    Set(v.sent) + if v.next.Some? then {Send(ActionRequested(pid, v.next.value.actionId))} else {}
  }

  /** The invariant while message `m` is in a handler's hands: it is neither waiting nor forgotten. */
  ghost predicate InHand(run: RunId, s: Store, bag: set<Message>, sent: set<Message>, m: Message) {
    bag <= sent && Inv(run, s, bag + {m}, sent + {m})
  }

  lemma FromPlanIsOk(run: RunId, s: Store, pid: RunId, m: Message)
    requires run in s.graphs && PlansOk(run, s) && pid in s.plans
    requires s.plans[pid].nodeId.Some? && FromPlan(run, s.plans[pid].nodeId.value, s.plans[pid], m)
    ensures MessageOk(run, s, m)
  {
    assert PlanOk(run, s.graphs[run], pid, s.plans[pid]);
  }

  /** Delivering an action event forgets no RUNNING unit. */
  lemma VisitKeepsLive(run: RunId, s: Store, pid: RunId, m: Message, v: Visited, bag: set<Message>)
    requires run in s.graphs && PlansOk(run, s) && pid in s.plans && m.body.ActionRequested? && m.body.plan == pid
    requires s.plans[pid].nodeId.Some? && VisitOk(run, s, pid, v)
    requires Live(run, s, bag + {m})
    requires v.store.graphs == s.graphs && v.store.plans == s.plans[pid := v.store.plans[pid]] && v.store.plans[pid].planId == pid
    ensures Live(run, v.store, bag + Sent(v, pid))
  {
    hide SubPlanId, Shaped, Keyed, Turned;
    var after := bag + Sent(v, pid);
    var q := v.store.plans[pid];
    assert PlanOk(run, s.graphs[run], pid, s.plans[pid]);
    forall u | HasStatus(s.graphs[run], u, SubTaskStatus.Running)
      ensures HasBody(after, TaskRequested(run, u)) || (SubPlanId(run, u) in v.store.plans && PlanLive(run, v.store.plans[SubPlanId(run, u)], after, u))
    {
      if SubPlanId(run, u) == pid {
        Waiting(bag, m, after, TaskRequested(run, u));
        Waiting(bag, m, after, NodeSettled(run, u, NodeCompleted));
        Waiting(bag, m, after, NodeSettled(run, u, NodeFailed));
        SubPlanIdIsInjective(run, u, s.plans[pid].nodeId.value);
        FollowsIsLive(run, u, q, v, after);
      } else {
        OthersStayLive(run, s, v.store, bag, m, after, u);
      }
    }
  }

  lemma Waiting(bag: set<Message>, m: Message, after: set<Message>, body: Body)
    requires bag <= after && m.body != body
    ensures HasBody(bag + {m}, body) ==> HasBody(after, body)
  {
    if HasBody(bag + {m}, body) {
      var x :| x in bag + {m} && x.body == body;
      assert x in after;
    }
  }

  lemma FollowsIsLive(run: RunId, u: string, q: AgentPlan, v: Visited, after: set<Message>)
    requires Sent(v, q.planId) <= after && q.planId == SubPlanId(run, u)
    ensures Follows(run, u, q, v) ==> PlanLive(run, q, after, u)
  {
    if Follows(run, u, q, v) && q.status != WaitingForApproval {
      if Ended(q, NodeCompleted) && Send(NodeSettled(run, u, NodeCompleted)) in v.sent {
        assert Send(NodeSettled(run, u, NodeCompleted)) in after;
      } else if Ended(q, NodeFailed) && Send(NodeSettled(run, u, NodeFailed)) in v.sent {
        assert Send(NodeSettled(run, u, NodeFailed)) in after;
      } else if v.next.Some? {
        assert Send(ActionRequested(q.planId, v.next.value.actionId)) in after;
      } else {
        var m :| m in v.sent && m.body.ActionRequested? && m.body.plan == q.planId;
        assert m in after;
      }
    }
  }

  lemma VisitedShape(run: RunId, s: Store, pid: RunId, v: Visited)
    requires run in s.graphs && pid in s.plans && PlanOk(run, s.graphs[run], pid, s.plans[pid]) && VisitOk(run, s, pid, v)
    ensures v.store.graphs == s.graphs && v.store.plans == s.plans[pid := v.store.plans[pid]]
    ensures v.store.plans[pid].planId == pid && v.store.plans[pid].nodeId == s.plans[pid].nodeId
  {
    if v.store != s {
      var status :| Turned(s, v.store, pid, v.store.plans[pid], status);
    }
  }

  lemma VisitedStore(run: RunId, s: Store, pid: RunId, v: Visited)
    requires StoreOk(run, s) && pid in s.plans && s.plans[pid].nodeId.Some? && VisitOk(run, s, pid, v)
    ensures StoreOk(run, v.store)
  {
    if v.store != s {
      var status :| Turned(s, v.store, pid, v.store.plans[pid], status);
      TurnKeepsStore(run, s, v.store, pid, v.store.plans[pid], status);
    }
  }

  lemma VisitedMessage(run: RunId, s: Store, pid: RunId, v: Visited, x: Message)
    requires StoreOk(run, s) && pid in s.plans && s.plans[pid].nodeId.Some? && VisitOk(run, s, pid, v)
    requires MessageOk(run, s, x) && run in v.store.graphs
    ensures MessageOk(run, v.store, x)
  {
    if v.store != s {
      var status :| Turned(s, v.store, pid, v.store.plans[pid], status);
      assert PlanOk(run, s.graphs[run], pid, s.plans[pid]);
      TurnKeepsMessages(run, s, v.store, pid, v.store.plans[pid], status, x);
    }
  }

  /** An acceptable visit, with its choice of next action sent, keeps the invariant. */
  lemma VisitSends(run: RunId, s: Store, pid: RunId, v: Visited)
    requires pid in s.plans && s.plans[pid].nodeId.Some? && VisitOk(run, s, pid, v)
    ensures forall m :: m in Sent(v, pid) ==> FromPlan(run, s.plans[pid].nodeId.value, v.store.plans[pid], m)
  {
    hide FromPlan, Follows, Turned;
  }

  lemma VisitOkKeeps(run: RunId, s: Store, bag: set<Message>, sent: set<Message>, m: Message, v: Visited)
    requires m.body.ActionRequested? && InHand(run, s, bag, sent, m) && m.body.plan in s.plans
    requires s.plans[m.body.plan].nodeId.Some? && VisitOk(run, s, m.body.plan, v)
    ensures Inv(run, v.store, bag + Sent(v, m.body.plan), sent + Sent(v, m.body.plan))
  {
    hide Live, KeysOk, CommitsOk, NodesAgree, ResultsStored, ReportsAgree, VisitOk, Shaped, Keyed, SubPlanId, MessageOk, FromPlan, Follows, Turned, Safe;
    var pid := m.body.plan;
    assert PlanOk(run, s.graphs[run], pid, s.plans[pid]);
    VisitedShape(run, s, pid, v);
    VisitSends(run, s, pid, v);
    VisitedStore(run, s, pid, v);
    VisitKeepsLive(run, s, pid, m, v, bag);
    forall x | x in sent + Sent(v, pid) ensures MessageOk(run, v.store, x) {
      if x in sent {
        VisitedMessage(run, s, pid, v, x);
      } else {
        FromPlanIsOk(run, v.store, pid, x);
      }
    }
  }

  /** Delivering an action event, with its choice of next action sent, keeps the invariant. */
  lemma VisitKeeps(run: RunId, s: Store, bag: set<Message>, sent: set<Message>, m: Message, correlation: Option<string>, o: Outcome)
    returns (v: Visited)
    requires m.body.ActionRequested? && InHand(run, s, bag, sent, m)
    ensures v == Visit(s, m.body.plan, m.body.actionId, m.attempt, correlation, o)
    ensures !v.raised && Inv(run, v.store, bag + Sent(v, m.body.plan), sent + Sent(v, m.body.plan))
  {
    assert m in sent + {m} && MessageOk(run, s, m);
    VisitIsOk(run, s, m.body.plan, m.body.actionId, m.attempt, correlation, o);
    v := Visit(s, m.body.plan, m.body.actionId, m.attempt, correlation, o);
    VisitOkKeeps(run, s, bag, sent, m, v);
  }

  lemma SetAppend(a: seq<Message>, b: seq<Message>)
    ensures Set(a + b) == Set(a) + Set(b)
  {
  }

  lemma SentSplits(bag: set<Message>, v: Visited, pid: RunId)
    ensures v.next.None? ==> bag + Sent(v, pid) == bag + Set(v.sent)
    ensures v.next.Some? ==> bag + Sent(v, pid) == bag + Set(v.sent) + {Send(ActionRequested(pid, v.next.value.actionId))}
    ensures v.next.Some? ==> bag + Sent(v, pid) == bag + Set(v.sent + [Send(ActionRequested(pid, v.next.value.actionId))])
  {
    if v.next.Some? {
      SetAppend(v.sent, [Send(ActionRequested(pid, v.next.value.actionId))]);
    }
  }

  lemma SetChain(bag: set<Message>, a: seq<Message>, b: seq<Message>)
    ensures bag + Set(a) + Set(b) == bag + Set(a + b)
  {
    SetAppend(a, b);
  }

  /** A whole delivery, inline chaining included, keeps the invariant and raises nothing. */
  lemma {:induction false} HandleActionKeeps(run: RunId, s: Store, bag: set<Message>, sent: set<Message>, m: Message,
                                             correlation: Option<string>, oracle: nat -> Outcome, answers: nat, inlined: nat)
    returns (h: Handled)
    requires m.body.ActionRequested? && InHand(run, s, bag, sent, m)
    ensures h == HandleAction(s, m.body.plan, m.body.actionId, m.attempt, correlation, oracle, answers, inlined)
    ensures !h.raised && Inv(run, h.store, bag + Set(h.sent), sent + Set(h.sent))
    decreases INLINE_ACTION_CHAIN_BUDGET - inlined
  {
    hide Inv, Visit, Sent, Set;
    var pid := m.body.plan;
    var v := VisitKeeps(run, s, bag, sent, m, correlation, oracle(answers));
    SentSplits(bag, v, pid);
    SentSplits(sent, v, pid);
    if v.next.Some? && !v.next.value.requiresApproval && inlined < INLINE_ACTION_CHAIN_BUDGET {
      var next := Send(ActionRequested(pid, v.next.value.actionId));
      var rest := HandleActionKeeps(run, v.store, bag + Set(v.sent), sent + Set(v.sent), next, correlation, oracle, answers + 1, inlined + 1);
      SetChain(bag, v.sent, rest.sent);
      SetChain(sent, v.sent, rest.sent);
      h := rest.(sent := v.sent + rest.sent);
    } else {
      h := Handled(v.store, if v.next.Some? then v.sent + [Send(ActionRequested(pid, v.next.value.actionId))] else v.sent,
                   answers + 1, inlined, false);
    }
  }

  // ---------------------------------------------------------------------
  // Delivering a task
  // ---------------------------------------------------------------------

  /** A unit not concerned by `m` is as live without it. */
  lemma OthersStayLive(run: RunId, s: Store, t: Store, bag: set<Message>, m: Message, after: set<Message>, u: string)
    requires run in s.graphs && Live(run, s, bag + {m}) && bag <= after
    requires HasStatus(s.graphs[run], u, SubTaskStatus.Running)
    requires SubPlanId(run, u) in s.plans ==> SubPlanId(run, u) in t.plans && t.plans[SubPlanId(run, u)] == s.plans[SubPlanId(run, u)]
    requires m.body.TaskRequested? ==> m.body.nodeId != u
    requires m.body.NodeSettled? ==> m.body.nodeId != u
    requires m.body.ActionRequested? ==> m.body.plan != SubPlanId(run, u)
    ensures HasBody(after, TaskRequested(run, u)) || (SubPlanId(run, u) in t.plans && PlanLive(run, t.plans[SubPlanId(run, u)], after, u))
  {
    Waiting(bag, m, after, TaskRequested(run, u));
    Waiting(bag, m, after, NodeSettled(run, u, NodeCompleted));
    Waiting(bag, m, after, NodeSettled(run, u, NodeFailed));
    if HasAction(bag + {m}, SubPlanId(run, u)) {
      var x :| x in bag + {m} && x.body.ActionRequested? && x.body.plan == SubPlanId(run, u);
      assert x in after;
    }
  }

  /** A sub-plan that was just created or is resumed sends one message, which keeps it live. */
  lemma ResumeIsOk(run: RunId, u: string, p: AgentPlan)
    requires Shaped(p) && p.planId == SubPlanId(run, u)
    ensures forall m :: m in Resume(run, u, p) ==> FromPlan(run, u, p, m)
    ensures forall after :: Set(Resume(run, u, p)) <= after ==> PlanLive(run, p, after, u)
  {
    NextIsFrontier(p);
    EndedOneWay(p);
    var ms := Resume(run, u, p);
    if p.NextPendingAction().Some? {
      assert p.actions[Frontier(p.actions)].actionId == p.NextPendingAction().value.actionId;
    }
    assert |ms| == 1;
    forall after | Set(ms) <= after ensures PlanLive(run, p, after, u) {
      assert ms[0] in after;
    }
  }

  lemma NewPlanKeys(plans: map<RunId, AgentPlan>, keys: set<string>, pid: RunId, p: AgentPlan)
    requires KeysOk(plans, keys) && pid !in plans
    requires forall i :: 0 <= i < |p.actions| ==> p.actions[i].status == ActionStatus.Pending
    ensures KeysOk(plans[pid := p], keys)
  {
    var after := plans[pid := p];
    forall key ensures key in keys <==> HasKey(after, key) {
      if key in keys {
        var qid, j :| qid in plans && 0 <= j < |plans[qid].actions|
          && plans[qid].actions[j].idempotencyKey == key && Consumed(plans[qid].actions[j].status);
        assert after[qid].actions[j] == plans[qid].actions[j];
      }
      if HasKey(after, key) {
        var qid, j :| qid in after && 0 <= j < |after[qid].actions|
          && after[qid].actions[j].idempotencyKey == key && Consumed(after[qid].actions[j].status);
        assert plans[qid].actions[j] == after[qid].actions[j];
      }
    }
  }

  lemma NewPlanCommits(plans: map<RunId, AgentPlan>, commits: multiset<(RunId, string)>, pid: RunId, p: AgentPlan)
    requires CommitsOk(plans, commits) && pid !in plans
    requires forall i :: 0 <= i < |p.actions| ==> p.actions[i].status == ActionStatus.Pending
    ensures CommitsOk(plans[pid := p], commits)
  {
    forall qid, aid ensures IsCommitted(plans[pid := p], qid, aid) <==> IsCommitted(plans, qid, aid) {
      if qid == pid && p.GetAction(aid).Some? {
        var i := FindActionIndex(p.actions, aid);
      }
    }
  }

  lemma NewPlanNodes(run: RunId, s: Store, t: Store)
    requires run in s.graphs && t.graphs == s.graphs && NodesAgree(run, s)
    requires forall pid :: pid in s.plans ==> pid in t.plans && t.plans[pid] == s.plans[pid]
    ensures NodesAgree(run, t)
  {
    hide HasStatus, Ended, SubPlanId;
  }

  /** The store with a new sub-plan whose actions are all PENDING. */
  lemma NewPlanKeepsStore(run: RunId, s: Store, pid: RunId, p: AgentPlan)
    requires StoreOk(run, s) && pid !in s.plans && PlanOk(run, s.graphs[run], pid, p)
    requires forall i :: 0 <= i < |p.actions| ==> p.actions[i].status == ActionStatus.Pending
    ensures StoreOk(run, s.SavePlan(p))
  {
    assert p.planId == pid;
    NewPlanKeys(s.plans, s.keys, pid, p);
    NewPlanCommits(s.plans, s.commits, pid, p);
    StoreWithPlan(run, s, s.SavePlan(p), pid, p);
  }

  lemma StoreWithPlan(run: RunId, s: Store, t: Store, pid: RunId, p: AgentPlan)
    requires StoreOk(run, s) && pid !in s.plans && PlanOk(run, s.graphs[run], pid, p)
    requires t == s.(plans := s.plans[pid := p]) && KeysOk(t.plans, t.keys) && CommitsOk(t.plans, t.commits)
    ensures StoreOk(run, t)
  {
    hide PlanOk, KeysOk, CommitsOk, NodesAgree, Safe, Finished, Stuck, HasFailure;
    PlansAfter(run, s, t, pid);
    NewPlanNodes(run, s, t);
    ResultsStay(run, s, t, pid);
  }

  /** Sub-plan `p` of unit `u` is in the store, whatever it needs next is on its way, and the task event that led here is consumed. */
  lemma TaskKeepsLive(run: RunId, s: Store, t: Store, bag: set<Message>, m: Message, u: string, ms: seq<Message>)
    requires run in s.graphs && Live(run, s, bag + {m}) && m.body == TaskRequested(run, u)
    requires t.graphs == s.graphs && SubPlanId(run, u) in t.plans
    requires forall v :: v != u && SubPlanId(run, v) in s.plans ==> SubPlanId(run, v) in t.plans && t.plans[SubPlanId(run, v)] == s.plans[SubPlanId(run, v)]
    requires PlanLive(run, t.plans[SubPlanId(run, u)], bag + Set(ms), u)
    ensures Live(run, t, bag + Set(ms))
  {
    forall v | HasStatus(s.graphs[run], v, SubTaskStatus.Running)
      ensures HasBody(bag + Set(ms), TaskRequested(run, v))
           || (SubPlanId(run, v) in t.plans && PlanLive(run, t.plans[SubPlanId(run, v)], bag + Set(ms), v))
    {
      if v != u {
        OthersStayLive(run, s, t, bag, m, bag + Set(ms), v);
      }
    }
  }

  /** A message whose unit is settled or waits for approval, or that names no unit, can be dropped. */
  lemma DropKeeps(run: RunId, s: Store, bag: set<Message>, sent: set<Message>, m: Message)
    requires InHand(run, s, bag, sent, m) && !m.body.ActionRequested?
    requires m.body.TaskRequested? || m.body.NodeSettled? ==>
      || !HasStatus(s.graphs[run], m.body.nodeId, SubTaskStatus.Running)
      || (SubPlanId(run, m.body.nodeId) in s.plans && s.plans[SubPlanId(run, m.body.nodeId)].status == WaitingForApproval)
    ensures Inv(run, s, bag, sent)
  {
    forall u | HasStatus(s.graphs[run], u, SubTaskStatus.Running)
      ensures HasBody(bag, TaskRequested(run, u)) || (SubPlanId(run, u) in s.plans && PlanLive(run, s.plans[SubPlanId(run, u)], bag, u))
    {
      if (m.body.TaskRequested? || m.body.NodeSettled?) && m.body.nodeId == u {
      } else {
        OthersStayLive(run, s, s, bag, m, bag, u);
      }
    }
  }

  /** The plan made for a node of the run. */
  lemma PlanForNodeIsOk(run: RunId, g: TaskGraph, u: string, w: Proposal)
    requires u != ROOT_NODE_ID && Started(g, u) && UniqueDrafts(w.drafts)
    ensures var p := PlanForNode(u, w.source, run, w.drafts, w.approval);
            && PlanOk(run, g, SubPlanId(run, u), p)
            && (forall i :: 0 <= i < |p.actions| ==> p.actions[i].status == ActionStatus.Pending)
  {
    var p := PlanForNode(u, w.source, run, w.drafts, w.approval);
    NormalizedIsChain(p, w.drafts, w.approval, SubPlanId(run, u).id);
    forall i | 0 <= i < |p.actions| ensures p.actions[i].status == ActionStatus.Pending {
      NormalizedAt(w.drafts, w.approval, SubPlanId(run, u).id, i);
    }
  }

  /** Sub-plan `p` sends what `Resume` says: the invariant holds if it did before, in store `t` that holds `p`. */
  lemma ResumeKeeps(run: RunId, s: Store, t: Store, bag: set<Message>, sent: set<Message>, m: Message, u: string)
    requires InHand(run, s, bag, sent, m) && m.body == TaskRequested(run, u)
    requires StoreOk(run, t) && t.graphs == s.graphs && SubPlanId(run, u) in t.plans
    requires forall pid :: pid in s.plans ==> pid in t.plans && t.plans[pid] == s.plans[pid]
    ensures var ms := Resume(run, u, t.plans[SubPlanId(run, u)]);
            Inv(run, t, bag + Set(ms), sent + Set(ms))
  {
    var p := t.plans[SubPlanId(run, u)];
    assert PlanOk(run, t.graphs[run], SubPlanId(run, u), p);
    SubPlanIdIsInjective(run, u, p.nodeId.value);
    ResumeIsOk(run, u, p);
    var ms := Resume(run, u, p);
    TaskKeepsLive(run, s, t, bag, m, u, ms);
    forall x | x in sent + Set(ms) ensures MessageOk(run, t, x) {
      if x in sent {
        assert MessageOk(run, s, x);
      } else {
        FromPlanIsOk(run, t, SubPlanId(run, u), x);
      }
    }
  }

  lemma NewPlanResumes(run: RunId, u: string, w: Proposal)
    requires u != ROOT_NODE_ID
    ensures var p := PlanForNode(u, w.source, run, w.drafts, w.approval);
            var first := p.NextPendingAction();
            Resume(run, u, p) == if first.None? then [Send(NodeSettled(run, u, NodeCompleted))]
                                 else [Send(ActionRequested(p.planId, first.value.actionId))]
  {
  }

  /** Delivering a task, redelivered or not, keeps the invariant. */
  lemma HandleTaskKeeps(run: RunId, s: Store, bag: set<Message>, sent: set<Message>, m: Message, u: string, w: Proposal)
    requires InHand(run, s, bag, sent, m) && m.body == TaskRequested(run, u) && UniqueDrafts(w.drafts)
    ensures var r := HandleTask(s, run, u, w);
            Inv(run, r.0, bag + Set(r.1), sent + Set(r.1))
  {
    hide Live, PlanForNode, Resume;
    assert m in sent + {m} && MessageOk(run, s, m);
    var g := s.graphs[run];
    if g.GetNode(u).value.status in {SubTaskStatus.Completed, SubTaskStatus.Failed} {
      DropKeeps(run, s, bag, sent, m);
      assert bag + Set([]) == bag && sent + Set([]) == sent;
    } else if SubPlanId(run, u) in s.plans {
      ResumeKeeps(run, s, s, bag, sent, m, u);
    } else {
      NewTaskKeeps(run, s, bag, sent, m, u, w);
      NewPlanResumes(run, u, w);
    }
  }

  lemma NewTaskKeeps(run: RunId, s: Store, bag: set<Message>, sent: set<Message>, m: Message, u: string, w: Proposal)
    requires InHand(run, s, bag, sent, m) && m.body == TaskRequested(run, u) && UniqueDrafts(w.drafts)
    requires Started(s.graphs[run], u) && u != ROOT_NODE_ID && SubPlanId(run, u) !in s.plans
    ensures var p := PlanForNode(u, w.source, run, w.drafts, w.approval);
            Inv(run, s.SavePlan(p), bag + Set(Resume(run, u, p)), sent + Set(Resume(run, u, p)))
  {
    hide PlanForNode, Live, Resume, KeysOk, CommitsOk, NodesAgree, ResultsStored, ReportsAgree, Safe, Shaped, Keyed, MessageOk;
    var p := PlanForNode(u, w.source, run, w.drafts, w.approval);
    PlanForNodeIsOk(run, s.graphs[run], u, w);
    NewPlanKeepsStore(run, s, SubPlanId(run, u), p);
    ResumeKeeps(run, s, s.SavePlan(p), bag, sent, m, u);
  }

  // ---------------------------------------------------------------------
  // Delivering a settlement
  // ---------------------------------------------------------------------

  function StatusFor(o: NodeOutcome): SubTaskStatus {
    if o.NodeCompleted? then SubTaskStatus.Completed else SubTaskStatus.Failed
  }

  /** The settled unit is terminal now, the dispatched ones are RUNNING, the rest is as it was. */
  lemma UnitsAfter(g: TaskGraph, u: string, status: SubTaskStatus)
    requires Safe(g) && Accepts(g, u) && Terminal(status)
    ensures var a := g.Advanced(u, status);
            && !a.alreadyProcessed
            && (forall v :: v in Dispatched(a) ==> v != u && HasStatus(a.graph, v, SubTaskStatus.Running))
            && (forall v :: Started(g, v) ==> Started(a.graph, v))
            && HasStatus(a.graph, u, status)
            && (forall v, st :: v != u && v !in Dispatched(a) ==> (HasStatus(a.graph, v, st) <==> HasStatus(g, v, st)))
            && (forall v :: a.graph.GetNode(v).None? <==> g.GetNode(v).None?)
  {
    forall v ensures var a := g.Advanced(u, status);
                     && !a.alreadyProcessed && (v in Dispatched(a) ==> v != u && g.GetNode(v).Some? && g.GetNode(v).value.status == SubTaskStatus.Pending)
                     && a.graph.GetNode(v) == Moved(g, u, status, Dispatched(a), v) {
      SettleUnit(g, u, status, v);
    }
    hide Safe, Dispatched, TaskGraph.Advanced;
  }

  lemma DispatchSends(run: RunId, a: Advance)
    ensures forall m :: m in Dispatch(run, a) <==> m.attempt == 0 && m.body.TaskRequested? && m.body.run == run && m.body.nodeId in Dispatched(a)
  {
    var ms, names := Dispatch(run, a), Dispatched(a);
    assert |ms| == |names| && forall i :: 0 <= i < |ms| ==> ms[i] == Send(TaskRequested(run, names[i]));
    forall m: Message | m.attempt == 0 && m.body.TaskRequested? && m.body.run == run && m.body.nodeId in names ensures m in ms {
      var i :| 0 <= i < |names| && names[i] == m.body.nodeId;
      assert ms[i] == m;
    }
  }

  /** What settling unit `u` makes of the store, given the outcome `a` of the graph. */
  ghost predicate SettledStore(run: RunId, s: Store, t: Store, u: string, status: SubTaskStatus, a: Advance) {
    && t.graphs == s.graphs[run := a.graph] && t.plans == s.plans && t.keys == s.keys && t.commits == s.commits
    && (forall r :: multiset(t.reports)[r] == multiset(s.reports)[r] + Added(run, a, r))
    && t.actionResults == s.actionResults
    && t.subResults == (if status == SubTaskStatus.Completed && !a.isSynthesizer then s.SaveSubAgentResult(run, BuildResult(s, run, u)).subResults
                        else s.subResults)
  }

  /** How often the outcome adds report `r`. */
  function Added(run: RunId, a: Advance, r: Report): nat {
    if r == RunCompleted(run) && a.runCompleted && !a.runFailed then 1
    else if r == RunFailed(run) && (a.runFailed || a.blocked) then 1
    else 0
  }

  lemma FollowUpForm(run: RunId, s: Store, t: Store, u: string, o: NodeOutcome, a: Advance)
    requires a.graph.planId == run && !o.NodeWaiting? && t == s.SaveGraph(a.graph)
    requires a.runFailed ==> Dispatch(run, a) == [] && !a.blocked
    ensures var r := FollowUp(t, run, u, o, a);
            SettledStore(run, s, r.0, u, StatusFor(o), a) && r.1 == Dispatch(run, a)
  {
    hide Dispatch, BuildResult, SubPlanId, Reports, Added;
    BuildResultNames(s, run, u);
    SameBuilt(run, s, t, u);
    FollowUpReports(run, s, t, u, o, a);
  }

  lemma FollowUpReports(run: RunId, s: Store, t: Store, u: string, o: NodeOutcome, a: Advance)
    requires t.reports == s.reports && (a.runFailed ==> !a.blocked)
    ensures forall r :: multiset(FollowUp(t, run, u, o, a).0.reports)[r] == multiset(s.reports)[r] + Added(run, a, r)
  {
    hide Dispatch, BuildResult, SubPlanId, Reports, Added;
    var added := Reports(run, a);
    assert FollowUp(t, run, u, o, a).0.reports == s.reports + added;
    forall r ensures multiset(s.reports + added)[r] == multiset(s.reports)[r] + Added(run, a, r) {
      ReportsCount(run, a, r);
      CountAppend(s.reports, added, r);
    }
  }

  lemma CountAppend(a: seq<Report>, b: seq<Report>, r: Report)
    ensures multiset(a + b)[r] == multiset(a)[r] + multiset(b)[r]
  {
    assert multiset(a + b) == multiset(a) + multiset(b);
  }

  lemma ReportsCount(run: RunId, a: Advance, r: Report)
    ensures multiset(Reports(run, a))[r] == Added(run, a, r)
  {
  }

  lemma SameBuilt(run: RunId, s: Store, t: Store, u: string)
    requires t.plans == s.plans && t.actionResults == s.actionResults
    ensures BuildResult(t, run, u) == BuildResult(s, run, u)
  {
    hide Outputs;
  }

  lemma BuildResultNames(s: Store, run: RunId, u: string)
    ensures BuildResult(s, run, u).nodeId == u
  {
  }

  lemma HandleSettledForm(run: RunId, s: Store, u: string, o: NodeOutcome)
    requires run in s.graphs && !o.NodeWaiting? && s.graphs[run].planId == run
    requires Safe(s.graphs[run]) && Accepts(s.graphs[run], u)
    ensures var r := HandleSettled(s, run, u, o);
            var a := s.graphs[run].Advanced(u, StatusFor(o));
            SettledStore(run, s, r.0, u, StatusFor(o), a) && r.1 == Dispatch(run, a)
  {
    var a := s.graphs[run].Advanced(u, StatusFor(o));
    SettleIsSafe(s.graphs[run], u, StatusFor(o));
    FlagsAreExact(s.graphs[run], u, StatusFor(o));
    SettleUnit(s.graphs[run], u, StatusFor(o), u);
    assert |Dispatch(run, a)| == |Dispatched(a)|;
    hide Safe, TaskGraph.Advanced, Finished, Stuck, Dispatched, Dispatch, BuildResult, FollowUp, SettledStore;
    FollowUpForm(run, s, s.SaveGraph(a.graph), u, o, a);
  }

  lemma SettledReports(run: RunId, s: Store, t: Store, u: string, status: SubTaskStatus)
    requires run in s.graphs && run in t.graphs && Safe(s.graphs[run]) && Accepts(s.graphs[run], u) && Terminal(status)
    requires ReportsAgree(run, s) && SettledStore(run, s, t, u, status, s.graphs[run].Advanced(u, status))
    ensures ReportsAgree(run, t)
  {
    var g := s.graphs[run];
    var a := g.Advanced(u, status);
    FlagsAreExact(g, u, status);
    FailureStep(g, u, status);
    assert !Finished(g) && !Stuck(g) by {
      var k := WhoIsAccepted(g, u);
    }
    hide Safe, TaskGraph.Advanced, Finished, Stuck, HasFailure;
    assert RunFailed(run) in t.reports <==> multiset(t.reports)[RunFailed(run)] > 0;
    assert RunFailed(run) in s.reports <==> multiset(s.reports)[RunFailed(run)] > 0;
  }

  /** Which nodes are COMPLETED after the settlement, and whose result it stores. */
  lemma SettledOf(g: TaskGraph, u: string, status: SubTaskStatus)
    requires Safe(g) && Accepts(g, u) && Terminal(status)
    ensures var a := g.Advanced(u, status);
            && (forall v :: v in a.graph.CompletedNodeIds() ==> v in g.CompletedNodeIds() || (v == u && status == SubTaskStatus.Completed && !a.isSynthesizer))
            && (status == SubTaskStatus.Completed && !a.isSynthesizer ==> u !in g.CompletedNodeIds())
  {
    SettledCompletes(g, u, status);
    var k := WhoIsAccepted(g, u);
    if u in Ids(g.nodes) {
      SettleNode(g, k, status);
      RecordEffect(g, k, status);
      JoinEffect(g.WithNodeStatus(u, status));
      assert !g.Advanced(u, status).isSynthesizer;
    }
    CompletedIsFound(g, u);
    hide Safe, TaskGraph.Advanced, TaskGraph.Joined;
  }

  lemma CompletedIsFound(g: TaskGraph, u: string)
    requires g.WellFormed()
    ensures u in g.CompletedNodeIds() ==> g.GetNode(u).Some? && g.GetNode(u).value.status == SubTaskStatus.Completed
  {
    if u in g.CompletedNodeIds() {
      var i :| 0 <= i < |g.nodes| && g.nodes[i].status == SubTaskStatus.Completed && g.nodes[i].nodeId == u;
      FindAt(g.nodes, i);
    }
  }

  lemma SettledResults(run: RunId, s: Store, t: Store, u: string, status: SubTaskStatus)
    requires run in s.graphs && run in t.graphs && Safe(s.graphs[run]) && Accepts(s.graphs[run], u) && Terminal(status)
    requires ResultsStored(run, s) && SettledStore(run, s, t, u, status, s.graphs[run].Advanced(u, status))
    ensures ResultsStored(run, t)
  {
    hide Safe, TaskGraph.Advanced, TaskGraph.CompletedNodeIds, Accepts, BuildResult;
    SettledOf(s.graphs[run], u, status);
    BuildResultNames(s, run, u);
    forall v ensures BuildResult(t, run, v) == BuildResult(s, run, v) {
      SameBuilt(run, s, t, v);
    }
  }

  lemma SettledNodes(run: RunId, s: Store, t: Store, u: string, status: SubTaskStatus, o: NodeOutcome)
    requires run in s.graphs && run in t.graphs && Safe(s.graphs[run]) && Accepts(s.graphs[run], u) && !o.NodeWaiting? && status == StatusFor(o)
    requires NodesAgree(run, s) && SettledStore(run, s, t, u, status, s.graphs[run].Advanced(u, status))
    requires SubPlanId(run, u) in s.plans && Ended(s.plans[SubPlanId(run, u)], o)
    ensures NodesAgree(run, t)
  {
    UnitsAfter(s.graphs[run], u, status);
    hide Safe, TaskGraph.Advanced, Ended, SubPlanId, Dispatched;
    var a := s.graphs[run].Advanced(u, status);
    forall v, st | HasStatus(t.graphs[run], v, st) && (st == SubTaskStatus.Completed || st == SubTaskStatus.Failed)
      ensures (v == u && st == status) || HasStatus(s.graphs[run], v, st) {}
  }

  lemma SettledGraph(run: RunId, s: Store, t: Store, u: string, status: SubTaskStatus)
    requires GraphOk(run, s) && Accepts(s.graphs[run], u) && Terminal(status)
    requires SettledStore(run, s, t, u, status, s.graphs[run].Advanced(u, status))
    ensures GraphOk(run, t)
  {
    SettleIsSafe(s.graphs[run], u, status);
    UnitsAfter(s.graphs[run], u, status);
    hide Safe, TaskGraph.Advanced, Dispatched;
  }

  lemma SettledPlans(run: RunId, s: Store, t: Store, u: string, status: SubTaskStatus)
    requires run in s.graphs && run in t.graphs && Safe(s.graphs[run]) && Accepts(s.graphs[run], u) && Terminal(status)
    requires PlansOk(run, s) && SettledStore(run, s, t, u, status, s.graphs[run].Advanced(u, status))
    ensures PlansOk(run, t)
  {
    UnitsAfter(s.graphs[run], u, status);
    hide Safe, TaskGraph.Advanced, Dispatched, Shaped, Keyed, SubPlanId;
  }

  lemma SettledMessages(run: RunId, s: Store, t: Store, u: string, status: SubTaskStatus, m: Message)
    requires run in s.graphs && run in t.graphs && Safe(s.graphs[run]) && Accepts(s.graphs[run], u) && Terminal(status)
    requires SettledStore(run, s, t, u, status, s.graphs[run].Advanced(u, status))
    ensures MessageOk(run, s, m) ==> MessageOk(run, t, m)
    ensures m in Dispatch(run, s.graphs[run].Advanced(u, status)) ==> MessageOk(run, t, m)
  {
    var a := s.graphs[run].Advanced(u, status);
    UnitsAfter(s.graphs[run], u, status);
    DispatchSends(run, a);
    hide Safe, TaskGraph.Advanced, Dispatched, Dispatch, SubPlanId, Ended, Reached;
  }

  lemma SettledLive(run: RunId, s: Store, t: Store, bag: set<Message>, m: Message, u: string, o: NodeOutcome)
    requires run in s.graphs && run in t.graphs && Safe(s.graphs[run]) && Accepts(s.graphs[run], u)
    requires m.body == NodeSettled(run, u, o) && !o.NodeWaiting? && Live(run, s, bag + {m})
    requires SettledStore(run, s, t, u, StatusFor(o), s.graphs[run].Advanced(u, StatusFor(o)))
    ensures Live(run, t, bag + Set(Dispatch(run, s.graphs[run].Advanced(u, StatusFor(o)))))
  {
    var a := s.graphs[run].Advanced(u, StatusFor(o));
    var after := bag + Set(Dispatch(run, a));
    UnitsAfter(s.graphs[run], u, StatusFor(o));
    DispatchSends(run, a);
    hide Safe, TaskGraph.Advanced, Dispatched, Dispatch, SubPlanId, PlanLive;
    forall v | HasStatus(t.graphs[run], v, SubTaskStatus.Running)
      ensures HasBody(after, TaskRequested(run, v)) || (SubPlanId(run, v) in t.plans && PlanLive(run, t.plans[SubPlanId(run, v)], after, v))
    {
      if v in Dispatched(a) {
        assert Send(TaskRequested(run, v)) in after;
      } else if v != u {
        OthersStayLive(run, s, t, bag, m, after, v);
      }
    }
  }

  /** The first settlement of a RUNNING unit keeps the invariant. */
  lemma FirstSettlementKeeps(run: RunId, s: Store, bag: set<Message>, sent: set<Message>, m: Message, u: string, o: NodeOutcome)
    requires InHand(run, s, bag, sent, m) && m.body == NodeSettled(run, u, o) && !o.NodeWaiting?
    requires Accepts(s.graphs[run], u)
    ensures var r := HandleSettled(s, run, u, o);
            Inv(run, r.0, bag + Set(r.1), sent + Set(r.1))
  {
    hide GraphOk, PlansOk, NodesAgree, ResultsStored, ReportsAgree, Live, MessageOk, HandleSettled, KeysOk, CommitsOk, Safe,
         TaskGraph.GetNode, Ended, SubPlanId, HasStatus, TaskGraph.Advanced, Dispatch;
    var status := StatusFor(o);
    var r := HandleSettled(s, run, u, o);
    GraphOkSays(run, s);
    assert m in sent + {m} && MessageOk(run, s, m);
    SettlementSent(run, s, m, u, o);
    HandleSettledForm(run, s, u, o);
    SettledGraph(run, s, r.0, u, status);
    GraphOkSays(run, r.0);
    SettledPlans(run, s, r.0, u, status);
    SettledNodes(run, s, r.0, u, status, o);
    SettledResults(run, s, r.0, u, status);
    SettledReports(run, s, r.0, u, status);
    SettledLive(run, s, r.0, bag, m, u, o);
    forall x | x in sent + Set(r.1) ensures MessageOk(run, r.0, x) {
      SettledMessages(run, s, r.0, u, status, x);
    }
  }

  lemma GraphOkSays(run: RunId, s: Store)
    requires GraphOk(run, s)
    ensures run in s.graphs && Safe(s.graphs[run]) && s.graphs[run].planId == run
  {
  }

  lemma SettlementSent(run: RunId, s: Store, m: Message, u: string, o: NodeOutcome)
    requires run in s.graphs && MessageOk(run, s, m) && m.body == NodeSettled(run, u, o)
    ensures SubPlanId(run, u) in s.plans && Ended(s.plans[SubPlanId(run, u)], o)
  {
  }

  /** Delivering a settlement, the first or a repeated one, keeps the invariant. */
  lemma HandleSettledKeeps(run: RunId, s: Store, bag: set<Message>, sent: set<Message>, m: Message, u: string, o: NodeOutcome)
    requires InHand(run, s, bag, sent, m) && m.body == NodeSettled(run, u, o)
    ensures var r := HandleSettled(s, run, u, o);
            Inv(run, r.0, bag + Set(r.1), sent + Set(r.1))
  {
    assert m in sent + {m} && MessageOk(run, s, m);
    var g, p := s.graphs[run], s.plans[SubPlanId(run, u)];
    assert PlanOk(run, g, SubPlanId(run, u), p);
    SubPlanIdIsInjective(run, u, p.nodeId.value);
    EndedOneWay(p);
    if !o.NodeWaiting? && Accepts(g, u) {
      FirstSettlementKeeps(run, s, bag, sent, m, u, o);
    } else {
      RepeatedSettlement(run, s, u, o);
      DropKeeps(run, s, bag, sent, m);
      assert bag + Set([]) == bag && sent + Set([]) == sent;
    }
  }

  /** A settlement that is no news, and agrees with what the sub-plan says, changes nothing. */
  lemma RepeatedSettlement(run: RunId, s: Store, u: string, o: NodeOutcome)
    requires StoreOk(run, s) && SubPlanId(run, u) in s.plans && Ended(s.plans[SubPlanId(run, u)], o)
    requires Started(s.graphs[run], u) && (o.NodeWaiting? || !Accepts(s.graphs[run], u))
    requires Shaped(s.plans[SubPlanId(run, u)])
    ensures HandleSettled(s, run, u, o) == (s, [])
  {
    EndedOneWay(s.plans[SubPlanId(run, u)]);
    if !o.NodeWaiting? {
      assert HasStatus(s.graphs[run], u, StatusFor(o));
      assert s.graphs[run := s.graphs[run]] == s.graphs;
    }
  }
}
