/** Action plans (src/domain/plans.py, src/domain/actions.py). */
module Plans {
  import opened Common
  import opened Events

  datatype ActionStatus = Pending | Running | Completed | Failed | Skipped | RequiresApproval | Stale

  datatype PlanStatus = Planned | Running | Completed | Failed | Cancelled | WaitingForApproval | ReplanRequired

  datatype PlannedAction = PlannedAction(actionId: string, toolName: string, dependsOn: seq<string>,
                                         requiresApproval: bool, status: ActionStatus, idempotencyKey: string) {
    predicate IsUnblocked(completed: set<string>) {
      forall d :: d in dependsOn ==> d in completed
    }

    function WithStatus(s: ActionStatus): PlannedAction {
      this.(status := s)
    }
  }

  /** `source` is the triggering event kept in the context snapshot the plan refers to. */
  datatype AgentPlan = AgentPlan(planId: RunId, parentRunId: Option<RunId>, nodeId: Option<string>,
                                 source: Source, actions: seq<PlannedAction>, status: PlanStatus) {
    predicate IsSubplan() {
      parentRunId.Some?
    }

    function GetAction(id: string): Option<PlannedAction> {
      FindAction(actions, id)
    }

    function CompletedActionIds(): set<string> {
      set i | 0 <= i < |actions| && actions[i].status == ActionStatus.Completed :: actions[i].actionId
    }

    function NextPendingAction(): Option<PlannedAction> {
      if status in {PlanStatus.Completed, PlanStatus.Failed, Cancelled, WaitingForApproval, ReplanRequired} then None
      else FirstPending(actions, CompletedActionIds())
    }

    /** The plan with `updated` in place of the action of that id, and its status recomputed. */
    function ReplaceAction(updated: PlannedAction): (r: AgentPlan)
      ensures r.planId == planId && r.parentRunId == parentRunId && r.nodeId == nodeId && r.source == source
    {
      var replaced := Replaced(actions, updated);
      this.(actions := replaced, status := StatusOf(replaced))
    }
  }

  function FindAction(actions: seq<PlannedAction>, id: string): Option<PlannedAction> {
    if actions == [] then None
    else if actions[0].actionId == id then Some(actions[0])
    else FindAction(actions[1..], id)
  }

  function FirstPending(actions: seq<PlannedAction>, completed: set<string>): Option<PlannedAction> {
    if actions == [] then None
    else if actions[0].status == ActionStatus.Pending && actions[0].IsUnblocked(completed) then Some(actions[0])
    else FirstPending(actions[1..], completed)
  }

  function Replaced(actions: seq<PlannedAction>, updated: PlannedAction): (r: seq<PlannedAction>)
    ensures |r| == |actions|
    ensures forall i :: 0 <= i < |r| ==> r[i] == if actions[i].actionId == updated.actionId then updated else actions[i]
  {
    seq(|actions|, i requires 0 <= i < |actions| =>
      if actions[i].actionId == updated.actionId then updated else actions[i])
  }

  predicate Any(actions: seq<PlannedAction>, status: ActionStatus) {
    exists i :: 0 <= i < |actions| && actions[i].status == status
  }

  function StatusOf(actions: seq<PlannedAction>): PlanStatus {
    if forall i :: 0 <= i < |actions| ==> actions[i].status in {ActionStatus.Completed, Skipped} then PlanStatus.Completed
    else if Any(actions, ActionStatus.Failed) then PlanStatus.Failed
    else if Any(actions, RequiresApproval) then WaitingForApproval
    else if Any(actions, Stale) then ReplanRequired
    else PlanStatus.Running
  }

  // ---------------------------------------------------------------------
  // Chain shape
  // ---------------------------------------------------------------------

  /** How many leading actions are COMPLETED: the position of the action whose turn it is. */
  function Frontier(actions: seq<PlannedAction>): (k: nat)
    ensures k <= |actions|
    ensures forall i :: 0 <= i < k ==> actions[i].status == ActionStatus.Completed
    ensures k < |actions| ==> actions[k].status != ActionStatus.Completed
  {
    if actions == [] || actions[0].status != ActionStatus.Completed then 0 else 1 + Frontier(actions[1..])
  }

  lemma {:induction false} FrontierIs(actions: seq<PlannedAction>, k: nat)
    requires k <= |actions| && forall i :: 0 <= i < k ==> actions[i].status == ActionStatus.Completed
    requires k < |actions| ==> actions[k].status != ActionStatus.Completed
    ensures Frontier(actions) == k
  {
    if k > 0 {
      FrontierIs(actions[1..], k - 1);
    }
  }

  ghost predicate UniqueActions(actions: seq<PlannedAction>) {
    forall i, j :: 0 <= i < j < |actions| ==> actions[i].actionId != actions[j].actionId
  }

  /** Each action depends on nothing but the one before it. */
  ghost predicate Chained(actions: seq<PlannedAction>) {
    forall i, d :: 0 <= i < |actions| && d in actions[i].dependsOn ==> i > 0 && d == actions[i - 1].actionId
  }

  /** The statuses an action may rest in between two deliveries. */
  predicate Resting(s: ActionStatus) {
    s in {ActionStatus.Pending, ActionStatus.Failed, RequiresApproval, Stale}
  }

  /** The plan status that goes with the action whose turn it is. */
  function TurnStatus(s: ActionStatus): PlanStatus
    requires Resting(s)
  {
    match s
    case Pending => PlanStatus.Running
    case Failed => PlanStatus.Failed
    case RequiresApproval => WaitingForApproval
    case Stale => ReplanRequired
  }

  /**
    A chain between two deliveries: COMPLETED*, then one action whose turn it is (PENDING, or ended as
    FAILED, STALE or REQUIRES_APPROVAL), then PENDING*; and the plan status that says so.
   */
  ghost predicate Shaped(p: AgentPlan) {
    var k := Frontier(p.actions);
    && UniqueActions(p.actions) && Chained(p.actions)
    && (forall i :: k < i < |p.actions| ==> p.actions[i].status == ActionStatus.Pending)
    && (k < |p.actions| ==> Resting(p.actions[k].status))
    && (if k < |p.actions| then
          p.status == TurnStatus(p.actions[k].status) || (p.status == Planned && k == 0 && p.actions[k].status == ActionStatus.Pending)
        else if k == 0 then p.status == Planned
        else p.status == PlanStatus.Completed)
  }

  lemma {:induction false} FindActionAt(actions: seq<PlannedAction>, i: nat)
    requires UniqueActions(actions) && i < |actions|
    ensures FindAction(actions, actions[i].actionId) == Some(actions[i])
  {
    if i > 0 {
      FindActionAt(actions[1..], i - 1);
    }
  }

  lemma {:induction false} FindActionIndex(actions: seq<PlannedAction>, id: string) returns (i: nat)
    requires FindAction(actions, id).Some?
    ensures i < |actions| && actions[i] == FindAction(actions, id).value && actions[i].actionId == id
  {
    if actions[0].actionId == id {
      i := 0;
    } else {
      i := FindActionIndex(actions[1..], id);
      i := i + 1;
    }
  }

  lemma {:induction false} FirstPendingIs(actions: seq<PlannedAction>, completed: set<string>, k: nat)
    requires k <= |actions| && forall i :: 0 <= i < k ==> actions[i].status != ActionStatus.Pending
    requires k < |actions| ==> actions[k].status == ActionStatus.Pending && actions[k].IsUnblocked(completed)
    ensures FirstPending(actions, completed) == if k < |actions| then Some(actions[k]) else None
  {
    if k > 0 {
      FirstPendingIs(actions[1..], completed, k - 1);
    }
  }

  /** In a shaped plan the next action is the one whose turn it is, as long as it is PENDING. */
  lemma NextIsFrontier(p: AgentPlan)
    requires Shaped(p)
    ensures var k := Frontier(p.actions);
            p.NextPendingAction() ==
            if k < |p.actions| && p.actions[k].status == ActionStatus.Pending then Some(p.actions[k]) else None
  {
    var k := Frontier(p.actions);
    if k < |p.actions| && p.actions[k].status == ActionStatus.Pending {
      forall d | d in p.actions[k].dependsOn ensures d in p.CompletedActionIds() {
        assert p.actions[k - 1].status == ActionStatus.Completed;
      }
      FirstPendingIs(p.actions, p.CompletedActionIds(), k);
    } else if p.actions == [] {
    }
  }

  /** Only COMPLETED dependencies count: an action that depends on a SKIPPED one is never next. */
  lemma SkippedDoesNotUnblock(p: AgentPlan, i: nat, j: nat)
    requires UniqueActions(p.actions) && i < |p.actions| && j < |p.actions|
    requires p.actions[j].status == Skipped && p.actions[j].actionId in p.actions[i].dependsOn
    ensures p.NextPendingAction() != Some(p.actions[i])
  {
    FirstPendingIsUnblocked(p.actions, p.CompletedActionIds());
  }

  lemma {:induction false} FirstPendingIsUnblocked(actions: seq<PlannedAction>, completed: set<string>)
    ensures var r := FirstPending(actions, completed);
            r.Some? ==> r.value in actions && r.value.status == ActionStatus.Pending && r.value.IsUnblocked(completed)
  {
    if actions != [] {
      FirstPendingIsUnblocked(actions[1..], completed);
    }
  }

  /** Writing a status and then another one for the same action leaves only the second. */
  lemma ReplaceTwice(p: AgentPlan, a: PlannedAction, s: ActionStatus, t: ActionStatus)
    ensures p.ReplaceAction(a.WithStatus(s)).ReplaceAction(a.WithStatus(t)) == p.ReplaceAction(a.WithStatus(t))
  {
    assert Replaced(Replaced(p.actions, a.WithStatus(s)), a.WithStatus(t)) == Replaced(p.actions, a.WithStatus(t));
  }

  /** The recomputed status of a chain whose turn is at `k`. */
  lemma StatusOfChain(b: seq<PlannedAction>, k: nat)
    requires b != [] && k <= |b| && forall i :: 0 <= i < k ==> b[i].status == ActionStatus.Completed
    requires forall i :: k < i < |b| ==> b[i].status == ActionStatus.Pending
    requires k < |b| ==> Resting(b[k].status)
    ensures StatusOf(b) == if k < |b| then TurnStatus(b[k].status) else PlanStatus.Completed
  {
    forall s | Any(b, s) ensures s in {ActionStatus.Completed, ActionStatus.Pending} || (k < |b| && s == b[k].status) {}
    if k < |b| {
      assert Any(b, b[k].status);
    }
  }

  lemma ReplaceKeepsChain(actions: seq<PlannedAction>, k: nat, s: ActionStatus)
    requires UniqueActions(actions) && Chained(actions) && k < |actions|
    ensures UniqueActions(actions[k := actions[k].WithStatus(s)]) && Chained(actions[k := actions[k].WithStatus(s)])
  {
    var b := actions[k := actions[k].WithStatus(s)];
    forall i, d | 0 <= i < |b| && d in b[i].dependsOn ensures i > 0 && d == b[i - 1].actionId {
      assert d in actions[i].dependsOn;
    }
  }

  /** Ending, retrying or completing the action whose turn it is keeps the shape. */
  lemma TurnKeepsShape(p: AgentPlan, s: ActionStatus)
    requires Shaped(p) && Frontier(p.actions) < |p.actions| && p.actions[Frontier(p.actions)].status == ActionStatus.Pending
    requires Resting(s) || s == ActionStatus.Completed
    ensures var k := Frontier(p.actions);
            var q := p.ReplaceAction(p.actions[k].WithStatus(s));
            && Shaped(q) && q == p.(actions := p.actions[k := p.actions[k].WithStatus(s)], status := q.status)
            && Frontier(q.actions) == (if s == ActionStatus.Completed then k + 1 else k)
            && (Resting(s) ==> q.status == TurnStatus(s))
            && (s == ActionStatus.Completed ==> q.status == if k + 1 == |p.actions| then PlanStatus.Completed else PlanStatus.Running)
  {
    var k := Frontier(p.actions);
    var b := p.actions[k := p.actions[k].WithStatus(s)];
    var n := if s == ActionStatus.Completed then k + 1 else k;
    assert Replaced(p.actions, p.actions[k].WithStatus(s)) == b;
    ReplaceKeepsChain(p.actions, k, s);
    FrontierIs(b, n);
    StatusOfChain(b, n);
  }
}
