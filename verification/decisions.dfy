/**
  What a delivery makes of the answers it gets, for any plan, a sub-plan or not: which status the action
  goes to, whether its tool runs, what is stored and what is sent.
 */
module Decisions {
  import opened Common
  import opened Events
  import opened Plans
  import opened Planner
  import opened Runtime
  import Orchestration

  /** Action `a` of plan `pid` is PENDING and its key is not recorded. */
  ghost predicate Due(s: Store, pid: RunId, a: PlannedAction) {
    && pid in s.plans && s.plans[pid].planId == pid && UniqueActions(s.plans[pid].actions)
    && s.plans[pid].GetAction(a.actionId) == Some(a) && a.status == ActionStatus.Pending && a.idempotencyKey !in s.keys
  }

  /** Plan `q` is `p` with action `a` in `status`; nothing else of any action is different. */
  ghost predicate Became(p: AgentPlan, q: AgentPlan, a: PlannedAction, status: ActionStatus) {
    && q.planId == p.planId && q.parentRunId == p.parentRunId && q.nodeId == p.nodeId && q.source == p.source
    && |q.actions| == |p.actions|
    && forall i :: 0 <= i < |p.actions| ==> q.actions[i] == if p.actions[i].actionId == a.actionId then a.(status := status) else p.actions[i]
  }

  /** From `s` to `t` only plan `pid` changed, by action `a` going to `status`. */
  ghost predicate Moved(s: Store, t: Store, pid: RunId, a: PlannedAction, status: ActionStatus) {
    && pid in s.plans && pid in t.plans && t.plans == s.plans[pid := t.plans[pid]]
    && Became(s.plans[pid], t.plans[pid], a, status) && t.graphs == s.graphs && t.subResults == s.subResults
  }

  predicate IsNodePlan(p: AgentPlan) {
    p.parentRunId.Some? && p.nodeId.Some?
  }

  /** `sent` is one notice for each of `events`, in order, and then `rest`. */
  ghost predicate Announces(sent: seq<Message>, events: seq<string>, rest: seq<Message>) {
    && |sent| == |events| + |rest|
    && (forall i :: 0 <= i < |events| ==> sent[i] == Send(Notice(events[i])))
    && (forall i :: 0 <= i < |rest| ==> sent[|events| + i] == rest[i])
  }

  /** The one message with which a node's plan settles; other plans send none. */
  ghost predicate SettlesWith(p: AgentPlan, outcome: NodeOutcome, sent: seq<Message>) {
    sent == if IsNodePlan(p) then [Send(NodeSettled(p.parentRunId.value, p.nodeId.value, outcome))] else []
  }

  predicate Done(p: AgentPlan) {
    forall i :: 0 <= i < |p.actions| ==> p.actions[i].status in {ActionStatus.Completed, Skipped}
  }

  lemma ReplaceBecomes(p: AgentPlan, a: PlannedAction, status: ActionStatus)
    ensures Became(p, p.ReplaceAction(a.WithStatus(status)), a, status)
    ensures p.ReplaceAction(a.WithStatus(status)).status == PlanStatus.Completed <==> Done(p.ReplaceAction(a.WithStatus(status)))
  {
  }

  /** A rejected action is FAILED without its tool being run. */
  lemma RejectIsObeyed(s: Store, pid: RunId, a: PlannedAction, attempt: nat, correlation: Option<string>, o: Outcome)
    requires Due(s, pid, a) && o.decision == Reject
    ensures var v := Visit(s, pid, a.actionId, attempt, correlation, o);
            && Moved(s, v.store, pid, a, ActionStatus.Failed) && v.next.None? && !v.raised
            && v.store.executions == s.executions && v.store.actionResults == s.actionResults && v.store.keys == s.keys
            && v.store.commits == s.commits && v.store.reports == s.reports
            && SettlesWith(s.plans[pid], NodeFailed, v.sent)
  {
    hide Replaced, StatusOf;
    ReplaceBecomes(s.plans[pid], a, ActionStatus.Failed);
  }

  /** A suggested action waits for approval: its tool is not run, the suggestion is stored and its key recorded. */
  lemma SuggestIsObeyed(s: Store, pid: RunId, a: PlannedAction, attempt: nat, correlation: Option<string>, o: Outcome)
    requires Due(s, pid, a) && o.decision == Suggest
    ensures var v := Visit(s, pid, a.actionId, attempt, correlation, o);
            && Moved(s, v.store, pid, a, RequiresApproval) && v.next.None? && !v.raised
            && v.store.executions == s.executions && v.store.actionResults == s.actionResults[(pid, a.actionId) := o.suggestion]
            && v.store.keys == s.keys + {a.idempotencyKey} && v.store.commits == s.commits && v.store.reports == s.reports
            && exists rest :: SettlesWith(s.plans[pid], NodeWaiting, rest) && Announces(v.sent, o.events, rest)
  {
    hide Replaced, StatusOf;
    ReplaceBecomes(s.plans[pid], a, RequiresApproval);
    var p := s.plans[pid];
    var rest := if IsNodePlan(p) then [Send(NodeSettled(p.parentRunId.value, p.nodeId.value, NodeWaiting))] else [];
    assert SettlesWith(p, NodeWaiting, rest) && Announces(Visit(s, pid, a.actionId, attempt, correlation, o).sent, o.events, rest);
  }

  /** An action with stale context is STALE without its tool being run; a plan of its own asks for a replan. */
  lemma ReplanIsObeyed(s: Store, pid: RunId, a: PlannedAction, attempt: nat, correlation: Option<string>, o: Outcome)
    requires Due(s, pid, a) && o.decision == Decision.Replan
    ensures var v, p := Visit(s, pid, a.actionId, attempt, correlation, o), s.plans[pid];
            && Moved(s, v.store, pid, a, Stale) && v.next.None? && !v.raised
            && v.store.executions == s.executions && v.store.actionResults == s.actionResults && v.store.keys == s.keys
            && v.store.commits == s.commits && v.store.reports == s.reports
            && (p.parentRunId.Some? ==> SettlesWith(p, NodeFailed, v.sent))
            && (p.parentRunId.None? ==>
                  && |v.sent| == 1 && v.sent[0].body.Trigger? && v.sent[0].body.source.replan && v.sent[0].body.source.workspace == p.source.workspace
                  && v.sent[0].body.source.payloadId == Some(pid.id) && v.sent[0].body.source.eventId == o.eventId
                  && v.sent[0].body.source.idempotencyKey == Some(a.idempotencyKey + ":replan"))
  {
    hide Replaced, StatusOf;
    ReplaceBecomes(s.plans[pid], a, Stale);
  }

  /** Does the decision before execution let the tool run? */
  predicate LetsRun(o: Outcome) {
    o.decision != Reject && o.decision != Suggest && o.decision != Decision.Replan
  }

  lemma VisitRuns(s: Store, pid: RunId, a: PlannedAction, attempt: nat, correlation: Option<string>, o: Outcome)
    requires Due(s, pid, a) && LetsRun(o)
    ensures Visit(s, pid, a.actionId, attempt, correlation, o) == Execute(s, s.plans[pid], a, attempt, o)
  {
    hide Execute;
  }

  /** A tool that raises leaves its action FAILED and no result. */
  lemma RaiseIsObeyed(s: Store, pid: RunId, a: PlannedAction, attempt: nat, correlation: Option<string>, o: Outcome)
    requires Due(s, pid, a) && LetsRun(o) && o.call.Raised?
    ensures var v := Visit(s, pid, a.actionId, attempt, correlation, o);
            && Moved(s, v.store, pid, a, ActionStatus.Failed) && v.next.None? && (v.raised <==> s.plans[pid].parentRunId.None?)
            && v.store.executions == s.executions + multiset{(pid, a.actionId)} && v.store.actionResults == s.actionResults
            && v.store.keys == s.keys && v.store.commits == s.commits && v.store.reports == s.reports
            && SettlesWith(s.plans[pid], NodeFailed, v.sent)
  {
    hide Replaced, StatusOf, Visit, Execute;
    VisitRuns(s, pid, a, attempt, correlation, o);
    Orchestration.ExecuteForm(s, s.plans[pid], a, attempt, o);
    ReplaceBecomes(s.plans[pid], a, ActionStatus.Failed);
  }

  /** A result that may be retried puts its action back to PENDING and asks for it once more. */
  lemma RetryIsObeyed(s: Store, pid: RunId, a: PlannedAction, attempt: nat, correlation: Option<string>, o: Outcome)
    requires Due(s, pid, a) && LetsRun(o) && o.call.Returned? && o.call.decision == Retry && attempt < 2
    ensures var v := Visit(s, pid, a.actionId, attempt, correlation, o);
            && Moved(s, v.store, pid, a, ActionStatus.Pending) && v.next.None? && !v.raised
            && v.store.executions == s.executions + multiset{(pid, a.actionId)}
            && v.store.actionResults == s.actionResults[(pid, a.actionId) := o.call.output]
            && v.store.keys == s.keys && v.store.commits == s.commits && v.store.reports == s.reports
            && v.sent == [Message(ActionRequested(pid, a.actionId), attempt + 1)]
  {
    hide Replaced, StatusOf, Visit, Execute;
    VisitRuns(s, pid, a, attempt, correlation, o);
    Orchestration.ExecuteForm(s, s.plans[pid], a, attempt, o);
    ReplaceBecomes(s.plans[pid], a, ActionStatus.Pending);
  }

  /** Any other result that is not accepted leaves its action FAILED. */
  lemma FailureIsObeyed(s: Store, pid: RunId, a: PlannedAction, attempt: nat, correlation: Option<string>, o: Outcome)
    requires Due(s, pid, a) && LetsRun(o) && o.call.Returned? && o.call.decision != Commit && (o.call.decision == Retry ==> attempt >= 2)
    ensures var v := Visit(s, pid, a.actionId, attempt, correlation, o);
            && Moved(s, v.store, pid, a, ActionStatus.Failed) && v.next.None? && !v.raised
            && v.store.executions == s.executions + multiset{(pid, a.actionId)}
            && v.store.actionResults == s.actionResults[(pid, a.actionId) := o.call.output]
            && v.store.keys == s.keys && v.store.commits == s.commits && v.store.reports == s.reports
            && SettlesWith(s.plans[pid], NodeFailed, v.sent)
  {
    hide Replaced, StatusOf, Visit, Execute;
    VisitRuns(s, pid, a, attempt, correlation, o);
    Orchestration.ExecuteForm(s, s.plans[pid], a, attempt, o);
    ReplaceBecomes(s.plans[pid], a, ActionStatus.Failed);
  }

  /**
    An accepted result makes its action COMPLETED, is stored and has the key recorded. The tool's events
    are sent. A plan that is done then settles its node or is reported; any other goes on to its next action.
   */
  lemma CommitIsObeyed(s: Store, pid: RunId, a: PlannedAction, attempt: nat, correlation: Option<string>, o: Outcome)
    requires Due(s, pid, a) && LetsRun(o) && o.call.Returned? && o.call.decision == Commit
    ensures var v, p := Visit(s, pid, a.actionId, attempt, correlation, o), s.plans[pid];
            && Moved(s, v.store, pid, a, ActionStatus.Completed) && !v.raised
            && v.store.executions == s.executions + multiset{(pid, a.actionId)}
            && v.store.actionResults == s.actionResults[(pid, a.actionId) := o.call.output]
            && v.store.keys == s.keys + {a.idempotencyKey} && v.store.commits == s.commits + multiset{(pid, a.actionId)}
            && v.next == v.store.plans[pid].NextPendingAction() && (Done(v.store.plans[pid]) ==> v.next.None?)
            && v.store.reports == s.reports + (if Done(v.store.plans[pid]) && p.parentRunId.None? then [RunCompleted(pid)] else [])
            && exists rest :: Announces(v.sent, o.call.events, rest)
                 && if Done(v.store.plans[pid]) then SettlesWith(p, NodeCompleted, rest) else rest == []
  {
    hide Replaced, StatusOf, Visit, Execute, AgentPlan.NextPendingAction, Became;
    VisitRuns(s, pid, a, attempt, correlation, o);
    var p := s.plans[pid];
    Orchestration.ExecuteForm(s, p, a, attempt, o);
    ReplaceBecomes(p, a, ActionStatus.Completed);
    var q := p.ReplaceAction(a.WithStatus(ActionStatus.Completed));
    DoneIsOver(q);
    var v := Visit(s, pid, a.actionId, attempt, correlation, o);
    var rest := if Done(q) && IsNodePlan(p) then [Send(NodeSettled(p.parentRunId.value, p.nodeId.value, NodeCompleted))] else [];
    assert s.reports + [] == s.reports;
    assert v.store.plans[pid] == q;
    assert Announces(v.sent, o.call.events, rest) && if Done(q) then SettlesWith(p, NodeCompleted, rest) else rest == [];
  }

  lemma DoneIsOver(q: AgentPlan)
    requires q.status == PlanStatus.Completed <==> Done(q)
    ensures Done(q) ==> q.NextPendingAction().None?
  {
  }

  /** A delivery of a request for an action that is not due changes no plan, runs no tool and stores nothing. */
  lemma NotDueIsIdle(s: Store, pid: RunId, aid: string, attempt: nat, correlation: Option<string>, o: Outcome)
    requires pid in s.plans && s.plans[pid].planId == pid && UniqueActions(s.plans[pid].actions)
    requires s.plans[pid].GetAction(aid).Some? ==> !Due(s, pid, s.plans[pid].GetAction(aid).value)
    ensures var t := Visit(s, pid, aid, attempt, correlation, o).store;
            t.plans == s.plans && t.executions == s.executions && t.commits == s.commits && t.keys == s.keys && t.actionResults == s.actionResults
  {
    hide ActOn, AgentPlan.NextPendingAction, UniqueActions;
    if s.plans[pid].GetAction(aid).Some? {
      var i := FindActionIndex(s.plans[pid].actions, aid);
    }
  }

  /** A request for an action that is done already goes on to what is next, or repeats how the plan ended. */
  lemma LateRequestGoesOn(s: Store, pid: RunId, a: PlannedAction, attempt: nat, correlation: Option<string>, o: Outcome)
    requires pid in s.plans && s.plans[pid].planId == pid && s.plans[pid].GetAction(a.actionId) == Some(a) && a.status in {ActionStatus.Completed, Skipped}
    ensures var v, p := Visit(s, pid, a.actionId, attempt, correlation, o), s.plans[pid];
            && v.next == p.NextPendingAction() && !v.raised && v.store == s.(reports := v.store.reports)
            && (if v.next.None? && p.status == PlanStatus.Completed then
                  && v.store.reports == s.reports + (if p.parentRunId.None? then [RunCompleted(pid)] else [])
                  && if p.parentRunId.Some? then SettlesWith(p, NodeCompleted, v.sent) else v.sent == []
                else v.store == s && v.sent == [])
  {
    hide AgentPlan.NextPendingAction, AgentPlan.GetAction;
    assert s.reports + [] == s.reports;
    assert s == s.(reports := s.reports);
  }

  /** A request for an action that failed, waits or became stale, or whose key is recorded, does nothing at all. */
  lemma OtherRequestIsSilent(s: Store, pid: RunId, a: PlannedAction, attempt: nat, correlation: Option<string>, o: Outcome)
    requires pid in s.plans && s.plans[pid].GetAction(a.actionId) == Some(a) && a.status !in {ActionStatus.Completed, Skipped}
    requires a.status != ActionStatus.Pending || a.idempotencyKey in s.keys
    ensures Visit(s, pid, a.actionId, attempt, correlation, o) == Visited(s, [], None, false)
  {
    hide AgentPlan.NextPendingAction, AgentPlan.GetAction;
  }

  /** A request for an unknown plan or action raises an exception and changes nothing. */
  lemma UnknownRequestRaises(s: Store, pid: RunId, aid: string, attempt: nat, correlation: Option<string>, o: Outcome)
    requires pid in s.plans ==> s.plans[pid].GetAction(aid).None?
    ensures Visit(s, pid, aid, attempt, correlation, o) == Visited(s, [], None, true)
  {
  }
}
