/**
  Deliveries as wholes. One delivery may handle several actions of a plan in the same invocation; over
  whole runs, an action is executed only where the answer given about it lets its tool run, and what is
  stored for a COMPLETED action is the output that was accepted from it.
 */
module Deliveries {
  import opened Common
  import opened Events
  import opened Subtasks
  import opened Plans
  import opened Planner
  import opened Runtime
  import opened Decisions
  import Orchestration
  import opened Quiescence

  ghost predicate Tidy(s: Store, pid: RunId) {
    pid in s.plans && s.plans[pid].planId == pid && UniqueActions(s.plans[pid].actions)
  }

  /** Plan `q` is `p` up to the statuses of its actions. */
  ghost predicate SameActions(p: AgentPlan, q: AgentPlan) {
    && q.planId == p.planId && q.parentRunId == p.parentRunId && q.nodeId == p.nodeId && q.source == p.source
    && |q.actions| == |p.actions|
    && forall i :: 0 <= i < |p.actions| ==> q.actions[i] == p.actions[i].(status := q.actions[i].status)
  }

  /** From `s` to `t` only statuses of plan `pid` changed among the plans. */
  ghost predicate Kept(s: Store, t: Store, pid: RunId) {
    && pid in s.plans && pid in t.plans && t.plans == s.plans[pid := t.plans[pid]]
    && SameActions(s.plans[pid], t.plans[pid])
  }

  /** The request for action `aid` with answer `o` makes its tool run. */
  ghost predicate Runs(s: Store, pid: RunId, aid: string, o: Outcome) {
    && pid in s.plans && s.plans[pid].GetAction(aid).Some? && Due(s, pid, s.plans[pid].GetAction(aid).value)
    && LetsRun(o)
  }

  predicate Accepted(o: Outcome) {
    LetsRun(o) && o.call.Returned? && o.call.decision == Commit
  }

  ghost predicate SameResult(s: Store, t: Store, y: (RunId, string)) {
    (y in s.actionResults <==> y in t.actionResults) && (y in s.actionResults ==> t.actionResults[y] == s.actionResults[y])
  }

  predicate Is(s: Store, pid: RunId, i: nat, status: ActionStatus)
    requires pid in s.plans && i < |s.plans[pid].actions|
  {
    s.plans[pid].actions[i].status == status
  }

  /** What one answer about action `aid` may do to the results and to what is COMPLETED. */
  ghost predicate Completes(s: Store, t: Store, pid: RunId, aid: string, o: Outcome)
    requires Kept(s, t, pid)
  {
    && (forall y :: y != (pid, aid) ==> SameResult(s, t, y))
    && (forall i :: 0 <= i < |s.plans[pid].actions| && Is(s, pid, i, ActionStatus.Completed) ==>
          Is(t, pid, i, ActionStatus.Completed) && SameResult(s, t, (pid, s.plans[pid].actions[i].actionId)))
    && (forall i :: 0 <= i < |s.plans[pid].actions| && !Is(s, pid, i, ActionStatus.Completed) && Is(t, pid, i, ActionStatus.Completed) ==>
          && s.plans[pid].actions[i].actionId == aid && Runs(s, pid, aid, o) && Accepted(o)
          && (pid, aid) in t.actionResults && t.actionResults[(pid, aid)] == o.call.output)
  }

  lemma MovedKeeps(s: Store, t: Store, pid: RunId, a: PlannedAction, status: ActionStatus, o: Outcome)
    requires Due(s, pid, a) && Moved(s, t, pid, a, status)
    requires forall y :: y != (pid, a.actionId) ==> SameResult(s, t, y)
    requires status == ActionStatus.Completed ==>
      LetsRun(o) && Accepted(o) && (pid, a.actionId) in t.actionResults && t.actionResults[(pid, a.actionId)] == o.call.output
    ensures Tidy(t, pid) && Kept(s, t, pid) && Completes(s, t, pid, a.actionId, o)
  {
    var p := s.plans[pid];
    var k := FindActionIndex(p.actions, a.actionId);
    hide AgentPlan.GetAction;
    forall i | 0 <= i < |p.actions| ensures p.actions[i].actionId == a.actionId <==> i == k {}
  }

  lemma SameKeeps(s: Store, t: Store, pid: RunId, aid: string, o: Outcome)
    requires Tidy(s, pid) && t.plans == s.plans && t.actionResults == s.actionResults
    ensures Tidy(t, pid) && Kept(s, t, pid) && Completes(s, t, pid, aid, o)
  {
  }

  function Executed(s: Store, pid: RunId, aid: string): multiset<(RunId, string)> {
    s.executions + multiset{(pid, aid)}
  }

  /** One answer: the tool runs exactly if the action is due and the answer lets it run. */
  lemma VisitEffect(s: Store, pid: RunId, aid: string, attempt: nat, correlation: Option<string>, o: Outcome)
    requires Tidy(s, pid)
    ensures var t := Visit(s, pid, aid, attempt, correlation, o).store;
            && Tidy(t, pid) && Kept(s, t, pid) && Completes(s, t, pid, aid, o)
            && t.executions == if Runs(s, pid, aid, o) then Executed(s, pid, aid) else s.executions
  {
    hide Visit, Kept, Completes, Moved, AgentPlan.GetAction;
    var t := Visit(s, pid, aid, attempt, correlation, o).store;
    if s.plans[pid].GetAction(aid).Some? && Due(s, pid, s.plans[pid].GetAction(aid).value) {
      var a := s.plans[pid].GetAction(aid).value;
      GetActionId(s.plans[pid], aid);
      if o.decision == Reject {
        RejectIsObeyed(s, pid, a, attempt, correlation, o);
        MovedKeeps(s, t, pid, a, ActionStatus.Failed, o);
      } else if o.decision == Suggest {
        SuggestIsObeyed(s, pid, a, attempt, correlation, o);
        MovedKeeps(s, t, pid, a, RequiresApproval, o);
      } else if o.decision == Decision.Replan {
        ReplanIsObeyed(s, pid, a, attempt, correlation, o);
        MovedKeeps(s, t, pid, a, Stale, o);
      } else {
        RunEffect(s, pid, a, attempt, correlation, o);
      }
    } else {
      NotDueIsIdle(s, pid, aid, attempt, correlation, o);
      SameKeeps(s, t, pid, aid, o);
    }
  }

  lemma GetActionId(p: AgentPlan, aid: string)
    requires p.GetAction(aid).Some?
    ensures p.GetAction(aid).value.actionId == aid && p.GetAction(aid).value in p.actions
  {
    var i := FindActionIndex(p.actions, aid);
  }

  lemma RunEffect(s: Store, pid: RunId, a: PlannedAction, attempt: nat, correlation: Option<string>, o: Outcome)
    requires Due(s, pid, a) && LetsRun(o)
    ensures var t := Visit(s, pid, a.actionId, attempt, correlation, o).store;
            && Tidy(t, pid) && Kept(s, t, pid) && Completes(s, t, pid, a.actionId, o)
            && t.executions == Executed(s, pid, a.actionId)
  {
    hide Visit, Kept, Completes, Moved, AgentPlan.GetAction;
    var t := Visit(s, pid, a.actionId, attempt, correlation, o).store;
    if o.call.Raised? {
      RaiseIsObeyed(s, pid, a, attempt, correlation, o);
      MovedKeeps(s, t, pid, a, ActionStatus.Failed, o);
    } else if o.call.decision == Commit {
      CommitIsObeyed(s, pid, a, attempt, correlation, o);
      MovedKeeps(s, t, pid, a, ActionStatus.Completed, o);
    } else if o.call.decision == Retry && attempt < 2 {
      RetryIsObeyed(s, pid, a, attempt, correlation, o);
      MovedKeeps(s, t, pid, a, ActionStatus.Pending, o);
    } else {
      FailureIsObeyed(s, pid, a, attempt, correlation, o);
      MovedKeeps(s, t, pid, a, ActionStatus.Failed, o);
    }
  }

  // ---------------------------------------------------------------------
  // A chain of actions in one delivery
  // ---------------------------------------------------------------------

  /** The action that answer number `k` is given about, in the delivery of a request for action `aid`. */
  ghost function About(s: Store, pid: RunId, aid: string, attempt: nat, w: World, answers: nat, inlined: nat, k: nat): Option<string>
    decreases INLINE_ACTION_CHAIN_BUDGET - inlined
  {
    if k == answers then Some(aid)
    else
      var v := Visit(s, pid, aid, attempt, w.correlation, w.oracle(answers));
      if v.next.None? || inlined >= INLINE_ACTION_CHAIN_BUDGET || k < answers || k >= Delivery(s, pid, aid, attempt, w, answers, inlined).answers then None
      else About(v.store, pid, v.next.value.actionId, 0, w, answers + 1, inlined + 1, k)
  }

  function Delivery(s: Store, pid: RunId, aid: string, attempt: nat, w: World, answers: nat, inlined: nat): Handled {
    HandleAction(s, pid, aid, attempt, w.correlation, w.oracle, answers, inlined)
  }

  lemma {:induction false} MoreAnswers(s: Store, pid: RunId, aid: string, attempt: nat, w: World, answers: nat, inlined: nat)
    ensures Delivery(s, pid, aid, attempt, w, answers, inlined).answers > answers
    decreases INLINE_ACTION_CHAIN_BUDGET - inlined
  {
    hide Visit;
    var v := Visit(s, pid, aid, attempt, w.correlation, w.oracle(answers));
    if v.next.Some? && !v.next.value.requiresApproval && inlined < INLINE_ACTION_CHAIN_BUDGET {
      MoreAnswers(v.store, pid, v.next.value.actionId, 0, w, answers + 1, inlined + 1);
    }
  }

  /** The answers a delivery gets are numbered from `answers` on, and each is about one action. */
  lemma {:induction false} AboutInRange(s: Store, pid: RunId, aid: string, attempt: nat, w: World, answers: nat, inlined: nat, k: nat)
    ensures About(s, pid, aid, attempt, w, answers, inlined, k).Some? <==>
            answers <= k < Delivery(s, pid, aid, attempt, w, answers, inlined).answers
    decreases INLINE_ACTION_CHAIN_BUDGET - inlined
  {
    hide Visit;
    MoreAnswers(s, pid, aid, attempt, w, answers, inlined);
    var v := Visit(s, pid, aid, attempt, w.correlation, w.oracle(answers));
    if k > answers && v.next.Some? && !v.next.value.requiresApproval && inlined < INLINE_ACTION_CHAIN_BUDGET {
      AboutInRange(v.store, pid, v.next.value.actionId, 0, w, answers + 1, inlined + 1, k);
    }
  }

  lemma SameActionsAcross(p: AgentPlan, q: AgentPlan, r: AgentPlan)
    requires SameActions(p, q) && SameActions(q, r)
    ensures SameActions(p, r)
  {
  }

  /** What a delivery goes on to is the next action of the plan it leaves. */
  lemma NextIsNext(s: Store, pid: RunId, aid: string, attempt: nat, correlation: Option<string>, o: Outcome)
    requires Tidy(s, pid)
    ensures var v := Visit(s, pid, aid, attempt, correlation, o);
            v.next.Some? ==> pid in v.store.plans && v.next == v.store.plans[pid].NextPendingAction()
  {
    hide UniqueActions, Replaced, StatusOf, Execute, AgentPlan.NextPendingAction, AgentPlan.GetAction, Became;
    if s.plans[pid].GetAction(aid).Some? {
      var a := s.plans[pid].GetAction(aid).value;
      GetActionId(s.plans[pid], aid);
      if Due(s, pid, a) && LetsRun(o) {
        NextAfterRun(s, pid, a, attempt, correlation, o);
      }
    }
  }

  lemma NextAfterRun(s: Store, pid: RunId, a: PlannedAction, attempt: nat, correlation: Option<string>, o: Outcome)
    requires Due(s, pid, a) && LetsRun(o)
    ensures var v := Visit(s, pid, a.actionId, attempt, correlation, o);
            v.next.Some? ==> pid in v.store.plans && v.next == v.store.plans[pid].NextPendingAction()
  {
    hide Visit, AgentPlan.NextPendingAction, AgentPlan.GetAction, Became, UniqueActions;
    if o.call.Raised? {
      RaiseIsObeyed(s, pid, a, attempt, correlation, o);
    } else if o.call.decision == Commit {
      CommitIsObeyed(s, pid, a, attempt, correlation, o);
    } else if o.call.decision == Retry && attempt < 2 {
      RetryIsObeyed(s, pid, a, attempt, correlation, o);
    } else {
      FailureIsObeyed(s, pid, a, attempt, correlation, o);
    }
  }

  lemma NextIsOne(p: AgentPlan) returns (i: nat)
    requires p.NextPendingAction().Some?
    ensures i < |p.actions| && p.NextPendingAction() == Some(p.actions[i])
  {
    FirstPendingIsUnblocked(p.actions, p.CompletedActionIds());
    i :| 0 <= i < |p.actions| && p.actions[i] == p.NextPendingAction().value;
  }

  /** An action handled without a request of its own is one that needs no approval. */
  lemma {:induction false} ChainedNeedsNoApproval(s: Store, pid: RunId, aid: string, attempt: nat, w: World, answers: nat, inlined: nat, k: nat)
    returns (i: nat)
    requires Tidy(s, pid) && k > answers && About(s, pid, aid, attempt, w, answers, inlined, k).Some?
    ensures i < |s.plans[pid].actions| && About(s, pid, aid, attempt, w, answers, inlined, k) == Some(s.plans[pid].actions[i].actionId)
    ensures !s.plans[pid].actions[i].requiresApproval
    decreases INLINE_ACTION_CHAIN_BUDGET - inlined
  {
    hide Visit, UniqueActions;
    var v := Visit(s, pid, aid, attempt, w.correlation, w.oracle(answers));
    VisitEffect(s, pid, aid, attempt, w.correlation, w.oracle(answers));
    NextIsNext(s, pid, aid, attempt, w.correlation, w.oracle(answers));
    if k == answers + 1 {
      i := NextIsOne(v.store.plans[pid]);
    } else {
      i := ChainedNeedsNoApproval(v.store, pid, v.next.value.actionId, 0, w, answers + 1, inlined + 1, k);
    }
  }

  ghost predicate RequestsAfter(sent: seq<Message>, attempt: nat) {
    forall m :: m in sent && m.body.ActionRequested? ==> m.attempt > attempt
  }

  lemma AnnouncedAfter(sent: seq<Message>, events: seq<string>, p: AgentPlan, outcome: NodeOutcome, rest: seq<Message>, attempt: nat)
    requires Announces(sent, events, rest) && (SettlesWith(p, outcome, rest) || rest == [])
    ensures RequestsAfter(sent, attempt)
  {
    forall i | 0 <= i < |sent| ensures !sent[i].body.ActionRequested? {
      if i >= |events| {
        assert sent[|events| + (i - |events|)] == rest[i - |events|];
      }
    }
  }

  /** One visit asks for an action only to have it tried again. */
  lemma VisitRequests(s: Store, pid: RunId, aid: string, attempt: nat, correlation: Option<string>, o: Outcome)
    requires Tidy(s, pid)
    ensures RequestsAfter(Visit(s, pid, aid, attempt, correlation, o).sent, attempt)
  {
    hide Execute, Moved, Replaced, StatusOf, AgentPlan.NextPendingAction, AgentPlan.GetAction, Notices, UniqueActions;
    if s.plans[pid].GetAction(aid).Some? {
      GetActionId(s.plans[pid], aid);
    }
    if s.plans[pid].GetAction(aid).Some? && Due(s, pid, s.plans[pid].GetAction(aid).value) {
      var a := s.plans[pid].GetAction(aid).value;
      if o.decision == Reject {
        RejectIsObeyed(s, pid, a, attempt, correlation, o);
      } else if o.decision == Decision.Replan {
        ReplanIsObeyed(s, pid, a, attempt, correlation, o);
      } else if LetsRun(o) {
        RunRequests(s, pid, a, attempt, correlation, o);
      } else if o.decision == Suggest {
        SuggestIsObeyed(s, pid, a, attempt, correlation, o);
        var sent := Visit(s, pid, aid, attempt, correlation, o).sent;
        var rest :| SettlesWith(s.plans[pid], NodeWaiting, rest) && Announces(sent, o.events, rest);
        AnnouncedAfter(sent, o.events, s.plans[pid], NodeWaiting, rest, attempt);
      }
    }
  }

  lemma RunRequests(s: Store, pid: RunId, a: PlannedAction, attempt: nat, correlation: Option<string>, o: Outcome)
    requires Due(s, pid, a) && LetsRun(o)
    ensures RequestsAfter(Visit(s, pid, a.actionId, attempt, correlation, o).sent, attempt)
  {
    hide Visit, Became, AgentPlan.NextPendingAction, AgentPlan.GetAction, UniqueActions, Done, Announces;
    if o.call.Raised? {
      RaiseIsObeyed(s, pid, a, attempt, correlation, o);
    } else if o.call.decision == Commit {
      CommitIsObeyed(s, pid, a, attempt, correlation, o);
      var v := Visit(s, pid, a.actionId, attempt, correlation, o);
      var rest :| Announces(v.sent, o.call.events, rest)
        && if Done(v.store.plans[pid]) then SettlesWith(s.plans[pid], NodeCompleted, rest) else rest == [];
      AnnouncedAfter(v.sent, o.call.events, s.plans[pid], NodeCompleted, rest, attempt);
    } else if o.call.decision == Retry && attempt < 2 {
      RetryIsObeyed(s, pid, a, attempt, correlation, o);
    } else {
      FailureIsObeyed(s, pid, a, attempt, correlation, o);
    }
  }

  /** A next action is left to a request of its own only if it needs approval or the inline budget is used up. */
  lemma {:induction false} ChainStops(s: Store, pid: RunId, aid: string, attempt: nat, w: World, answers: nat, inlined: nat, m: Message)
    returns (i: nat)
    requires Tidy(s, pid) && m in Delivery(s, pid, aid, attempt, w, answers, inlined).sent && m.body.ActionRequested? && m.attempt == 0
    ensures i < |s.plans[pid].actions| && m.body == ActionRequested(pid, s.plans[pid].actions[i].actionId)
    ensures s.plans[pid].actions[i].requiresApproval
            || inlined + (Delivery(s, pid, aid, attempt, w, answers, inlined).answers - answers) > INLINE_ACTION_CHAIN_BUDGET
    decreases INLINE_ACTION_CHAIN_BUDGET - inlined
  {
    hide Visit, UniqueActions;
    var o := w.oracle(answers);
    var v := Visit(s, pid, aid, attempt, w.correlation, o);
    VisitEffect(s, pid, aid, attempt, w.correlation, o);
    VisitRequests(s, pid, aid, attempt, w.correlation, o);
    NextIsNext(s, pid, aid, attempt, w.correlation, o);
    assert v.next.Some?;
    if !v.next.value.requiresApproval && inlined < INLINE_ACTION_CHAIN_BUDGET {
      i := ChainStops(v.store, pid, v.next.value.actionId, 0, w, answers + 1, inlined + 1, m);
    } else {
      i := NextIsOne(v.store.plans[pid]);
    }
  }

  // ---------------------------------------------------------------------
  // What a delivery may change
  // ---------------------------------------------------------------------

  /** Some answer of the delivery, given about `x`, lets its tool run. */
  ghost predicate RunsIn(s: Store, pid: RunId, aid: string, attempt: nat, w: World, answers: nat, inlined: nat, x: string) {
    exists k: nat :: About(s, pid, aid, attempt, w, answers, inlined, k) == Some(x) && LetsRun(w.oracle(k))
  }

  /** Some answer of the delivery, given about `x`, accepts `output`. */
  ghost predicate AcceptsIn(s: Store, pid: RunId, aid: string, attempt: nat, w: World, answers: nat, inlined: nat, x: string, output: string) {
    exists k: nat :: About(s, pid, aid, attempt, w, answers, inlined, k) == Some(x) && Accepted(w.oracle(k)) && w.oracle(k).call.output == output
  }

  lemma RunsLater(s: Store, pid: RunId, aid: string, attempt: nat, w: World, answers: nat, inlined: nat, x: string)
    requires var v := Visit(s, pid, aid, attempt, w.correlation, w.oracle(answers));
             v.next.Some? && !v.next.value.requiresApproval && inlined < INLINE_ACTION_CHAIN_BUDGET
             && RunsIn(v.store, pid, v.next.value.actionId, 0, w, answers + 1, inlined + 1, x)
    ensures RunsIn(s, pid, aid, attempt, w, answers, inlined, x)
  {
    hide Visit;
    var v := Visit(s, pid, aid, attempt, w.correlation, w.oracle(answers));
    var k: nat :| About(v.store, pid, v.next.value.actionId, 0, w, answers + 1, inlined + 1, k) == Some(x) && LetsRun(w.oracle(k));
    AboutInRange(v.store, pid, v.next.value.actionId, 0, w, answers + 1, inlined + 1, k);
    assert About(s, pid, aid, attempt, w, answers, inlined, k) == Some(x);
  }

  lemma AcceptsLater(s: Store, pid: RunId, aid: string, attempt: nat, w: World, answers: nat, inlined: nat, x: string, output: string)
    requires var v := Visit(s, pid, aid, attempt, w.correlation, w.oracle(answers));
             v.next.Some? && !v.next.value.requiresApproval && inlined < INLINE_ACTION_CHAIN_BUDGET
             && AcceptsIn(v.store, pid, v.next.value.actionId, 0, w, answers + 1, inlined + 1, x, output)
    ensures AcceptsIn(s, pid, aid, attempt, w, answers, inlined, x, output)
  {
    hide Visit;
    var v := Visit(s, pid, aid, attempt, w.correlation, w.oracle(answers));
    var k: nat :| About(v.store, pid, v.next.value.actionId, 0, w, answers + 1, inlined + 1, k) == Some(x) && Accepted(w.oracle(k))
      && w.oracle(k).call.output == output;
    AboutInRange(v.store, pid, v.next.value.actionId, 0, w, answers + 1, inlined + 1, k);
    assert About(s, pid, aid, attempt, w, answers, inlined, k) == Some(x);
  }

  lemma KeptJoins(s: Store, v: Store, t: Store, pid: RunId)
    requires Kept(s, v, pid) && Kept(v, t, pid)
    ensures Kept(s, t, pid)
  {
    SameActionsAcross(s.plans[pid], v.plans[pid], t.plans[pid]);
  }

  /** Tools are run in a delivery only where the answer about their action lets them. */
  lemma {:induction false} OnlyLetRun(s: Store, pid: RunId, aid: string, attempt: nat, w: World, answers: nat, inlined: nat, y: (RunId, string))
    requires Tidy(s, pid)
    ensures var t := Delivery(s, pid, aid, attempt, w, answers, inlined).store;
            && Tidy(t, pid) && Kept(s, t, pid) && t.executions[y] >= s.executions[y]
            && (t.executions[y] > s.executions[y] ==> y.0 == pid && RunsIn(s, pid, aid, attempt, w, answers, inlined, y.1))
    decreases INLINE_ACTION_CHAIN_BUDGET - inlined
  {
    hide Visit, Tidy, Kept, RunsIn, Completes, Runs;
    var o := w.oracle(answers);
    var v := Visit(s, pid, aid, attempt, w.correlation, o);
    VisitEffect(s, pid, aid, attempt, w.correlation, o);
    if Runs(s, pid, aid, o) && y == (pid, aid) {
      RunsFirst(s, pid, aid, attempt, w, answers, inlined);
    }
    if v.next.Some? && !v.next.value.requiresApproval && inlined < INLINE_ACTION_CHAIN_BUDGET {
      OnlyLetRun(v.store, pid, v.next.value.actionId, 0, w, answers + 1, inlined + 1, y);
      KeptJoins(s, v.store, Delivery(s, pid, aid, attempt, w, answers, inlined).store, pid);
      if RunsIn(v.store, pid, v.next.value.actionId, 0, w, answers + 1, inlined + 1, y.1) {
        RunsLater(s, pid, aid, attempt, w, answers, inlined, y.1);
      }
    }
  }

  lemma RunsFirst(s: Store, pid: RunId, aid: string, attempt: nat, w: World, answers: nat, inlined: nat)
    requires Runs(s, pid, aid, w.oracle(answers))
    ensures RunsIn(s, pid, aid, attempt, w, answers, inlined, aid)
  {
    assert About(s, pid, aid, attempt, w, answers, inlined, answers) == Some(aid);
  }

  lemma AcceptsFirst(s: Store, pid: RunId, aid: string, attempt: nat, w: World, answers: nat, inlined: nat)
    requires Accepted(w.oracle(answers))
    ensures AcceptsIn(s, pid, aid, attempt, w, answers, inlined, aid, w.oracle(answers).call.output)
  {
    assert About(s, pid, aid, attempt, w, answers, inlined, answers) == Some(aid);
  }

  /** No result of an action of another plan changes. */
  ghost predicate Apart(s: Store, t: Store, pid: RunId) {
    forall y: (RunId, string) :: y.0 != pid ==> SameResult(s, t, y)
  }

  /** A COMPLETED action keeps its result; one that becomes COMPLETED has the output accepted from it. */
  ghost predicate Records(s: Store, t: Store, pid: RunId, aid: string, attempt: nat, w: World, answers: nat, inlined: nat, i: nat)
    requires Kept(s, t, pid) && i < |s.plans[pid].actions|
  {
    var y := (pid, s.plans[pid].actions[i].actionId);
    && (Is(s, pid, i, ActionStatus.Completed) ==> Is(t, pid, i, ActionStatus.Completed) && SameResult(s, t, y))
    && (!Is(s, pid, i, ActionStatus.Completed) && Is(t, pid, i, ActionStatus.Completed) ==>
          y in t.actionResults && AcceptsIn(s, pid, aid, attempt, w, answers, inlined, y.1, t.actionResults[y]))
  }

  /** The first answer of a delivery. */
  lemma VisitRecords(s: Store, pid: RunId, aid: string, attempt: nat, w: World, answers: nat, inlined: nat, i: nat)
    requires Tidy(s, pid) && i < |s.plans[pid].actions|
    ensures var t := Visit(s, pid, aid, attempt, w.correlation, w.oracle(answers)).store;
            && Tidy(t, pid) && Kept(s, t, pid) && Apart(s, t, pid) && Records(s, t, pid, aid, attempt, w, answers, inlined, i)
  {
    hide Visit, Tidy, AcceptsIn, Runs, Kept;
    VisitEffect(s, pid, aid, attempt, w.correlation, w.oracle(answers));
    if Accepted(w.oracle(answers)) {
      AcceptsFirst(s, pid, aid, attempt, w, answers, inlined);
    }
  }

  lemma KeptAcross(s: Store, v: Store, t: Store, pid: RunId)
    requires Kept(s, v, pid) && Kept(v, t, pid) && Apart(s, v, pid) && Apart(v, t, pid)
    ensures Kept(s, t, pid) && Apart(s, t, pid)
  {
    KeptJoins(s, v, t, pid);
    forall y: (RunId, string) | y.0 != pid ensures SameResult(s, t, y) {
      assert SameResult(s, v, y) && SameResult(v, t, y);
    }
  }

  /** The answers after the first one. */
  lemma RecordsAcross(s: Store, t: Store, pid: RunId, aid: string, attempt: nat, w: World, answers: nat, inlined: nat, i: nat)
    requires Kept(s, t, pid) && i < |s.plans[pid].actions|
    requires var v := Visit(s, pid, aid, attempt, w.correlation, w.oracle(answers));
             && Kept(s, v.store, pid) && Kept(v.store, t, pid) && v.next.Some? && !v.next.value.requiresApproval && inlined < INLINE_ACTION_CHAIN_BUDGET
             && Records(s, v.store, pid, aid, attempt, w, answers, inlined, i)
             && Records(v.store, t, pid, v.next.value.actionId, 0, w, answers + 1, inlined + 1, i)
    ensures Records(s, t, pid, aid, attempt, w, answers, inlined, i)
  {
    hide Visit, AcceptsIn;
    var v, y := Visit(s, pid, aid, attempt, w.correlation, w.oracle(answers)), (pid, s.plans[pid].actions[i].actionId);
    assert v.store.plans[pid].actions[i].actionId == y.1;
    if !Is(v.store, pid, i, ActionStatus.Completed) && Is(t, pid, i, ActionStatus.Completed) {
      AcceptsLater(s, pid, aid, attempt, w, answers, inlined, y.1, t.actionResults[y]);
    }
  }

  /** What a delivery records is what was accepted in it, action by action. */
  lemma {:induction false} DeliveryRecords(s: Store, pid: RunId, aid: string, attempt: nat, w: World, answers: nat, inlined: nat, i: nat)
    requires Tidy(s, pid) && i < |s.plans[pid].actions|
    ensures var t := Delivery(s, pid, aid, attempt, w, answers, inlined).store;
            && Tidy(t, pid) && Kept(s, t, pid) && Apart(s, t, pid) && Records(s, t, pid, aid, attempt, w, answers, inlined, i)
    decreases INLINE_ACTION_CHAIN_BUDGET - inlined
  {
    hide Visit, Records, Apart;
    var v := Visit(s, pid, aid, attempt, w.correlation, w.oracle(answers));
    VisitRecords(s, pid, aid, attempt, w, answers, inlined, i);
    if v.next.Some? && !v.next.value.requiresApproval && inlined < INLINE_ACTION_CHAIN_BUDGET {
      DeliveryRecords(v.store, pid, v.next.value.actionId, 0, w, answers + 1, inlined + 1, i);
      var t := Delivery(s, pid, aid, attempt, w, answers, inlined).store;
      KeptAcross(s, v.store, t, pid);
      RecordsAcross(s, t, pid, aid, attempt, w, answers, inlined, i);
    }
  }

  lemma {:induction false} DeliveryApart(s: Store, pid: RunId, aid: string, attempt: nat, w: World, answers: nat, inlined: nat)
    requires Tidy(s, pid)
    ensures Apart(s, Delivery(s, pid, aid, attempt, w, answers, inlined).store, pid)
    decreases INLINE_ACTION_CHAIN_BUDGET - inlined
  {
    hide Visit, Tidy, Runs;
    var v := Visit(s, pid, aid, attempt, w.correlation, w.oracle(answers));
    VisitEffect(s, pid, aid, attempt, w.correlation, w.oracle(answers));
    if v.next.Some? && !v.next.value.requiresApproval && inlined < INLINE_ACTION_CHAIN_BUDGET {
      DeliveryApart(v.store, pid, v.next.value.actionId, 0, w, answers + 1, inlined + 1);
      var t := Delivery(s, pid, aid, attempt, w, answers, inlined).store;
      forall y: (RunId, string) | y.0 != pid ensures SameResult(s, t, y) {
        assert SameResult(s, v.store, y) && SameResult(v.store, t, y);
      }
    }
  }

  // ---------------------------------------------------------------------
  // Whole runs
  // ---------------------------------------------------------------------

  /** Choice number `j` of the run delivers the request for an action of plan `pid`. */
  ghost predicate Delivers(x: Setup, cs: seq<Choice>, j: nat, pid: RunId) {
    && j < |cs| && cs[j].Deliver? && cs[j].at < |Run(x, cs[..j]).bag|
    && var m := Run(x, cs[..j]).bag[cs[j].at]; m.body.ActionRequested? && m.body.plan == pid
  }

  /** Choice number `j` delivers a request of plan `pid` and gets an answer about action `aid` that lets its tool run. */
  ghost predicate RunsAt(x: Setup, cs: seq<Choice>, j: nat, pid: RunId, aid: string) {
    && Delivers(x, cs, j, pid)
    && var n := Run(x, cs[..j]);
    RunsIn(n.store, pid, n.bag[cs[j].at].body.actionId, n.bag[cs[j].at].attempt, Around(x, cs[j].world), 0, cs[j].inlined, aid)
  }

  /** Choice number `j` delivers a request of plan `pid` and gets an answer about action `aid` that accepts `output`. */
  ghost predicate AcceptsAt(x: Setup, cs: seq<Choice>, j: nat, pid: RunId, aid: string, output: string) {
    && Delivers(x, cs, j, pid)
    && var n := Run(x, cs[..j]);
    AcceptsIn(n.store, pid, n.bag[cs[j].at].body.actionId, n.bag[cs[j].at].attempt, Around(x, cs[j].world), 0, cs[j].inlined, aid, output)
  }

  /** No action is executed or changes, no result changes, and what is new is PENDING. */
  ghost predicate Steady(s: Store, t: Store) {
    && t.executions == s.executions && t.actionResults == s.actionResults
    && (forall pid :: pid in s.plans ==> pid in t.plans && t.plans[pid] == s.plans[pid])
    && (forall pid, i :: pid in t.plans && pid !in s.plans && 0 <= i < |t.plans[pid].actions| ==> Is(t, pid, i, ActionStatus.Pending))
  }

  lemma TaskIsSteady(s: Store, run: RunId, u: string, w: Proposal)
    requires run in s.graphs ==> s.graphs[run].GetNode(ROOT_NODE_ID).None?
    ensures Steady(s, HandleTask(s, run, u, w).0)
  {
    hide AgentPlan.NextPendingAction, Resume, TaskGraph.GetNode;
    var p := PlanForNode(u, w.source, run, w.drafts, w.approval);
    if u != ROOT_NODE_ID {
      forall i | 0 <= i < |p.actions| ensures p.actions[i].status == ActionStatus.Pending {
        NormalizedAt(w.drafts, w.approval, p.planId.id, i);
      }
    }
  }

  lemma SettlementIsSteady(s: Store, run: RunId, u: string, o: NodeOutcome)
    ensures Steady(s, HandleSettled(s, run, u, o).0)
  {
    hide TaskGraph.Advanced, BuildResult, Reports, Dispatch;
  }

  lemma SameIsSteady(s: Store)
    ensures Steady(s, s)
  {
  }

  /** Everything but the delivery of an action request is steady. */
  lemma OtherStepsAreSteady(x: Setup, n: Net, c: Choice)
    requires NetOk(x, n)
    requires c.Deliver? && c.at < |n.bag| ==> !n.bag[c.at].body.ActionRequested?
    ensures Steady(n.store, Next(x, n, c).store)
  {
    hide HandleTask, HandleSettled, TaskGraph.Claimed, Steady, NetOk, RunOf;
    SameIsSteady(n.store);
    if c.Deliver? && c.at < |n.bag| {
      var m := n.bag[c.at];
      WaitingIsOk(x, n, m);
      match m.body
      case TaskRequested(run, u) => TaskIsSteady(n.store, run, u, c.world.proposal);
      case NodeSettled(run, u, o) => SettlementIsSteady(n.store, run, u, o);
      case _ =>
    }
  }

  /** A waiting message belongs to the run. */
  lemma WaitingIsOk(x: Setup, n: Net, m: Message)
    requires NetOk(x, n) && m in n.bag
    ensures x.Run() in n.store.graphs && n.store.graphs[x.Run()].GetNode(ROOT_NODE_ID).None?
    ensures m.body.Trigger? ==> RunOf(m.body.source) == x.Run()
    ensures m.body.TaskRequested? ==> m.body.run == x.Run()
  {
    assert m in Set(n.bag) && Orchestration.MessageOk(x.Run(), n.store, m);
  }

  /** In a reachable state plans are filed under their own ids, and their action ids are unique. */
  lemma RunIsTidy(x: Setup, n: Net, pid: RunId)
    requires NetOk(x, n) && pid in n.store.plans
    ensures Tidy(n.store, pid)
  {
    assert Orchestration.PlanOk(x.Run(), n.store.graphs[x.Run()], pid, n.store.plans[pid]);
  }

  lemma RequestedPlanIsKnown(x: Setup, n: Net, m: Message)
    requires NetOk(x, n) && m in n.bag && m.body.ActionRequested?
    ensures m.body.plan in n.store.plans && Tidy(n.store, m.body.plan)
  {
    assert m in Set(n.bag) && Orchestration.MessageOk(x.Run(), n.store, m);
    RunIsTidy(x, n, m.body.plan);
  }

  lemma PrefixRun(x: Setup, cs: seq<Choice>, j: nat)
    requires cs != [] && j < |cs|
    ensures cs[..|cs| - 1][..j] == cs[..j]
  {
  }

  /** An action is executed only in a delivery that gets an answer about it that lets its tool run. */
  lemma {:induction false} ExecutedOnlyIfLet(x: Setup, cs: seq<Choice>, pid: RunId, aid: string)
    requires x.Valid() && forall c :: c in cs ==> Proper(c)
    ensures Run(x, cs).store.executions[(pid, aid)] > 0 ==> exists j: nat :: RunsAt(x, cs, j, pid, aid)
  {
    hide Next, RunsIn, Setup.Valid, Proper, Steady;
    if cs != [] && Run(x, cs).store.executions[(pid, aid)] > 0 {
      var last := |cs| - 1;
      var before := cs[..last];
      var n := Run(x, before);
      ExecutedOnlyIfLet(x, before, pid, aid);
      if n.store.executions[(pid, aid)] > 0 {
        var j: nat :| RunsAt(x, before, j, pid, aid);
        PrefixRun(x, cs, j);
        assert RunsAt(x, cs, j, pid, aid);
      } else {
        RunIsOk(x, before);
        LastExecution(x, n, cs[last], pid, aid);
        assert RunsAt(x, cs, last, pid, aid);
      }
    }
  }

  /** A choice in which an action is executed delivers a request of its plan and gets an answer that lets its tool run. */
  lemma LastExecution(x: Setup, n: Net, c: Choice, pid: RunId, aid: string)
    requires NetOk(x, n) && Next(x, n, c).store.executions[(pid, aid)] > n.store.executions[(pid, aid)]
    ensures c.Deliver? && c.at < |n.bag| && n.bag[c.at].body.ActionRequested? && n.bag[c.at].body.plan == pid
    ensures RunsIn(n.store, pid, n.bag[c.at].body.actionId, n.bag[c.at].attempt, Around(x, c.world), 0, c.inlined, aid)
  {
    hide RunsIn, HandleAction, NetOk;
    if c.Deliver? && c.at < |n.bag| && n.bag[c.at].body.ActionRequested? {
      var m := n.bag[c.at];
      RequestedPlanIsKnown(x, n, m);
      OnlyLetRun(n.store, m.body.plan, m.body.actionId, m.attempt, Around(x, c.world), 0, c.inlined, (pid, aid));
    } else {
      OtherStepsAreSteady(x, n, c);
      assert false;
    }
  }

  /** The result of a COMPLETED action is the output that an answer accepted in one of the deliveries. */
  ghost predicate Accounted(x: Setup, cs: seq<Choice>, s: Store, pid: RunId, aid: string) {
    (pid, aid) in s.actionResults && exists j: nat :: AcceptsAt(x, cs, j, pid, aid, s.actionResults[(pid, aid)])
  }

  /** At every moment, what is stored for a COMPLETED action is the output that was accepted from its tool. */
  lemma {:induction false} ResultsAreAccepted(x: Setup, cs: seq<Choice>, pid: RunId, i: nat)
    requires x.Valid() && forall c :: c in cs ==> Proper(c)
    requires pid in Run(x, cs).store.plans && i < |Run(x, cs).store.plans[pid].actions| && Is(Run(x, cs).store, pid, i, ActionStatus.Completed)
    ensures Accounted(x, cs, Run(x, cs).store, pid, Run(x, cs).store.plans[pid].actions[i].actionId)
  {
    hide Next, AcceptsIn, Setup.Valid, Proper, Steady;
    if cs == [] {
      BeginStore(x);
    } else {
      var last := |cs| - 1;
      var before := cs[..last];
      var n := Run(x, before);
      RunIsOk(x, before);
      LastRecord(x, n, cs[last], pid, i);
      var aid := Run(x, cs).store.plans[pid].actions[i].actionId;
      if Was(n.store, pid, i) {
        ResultsAreAccepted(x, before, pid, i);
        var j: nat :| AcceptsAt(x, before, j, pid, aid, n.store.actionResults[(pid, aid)]);
        PrefixRun(x, cs, j);
        assert AcceptsAt(x, cs, j, pid, aid, n.store.actionResults[(pid, aid)]);
      } else {
        assert AcceptsAt(x, cs, last, pid, aid, Run(x, cs).store.actionResults[(pid, aid)]);
      }
    }
  }

  ghost predicate Was(s: Store, pid: RunId, i: nat) {
    pid in s.plans && i < |s.plans[pid].actions| && Is(s, pid, i, ActionStatus.Completed)
  }

  /** Message `m` took the store from `s` to `t`; a COMPLETED action was so before, with the same result, or the delivery accepted its result. */
  ghost predicate RecordedBy(s: Store, t: Store, m: Message, w: World, inlined: nat, pid: RunId, i: nat)
    requires Was(t, pid, i)
  {
    var y := (pid, t.plans[pid].actions[i].actionId);
    && (Was(s, pid, i) ==> s.plans[pid].actions[i].actionId == y.1 && SameResult(s, t, y))
    && (!Was(s, pid, i) ==>
          && m.body.ActionRequested? && m.body.plan == pid && y in t.actionResults
          && AcceptsIn(s, pid, m.body.actionId, m.attempt, w, 0, inlined, y.1, t.actionResults[y]))
  }

  lemma DeliveryIsRecorded(s: Store, m: Message, w: World, inlined: nat, pid: RunId, i: nat)
    requires m.body.ActionRequested? && Tidy(s, m.body.plan)
    requires Was(Delivery(s, m.body.plan, m.body.actionId, m.attempt, w, 0, inlined).store, pid, i)
    ensures RecordedBy(s, Delivery(s, m.body.plan, m.body.actionId, m.attempt, w, 0, inlined).store, m, w, inlined, pid, i)
  {
    hide AcceptsIn, HandleAction;
    var q := m.body.plan;
    OnlyLetRun(s, q, m.body.actionId, m.attempt, w, 0, inlined, (pid, ""));
    if pid == q {
      DeliveryRecords(s, q, m.body.actionId, m.attempt, w, 0, inlined, i);
    } else {
      DeliveryApart(s, q, m.body.actionId, m.attempt, w, 0, inlined);
    }
  }

  lemma SteadyIsRecorded(s: Store, t: Store, m: Message, w: World, inlined: nat, pid: RunId, i: nat)
    requires Steady(s, t) && Was(t, pid, i)
    ensures Was(s, pid, i) && RecordedBy(s, t, m, w, inlined, pid, i)
  {
    assert pid !in s.plans ==> Is(t, pid, i, ActionStatus.Pending);
  }

  lemma LastRecord(x: Setup, n: Net, c: Choice, pid: RunId, i: nat)
    requires NetOk(x, n) && Was(Next(x, n, c).store, pid, i)
    ensures if c.Deliver? && c.at < |n.bag| then RecordedBy(n.store, Next(x, n, c).store, n.bag[c.at], Around(x, c.world), c.inlined, pid, i)
            else Was(n.store, pid, i) && Next(x, n, c).store == n.store
  {
    hide RecordedBy, HandleAction, NetOk, Tidy, Was, Steady, HandleTask, HandleSettled, HandleWhole, HandleOrchestrated;
    if c.Deliver? && c.at < |n.bag| {
      var m := n.bag[c.at];
      if m.body.ActionRequested? {
        RequestedPlanIsKnown(x, n, m);
        DeliveryIsRecorded(n.store, m, Around(x, c.world), c.inlined, pid, i);
      } else {
        OtherStepsAreSteady(x, n, c);
        SteadyIsRecorded(n.store, Next(x, n, c).store, m, Around(x, c.world), c.inlined, pid, i);
      }
    }
  }
}
