/**
  Runs do not disturb one another. Plans lie under their own ids, but idempotency keys are shared by all
  runs of all workspaces: a delivery depends on no keys but those of the plan it is for.
 */
module Interference {
  import opened Common
  import opened Events
  import opened Plans
  import opened Planner
  import opened Runtime
  import Orchestration

  /** Stores `s` and `t` hold the same plan under `pid` and agree on its keys; all else may differ. */
  ghost predicate Agree(s: Store, t: Store, pid: RunId) {
    && pid in s.plans && pid in t.plans && t.plans[pid] == s.plans[pid] && s.plans[pid].planId == pid
    && (forall i :: 0 <= i < |s.plans[pid].actions| ==>
          (s.plans[pid].actions[i].idempotencyKey in s.keys <==> s.plans[pid].actions[i].idempotencyKey in t.keys))
  }

  /** From `s` to `u` and from `t` to `v` the same happened to plan `pid`, and nothing to any other. */
  ghost predicate Alike(s: Store, t: Store, u: Store, v: Store, pid: RunId)
    requires pid in s.plans
  {
    && Agree(u, v, pid) && u.plans == s.plans[pid := u.plans[pid]] && v.plans == t.plans[pid := v.plans[pid]]
    && s.keys <= u.keys && v.keys == t.keys + (u.keys - s.keys)
    && SameActions(s.plans[pid], u.plans[pid])
    && (forall k :: k in u.keys && k !in s.keys ==> HasKey(s.plans[pid], k))
  }

  ghost predicate HasKey(p: AgentPlan, key: string) {
    exists i :: 0 <= i < |p.actions| && p.actions[i].idempotencyKey == key
  }

  ghost predicate SameActions(p: AgentPlan, q: AgentPlan) {
    |q.actions| == |p.actions| && forall i :: 0 <= i < |p.actions| ==>
      q.actions[i].idempotencyKey == p.actions[i].idempotencyKey && q.actions[i].actionId == p.actions[i].actionId
  }

  /** Writing a status for an action with a unique id leaves all ids and keys as they were. */
  lemma UpdatedKeys(p: AgentPlan, a: PlannedAction, status: ActionStatus)
    requires UniqueActions(p.actions) && p.GetAction(a.actionId) == Some(a)
    ensures SameActions(p, p.ReplaceAction(a.WithStatus(status))) && HasKey(p, a.idempotencyKey)
  {
    var i := FindActionIndex(p.actions, a.actionId);
    assert p.actions[i] == a;
  }

  /** Replacing the plan and recording that key in both stores. */
  lemma AlikeUpdate(s: Store, t: Store, u: Store, v: Store, pid: RunId, q: AgentPlan, keys: set<string>)
    requires Agree(s, t, pid) && q.planId == pid && SameActions(s.plans[pid], q) && forall k :: k in keys ==> HasKey(s.plans[pid], k)
    requires u.plans == s.plans[pid := q] && v.plans == t.plans[pid := q] && u.keys == s.keys + keys && v.keys == t.keys + keys
    requires forall k :: k in keys ==> k !in s.keys
    ensures Alike(s, t, u, v, pid)
  {
  }

  /** Visits `v` and `w` send and choose the same. */
  predicate SameVisit(v: Visited, w: Visited) {
    v.sent == w.sent && v.next == w.next && v.raised == w.raised
  }

  lemma ChoiceAlike(s: Store, t: Store, u: Store, v: Store, pid: RunId, q: AgentPlan, sent: seq<Message>)
    requires pid in s.plans && Alike(s, t, u, v, pid)
    ensures Alike(s, t, ChooseNext(u, q, sent).store, ChooseNext(v, q, sent).store, pid) && SameVisit(ChooseNext(u, q, sent), ChooseNext(v, q, sent))
  {
    hide AgentPlan.NextPendingAction, SameActions, HasKey;
  }

  lemma EndAlike(s: Store, t: Store, u: Store, v: Store, p: AgentPlan, a: PlannedAction, status: ActionStatus, o: NodeOutcome, sent: seq<Message>)
    requires Agree(s, t, p.planId) && s.plans[p.planId] == p && UniqueActions(p.actions) && p.GetAction(a.actionId) == Some(a)
    requires u.plans == s.plans && v.plans == t.plans && u.keys == s.keys && v.keys == t.keys
    ensures var x, y := End(u, p, a, status, o, sent), End(v, p, a, status, o, sent);
            Alike(s, t, x.store, y.store, p.planId) && SameVisit(x, y)
  {
    hide AgentPlan.ReplaceAction, AgentPlan.GetAction, Settlement, UniqueActions;
    UpdatedKeys(p, a, status);
    hide SameActions, HasKey, Agree;
    assert s.keys + {} == s.keys && t.keys + {} == t.keys;
    var q := p.ReplaceAction(a.WithStatus(status));
    AlikeUpdate(s, t, End(u, p, a, status, o, sent).store, End(v, p, a, status, o, sent).store, p.planId, q, {});
  }

  lemma ExecuteAlike(s: Store, t: Store, p: AgentPlan, a: PlannedAction, attempt: nat, o: Outcome)
    requires Agree(s, t, p.planId) && s.plans[p.planId] == p && UniqueActions(p.actions) && p.GetAction(a.actionId) == Some(a) && a.idempotencyKey !in s.keys
    ensures var x, y := Execute(s, p, a, attempt, o), Execute(t, p, a, attempt, o);
            Alike(s, t, x.store, y.store, p.planId) && SameVisit(x, y)
  {
    hide AgentPlan.GetAction, UniqueActions, Execute, SameActions, HasKey, Alike, AgentPlan.ReplaceAction, ChooseNext, End, Notices;
    Orchestration.ExecuteForm(s, p, a, attempt, o);
    Orchestration.ExecuteForm(t, p, a, attempt, o);
    var calledS := s.(executions := s.executions + multiset{(p.planId, a.actionId)});
    var calledT := t.(executions := t.executions + multiset{(p.planId, a.actionId)});
    match o.call
    case Raised => EndAlike(s, t, calledS, calledT, p, a, ActionStatus.Failed, NodeFailed, []);
    case Returned(output, decision, events) =>
      var savedS, savedT := calledS.SaveActionResult(p.planId, a.actionId, output), calledT.SaveActionResult(p.planId, a.actionId, output);
      if decision == Commit {
        UpdatedKeys(p, a, ActionStatus.Completed);
        var q := p.ReplaceAction(a.WithStatus(ActionStatus.Completed));
        var u, v := savedS.SavePlan(q).RecordKey(a.idempotencyKey), savedT.SavePlan(q).RecordKey(a.idempotencyKey);
        var one := multiset{(p.planId, a.actionId)};
        AlikeUpdate(s, t, u.(commits := u.commits + one), v.(commits := v.commits + one), p.planId, q, {a.idempotencyKey});
        ChoiceAlike(s, t, u.(commits := u.commits + one), v.(commits := v.commits + one), p.planId, q, Notices(events));
      } else if decision == Retry && attempt + 1 < ACTION_EXECUTION_ATTEMPTS {
        UpdatedKeys(p, a, ActionStatus.Pending);
        var q := p.ReplaceAction(a.WithStatus(ActionStatus.Pending));
        assert s.keys + {} == s.keys && t.keys + {} == t.keys;
        AlikeUpdate(s, t, savedS.SavePlan(q), savedT.SavePlan(q), p.planId, q, {});
      } else {
        EndAlike(s, t, savedS, savedT, p, a, ActionStatus.Failed, NodeFailed, []);
      }
  }

  lemma ActAlike(s: Store, t: Store, p: AgentPlan, a: PlannedAction, attempt: nat, correlation: Option<string>, o: Outcome)
    requires Agree(s, t, p.planId) && s.plans[p.planId] == p && UniqueActions(p.actions) && p.GetAction(a.actionId) == Some(a) && a.idempotencyKey !in s.keys
    ensures var x, y := ActOn(s, p, a, attempt, correlation, o), ActOn(t, p, a, attempt, correlation, o);
            Alike(s, t, x.store, y.store, p.planId) && SameVisit(x, y)
  {
    hide AgentPlan.GetAction, UniqueActions, Execute, SameActions, HasKey, Alike, AgentPlan.ReplaceAction, Notices;
    match o.decision
    case Suggest =>
      UpdatedKeys(p, a, RequiresApproval);
      var x, y := ActOn(s, p, a, attempt, correlation, o), ActOn(t, p, a, attempt, correlation, o);
      AlikeUpdate(s, t, x.store, y.store, p.planId, p.ReplaceAction(a.WithStatus(RequiresApproval)), {a.idempotencyKey});
    case Replan => EndAlike(s, t, s, t, p, a, Stale, NodeFailed, []);
    case Reject => EndAlike(s, t, s, t, p, a, ActionStatus.Failed, NodeFailed, []);
    case _ => ExecuteAlike(s, t, p, a, attempt, o);
  }

  lemma NothingAlike(s: Store, t: Store, pid: RunId)
    requires Agree(s, t, pid)
    ensures Alike(s, t, s, t, pid)
  {
    assert s.plans[pid := s.plans[pid]] == s.plans && t.plans[pid := t.plans[pid]] == t.plans && t.keys + (s.keys - s.keys) == t.keys;
  }

  lemma VisitAlike(s: Store, t: Store, pid: RunId, aid: string, attempt: nat, correlation: Option<string>, o: Outcome)
    requires Agree(s, t, pid) && UniqueActions(s.plans[pid].actions)
    ensures var v, w := Visit(s, pid, aid, attempt, correlation, o), Visit(t, pid, aid, attempt, correlation, o);
            Alike(s, t, v.store, w.store, pid) && SameVisit(v, w)
  {
    hide UniqueActions, ActOn, ChooseNext, Alike;
    NothingAlike(s, t, pid);
    var p := s.plans[pid];
    if p.GetAction(aid).Some? {
      var a := p.GetAction(aid).value;
      var i := FindActionIndex(p.actions, aid);
      assert a.idempotencyKey in s.keys <==> a.idempotencyKey in t.keys;
      ChoiceAlike(s, t, s, t, pid, p, []);
      if a.status == ActionStatus.Pending && a.idempotencyKey !in s.keys {
        ActAlike(s, t, p, a, attempt, correlation, o);
      }
    }
  }

  lemma SameUnique(s: Store, t: Store, u: Store, v: Store, pid: RunId)
    requires pid in s.plans && Alike(s, t, u, v, pid) && UniqueActions(s.plans[pid].actions)
    ensures pid in u.plans && UniqueActions(u.plans[pid].actions)
  {
    hide HasKey;
  }

  lemma AlikeTwice(s: Store, t: Store, u: Store, v: Store, x: Store, y: Store, pid: RunId)
    requires pid in s.plans && pid in u.plans && Alike(s, t, u, v, pid) && Alike(u, v, x, y, pid)
    ensures Alike(s, t, x, y, pid)
  {
    assert t.keys + (u.keys - s.keys) + (x.keys - u.keys) == t.keys + (x.keys - s.keys);
    forall k | k in x.keys && k !in s.keys ensures HasKey(s.plans[pid], k) {
      if k !in u.keys {
        var i :| 0 <= i < |u.plans[pid].actions| && u.plans[pid].actions[i].idempotencyKey == k;
        assert s.plans[pid].actions[i].idempotencyKey == k;
      }
    }
  }

  /**
    A delivery to a plan does and sends the same in any two stores that hold the plan and agree on its
    keys, and touches nothing else, whatever other runs have stored beside it.
   */
  lemma {:induction false} DeliveryIsAlike(s: Store, t: Store, pid: RunId, aid: string, attempt: nat, correlation: Option<string>,
                                           oracle: nat -> Outcome, answers: nat, inlined: nat)
    requires Agree(s, t, pid) && UniqueActions(s.plans[pid].actions)
    ensures var g := HandleAction(s, pid, aid, attempt, correlation, oracle, answers, inlined);
            var h := HandleAction(t, pid, aid, attempt, correlation, oracle, answers, inlined);
            Alike(s, t, g.store, h.store, pid) && g.sent == h.sent && g.raised == h.raised
    decreases INLINE_ACTION_CHAIN_BUDGET - inlined
  {
    hide Visit, UniqueActions, SameActions, HasKey;
    var v, w := Visit(s, pid, aid, attempt, correlation, oracle(answers)), Visit(t, pid, aid, attempt, correlation, oracle(answers));
    VisitAlike(s, t, pid, aid, attempt, correlation, oracle(answers));
    if v.next.Some? && !v.next.value.requiresApproval && inlined < INLINE_ACTION_CHAIN_BUDGET {
      SameUnique(s, t, v.store, w.store, pid);
      DeliveryIsAlike(v.store, w.store, pid, v.next.value.actionId, 0, correlation, oracle, answers + 1, inlined + 1);
      var g := HandleAction(v.store, pid, v.next.value.actionId, 0, correlation, oracle, answers + 1, inlined + 1);
      var h := HandleAction(w.store, pid, v.next.value.actionId, 0, correlation, oracle, answers + 1, inlined + 1);
      AlikeTwice(s, t, v.store, w.store, g.store, h.store, pid);
    }
  }

  /** Every key in `extra` has a prefix that differs from `prefix`. */
  ghost predicate Foreign(extra: set<string>, prefix: string) {
    forall key :: key in extra ==> ForeignKey(key, prefix)
  }

  ghost predicate ForeignKey(key: string, prefix: string) {
    exists q, t, i: nat :: key == Key(q, t, i) && Plain(t) && q != prefix
  }

  /** Other runs, with other key prefixes, may store plans and record keys beside a plan: deliveries to it go on as without them. */
  lemma OtherRunsDoNotDisturb(s: Store, others: map<RunId, AgentPlan>, extra: set<string>, prefix: string, pid: RunId, aid: string, attempt: nat,
                              correlation: Option<string>, oracle: nat -> Outcome, answers: nat, inlined: nat)
    requires pid in s.plans && s.plans[pid].planId == pid && UniqueActions(s.plans[pid].actions) && Keyed(s.plans[pid].actions, prefix)
    requires pid !in others && Foreign(extra, prefix)
    ensures var t := s.(plans := s.plans + others, keys := s.keys + extra);
            var g := HandleAction(s, pid, aid, attempt, correlation, oracle, answers, inlined);
            var h := HandleAction(t, pid, aid, attempt, correlation, oracle, answers, inlined);
            && h.sent == g.sent && h.raised == g.raised && pid in g.store.plans
            && h.store.plans == (s.plans + others)[pid := g.store.plans[pid]] && h.store.keys == g.store.keys + extra
  {
    hide Key, HandleAction, UniqueActions;
    var t := s.(plans := s.plans + others, keys := s.keys + extra);
    forall i | 0 <= i < |s.plans[pid].actions| ensures s.plans[pid].actions[i].idempotencyKey !in extra {
      var a := s.plans[pid].actions[i];
      if a.idempotencyKey in extra {
        assert ForeignKey(a.idempotencyKey, prefix);
        var q, u, j: nat :| a.idempotencyKey == Key(q, u, j) && Plain(u) && q != prefix;
        KeyIsInjective(prefix, a.toolName, i + 1, q, u, j);
      }
    }
    DeliveryIsAlike(s, t, pid, aid, attempt, correlation, oracle, answers, inlined);
  }
}
