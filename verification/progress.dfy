/**
  Delivery comes to an end. Every delivery lowers a measure: units still PENDING, then units without a
  sub-plan, then actions still PENDING, then the weight of the waiting messages. So from any reachable
  state, whatever the order of delivery and whatever the answers from outside, delivering until nothing
  is waiting ends, and leaves the run decided.
 */
module Progress {
  import opened Common
  import opened Events
  import opened Subtasks
  import opened JoinProtocol
  import opened Confluence
  import opened Plans
  import opened Planner
  import opened Runtime
  import opened Orchestration
  import opened Quiescence

  function PendingUnits(g: TaskGraph): set<string> {
    set u | u in Units(g) && HasStatus(g, u, SubTaskStatus.Pending)
  }

  function UnplannedUnits(run: RunId, g: TaskGraph, plans: map<RunId, AgentPlan>): set<string> {
    set u | u in Units(g) && SubPlanId(run, u) !in plans
  }

  function PendingActions(plans: map<RunId, AgentPlan>): set<(RunId, int)> {
    set pid, i | pid in plans && 0 <= i < |plans[pid].actions| && plans[pid].actions[i].status == ActionStatus.Pending :: (pid, i)
  }

  /** Is the named action still PENDING? */
  predicate IsPending(plans: map<RunId, AgentPlan>, pid: RunId, aid: string) {
    pid in plans && plans[pid].GetAction(aid).Some? && plans[pid].GetAction(aid).value.status == ActionStatus.Pending
  }

  /** A message outweighs whatever single message its delivery can lead to without other progress. */
  function Weight(plans: map<RunId, AgentPlan>, m: Message): nat {
    match m.body
    case Trigger(_) => 1
    case Notice(_) => 1
    case NodeSettled(_, _, _) => 1
    case ActionRequested(pid, aid) =>
      if IsPending(plans, pid, aid) then 2 + (if m.attempt < ACTION_EXECUTION_ATTEMPTS then ACTION_EXECUTION_ATTEMPTS - m.attempt else 0) else 6
    case TaskRequested(_, _) => 7
  }

  function Load(plans: map<RunId, AgentPlan>, ms: seq<Message>): nat {
    if ms == [] then 0 else Load(plans, ms[..|ms| - 1]) + Weight(plans, ms[|ms| - 1])
  }

  lemma {:induction false} LoadAppend(plans: map<RunId, AgentPlan>, a: seq<Message>, b: seq<Message>)
    ensures Load(plans, a + b) == Load(plans, a) + Load(plans, b)
  {
    if b == [] {
      assert a + b == a;
    } else {
      assert (a + b)[..|a + b| - 1] == a + b[..|b| - 1];
      LoadAppend(plans, a, b[..|b| - 1]);
    }
  }

  lemma LoadRemove(plans: map<RunId, AgentPlan>, ms: seq<Message>, at: nat)
    requires at < |ms|
    ensures Load(plans, ms) == Load(plans, RemoveAt(ms, at)) + Weight(plans, ms[at])
  {
    assert ms == ms[..at] + ([ms[at]] + ms[at + 1..]);
    LoadAppend(plans, ms[..at], [ms[at]] + ms[at + 1..]);
    LoadAppend(plans, [ms[at]], ms[at + 1..]);
    LoadAppend(plans, ms[..at], ms[at + 1..]);
    assert Load(plans, [ms[at]]) == Weight(plans, ms[at]);
  }

  lemma {:induction false} LoadSame(plans: map<RunId, AgentPlan>, other: map<RunId, AgentPlan>, ms: seq<Message>)
    requires forall m :: Weight(plans, m) == Weight(other, m)
    ensures Load(plans, ms) == Load(other, ms)
  {
    if ms != [] {
      LoadSame(plans, other, ms[..|ms| - 1]);
    }
  }

  datatype Measure = Measure(units: nat, unplanned: nat, actions: nat, load: nat)

  function MeasureOf(run: RunId, s: Store, bag: seq<Message>): Measure
    requires run in s.graphs
  {
    var g := s.graphs[run];
    Measure(|PendingUnits(g)|, |UnplannedUnits(run, g, s.plans)|, |PendingActions(s.plans)|, Load(s.plans, bag))
  }

  predicate Less(a: Measure, b: Measure) {
    || a.units < b.units
    || (a.units == b.units && a.unplanned < b.unplanned)
    || (a.units == b.units && a.unplanned == b.unplanned && a.actions < b.actions)
    || (a.units == b.units && a.unplanned == b.unplanned && a.actions == b.actions && a.load < b.load)
  }

  // ---------------------------------------------------------------------
  // Action events
  // ---------------------------------------------------------------------

  /** What a visit to action `aid` does with the waiting load, short of ending the action. */
  ghost predicate Light(s: Store, pid: RunId, aid: string, attempt: nat, v: Visited) {
    || (v.store.plans == s.plans && v.sent == [] && (v.next.Some? ==>
          !IsPending(s.plans, pid, aid) && IsPending(s.plans, pid, v.next.value.actionId)))
    || (v.store.plans == s.plans && v.next.None? && |v.sent| == 1 && v.sent[0].body.NodeSettled?)
    || (&& pid in s.plans && pid in v.store.plans && v.store.plans[pid].actions == s.plans[pid].actions
        && v.store.plans == s.plans[pid := v.store.plans[pid]] && IsPending(s.plans, pid, aid)
        && v.next.None? && v.sent == [Message(ActionRequested(pid, aid), attempt + 1)] && attempt + 1 < ACTION_EXECUTION_ATTEMPTS)
  }

  /** The action on turn in plan `pid` ended in a status that is not PENDING. */
  ghost predicate EndedTurn(s: Store, t: Store, pid: RunId) {
    pid in t.plans && exists status :: status != ActionStatus.Pending && Turned(s, t, pid, t.plans[pid], status)
  }

  ghost predicate MovesOn(s: Store, pid: RunId, aid: string, attempt: nat, v: Visited) {
    EndedTurn(s, v.store, pid) || Light(s, pid, aid, attempt, v)
  }

  lemma EndEnds(run: RunId, s: Store, t: Store, pid: RunId, a: PlannedAction, status: ActionStatus, o: NodeOutcome, sent: seq<Message>)
    requires OnTurn(run, s, pid, a)
    requires (status == RequiresApproval && o == NodeWaiting) || (status in {ActionStatus.Failed, Stale} && o == NodeFailed)
    requires t.plans == s.plans && t.graphs == s.graphs && t.subResults == s.subResults && t.reports == s.reports && t.commits == s.commits
    requires t.keys == s.keys && ResultsApart(s.actionResults, t.actionResults, pid)
    ensures var v := End(t, s.plans[pid], a, status, o, sent);
            EndedTurn(s, if status == RequiresApproval then v.store.RecordKey(a.idempotencyKey) else v.store, pid)
  {
    var v := End(t, s.plans[pid], a, status, o, sent);
    var store := if status == RequiresApproval then v.store.RecordKey(a.idempotencyKey) else v.store;
    TurnKeepsShape(s.plans[pid], status);
    assert Turned(s, store, pid, store.plans[pid], status);
  }

  lemma OneResultApart(results: map<(RunId, string), string>, pid: RunId, aid: string, output: string)
    ensures ResultsApart(results, results[(pid, aid) := output], pid)
  {
  }

  lemma SubplanChoice(t: Store, q: AgentPlan, sent: seq<Message>)
    requires q.parentRunId.Some?
    ensures ChooseNext(t, q, sent).store == t
  {
    hide AgentPlan.NextPendingAction;
  }

  lemma CommitMoves(run: RunId, s: Store, pid: RunId, a: PlannedAction, attempt: nat, o: Outcome)
    requires OnTurn(run, s, pid, a) && o.call.Returned? && o.call.decision == Commit
    ensures MovesOn(s, pid, a.actionId, attempt, Execute(s, s.plans[pid], a, attempt, o))
  {
    hide ResultsApart, AgentPlan.NextPendingAction, Shaped, Keyed, SubPlanId, Replaced, StatusOf, Light, Notices, Execute;
    var p := s.plans[pid];
    ExecuteForm(s, p, a, attempt, o);
    var v := Execute(s, p, a, attempt, o);
    OneResultApart(s.actionResults, pid, a.actionId, o.call.output);
    var q := p.ReplaceAction(a.WithStatus(ActionStatus.Completed));
    var saved := s.(executions := s.executions + multiset{(pid, a.actionId)}).SaveActionResult(pid, a.actionId, o.call.output);
    var done := saved.SavePlan(q).RecordKey(a.idempotencyKey);
    SubplanChoice(done.(commits := done.commits + multiset{(pid, a.actionId)}), q, Notices(o.call.events));
    hide ChooseNext;
    assert Turned(s, v.store, pid, v.store.plans[pid], ActionStatus.Completed);
  }

  lemma RetryMoves(run: RunId, s: Store, pid: RunId, a: PlannedAction, attempt: nat, o: Outcome)
    requires OnTurn(run, s, pid, a) && IsPending(s.plans, pid, a.actionId)
    requires o.call.Returned? && o.call.decision == Retry && attempt + 1 < ACTION_EXECUTION_ATTEMPTS
    ensures MovesOn(s, pid, a.actionId, attempt, Execute(s, s.plans[pid], a, attempt, o))
  {
    var p := s.plans[pid];
    ExecuteForm(s, p, a, attempt, o);
    TurnKeepsShape(p, ActionStatus.Pending);
    assert p.actions[Frontier(p.actions) := a.WithStatus(ActionStatus.Pending)] == p.actions;
  }

  lemma FailMoves(run: RunId, s: Store, pid: RunId, a: PlannedAction, attempt: nat, o: Outcome)
    requires OnTurn(run, s, pid, a)
    requires o.call.Returned? ==> o.call.decision != Commit && !(o.call.decision == Retry && attempt + 1 < ACTION_EXECUTION_ATTEMPTS)
    ensures MovesOn(s, pid, a.actionId, attempt, Execute(s, s.plans[pid], a, attempt, o))
  {
    ExecuteForm(s, s.plans[pid], a, attempt, o);
    var called := s.(executions := s.executions + multiset{(pid, a.actionId)});
    EndEnds(run, s, if o.call.Raised? then called else called.SaveActionResult(pid, a.actionId, o.call.output), pid, a,
            ActionStatus.Failed, NodeFailed, []);
  }

  lemma TurnMoves(run: RunId, s: Store, pid: RunId, a: PlannedAction, attempt: nat, correlation: Option<string>, o: Outcome)
    requires OnTurn(run, s, pid, a) && s.plans[pid].GetAction(a.actionId) == Some(a) && a.idempotencyKey !in s.keys
    ensures MovesOn(s, pid, a.actionId, attempt, Visit(s, pid, a.actionId, attempt, correlation, o))
  {
    hide Execute;
    match o.decision
    case Suggest =>
      EndEnds(run, s, s.SaveActionResult(pid, a.actionId, o.suggestion), pid, a, RequiresApproval, NodeWaiting, Notices(o.events));
    case Replan => EndEnds(run, s, s, pid, a, Stale, NodeFailed, []);
    case Reject => EndEnds(run, s, s, pid, a, ActionStatus.Failed, NodeFailed, []);
    case _ =>
      if o.call.Returned? && o.call.decision == Commit {
        CommitMoves(run, s, pid, a, attempt, o);
      } else if o.call.Returned? && o.call.decision == Retry && attempt + 1 < ACTION_EXECUTION_ATTEMPTS {
        RetryMoves(run, s, pid, a, attempt, o);
      } else {
        FailMoves(run, s, pid, a, attempt, o);
      }
  }

  lemma LateMoves(s: Store, pid: RunId, a: PlannedAction, attempt: nat, correlation: Option<string>, o: Outcome)
    requires pid in s.plans && s.plans[pid].parentRunId.Some? && s.plans[pid].nodeId.Some? && Shaped(s.plans[pid])
    requires s.plans[pid].GetAction(a.actionId) == Some(a) && a.status != ActionStatus.Pending
    ensures MovesOn(s, pid, a.actionId, attempt, Visit(s, pid, a.actionId, attempt, correlation, o))
  {
    var p := s.plans[pid];
    NextIsFrontier(p);
    if p.NextPendingAction().Some? {
      FindActionAt(p.actions, Frontier(p.actions));
    }
    hide EndedTurn, Execute, AgentPlan.NextPendingAction, Shaped;
    assert Light(s, pid, a.actionId, attempt, Visit(s, pid, a.actionId, attempt, correlation, o));
  }

  /** A visit ends an action, or sends something lighter than what it was handed. */
  lemma VisitMoves(run: RunId, s: Store, pid: RunId, aid: string, attempt: nat, correlation: Option<string>, o: Outcome)
    requires run in s.graphs && PlansOk(run, s) && KeysOk(s.plans, s.keys) && pid in s.plans && Reached(s.plans[pid], aid)
    ensures MovesOn(s, pid, aid, attempt, Visit(s, pid, aid, attempt, correlation, o))
  {
    hide MovesOn, KeysOk, Keyed, SubPlanId, Frontier, ActOn, ChooseNext;
    var p := s.plans[pid];
    assert PlanOk(run, s.graphs[run], pid, p);
    var i :| 0 <= i <= Frontier(p.actions) && i < |p.actions| && p.actions[i].actionId == aid;
    FindActionAt(p.actions, i);
    KeyRecordedExactly(run, s, pid, i);
    if p.actions[i].status == ActionStatus.Pending {
      TurnMoves(run, s, pid, p.actions[i], attempt, correlation, o);
    } else {
      LateMoves(s, pid, p.actions[i], attempt, correlation, o);
    }
  }

  lemma SmallerSet<T>(a: set<T>, b: set<T>, x: T)
    requires a <= b && x in b && x !in a
    ensures |a| < |b|
  {
    assert a + {x} <= b;
    assert |a + {x}| == |a| + 1;
    CardinalityGrows(a + {x}, b);
  }

  lemma CardinalityGrows<T>(a: set<T>, b: set<T>)
    requires a <= b
    ensures |a| <= |b|
  {
    assert b == a + (b - a);
  }

  lemma FewerActions(plans: map<RunId, AgentPlan>, pid: RunId, k: nat, status: ActionStatus, q: AgentPlan)
    requires pid in plans && Moves(plans[pid], k, status, q) && status != ActionStatus.Pending
    ensures |PendingActions(plans[pid := q])| < |PendingActions(plans)|
  {
    var before, after := PendingActions(plans), PendingActions(plans[pid := q]);
    forall x | x in after ensures x in before {
      var (r, i) := x;
      assert plans[r].actions[i].status == ActionStatus.Pending;
    }
    assert (pid, k) in before && (pid, k) !in after;
    SmallerSet(after, before, (pid, k));
  }

  /** What a visit leaves waiting once its choice of next action is sent. */
  function Left(v: Visited, pid: RunId): seq<Message> {
    if v.next.Some? then v.sent + [Send(ActionRequested(pid, v.next.value.actionId))] else v.sent
  }

  /** Same graphs, same plans, same actions pending: the measure differs in the load alone. */
  lemma LighterLoad(run: RunId, s: Store, t: Store, bag: seq<Message>, m: Message, out: seq<Message>)
    requires run in s.graphs && t.graphs == s.graphs && t.plans.Keys == s.plans.Keys
    requires forall pid :: pid in s.plans ==> t.plans[pid].actions == s.plans[pid].actions
    requires Load(t.plans, out) < Weight(s.plans, m)
    ensures Less(MeasureOf(run, t, bag + out), MeasureOf(run, s, bag + [m]))
  {
    assert PendingActions(t.plans) == PendingActions(s.plans);
    assert UnplannedUnits(run, t.graphs[run], t.plans) == UnplannedUnits(run, s.graphs[run], s.plans);
    forall x ensures Weight(t.plans, x) == Weight(s.plans, x) {
      assert x.body.ActionRequested? ==> (IsPending(t.plans, x.body.plan, x.body.actionId) <==> IsPending(s.plans, x.body.plan, x.body.actionId));
    }
    LoadSame(t.plans, s.plans, bag);
    LoadAppend(t.plans, bag, out);
    LoadAppend(s.plans, bag, [m]);
    assert Load(s.plans, [m]) == Weight(s.plans, m);
  }

  lemma EndedLess(run: RunId, s: Store, t: Store, pid: RunId, before: seq<Message>, after: seq<Message>)
    requires run in s.graphs && t.graphs == s.graphs && EndedTurn(s, t, pid)
    ensures Less(MeasureOf(run, t, after), MeasureOf(run, s, before))
  {
    var status :| status != ActionStatus.Pending && Turned(s, t, pid, t.plans[pid], status);
    TurnOf(s.plans[pid], status, t.plans[pid]);
    FewerActions(s.plans, pid, Frontier(s.plans[pid].actions), status, t.plans[pid]);
    hide Turned, Moves, PendingActions;
    assert t.plans == s.plans[pid := t.plans[pid]] && pid in s.plans;
    assert UnplannedUnits(run, t.graphs[run], t.plans) == UnplannedUnits(run, s.graphs[run], s.plans);
  }

  lemma LightLoad(s: Store, m: Message, v: Visited)
    requires m.body.ActionRequested? && Light(s, m.body.plan, m.body.actionId, m.attempt, v)
    ensures Load(v.store.plans, Left(v, m.body.plan)) < Weight(s.plans, m)
    ensures v.store.plans.Keys == s.plans.Keys && forall r :: r in s.plans ==> v.store.plans[r].actions == s.plans[r].actions
  {
    var out := Left(v, m.body.plan);
    if out != [] {
      assert out == [out[0]];
      OneLoad(v.store.plans, out[0]);
    }
  }

  lemma VisitLess(run: RunId, s: Store, bag: seq<Message>, m: Message, v: Visited)
    requires run in s.graphs && m.body.ActionRequested? && v.store.graphs == s.graphs
    requires MovesOn(s, m.body.plan, m.body.actionId, m.attempt, v)
    ensures Less(MeasureOf(run, v.store, bag + Left(v, m.body.plan)), MeasureOf(run, s, bag + [m]))
  {
    hide Light, EndedTurn, MeasureOf;
    if EndedTurn(s, v.store, m.body.plan) {
      EndedLess(run, s, v.store, m.body.plan, bag + [m], bag + Left(v, m.body.plan));
    } else {
      LightLoad(s, m, v);
      LighterLoad(run, s, v.store, bag, m, Left(v, m.body.plan));
    }
  }

  lemma OneLoad(plans: map<RunId, AgentPlan>, m: Message)
    ensures Load(plans, [m]) == Weight(plans, m)
  {
    assert [m][..0] == [];
  }

  lemma VisitOfRun(run: RunId, s: Store, bag: set<Message>, sent: set<Message>, m: Message, correlation: Option<string>, o: Outcome)
    requires m.body.ActionRequested? && InHand(run, s, bag, sent, m)
    ensures MovesOn(s, m.body.plan, m.body.actionId, m.attempt, Visit(s, m.body.plan, m.body.actionId, m.attempt, correlation, o))
  {
    assert m in sent + {m} && MessageOk(run, s, m);
    VisitMoves(run, s, m.body.plan, m.body.actionId, m.attempt, correlation, o);
  }

  lemma InvHasGraph(run: RunId, s: Store, bag: set<Message>, sent: set<Message>)
    requires Inv(run, s, bag, sent)
    ensures run in s.graphs
  {
  }

  /** A whole delivery of an action event lowers the measure. */
  lemma {:induction false} HandleActionLess(run: RunId, s: Store, bag: seq<Message>, sent: set<Message>, m: Message,
                                            correlation: Option<string>, oracle: nat -> Outcome, answers: nat, inlined: nat)
    requires m.body.ActionRequested? && InHand(run, s, Set(bag), sent, m)
    ensures run in s.graphs
    ensures var h := HandleAction(s, m.body.plan, m.body.actionId, m.attempt, correlation, oracle, answers, inlined);
            Less(MeasureOf(run, h.store, bag + h.sent), MeasureOf(run, s, bag + [m]))
    decreases INLINE_ACTION_CHAIN_BUDGET - inlined
  {
    hide Inv, Visit, MeasureOf, MovesOn;
    var pid := m.body.plan;
    InvHasGraph(run, s, Set(bag) + {m}, sent + {m});
    VisitOfRun(run, s, Set(bag), sent, m, correlation, oracle(answers));
    var v := VisitKeeps(run, s, Set(bag), sent, m, correlation, oracle(answers));
    VisitLess(run, s, bag, m, v);
    if v.next.Some? && !v.next.value.requiresApproval && inlined < INLINE_ACTION_CHAIN_BUDGET {
      var next := Send(ActionRequested(pid, v.next.value.actionId));
      SentSplits(Set(bag), v, pid);
      SentSplits(sent, v, pid);
      SetAppend(bag, v.sent);
      HandleActionLess(run, v.store, bag + v.sent, sent + Set(v.sent), next, correlation, oracle, answers + 1, inlined + 1);
      var rest := HandleAction(v.store, pid, v.next.value.actionId, 0, correlation, oracle, answers + 1, inlined + 1);
      assert bag + v.sent + rest.sent == bag + (v.sent + rest.sent);
      assert bag + v.sent + [next] == bag + Left(v, pid);
    }
  }

  // ---------------------------------------------------------------------
  // Tasks and settlements
  // ---------------------------------------------------------------------

  lemma DropLess(run: RunId, s: Store, bag: seq<Message>, m: Message)
    requires run in s.graphs
    ensures Less(MeasureOf(run, s, bag + []), MeasureOf(run, s, bag + [m]))
  {
    LighterLoad(run, s, s, bag, m, []);
  }

  /** A resumed plan asks for an action on turn, or settles. */
  lemma ResumeIsLight(run: RunId, u: string, plans: map<RunId, AgentPlan>)
    requires SubPlanId(run, u) in plans && Shaped(plans[SubPlanId(run, u)]) && plans[SubPlanId(run, u)].planId == SubPlanId(run, u)
    ensures Load(plans, Resume(run, u, plans[SubPlanId(run, u)])) < 7
  {
    var p := plans[SubPlanId(run, u)];
    NextIsFrontier(p);
    if p.NextPendingAction().Some? {
      FindActionAt(p.actions, Frontier(p.actions));
    }
    var ms := Resume(run, u, p);
    if ms != [] {
      assert ms == [ms[0]];
      OneLoad(plans, ms[0]);
    }
  }

  lemma NewPlanLess(run: RunId, s: Store, u: string, p: AgentPlan, before: seq<Message>, after: seq<Message>)
    requires run in s.graphs && s.graphs[run].WellFormed() && s.graphs[run].GetNode(u).Some?
    requires p.planId == SubPlanId(run, u) && SubPlanId(run, u) !in s.plans
    ensures Less(MeasureOf(run, s.SavePlan(p), after), MeasureOf(run, s, before))
  {
    NodeIsUnit(s.graphs[run]);
    SmallerSet(UnplannedUnits(run, s.graphs[run], s.SavePlan(p).plans), UnplannedUnits(run, s.graphs[run], s.plans), u);
  }

  lemma HandleTaskLess(run: RunId, s: Store, bag: seq<Message>, sent: set<Message>, m: Message, u: string, w: Proposal)
    requires InHand(run, s, Set(bag), sent, m) && m.body == TaskRequested(run, u) && UniqueDrafts(w.drafts)
    ensures run in s.graphs && run in HandleTask(s, run, u, w).0.graphs
    ensures var r := HandleTask(s, run, u, w);
            Less(MeasureOf(run, r.0, bag + r.1), MeasureOf(run, s, bag + [m]))
  {
    assert m in sent + {m} && MessageOk(run, s, m);
    var pid := SubPlanId(run, u);
    if s.graphs[run].GetNode(u).value.status in {SubTaskStatus.Completed, SubTaskStatus.Failed} {
      DropLess(run, s, bag, m);
    } else if pid in s.plans {
      assert PlanOk(run, s.graphs[run], pid, s.plans[pid]);
      ResumeIsLight(run, u, s.plans);
      hide MeasureOf, Load, Resume;
      LighterLoad(run, s, s, bag, m, Resume(run, u, s.plans[pid]));
    } else {
      var p := PlanForNode(u, w.source, run, w.drafts, w.approval);
      var r := HandleTask(s, run, u, w);
      assert p.planId == pid;
      hide MeasureOf, PlanForNode;
      NewPlanLess(run, s, u, p, bag + [m], bag + r.1);
    }
  }

  lemma SettledPending(g: TaskGraph, u: string, status: SubTaskStatus)
    requires Safe(g) && Accepts(g, u) && Terminal(status)
    ensures var a := g.Advanced(u, status);
            && Units(a.graph) == Units(g)
            && |PendingUnits(a.graph)| <= |PendingUnits(g)|
            && (Dispatched(a) != [] ==> |PendingUnits(a.graph)| < |PendingUnits(g)|)
  {
    var a := g.Advanced(u, status);
    UnitsAfter(g, u, status);
    SettleCounts(g, u, status);
    forall v | v in PendingUnits(a.graph) ensures v in PendingUnits(g) {
      assert HasStatus(a.graph, v, SubTaskStatus.Pending);
      assert v != u && v !in Dispatched(a);
    }
    CardinalityGrows(PendingUnits(a.graph), PendingUnits(g));
    if Dispatched(a) != [] {
      var v := Dispatched(a)[0];
      assert v in Dispatched(a);
      SettleUnit(g, u, status, v);
      NodeIsUnit(g);
      SmallerSet(PendingUnits(a.graph), PendingUnits(g), v);
    }
  }

  lemma SamePlansLess(run: RunId, s: Store, t: Store, before: seq<Message>, after: seq<Message>)
    requires run in s.graphs && run in t.graphs && t.plans == s.plans && Units(t.graphs[run]) == Units(s.graphs[run])
    requires |PendingUnits(t.graphs[run])| <= |PendingUnits(s.graphs[run])|
    requires |PendingUnits(t.graphs[run])| < |PendingUnits(s.graphs[run])| || Load(s.plans, after) < Load(s.plans, before)
    ensures Less(MeasureOf(run, t, after), MeasureOf(run, s, before))
  {
    hide PendingUnits, Units, Load, PendingActions;
    assert UnplannedUnits(run, t.graphs[run], t.plans) == UnplannedUnits(run, s.graphs[run], s.plans);
  }

  lemma FirstSettlementLess(run: RunId, s: Store, bag: seq<Message>, m: Message, u: string, o: NodeOutcome)
    requires run in s.graphs && Safe(s.graphs[run]) && Accepts(s.graphs[run], u) && !o.NodeWaiting? && s.graphs[run].planId == run
    ensures var r := HandleSettled(s, run, u, o);
            run in r.0.graphs && Less(MeasureOf(run, r.0, bag + r.1), MeasureOf(run, s, bag + [m]))
  {
    var a := s.graphs[run].Advanced(u, StatusFor(o));
    HandleSettledForm(run, s, u, o);
    SettledPending(s.graphs[run], u, StatusFor(o));
    assert |Dispatch(run, a)| == |Dispatched(a)|;
    LoadAppend(s.plans, bag, [m]);
    OneLoad(s.plans, m);
    hide HandleSettled, TaskGraph.Advanced, Safe, Dispatch, Dispatched, PendingUnits, Units, MeasureOf, Load;
    var r := HandleSettled(s, run, u, o);
    if r.1 == [] {
      assert bag + r.1 == bag;
    }
    SamePlansLess(run, s, r.0, bag + [m], bag + r.1);
  }

  lemma HandleSettledLess(run: RunId, s: Store, bag: seq<Message>, sent: set<Message>, m: Message, u: string, o: NodeOutcome)
    requires InHand(run, s, Set(bag), sent, m) && m.body == NodeSettled(run, u, o)
    ensures run in s.graphs && run in HandleSettled(s, run, u, o).0.graphs
    ensures var r := HandleSettled(s, run, u, o);
            Less(MeasureOf(run, r.0, bag + r.1), MeasureOf(run, s, bag + [m]))
  {
    assert m in sent + {m} && MessageOk(run, s, m);
    assert PlanOk(run, s.graphs[run], SubPlanId(run, u), s.plans[SubPlanId(run, u)]);
    SubPlanIdIsInjective(run, u, s.plans[SubPlanId(run, u)].nodeId.value);
    if !o.NodeWaiting? && Accepts(s.graphs[run], u) {
      FirstSettlementLess(run, s, bag, m, u, o);
    } else {
      RepeatedSettlement(run, s, u, o);
      DropLess(run, s, bag, m);
    }
  }

  // ---------------------------------------------------------------------
  // Every delivery lowers the measure, so delivery ends
  // ---------------------------------------------------------------------

  lemma HandleLess(x: Setup, s: Store, bag: seq<Message>, sent: set<Message>, m: Message, w: World, inlined: nat)
    requires InHand(x.Run(), s, Set(bag), sent, m) && UniqueDrafts(w.proposal.drafts)
    ensures var h := Handle(s, m, Around(x, w), 0, inlined);
            && x.Run() in s.graphs && x.Run() in h.store.graphs
            && Less(MeasureOf(x.Run(), h.store, bag + h.sent), MeasureOf(x.Run(), s, bag + [m]))
  {
    hide MeasureOf, HandleTask, HandleSettled, HandleAction, Live, KeysOk, CommitsOk, NodesAgree, ResultsStored, ReportsAgree, PlansOk, Safe;
    var run := x.Run();
    assert m in sent + {m} && MessageOk(run, s, m);
    match m.body
    case Notice(_) => DropLess(run, s, bag, m);
    case Trigger(e) => DropLess(run, s, bag, m);
    case ActionRequested(pid, aid) => HandleActionLess(run, s, bag, sent, m, w.correlation, w.oracle, 0, inlined);
    case TaskRequested(r, u) => HandleTaskLess(run, s, bag, sent, m, u, w.proposal);
    case NodeSettled(r, u, o) => HandleSettledLess(run, s, bag, sent, m, u, o);
  }

  /** Every delivery lowers the measure; only a redelivery raises it. */
  lemma DeliveryLess(x: Setup, n: Net, c: Choice)
    requires NetOk(x, n) && Proper(c) && c.Deliver? && c.at < |n.bag|
    ensures var run, after := x.Run(), Next(x, n, c);
            && run in n.store.graphs && run in after.store.graphs
            && Less(MeasureOf(run, after.store, after.bag), MeasureOf(run, n.store, n.bag))
  {
    var rest, m := RemoveAt(n.bag, c.at), n.bag[c.at];
    RemovedIsSplit(n.bag, c.at);
    assert n.sent == n.sent + {m};
    LoadRemove(n.store.plans, n.bag, c.at);
    LoadAppend(n.store.plans, rest, [m]);
    OneLoad(n.store.plans, m);
    hide Handle, Inv;
    assert InHand(x.Run(), n.store, Set(rest), n.sent, m);
    HandleLess(x, n.store, rest, n.sent, m, c.world, c.inlined);
    assert MeasureOf(x.Run(), n.store, n.bag) == MeasureOf(x.Run(), n.store, rest + [m]);
  }

  /** Picks a waiting message whenever there is one, and the answers its delivery gets. */
  ghost predicate Schedules(pick: Net -> Choice) {
    forall n: Net :: n.bag != [] ==> pick(n).Deliver? && pick(n).at < |n.bag| && Proper(pick(n))
  }

  /** Deliver until nothing is waiting: this ends, whatever is picked, and the run is decided then. */
  ghost function Drain(x: Setup, n: Net, pick: Net -> Choice): (r: Net)
    requires NetOk(x, n) && Schedules(pick)
    ensures NetOk(x, r) && r.bag == [] && Decided(x.Run(), r.store)
    decreases MeasureOf(x.Run(), n.store, n.bag).units, MeasureOf(x.Run(), n.store, n.bag).unplanned,
              MeasureOf(x.Run(), n.store, n.bag).actions, MeasureOf(x.Run(), n.store, n.bag).load
  {
    if n.bag == [] then
      DecidedWhenEmpty(x, n);
      n
    else
      DeliveryLess(x, n, pick(n));
      NextKeeps(x, n, pick(n));
      Drain(x, Next(x, n, pick(n)), pick)
  }

  /**
    Every run can only end decided: after any prefix with any redeliveries, delivering what is left, in
    any order, ends with the run finished and reported completed, failed and reported failed, or waiting
    for approval.
   */
  lemma EveryRunIsDecided(x: Setup, cs: seq<Choice>, pick: Net -> Choice)
    requires x.Valid() && (forall c :: c in cs ==> Proper(c)) && Schedules(pick)
    requires Acyclic(x.nodes) && x.nodes != []
    ensures NetOk(x, Run(x, cs))
    ensures var s, run := Drain(x, Run(x, cs), pick).store, x.Run();
            && run in s.graphs
            && ((Finished(s.graphs[run]) && RunCompleted(run) in s.reports)
             || (HasFailure(s.graphs[run]) && RunFailed(run) in s.reports)
             || AwaitsApproval(run, s))
  {
    RunIsOk(x, cs);
    DecidedWhenEmpty(x, Drain(x, Run(x, cs), pick));
  }
}
