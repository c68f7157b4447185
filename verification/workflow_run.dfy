/**
  Runs of a single plan, without a task graph: started by one trigger, through any number of replans,
  under any order of delivery and any redelivery. Action ids are fresh at each replan.
 */
module WorkflowRun {
  import opened Common
  import opened Events
  import opened Plans
  import opened Planner
  import opened Runtime
  import Orchestration

  function Start(e: Source): Net {
    Net(EMPTY_STORE, [Send(Trigger(e))], {Send(Trigger(e))})
  }

  /** Every trigger of the run is routed to its plan. */
  function AsWhole(w: World): World {
    w.(route := Whole(w.proposal))
  }

  function Next(n: Net, c: Choice): Net {
    match c
    case Redeliver(m) => if m in n.sent then n.(bag := n.bag + [m]) else n
    case Deliver(at, world, inlined) =>
      if at >= |n.bag| then n
      else
        var h := Handle(n.store, n.bag[at], AsWhole(world), 0, inlined);
        Net(h.store, RemoveAt(n.bag, at) + h.sent, n.sent + Set(h.sent))
  }

  function Run(e: Source, cs: seq<Choice>): Net {
    if cs == [] then Start(e) else Next(Run(e, cs[..|cs| - 1]), cs[|cs| - 1])
  }

  /** No action of any of these ids was ever run or asked for. */
  ghost predicate FreshIds(run: RunId, n: Net, drafts: seq<Draft>) {
    forall i :: 0 <= i < |drafts| ==>
      && n.store.executions[(run, drafts[i].actionId)] == 0
      && forall m :: m in n.sent ==> m.body != ActionRequested(run, drafts[i].actionId)
  }

  /** What the planner proposes has unique and fresh action ids and plain tool names. */
  ghost predicate Proper(run: RunId, n: Net, c: Choice) {
    c.Deliver? && c.at < |n.bag| && n.bag[c.at].body.Trigger? ==>
      UniqueDrafts(c.world.proposal.drafts) && FreshIds(run, n, c.world.proposal.drafts)
  }

  ghost predicate ProperRun(e: Source, cs: seq<Choice>) {
    forall i :: 0 <= i < |cs| ==> Proper(RunOf(e), Run(e, cs[..i]), cs[i])
  }

  // ---------------------------------------------------------------------
  // What every reachable state keeps
  // ---------------------------------------------------------------------

  /** The plan of the run: a keyed chain, or a plan without actions that was failed at once. */
  ghost predicate PlanKept(run: RunId, p: AgentPlan) {
    && p.planId == run && p.parentRunId == None && RunOf(p.source) == run
    && Keyed(p.actions, RunPrefix(p.source, run.id))
    && (if p.actions == [] then p.status == PlanStatus.Failed else Shaped(p))
  }

  /** No result was accepted twice or without a run of the tool; an action of the plan is COMPLETED exactly if its result was accepted. */
  ghost predicate CommitsKept(run: RunId, s: Store, p: AgentPlan) {
    && (forall aid :: s.commits[(run, aid)] <= 1 && s.commits[(run, aid)] <= s.executions[(run, aid)])
    && (forall i :: 0 <= i < |p.actions| ==>
          s.commits[(run, p.actions[i].actionId)] == if p.actions[i].status == ActionStatus.Completed then 1 else 0)
  }

  /** A message that may have been sent: a request names an action of an earlier plan, or one whose turn it was. */
  ghost predicate MessageKept(run: RunId, p: AgentPlan, m: Message) {
    match m.body
    case Notice(_) => true
    case Trigger(x) => RunOf(x) == run
    case ActionRequested(pid, aid) =>
      pid == run && m.attempt < ACTION_EXECUTION_ATTEMPTS && (p.GetAction(aid).Some? ==> Orchestration.Reached(p, aid))
    case _ => false
  }

  ghost predicate Kept(run: RunId, s: Store, sent: set<Message>) {
    && run in s.plans && PlanKept(run, s.plans[run]) && CommitsKept(run, s, s.plans[run])
    && forall m :: m in sent ==> MessageKept(run, s.plans[run], m)
  }

  ghost predicate NetKept(run: RunId, e: Source, n: Net) {
    && Set(n.bag) <= n.sent
    && if run in n.store.plans then Kept(run, n.store, n.sent) else n.store == EMPTY_STORE && n.sent == {Send(Trigger(e))}
  }

  /** Is it a PENDING action's turn? */
  predicate HasTurn(p: AgentPlan) {
    Frontier(p.actions) < |p.actions| && p.actions[Frontier(p.actions)].status == ActionStatus.Pending
  }

  function OnTurn(p: AgentPlan): PlannedAction
    requires Frontier(p.actions) < |p.actions|
  {
    p.actions[Frontier(p.actions)]
  }

  lemma NextIsOnTurn(run: RunId, p: AgentPlan)
    requires PlanKept(run, p)
    ensures p.NextPendingAction() == if HasTurn(p) then Some(OnTurn(p)) else None
  {
    if p.actions != [] {
      NextIsFrontier(p);
    }
  }

  // ---------------------------------------------------------------------
  // A turn of the plan
  // ---------------------------------------------------------------------

  /** The messages that are not mere notices, in order. */
  function Tokens(bag: seq<Message>): seq<Message> {
    if bag == [] then []
    else Tokens(bag[..|bag| - 1]) + if bag[|bag| - 1].body.Notice? then [] else [bag[|bag| - 1]]
  }

  lemma {:induction false} TokensAppend(a: seq<Message>, b: seq<Message>)
    ensures Tokens(a + b) == Tokens(a) + Tokens(b)
  {
    if b == [] {
      assert a + b == a;
    } else {
      assert (a + b)[..|a + b| - 1] == a + b[..|b| - 1];
      TokensAppend(a, b[..|b| - 1]);
    }
  }

  lemma TokensOfOne(m: Message)
    ensures Tokens([m]) == if m.body.Notice? then [] else [m]
  {
    assert [m][..0] == [];
  }

  lemma {:induction false} NoTokens(events: seq<Message>)
    requires forall m :: m in events ==> m.body.Notice?
    ensures Tokens(events) == []
  {
    if events != [] {
      NoTokens(events[..|events| - 1]);
    }
  }

  lemma {:induction false} TokensHas(bag: seq<Message>, m: Message)
    ensures m in bag <==> m in Tokens(bag) || (m in bag && m.body.Notice?)
  {
    if bag != [] {
      TokensHas(bag[..|bag| - 1], m);
      assert bag == bag[..|bag| - 1] + [bag[|bag| - 1]];
    }
  }

  /** Does the decision before execution let the tool run? */
  predicate RunsTool(o: Outcome) {
    o.decision != Suggest && o.decision != Decision.Replan && o.decision != Reject
  }

  /** The status that the action on turn goes to. */
  function Goes(attempt: nat, o: Outcome): ActionStatus {
    match o.decision
    case Suggest => RequiresApproval
    case Replan => Stale
    case Reject => ActionStatus.Failed
    case _ =>
      if o.call.Raised? then ActionStatus.Failed
      else if o.call.decision == Commit then ActionStatus.Completed
      else if o.call.decision == Retry && attempt + 1 < ACTION_EXECUTION_ATTEMPTS then ActionStatus.Pending
      else ActionStatus.Failed
  }

  /** What a turn sends to move the run on: the retry, or the replan event. */
  function Moving(run: RunId, p: AgentPlan, a: PlannedAction, attempt: nat, correlation: Option<string>, o: Outcome): seq<Message> {
    match Goes(attempt, o)
    case Pending => [Message(ActionRequested(run, a.actionId), attempt + 1)]
    case Stale => [Send(Trigger(ReplanSource(p.source, run.id, a.idempotencyKey, correlation, o.eventId)))]
    case _ => []
  }

  /** Visit `v` gave the action on turn its turn. */
  ghost predicate TurnTaken(run: RunId, s: Store, attempt: nat, correlation: Option<string>, o: Outcome, v: Visited)
    requires run in s.plans && Frontier(s.plans[run].actions) < |s.plans[run].actions|
  {
    var p, a, status := s.plans[run], OnTurn(s.plans[run]), Goes(attempt, o);
    var q, one := p.ReplaceAction(a.WithStatus(status)), multiset{(run, a.actionId)};
    && v.store.plans == s.plans[run := q]
    && v.store.keys == s.keys + (if Orchestration.Consumed(status) then {a.idempotencyKey} else {})
    && v.store.commits == s.commits + (if status == ActionStatus.Completed then one else multiset{})
    && v.store.executions == s.executions + (if RunsTool(o) then one else multiset{})
    && v.next == (if status == ActionStatus.Completed then q.NextPendingAction() else None)
    && v.store.reports == s.reports + (if status == ActionStatus.Completed && v.next.None? && q.status == PlanStatus.Completed
                                       then [RunCompleted(run)] else [])
    && Tokens(v.sent) == Moving(run, p, a, attempt, correlation, o)
  }

  lemma SuggestTakesTurn(run: RunId, s: Store, attempt: nat, correlation: Option<string>, o: Outcome)
    requires run in s.plans && s.plans[run].planId == run && s.plans[run].parentRunId == None && HasTurn(s.plans[run])
    requires o.decision == Suggest
    ensures TurnTaken(run, s, attempt, correlation, o, ActOn(s, s.plans[run], OnTurn(s.plans[run]), attempt, correlation, o))
  {
    hide Replaced, StatusOf, AgentPlan.NextPendingAction, Notices, Tokens;
    NoticesOnly(o.events);
    assert Notices(o.events) + [] == Notices(o.events);
    assert s.reports + [] == s.reports;
  }

  lemma StopTakesTurn(run: RunId, s: Store, attempt: nat, correlation: Option<string>, o: Outcome)
    requires run in s.plans && s.plans[run].planId == run && s.plans[run].parentRunId == None && HasTurn(s.plans[run])
    requires o.decision == Decision.Replan || o.decision == Reject
    ensures TurnTaken(run, s, attempt, correlation, o, ActOn(s, s.plans[run], OnTurn(s.plans[run]), attempt, correlation, o))
  {
    hide Replaced, StatusOf, AgentPlan.NextPendingAction, ReplanSource, Notices;
    var p, a := s.plans[run], OnTurn(s.plans[run]);
    assert Tokens([]) == [] && s.reports + [] == s.reports;
    TokensOfOne(Send(Trigger(ReplanSource(p.source, run.id, a.idempotencyKey, correlation, o.eventId))));
  }

  lemma CommitTakesTurn(run: RunId, s: Store, attempt: nat, correlation: Option<string>, o: Outcome)
    requires run in s.plans && s.plans[run].planId == run && s.plans[run].parentRunId == None && HasTurn(s.plans[run]) && RunsTool(o)
    requires Goes(attempt, o) == ActionStatus.Completed
    ensures TurnTaken(run, s, attempt, correlation, o, Execute(s, s.plans[run], OnTurn(s.plans[run]), attempt, o))
  {
    hide Replaced, StatusOf, AgentPlan.NextPendingAction, Execute, Notices, Tokens, Moving;
    var p, a := s.plans[run], OnTurn(s.plans[run]);
    Orchestration.ExecuteForm(s, p, a, attempt, o);
    NoticesOnly(o.call.events);
    assert Moving(run, p, a, attempt, correlation, o) == [] by {
      NothingMoves(run, p, a, attempt, correlation, o);
    }
    ChoiceForm(run, Committed(s, p, a, o.call.output), p.ReplaceAction(a.WithStatus(ActionStatus.Completed)), Notices(o.call.events));
    hide ChooseNext;
  }

  /** The store once the result of action `a` is accepted. */
  function Committed(s: Store, p: AgentPlan, a: PlannedAction, output: string): Store {
    var one := multiset{(p.planId, a.actionId)};
    var saved := s.(executions := s.executions + one).SaveActionResult(p.planId, a.actionId, output);
    var done := saved.SavePlan(p.ReplaceAction(a.WithStatus(ActionStatus.Completed))).RecordKey(a.idempotencyKey);
    done.(commits := done.commits + one)
  }

  /** The choice of a next action, for a plan that is no sub-plan. */
  lemma ChoiceForm(run: RunId, t: Store, q: AgentPlan, sent: seq<Message>)
    requires q.planId == run && q.parentRunId == None
    ensures var v := ChooseNext(t, q, sent);
            && v.sent == sent && v.next == q.NextPendingAction() && !v.raised
            && v.store == t.(reports := t.reports + if v.next.None? && q.status == PlanStatus.Completed then [RunCompleted(run)] else [])
  {
    hide AgentPlan.NextPendingAction;
    assert t.reports + [] == t.reports;
  }

  lemma NothingMoves(run: RunId, p: AgentPlan, a: PlannedAction, attempt: nat, correlation: Option<string>, o: Outcome)
    requires Goes(attempt, o) != ActionStatus.Pending && Goes(attempt, o) != Stale
    ensures Moving(run, p, a, attempt, correlation, o) == []
  {
  }

  lemma NoticesOnly(events: seq<string>)
    ensures Tokens(Notices(events)) == []
  {
    NoTokens(Notices(events));
  }

  lemma RetryTakesTurn(run: RunId, s: Store, attempt: nat, correlation: Option<string>, o: Outcome)
    requires run in s.plans && s.plans[run].planId == run && s.plans[run].parentRunId == None && HasTurn(s.plans[run]) && RunsTool(o)
    requires Goes(attempt, o) == ActionStatus.Pending
    ensures TurnTaken(run, s, attempt, correlation, o, Execute(s, s.plans[run], OnTurn(s.plans[run]), attempt, o))
  {
    hide Replaced, StatusOf, AgentPlan.NextPendingAction, Execute, Notices, Tokens, ChooseNext, End;
    var p, a := s.plans[run], OnTurn(s.plans[run]);
    Orchestration.ExecuteForm(s, p, a, attempt, o);
    TokensOfOne(Message(ActionRequested(run, a.actionId), attempt + 1));
    assert s.reports + [] == s.reports;
  }

  lemma FailTakesTurn(run: RunId, s: Store, attempt: nat, correlation: Option<string>, o: Outcome)
    requires run in s.plans && s.plans[run].planId == run && s.plans[run].parentRunId == None && HasTurn(s.plans[run]) && RunsTool(o)
    requires Goes(attempt, o) == ActionStatus.Failed
    ensures TurnTaken(run, s, attempt, correlation, o, Execute(s, s.plans[run], OnTurn(s.plans[run]), attempt, o))
  {
    hide Replaced, StatusOf, AgentPlan.NextPendingAction, Execute, Notices, ChooseNext;
    var p, a := s.plans[run], OnTurn(s.plans[run]);
    Orchestration.ExecuteForm(s, p, a, attempt, o);
    assert s.reports + [] == s.reports && Tokens([]) == [];
    assert Settlement(p.ReplaceAction(a.WithStatus(ActionStatus.Failed)), NodeFailed) == [];
  }

  lemma ActTakesTurn(run: RunId, s: Store, attempt: nat, correlation: Option<string>, o: Outcome)
    requires run in s.plans && s.plans[run].planId == run && s.plans[run].parentRunId == None && HasTurn(s.plans[run])
    ensures TurnTaken(run, s, attempt, correlation, o, ActOn(s, s.plans[run], OnTurn(s.plans[run]), attempt, correlation, o))
  {
    hide TurnTaken, Execute;
    if RunsTool(o) {
      if Goes(attempt, o) == ActionStatus.Completed {
        CommitTakesTurn(run, s, attempt, correlation, o);
      } else if Goes(attempt, o) == ActionStatus.Pending {
        RetryTakesTurn(run, s, attempt, correlation, o);
      } else {
        FailTakesTurn(run, s, attempt, correlation, o);
      }
    } else {
      if o.decision == Suggest {
        SuggestTakesTurn(run, s, attempt, correlation, o);
      } else {
        StopTakesTurn(run, s, attempt, correlation, o);
      }
    }
  }

  /** An action of the plan that was asked for: one before the turn, which is COMPLETED, or the one on turn. */
  lemma Asked(run: RunId, p: AgentPlan, aid: string) returns (i: nat)
    requires PlanKept(run, p) && p.GetAction(aid).Some? && Orchestration.Reached(p, aid)
    ensures i < |p.actions| && i <= Frontier(p.actions) && p.actions[i].actionId == aid && p.GetAction(aid) == Some(p.actions[i])
    ensures i < Frontier(p.actions) <==> p.actions[i].status == ActionStatus.Completed
  {
    i :| 0 <= i <= Frontier(p.actions) && i < |p.actions| && p.actions[i].actionId == aid;
    FindActionAt(p.actions, i);
  }

  /** Is the delivery of a request for `aid` one for an action that is COMPLETED already? */
  predicate IsLate(p: AgentPlan, aid: string) {
    p.GetAction(aid).Some? && p.GetAction(aid).value.status == ActionStatus.Completed
  }

  /** Does a request for `aid` give that action its turn? */
  predicate GivesTurn(s: Store, p: AgentPlan, aid: string) {
    HasTurn(p) && OnTurn(p).actionId == aid && OnTurn(p).idempotencyKey !in s.keys
  }

  /** What a visit does: a turn, a late visit that chooses the next action again, or nothing. */
  lemma VisitIs(run: RunId, s: Store, aid: string, attempt: nat, correlation: Option<string>, o: Outcome)
    requires run in s.plans && PlanKept(run, s.plans[run])
    requires s.plans[run].GetAction(aid).Some? ==> Orchestration.Reached(s.plans[run], aid)
    ensures var v, p := Visit(s, run, aid, attempt, correlation, o), s.plans[run];
            if GivesTurn(s, p, aid) then TurnTaken(run, s, attempt, correlation, o, v)
            else if IsLate(p, aid) then v == ChooseNext(s, p, [])
            else v.store == s && v.sent == [] && v.next.None?
  {
    var p := s.plans[run];
    hide TurnTaken, ActOn, Keyed, Shaped, ChooseNext;
    if p.GetAction(aid).Some? {
      var i := Asked(run, p, aid);
      if HasTurn(p) {
        TurnIsDistinct(run, p, i);
        if GivesTurn(s, p, aid) {
          ActTakesTurn(run, s, attempt, correlation, o);
        }
      } else {
        RestedTurn(run, p, i);
      }
    } else if HasTurn(p) {
      TurnIsFound(run, p);
    }
  }

  lemma TurnIsDistinct(run: RunId, p: AgentPlan, i: nat)
    requires PlanKept(run, p) && HasTurn(p) && i <= Frontier(p.actions)
    ensures p.actions[i].actionId == OnTurn(p).actionId <==> i == Frontier(p.actions)
    ensures OnTurn(p).status == ActionStatus.Pending
  {
  }

  lemma TurnIsFound(run: RunId, p: AgentPlan)
    requires PlanKept(run, p) && HasTurn(p)
    ensures p.GetAction(OnTurn(p).actionId) == Some(OnTurn(p))
  {
    FindActionAt(p.actions, Frontier(p.actions));
  }

  lemma RestedTurn(run: RunId, p: AgentPlan, i: nat)
    requires PlanKept(run, p) && !HasTurn(p) && i <= Frontier(p.actions) && i < |p.actions|
    ensures p.actions[i].status in {ActionStatus.Completed, ActionStatus.Failed, RequiresApproval, Stale}
  {
  }

  // ---------------------------------------------------------------------
  // Deliveries keep the run in order
  // ---------------------------------------------------------------------

  function Asks(run: RunId, next: Option<PlannedAction>): set<Message> {
    if next.Some? then {Send(ActionRequested(run, next.value.actionId))} else {}
  }

  /** Where a turn leaves the plan. */
  lemma TurnLeaves(run: RunId, p: AgentPlan, status: ActionStatus)
    requires PlanKept(run, p) && HasTurn(p) && (Resting(status) || status == ActionStatus.Completed)
    ensures var k, q := Frontier(p.actions), p.ReplaceAction(OnTurn(p).WithStatus(status));
            && PlanKept(run, q) && q.source == p.source && q.actions == p.actions[k := OnTurn(p).WithStatus(status)]
            && Frontier(q.actions) == (if status == ActionStatus.Completed then k + 1 else k)
            && q.status == (if Resting(status) then TurnStatus(status) else if k + 1 == |p.actions| then PlanStatus.Completed else PlanStatus.Running)
            && Orchestration.Moves(p, k, status, q)
  {
    hide RunOf, RunPrefix;
    var q := p.ReplaceAction(OnTurn(p).WithStatus(status));
    TurnKeepsShape(p, status);
    Orchestration.TurnOf(p, status, q);
    Orchestration.MoveKeyed(p, Frontier(p.actions), status, q, RunPrefix(p.source, run.id));
  }

  lemma TurnCommits(run: RunId, s: Store, t: Store, p: AgentPlan, status: ActionStatus, q: AgentPlan, ran: bool)
    requires CommitsKept(run, s, p) && HasTurn(p) && UniqueActions(p.actions) && (status == ActionStatus.Completed ==> ran)
    requires q.actions == p.actions[Frontier(p.actions) := OnTurn(p).WithStatus(status)]
    requires t.commits == s.commits + (if status == ActionStatus.Completed then multiset{(run, OnTurn(p).actionId)} else multiset{})
    requires t.executions == s.executions + (if ran then multiset{(run, OnTurn(p).actionId)} else multiset{})
    ensures CommitsKept(run, t, q)
  {
    var k := Frontier(p.actions);
    forall i | 0 <= i < |q.actions|
      ensures t.commits[(run, q.actions[i].actionId)] == if q.actions[i].status == ActionStatus.Completed then 1 else 0 {
      assert i != k ==> q.actions[i] == p.actions[i] && p.actions[i].actionId != OnTurn(p).actionId;
    }
    assert s.commits[(run, OnTurn(p).actionId)] == 0;
  }

  /** A plan that moves on keeps every message acceptable. */
  lemma TurnMessages(run: RunId, p: AgentPlan, status: ActionStatus, q: AgentPlan, m: Message)
    requires Orchestration.Moves(p, Frontier(p.actions), status, q) && Frontier(p.actions) <= Frontier(q.actions)
    requires MessageKept(run, p, m)
    ensures MessageKept(run, q, m)
  {
    if m.body.ActionRequested? && q.GetAction(m.body.actionId).Some? {
      var i := FindActionIndex(q.actions, m.body.actionId);
      assert p.actions[i].actionId == m.body.actionId;
      Found(p.actions, i);
      Orchestration.MoveReaches(p, Frontier(p.actions), status, q, m.body.actionId);
    }
  }

  lemma {:induction false} Found(actions: seq<PlannedAction>, i: nat)
    requires i < |actions|
    ensures FindAction(actions, actions[i].actionId).Some?
  {
    if i > 0 {
      Found(actions[1..], i - 1);
    }
  }

  /** The replan event of a plan belongs to the plan's run. */
  lemma ReplanStays(run: RunId, p: AgentPlan, key: string, correlation: Option<string>, eventId: string)
    requires RunOf(p.source) == run && Trimmed(run.id)
    ensures RunOf(ReplanSource(p.source, run.id, key, correlation, eventId)) == run
  {
    ReplanKeepsRunId(p.source, key, correlation, eventId);
    hide ResolveRunId;
  }

  /** A turn keeps the run in order. */
  lemma TurnKept(run: RunId, s: Store, sent: set<Message>, attempt: nat, correlation: Option<string>, o: Outcome, v: Visited)
    requires Kept(run, s, sent) && Trimmed(run.id) && HasTurn(s.plans[run]) && TurnTaken(run, s, attempt, correlation, o, v)
    ensures Kept(run, v.store, sent + Set(v.sent) + Asks(run, v.next))
  {
    hide Keyed, RunOf, RunPrefix, AgentPlan.NextPendingAction, AgentPlan.ReplaceAction, Shaped, ReplanSource, Trimmed;
    var p, a, status := s.plans[run], OnTurn(s.plans[run]), Goes(attempt, o);
    var q := v.store.plans[run];
    TurnLeaves(run, p, status);
    ShapedIsUnique(p);
    TurnCommits(run, s, v.store, p, status, q, RunsTool(o));
    NextIsOnTurn(run, q);
    forall m | m in sent + Set(v.sent) + Asks(run, v.next) ensures MessageKept(run, q, m) {
      if m in sent {
        TurnMessages(run, p, status, q, m);
      } else if m in v.sent {
        TokensHas(v.sent, m);
        MovingKept(run, p, q, attempt, correlation, o, m);
      } else {
        assert q.actions[Frontier(q.actions)].actionId == m.body.actionId;
      }
    }
  }

  lemma ShapedIsUnique(p: AgentPlan)
    requires HasTurn(p) && (p.actions == [] || Shaped(p))
    ensures UniqueActions(p.actions)
  {
  }

  lemma MovingKept(run: RunId, p: AgentPlan, q: AgentPlan, attempt: nat, correlation: Option<string>, o: Outcome, m: Message)
    requires HasTurn(p) && p.planId == run && RunOf(p.source) == run && Trimmed(run.id) && (m.body.Notice? || m in Moving(run, p, OnTurn(p), attempt, correlation, o))
    requires Goes(attempt, o) == ActionStatus.Pending ==> Frontier(q.actions) < |q.actions| && OnTurn(q).actionId == OnTurn(p).actionId
    ensures MessageKept(run, q, m)
  {
    if m.body.Trigger? {
      ReplanStays(run, p, OnTurn(p).idempotencyKey, correlation, o.eventId);
    }
    hide RunOf, Trimmed, ReplanSource;
  }

  /** A visit keeps the run in order. */
  lemma VisitKept(run: RunId, s: Store, sent: set<Message>, aid: string, attempt: nat, correlation: Option<string>, o: Outcome)
    requires Kept(run, s, sent) && Trimmed(run.id) && Message(ActionRequested(run, aid), attempt) in sent
    ensures var v := Visit(s, run, aid, attempt, correlation, o);
            Kept(run, v.store, sent + Set(v.sent) + Asks(run, v.next))
  {
    hide Visit, TurnTaken, PlanKept, CommitsKept, GivesTurn, IsLate;
    assert MessageKept(run, s.plans[run], Message(ActionRequested(run, aid), attempt));
    VisitIs(run, s, aid, attempt, correlation, o);
    var v := Visit(s, run, aid, attempt, correlation, o);
    if GivesTurn(s, s.plans[run], aid) {
      TurnGiven(s, s.plans[run], aid);
      TurnKept(run, s, sent, attempt, correlation, o, v);
    } else if IsLate(s.plans[run], aid) {
      LateKept(run, s, sent);
    } else {
      assert sent + Set([]) + {} == sent;
    }
  }

  lemma TurnGiven(s: Store, p: AgentPlan, aid: string)
    requires GivesTurn(s, p, aid)
    ensures HasTurn(p)
  {
  }

  lemma LateKept(run: RunId, s: Store, sent: set<Message>)
    requires Kept(run, s, sent)
    ensures var v := ChooseNext(s, s.plans[run], []);
            Kept(run, v.store, sent + Set(v.sent) + Asks(run, v.next))
  {
    hide AgentPlan.NextPendingAction;
    var p := s.plans[run];
    ChoiceForm(run, s, p, []);
    hide ChooseNext;
    NextIsOnTurn(run, p);
    var v := ChooseNext(s, p, []);
    if v.next.Some? {
      assert p.actions[Frontier(p.actions)].actionId == v.next.value.actionId;
    }
  }

  lemma KeptSubset(run: RunId, s: Store, some: set<Message>, all: set<Message>)
    requires Kept(run, s, all) && some <= all
    ensures Kept(run, s, some)
  {
  }

  /** A whole delivery of a request, inline chaining included, keeps the run in order. */
  lemma {:induction false} HandleActionKept(run: RunId, s: Store, sent: set<Message>, aid: string, attempt: nat, correlation: Option<string>,
                                            oracle: nat -> Outcome, answers: nat, inlined: nat)
    requires Kept(run, s, sent) && Trimmed(run.id) && Message(ActionRequested(run, aid), attempt) in sent
    ensures var h := HandleAction(s, run, aid, attempt, correlation, oracle, answers, inlined);
            Kept(run, h.store, sent + Set(h.sent))
    decreases INLINE_ACTION_CHAIN_BUDGET - inlined
  {
    hide Visit, Kept;
    var v := Visit(s, run, aid, attempt, correlation, oracle(answers));
    var h := HandleAction(s, run, aid, attempt, correlation, oracle, answers, inlined);
    VisitKept(run, s, sent, aid, attempt, correlation, oracle(answers));
    var after := sent + Set(v.sent) + Asks(run, v.next);
    if v.next.Some? && !v.next.value.requiresApproval && inlined < INLINE_ACTION_CHAIN_BUDGET {
      HandleActionKept(run, v.store, after, v.next.value.actionId, 0, correlation, oracle, answers + 1, inlined + 1);
      var rest := HandleAction(v.store, run, v.next.value.actionId, 0, correlation, oracle, answers + 1, inlined + 1);
      KeptSubset(run, h.store, sent + Set(h.sent), after + Set(rest.sent));
    } else {
      KeptSubset(run, h.store, sent + Set(h.sent), after);
    }
  }

  // ---------------------------------------------------------------------
  // Triggers
  // ---------------------------------------------------------------------

  /** Does trigger `x` make a plan, the first one or that of a replan? */
  predicate MakesPlan(run: RunId, s: Store, x: Source) {
    run in s.plans ==> s.plans[run].status == ReplanRequired && x.replan
  }

  /** A trigger that makes no plan asks for the action on turn once more. */
  lemma ResumeForm(run: RunId, s: Store, x: Source, proposal: Proposal)
    requires !MakesPlan(run, s, x) && PlanKept(run, s.plans[run]) && RunOf(x) == run
    ensures var p := s.plans[run];
            HandleWhole(s, x, proposal) == (s, if HasTurn(p) then [Send(ActionRequested(run, OnTurn(p).actionId))] else [])
  {
    hide RunOf, RunPrefix, Keyed, AgentPlan.NextPendingAction, PlanForNode;
    NextIsOnTurn(run, s.plans[run]);
  }

  /** Plan `p` was just made for trigger `x` from `drafts`: all its actions are PENDING. */
  ghost predicate JustPlanned(run: RunId, p: AgentPlan, x: Source, drafts: seq<Draft>) {
    && PlanKept(run, p) && p.source == x && |p.actions| == |drafts| && Frontier(p.actions) == 0
    && (forall i :: 0 <= i < |drafts| ==> p.actions[i].actionId == drafts[i].actionId && p.actions[i].status == ActionStatus.Pending)
    && (forall i :: 0 <= i < |drafts| ==> p.actions[i].idempotencyKey == Key(RunPrefix(x, run.id), drafts[i].toolName, i + 1))
    && (drafts != [] ==> p.status == Planned)
  }

  lemma DraftsPlanned(run: RunId, x: Source, proposal: Proposal)
    requires UniqueDrafts(proposal.drafts) && proposal.drafts != [] && RunOf(x) == run
    ensures JustPlanned(run, PlanForNode(ROOT_NODE_ID, x, run, proposal.drafts, proposal.approval), x, proposal.drafts)
  {
    hide RunOf, RunPrefix;
    var prefix := RunPrefix(x, run.id);
    var p := PlanForNode(ROOT_NODE_ID, x, run, proposal.drafts, proposal.approval);
    NormalizedIsChain(p, proposal.drafts, proposal.approval, prefix);
    forall i | 0 <= i < |p.actions|
      ensures p.actions[i].actionId == proposal.drafts[i].actionId && p.actions[i].status == ActionStatus.Pending
      ensures p.actions[i].idempotencyKey == Key(prefix, proposal.drafts[i].toolName, i + 1) {
      NormalizedAt(proposal.drafts, proposal.approval, prefix, i);
    }
    hide Normalized;
  }

  /** What planning leaves: the new plan and the request for its first action. */
  lemma PlanForm(run: RunId, s: Store, x: Source, proposal: Proposal)
    requires MakesPlan(run, s, x) && UniqueDrafts(proposal.drafts) && RunOf(x) == run
    ensures var r := HandleWhole(s, x, proposal);
            && run in r.0.plans && JustPlanned(run, r.0.plans[run], x, proposal.drafts)
            && r.0.keys == s.keys && r.0.commits == s.commits && r.0.executions == s.executions
            && r.0.reports == s.reports + (if proposal.drafts == [] then [RunFailed(run)] else [])
            && r.1 == (if proposal.drafts == [] then [] else [Send(ActionRequested(run, proposal.drafts[0].actionId))])
  {
    hide RunOf, RunPrefix, AgentPlan.NextPendingAction, JustPlanned;
    if proposal.drafts == [] {
      NothingPlanned(run, x, proposal);
    } else {
      DraftsPlanned(run, x, proposal);
      var p := PlanForNode(ROOT_NODE_ID, x, run, proposal.drafts, proposal.approval);
      FirstOfPlan(run, p, x, proposal.drafts);
      assert s.reports + [] == s.reports;
      hide PlanForNode;
    }
  }

  lemma NothingPlanned(run: RunId, x: Source, proposal: Proposal)
    requires proposal.drafts == [] && RunOf(x) == run
    ensures var p := PlanForNode(ROOT_NODE_ID, x, run, proposal.drafts, proposal.approval);
            p.NextPendingAction() == None && p.status == Planned && p.planId == run && JustPlanned(run, p.(status := PlanStatus.Failed), x, [])
  {
    hide RunOf, RunPrefix;
    var p := PlanForNode(ROOT_NODE_ID, x, run, proposal.drafts, proposal.approval);
    assert p.actions == [] && FirstPending([], p.CompletedActionIds()) == None;
  }

  lemma FirstOfPlan(run: RunId, p: AgentPlan, x: Source, drafts: seq<Draft>)
    requires JustPlanned(run, p, x, drafts) && drafts != []
    ensures HasTurn(p) && OnTurn(p) == p.actions[0] && p.NextPendingAction() == Some(p.actions[0]) && p.actions[0].actionId == drafts[0].actionId
    ensures p.planId == run && p.status == Planned
  {
    NextIsOnTurn(run, p);
  }

  /** A trigger keeps the run in order. */
  lemma TriggerKept(run: RunId, e: Source, n: Net, m: Message, proposal: Proposal)
    requires NetKept(run, e, n) && m in n.sent && m.body.Trigger? && RunOf(e) == run
    requires UniqueDrafts(proposal.drafts) && FreshIds(run, n, proposal.drafts)
    ensures var r := HandleWhole(n.store, m.body.source, proposal);
            RunOf(m.body.source) == run && Kept(run, r.0, n.sent + Set(r.1))
  {
    hide PlanKept, RunOf, HandleWhole, CommitsKept, JustPlanned;
    var s, x := n.store, m.body.source;
    if run in s.plans {
      assert MessageKept(run, s.plans[run], m);
    }
    if MakesPlan(run, s, x) {
      PlanForm(run, s, x, proposal);
      var p := HandleWhole(s, x, proposal).0.plans[run];
      PlannedKept(run, s, HandleWhole(s, x, proposal).0, p, x, n, proposal.drafts);
      forall y | y in n.sent + Set(HandleWhole(s, x, proposal).1) ensures MessageKept(run, p, y) {
        PlannedMessage(run, e, n, p, x, proposal.drafts, y);
      }
    } else {
      ResumeForm(run, s, x, proposal);
      var p := s.plans[run];
      if HasTurn(p) {
        assert p.actions[Frontier(p.actions)].actionId == OnTurn(p).actionId;
      }
    }
  }

  lemma PlannedKept(run: RunId, s: Store, t: Store, p: AgentPlan, x: Source, n: Net, drafts: seq<Draft>)
    requires JustPlanned(run, p, x, drafts) && t.commits == s.commits && t.executions == s.executions && s == n.store
    requires FreshIds(run, n, drafts) && (run in s.plans ==> CommitsKept(run, s, s.plans[run])) && (run !in s.plans ==> s == EMPTY_STORE)
    ensures PlanKept(run, p) && CommitsKept(run, t, p)
  {
    hide PlanKept, Key, RunPrefix;
  }

  lemma PlannedMessage(run: RunId, e: Source, n: Net, p: AgentPlan, x: Source, drafts: seq<Draft>, m: Message)
    requires NetKept(run, e, n) && RunOf(e) == run && FreshIds(run, n, drafts) && JustPlanned(run, p, x, drafts)
    requires m in n.sent || (drafts != [] && m == Send(ActionRequested(run, drafts[0].actionId)))
    ensures MessageKept(run, p, m)
  {
    hide PlanKept, Key, RunPrefix, CommitsKept, RunOf;
    if m.body.ActionRequested? && m in n.sent && p.GetAction(m.body.actionId).Some? {
      var i := FindActionIndex(p.actions, m.body.actionId);
      assert drafts[i].actionId == m.body.actionId;
      assert m.body != ActionRequested(run, drafts[i].actionId);
    } else if m !in n.sent {
      assert p.actions[0].actionId == drafts[0].actionId;
    }
  }

  // ---------------------------------------------------------------------
  // Whole runs
  // ---------------------------------------------------------------------

  /** Delivering any message of the run keeps it in order. */
  lemma HandleKept(run: RunId, e: Source, n: Net, m: Message, w: World, inlined: nat)
    requires NetKept(run, e, n) && m in n.sent && RunOf(e) == run && Trimmed(run.id)
    requires m.body.Trigger? ==> UniqueDrafts(w.proposal.drafts) && FreshIds(run, n, w.proposal.drafts)
    ensures var h := Handle(n.store, m, AsWhole(w), 0, inlined);
            if run in h.store.plans then Kept(run, h.store, n.sent + Set(h.sent)) else h.store == n.store && h.sent == []
  {
    hide HandleAction, HandleWhole, Kept, FreshIds, UniqueDrafts, RunOf, Trimmed;
    assert n.sent + Set([]) == n.sent;
    KindKept(run, e, n, m);
    match m.body
    case ActionRequested(pid, aid) =>
      HandleActionKept(run, n.store, n.sent, aid, m.attempt, w.correlation, w.oracle, 0, inlined);
      KeptHasPlan(run, HandleAction(n.store, run, aid, m.attempt, w.correlation, w.oracle, 0, inlined), n.sent);
    case Trigger(x) =>
      TriggerKept(run, e, n, m, w.proposal);
      KeptPlan(run, HandleWhole(n.store, x, w.proposal).0, n.sent + Set(HandleWhole(n.store, x, w.proposal).1));
    case _ =>
  }

  lemma KeptHasPlan(run: RunId, h: Handled, sent: set<Message>)
    requires Kept(run, h.store, sent + Set(h.sent))
    ensures run in h.store.plans
  {
  }

  lemma KeptPlan(run: RunId, s: Store, sent: set<Message>)
    requires Kept(run, s, sent)
    ensures run in s.plans
  {
  }

  /** The kinds of message in a run. */
  lemma KindKept(run: RunId, e: Source, n: Net, m: Message)
    requires NetKept(run, e, n) && m in n.sent && RunOf(e) == run
    ensures m.body.Notice? || m.body.Trigger? || (m.body.ActionRequested? && m.body.plan == run && run in n.store.plans && Kept(run, n.store, n.sent))
    ensures run in n.store.plans ==> Kept(run, n.store, n.sent)
  {
    if run in n.store.plans {
      assert MessageKept(run, n.store.plans[run], m);
    }
  }

  lemma SetSplits(bag: seq<Message>, at: nat, sent: seq<Message>)
    requires at < |bag|
    ensures Set(RemoveAt(bag, at) + sent) <= Set(bag) + Set(sent) && bag[at] in Set(bag)
  {
  }

  lemma NextKept(run: RunId, e: Source, n: Net, c: Choice)
    requires NetKept(run, e, n) && RunOf(e) == run && Trimmed(run.id) && Proper(run, n, c)
    ensures NetKept(run, e, Next(n, c))
  {
    hide Handle, Kept, FreshIds, UniqueDrafts, RunOf, Trimmed;
    if c.Deliver? && c.at < |n.bag| {
      var m := n.bag[c.at];
      var h := Handle(n.store, m, AsWhole(c.world), 0, c.inlined);
      SetSplits(n.bag, c.at, h.sent);
      HandleKept(run, e, n, m, c.world, c.inlined);
      assert n.sent + Set([]) == n.sent;
    } else if c.Redeliver? && c.message in n.sent {
      assert Set(n.bag + [c.message]) == Set(n.bag) + {c.message};
    }
  }

  lemma ProperBefore(e: Source, cs: seq<Choice>)
    requires ProperRun(e, cs) && cs != []
    ensures ProperRun(e, cs[..|cs| - 1]) && Proper(RunOf(e), Run(e, cs[..|cs| - 1]), cs[|cs| - 1])
  {
    var before := cs[..|cs| - 1];
    forall i | 0 <= i < |before| ensures Proper(RunOf(e), Run(e, before[..i]), before[i]) {
      assert before[..i] == cs[..i];
    }
  }

  lemma {:induction false} RunKept(e: Source, cs: seq<Choice>)
    requires Trimmed(ResolveRunId(e)) && ProperRun(e, cs)
    ensures NetKept(RunOf(e), e, Run(e, cs))
  {
    hide Next, ResolveRunId;
    if cs != [] {
      ProperBefore(e, cs);
      RunKept(e, cs[..|cs| - 1]);
      NextKept(RunOf(e), e, Run(e, cs[..|cs| - 1]), cs[|cs| - 1]);
    } else {
      assert RunOf(e) !in EMPTY_STORE.plans;
    }
  }

  /** At every moment and under any redelivery the plan has its shape: COMPLETED*, at most one other status, PENDING*. */
  lemma ShapeIsKept(e: Source, cs: seq<Choice>)
    requires Trimmed(ResolveRunId(e)) && ProperRun(e, cs) && RunOf(e) in Run(e, cs).store.plans
    ensures var p := Run(e, cs).store.plans[RunOf(e)];
            p.planId == RunOf(e) && (if p.actions == [] then p.status == PlanStatus.Failed else Shaped(p))
  {
    RunKept(e, cs);
  }

  /** Under any redelivery no action's result is accepted twice, and that of an action of the plan once exactly if it is COMPLETED. */
  lemma SoloCommitsAtMostOnce(e: Source, cs: seq<Choice>, aid: string)
    requires Trimmed(ResolveRunId(e)) && ProperRun(e, cs)
    ensures var s, run := Run(e, cs).store, RunOf(e);
            && s.commits[(run, aid)] <= 1
            && (run in s.plans && s.plans[run].GetAction(aid).Some? ==>
                  (s.commits[(run, aid)] == 1 <==> s.plans[run].GetAction(aid).value.status == ActionStatus.Completed))
  {
    RunKept(e, cs);
    var s, run := Run(e, cs).store, RunOf(e);
    if run in s.plans && s.plans[run].GetAction(aid).Some? {
      var i := FindActionIndex(s.plans[run].actions, aid);
    }
  }
}
