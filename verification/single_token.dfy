/**
  Runs of a single plan in which every message is delivered at most once, in any order. Beside notices
  at most one message waits, so what redelivery can do to a run cannot happen here.
 */
module SingleToken {
  import opened Common
  import opened Events
  import opened Plans
  import opened Planner
  import opened Runtime
  import Orchestration
  import opened WorkflowRun
  import opened WorkflowKeys
  import opened WorkflowCounts
  import opened WorkflowExecutions

  ghost predicate Once(cs: seq<Choice>) {
    forall c :: c in cs ==> c.Deliver?
  }

  /** The one message that moves a plan on: the request for the action on turn, or the replan event of the stale action, or none. */
  ghost predicate TokenShape(run: RunId, p: AgentPlan, tokens: seq<Message>) {
    if HasTurn(p) then |tokens| == 1 && tokens[0].body == ActionRequested(run, OnTurn(p).actionId)
    else if p.status == ReplanRequired then
      |tokens| == 1 && tokens[0].body.Trigger? && tokens[0].body.source.replan && IsCurrent(p, tokens[0].body.source)
    else tokens == []
  }

  ghost predicate Single(run: RunId, e: Source, n: Net) {
    && NetKept(run, e, n) && Linear(run, n.store)
    && (if run in n.store.plans then TokenShape(run, n.store.plans[run], Tokens(n.bag)) else Tokens(n.bag) == [Send(Trigger(e))])
  }

  lemma RemoveToken(bag: seq<Message>, at: nat)
    requires at < |bag| && |Tokens(bag)| <= 1
    ensures Tokens(RemoveAt(bag, at)) == if bag[at].body.Notice? then Tokens(bag) else []
    ensures !bag[at].body.Notice? ==> Tokens(bag) == [bag[at]]
  {
    hide Tokens;
    var front, one, back := bag[..at], [bag[at]], bag[at + 1..];
    assert bag == front + (one + back);
    TokensAppend(front, one + back);
    TokensAppend(one, back);
    TokensAppend(front, back);
    TokensOfOne(bag[at]);
    if bag[at].body.Notice? {
      assert [] + Tokens(back) == Tokens(back);
    } else {
      assert |Tokens(front)| == |Tokens(back)| == 0;
    }
  }

  /** A turn sends or chooses the one message that moves the plan on. */
  lemma TurnShape(run: RunId, s: Store, attempt: nat, correlation: Option<string>, o: Outcome, v: Visited)
    requires run in s.plans && PlanKept(run, s.plans[run]) && HasTurn(s.plans[run]) && TurnTaken(run, s, attempt, correlation, o, v)
    ensures var q := v.store.plans[run];
            && (v.next.None? ==> TokenShape(run, q, Tokens(v.sent)))
            && (v.next.Some? ==> Tokens(v.sent) == [] && HasTurn(q) && v.next.value == OnTurn(q))
  {
    hide PlanKept, Tokens, AgentPlan.ReplaceAction, AgentPlan.NextPendingAction;
    var p, status := s.plans[run], Goes(attempt, o);
    var q := p.ReplaceAction(OnTurn(p).WithStatus(status));
    TurnLeaves(run, p, status);
    NextIsOnTurn(run, q);
    assert status != ActionStatus.Completed ==> OnTurn(q).idempotencyKey == OnTurn(p).idempotencyKey && OnTurn(q).actionId == OnTurn(p).actionId;
    CompletedHasNoTurn(run, q);
  }

  /** The request for the action on turn gives it its turn: its key is not recorded. */
  lemma RequestGivesTurn(run: RunId, s: Store)
    requires run in s.plans && PlanKept(run, s.plans[run]) && Linear(run, s) && HasTurn(s.plans[run])
    ensures GivesTurn(s, s.plans[run], OnTurn(s.plans[run]).actionId)
  {
    KeyIsExact(run, s.keys, s.plans[run], Frontier(s.plans[run].actions));
    hide PlanKept, KeysKept, UpTo;
  }

  lemma {:induction false} HandleActionSingle(run: RunId, s: Store, sent: set<Message>, x: string, attempt: nat, correlation: Option<string>,
                                              oracle: nat -> Outcome, answers: nat, inlined: nat)
    requires Kept(run, s, sent) && Trimmed(run.id) && Message(ActionRequested(run, x), attempt) in sent && Linear(run, s)
    requires HasTurn(s.plans[run]) && OnTurn(s.plans[run]).actionId == x
    ensures var h := HandleAction(s, run, x, attempt, correlation, oracle, answers, inlined);
            run in h.store.plans && TokenShape(run, h.store.plans[run], Tokens(h.sent))
    decreases INLINE_ACTION_CHAIN_BUDGET - inlined
  {
    hide Visit, PlanKept, CommitsKept, MessageKept, Linear, Tokens, TokenShape, TurnTaken, GivesTurn, IsLate;
    var v, o := Visit(s, run, x, attempt, correlation, oracle(answers)), oracle(answers);
    RequestGivesTurn(run, s);
    assert MessageKept(run, s.plans[run], Message(ActionRequested(run, x), attempt));
    RequestIsReached(run, s, sent, x, attempt);
    VisitIs(run, s, x, attempt, correlation, o);
    TurnShape(run, s, attempt, correlation, o, v);
    VisitKept(run, s, sent, x, attempt, correlation, o);
    VisitLinear(run, s, sent, x, attempt, correlation, o);
    if v.next.Some? {
      var next := Send(ActionRequested(run, v.next.value.actionId));
      if !v.next.value.requiresApproval && inlined < INLINE_ACTION_CHAIN_BUDGET {
        HandleActionSingle(run, v.store, sent + Set(v.sent) + Asks(run, v.next), v.next.value.actionId, 0, correlation, oracle, answers + 1, inlined + 1);
        var rest := HandleAction(v.store, run, v.next.value.actionId, 0, correlation, oracle, answers + 1, inlined + 1);
        TokensAppend(v.sent, rest.sent);
        assert [] + Tokens(rest.sent) == Tokens(rest.sent);
      } else {
        TokensAppend(v.sent, [next]);
        TokensOfOne(next);
        assert [] + [next] == [next];
        RequestShape(run, v.store.plans[run], next);
      }
    }
  }

  lemma RequestIsReached(run: RunId, s: Store, sent: set<Message>, x: string, attempt: nat)
    requires Kept(run, s, sent) && Message(ActionRequested(run, x), attempt) in sent
    ensures s.plans[run].GetAction(x).Some? ==> Orchestration.Reached(s.plans[run], x)
  {
    assert MessageKept(run, s.plans[run], Message(ActionRequested(run, x), attempt));
  }

  lemma RequestShape(run: RunId, p: AgentPlan, m: Message)
    requires HasTurn(p) && m.body == ActionRequested(run, OnTurn(p).actionId)
    ensures TokenShape(run, p, [m])
  {
  }

  lemma PlannedShape(run: RunId, s: Store, x: Source, proposal: Proposal)
    requires MakesPlan(run, s, x) && RunOf(x) == run && UniqueDrafts(proposal.drafts)
    ensures var r := HandleWhole(s, x, proposal);
            run in r.0.plans && TokenShape(run, r.0.plans[run], Tokens(r.1))
  {
    hide HandleWhole, Tokens, RunOf, Key, RunPrefix, Keyed, Shaped, MakesPlan;
    PlanForm(run, s, x, proposal);
    var r := HandleWhole(s, x, proposal);
    if proposal.drafts == [] {
      TokensOfNothing();
    } else {
      FirstOfPlan(run, r.0.plans[run], x, proposal.drafts);
      TokensOfOne(r.1[0]);
    }
  }

  lemma TokensOfNothing()
    ensures Tokens([]) == []
  {
  }

  /** Delivering a run's one token. */
  lemma TokenDelivered(run: RunId, e: Source, n: Net, m: Message, w: World, inlined: nat)
    requires Single(run, e, n) && m in n.sent && Tokens(n.bag) == [m] && !m.body.Notice? && RunOf(e) == run && Trimmed(run.id)
    requires m.body.Trigger? ==> UniqueDrafts(w.proposal.drafts) && FreshIds(run, n, w.proposal.drafts)
    ensures var h := Handle(n.store, m, AsWhole(w), 0, inlined);
            run in h.store.plans && TokenShape(run, h.store.plans[run], Tokens(h.sent)) && Linear(run, h.store)
  {
    hide HandleAction, HandleWhole, Kept, FreshIds, UniqueDrafts, RunOf, Trimmed, Linear, PlanKept, IsCurrent, Tokens;
    KindKept(run, e, n, m);
    assert [m][0] == m;
    HandleLinear(run, e, n, m, w, inlined);
    if m.body.ActionRequested? {
      KeptParts(run, n.store, n.sent);
      HandleActionSingle(run, n.store, n.sent, m.body.actionId, m.attempt, w.correlation, w.oracle, 0, inlined);
    } else {
      TriggerKept(run, e, n, m, w.proposal);
      PlannedShape(run, n.store, m.body.source, w.proposal);
    }
  }

  lemma NextSingle(run: RunId, e: Source, n: Net, c: Choice)
    requires Single(run, e, n) && RunOf(e) == run && Trimmed(run.id) && Proper(run, n, c) && c.Deliver?
    ensures Single(run, e, Next(n, c)) && Current(run, n, c)
  {
    hide Handle, FreshIds, UniqueDrafts, RunOf, Trimmed, Linear, NetKept, IsCurrent, Tokens;
    NextKept(run, e, n, c);
    if c.at < |n.bag| {
      var m := n.bag[c.at];
      var h := Handle(n.store, m, AsWhole(c.world), 0, c.inlined);
      BagIsSent(run, e, n, c.at);
      RemoveToken(n.bag, c.at);
      TokensAppend(RemoveAt(n.bag, c.at), h.sent);
      if m.body.Notice? {
        NoticeDoesNothing(n.store, m, c.world, c.inlined);
        assert Tokens(n.bag) + [] == Tokens(n.bag);
      } else {
        assert [m][0] == m;
        TokenDelivered(run, e, n, m, c.world, c.inlined);
        assert [] + Tokens(h.sent) == Tokens(h.sent);
      }
    }
  }

  lemma NoticeDoesNothing(s: Store, m: Message, w: World, inlined: nat)
    requires m.body.Notice?
    ensures var h := Handle(s, m, AsWhole(w), 0, inlined);
            h.store == s && Tokens(h.sent) == []
  {
  }

  lemma {:induction false} OnceIsSingle(e: Source, cs: seq<Choice>)
    requires Trimmed(ResolveRunId(e)) && ProperRun(e, cs) && Once(cs)
    ensures Single(RunOf(e), e, Run(e, cs)) && CurrentRun(e, cs)
  {
    hide Next, ResolveRunId, Single, ProperRun, Current;
    if cs == [] {
      StartSingle(e);
    } else {
      var before, c := cs[..|cs| - 1], cs[|cs| - 1];
      ProperBefore(e, cs);
      OnceIsSingle(e, before);
      assert c in cs;
      NextSingle(RunOf(e), e, Run(e, before), c);
      forall i | 0 <= i < |cs| ensures Current(RunOf(e), Run(e, cs[..i]), cs[i]) {
        if i < |before| {
          assert cs[..i] == before[..i] && Current(RunOf(e), Run(e, before[..i]), before[i]);
        }
      }
    }
  }

  lemma StartSingle(e: Source)
    ensures Single(RunOf(e), e, Start(e))
  {
    TokensOfOne(Send(Trigger(e)));
    hide RunOf;
  }

  // ---------------------------------------------------------------------
  // Theorems
  // ---------------------------------------------------------------------

  /**
    Chain shape and single token. Between deliveries the plan reads COMPLETED*, one action whose turn it
    is or that ended the plan, PENDING*; its status says which; and beside notices at most one message
    waits: the request for `next_pending_action`, or the replan event of a plan that asks for one.
   */
  lemma ChainAndSingleToken(e: Source, cs: seq<Choice>)
    requires Trimmed(ResolveRunId(e)) && ProperRun(e, cs) && Once(cs) && RunOf(e) in Run(e, cs).store.plans
    ensures var p, tokens := Run(e, cs).store.plans[RunOf(e)], Tokens(Run(e, cs).bag);
            && (p.actions == [] || Shaped(p)) && |tokens| <= 1
            && (p.NextPendingAction().Some? ==>
                  tokens != [] && tokens[0].body == ActionRequested(RunOf(e), p.NextPendingAction().value.actionId))
            && (p.NextPendingAction().None? ==> (tokens != [] <==> p.status == ReplanRequired))
            && (tokens != [] && p.status == ReplanRequired ==>
                  tokens[0].body.Trigger? && tokens[0].body.source.replan && IsCurrent(p, tokens[0].body.source))
  {
    hide ResolveRunId, Tokens, Linear, AgentPlan.NextPendingAction, IsCurrent, ProperRun, Run;
    OnceIsSingle(e, cs);
    var p := Run(e, cs).store.plans[RunOf(e)];
    NextIsOnTurn(RunOf(e), p);
    TurnIsNotReplan(RunOf(e), p);
  }

  lemma TurnIsNotReplan(run: RunId, p: AgentPlan)
    requires PlanKept(run, p)
    ensures HasTurn(p) ==> p.status != ReplanRequired
  {
  }

  /** Without redelivery no action is executed more than three times, over all deliveries and replans. */
  lemma AtMostThreeExecutions(e: Source, cs: seq<Choice>, aid: string)
    requires Trimmed(ResolveRunId(e)) && ProperRun(e, cs) && Once(cs)
    ensures Run(e, cs).store.executions[(RunOf(e), aid)] <= ACTION_EXECUTION_ATTEMPTS
  {
    hide Run, ResolveRunId, ProperRun;
    ExecutionsAreBounded(e, cs, aid);
    NoneRedelivered(cs);
  }

  lemma {:induction false} NoneRedelivered(cs: seq<Choice>)
    requires Once(cs)
    ensures Redeliveries(cs) == 0
  {
    if cs != [] {
      assert cs[|cs| - 1] in cs;
      NoneRedelivered(cs[..|cs| - 1]);
    }
  }

  /** Without redelivery a run is reported completed exactly when its plan is COMPLETED, and then once. */
  lemma CompletedReportedOnce(e: Source, cs: seq<Choice>)
    requires Trimmed(ResolveRunId(e)) && ProperRun(e, cs) && Once(cs)
    ensures Completions(RunOf(e), Run(e, cs).store) == if IsCompleted(RunOf(e), Run(e, cs).store) then 1 else 0
  {
    hide Run, ResolveRunId, ProperRun, Completions, IsCompleted;
    CompletionsAreCounted(e, cs);
    NothingLate(e, cs);
  }

  lemma {:induction false} NothingLate(e: Source, cs: seq<Choice>)
    requires Trimmed(ResolveRunId(e)) && ProperRun(e, cs) && Once(cs)
    ensures LateDeliveries(e, cs) == 0
  {
    hide Run, ResolveRunId, ProperRun, ComesLate, Single;
    if cs != [] {
      var before := cs[..|cs| - 1];
      ProperBefore(e, cs);
      NothingLate(e, before);
      OnceIsSingle(e, before);
      SingleIsNotLate(RunOf(e), e, Run(e, before), cs[|cs| - 1]);
    }
  }

  lemma SingleIsNotLate(run: RunId, e: Source, n: Net, c: Choice)
    requires Single(run, e, n)
    ensures !ComesLate(run, n, c)
  {
    hide Linear, Tokens, IsCurrent;
    if ComesLate(run, n, c) {
      CompletedHasNoTurn(run, n.store.plans[run]);
      assert Tokens(n.bag) == [];
      RemoveToken(n.bag, c.at);
      assert false;
    }
  }
}
