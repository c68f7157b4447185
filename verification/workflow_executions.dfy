/**
  How often an action is executed in a run of a single plan: three times for every copy of a message
  there is. Each waiting message has a number of chances left to execute an action; a delivery spends
  what it takes, and only a redelivery adds three.
 */
module WorkflowExecutions {
  import opened Common
  import opened Events
  import opened Plans
  import opened Planner
  import opened Runtime
  import Orchestration
  import opened WorkflowRun
  import opened WorkflowKeys

  function Executed(run: RunId, s: Store, aid: string): nat {
    s.executions[(run, aid)]
  }

  /** Is the action of the plan still PENDING? */
  predicate StillDue(p: AgentPlan, aid: string) {
    p.GetAction(aid).Some? && p.GetAction(aid).value.status == ActionStatus.Pending
  }

  /** How often message `m`, and those it leads to, may still execute action `aid` of plan `p`. */
  function Chance(p: AgentPlan, aid: string, m: Message): nat {
    match m.body
    case Trigger(_) => ACTION_EXECUTION_ATTEMPTS
    case ActionRequested(_, x) =>
      if x == aid then (if m.attempt < ACTION_EXECUTION_ATTEMPTS then ACTION_EXECUTION_ATTEMPTS - m.attempt else 0)
      else if p.GetAction(x).Some? then ACTION_EXECUTION_ATTEMPTS else 0
    case _ => 0
  }

  function Chances(p: AgentPlan, aid: string, ms: seq<Message>): nat {
    if ms == [] then 0 else Chances(p, aid, ms[..|ms| - 1]) + Chance(p, aid, ms[|ms| - 1])
  }

  lemma {:induction false} ChancesAppend(p: AgentPlan, aid: string, a: seq<Message>, b: seq<Message>)
    ensures Chances(p, aid, a + b) == Chances(p, aid, a) + Chances(p, aid, b)
  {
    hide Chance;
    if b == [] {
      assert a + b == a;
    } else {
      assert (a + b)[..|a + b| - 1] == a + b[..|b| - 1];
      ChancesAppend(p, aid, a, b[..|b| - 1]);
    }
  }

  lemma ChancesOfOne(p: AgentPlan, aid: string, m: Message)
    ensures Chances(p, aid, [m]) == Chance(p, aid, m) && Chances(p, aid, []) == 0
  {
    assert [m][..0] == [];
  }

  lemma ChancesRemove(p: AgentPlan, aid: string, bag: seq<Message>, at: nat)
    requires at < |bag|
    ensures Chances(p, aid, bag) == Chances(p, aid, RemoveAt(bag, at)) + Chance(p, aid, bag[at])
  {
    hide Chance, Chances;
    assert bag == bag[..at] + ([bag[at]] + bag[at + 1..]);
    ChancesAppend(p, aid, bag[..at], [bag[at]] + bag[at + 1..]);
    ChancesAppend(p, aid, [bag[at]], bag[at + 1..]);
    ChancesAppend(p, aid, bag[..at], bag[at + 1..]);
    ChancesOfOne(p, aid, bag[at]);
  }

  /** No message has more than three chances, and a notice has none. */
  lemma {:induction false} ChancesBound(p: AgentPlan, aid: string, ms: seq<Message>)
    ensures Chances(p, aid, ms) <= ACTION_EXECUTION_ATTEMPTS * |Tokens(ms)|
  {
    if ms != [] {
      ChancesBound(p, aid, ms[..|ms| - 1]);
    }
  }

  /** The same actions, up to their statuses. */
  ghost predicate SameActions(p: AgentPlan, q: AgentPlan) {
    |p.actions| == |q.actions| && forall i :: 0 <= i < |p.actions| ==> p.actions[i].actionId == q.actions[i].actionId
  }

  lemma SameFound(p: AgentPlan, q: AgentPlan, aid: string)
    requires SameActions(p, q)
    ensures p.GetAction(aid).Some? <==> q.GetAction(aid).Some?
  {
    if p.GetAction(aid).Some? {
      var i := FindActionIndex(p.actions, aid);
      Found(q.actions, i);
    }
    if q.GetAction(aid).Some? {
      var i := FindActionIndex(q.actions, aid);
      Found(p.actions, i);
    }
  }

  lemma {:induction false} SameChances(p: AgentPlan, q: AgentPlan, aid: string, ms: seq<Message>)
    requires SameActions(p, q)
    ensures Chances(p, aid, ms) == Chances(q, aid, ms)
  {
    hide SameActions, AgentPlan.GetAction;
    if ms != [] {
      SameChances(p, q, aid, ms[..|ms| - 1]);
      var m := ms[|ms| - 1];
      if m.body.ActionRequested? {
        SameFound(p, q, m.body.actionId);
      }
    }
  }

  // ---------------------------------------------------------------------
  // One delivery
  // ---------------------------------------------------------------------

  /** From `s` to `t`, sending `sent`, no more executions of `aid` were done and made possible than `price`. */
  ghost predicate Pays(run: RunId, s: Store, aid: string, price: nat, t: Store, sent: seq<Message>) {
    && run in s.plans && run in t.plans && SameActions(s.plans[run], t.plans[run])
    && Executed(run, s, aid) <= Executed(run, t, aid)
    && Executed(run, t, aid) + (if StillDue(t.plans[run], aid) then Chances(t.plans[run], aid, sent) else 0) <= Executed(run, s, aid) + price
    && (!StillDue(s.plans[run], aid) ==> !StillDue(t.plans[run], aid) && Executed(run, t, aid) == Executed(run, s, aid))
  }

  /** What a visit sends once its choice of next action is sent. */
  function Out(run: RunId, v: Visited): seq<Message> {
    v.sent + if v.next.Some? then [Send(ActionRequested(run, v.next.value.actionId))] else []
  }

  lemma RequestChance(run: RunId, p: AgentPlan, aid: string, x: string)
    ensures Chances(p, aid, [Send(ActionRequested(run, x))]) <= ACTION_EXECUTION_ATTEMPTS
  {
    ChancesOfOne(p, aid, Send(ActionRequested(run, x)));
  }

  /** Which status an action other than the one on turn has does not change with a turn. */
  lemma DueAfterTurn(run: RunId, p: AgentPlan, status: ActionStatus, aid: string)
    requires PlanKept(run, p) && HasTurn(p) && (Resting(status) || status == ActionStatus.Completed)
    ensures var q := p.ReplaceAction(OnTurn(p).WithStatus(status));
            && SameActions(p, q) && StillDue(p, OnTurn(p).actionId)
            && (StillDue(q, aid) <==> if aid == OnTurn(p).actionId then status == ActionStatus.Pending else StillDue(p, aid))
  {
    hide Keyed, RunOf, RunPrefix;
    TurnLeaves(run, p, status);
    var k, q := Frontier(p.actions), p.ReplaceAction(OnTurn(p).WithStatus(status));
    FindActionAt(p.actions, k);
    FindActionAt(q.actions, k);
    if aid != OnTurn(p).actionId {
      Orchestration.SameFind(p.actions, k, OnTurn(p).WithStatus(status), aid);
    }
  }

  lemma TurnPays(run: RunId, s: Store, attempt: nat, correlation: Option<string>, o: Outcome, v: Visited, aid: string)
    requires run in s.plans && PlanKept(run, s.plans[run]) && HasTurn(s.plans[run]) && TurnTaken(run, s, attempt, correlation, o, v)
    requires attempt < ACTION_EXECUTION_ATTEMPTS
    ensures Pays(run, s, aid, Chance(s.plans[run], aid, Message(ActionRequested(run, OnTurn(s.plans[run]).actionId), attempt)), v.store, Out(run, v))
    ensures |Tokens(Out(run, v))| <= 1
  {
    hide PlanKept, AgentPlan.ReplaceAction, AgentPlan.NextPendingAction, SameActions, Chances, Tokens, ReplanSource, StillDue;
    var p, x, status := s.plans[run], OnTurn(s.plans[run]).actionId, Goes(attempt, o);
    var q := p.ReplaceAction(OnTurn(p).WithStatus(status));
    DueAfterTurn(run, p, status, aid);
    TurnIsFound(run, p);
    TokenChances(run, q, aid, v);
    if status == ActionStatus.Pending {
      SameFound(p, q, x);
      ChancesOfOne(q, aid, Message(ActionRequested(run, x), attempt + 1));
    } else if status == Stale {
      ChancesOfOne(q, aid, Moving(run, p, OnTurn(p), attempt, correlation, o)[0]);
    } else {
      ChancesOfOne(q, aid, Send(ActionRequested(run, x)));
    }
  }

  /** The chances and tokens of what a visit sends are those of its tokens. */
  lemma TokenChances(run: RunId, q: AgentPlan, aid: string, v: Visited)
    ensures Chances(q, aid, Out(run, v)) <= Chances(q, aid, Tokens(v.sent)) + (if v.next.Some? then ACTION_EXECUTION_ATTEMPTS else 0)
    ensures |Tokens(Out(run, v))| == |Tokens(v.sent)| + (if v.next.Some? then 1 else 0)
  {
    hide Chance, Chances, Tokens;
    OnlyTokensCount(q, aid, v.sent);
    if v.next.Some? {
      var one := [Send(ActionRequested(run, v.next.value.actionId))];
      ChancesAppend(q, aid, v.sent, one);
      RequestChance(run, q, aid, v.next.value.actionId);
      TokensAppend(v.sent, one);
      TokensOfOne(one[0]);
    } else {
      assert v.sent + [] == v.sent;
    }
  }

  lemma {:induction false} OnlyTokensCount(q: AgentPlan, aid: string, ms: seq<Message>)
    ensures Chances(q, aid, ms) == Chances(q, aid, Tokens(ms))
  {
    if ms != [] {
      var m := ms[|ms| - 1];
      OnlyTokensCount(q, aid, ms[..|ms| - 1]);
      if !m.body.Notice? {
        ChancesAppend(q, aid, Tokens(ms[..|ms| - 1]), [m]);
        ChancesOfOne(q, aid, m);
      } else {
        assert Tokens(ms) == Tokens(ms[..|ms| - 1]) + [] == Tokens(ms[..|ms| - 1]);
      }
    }
  }

  lemma LatePays(run: RunId, s: Store, x: string, attempt: nat, aid: string)
    requires run in s.plans && PlanKept(run, s.plans[run]) && IsLate(s.plans[run], x)
    ensures var v := ChooseNext(s, s.plans[run], []);
            && Pays(run, s, aid, Chance(s.plans[run], aid, Message(ActionRequested(run, x), attempt)), v.store, Out(run, v))
            && |Tokens(Out(run, v))| <= 1
  {
    hide Shaped, Keyed, RunOf, RunPrefix, ChooseNext, AgentPlan.NextPendingAction;
    ChoiceForm(run, s, s.plans[run], []);
    TokenChances(run, s.plans[run], aid, ChooseNext(s, s.plans[run], []));
  }

  lemma VisitPays(run: RunId, s: Store, sent: set<Message>, x: string, attempt: nat, correlation: Option<string>, o: Outcome, aid: string)
    requires Kept(run, s, sent) && Message(ActionRequested(run, x), attempt) in sent
    ensures var v := Visit(s, run, x, attempt, correlation, o);
            && Pays(run, s, aid, Chance(s.plans[run], aid, Message(ActionRequested(run, x), attempt)), v.store, Out(run, v))
            && |Tokens(Out(run, v))| <= 1 && (v.next.Some? ==> Tokens(v.sent) == [])
  {
    hide Visit, CommitsKept, TurnTaken, PlanKept, IsLate, GivesTurn, Pays;
    var p := s.plans[run];
    var v := Visit(s, run, x, attempt, correlation, o);
    assert MessageKept(run, p, Message(ActionRequested(run, x), attempt));
    VisitIs(run, s, x, attempt, correlation, o);
    if GivesTurn(s, p, x) {
      TurnGiven(s, p, x);
      TurnIsFor(s, p, x);
      TurnPays(run, s, attempt, correlation, o, v, aid);
      ChosenSendsNothing(run, s, attempt, correlation, o, v);
    } else if IsLate(p, x) {
      LatePays(run, s, x, attempt, aid);
      LateSendsNothing(run, s);
    } else {
      NothingPaid(run, s, aid, Chance(p, aid, Message(ActionRequested(run, x), attempt)), v);
    }
  }

  lemma TurnIsFor(s: Store, p: AgentPlan, x: string)
    requires GivesTurn(s, p, x)
    ensures HasTurn(p) && OnTurn(p).actionId == x
  {
  }

  lemma ChosenSendsNothing(run: RunId, s: Store, attempt: nat, correlation: Option<string>, o: Outcome, v: Visited)
    requires run in s.plans && HasTurn(s.plans[run]) && TurnTaken(run, s, attempt, correlation, o, v)
    ensures v.next.Some? ==> Tokens(v.sent) == []
  {
    hide Tokens, AgentPlan.ReplaceAction, AgentPlan.NextPendingAction;
  }

  lemma LateSendsNothing(run: RunId, s: Store)
    requires run in s.plans && PlanKept(run, s.plans[run])
    ensures Tokens(ChooseNext(s, s.plans[run], []).sent) == []
  {
    ChoiceForm(run, s, s.plans[run], []);
    hide ChooseNext;
  }

  lemma NothingPaid(run: RunId, s: Store, aid: string, price: nat, v: Visited)
    requires run in s.plans && v.store == s && v.sent == [] && v.next.None?
    ensures Pays(run, s, aid, price, v.store, Out(run, v)) && Tokens(Out(run, v)) == []
  {
    assert Out(run, v) == [];
  }

  /** Payments add up along an inline chain: what the next request may cost is what its choice was priced at. */
  lemma PaysOn(run: RunId, s: Store, aid: string, price: nat, mid: Store, v: Visited, t: Store, rest: seq<Message>)
    requires v.next.Some? && Tokens(v.sent) == [] && Pays(run, s, aid, price, mid, Out(run, v))
    requires Pays(run, mid, aid, Chance(mid.plans[run], aid, Send(ActionRequested(run, v.next.value.actionId))), t, rest)
    ensures Pays(run, s, aid, price, t, v.sent + rest)
  {
    hide StillDue, Chance, Chances, Tokens, Executed;
    var q, next := mid.plans[run], Send(ActionRequested(run, v.next.value.actionId));
    OnlyTokensCount(t.plans[run], aid, v.sent);
    ChancesAppend(t.plans[run], aid, v.sent, rest);
    ChancesOfOne(t.plans[run], aid, next);
    OnlyTokensCount(q, aid, v.sent);
    ChancesAppend(q, aid, v.sent, [next]);
    ChancesOfOne(q, aid, next);
  }

  lemma {:induction false} HandleActionPays(run: RunId, s: Store, sent: set<Message>, x: string, attempt: nat, correlation: Option<string>,
                                            oracle: nat -> Outcome, answers: nat, inlined: nat, aid: string)
    requires Kept(run, s, sent) && Trimmed(run.id) && Message(ActionRequested(run, x), attempt) in sent
    ensures var h := HandleAction(s, run, x, attempt, correlation, oracle, answers, inlined);
            && run in s.plans && |Tokens(h.sent)| <= 1
            && Pays(run, s, aid, Chance(s.plans[run], aid, Message(ActionRequested(run, x), attempt)), h.store, h.sent)
    decreases INLINE_ACTION_CHAIN_BUDGET - inlined
  {
    hide Visit, Kept, Pays, Chance, Tokens;
    KeptPlan(run, s, sent);
    var v, m := Visit(s, run, x, attempt, correlation, oracle(answers)), Message(ActionRequested(run, x), attempt);
    VisitKept(run, s, sent, x, attempt, correlation, oracle(answers));
    VisitPays(run, s, sent, x, attempt, correlation, oracle(answers), aid);
    if v.next.Some? {
      var next := v.next.value;
      if !next.requiresApproval && inlined < INLINE_ACTION_CHAIN_BUDGET {
        HandleActionPays(run, v.store, sent + Set(v.sent) + Asks(run, v.next), next.actionId, 0, correlation, oracle, answers + 1, inlined + 1, aid);
        var rest := HandleAction(v.store, run, next.actionId, 0, correlation, oracle, answers + 1, inlined + 1);
        PaysOn(run, s, aid, Chance(s.plans[run], aid, m), v.store, v, rest.store, rest.sent);
        TokensAppend(v.sent, rest.sent);
        assert [] + Tokens(rest.sent) == Tokens(rest.sent);
      }
    } else {
      assert v.sent + [] == v.sent;
    }
  }

  // ---------------------------------------------------------------------
  // Whole runs
  // ---------------------------------------------------------------------

  /** How many messages other than notices were copied. */
  function Redeliveries(cs: seq<Choice>): nat {
    if cs == [] then 0
    else Redeliveries(cs[..|cs| - 1]) + if cs[|cs| - 1].Redeliver? && !cs[|cs| - 1].message.body.Notice? then 1 else 0
  }

  /** With `copies` messages in the run beside notices: executions of `aid` done and possible. */
  ghost predicate Bounded(run: RunId, n: Net, copies: nat, aid: string) {
    && |Tokens(n.bag)| <= copies
    && Executed(run, n.store, aid) <= ACTION_EXECUTION_ATTEMPTS * copies
    && (run in n.store.plans && StillDue(n.store.plans[run], aid) ==>
          Executed(run, n.store, aid) + Chances(n.store.plans[run], aid, n.bag) <= ACTION_EXECUTION_ATTEMPTS * copies)
  }

  lemma TokensWithout(bag: seq<Message>, at: nat)
    requires at < |bag|
    ensures |Tokens(RemoveAt(bag, at))| == |Tokens(bag)| - (if bag[at].body.Notice? then 0 else 1)
  {
    hide Tokens;
    assert bag == bag[..at] + ([bag[at]] + bag[at + 1..]);
    TokensAppend(bag[..at], [bag[at]] + bag[at + 1..]);
    TokensAppend([bag[at]], bag[at + 1..]);
    TokensAppend(bag[..at], bag[at + 1..]);
    TokensOfOne(bag[at]);
  }

  /** A delivery that pays for what it does with the chances of the message delivered. */
  lemma PaidDelivery(run: RunId, n: Net, at: nat, t: Store, out: seq<Message>, copies: nat, aid: string)
    requires Bounded(run, n, copies, aid) && at < |n.bag| && run in n.store.plans && |Tokens(out)| <= (if n.bag[at].body.Notice? then 0 else 1)
    requires Pays(run, n.store, aid, Chance(n.store.plans[run], aid, n.bag[at]), t, out)
    ensures Bounded(run, Net(t, RemoveAt(n.bag, at) + out, n.sent + Set(out)), copies, aid)
  {
    hide StillDue, Chance, Chances, Tokens, Executed, SameActions;
    var rest, p, q := RemoveAt(n.bag, at), n.store.plans[run], t.plans[run];
    TokensWithout(n.bag, at);
    TokensAppend(rest, out);
    ChancesRemove(p, aid, n.bag, at);
    ChancesAppend(q, aid, rest, out);
    SameChances(p, q, aid, rest);
  }

  /** A delivery after which a new plan is there, whose actions were never executed. */
  lemma PlannedDelivery(run: RunId, n: Net, at: nat, t: Store, out: seq<Message>, copies: nat, aid: string)
    requires Bounded(run, n, copies, aid) && at < |n.bag| && run in t.plans && |Tokens(out)| <= (if n.bag[at].body.Notice? then 0 else 1)
    requires t.executions == n.store.executions && (StillDue(t.plans[run], aid) ==> Executed(run, t, aid) == 0)
    ensures Bounded(run, Net(t, RemoveAt(n.bag, at) + out, n.sent + Set(out)), copies, aid)
  {
    hide StillDue, Chance, Chances, Tokens;
    var rest := RemoveAt(n.bag, at);
    TokensWithout(n.bag, at);
    TokensAppend(rest, out);
    ChancesBound(t.plans[run], aid, rest + out);
  }

  lemma FreshIsUnexecuted(run: RunId, n: Net, p: AgentPlan, x: Source, drafts: seq<Draft>, aid: string)
    requires FreshIds(run, n, drafts) && JustPlanned(run, p, x, drafts) && p.GetAction(aid).Some?
    ensures Executed(run, n.store, aid) == 0
  {
    hide PlanKept, Key, RunPrefix;
    var i := FindActionIndex(p.actions, aid);
  }

  /** Delivering a trigger keeps the bound. */
  lemma TriggerBounded(run: RunId, e: Source, n: Net, at: nat, proposal: Proposal, copies: nat, aid: string)
    requires NetKept(run, e, n) && RunOf(e) == run && at < |n.bag| && n.bag[at].body.Trigger? && Bounded(run, n, copies, aid)
    requires UniqueDrafts(proposal.drafts) && FreshIds(run, n, proposal.drafts)
    ensures var r := HandleWhole(n.store, n.bag[at].body.source, proposal);
            Bounded(run, Net(r.0, RemoveAt(n.bag, at) + r.1, n.sent + Set(r.1)), copies, aid)
  {
    hide HandleWhole, RunOf, JustPlanned, FreshIds, UniqueDrafts, PlanKept, CommitsKept, Bounded, Chances, Tokens;
    var s, m := n.store, n.bag[at];
    var r := HandleWhole(s, m.body.source, proposal);
    BagIsSent(run, e, n, at);
    TriggerKept(run, e, n, m, proposal);
    if MakesPlan(run, s, m.body.source) {
      PlanForm(run, s, m.body.source, proposal);
      if StillDue(r.0.plans[run], aid) {
        FreshIsUnexecuted(run, n, r.0.plans[run], m.body.source, proposal.drafts, aid);
      }
      OneTokenAtMost(r.1);
      PlannedDelivery(run, n, at, r.0, r.1, copies, aid);
    } else {
      ResumeForm(run, s, m.body.source, proposal);
      OneTokenAtMost(r.1);
      if HasTurn(s.plans[run]) {
        RequestChance(run, s.plans[run], aid, OnTurn(s.plans[run]).actionId);
      } else {
        ChancesOfOne(s.plans[run], aid, m);
      }
      PaidDelivery(run, n, at, r.0, r.1, copies, aid);
    }
  }

  lemma OneTokenAtMost(ms: seq<Message>)
    requires |ms| <= 1
    ensures |Tokens(ms)| <= 1
  {
    if |ms| == 1 {
      assert ms == [ms[0]];
      TokensOfOne(ms[0]);
    }
  }

  lemma DeliveryBounded(run: RunId, e: Source, n: Net, c: Choice, copies: nat, aid: string)
    requires NetKept(run, e, n) && RunOf(e) == run && Trimmed(run.id) && Proper(run, n, c) && Bounded(run, n, copies, aid)
    requires c.Deliver? && c.at < |n.bag|
    ensures Bounded(run, Next(n, c), copies, aid)
  {
    hide HandleAction, HandleWhole, Kept, FreshIds, UniqueDrafts, RunOf, Trimmed, Pays, Bounded, Chance, Tokens;
    var m := n.bag[c.at];
    BagIsSent(run, e, n, c.at);
    KindKept(run, e, n, m);
    if m.body.ActionRequested? {
      var h := HandleAction(n.store, run, m.body.actionId, m.attempt, c.world.correlation, c.world.oracle, 0, c.inlined);
      HandleActionPays(run, n.store, n.sent, m.body.actionId, m.attempt, c.world.correlation, c.world.oracle, 0, c.inlined, aid);
      PaidDelivery(run, n, c.at, h.store, h.sent, copies, aid);
    } else if m.body.Trigger? {
      TriggerBounded(run, e, n, c.at, c.world.proposal, copies, aid);
    } else {
      NoticeBounded(run, n, c.at, copies, aid);
    }
  }

  lemma NoticeBounded(run: RunId, n: Net, at: nat, copies: nat, aid: string)
    requires at < |n.bag| && n.bag[at].body.Notice? && Bounded(run, n, copies, aid)
    ensures Bounded(run, Net(n.store, RemoveAt(n.bag, at) + [], n.sent + Set([])), copies, aid)
  {
    hide Chances, Tokens, StillDue, Executed;
    assert RemoveAt(n.bag, at) + [] == RemoveAt(n.bag, at);
    TokensWithout(n.bag, at);
    if run in n.store.plans {
      ChancesRemove(n.store.plans[run], aid, n.bag, at);
    }
  }

  lemma RedeliveryBounded(run: RunId, n: Net, m: Message, copies: nat, aid: string)
    requires Bounded(run, n, copies, aid)
    ensures Bounded(run, n.(bag := n.bag + [m]), copies + (if m.body.Notice? then 0 else 1), aid)
  {
    hide Chances, Tokens, StillDue, Executed;
    TokensAppend(n.bag, [m]);
    TokensOfOne(m);
    if run in n.store.plans {
      ChancesAppend(n.store.plans[run], aid, n.bag, [m]);
      ChancesOfOne(n.store.plans[run], aid, m);
    }
  }

  lemma MoreCopies(run: RunId, n: Net, copies: nat, more: nat, aid: string)
    requires Bounded(run, n, copies, aid) && copies <= more
    ensures Bounded(run, n, more, aid)
  {
    hide Chances, Tokens, StillDue, Executed;
  }

  lemma {:induction false} RunBounded(e: Source, cs: seq<Choice>, aid: string)
    requires Trimmed(ResolveRunId(e)) && ProperRun(e, cs)
    ensures Bounded(RunOf(e), Run(e, cs), 1 + Redeliveries(cs), aid)
  {
    hide Handle, ResolveRunId, NetKept, UniqueDrafts, FreshIds, ProperRun, Bounded;
    if cs == [] {
      StartBounded(e, aid);
    } else {
      var before, n, c := cs[..|cs| - 1], Run(e, cs[..|cs| - 1]), cs[|cs| - 1];
      ProperBefore(e, cs);
      RunKept(e, before);
      RunBounded(e, before, aid);
      var copies := 1 + Redeliveries(before);
      if c.Redeliver? && c.message in n.sent {
        RedeliveryBounded(RunOf(e), n, c.message, copies, aid);
      } else if c.Deliver? && c.at < |n.bag| {
        DeliveryBounded(RunOf(e), e, n, c, copies, aid);
      } else {
        MoreCopies(RunOf(e), n, copies, 1 + Redeliveries(cs), aid);
      }
    }
  }

  lemma StartBounded(e: Source, aid: string)
    ensures Bounded(RunOf(e), Start(e), 1, aid)
  {
    TokensOfOne(Send(Trigger(e)));
  }

  /**
    No action is executed more than three times for every message there is of the run beside notices:
    the one that starts it, and one for every redelivery.
   */
  lemma ExecutionsAreBounded(e: Source, cs: seq<Choice>, aid: string)
    requires Trimmed(ResolveRunId(e)) && ProperRun(e, cs)
    ensures Run(e, cs).store.executions[(RunOf(e), aid)] <= ACTION_EXECUTION_ATTEMPTS * (1 + Redeliveries(cs))
  {
    hide ProperRun, ResolveRunId, Run;
    RunBounded(e, cs, aid);
  }
}
