/**
  Theorems about whole orchestrated runs, under any order of delivery, any redelivery and any
  answers from outside: what is never violated, and that delivery comes to an end with the run decided.
 */
module Quiescence {
  import opened Common
  import opened Events
  import opened Subtasks
  import opened JoinProtocol
  import opened Confluence
  import opened Plans
  import opened Planner
  import opened Runtime
  import opened Orchestration

  /** The run that a trigger starts: its id and its task graph. */
  datatype Setup = Setup(source: Source, nodes: seq<SubTask>, synthesizer: Option<SubTask>) {
    function Run(): RunId {
      RunOf(source)
    }

    function Graph(): TaskGraph {
      TaskGraph(Run(), 0, nodes, synthesizer)
    }

    /** Node ids are unique and not "root"; nothing has started. */
    ghost predicate Valid() {
      Fresh(Graph()) && Graph().GetNode(ROOT_NODE_ID).None?
    }
  }

  /** The state after the trigger was first handled. */
  function Begin(x: Setup): Net {
    var r := HandleOrchestrated(EMPTY_STORE, x.Run(), x.nodes, x.synthesizer);
    Net(r.0, r.1, Set(r.1) + {Send(Trigger(x.source))})
  }

  /** The world of one delivery; a repeated trigger is routed as the first one was. */
  function Around(x: Setup, w: World): World {
    w.(route := Orchestrated(x.nodes, x.synthesizer))
  }

  function Next(x: Setup, n: Net, c: Choice): Net {
    match c
    case Redeliver(m) => if m in n.sent then n.(bag := n.bag + [m]) else n
    case Deliver(at, world, inlined) =>
      if at >= |n.bag| then n
      else
        var h := Handle(n.store, n.bag[at], Around(x, world), 0, inlined);
        Net(h.store, RemoveAt(n.bag, at) + h.sent, n.sent + Set(h.sent))
  }

  /** Action ids are unique within a plan, and no tool name holds a colon. */
  ghost predicate Proper(c: Choice) {
    c.Deliver? ==> UniqueDrafts(c.world.proposal.drafts)
  }

  function Run(x: Setup, cs: seq<Choice>): Net {
    if cs == [] then Begin(x) else Next(x, Run(x, cs[..|cs| - 1]), cs[|cs| - 1])
  }

  ghost predicate NetOk(x: Setup, n: Net) {
    Inv(x.Run(), n.store, Set(n.bag), n.sent) && SameShape(x.Graph(), n.store.graphs[x.Run()])
  }

  // ---------------------------------------------------------------------
  // Every reachable state is in order
  // ---------------------------------------------------------------------

  lemma BeginStore(x: Setup)
    requires x.Valid()
    ensures StoreOk(x.Run(), Begin(x).store)
    ensures Begin(x).store.graphs == map[x.Run() := x.Graph().Claimed().graph] && Begin(x).store.plans == map[]
  {
    var run, g := x.Run(), x.Graph();
    var a, t := g.Claimed(), Begin(x).store;
    ClaimedStart(g);
    NodeAfterMark(g, Ids(g.ReadyNodes()), SubTaskStatus.Running, ROOT_NODE_ID);
    ClaimReports(x);
    assert a.graph.CompletedNodeIds() == {} by { ClaimEffect(g); }
    assert t.graphs == map[run := a.graph];
    forall u ensures !HasStatus(a.graph, u, SubTaskStatus.Completed) && !HasStatus(a.graph, u, SubTaskStatus.Failed) {
      ClaimedUnit(g, u);
    }
    hide TaskGraph.Claimed, Fresh, Safe, Finished, Stuck, HasFailure, Dispatched, HasStatus, SubPlanId, TaskGraph.CompletedNodeIds;
    assert GraphOk(run, t) && PlansOk(run, t) && KeysOk(t.plans, t.keys) && CommitsOk(t.plans, t.commits);
    assert NodesAgree(run, t) && ResultsStored(run, t);
    assert ReportsAgree(run, t);
  }

  /** A task waiting at the start: that of a RUNNING unit. */
  ghost predicate StartTask(x: Setup, m: Message) {
    && m.attempt == 0 && m.body.TaskRequested? && m.body.run == x.Run()
    && HasStatus(x.Graph().Claimed().graph, m.body.nodeId, SubTaskStatus.Running)
  }

  lemma BeginBag(x: Setup, m: Message)
    requires x.Valid()
    ensures m in Begin(x).bag <==> StartTask(x, m)
  {
    var run, a := x.Run(), x.Graph().Claimed();
    DispatchSends(run, a);
    assert Begin(x).bag == Tasks(run, a.newlyReady) == Dispatch(run, a);
    assert Dispatched(a) == Names(a.newlyReady);
    if m.body.TaskRequested? {
      ClaimedUnit(x.Graph(), m.body.nodeId);
    }
  }

  lemma BeginIsOk(x: Setup)
    requires x.Valid()
    ensures NetOk(x, Begin(x))
  {
    var run, n := x.Run(), Begin(x);
    BeginStore(x);
    forall m ensures m in n.bag <==> StartTask(x, m) {
      BeginBag(x, m);
    }
    ClaimIsSafe(x.Graph());
    assert n.sent == Set(n.bag) + {Send(Trigger(x.source))};
    hide TaskGraph.Claimed, StoreOk, RunOf, Begin, SameShape;
    forall u | HasStatus(n.store.graphs[run], u, SubTaskStatus.Running) ensures HasBody(Set(n.bag), TaskRequested(run, u)) {
      assert Send(TaskRequested(run, u)) in n.bag;
    }
    assert forall m :: m in n.sent ==> MessageOk(run, n.store, m);
  }

  lemma ClaimedUnit(g: TaskGraph, u: string)
    requires Fresh(g)
    ensures var a := g.Claimed();
            && (HasStatus(a.graph, u, SubTaskStatus.Running) <==> u in Names(a.newlyReady))
            && !HasStatus(a.graph, u, SubTaskStatus.Completed) && !HasStatus(a.graph, u, SubTaskStatus.Failed)
  {
    var a := g.Claimed();
    ReadyIsPending(g);
    NodeAfterMark(g, Ids(g.ReadyNodes()), SubTaskStatus.Running, u);
    assert Names(a.newlyReady) == Names(g.ReadyNodes());
    if g.GetNode(u).Some? {
      assert g.GetNode(u).value.status == SubTaskStatus.Pending by {
        NodeIsUnit(g);
        assert u in Units(g);
      }
    }
  }

  lemma ClaimReports(x: Setup)
    requires x.Valid()
    ensures var g := x.Graph();
            var h := g.Claimed().graph;
            && !Finished(h) && !HasFailure(h)
            && (Stuck(h) <==> g.Claimed().newlyReady == [])
  {
    var g := x.Graph();
    ClaimedStart(g);
    ClaimEffect(g);
    ReadyIsPending(g);
    RunnableIds(g.nodes, g.CompletedNodeIds());
    var h := g.Claimed().graph;
    if g.ReadyNodes() != [] {
      var r := g.ReadyNodes()[0];
      assert r in g.ReadyNodes() && r in g.nodes;
      var j :| 0 <= j < |g.nodes| && g.nodes[j] == r;
      assert h.nodes[j].status == SubTaskStatus.Running;
    }
  }

  /** Where the graph changes at all: a settlement accepted for a RUNNING unit. */
  ghost predicate GraphStep(run: RunId, s: Store, t: Store)
    requires run in s.graphs && run in t.graphs
  {
    || t.graphs == s.graphs
    || exists u, status :: Accepts(s.graphs[run], u) && Terminal(status) && t.graphs[run] == s.graphs[run].Advanced(u, status).graph
  }

  lemma HandleActionStep(run: RunId, s: Store, bag: set<Message>, sent: set<Message>, m: Message, w: World, inlined: nat)
    requires InHand(run, s, bag, sent, m) && m.body.ActionRequested?
    ensures var h := Handle(s, m, w, 0, inlined);
            Inv(run, h.store, bag + Set(h.sent), sent + Set(h.sent)) && !h.raised && h.store.graphs == s.graphs
  {
    hide Inv, Visit;
    var h := HandleActionKeeps(run, s, bag, sent, m, w.correlation, w.oracle, 0, inlined);
  }

  lemma HandleSettledStep(run: RunId, s: Store, bag: set<Message>, sent: set<Message>, m: Message)
    requires InHand(run, s, bag, sent, m) && m.body.NodeSettled?
    ensures var r := HandleSettled(s, run, m.body.nodeId, m.body.outcome);
            m.body.run == run && run in r.0.graphs && GraphStep(run, s, r.0)
  {
    var u, o := m.body.nodeId, m.body.outcome;
    assert m in sent + {m} && MessageOk(run, s, m);
    assert PlanOk(run, s.graphs[run], SubPlanId(run, u), s.plans[SubPlanId(run, u)]);
    SubPlanIdIsInjective(run, u, s.plans[SubPlanId(run, u)].nodeId.value);
    if !o.NodeWaiting? && Accepts(s.graphs[run], u) {
      HandleSettledForm(run, s, u, o);
    } else {
      RepeatedSettlement(run, s, u, o);
    }
  }

  lemma TaskKeepsGraphs(run: RunId, s: Store, u: string, w: Proposal)
    ensures HandleTask(s, run, u, w).0.graphs == s.graphs
  {
    hide PlanForNode, Resume, AgentPlan.NextPendingAction;
  }

  /** Delivering any message of the run keeps the invariant, and raises nothing. */
  lemma HandleKeeps(x: Setup, s: Store, bag: set<Message>, sent: set<Message>, m: Message, w: World, inlined: nat)
    requires InHand(x.Run(), s, bag, sent, m) && UniqueDrafts(w.proposal.drafts)
    ensures var h := Handle(s, m, Around(x, w), 0, inlined);
            && Inv(x.Run(), h.store, bag + Set(h.sent), sent + Set(h.sent)) && !h.raised
            && GraphStep(x.Run(), s, h.store)
  {
    hide HandleTask, HandleSettled, HandleAction, Live, KeysOk, CommitsOk, NodesAgree, ResultsStored, ReportsAgree, PlansOk, Safe;
    var run := x.Run();
    assert m in sent + {m} && MessageOk(run, s, m);
    assert bag + Set([]) == bag && sent + Set([]) == sent;
    match m.body
    case Notice(_) => DropKeeps(run, s, bag, sent, m);
    case Trigger(e) => DropKeeps(run, s, bag, sent, m);
    case ActionRequested(pid, aid) => HandleActionStep(run, s, bag, sent, m, Around(x, w), inlined);
    case TaskRequested(r, u) =>
      HandleTaskKeeps(run, s, bag, sent, m, u, w.proposal);
      TaskKeepsGraphs(run, s, u, w.proposal);
    case NodeSettled(r, u, o) =>
      HandleSettledKeeps(run, s, bag, sent, m, u, o);
      HandleSettledStep(run, s, bag, sent, m);
  }

  lemma RemovedIsSplit(bag: seq<Message>, at: nat)
    requires at < |bag|
    ensures Set(bag) == Set(RemoveAt(bag, at)) + {bag[at]}
    ensures Set(RemoveAt(bag, at)) <= Set(bag)
  {
    assert bag == bag[..at] + [bag[at]] + bag[at + 1..];
  }

  /** Every step keeps every reachable state in order. */
  lemma NextKeeps(x: Setup, n: Net, c: Choice)
    requires NetOk(x, n) && Proper(c)
    ensures NetOk(x, Next(x, n, c)) && GraphStep(x.Run(), n.store, Next(x, n, c).store)
    ensures n.sent <= Next(x, n, c).sent
  {
    var run := x.Run();
    match c
    case Redeliver(m) =>
      if m in n.sent {
        assert Set(n.bag + [m]) == Set(n.bag) + {m};
        MoreWaitingKeeps(run, n.store, Set(n.bag), n.sent, m);
      }
    case Deliver(at, w, inlined) =>
      if at < |n.bag| {
        var rest := RemoveAt(n.bag, at);
        RemovedIsSplit(n.bag, at);
        assert n.sent == n.sent + {n.bag[at]};
        var h := Handle(n.store, n.bag[at], Around(x, w), 0, inlined);
        hide Handle, Inv;
        assert InHand(run, n.store, Set(rest), n.sent, n.bag[at]);
        HandleKeeps(x, n.store, Set(rest), n.sent, n.bag[at], w, inlined);
        SetAppend(rest, h.sent);
        ShapeStep(x, n.store, h.store);
      }
  }

  lemma MoreWaitingKeeps(run: RunId, s: Store, bag: set<Message>, sent: set<Message>, m: Message)
    requires Inv(run, s, bag, sent) && m in sent
    ensures Inv(run, s, bag + {m}, sent)
  {
    forall u | HasStatus(s.graphs[run], u, SubTaskStatus.Running)
      ensures HasBody(bag + {m}, TaskRequested(run, u)) || (SubPlanId(run, u) in s.plans && PlanLive(run, s.plans[SubPlanId(run, u)], bag + {m}, u))
    {
      MoreIsStillWaiting(bag, m);
    }
  }

  lemma MoreIsStillWaiting(bag: set<Message>, m: Message)
    ensures forall body :: HasBody(bag, body) ==> HasBody(bag + {m}, body)
    ensures forall pid :: HasAction(bag, pid) ==> HasAction(bag + {m}, pid)
  {
    forall body | HasBody(bag, body) ensures HasBody(bag + {m}, body) {
      var y :| y in bag && y.body == body;
      assert y in bag + {m};
    }
    forall pid | HasAction(bag, pid) ensures HasAction(bag + {m}, pid) {
      var y :| y in bag && y.body.ActionRequested? && y.body.plan == pid;
      assert y in bag + {m};
    }
  }

  lemma ShapeStep(x: Setup, s: Store, t: Store)
    requires GraphOk(x.Run(), s) && x.Run() in t.graphs && GraphStep(x.Run(), s, t) && SameShape(x.Graph(), s.graphs[x.Run()])
    ensures SameShape(x.Graph(), t.graphs[x.Run()])
  {
    var run := x.Run();
    if t.graphs != s.graphs {
      var u, status :| Accepts(s.graphs[run], u) && Terminal(status) && t.graphs[run] == s.graphs[run].Advanced(u, status).graph;
      SettleIsSafe(s.graphs[run], u, status);
    }
  }

  /** Every reachable state is in order. */
  lemma {:induction false} RunIsOk(x: Setup, cs: seq<Choice>)
    requires x.Valid() && forall c :: c in cs ==> Proper(c)
    ensures NetOk(x, Run(x, cs))
  {
    if cs == [] {
      BeginIsOk(x);
    } else {
      RunIsOk(x, cs[..|cs| - 1]);
      assert cs[|cs| - 1] in cs;
      NextKeeps(x, Run(x, cs[..|cs| - 1]), cs[|cs| - 1]);
    }
  }

  // ---------------------------------------------------------------------
  // Safety over whole runs
  // ---------------------------------------------------------------------

  /** All terminal settlements ever sent for one unit carry the same outcome. */
  lemma SettleAgreement(x: Setup, cs: seq<Choice>, u: string, o1: NodeOutcome, o2: NodeOutcome)
    requires x.Valid() && forall c :: c in cs ==> Proper(c)
    requires HasBody(Run(x, cs).sent, NodeSettled(x.Run(), u, o1)) && HasBody(Run(x, cs).sent, NodeSettled(x.Run(), u, o2))
    requires !o1.NodeWaiting? && !o2.NodeWaiting?
    ensures o1 == o2
  {
    RunIsOk(x, cs);
    var n := Run(x, cs);
    var m1 :| m1 in n.sent && m1.body == NodeSettled(x.Run(), u, o1);
    var m2 :| m2 in n.sent && m2.body == NodeSettled(x.Run(), u, o2);
    assert MessageOk(x.Run(), n.store, m1) && MessageOk(x.Run(), n.store, m2);
    var pid := SubPlanId(x.Run(), u);
    assert PlanOk(x.Run(), n.store.graphs[x.Run()], pid, n.store.plans[pid]);
    EndedOneWay(n.store.plans[pid]);
  }

  /** A unit that is terminal after some prefix of a run keeps its status to the end. */
  lemma {:induction false} StatusIsFinal(x: Setup, cs: seq<Choice>, i: nat, u: string, status: SubTaskStatus)
    requires x.Valid() && (forall c :: c in cs ==> Proper(c)) && i <= |cs| && Terminal(status)
    requires x.Run() in Run(x, cs[..i]).store.graphs && HasStatus(Run(x, cs[..i]).store.graphs[x.Run()], u, status)
    ensures x.Run() in Run(x, cs).store.graphs && HasStatus(Run(x, cs).store.graphs[x.Run()], u, status)
  {
    if i == |cs| {
      assert cs[..i] == cs;
    } else {
      var before := cs[..|cs| - 1];
      assert before[..i] == cs[..i];
      assert forall c :: c in before ==> c in cs;
      StatusIsFinal(x, before, i, u, status);
      RunIsOk(x, before);
      assert cs[|cs| - 1] in cs;
      NextKeeps(x, Run(x, before), cs[|cs| - 1]);
      var s, t := Run(x, before).store, Run(x, cs).store;
      if t.graphs != s.graphs {
        var v, st :| Accepts(s.graphs[x.Run()], v) && Terminal(st)
          && t.graphs[x.Run()] == s.graphs[x.Run()].Advanced(v, st).graph;
        UnitsAfter(s.graphs[x.Run()], v, st);
        SettleUnit(s.graphs[x.Run()], v, st, u);
      }
    }
  }

  /** No unit is ever seen COMPLETED at one moment and FAILED at another. */
  lemma NeverFlips(x: Setup, cs: seq<Choice>, i: nat, u: string)
    requires x.Valid() && (forall c :: c in cs ==> Proper(c)) && i <= |cs|
    requires x.Run() in Run(x, cs[..i]).store.graphs && x.Run() in Run(x, cs).store.graphs
    requires HasStatus(Run(x, cs[..i]).store.graphs[x.Run()], u, SubTaskStatus.Completed)
    ensures !HasStatus(Run(x, cs).store.graphs[x.Run()], u, SubTaskStatus.Failed)
  {
    StatusIsFinal(x, cs, i, u, SubTaskStatus.Completed);
  }

  /** No action's result is accepted more than once, and once exactly if the action is COMPLETED. */
  lemma CommitsAtMostOnce(x: Setup, cs: seq<Choice>, pid: RunId, aid: string)
    requires x.Valid() && forall c :: c in cs ==> Proper(c)
    ensures var s := Run(x, cs).store;
            s.commits[(pid, aid)] <= 1 && (s.commits[(pid, aid)] == 1 <==> IsCommitted(s.plans, pid, aid))
  {
    RunIsOk(x, cs);
  }

  /** At every moment, an action's key is recorded exactly if the action is COMPLETED or REQUIRES_APPROVAL. */
  lemma KeysAreExact(x: Setup, cs: seq<Choice>, pid: RunId, i: nat)
    requires x.Valid() && forall c :: c in cs ==> Proper(c)
    requires pid in Run(x, cs).store.plans && i < |Run(x, cs).store.plans[pid].actions|
    ensures var s := Run(x, cs).store;
            s.plans[pid].actions[i].idempotencyKey in s.keys <==> Consumed(s.plans[pid].actions[i].status)
  {
    RunIsOk(x, cs);
    KeyRecordedExactly(x.Run(), Run(x, cs).store, pid, i);
  }

  /** The run is reported completed at most once, and never both completed and failed. */
  lemma ReportsAreConsistent(x: Setup, cs: seq<Choice>)
    requires x.Valid() && forall c :: c in cs ==> Proper(c)
    ensures var reports := multiset(Run(x, cs).store.reports);
            reports[RunCompleted(x.Run())] <= 1 && (reports[RunCompleted(x.Run())] == 0 || reports[RunFailed(x.Run())] == 0)
  {
    RunIsOk(x, cs);
    var s := Run(x, cs).store;
    if Finished(s.graphs[x.Run()]) {
      FinishedIsAllSettled(s.graphs[x.Run()]);
    }
    assert RunFailed(x.Run()) in s.reports <==> multiset(s.reports)[RunFailed(x.Run())] > 0;
  }

  /**
    The join: when the synthesizer has started, every node is COMPLETED and the result stored for it holds
    the outputs of its sub-plan, which is COMPLETED; no unit has started before all it depends on was COMPLETED.
   */
  lemma JoinIsSound(x: Setup, cs: seq<Choice>)
    requires x.Valid() && forall c :: c in cs ==> Proper(c)
    ensures var s := Run(x, cs).store;
            && x.Run() in s.graphs && Safe(s.graphs[x.Run()])
            && (s.graphs[x.Run()].synthesizer.Some? && s.graphs[x.Run()].synthesizer.value.status != SubTaskStatus.Pending ==>
                  forall i :: 0 <= i < |x.nodes| ==> HasResult(s, x.Run(), x.nodes[i].nodeId))
  {
    hide SubPlanId, BuildResult, Ended, Shaped, Keyed;
    RunIsOk(x, cs);
    var s, run := Run(x, cs).store, x.Run();
    var g := s.graphs[run];
    if g.synthesizer.Some? && g.synthesizer.value.status != SubTaskStatus.Pending {
      forall i | 0 <= i < |x.nodes| ensures HasResult(s, run, x.nodes[i].nodeId) {
        assert g.nodes[i].nodeId == x.Graph().nodes[i].nodeId;
        assert g.nodes[i].nodeId in g.CompletedNodeIds();
        CompletedHasPlan(run, s, g.nodes[i].nodeId);
      }
    }
  }

  /** The stored result of the unit is built from its COMPLETED sub-plan. */
  ghost predicate HasResult(s: Store, run: RunId, u: string) {
    && SubPlanId(run, u) in s.plans && Ended(s.plans[SubPlanId(run, u)], NodeCompleted)
    && run in s.subResults && u in s.subResults[run] && s.subResults[run][u] == BuildResult(s, run, u)
  }

  // ---------------------------------------------------------------------
  // When nothing is waiting, the run is decided
  // ---------------------------------------------------------------------

  /** A unit is RUNNING and its sub-plan waits for approval. */
  ghost predicate AwaitsApproval(run: RunId, s: Store)
    requires run in s.graphs
  {
    exists u :: HasStatus(s.graphs[run], u, SubTaskStatus.Running) && SubPlanId(run, u) in s.plans
      && s.plans[SubPlanId(run, u)].status == WaitingForApproval
  }

  /** Completed and reported so; or failed, or unable to go on, and reported so; or waiting for approval. */
  ghost predicate Decided(run: RunId, s: Store)
    requires run in s.graphs
  {
    || (Finished(s.graphs[run]) && RunCompleted(run) in s.reports)
    || ((HasFailure(s.graphs[run]) || Stuck(s.graphs[run])) && RunFailed(run) in s.reports)
    || AwaitsApproval(run, s)
  }

  /** A RUNNING unit for which nothing is waiting has a sub-plan that waits for approval. */
  lemma RunningWaits(run: RunId, s: Store, u: string)
    requires run in s.graphs && Live(run, s, {}) && HasStatus(s.graphs[run], u, SubTaskStatus.Running)
    ensures AwaitsApproval(run, s)
  {
    hide SubPlanId, Ended;
    assert PlanLive(run, s.plans[SubPlanId(run, u)], {}, u);
  }

  /** A graph in which nothing runs, failed or is stuck is finished. */
  lemma RestingIsFinished(g: TaskGraph)
    requires Safe(g) && !HasFailure(g) && !Stuck(g) && forall u :: !HasStatus(g, u, SubTaskStatus.Running)
    ensures Finished(g)
  {
    NodeIsUnit(g);
    forall i | 0 <= i < |g.nodes| ensures g.nodes[i].status != SubTaskStatus.Running {
      assert !HasStatus(g, g.nodes[i].nodeId, SubTaskStatus.Running);
    }
    assert g.AllNodesCompleted();
    if g.synthesizer.Some? {
      assert !HasStatus(g, g.synthesizer.value.nodeId, SubTaskStatus.Running);
      assert g.GetNode(g.synthesizer.value.nodeId).value.status != SubTaskStatus.Failed;
    }
  }

  lemma NothingWaiting(run: RunId, s: Store, sent: set<Message>)
    requires Inv(run, s, {}, sent)
    ensures Decided(run, s)
  {
    hide Live, KeysOk, CommitsOk, NodesAgree, ResultsStored, PlansOk, MessageOk, Safe, HasFailure, Stuck, Finished, AwaitsApproval, HasStatus;
    var g := s.graphs[run];
    if u: string :| HasStatus(g, u, SubTaskStatus.Running) {
      RunningWaits(run, s, u);
    } else if !HasFailure(g) && !Stuck(g) {
      RestingIsFinished(g);
      assert multiset(s.reports)[RunCompleted(run)] == 1;
    }
  }

  /** In an acyclic graph whose dependencies exist, only a failure or a wait for approval stops a run short of its end. */
  lemma AcyclicIsNotStuck(g: TaskGraph)
    requires Safe(g) && Acyclic(g.nodes) && g.nodes != [] && Stuck(g)
    ensures HasFailure(g)
  {
    if !HasFailure(g) {
      NodeIsUnit(g);
      forall i | 0 <= i < |g.nodes| ensures g.nodes[i].status == SubTaskStatus.Completed || g.nodes[i].status == SubTaskStatus.Pending {
        assert g.GetNode(g.nodes[i].nodeId).value.status != SubTaskStatus.Failed;
      }
      CompletedIsClosed(g);
      var rank :| Ranked(g.nodes, rank);
      hide Safe, Ranked, HasFailure, TaskGraph.GetNode, Units, Acyclic, TaskGraph.CompletedNodeIds;
      var low := LowestRank(g.nodes, rank);
      forall i | 0 <= i < |g.nodes| ensures g.nodes[i].status == SubTaskStatus.Completed {
        RankedReachesAll(g.nodes, rank, g.CompletedNodeIds(), low, i);
        CompletedById(g, i);
      }
    }
  }

  /** When nodes are COMPLETED or PENDING only, the completed ones are closed under "all my dependencies are COMPLETED". */
  lemma CompletedIsClosed(g: TaskGraph)
    requires Safe(g) && forall i :: 0 <= i < |g.nodes| ==> g.nodes[i].status == SubTaskStatus.Completed || g.nodes[i].status == SubTaskStatus.Pending
    ensures Closed(g.nodes, g.CompletedNodeIds())
  {
  }

  lemma CompletedById(g: TaskGraph, i: nat)
    requires g.WellFormed() && i < |g.nodes| && g.nodes[i].nodeId in g.CompletedNodeIds()
    ensures g.nodes[i].status == SubTaskStatus.Completed
  {
    var j :| 0 <= j < |g.nodes| && g.nodes[j].status == SubTaskStatus.Completed && g.nodes[j].nodeId == g.nodes[i].nodeId;
    assert i == j;
  }

  /**
    Quiescence. Whenever no message is waiting, the run is decided; over an acyclic graph whose
    dependencies exist it is finished and reported completed, or a unit has FAILED and the run is
    reported failed, or a sub-plan waits for approval.
   */
  lemma QuiescentIsDecided(x: Setup, cs: seq<Choice>)
    requires x.Valid() && forall c :: c in cs ==> Proper(c)
    requires Run(x, cs).bag == []
    ensures var s, run := Run(x, cs).store, x.Run();
            && run in s.graphs && Decided(run, s)
            && (Acyclic(x.nodes) && x.nodes != [] ==>
                 || (Finished(s.graphs[run]) && RunCompleted(run) in s.reports)
                 || (HasFailure(s.graphs[run]) && RunFailed(run) in s.reports)
                 || AwaitsApproval(run, s))
  {
    RunIsOk(x, cs);
    DecidedWhenEmpty(x, Run(x, cs));
  }

  lemma DecidedWhenEmpty(x: Setup, n: Net)
    requires NetOk(x, n) && n.bag == []
    ensures var s, run := n.store, x.Run();
            && run in s.graphs && Decided(run, s)
            && (Acyclic(x.nodes) && x.nodes != [] ==>
                 || (Finished(s.graphs[run]) && RunCompleted(run) in s.reports)
                 || (HasFailure(s.graphs[run]) && RunFailed(run) in s.reports)
                 || AwaitsApproval(run, s))
  {
    var g := n.store.graphs[x.Run()];
    assert Set(n.bag) == {};
    NothingWaiting(x.Run(), n.store, n.sent);
    if Acyclic(x.nodes) && x.nodes != [] && Stuck(g) {
      SameShapeAcyclic(x.Graph(), g);
      AcyclicIsNotStuck(g);
    }
  }

  lemma SameShapeAcyclic(g: TaskGraph, h: TaskGraph)
    requires SameShape(g, h) && Acyclic(g.nodes)
    ensures Acyclic(h.nodes)
  {
    SameIds(g, h);
    var rank :| Ranked(g.nodes, rank);
    forall i, d | 0 <= i < |h.nodes| && d in h.nodes[i].dependsOn
      ensures d in Ids(h.nodes) && rank[d] < rank[h.nodes[i].nodeId] {
      assert d in g.nodes[i].dependsOn && h.nodes[i].nodeId == g.nodes[i].nodeId;
    }
    assert Ranked(h.nodes, rank);
  }
}
