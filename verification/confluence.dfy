/**
  Where runs of the task graph end. The COMPLETED nodes of a failure-free run that has nothing in
  flight any more are the least fixed point of "all my dependencies are COMPLETED"; hence every
  order of completions ends in the same graph, `blocked` is reported exactly if that fixed point
  misses a node, and completion exactly at the last settlement.
 */
module Confluence {
  import opened Common
  import opened Subtasks
  import opened JoinProtocol

  /** Every node whose dependencies lie in `s` lies in `s`. */
  ghost predicate Closed(nodes: seq<SubTask>, s: set<string>) {
    forall i :: 0 <= i < |nodes| && nodes[i].IsUnblocked(s) ==> nodes[i].nodeId in s
  }

  /** `s` is the least set of node ids that holds exactly the nodes whose dependencies it holds. */
  ghost predicate IsLeastFixedPoint(nodes: seq<SubTask>, s: set<string>) {
    && s <= Ids(nodes)
    && (forall i :: 0 <= i < |nodes| ==> (nodes[i].nodeId in s <==> nodes[i].IsUnblocked(s)))
    && (forall t :: Closed(nodes, t) ==> s <= t)
  }

  lemma LeastFixedPointIsUnique(nodes: seq<SubTask>, s: set<string>, t: set<string>)
    requires IsLeastFixedPoint(nodes, s) && IsLeastFixedPoint(nodes, t)
    ensures s == t
  {
    assert Closed(nodes, s) && Closed(nodes, t);
  }

  /** A ranking of the nodes in which every dependency exists and ranks lower: the graph is acyclic. */
  ghost predicate Ranked(nodes: seq<SubTask>, rank: map<string, int>) {
    && Ids(nodes) <= rank.Keys
    && (forall i, d :: 0 <= i < |nodes| && d in nodes[i].dependsOn ==>
                         d in Ids(nodes) && rank[d] < rank[nodes[i].nodeId])
  }

  ghost predicate Acyclic(nodes: seq<SubTask>) {
    exists rank :: Ranked(nodes, rank)
  }

  // ---------------------------------------------------------------------
  // The fixed point
  // ---------------------------------------------------------------------

  /** Whatever has started lies in every closed set. */
  ghost predicate Within(g: TaskGraph, t: set<string>) {
    forall i :: 0 <= i < |g.nodes| && g.nodes[i].status != Pending ==> g.nodes[i].nodeId in t
  }

  lemma SettledCompletes(g: TaskGraph, id: string, status: SubTaskStatus)
    requires Safe(g) && Accepts(g, id) && Terminal(status)
    ensures g.Advanced(id, status).graph.CompletedNodeIds()
         == g.CompletedNodeIds() + if status == Completed && id in Ids(g.nodes) then {id} else {}
  {
    var k := WhoIsAccepted(g, id);
    if k < 0 {
      SettleSynthesizer(g, status);
    } else {
      SettleNode(g, k, status);
      RecordEffect(g, k, status);
      JoinEffect(g.WithNodeStatus(id, status));
    }
  }

  lemma ShapeIsClosed(g: TaskGraph, h: TaskGraph, t: set<string>)
    requires SameShape(g, h) && Closed(g.nodes, t)
    ensures Closed(h.nodes, t)
  {
    forall i | 0 <= i < |h.nodes| && h.nodes[i].IsUnblocked(t) ensures h.nodes[i].nodeId in t {
      assert g.nodes[i].IsUnblocked(t);
    }
  }

  lemma SettleIsWithin(g: TaskGraph, id: string, status: SubTaskStatus, t: set<string>)
    requires Safe(g) && Accepts(g, id) && Terminal(status) && Closed(g.nodes, t) && Within(g, t)
    ensures Within(g.Advanced(id, status).graph, t)
  {
    hide TaskGraph.Advanced, TaskGraph.GetNode, TaskGraph.AllNodesCompleted, Ids;
    var h := g.Advanced(id, status).graph;
    SettleIsSafe(g, id, status);
    SettledCompletes(g, id, status);
    var k := WhoIsAccepted(g, id);
    assert h.CompletedNodeIds() <= t;
    forall i | 0 <= i < |h.nodes| && h.nodes[i].status != Pending ensures h.nodes[i].nodeId in t {
      assert h.nodes[i].IsUnblocked(t);
      assert g.nodes[i].IsUnblocked(t);
    }
  }

  lemma {:induction false} RunIsWithin(g: TaskGraph, ops: seq<Op>, t: set<string>)
    requires Safe(g) && Legal(g, ops) && Closed(g.nodes, t) && Within(g, t)
    ensures Within(After(g, ops), t)
  {
    if ops != [] {
      var before, last := ops[..|ops| - 1], ops[|ops| - 1];
      LegalPrefix(g, ops, |before|);
      RunIsWithin(g, before, t);
      RunIsSafe(g, before);
      ShapeIsClosed(g, After(g, before), t);
      SettleIsWithin(After(g, before), last.nodeId, last.status, t);
    }
  }

  lemma {:induction false} NothingFails(g: TaskGraph, ops: seq<Op>)
    requires Safe(g) && Legal(g, ops) && FailureFree(ops)
    requires forall u :: g.GetNode(u).Some? ==> g.GetNode(u).value.status != Failed
    ensures forall u :: After(g, ops).GetNode(u).Some? ==> After(g, ops).GetNode(u).value.status != Failed
  {
    if ops != [] {
      var before, last := ops[..|ops| - 1], ops[|ops| - 1];
      LegalPrefix(g, ops, |before|);
      NothingFails(g, before);
      RunIsSafe(g, before);
      forall u ensures After(g, ops).GetNode(u).Some? ==> After(g, ops).GetNode(u).value.status != Failed {
        SettleUnit(After(g, before), last.nodeId, last.status, u);
      }
    }
  }

  /** A run, started by one claim of a fresh graph, that has nothing in flight any more and in which nothing failed. */
  ghost predicate Exhausted(g: TaskGraph, ops: seq<Op>) {
    && Fresh(g) && Legal(g.Claimed().graph, ops) && FailureFree(ops)
    && Idle(After(g.Claimed().graph, ops))
  }

  /** Every node is COMPLETED or PENDING at the end of an exhausted run, and so is the synthesizer. */
  lemma ExhaustedStatuses(g: TaskGraph, ops: seq<Op>)
    requires Exhausted(g, ops)
    ensures var h := After(g.Claimed().graph, ops);
            && Safe(h) && SameShape(g, h)
            && (forall i :: 0 <= i < |h.nodes| ==> h.nodes[i].status == Completed || h.nodes[i].status == Pending)
            && (h.synthesizer.Some? ==> h.synthesizer.value.status == if h.AllNodesCompleted() then Completed else Pending)
  {
    var c, h := g.Claimed().graph, After(g.Claimed().graph, ops);
    ClaimIsSafe(g);
    ClaimEffect(g);
    RunIsSafe(c, ops);
    NothingFails(c, ops);
    forall i | 0 <= i < |h.nodes| ensures h.nodes[i].status == Completed || h.nodes[i].status == Pending {
      FindAt(h.nodes, i);
      assert h.GetNode(h.nodes[i].nodeId) == Some(h.nodes[i]);
    }
    if h.synthesizer.Some? {
      assert h.GetNode(h.synthesizer.value.nodeId) == h.synthesizer;
    }
  }

  /** The COMPLETED nodes of an exhausted run are the least fixed point of the dependencies. */
  lemma CompletedIsLeastFixedPoint(g: TaskGraph, ops: seq<Op>)
    requires Exhausted(g, ops)
    ensures IsLeastFixedPoint(g.nodes, After(g.Claimed().graph, ops).CompletedNodeIds())
  {
    var c, h := g.Claimed().graph, After(g.Claimed().graph, ops);
    ExhaustedStatuses(g, ops);
    var s := h.CompletedNodeIds();
    forall i | 0 <= i < |g.nodes| ensures g.nodes[i].nodeId in s <==> g.nodes[i].IsUnblocked(s) {
      assert h.nodes[i].IsUnblocked(s) <==> g.nodes[i].IsUnblocked(s);
      if g.nodes[i].nodeId in s {
        var j :| 0 <= j < |h.nodes| && h.nodes[j].status == Completed && h.nodes[j].nodeId == g.nodes[i].nodeId;
        assert i == j;
      }
    }
    assert s <= Ids(g.nodes) by {
      forall id | id in s ensures id in Ids(g.nodes) {
        var j :| 0 <= j < |h.nodes| && h.nodes[j].nodeId == id;
        assert g.nodes[j].nodeId == id;
      }
    }
    forall t | Closed(g.nodes, t) ensures s <= t {
      ClaimIsSafe(g);
      ClaimEffect(g);
      forall i | 0 <= i < |c.nodes| ensures c.nodes[i].IsUnblocked(t) <==> g.nodes[i].IsUnblocked(t) {}
      assert Closed(c.nodes, t);
      assert g.CompletedNodeIds() == {};
      forall i | 0 <= i < |c.nodes| && c.nodes[i].status != Pending ensures c.nodes[i].nodeId in t {
        assert g.nodes[i].IsUnblocked({}) && g.nodes[i].IsUnblocked(t);
      }
      RunIsWithin(c, ops, t);
    }
  }

  /** Whatever order completions arrive in, exhausted runs of one graph end in the same graph. */
  lemma OrderDoesNotMatter(g: TaskGraph, ops1: seq<Op>, ops2: seq<Op>)
    requires Exhausted(g, ops1) && Exhausted(g, ops2)
    ensures After(g.Claimed().graph, ops1) == After(g.Claimed().graph, ops2)
  {
    var h1, h2 := After(g.Claimed().graph, ops1), After(g.Claimed().graph, ops2);
    CompletedIsLeastFixedPoint(g, ops1);
    CompletedIsLeastFixedPoint(g, ops2);
    LeastFixedPointIsUnique(g.nodes, h1.CompletedNodeIds(), h2.CompletedNodeIds());
    ExhaustedStatuses(g, ops1);
    ExhaustedStatuses(g, ops2);
    SameCompletedSameNodes(h1, h2);
    SameCompletedSameNodes(h2, h1);
    forall i | 0 <= i < |h1.nodes| ensures h1.nodes[i] == h2.nodes[i] {}
    assert h1.nodes == h2.nodes;
  }

  lemma SameCompletedSameNodes(g: TaskGraph, h: TaskGraph)
    requires g.WellFormed() && |g.nodes| == |h.nodes| && g.CompletedNodeIds() == h.CompletedNodeIds()
    requires forall i :: 0 <= i < |g.nodes| ==> g.nodes[i].nodeId == h.nodes[i].nodeId
    ensures forall i :: 0 <= i < |h.nodes| && h.nodes[i].status == Completed ==> g.nodes[i].status == Completed
  {
    forall i | 0 <= i < |h.nodes| && h.nodes[i].status == Completed ensures g.nodes[i].status == Completed {
      assert h.nodes[i].nodeId in g.CompletedNodeIds();
      var j :| 0 <= j < |g.nodes| && g.nodes[j].status == Completed && g.nodes[j].nodeId == h.nodes[i].nodeId;
      assert i == j;
    }
  }

  // ---------------------------------------------------------------------
  // Acyclicity, blocked runs and finished runs
  // ---------------------------------------------------------------------

  /** In a ranked graph every closed set of ids holds every node. */
  lemma {:induction false} RankedReachesAll(nodes: seq<SubTask>, rank: map<string, int>, s: set<string>, low: int, i: nat)
    requires Ranked(nodes, rank) && Closed(nodes, s) && i < |nodes|
    requires forall j :: 0 <= j < |nodes| ==> low <= rank[nodes[j].nodeId]
    ensures nodes[i].nodeId in s
    decreases rank[nodes[i].nodeId] - low
  {
    forall d | d in nodes[i].dependsOn ensures d in s {
      assert d in Ids(nodes);
      var j :| 0 <= j < |nodes| && nodes[j].nodeId == d;
      RankedReachesAll(nodes, rank, s, low, j);
    }
  }

  lemma {:induction false} LowestRank(nodes: seq<SubTask>, rank: map<string, int>) returns (low: int)
    requires Ids(nodes) <= rank.Keys
    ensures forall j :: 0 <= j < |nodes| ==> low <= rank[nodes[j].nodeId]
  {
    low := 0;
    for n := 0 to |nodes|
      invariant forall j :: 0 <= j < n ==> low <= rank[nodes[j].nodeId]
    {
      assert nodes[n].nodeId in Ids(nodes);
      if rank[nodes[n].nodeId] < low {
        low := rank[nodes[n].nodeId];
      }
    }
  }

  /** The first step at which `ops` settles `id`, or -1. */
  function StepOf(ops: seq<Op>, id: string): (n: int)
    ensures -1 <= n < |ops|
    ensures n >= 0 ==> ops[n].Settle? && ops[n].nodeId == id
  {
    if ops == [] then -1
    else
      var before := StepOf(ops[..|ops| - 1], id);
      if before >= 0 then before
      else if ops[|ops| - 1].Settle? && ops[|ops| - 1].nodeId == id then |ops| - 1
      else -1
  }

  lemma {:induction false} StepOfPrefix(ops: seq<Op>, n: nat, id: string)
    requires n <= |ops| && StepOf(ops[..n], id) >= 0
    ensures StepOf(ops, id) == StepOf(ops[..n], id)
  {
    if n < |ops| {
      assert ops[..|ops| - 1][..n] == ops[..n];
      StepOfPrefix(ops[..|ops| - 1], n, id);
    } else {
      assert ops[..n] == ops;
    }
  }

  lemma {:induction false} CompletedWasSettled(g: TaskGraph, ops: seq<Op>, id: string)
    requires Safe(g) && Legal(g, ops) && g.CompletedNodeIds() == {}
    requires id in After(g, ops).CompletedNodeIds()
    ensures StepOf(ops, id) >= 0
  {
    if ops != [] {
      var before, last := ops[..|ops| - 1], ops[|ops| - 1];
      LegalPrefix(g, ops, |before|);
      RunIsSafe(g, before);
      SettledCompletes(After(g, before), last.nodeId, last.status);
      if id in After(g, before).CompletedNodeIds() {
        CompletedWasSettled(g, before, id);
      }
    }
  }

  /** A run that completed every node ranks the graph: each node by the step that settled it. */
  lemma CompletedRunRanks(g: TaskGraph, ops: seq<Op>)
    requires Safe(g) && Legal(g, ops) && g.CompletedNodeIds() == {}
    requires After(g, ops).CompletedNodeIds() == Ids(g.nodes)
    ensures Acyclic(g.nodes)
  {
    hide After, TaskGraph.AllNodesCompleted;
    RunIsSafe(g, ops);
    var h := After(g, ops);
    var rank := map id | id in Ids(g.nodes) :: StepOf(ops, id);
    forall i, d | 0 <= i < |g.nodes| && d in g.nodes[i].dependsOn
      ensures d in Ids(g.nodes) && rank[d] < rank[g.nodes[i].nodeId]
    {
      var id := g.nodes[i].nodeId;
      CompletedWasSettled(g, ops, id);
      var n := StepOf(ops, id);
      LegalPrefix(g, ops, n);
      RunIsSafe(g, ops[..n]);
      var m := After(g, ops[..n]);
      var k := WhoIsAccepted(m, id);
      assert m.nodes[i].nodeId == id;
      assert k == i;
      assert d in m.CompletedNodeIds();
      CompletedWasSettled(g, ops[..n], d);
      StepOfPrefix(ops, n, d);
    }
    assert Ranked(g.nodes, rank);
  }

  /** All nodes are COMPLETED, and so is the synthesizer if there is one. */
  predicate Finished(g: TaskGraph) {
    g.AllNodesCompleted() && (g.synthesizer.Some? ==> g.synthesizer.value.status == Completed)
  }

  /** Nodes are left, none of them is in flight and none will ever be. */
  predicate Stuck(g: TaskGraph) {
    !g.AllNodesCompleted() && !g.AnyNodeRunning()
  }

  /** The outcome flags of a settlement are read off the graph it leaves behind. */
  lemma FlagsAreExact(g: TaskGraph, id: string, status: SubTaskStatus)
    requires Safe(g) && Accepts(g, id) && Terminal(status)
    ensures var a := g.Advanced(id, status);
            && a.runCompleted == Finished(a.graph)
            && a.blocked == (status == Completed && Stuck(a.graph))
            && a.runFailed == (status == Failed)
            && !a.alreadyProcessed
  {
    var k := WhoIsAccepted(g, id);
    if k < 0 {
      SettleSynthesizer(g, status);
    } else {
      SettleNode(g, k, status);
      RecordEffect(g, k, status);
      assert !g.AllNodesCompleted();
      JoinEffect(g.WithNodeStatus(id, status));
    }
  }

  lemma AllCompletedIsAllIds(g: TaskGraph)
    requires g.WellFormed() && g.nodes != []
    ensures g.AllNodesCompleted() <==> g.CompletedNodeIds() == Ids(g.nodes)
  {
    if g.CompletedNodeIds() == Ids(g.nodes) {
      forall i | 0 <= i < |g.nodes| ensures g.nodes[i].status == Completed {
        assert g.nodes[i].nodeId in Ids(g.nodes);
        var j :| 0 <= j < |g.nodes| && g.nodes[j].status == Completed && g.nodes[j].nodeId == g.nodes[i].nodeId;
        assert i == j;
      }
    }
  }

  /** A failure-free run covers the graph exactly if the graph is acyclic and its dependencies exist. */
  lemma CoversIffAcyclic(g: TaskGraph, ops: seq<Op>)
    requires Exhausted(g, ops)
    ensures After(g.Claimed().graph, ops).CompletedNodeIds() == Ids(g.nodes) <==> Acyclic(g.nodes)
  {
    var c, h := g.Claimed().graph, After(g.Claimed().graph, ops);
    ClaimIsSafe(g);
    ClaimEffect(g);
    CompletedIsLeastFixedPoint(g, ops);
    if h.CompletedNodeIds() == Ids(g.nodes) {
      assert c.CompletedNodeIds() == {} by { assert g.CompletedNodeIds() == {}; }
      CompletedRunRanks(c, ops);
      var rank :| Ranked(c.nodes, rank);
      forall i, d | 0 <= i < |g.nodes| && d in g.nodes[i].dependsOn
        ensures d in Ids(g.nodes) && rank[d] < rank[g.nodes[i].nodeId] {
        assert d in c.nodes[i].dependsOn && c.nodes[i].nodeId == g.nodes[i].nodeId;
      }
      assert Ranked(g.nodes, rank);
    }
    if Acyclic(g.nodes) {
      var rank :| Ranked(g.nodes, rank);
      var low := LowestRank(g.nodes, rank);
      assert Closed(g.nodes, h.CompletedNodeIds());
      forall id | id in Ids(g.nodes) ensures id in h.CompletedNodeIds() {
        var i :| 0 <= i < |g.nodes| && g.nodes[i].nodeId == id;
        RankedReachesAll(g.nodes, rank, h.CompletedNodeIds(), low, i);
      }
    }
  }

  /** Step `i` of a legal run: its flags, and what a further accepted step tells about the graph in between. */
  lemma StepFlags(c: TaskGraph, ops: seq<Op>, i: nat)
    requires Safe(c) && Legal(c, ops) && i < |ops|
    ensures var h := After(c, ops[..i + 1]);
            && Safe(h) && SameShape(c, h) && h.nodes != []
            && At(c, ops, i).runCompleted == Finished(h)
            && At(c, ops, i).blocked == (ops[i].status == Completed && Stuck(h))
            && (i + 1 < |ops| ==> !Finished(h) && !Stuck(h))
  {
    LegalPrefix(c, ops, i);
    RunIsSafe(c, ops[..i]);
    var m := After(c, ops[..i]);
    FlagsAreExact(m, ops[i].nodeId, ops[i].status);
    AfterStep(c, ops, i);
    LegalPrefix(c, ops, i + 1);
    RunIsSafe(c, ops[..i + 1]);
    var k := WhoIsAccepted(m, ops[i].nodeId);
    if i + 1 < |ops| {
      var n := WhoIsAccepted(After(c, ops[..i + 1]), ops[i + 1].nodeId);
    }
  }

  /**
    `blocked` is exact. In a failure-free run it is returned by no settlement but the last, and by
    that one exactly if the least fixed point misses a node, that is, if the graph has a cycle or a
    dependency that does not exist.
   */
  lemma BlockedIsExact(g: TaskGraph, ops: seq<Op>, i: nat)
    requires Exhausted(g, ops) && i < |ops|
    ensures var c := g.Claimed().graph;
            && (At(c, ops, i).blocked <==> i == |ops| - 1 && After(c, ops).CompletedNodeIds() != Ids(g.nodes))
            && (At(c, ops, i).blocked <==> i == |ops| - 1 && !Acyclic(g.nodes))
  {
    var c := g.Claimed().graph;
    ClaimIsSafe(g);
    StepFlags(c, ops, i);
    if i + 1 == |ops| {
      assert ops[..i + 1] == ops;
      CoversIffAcyclic(g, ops);
      AllCompletedIsAllIds(After(c, ops));
      SameIds(g, c);
      SameIds(c, After(c, ops));
    }
  }

  lemma SameIds(g: TaskGraph, h: TaskGraph)
    requires |g.nodes| == |h.nodes| && forall i :: 0 <= i < |g.nodes| ==> g.nodes[i].nodeId == h.nodes[i].nodeId
    ensures Ids(g.nodes) == Ids(h.nodes)
  {
    forall id | id in Ids(g.nodes) ensures id in Ids(h.nodes) {
      var i :| 0 <= i < |g.nodes| && g.nodes[i].nodeId == id;
      assert h.nodes[i].nodeId == id;
    }
    forall id | id in Ids(h.nodes) ensures id in Ids(g.nodes) {
      var i :| 0 <= i < |h.nodes| && h.nodes[i].nodeId == id;
      assert g.nodes[i].nodeId == id;
    }
  }

  // ---------------------------------------------------------------------
  // Exact finish
  // ---------------------------------------------------------------------

  /** The ids of the nodes and of the synthesizer. */
  function Units(g: TaskGraph): set<string> {
    Ids(g.nodes) + if g.synthesizer.Some? then {g.synthesizer.value.nodeId} else {}
  }

  function UnitCount(g: TaskGraph): nat {
    |g.nodes| + if g.synthesizer.Some? then 1 else 0
  }

  function TerminalIds(g: TaskGraph): set<string> {
    set u | u in Units(g) && g.GetNode(u).Some? && Terminal(g.GetNode(u).value.status)
  }

  lemma {:induction false} IdCount(nodes: seq<SubTask>)
    requires Distinct(nodes)
    ensures |Ids(nodes)| == |nodes|
  {
    if nodes != [] {
      var rest, last := nodes[..|nodes| - 1], nodes[|nodes| - 1];
      IdCount(rest);
      assert nodes == rest + [last];
      assert Ids(nodes) == Ids(rest) + {last.nodeId};
    }
  }

  lemma SettleCounts(g: TaskGraph, id: string, status: SubTaskStatus)
    requires Safe(g) && Accepts(g, id) && Terminal(status)
    ensures var h := g.Advanced(id, status).graph;
            && Units(h) == Units(g)
            && TerminalIds(h) == TerminalIds(g) + {id} && id !in TerminalIds(g)
  {
    hide TaskGraph.Advanced, TaskGraph.GetNode, TaskGraph.AllNodesCompleted, TaskGraph.CompletedNodeIds;
    var h := g.Advanced(id, status).graph;
    SettleIsSafe(g, id, status);
    SameIds(g, h);
    assert id in Units(g) by { var k := WhoIsAccepted(g, id); }
    forall u | u in Units(g) ensures u in TerminalIds(h) <==> u in TerminalIds(g) || u == id {
      SettleUnit(g, id, status, u);
    }
  }

  /** In a run from a claimed graph, each settlement settles one more unit. */
  lemma {:induction false} RunCounts(g: TaskGraph, ops: seq<Op>)
    requires Safe(g) && Legal(g, ops) && TerminalIds(g) == {}
    ensures Units(After(g, ops)) == Units(g) && |TerminalIds(After(g, ops))| == |ops|
  {
    if ops != [] {
      var before, last := ops[..|ops| - 1], ops[|ops| - 1];
      LegalPrefix(g, ops, |before|);
      RunCounts(g, before);
      RunIsSafe(g, before);
      SettleCounts(After(g, before), last.nodeId, last.status);
    }
  }

  ghost predicate HasFailure(g: TaskGraph) {
    exists u :: g.GetNode(u).Some? && g.GetNode(u).value.status == Failed
  }

  /** Something has FAILED exactly if some settlement was a failure. */
  lemma {:induction false} FailureShows(g: TaskGraph, ops: seq<Op>)
    requires Safe(g) && Legal(g, ops) && !HasFailure(g)
    ensures HasFailure(After(g, ops)) <==> !FailureFree(ops)
  {
    if ops != [] {
      var before, last := ops[..|ops| - 1], ops[|ops| - 1];
      LegalPrefix(g, ops, |before|);
      FailureShows(g, before);
      RunIsSafe(g, before);
      FailureFreeStep(ops);
      FailureStep(After(g, before), last.nodeId, last.status);
    }
  }

  lemma FailureFreeStep(ops: seq<Op>)
    requires ops != [] && ops[|ops| - 1].Settle? && Terminal(ops[|ops| - 1].status)
    ensures FailureFree(ops) <==> FailureFree(ops[..|ops| - 1]) && ops[|ops| - 1].status == Completed
  {
    assert ops == ops[..|ops| - 1] + [ops[|ops| - 1]];
  }

  lemma FailureStep(g: TaskGraph, id: string, status: SubTaskStatus)
    requires Safe(g) && Accepts(g, id) && Terminal(status)
    ensures HasFailure(g.Advanced(id, status).graph) <==> HasFailure(g) || status == Failed
  {
    var h := g.Advanced(id, status).graph;
    SettleUnit(g, id, status, id);
    if HasFailure(g) {
      var u :| g.GetNode(u).Some? && g.GetNode(u).value.status == Failed;
      SettleUnit(g, id, status, u);
      assert HasFailure(h);
    }
    if HasFailure(h) {
      var u :| h.GetNode(u).Some? && h.GetNode(u).value.status == Failed;
      SettleUnit(g, id, status, u);
    }
  }

  lemma NodeIsUnit(g: TaskGraph)
    requires g.WellFormed()
    ensures |Units(g)| == UnitCount(g)
    ensures forall i :: 0 <= i < |g.nodes| ==> g.GetNode(g.nodes[i].nodeId) == Some(g.nodes[i]) && g.nodes[i].nodeId in Units(g)
    ensures g.synthesizer.Some? ==> g.GetNode(g.synthesizer.value.nodeId) == g.synthesizer
    ensures forall u :: u in Units(g) <==> g.GetNode(u).Some?
  {
    IdCount(g.nodes);
    forall i | 0 <= i < |g.nodes| ensures g.GetNode(g.nodes[i].nodeId) == Some(g.nodes[i]) {
      FindAt(g.nodes, i);
    }
  }

  lemma FinishedIsAllSettled(g: TaskGraph)
    requires Safe(g) && Finished(g)
    ensures |TerminalIds(g)| == UnitCount(g) && !HasFailure(g)
  {
    NodeIsUnit(g);
    forall u | u in Units(g) ensures u in TerminalIds(g) && g.GetNode(u).value.status == Completed {
      if u in Ids(g.nodes) {
        var i :| 0 <= i < |g.nodes| && g.nodes[i].nodeId == u;
      }
    }
    assert TerminalIds(g) == Units(g);
  }

  /** Once every unit is settled and nothing has failed, the run is finished. */
  lemma AllSettledIsFinished(g: TaskGraph)
    requires Safe(g) && g.nodes != [] && |TerminalIds(g)| == UnitCount(g) && !HasFailure(g)
    ensures Finished(g)
  {
    NodeIsUnit(g);
    assert TerminalIds(g) <= Units(g);
    SubsetOfSameSize(TerminalIds(g), Units(g));
    forall i | 0 <= i < |g.nodes| ensures g.nodes[i].status == Completed {
      assert g.nodes[i].nodeId in TerminalIds(g);
    }
    if g.synthesizer.Some? {
      assert g.synthesizer.value.nodeId in TerminalIds(g);
    }
  }

  lemma SubsetOfSameSize<T>(a: set<T>, b: set<T>)
    requires a <= b && |a| == |b|
    ensures a == b
  {
    assert |b - a| == 0;
  }

  lemma NothingSettled(c: TaskGraph)
    requires c.WellFormed()
    requires forall i :: 0 <= i < |c.nodes| ==> !Terminal(c.nodes[i].status)
    requires c.synthesizer.Some? ==> !Terminal(c.synthesizer.value.status)
    ensures TerminalIds(c) == {} && !HasFailure(c)
  {
    NodeIsUnit(c);
    forall u | u in Units(c) ensures !Terminal(c.GetNode(u).value.status) {
      if u in Ids(c.nodes) {
        var i :| 0 <= i < |c.nodes| && c.nodes[i].nodeId == u;
      }
    }
  }

  lemma ClaimedStart(g: TaskGraph)
    requires Fresh(g)
    ensures var c := g.Claimed().graph;
            && Safe(c) && SameShape(g, c) && TerminalIds(c) == {} && !HasFailure(c) && UnitCount(c) == UnitCount(g)
  {
    ClaimIsSafe(g);
    ClaimEffect(g);
    NothingSettled(g.Claimed().graph);
  }

  /**
    Exact finish. Settlement number i+1 reports completion exactly if it is the N-th, for N nodes
    and synthesizer, and neither it nor any before it was a failure; no settlement is accepted after that.
   */
  lemma ExactFinish(g: TaskGraph, ops: seq<Op>, i: nat)
    requires Fresh(g) && Legal(g.Claimed().graph, ops) && i < |ops|
    ensures At(g.Claimed().graph, ops, i).runCompleted <==> i + 1 == UnitCount(g) && FailureFree(ops[..i + 1])
    ensures At(g.Claimed().graph, ops, i).runCompleted ==> i + 1 == |ops|
  {
    var c := g.Claimed().graph;
    ClaimedStart(g);
    StepFlags(c, ops, i);
    LegalPrefix(c, ops, i + 1);
    RunCounts(c, ops[..i + 1]);
    FailureShows(c, ops[..i + 1]);
    var h := After(c, ops[..i + 1]);
    assert UnitCount(h) == UnitCount(g);
    if Finished(h) {
      FinishedIsAllSettled(h);
    } else if |TerminalIds(h)| == UnitCount(h) && !HasFailure(h) {
      AllSettledIsFinished(h);
    }
  }

  /** On an acyclic graph a failure-free run takes exactly N settlements, is never blocked, and reports completion. */
  lemma AcyclicFinishes(g: TaskGraph, ops: seq<Op>)
    requires Exhausted(g, ops) && Acyclic(g.nodes) && g.nodes != []
    ensures |ops| == UnitCount(g) && At(g.Claimed().graph, ops, |ops| - 1).runCompleted
    ensures forall i :: 0 <= i < |ops| ==> !At(g.Claimed().graph, ops, i).blocked
  {
    var c := g.Claimed().graph;
    ClaimedStart(g);
    RunIsSafe(c, ops);
    RunCounts(c, ops);
    ExhaustedStatuses(g, ops);
    CoversIffAcyclic(g, ops);
    SameIds(g, After(c, ops));
    AllCompletedIsAllIds(After(c, ops));
    FinishedIsAllSettled(After(c, ops));
    forall i | 0 <= i < |ops| ensures !At(c, ops, i).blocked {
      BlockedIsExact(g, ops, i);
    }
    assert ops[..|ops| - 1 + 1] == ops;
    ExactFinish(g, ops, |ops| - 1);
  }
}
