/**
  What the task-graph operations guarantee over whole runs: any sequence of claims and
  settlements for at-most-once dispatch; for the rest, runs in which a settlement arrives
  only for a RUNNING node, which `Orchestration` derives from the message protocol.
 */
module JoinProtocol {
  import opened Common
  import opened Subtasks

  datatype Op = Claim | Settle(nodeId: string, status: SubTaskStatus)

  function Apply(g: TaskGraph, op: Op): Advance {
    match op
    case Claim => g.Claimed()
    case Settle(id, status) => g.Advanced(id, status)
  }

  /** The graph after the whole run. */
  function After(g: TaskGraph, ops: seq<Op>): TaskGraph {
    if ops == [] then g else Apply(After(g, ops[..|ops| - 1]), ops[|ops| - 1]).graph
  }

  /** The outcome of step `i` of the run. */
  function At(g: TaskGraph, ops: seq<Op>, i: nat): Advance
    requires i < |ops|
  {
    Apply(After(g, ops[..i]), ops[i])
  }

  lemma AfterStep(g: TaskGraph, ops: seq<Op>, i: nat)
    requires i < |ops|
    ensures After(g, ops[..i + 1]) == At(g, ops, i).graph
  {
    assert ops[..i + 1][..i] == ops[..i];
  }

  predicate Terminal(status: SubTaskStatus) {
    status == Completed || status == Failed
  }

  // ---------------------------------------------------------------------
  // The effect of one operation, seen node by node
  // ---------------------------------------------------------------------

  function Mark(node: SubTask, ids: set<string>, status: SubTaskStatus): SubTask {
    if node.nodeId in ids then node.(status := status) else node
  }

  lemma {:induction false} FindMarked(nodes: seq<SubTask>, ids: set<string>, status: SubTaskStatus, id: string)
    ensures Find(Marked(nodes, ids, status), id)
         == match Find(nodes, id) { case None => None case Some(n) => Some(Mark(n, ids, status)) }
  {
    if nodes != [] {
      FindMarked(nodes[1..], ids, status, id);
      assert Marked(nodes, ids, status)[1..] == Marked(nodes[1..], ids, status);
    }
  }

  lemma NodeAfterMark(g: TaskGraph, ids: set<string>, status: SubTaskStatus, id: string)
    ensures g.WithStatus(ids, status).GetNode(id)
         == match g.GetNode(id) { case None => None case Some(n) => Some(Mark(n, ids, status)) }
  {
    FindMarked(g.nodes, ids, status, id);
  }

  lemma RunnableIds(nodes: seq<SubTask>, completed: set<string>)
    requires Distinct(nodes)
    ensures forall i :: 0 <= i < |nodes| ==>
      (nodes[i].nodeId in Ids(Runnable(nodes, completed)) <==> nodes[i].status == Pending && nodes[i].IsUnblocked(completed))
  {
    forall i | 0 <= i < |nodes|
      ensures nodes[i].nodeId in Ids(Runnable(nodes, completed)) <==> nodes[i].status == Pending && nodes[i].IsUnblocked(completed)
    {
      var ready := Runnable(nodes, completed);
      assert nodes[i] in ready <==> nodes[i].status == Pending && nodes[i].IsUnblocked(completed);
      if nodes[i].nodeId in Ids(ready) {
        var k :| 0 <= k < |ready| && ready[k].nodeId == nodes[i].nodeId;
        assert ready[k] in ready;
      }
    }
  }

  /** A PENDING node starts once `done` covers its dependencies. */
  function Freed(n: SubTask, done: set<string>): SubTask {
    if n.status == Pending && n.IsUnblocked(done) then n.(status := Running) else n
  }

  /** Claiming starts exactly the PENDING nodes that are unblocked, and nothing else. */
  lemma ClaimEffect(g: TaskGraph)
    requires g.WellFormed()
    ensures var a := g.Claimed();
            && a.graph.WellFormed() && Ids(a.graph.nodes) == Ids(g.nodes)
            && a.graph.synthesizer == g.synthesizer && a.dispatchSynthesizer == None
            && |a.graph.nodes| == |g.nodes|
            && (forall i :: 0 <= i < |g.nodes| ==>
                              a.graph.nodes[i] == Freed(g.nodes[i], g.CompletedNodeIds()))
            && a.graph.CompletedNodeIds() == g.CompletedNodeIds()
  {
    RunnableIds(g.nodes, g.CompletedNodeIds());
    MarkKeepsIds(g, Ids(g.ReadyNodes()), Running);
    SameCompleted(g.nodes, g.Claimed().graph.nodes, {});
    assert g.Claimed().graph.CompletedNodeIds() == g.CompletedNodeIds() + {};
    if g.synthesizer.Some? {
      assert Ids(g.ReadyNodes()) <= Ids(g.nodes) by {
        forall id | id in Ids(g.ReadyNodes()) ensures id in Ids(g.nodes) {
          var k :| 0 <= k < |g.ReadyNodes()| && g.ReadyNodes()[k].nodeId == id;
          assert g.ReadyNodes()[k] in g.nodes;
        }
      }
    }
  }

  lemma SameCompleted(before: seq<SubTask>, after: seq<SubTask>, added: set<string>)
    requires |before| == |after|
    requires forall i :: 0 <= i < |before| ==> after[i].nodeId == before[i].nodeId
    requires forall i :: 0 <= i < |before| ==>
      (after[i].status == Completed <==> before[i].status == Completed || before[i].nodeId in added)
    requires added <= Ids(before)
    ensures (set i | 0 <= i < |after| && after[i].status == Completed :: after[i].nodeId)
         == (set i | 0 <= i < |before| && before[i].status == Completed :: before[i].nodeId) + added
  {
    var b := set i | 0 <= i < |before| && before[i].status == Completed :: before[i].nodeId;
    var a := set i | 0 <= i < |after| && after[i].status == Completed :: after[i].nodeId;
    forall id | id in b + added ensures id in a {
      var i :| 0 <= i < |before| && before[i].nodeId == id && (before[i].status == Completed || id in added);
      assert after[i].nodeId == id;
    }
  }

  /** Writing the node's own status, before anything is released. */
  lemma RecordEffect(g: TaskGraph, k: nat, status: SubTaskStatus)
    requires g.WellFormed() && k < |g.nodes| && g.nodes[k].status == Running && Terminal(status)
    ensures var h := g.WithNodeStatus(g.nodes[k].nodeId, status);
            && h.WellFormed() && Ids(h.nodes) == Ids(g.nodes) && |h.nodes| == |g.nodes|
            && h.synthesizer == g.synthesizer
            && (forall i :: 0 <= i < |g.nodes| ==> h.nodes[i] == if i == k then g.nodes[i].(status := status) else g.nodes[i])
            && h.CompletedNodeIds() == Done(g, g.nodes[k].nodeId, status)
  {
    var id := g.nodes[k].nodeId;
    MarkKeepsIds(g, {id}, status);
    SameCompleted(g.nodes, g.WithNodeStatus(id, status).nodes, if status == Completed then {id} else {});
  }

  /** The completed ids once node `id` is recorded as `status`. */
  function Done(g: TaskGraph, id: string, status: SubTaskStatus): set<string> {
    g.CompletedNodeIds() + if status == Completed then {id} else {}
  }

  /** The join: everything unblocked starts, the synthesizer only when nothing else is left to do. */
  lemma JoinEffect(h: TaskGraph)
    requires h.WellFormed()
    ensures var a := h.Joined();
            && a.graph.WellFormed() && Ids(a.graph.nodes) == Ids(h.nodes)
            && |a.graph.nodes| == |h.nodes|
            && (forall i :: 0 <= i < |h.nodes| ==> a.graph.nodes[i] == Freed(h.nodes[i], h.CompletedNodeIds()))
            && a.graph.CompletedNodeIds() == h.CompletedNodeIds()
            && a.graph.AllNodesCompleted() == h.AllNodesCompleted()
            && a.dispatchSynthesizer.Some? == (h.AllNodesCompleted() && h.synthesizer.Some? && h.synthesizer.value.status == Pending)
            && a.graph.synthesizer == (if a.dispatchSynthesizer.Some? then a.dispatchSynthesizer else h.synthesizer)
            && (a.dispatchSynthesizer.Some? ==> a.dispatchSynthesizer.value == h.synthesizer.value.(status := Running))
            && a.runCompleted == (h.AllNodesCompleted() && (h.synthesizer.Some? ==> h.synthesizer.value.status == Completed))
            && a.blocked == (!h.AllNodesCompleted() && !a.graph.AnyNodeRunning())
            && !a.alreadyProcessed && !a.isSynthesizer && !a.runFailed
  {
    ClaimEffect(h);
    RunnableIds(h.nodes, h.CompletedNodeIds());
    if h.ReadyNodes() != [] {
      var r := h.ReadyNodes()[0];
      assert r in h.ReadyNodes() && r in h.nodes;
      var j :| 0 <= j < |h.nodes| && h.nodes[j] == r;
      assert h.Claimed().graph.nodes[j].status == Running;
    } else {
      assert Ids(h.ReadyNodes()) == {};
      if h.AllNodesCompleted() && h.synthesizer.Some? {
        MarkKeepsIds(h, {h.synthesizer.value.nodeId}, Running);
        assert h.WithNodeStatus(h.synthesizer.value.nodeId, Running).nodes == h.nodes;
      }
    }
  }

  /** A completed or failed node: its own status, the nodes it releases, and no other change. */
  lemma SettleNode(g: TaskGraph, k: nat, status: SubTaskStatus)
    requires g.WellFormed() && k < |g.nodes| && g.nodes[k].status == Running && Terminal(status)
    ensures var a := g.Advanced(g.nodes[k].nodeId, status);
            var h := g.WithNodeStatus(g.nodes[k].nodeId, status);
            && h.WellFormed()
            && a == (if status == Failed then Quiet(h).(runFailed := true) else h.Joined())
  {
    FindAt(g.nodes, k);
    RecordEffect(g, k, status);
  }

  /** A settled synthesizer touches no node. */
  lemma SettleSynthesizer(g: TaskGraph, status: SubTaskStatus)
    requires g.WellFormed() && g.synthesizer.Some? && g.synthesizer.value.status == Running && Terminal(status)
    ensures var a := g.Advanced(g.synthesizer.value.nodeId, status);
            && a.graph == g.(synthesizer := Some(g.synthesizer.value.(status := status)))
            && a == Quiet(a.graph).(runFailed := status == Failed, isSynthesizer := status == Completed,
                                    runCompleted := status == Completed)
  {
    assert g.WithNodeStatus(g.synthesizer.value.nodeId, status).nodes == g.nodes;
  }

  // ---------------------------------------------------------------------
  // At-most-once dispatch, for every sequence of operations whatever
  // ---------------------------------------------------------------------

  function Names(nodes: seq<SubTask>): (r: seq<string>)
    ensures |r| == |nodes| && forall i :: 0 <= i < |r| ==> r[i] == nodes[i].nodeId
  {
    seq(|nodes|, i requires 0 <= i < |nodes| => nodes[i].nodeId)
  }

  /** The ids handed out for dispatch by one operation. */
  function Dispatched(a: Advance): seq<string> {
    Names(a.newlyReady) + if a.dispatchSynthesizer.Some? then [a.dispatchSynthesizer.value.nodeId] else []
  }

  /** The ids handed out by a whole run, in order. */
  function Dispatches(g: TaskGraph, ops: seq<Op>): seq<string> {
    if ops == [] then []
    else
      var before := ops[..|ops| - 1];
      Dispatches(g, before) + Dispatched(Apply(After(g, before), ops[|ops| - 1]))
  }

  /** Node or synthesizer `id` is no longer PENDING. */
  predicate Started(g: TaskGraph, id: string) {
    g.GetNode(id).Some? && g.GetNode(id).value.status != Pending
  }

  predicate Repeats<T(==)>(s: seq<T>) {
    exists i, j :: 0 <= i < j < |s| && s[i] == s[j]
  }

  lemma ReadyIsPending(g: TaskGraph)
    requires g.WellFormed()
    ensures !Repeats(Names(g.ReadyNodes()))
    ensures forall id :: id in Names(g.ReadyNodes()) <==> id in Ids(g.ReadyNodes())
    ensures forall id :: id in Ids(g.ReadyNodes()) ==> !Started(g, id) && id in Ids(g.nodes)
  {
    var ready := g.ReadyNodes();
    RunnableDistinct(g.nodes, g.CompletedNodeIds());
    forall k | 0 <= k < |ready| ensures !Started(g, ready[k].nodeId) && ready[k].nodeId in Ids(g.nodes) {
      assert ready[k] in ready;
      var i :| 0 <= i < |g.nodes| && g.nodes[i] == ready[k];
      FindAt(g.nodes, i);
    }
    forall id | id in Ids(ready) ensures id in Names(ready) {
      var k :| 0 <= k < |ready| && ready[k].nodeId == id;
      assert Names(ready)[k] == id;
    }
  }

  /** Distinct PENDING ids are handed out and become started, none is set back. */
  ghost predicate HandsOut(g: TaskGraph, a: Advance) {
    && a.graph.WellFormed() && !Repeats(Dispatched(a))
    && (forall id :: id in Dispatched(a) ==> !Started(g, id) && Started(a.graph, id))
    && (forall id :: Started(g, id) ==> Started(a.graph, id))
  }

  lemma ClaimHandsOut(g: TaskGraph)
    requires g.WellFormed()
    ensures HandsOut(g, g.Claimed())
  {
    ReadyIsPending(g);
    ClaimEffect(g);
    var a := g.Claimed();
    assert Dispatched(a) == Names(g.ReadyNodes());
    forall id ensures Started(g, id) ==> Started(a.graph, id)
              ensures id in Dispatched(a) ==> Started(a.graph, id) {
      NodeAfterMark(g, Ids(g.ReadyNodes()), Running, id);
    }
  }

  lemma JoinHandsOut(h: TaskGraph)
    requires h.WellFormed()
    ensures HandsOut(h, h.Joined())
  {
    ClaimHandsOut(h);
    if h.ReadyNodes() == [] && h.AllNodesCompleted() && h.synthesizer.Some? && h.synthesizer.value.status == Pending {
      var s := h.synthesizer.value.nodeId;
      MarkKeepsIds(h, {s}, Running);
      assert h.Joined().graph == h.WithNodeStatus(s, Running);
      assert Dispatched(h.Joined()) == [s];
      NodeAfterMark(h, {s}, Running, s);
      forall x ensures Started(h, x) ==> Started(h.Joined().graph, x) {
        NodeAfterMark(h, {s}, Running, x);
      }
    }
  }

  lemma StepHandsOut(g: TaskGraph, op: Op)
    requires g.WellFormed() && (op.Settle? ==> Terminal(op.status))
    ensures HandsOut(g, Apply(g, op))
  {
    match op
    case Claim => ClaimHandsOut(g);
    case Settle(id, status) =>
      var node := g.GetNode(id);
      if node.Some? && node.value.status != status {
        var h := g.WithNodeStatus(id, status);
        MarkKeepsIds(g, {id}, status);
        NodeAfterMark(g, {id}, status, id);
        forall x ensures Started(h, x) <==> Started(g, x) || x == id {
          NodeAfterMark(g, {id}, status, x);
        }
        if status == Completed && !h.IsSynthesizer(id) {
          JoinHandsOut(h);
          assert Apply(g, op) == h.Joined();
        }
      }
  }

  lemma {:induction false} DispatchesAreStarted(g: TaskGraph, ops: seq<Op>)
    requires g.WellFormed() && forall op :: op in ops && op.Settle? ==> Terminal(op.status)
    ensures After(g, ops).WellFormed() && !Repeats(Dispatches(g, ops))
    ensures forall id :: id in Dispatches(g, ops) ==> Started(After(g, ops), id)
  {
    if ops != [] {
      var before, last := ops[..|ops| - 1], ops[|ops| - 1];
      assert last in ops;
      DispatchesAreStarted(g, before);
      StepHandsOut(After(g, before), last);
      var d := Dispatches(g, before);
      var e := Dispatched(Apply(After(g, before), last));
      forall i, j | 0 <= i < j < |d + e| ensures (d + e)[i] != (d + e)[j] {
        if i < |d| <= j {
          assert (d + e)[i] in d && (d + e)[j] in e;
        }
      }
    }
  }

  /**
    Whatever claims, duplicate, out-of-order or contradictory settlements arrive, no node and no
    synthesizer is handed out for dispatch twice.
   */
  lemma AtMostOnceDispatch(g: TaskGraph, ops: seq<Op>)
    requires g.WellFormed() && forall op :: op in ops && op.Settle? ==> Terminal(op.status)
    ensures forall i, j :: 0 <= i < j < |Dispatches(g, ops)| ==> Dispatches(g, ops)[i] != Dispatches(g, ops)[j]
  {
    DispatchesAreStarted(g, ops);
  }

  /** The join changes no node or synthesizer but those it hands out, which were PENDING and are RUNNING now. */
  lemma JoinUnit(h: TaskGraph, id: string)
    requires h.WellFormed()
    ensures h.Joined().graph.GetNode(id)
         == if id in Dispatched(h.Joined()) && h.GetNode(id).Some? then Some(h.GetNode(id).value.(status := Running))
            else h.GetNode(id)
    ensures id in Dispatched(h.Joined()) ==> h.GetNode(id).Some? && h.GetNode(id).value.status == Pending
    ensures !h.Joined().alreadyProcessed
  {
    ReadyIsPending(h);
    JoinHandsOut(h);
    var a := h.Joined();
    if h.ReadyNodes() != [] {
      assert Dispatched(a) == Names(h.ReadyNodes());
      NodeAfterMark(h, Ids(h.ReadyNodes()), Running, id);
    } else if h.AllNodesCompleted() && h.synthesizer.Some? && h.synthesizer.value.status == Pending {
      assert Dispatched(a) == [h.synthesizer.value.nodeId];
      NodeAfterMark(h, {h.synthesizer.value.nodeId}, Running, id);
    }
  }

  /** Unit `u` after an outcome that started the ids `out` and wrote `status` for `id`. */
  function Moved(g: TaskGraph, id: string, status: SubTaskStatus, out: seq<string>, u: string): Option<SubTask> {
    var node := g.GetNode(u);
    if node.None? then None
    else if u == id then Some(node.value.(status := status))
    else if u in out then Some(node.value.(status := Running))
    else node
  }

  /** The graph with `id` written as `status`, and what `plan_advance` makes of it. */
  lemma SettleCases(g: TaskGraph, id: string, status: SubTaskStatus)
    requires g.WellFormed() && Terminal(status) && g.GetNode(id).Some? && g.GetNode(id).value.status != status
    ensures var h := g.WithNodeStatus(id, status);
            && h.WellFormed() && Ids(h.nodes) == Ids(g.nodes)
            && g.Advanced(id, status) ==
               if status == Failed then Quiet(h).(runFailed := true)
               else if g.IsSynthesizer(id) then Quiet(h).(isSynthesizer := true, runCompleted := true)
               else h.Joined()
    ensures forall u :: g.WithNodeStatus(id, status).GetNode(u) == Moved(g, id, status, [], u)
  {
    hide TaskGraph.Joined, TaskGraph.Claimed, Marked, Ids;
    MarkKeepsIds(g, {id}, status);
    forall u ensures g.WithNodeStatus(id, status).GetNode(u) == Moved(g, id, status, [], u) {
      NodeAfterMark(g, {id}, status, u);
    }
  }

  /** Settling `id` changes `id` itself and what it hands out, and nothing else. */
  lemma SettleUnit(g: TaskGraph, id: string, status: SubTaskStatus, u: string)
    requires g.WellFormed() && Terminal(status) && g.GetNode(id).Some? && g.GetNode(id).value.status != status
    ensures var a := g.Advanced(id, status);
            && a.graph.WellFormed() && !a.alreadyProcessed
            && (status == Failed ==> Dispatched(a) == [])
            && (u in Dispatched(a) ==> u != id && g.GetNode(u).Some? && g.GetNode(u).value.status == Pending)
            && a.graph.GetNode(u) == Moved(g, id, status, Dispatched(a), u)
  {
    hide TaskGraph.Joined, TaskGraph.Claimed, TaskGraph.Advanced, Ids;
    SettleCases(g, id, status);
    if status == Completed && !g.IsSynthesizer(id) {
      var h := g.WithNodeStatus(id, status);
      assert h.GetNode(u) == Moved(g, id, status, [], u);
      JoinUnit(h, u);
      StepHandsOut(g, Settle(id, status));
    }
  }

  /** Recording the same terminal status again changes nothing and dispatches nothing. */
  lemma Reapply(g: TaskGraph, id: string, status: SubTaskStatus)
    requires g.WellFormed() && Terminal(status)
    ensures var once := g.Advanced(id, status).graph;
            var again := once.Advanced(id, status);
            && again == Quiet(once).(alreadyProcessed := g.GetNode(id).Some?)
            && Dispatched(again) == []
  {
    if g.GetNode(id).Some? && g.GetNode(id).value.status != status {
      SettleUnit(g, id, status, id);
    }
  }

  /** Every unit that is COMPLETED or FAILED in `g` is as it was in `h`. */
  ghost predicate KeepsTerminal(g: TaskGraph, h: TaskGraph) {
    forall u :: g.GetNode(u).Some? && Terminal(g.GetNode(u).value.status) ==> h.GetNode(u) == g.GetNode(u)
  }

  /** A settlement that contradicts the one the unit has. */
  predicate Contradicts(g: TaskGraph, id: string, status: SubTaskStatus) {
    g.GetNode(id).Some? && Terminal(g.GetNode(id).value.status) && g.GetNode(id).value.status != status
  }

  /** `plan_advance` keeps all terminal statuses exactly if the settlement does not contradict one. */
  lemma TerminalIsKeptIff(g: TaskGraph, id: string, status: SubTaskStatus)
    requires g.WellFormed() && Terminal(status)
    ensures KeepsTerminal(g, g.Advanced(id, status).graph) <==> !Contradicts(g, id, status)
  {
    hide TaskGraph.GetNode, TaskGraph.Joined, TaskGraph.WithNodeStatus, TaskGraph.WellFormed;
    if g.GetNode(id).Some? && g.GetNode(id).value.status != status {
      forall u
        ensures g.Advanced(id, status).graph.GetNode(u) == Moved(g, id, status, Dispatched(g.Advanced(id, status)), u)
        ensures u in Dispatched(g.Advanced(id, status)) ==> u != id && g.GetNode(u).Some? && g.GetNode(u).value.status == Pending
      {
        SettleUnit(g, id, status, u);
      }
      hide TaskGraph.Advanced, Dispatched;
    }
  }

  /** Taken alone, `plan_advance` lets a COMPLETED node become FAILED: agreement must come from the protocol. */
  lemma AdvanceAloneFlips()
    ensures var g := TaskGraph(RunId("w", "r"), 0, [SubTask("a", [], Completed)], None);
            g.WellFormed() && g.Advanced("a", Failed).graph.GetNode("a") == Some(SubTask("a", [], Failed))
  {
    var g := TaskGraph(RunId("w", "r"), 0, [SubTask("a", [], Completed)], None);
    assert Marked(g.nodes, {"a"}, Failed) == [SubTask("a", [], Failed)];
  }

  // ---------------------------------------------------------------------
  // Runs in which settlements arrive only for RUNNING nodes
  // ---------------------------------------------------------------------

  predicate Accepts(g: TaskGraph, id: string) {
    g.GetNode(id).Some? && g.GetNode(id).value.status == Running
  }

  /** A graph nobody has worked on yet. */
  ghost predicate Fresh(g: TaskGraph) {
    && g.WellFormed()
    && (forall i :: 0 <= i < |g.nodes| ==> g.nodes[i].status == Pending)
    && (g.synthesizer.Some? ==> g.synthesizer.value.status == Pending)
  }

  ghost predicate Legal(g: TaskGraph, ops: seq<Op>) {
    forall i :: 0 <= i < |ops| ==>
      ops[i].Settle? && Terminal(ops[i].status) && Accepts(After(g, ops[..i]), ops[i].nodeId)
  }

  ghost predicate FailureFree(ops: seq<Op>) {
    forall i :: 0 <= i < |ops| ==> ops[i].Settle? && ops[i].status == Completed
  }

  /** Nothing is in flight any more. */
  predicate Idle(g: TaskGraph) {
    !g.AnyNodeRunning() && (g.synthesizer.Some? ==> g.synthesizer.value.status != Running)
  }

  /**
    Dependency safety and the join gate: what has started had all its dependencies COMPLETED,
    what is PENDING is still blocked, and the synthesizer has started exactly if all nodes are COMPLETED.
   */
  ghost predicate Safe(g: TaskGraph) {
    && g.WellFormed()
    && (forall i :: 0 <= i < |g.nodes| ==> (g.nodes[i].status != Pending <==> g.nodes[i].IsUnblocked(g.CompletedNodeIds())))
    && (g.synthesizer.Some? ==> (g.synthesizer.value.status != Pending <==> g.AllNodesCompleted()))
  }

  /** Same nodes, dependencies and synthesizer; only statuses may differ. */
  ghost predicate SameShape(g: TaskGraph, h: TaskGraph) {
    && |g.nodes| == |h.nodes| && g.planId == h.planId && g.version == h.version
    && (forall i :: 0 <= i < |g.nodes| ==> h.nodes[i] == g.nodes[i].(status := h.nodes[i].status))
    && (g.synthesizer.Some? <==> h.synthesizer.Some?)
    && (g.synthesizer.Some? ==> h.synthesizer.value == g.synthesizer.value.(status := h.synthesizer.value.status))
  }

  /** An accepted id is a RUNNING node, found at some position, or the RUNNING synthesizer. */
  lemma WhoIsAccepted(g: TaskGraph, id: string) returns (k: int)
    requires g.WellFormed() && Accepts(g, id)
    ensures -1 <= k < |g.nodes|
    ensures k >= 0 ==> g.nodes[k].nodeId == id && g.nodes[k].status == Running
    ensures k == -1 ==> g.synthesizer.Some? && g.synthesizer.value.nodeId == id && g.synthesizer.value.status == Running
  {
    k := -1;
    if Find(g.nodes, id).Some? {
      k :| 0 <= k < |g.nodes| && g.nodes[k] == Find(g.nodes, id).value;
    }
  }

  lemma ClaimIsSafe(g: TaskGraph)
    requires Fresh(g)
    ensures Safe(g.Claimed().graph) && SameShape(g, g.Claimed().graph)
  {
    ClaimEffect(g);
    assert g.CompletedNodeIds() == {};
  }

  /** The join closes the gap a completed node leaves open. */
  lemma JoinIsSafe(h: TaskGraph)
    requires h.WellFormed()
    requires forall i :: 0 <= i < |h.nodes| && h.nodes[i].status != Pending ==> h.nodes[i].IsUnblocked(h.CompletedNodeIds())
    requires h.synthesizer.Some? && h.synthesizer.value.status != Pending ==> h.AllNodesCompleted()
    ensures Safe(h.Joined().graph) && SameShape(h, h.Joined().graph)
  {
    JoinEffect(h);
    if h.ReadyNodes() != [] {
      ClaimEffect(h);
    }
  }

  lemma SettleIsSafe(g: TaskGraph, id: string, status: SubTaskStatus)
    requires Safe(g) && Accepts(g, id) && Terminal(status)
    ensures Safe(g.Advanced(id, status).graph) && SameShape(g, g.Advanced(id, status).graph)
  {
    var k := WhoIsAccepted(g, id);
    if k < 0 {
      SettleSynthesizer(g, status);
    } else {
      SettleNode(g, k, status);
      RecordEffect(g, k, status);
      var h := g.WithNodeStatus(id, status);
      assert !g.AllNodesCompleted();
      if status == Completed {
        JoinIsSafe(h);
      } else {
        assert !h.AllNodesCompleted() by { assert h.nodes[k].status == Failed; }
      }
    }
  }

  lemma {:induction false} RunIsSafe(g: TaskGraph, ops: seq<Op>)
    requires Safe(g) && Legal(g, ops)
    ensures Safe(After(g, ops)) && SameShape(g, After(g, ops))
  {
    if ops != [] {
      var before, last := ops[..|ops| - 1], ops[|ops| - 1];
      LegalPrefix(g, ops, |before|);
      RunIsSafe(g, before);
      SettleIsSafe(After(g, before), last.nodeId, last.status);
    }
  }

  lemma LegalPrefix(g: TaskGraph, ops: seq<Op>, n: nat)
    requires Legal(g, ops) && n <= |ops|
    ensures Legal(g, ops[..n])
    ensures n < |ops| ==> Accepts(After(g, ops[..n]), ops[n].nodeId) && Terminal(ops[n].status)
  {
    forall i | 0 <= i < n ensures ops[..n][..i] == ops[..i] {}
  }

  /** Dependency safety and the join gate hold after every step of every run of a fresh graph. */
  lemma DependencySafety(g: TaskGraph, ops: seq<Op>)
    requires Fresh(g) && Legal(g.Claimed().graph, ops)
    ensures Safe(After(g.Claimed().graph, ops))
  {
    ClaimIsSafe(g);
    RunIsSafe(g.Claimed().graph, ops);
  }
}
