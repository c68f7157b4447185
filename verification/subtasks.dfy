/**
  The task graph of an orchestrated run (src/domain/subtasks.py): a list of nodes with
  dependencies and an optional synthesizer that is gated on all nodes being completed.
  Every operation returns an updated copy. The two operations that loop in the source are
  methods here, proved against the functions `Claimed` and `Advanced`.
 */
module Subtasks {
  import opened Common

  datatype SubTaskStatus = Pending | Running | Completed | Failed

  datatype SubTask = SubTask(nodeId: string, dependsOn: seq<string>, status: SubTaskStatus) {
    predicate IsUnblocked(completed: set<string>) {
      forall d :: d in dependsOn ==> d in completed
    }
  }

  /** No two nodes share an id. */
  ghost predicate Distinct(nodes: seq<SubTask>) {
    forall i, j :: 0 <= i < j < |nodes| ==> nodes[i].nodeId != nodes[j].nodeId
  }

  function Ids(nodes: seq<SubTask>): set<string> {
    set i | 0 <= i < |nodes| :: nodes[i].nodeId
  }

  /** The first node called `id`. */
  function Find(nodes: seq<SubTask>, id: string): (r: Option<SubTask>)
    ensures r.Some? ==> r.value in nodes && r.value.nodeId == id
    ensures r.None? <==> id !in Ids(nodes)
  {
    if nodes == [] then None
    else if nodes[0].nodeId == id then Some(nodes[0])
    else
      assert nodes == [nodes[0]] + nodes[1..];
      Find(nodes[1..], id)
  }

  lemma {:induction false} FindAt(nodes: seq<SubTask>, i: nat)
    requires Distinct(nodes) && i < |nodes|
    ensures Find(nodes, nodes[i].nodeId) == Some(nodes[i])
  {
    if i > 0 {
      FindAt(nodes[1..], i - 1);
    }
  }

  /** Every node named in `ids` gets `status`; order and all else stay. */
  function Marked(nodes: seq<SubTask>, ids: set<string>, status: SubTaskStatus): (r: seq<SubTask>)
    ensures |r| == |nodes|
    ensures forall i :: 0 <= i < |nodes| ==>
                          r[i] == if nodes[i].nodeId in ids then nodes[i].(status := status) else nodes[i]
  {
    seq(|nodes|, i requires 0 <= i < |nodes| =>
      if nodes[i].nodeId in ids then nodes[i].(status := status) else nodes[i])
  }

  /** The PENDING nodes whose dependencies are all in `completed`, in graph order. */
  function Runnable(nodes: seq<SubTask>, completed: set<string>): (r: seq<SubTask>)
    ensures forall n :: n in r <==> n in nodes && n.status == Pending && n.IsUnblocked(completed)
  {
    if nodes == [] then []
    else
      assert nodes == [nodes[0]] + nodes[1..];
      var rest := Runnable(nodes[1..], completed);
      if nodes[0].status == Pending && nodes[0].IsUnblocked(completed) then [nodes[0]] + rest else rest
  }

  lemma {:induction false} RunnableDistinct(nodes: seq<SubTask>, completed: set<string>)
    requires Distinct(nodes)
    ensures Distinct(Runnable(nodes, completed))
  {
    if nodes != [] {
      RunnableDistinct(nodes[1..], completed);
    }
  }

  datatype TaskGraph = TaskGraph(planId: RunId, version: nat, nodes: seq<SubTask>, synthesizer: Option<SubTask>) {

    /** Ids are unique, and none is the synthesizer's. */
    ghost predicate WellFormed() {
      && Distinct(nodes)
      && (synthesizer.Some? ==> synthesizer.value.nodeId !in Ids(nodes))
    }

    function Bumped(): TaskGraph {
      this.(version := version + 1)
    }

    function GetNode(id: string): Option<SubTask> {
      var node := Find(nodes, id);
      if node.None? && IsSynthesizer(id) then synthesizer else node
    }

    predicate IsSynthesizer(id: string) {
      synthesizer.Some? && synthesizer.value.nodeId == id
    }

    function WithStatus(ids: set<string>, status: SubTaskStatus): TaskGraph {
      this.(nodes := Marked(nodes, ids, status),
      synthesizer := if synthesizer.Some? && synthesizer.value.nodeId in ids
      then Some(synthesizer.value.(status := status)) else synthesizer)
    }

    function WithNodeStatus(id: string, status: SubTaskStatus): TaskGraph {
      WithStatus({id}, status)
    }

    function CompletedNodeIds(): set<string> {
      set i | 0 <= i < |nodes| && nodes[i].status == Completed :: nodes[i].nodeId
    }

    predicate AllNodesCompleted() {
      nodes != [] && forall i :: 0 <= i < |nodes| ==> nodes[i].status == Completed
    }

    predicate AnyNodeRunning() {
      exists i :: 0 <= i < |nodes| && nodes[i].status == Running
    }

    function ReadyNodes(): seq<SubTask> {
      Runnable(nodes, CompletedNodeIds())
    }

    /** All runnable nodes become RUNNING and are handed out. */
    function Claimed(): Advance {
      Release(this, ReadyNodes())
    }

    /** What recording `status` for `id` does to the graph, and what must happen next. */
    function Advanced(id: string, status: SubTaskStatus): Advance {
      var node := GetNode(id);
      if node.None? then Quiet(this)
      else if node.value.status == status then Quiet(this).(alreadyProcessed := true)
      else
        var graph := WithNodeStatus(id, status);
        if status == Failed then Quiet(graph).(runFailed := true)
        else if status != Completed then Quiet(graph)
        else if graph.IsSynthesizer(id) then Quiet(graph).(isSynthesizer := true, runCompleted := true)
        else graph.Joined()
    }

    /** A node has just completed: release what it unblocked, else start the synthesizer, finish, wait or report a block. */
    function Joined(): Advance {
      if ReadyNodes() != [] then Claimed()
      else if AllNodesCompleted() then
        if synthesizer.Some? && synthesizer.value.status == Pending then
          var next := WithNodeStatus(synthesizer.value.nodeId, Running);
          Quiet(next).(dispatchSynthesizer := next.synthesizer)
        else if synthesizer.Some? && synthesizer.value.status != Completed then Quiet(this)
        else Quiet(this).(runCompleted := true)
      else Quiet(this).(blocked := !AnyNodeRunning())
    }

    /** `claim_ready`: one status update per ready node, in graph order. */
    method ClaimReady() returns (graph: TaskGraph, claimed: seq<SubTask>)
      requires WellFormed()
      ensures graph == Claimed().graph && claimed == Claimed().newlyReady
    {
      var ready := ReadyNodes();
      graph := StartEach(this, ready);
      claimed := Fetch(graph, ready);
      FetchedIsStarted(this, ready);
    }

    /** `plan_advance`, with the loop that starts the newly runnable nodes. */
    method PlanAdvance(id: string, status: SubTaskStatus) returns (a: Advance)
      requires WellFormed()
      ensures a == Advanced(id, status)
    {
      var node := GetNode(id);
      if node.None? {
        return Quiet(this);
      }
      if node.value.status == status {
        return Quiet(this).(alreadyProcessed := true);
      }
      var graph := WithNodeStatus(id, status);
      if status == Failed {
        return Quiet(graph).(runFailed := true);
      }
      if status != Completed {
        return Quiet(graph);
      }
      if graph.IsSynthesizer(id) {
        return Quiet(graph).(isSynthesizer := true, runCompleted := true);
      }
      MarkKeepsIds(this, {id}, status);
      var ready := graph.ReadyNodes();
      if ready != [] {
        FetchedIsStarted(graph, ready);
        var started := StartEach(graph, ready);
        return Quiet(started).(newlyReady := Fetch(started, ready));
      }
      if graph.AllNodesCompleted() {
        var synthesizer := graph.synthesizer;
        if synthesizer.Some? && synthesizer.value.status == Pending {
          graph := graph.WithNodeStatus(synthesizer.value.nodeId, Running);
          return Quiet(graph).(dispatchSynthesizer := graph.synthesizer);
        }
        if synthesizer.Some? && synthesizer.value.status != Completed {
          return Quiet(graph);
        }
        return Quiet(graph).(runCompleted := true);
      }
      if graph.AnyNodeRunning() {
        return Quiet(graph);
      }
      return Quiet(graph).(blocked := true);
    }
  }

  /** Outcome of recording one node's status against the graph. */
  datatype Advance = Advance(graph: TaskGraph, newlyReady: seq<SubTask>, dispatchSynthesizer: Option<SubTask>,
                             runCompleted: bool, runFailed: bool, blocked: bool,
                             isSynthesizer: bool, alreadyProcessed: bool)

  function Quiet(graph: TaskGraph): Advance {
    Advance(graph, [], None, false, false, false, false, false)
  }

  /** The nodes of `ready` become RUNNING in `graph` and are returned in that state. */
  function Release(graph: TaskGraph, ready: seq<SubTask>): Advance {
    Quiet(graph.WithStatus(Ids(ready), Running)).(newlyReady := AsRunning(ready))
  }

  function AsRunning(ready: seq<SubTask>): (r: seq<SubTask>)
    ensures |r| == |ready| && forall i :: 0 <= i < |r| ==> r[i] == ready[i].(status := Running)
  {
    seq(|ready|, i requires 0 <= i < |ready| => ready[i].(status := Running))
  }

  lemma MarkKeepsIds(g: TaskGraph, ids: set<string>, status: SubTaskStatus)
    requires g.WellFormed()
    ensures g.WithStatus(ids, status).WellFormed()
    ensures Ids(g.WithStatus(ids, status).nodes) == Ids(g.nodes)
  {
    var r := g.WithStatus(ids, status).nodes;
    forall i | 0 <= i < |r| ensures r[i].nodeId == g.nodes[i].nodeId {}
    forall id | id in Ids(g.nodes) ensures id in Ids(r) {
      var i :| 0 <= i < |g.nodes| && g.nodes[i].nodeId == id;
      assert r[i].nodeId == id;
    }
    forall id | id in Ids(r) ensures id in Ids(g.nodes) {
      var i :| 0 <= i < |r| && r[i].nodeId == id;
      assert g.nodes[i].nodeId == id;
    }
  }

  /** The loop that sets one ready node after the other to RUNNING. */
  method StartEach(g: TaskGraph, ready: seq<SubTask>) returns (graph: TaskGraph)
    ensures graph == g.WithStatus(Ids(ready), Running)
  {
    graph := g;
    for i := 0 to |ready|
      invariant graph == g.WithStatus(Ids(ready[..i]), Running)
    {
      graph := graph.WithNodeStatus(ready[i].nodeId, Running);
      assert ready[..i + 1] == ready[..i] + [ready[i]];
      assert Ids(ready[..i + 1]) == Ids(ready[..i]) + {ready[i].nodeId};
    }
    assert ready[..|ready|] == ready;
  }

  /** The nodes of `graph` with the ids of `ready`, looked up one by one. */
  function Fetch(graph: TaskGraph, ready: seq<SubTask>): (r: seq<SubTask>)
    requires forall n :: n in ready ==> graph.GetNode(n.nodeId).Some?
  {
    seq(|ready|, i requires 0 <= i < |ready| => graph.GetNode(ready[i].nodeId).value)
  }

  /** Looking the started nodes up again yields exactly the ready nodes, now RUNNING. */
  lemma FetchedIsStarted(g: TaskGraph, ready: seq<SubTask>)
    requires g.WellFormed() && forall n :: n in ready ==> n in g.nodes
    ensures var graph := g.WithStatus(Ids(ready), Running);
            && (forall n :: n in ready ==> graph.GetNode(n.nodeId).Some?)
            && Fetch(graph, ready) == AsRunning(ready)
  {
    var graph := g.WithStatus(Ids(ready), Running);
    MarkKeepsIds(g, Ids(ready), Running);
    forall i | 0 <= i < |ready| ensures graph.GetNode(ready[i].nodeId) == Some(ready[i].(status := Running)) {
      assert ready[i] in g.nodes;
      var k :| 0 <= k < |g.nodes| && g.nodes[k] == ready[i];
      assert ready[i].nodeId in Ids(ready);
      FindAt(graph.nodes, k);
    }
  }
}
