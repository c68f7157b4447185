/** The in-memory state store (src/infrastructure/state/memory_state_store.py). */
module MemoryStores {
  import opened Common
  import opened Subtasks
  import opened JoinProtocol
  import opened Plans
  import opened Runtime

  class MemoryStateStore {
    var plans: map<RunId, AgentPlan>
    var taskGraphs: map<RunId, TaskGraph>
    var subAgentResults: map<RunId, map<string, SubAgentResult>>
    var actionResults: map<(RunId, string), string>
    var idempotencyKeys: set<string>

    /** Plans and graphs lie under their own ids, and every graph has unique node ids. */
    ghost predicate Valid()
      reads this
    {
      && (forall id :: id in plans ==> plans[id].planId == id)
      && forall run :: run in taskGraphs ==> taskGraphs[run].WellFormed() && taskGraphs[run].planId == run
    }

    /** The stored data, under the given logs. */
    ghost function View(reports: seq<Report>, executions: multiset<(RunId, string)>, commits: multiset<(RunId, string)>): Store
      reads this
    {
      Store(plans, taskGraphs, idempotencyKeys, subAgentResults, actionResults, reports, executions, commits)
    }

    constructor ()
      ensures Valid() && View([], multiset{}, multiset{}) == EMPTY_STORE
    {
      plans, taskGraphs, subAgentResults, actionResults, idempotencyKeys := map[], map[], map[], map[], {};
    }

    method SavePlan(p: AgentPlan)
      requires Valid()
      modifies this`plans
      ensures Valid() && plans == old(plans)[p.planId := p]
    {
      plans := plans[p.planId := p];
    }

    method GetPlan(id: RunId) returns (r: Option<AgentPlan>)
      ensures r == if id in plans then Some(plans[id]) else None
    {
      r := if id in plans then Some(plans[id]) else None;
    }

    method SaveTaskGraph(g: TaskGraph)
      requires Valid() && g.WellFormed()
      modifies this`taskGraphs
      ensures Valid() && taskGraphs == old(taskGraphs)[g.planId := g]
    {
      taskGraphs := taskGraphs[g.planId := g];
    }

    method GetTaskGraph(id: RunId) returns (r: Option<TaskGraph>)
      ensures r == if id in taskGraphs then Some(taskGraphs[id]) else None
    {
      r := if id in taskGraphs then Some(taskGraphs[id]) else None;
    }

    method SaveSubAgentResult(run: RunId, result: SubAgentResult)
      modifies this`subAgentResults
      ensures subAgentResults == old(subAgentResults)[run := (if run in old(subAgentResults) then old(subAgentResults)[run] else map[])[result.nodeId := result]]
    {
      if run !in subAgentResults {
        subAgentResults := subAgentResults[run := map[]];
      }
      subAgentResults := subAgentResults[run := subAgentResults[run][result.nodeId := result]];
    }

    method GetSubAgentResults(run: RunId) returns (r: map<string, SubAgentResult>)
      ensures r == if run in subAgentResults then subAgentResults[run] else map[]
    {
      r := if run in subAgentResults then subAgentResults[run] else map[];
    }

    /** Every runnable node becomes RUNNING at once and is handed out. */
    method ClaimReadyNodes(run: RunId) returns (claimed: seq<SubTask>)
      requires Valid()
      modifies this`taskGraphs
      ensures Valid()
      ensures run !in old(taskGraphs) ==> claimed == [] && taskGraphs == old(taskGraphs)
      ensures run in old(taskGraphs) ==>
                claimed == old(taskGraphs)[run].Claimed().newlyReady
                && taskGraphs == old(taskGraphs)[run := old(taskGraphs)[run].Claimed().graph]
    {
      if run !in taskGraphs {
        return [];
      }
      var graph: TaskGraph;
      ClaimHandsOut(taskGraphs[run]);
      graph, claimed := taskGraphs[run].ClaimReady();
      SaveTaskGraph(graph);
    }

    /** A node's terminal status is recorded and the outcome returned; None if the run has no graph. */
    method AdvanceTaskGraph(run: RunId, nodeId: string, status: SubTaskStatus) returns (r: Option<Advance>)
      requires Valid() && Terminal(status)
      modifies this`taskGraphs
      ensures Valid()
      ensures run !in old(taskGraphs) ==> r == None && taskGraphs == old(taskGraphs)
      ensures run in old(taskGraphs) ==>
                r == Some(old(taskGraphs)[run].Advanced(nodeId, status))
                && taskGraphs == old(taskGraphs)[run := r.value.graph]
    {
      if run !in taskGraphs {
        return None;
      }
      StepHandsOut(taskGraphs[run], Settle(nodeId, status));
      AdvanceKeepsPlanId(taskGraphs[run], nodeId, status);
      var a := taskGraphs[run].PlanAdvance(nodeId, status);
      SaveTaskGraph(a.graph);
      r := Some(a);
    }

    method SaveActionResult(plan: RunId, actionId: string, output: string)
      modifies this`actionResults
      ensures actionResults == old(actionResults)[(plan, actionId) := output]
    {
      actionResults := actionResults[(plan, actionId) := output];
    }

    method GetActionResult(plan: RunId, actionId: string) returns (r: Option<string>)
      ensures r == if (plan, actionId) in actionResults then Some(actionResults[(plan, actionId)]) else None
    {
      r := if (plan, actionId) in actionResults then Some(actionResults[(plan, actionId)]) else None;
    }

    method CheckIdempotencyKey(key: string) returns (r: bool)
      ensures r == (key in idempotencyKeys)
    {
      r := key in idempotencyKeys;
    }

    method RecordIdempotencyKey(key: string)
      modifies this`idempotencyKeys
      ensures idempotencyKeys == old(idempotencyKeys) + {key}
    {
      idempotencyKeys := idempotencyKeys + {key};
    }
  }

  lemma AdvanceKeepsPlanId(g: TaskGraph, id: string, status: SubTaskStatus)
    ensures g.Advanced(id, status).graph.planId == g.planId && g.Claimed().graph.planId == g.planId
  {
    hide Marked, Runnable, Find, Ids;
  }
}
