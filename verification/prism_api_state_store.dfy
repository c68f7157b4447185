/**
  The durable store in the form the source gives it (src/infrastructure/state/prism_api_state_store.py):
  an in-memory store as a cache, durable memory behind it, and the known locations of keys. Each method
  is proved to do what `DurableStores` says of it.
 */
module PrismApiStateStores {
  import opened Common
  import opened Subtasks
  import opened JoinProtocol
  import opened Plans
  import opened Runtime
  import opened MemoryStores
  import opened DurableStores

  /** The transport to durable memory, which outlives every process. */
  class DurableMemory {
    var records: map<RunId, Records>

    constructor ()
      ensures records == map[]
    {
      records := map[];
    }

    method PutMemory(run: RunId, id: MemoryId, record: Record)
      modifies this
      ensures records == Put(old(records), run, id, record)
    {
      records := Put(records, run, id, record);
    }

    method FetchRunState(run: RunId) returns (r: Records)
      ensures r == RecordsOf(records, run)
    {
      r := RecordsOf(records, run);
    }
  }

  class PrismApiStateStore {
    const fallback: MemoryStateStore
    const memory: DurableMemory
    var idempotencyLocations: map<string, RunId>

    ghost predicate Valid()
      reads this, fallback, memory
    {
      fallback.Valid() && DurableOk(memory.records)
    }

    ghost function View(): Cold
      reads this, fallback, memory
    {
      Cold(memory.records, fallback.View([], multiset{}, multiset{}), idempotencyLocations)
    }

    /** A new process over memory that others left behind. */
    constructor (memory: DurableMemory)
      requires DurableOk(memory.records)
      ensures Valid() && fresh(fallback) && this.memory == memory
      ensures View() == Cold(memory.records, EMPTY_STORE, map[])
    {
      fallback := new MemoryStateStore();
      this.memory := memory;
      idempotencyLocations := map[];
    }

    /** `_remember_plan_idempotency`: one entry per action. */
    method RememberPlanIdempotency(p: AgentPlan)
      modifies this
      ensures idempotencyLocations == Remembered(old(idempotencyLocations), PlanKeys(p), p.planId)
      ensures forall i :: 0 <= i < |p.actions| ==>
                p.actions[i].idempotencyKey in idempotencyLocations && idempotencyLocations[p.actions[i].idempotencyKey] == p.planId
    {
      ghost var keys: set<string> := {};
      for i := 0 to |p.actions|
        invariant keys == set j | 0 <= j < i :: p.actions[j].idempotencyKey
        invariant idempotencyLocations == Remembered(old(idempotencyLocations), keys, p.planId)
      {
        RememberedMore(old(idempotencyLocations), keys, p.planId, p.actions[i].idempotencyKey);
        idempotencyLocations := idempotencyLocations[p.actions[i].idempotencyKey := p.planId];
        keys := keys + {p.actions[i].idempotencyKey};
        hide Remembered;
      }
      assert keys == PlanKeys(p);
    }

    /** The body of the loop of `_load_state_memories`. */
    method AbsorbMemory(run: RunId, record: Record)
      requires Valid() && (record.GraphRecord? ==> record.graph.WellFormed())
      modifies this, fallback
      ensures Valid() && View() == Absorb(old(View()), run, record)
    {
      hide Remembered, PlanKeys, TaskGraph.WellFormed, RecordsOk;
      match record
      case PlanRecord(p) =>
        fallback.SavePlan(p);
        RememberPlanIdempotency(p);
      case GraphRecord(g) =>
        fallback.SaveTaskGraph(g);
      case ResultRecord(r, result) =>
        fallback.SaveSubAgentResult(if r.id == "" then run else r, result);
      case KeyRecord(k) =>
        fallback.RecordIdempotencyKey(k);
        idempotencyLocations := idempotencyLocations[k := run];
      case Foreign(_) =>
    }

    /** `_load_state_memories`, whatever the order in which the memories are listed. */
    method LoadStateMemories(run: RunId)
      requires Valid()
      modifies this, fallback
      ensures Valid() && View() == Load(old(View()), run) && memory.records == old(memory.records)
    {
      hide Overlay, Absorb, Placed;
      var memories := memory.FetchRunState(run);
      assert RecordsOk(run, memories);
      var left := memories.Keys;
      OverlayNothing(View(), run);
      while left != {}
        invariant Valid() && left <= memories.Keys && memory.records == old(memory.records)
        invariant View() == Overlay(old(View()), run, memories - left)
        decreases |left|
      {
        var id :| id in left;
        WellPlaced(run, id, memories[id]);
        AbsorbMemory(run, memories[id]);
        AbsorbExtends(old(View()), run, memories - left, id, memories[id]);
        assert (memories - left)[id := memories[id]] == memories - (left - {id});
        left := left - {id};
      }
      assert memories - left == memories;
    }

    method SavePlan(p: AgentPlan)
      requires Valid()
      modifies this, fallback, memory
      ensures Valid() && View() == Durably(old(View()), Request.SavePlan(p)).0
      ensures forall i :: 0 <= i < |p.actions| ==>
                p.actions[i].idempotencyKey in idempotencyLocations && idempotencyLocations[p.actions[i].idempotencyKey] == p.planId
    {
      hide Put, Remembered, PlanKeys;
      PutPlaced(memory.records, p.planId, PlanMemory, PlanRecord(p));
      fallback.SavePlan(p);
      RememberPlanIdempotency(p);
      memory.PutMemory(p.planId, PlanMemory, PlanRecord(p));
    }

    method GetPlan(id: RunId) returns (r: Option<AgentPlan>)
      requires Valid()
      modifies this, fallback
      ensures Valid() && (View(), ThePlan(r)) == Durably(old(View()), Request.GetPlan(id))
      ensures PlanIn(old(memory.records), id).Some? ==>
                forall i :: 0 <= i < |PlanIn(old(memory.records), id).value.actions| ==>
                  var key := PlanIn(old(memory.records), id).value.actions[i].idempotencyKey;
                  key in idempotencyLocations && idempotencyLocations[key] == id
    {
      hide Load, PlanIn;
      ghost var before, stored := View(), PlanIn(memory.records, id);
      LoadStateMemories(id);
      r := fallback.GetPlan(id);
      if stored.Some? {
        forall i | 0 <= i < |stored.value.actions|
          ensures stored.value.actions[i].idempotencyKey in idempotencyLocations && idempotencyLocations[stored.value.actions[i].idempotencyKey] == id
        {
          StoredPlanLocatesKeys(before, id, i);
        }
      }
    }

    method SaveTaskGraph(g: TaskGraph)
      requires Valid() && g.WellFormed()
      modifies fallback, memory
      ensures Valid() && View() == SaveGraphTo(old(View()), g)
    {
      hide Put, TaskGraph.WellFormed;
      PutPlaced(memory.records, g.planId, GraphMemory, GraphRecord(g));
      fallback.SaveTaskGraph(g);
      memory.PutMemory(g.planId, GraphMemory, GraphRecord(g));
    }

    method GetTaskGraph(run: RunId) returns (r: Option<TaskGraph>)
      requires Valid()
      modifies this, fallback
      ensures Valid() && (View(), TheGraph(r)) == Durably(old(View()), Request.GetTaskGraph(run))
      ensures memory.records == old(memory.records)
      ensures r.Some? ==> r.value.WellFormed() && r.value.planId == run
    {
      hide Load, TaskGraph.WellFormed;
      LoadStateMemories(run);
      r := fallback.GetTaskGraph(run);
    }

    method SaveSubAgentResult(run: RunId, result: SubAgentResult)
      requires Valid()
      modifies fallback, memory
      ensures Valid() && View() == Durably(old(View()), SaveResult(run, result)).0
    {
      hide Put;
      PutPlaced(memory.records, run, ResultMemory(result.nodeId), ResultRecord(run, result));
      fallback.SaveSubAgentResult(run, result);
      memory.PutMemory(run, ResultMemory(result.nodeId), ResultRecord(run, result));
    }

    method GetSubAgentResults(run: RunId) returns (r: map<string, SubAgentResult>)
      requires Valid()
      modifies this, fallback
      ensures Valid() && (View(), TheResults(r)) == Durably(old(View()), GetResults(run))
    {
      hide Load;
      LoadStateMemories(run);
      r := fallback.GetSubAgentResults(run);
    }

    /** Read, claim, and write back only if something was claimed. */
    method ClaimReadyNodes(run: RunId) returns (claimed: seq<SubTask>)
      requires Valid()
      modifies this, fallback, memory
      ensures Valid() && (View(), TheNodes(claimed)) == Durably(old(View()), Request.ClaimReadyNodes(run))
    {
      hide Load, SaveGraphTo, TaskGraph.Claimed, TaskGraph.WellFormed, TaskGraph.Bumped;
      var graph := GetTaskGraph(run);
      if graph.None? {
        return [];
      }
      ClaimsAgree(graph.value, graph.value);
      var after: TaskGraph;
      after, claimed := graph.value.ClaimReady();
      if claimed != [] {
        SaveTaskGraph(after.Bumped());
      }
    }

    /** Read, advance, and write back unless the advance was a duplicate. */
    method AdvanceTaskGraph(run: RunId, nodeId: string, status: SubTaskStatus) returns (r: Option<Advance>)
      requires Valid() && Terminal(status)
      modifies this, fallback, memory
      ensures Valid() && (View(), TheAdvance(r)) == Durably(old(View()), Request.AdvanceTaskGraph(run, nodeId, status))
    {
      hide Load, SaveGraphTo, TaskGraph.Advanced, TaskGraph.WellFormed, TaskGraph.Bumped;
      var graph := GetTaskGraph(run);
      if graph.None? {
        return None;
      }
      AdvancesAgree(graph.value, graph.value, nodeId, status);
      var a := graph.value.PlanAdvance(nodeId, status);
      if !a.alreadyProcessed {
        SaveTaskGraph(a.graph.Bumped());
      }
      r := Some(a);
    }

    /** The cache first, then the memories of the run that the key is located in. */
    method CheckIdempotencyKey(key: string) returns (r: bool)
      requires Valid()
      modifies this, fallback
      ensures Valid() && (View(), Recorded(r)) == Durably(old(View()), CheckKey(key))
    {
      hide Load;
      r := fallback.CheckIdempotencyKey(key);
      if r || key !in idempotencyLocations {
        return;
      }
      var run := KeyRun(idempotencyLocations[key], key);
      if run.None? {
        return;
      }
      LoadStateMemories(run.value);
      r := fallback.CheckIdempotencyKey(key);
    }

    /** The cache, and durable memory if the key's location is known. */
    method RecordIdempotencyKey(key: string)
      requires Valid()
      modifies fallback, memory
      ensures Valid() && View() == Durably(old(View()), RecordKey(key)).0
    {
      hide Put;
      fallback.RecordIdempotencyKey(key);
      if key !in idempotencyLocations {
        return;
      }
      var run := KeyRun(idempotencyLocations[key], key);
      if run.None? {
        return;
      }
      PutPlaced(memory.records, run.value, KeyMemory(key), KeyRecord(key));
      memory.PutMemory(run.value, KeyMemory(key), KeyRecord(key));
    }
  }

  lemma RememberedMore(locations: map<string, RunId>, keys: set<string>, run: RunId, key: string)
    ensures Remembered(locations, keys, run)[key := run] == Remembered(locations, keys + {key}, run)
  {
  }

  lemma OverlayNothing(c: Cold, run: RunId)
    ensures Overlay(c, run, map[]) == c
    ensures forall recs: Records :: recs - recs.Keys == map[]
  {
    assert ResultsIn(map[]) == map[];
    assert KeysIn(map[]) == {} && PlanKeysIn(map[]) == {};
    assert c.cache.keys + {} == c.cache.keys;
    assert Remembered(c.locations, {}, run) == c.locations;
  }

  lemma WellPlaced(run: RunId, id: MemoryId, record: Record)
    requires Placed(run, id, record)
    ensures record.GraphRecord? ==> record.graph.WellFormed()
  {
  }

  lemma PutPlaced(d: map<RunId, Records>, run: RunId, id: MemoryId, record: Record)
    requires DurableOk(d) && Placed(run, id, record)
    ensures DurableOk(Put(d, run, id, record))
  {
    PutFacts(d, run, id, record);
    hide Put, Placed;
  }
}
