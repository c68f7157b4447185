/**
  The durable store (src/infrastructure/state/prism_api_state_store.py): an in-memory store used as a
  cache over durable memory, kept by (workspace, run, memory id). Each process starts with an empty
  cache. A series of such processes, one after the other, is proved to answer as a single in-memory
  store would. The durable memory delivers memories only, no action or run records.
 */
module DurableStores {
  import opened Common
  import opened Subtasks
  import opened JoinProtocol
  import opened Plans
  import opened Runtime
  import opened MemoryStores

  // ---------------------------------------------------------------------
  // Durable memory
  // ---------------------------------------------------------------------

  /** What one memory holds, decoded; `Foreign` is anything that is not a state record. */
  datatype Record =
    | PlanRecord(plan: AgentPlan)
    | GraphRecord(graph: TaskGraph)
    | ResultRecord(run: RunId, result: SubAgentResult)
    | KeyRecord(key: string)
    | Foreign(content: string)

  /** The id of a memory, from what it is built of. */
  datatype MemoryId = PlanMemory | GraphMemory | ResultMemory(nodeId: string) | KeyMemory(key: string) | ForeignMemory(id: string)

  type Records = map<MemoryId, Record>

  function RecordsOf(d: map<RunId, Records>, run: RunId): Records {
    if run in d then d[run] else map[]
  }

  function Put(d: map<RunId, Records>, run: RunId, id: MemoryId, record: Record): map<RunId, Records> {
    d[run := RecordsOf(d, run)[id := record]]
  }

  /** The record under `id` is of the kind and of the run that the id says. */
  ghost predicate Placed(run: RunId, id: MemoryId, record: Record) {
    match id
    case PlanMemory => record.PlanRecord? && record.plan.planId == run
    case GraphMemory => record.GraphRecord? && record.graph.planId == run && record.graph.WellFormed()
    case ResultMemory(n) => record.ResultRecord? && record.run == run && record.result.nodeId == n
    case KeyMemory(k) => record == KeyRecord(k)
    case ForeignMemory(_) => record.Foreign?
  }

  ghost predicate RecordsOk(run: RunId, recs: Records) {
    forall id :: id in recs ==> Placed(run, id, recs[id])
  }

  ghost predicate DurableOk(d: map<RunId, Records>) {
    forall run :: RecordsOk(run, RecordsOf(d, run))
  }

  /** Durable memory, the cache of the process at hand, and where that process believes keys to be recorded. */
  datatype Cold = Cold(durable: map<RunId, Records>, cache: Store, locations: map<string, RunId>)

  // ---------------------------------------------------------------------
  // Loading
  // ---------------------------------------------------------------------

  function PlanKeys(p: AgentPlan): (r: set<string>)
    ensures forall i :: 0 <= i < |p.actions| ==> p.actions[i].idempotencyKey in r
    ensures forall k :: k in r ==> exists i :: 0 <= i < |p.actions| && p.actions[i].idempotencyKey == k
  {
    set i | 0 <= i < |p.actions| :: p.actions[i].idempotencyKey
  }

  /** `_remember_plan_idempotency`. */
  function Remembered(locations: map<string, RunId>, keys: set<string>, run: RunId): map<string, RunId> {
    locations + map k | k in keys :: run
  }

  /** One iteration of `_load_state_memories`: a record read for `run` goes into the cache. */
  function Absorb(c: Cold, run: RunId, record: Record): Cold {
    match record
    case PlanRecord(p) => c.(cache := c.cache.SavePlan(p), locations := Remembered(c.locations, PlanKeys(p), p.planId))
    case GraphRecord(g) => c.(cache := c.cache.SaveGraph(g))
    case ResultRecord(r, result) => c.(cache := c.cache.SaveSubAgentResult(if r.id == "" then run else r, result))
    case KeyRecord(k) => c.(cache := c.cache.RecordKey(k), locations := c.locations[k := run])
    case Foreign(_) => c
  }

  function ResultsIn(recs: Records): map<string, SubAgentResult> {
    map n | n in (set id | id in recs && id.ResultMemory? && recs[id].ResultRecord? :: id.nodeId) :: recs[ResultMemory(n)].result
  }

  function KeysIn(recs: Records): set<string> {
    set id | id in recs && id.KeyMemory? :: id.key
  }

  function PlanKeysIn(recs: Records): set<string> {
    if PlanMemory in recs && recs[PlanMemory].PlanRecord? then PlanKeys(recs[PlanMemory].plan) else {}
  }

  function ResultsOf(s: Store, run: RunId): map<string, SubAgentResult> {
    if run in s.subResults then s.subResults[run] else map[]
  }

  /** The cache with all records of a run in it, whatever the order they are listed in. */
  function Overlay(c: Cold, run: RunId, recs: Records): Cold {
    var plans := if PlanMemory in recs && recs[PlanMemory].PlanRecord? then c.cache.plans[run := recs[PlanMemory].plan] else c.cache.plans;
    var graphs := if GraphMemory in recs && recs[GraphMemory].GraphRecord? then c.cache.graphs[run := recs[GraphMemory].graph] else c.cache.graphs;
    var results := ResultsIn(recs);
    Cold(c.durable,
         c.cache.(plans := plans, graphs := graphs, keys := c.cache.keys + KeysIn(recs),
                  subResults := if results == map[] then c.cache.subResults else c.cache.subResults[run := ResultsOf(c.cache, run) + results]),
         Remembered(c.locations, PlanKeysIn(recs) + KeysIn(recs), run))
  }

  /** Absorbing one more record extends the overlay by it. */
  lemma AbsorbExtends(c: Cold, run: RunId, seen: Records, id: MemoryId, record: Record)
    requires RecordsOk(run, seen) && Placed(run, id, record) && id !in seen
    ensures Absorb(Overlay(c, run, seen), run, record) == Overlay(c, run, seen[id := record])
  {
    OtherRecords(seen, id, record);
    hide ResultsIn, KeysIn, PlanKeys, Remembered;
    match id
    case PlanMemory => AbsorbPlan(c, run, seen, record.plan);
    case GraphMemory =>
    case ResultMemory(n) => AbsorbResult(c, run, seen, n, record.result);
    case KeyMemory(k) => AbsorbKey(c, run, seen, k);
    case ForeignMemory(_) =>
  }

  lemma OtherRecords(recs: Records, id: MemoryId, record: Record)
    ensures !id.ResultMemory? ==> ResultsIn(recs[id := record]) == ResultsIn(recs)
    ensures !id.KeyMemory? ==> KeysIn(recs[id := record]) == KeysIn(recs)
  {
  }

  lemma AbsorbPlan(c: Cold, run: RunId, seen: Records, p: AgentPlan)
    requires PlanMemory !in seen && p.planId == run
    requires ResultsIn(seen[PlanMemory := PlanRecord(p)]) == ResultsIn(seen) && KeysIn(seen[PlanMemory := PlanRecord(p)]) == KeysIn(seen)
    ensures Absorb(Overlay(c, run, seen), run, PlanRecord(p)) == Overlay(c, run, seen[PlanMemory := PlanRecord(p)])
  {
    hide ResultsIn, KeysIn, PlanKeys, Remembered;
    assert PlanKeysIn(seen) == {};
    assert {} + KeysIn(seen) == KeysIn(seen);
    RememberedJoins(c.locations, KeysIn(seen), PlanKeys(p), run);
  }

  lemma RememberedJoins(locations: map<string, RunId>, before: set<string>, more: set<string>, run: RunId)
    ensures Remembered(Remembered(locations, before, run), more, run) == Remembered(locations, more + before, run)
  {
  }

  lemma AbsorbResult(c: Cold, run: RunId, seen: Records, n: string, result: SubAgentResult)
    requires ResultMemory(n) !in seen && result.nodeId == n
    requires KeysIn(seen[ResultMemory(n) := ResultRecord(run, result)]) == KeysIn(seen)
    ensures Absorb(Overlay(c, run, seen), run, ResultRecord(run, result)) == Overlay(c, run, seen[ResultMemory(n) := ResultRecord(run, result)])
  {
    hide ResultsIn, KeysIn, PlanKeys, Remembered;
    OneMoreResult(seen, run, n, result);
    var before := c.cache.subResults;
    var all, most := ResultsOf(c.cache, run), ResultsIn(seen);
    assert all + most[n := result] == (all + most)[n := result];
    assert most == map[] ==> all + most == all;
    assert most[n := result] != map[] by {
      assert n in most[n := result];
    }
    assert before[run := all + most][run := (all + most)[n := result]] == before[run := (all + most)[n := result]];
  }

  lemma OneMoreResult(seen: Records, run: RunId, n: string, result: SubAgentResult)
    ensures ResultsIn(seen[ResultMemory(n) := ResultRecord(run, result)]) == ResultsIn(seen)[n := result]
  {
  }

  lemma AbsorbKey(c: Cold, run: RunId, seen: Records, k: string)
    requires KeyMemory(k) !in seen
    requires ResultsIn(seen[KeyMemory(k) := KeyRecord(k)]) == ResultsIn(seen)
    ensures Absorb(Overlay(c, run, seen), run, KeyRecord(k)) == Overlay(c, run, seen[KeyMemory(k) := KeyRecord(k)])
  {
    hide ResultsIn, KeysIn, PlanKeys;
    OneMoreKey(seen, k);
    var keys := PlanKeysIn(seen) + KeysIn(seen);
    assert Remembered(c.locations, keys, run)[k := run] == Remembered(c.locations, keys + {k}, run);
    assert PlanKeysIn(seen) + (KeysIn(seen) + {k}) == keys + {k};
    assert c.cache.keys + KeysIn(seen) + {k} == c.cache.keys + (KeysIn(seen) + {k});
  }

  lemma OneMoreKey(seen: Records, k: string)
    ensures KeysIn(seen[KeyMemory(k) := KeyRecord(k)]) == KeysIn(seen) + {k}
    ensures PlanKeysIn(seen[KeyMemory(k) := KeyRecord(k)]) == PlanKeysIn(seen)
  {
  }

  function Load(c: Cold, run: RunId): Cold {
    Overlay(c, run, RecordsOf(c.durable, run))
  }

  // ---------------------------------------------------------------------
  // Operations of the durable store
  // ---------------------------------------------------------------------

  function Lookup<K, V>(m: map<K, V>, k: K): Option<V> {
    if k in m then Some(m[k]) else None
  }

  function SavePlanTo(c: Cold, p: AgentPlan): Cold {
    Cold(Put(c.durable, p.planId, PlanMemory, PlanRecord(p)), c.cache.SavePlan(p), Remembered(c.locations, PlanKeys(p), p.planId))
  }

  function SaveGraphTo(c: Cold, g: TaskGraph): Cold {
    c.(durable := Put(c.durable, g.planId, GraphMemory, GraphRecord(g)), cache := c.cache.SaveGraph(g))
  }

  function SaveResultTo(c: Cold, run: RunId, r: SubAgentResult): Cold {
    c.(durable := Put(c.durable, run, ResultMemory(r.nodeId), ResultRecord(run, r)), cache := c.cache.SaveSubAgentResult(run, r))
  }

  const FEATURE_PROVISIONING_IDEMPOTENCY_PREFIX := "feature_provisioning:"

  /** `_run_id_from_idempotency_key`. */
  function RunIdFromKey(key: string): Option<string> {
    if FEATURE_PROVISIONING_IDEMPOTENCY_PREFIX <= key then Some(key[|FEATURE_PROVISIONING_IDEMPOTENCY_PREFIX|..]) else None
  }

  /** The run under which a key with location `run` is looked up and recorded. */
  function KeyRun(run: RunId, key: string): Option<RunId> {
    if run.id != "" then Some(run)
    else if RunIdFromKey(key).Some? then Some(RunId(run.workspace, RunIdFromKey(key).value))
    else None
  }

  /**
    A key whose location has an empty run id: a provisioning key is recorded under the run that the key
    itself names, any other is not recorded beyond the process.
   */
  lemma UnnamedLocation(c: Cold, key: string, rest: string)
    requires key in c.locations && c.locations[key].id == ""
    ensures key == FEATURE_PROVISIONING_IDEMPOTENCY_PREFIX + rest ==>
              RecordKeyTo(c, key).durable == Put(c.durable, RunId(c.locations[key].workspace, rest), KeyMemory(key), KeyRecord(key))
    ensures !(FEATURE_PROVISIONING_IDEMPOTENCY_PREFIX <= key) ==> RecordKeyTo(c, key).durable == c.durable
  {
    assert key == FEATURE_PROVISIONING_IDEMPOTENCY_PREFIX + rest ==> key[|FEATURE_PROVISIONING_IDEMPOTENCY_PREFIX|..] == rest;
  }

  function RecordKeyTo(c: Cold, key: string): Cold {
    var d := c.(cache := c.cache.RecordKey(key));
    if key !in c.locations || KeyRun(c.locations[key], key).None? then d
    else d.(durable := Put(c.durable, KeyRun(c.locations[key], key).value, KeyMemory(key), KeyRecord(key)))
  }

  function CheckKeyIn(c: Cold, key: string): (Cold, bool) {
    if key in c.cache.keys then (c, true)
    else if key !in c.locations || KeyRun(c.locations[key], key).None? then (c, false)
    else
      var d := Load(c, KeyRun(c.locations[key], key).value);
      (d, key in d.cache.keys)
  }

  function ClaimIn(c: Cold, run: RunId): (Cold, seq<SubTask>) {
    var d := Load(c, run);
    if run !in d.cache.graphs then (d, [])
    else
      var a := d.cache.graphs[run].Claimed();
      (if a.newlyReady == [] then d else SaveGraphTo(d, a.graph.Bumped()), a.newlyReady)
  }

  function AdvanceIn(c: Cold, run: RunId, nodeId: string, status: SubTaskStatus): (Cold, Option<Advance>) {
    var d := Load(c, run);
    if run !in d.cache.graphs then (d, None)
    else
      var a := d.cache.graphs[run].Advanced(nodeId, status);
      (if a.alreadyProcessed then d else SaveGraphTo(d, a.graph.Bumped()), Some(a))
  }

  // ---------------------------------------------------------------------
  // One interface, two stores
  // ---------------------------------------------------------------------

  /** What callers ask of a store; `Restart` is the end of one process and the start of the next. */
  datatype Request =
    | SavePlan(plan: AgentPlan) | GetPlan(id: RunId)
    | SaveTaskGraph(graph: TaskGraph) | GetTaskGraph(run: RunId)
    | SaveResult(owner: RunId, result: SubAgentResult) | GetResults(of: RunId)
    | ClaimReadyNodes(claimed: RunId) | AdvanceTaskGraph(advanced: RunId, nodeId: string, status: SubTaskStatus)
    | CheckKey(checked: string) | RecordKey(recorded: string)
    | Restart

  datatype Answer =
    | Done | ThePlan(plan: Option<AgentPlan>) | TheGraph(graph: Option<TaskGraph>) | TheNodes(nodes: seq<SubTask>)
    | TheAdvance(advance: Option<Advance>) | TheResults(results: map<string, SubAgentResult>) | Recorded(yes: bool)

  /** The in-memory store; it lives as long as the series. */
  function Plainly(s: Store, op: Request): (Store, Answer) {
    match op
    case SavePlan(p) => (s.SavePlan(p), Done)
    case GetPlan(id) => (s, ThePlan(Lookup(s.plans, id)))
    case SaveTaskGraph(g) => (s.SaveGraph(g), Done)
    case GetTaskGraph(run) => (s, TheGraph(Lookup(s.graphs, run)))
    case SaveResult(run, r) => (s.SaveSubAgentResult(run, r), Done)
    case GetResults(run) => (s, TheResults(ResultsOf(s, run)))
    case ClaimReadyNodes(run) =>
      if run !in s.graphs then (s, TheNodes([]))
      else (s.SaveGraph(s.graphs[run].Claimed().graph), TheNodes(s.graphs[run].Claimed().newlyReady))
    case AdvanceTaskGraph(run, nodeId, status) =>
      if run !in s.graphs then (s, TheAdvance(None))
      else (s.SaveGraph(s.graphs[run].Advanced(nodeId, status).graph), TheAdvance(Some(s.graphs[run].Advanced(nodeId, status))))
    case CheckKey(k) => (s, Recorded(k in s.keys))
    case RecordKey(k) => (s.RecordKey(k), Done)
    case Restart => (s, Done)
  }

  /** The durable store; a restart loses cache and locations. */
  function Durably(c: Cold, op: Request): (Cold, Answer) {
    match op
    case SavePlan(p) => (SavePlanTo(c, p), Done)
    case GetPlan(id) => (Load(c, id), ThePlan(Lookup(Load(c, id).cache.plans, id)))
    case SaveTaskGraph(g) => (SaveGraphTo(c, g), Done)
    case GetTaskGraph(run) => (Load(c, run), TheGraph(Lookup(Load(c, run).cache.graphs, run)))
    case SaveResult(run, r) => (SaveResultTo(c, run, r), Done)
    case GetResults(run) => (Load(c, run), TheResults(ResultsOf(Load(c, run).cache, run)))
    case ClaimReadyNodes(run) => (ClaimIn(c, run).0, TheNodes(ClaimIn(c, run).1))
    case AdvanceTaskGraph(run, nodeId, status) => (AdvanceIn(c, run, nodeId, status).0, TheAdvance(AdvanceIn(c, run, nodeId, status).1))
    case CheckKey(k) => (CheckKeyIn(c, k).0, Recorded(CheckKeyIn(c, k).1))
    case RecordKey(k) => (RecordKeyTo(c, k), Done)
    case Restart => (Cold(c.durable, EMPTY_STORE, map[]), Done)
  }

  /** An answer without the version of any graph in it. */
  function Unversioned(a: Answer): Answer {
    match a
    case TheGraph(Some(g)) => TheGraph(Some(g.(version := 0)))
    case TheAdvance(Some(x)) => TheAdvance(Some(x.(graph := x.graph.(version := 0))))
    case _ => a
  }

  // ---------------------------------------------------------------------
  // The refinement
  // ---------------------------------------------------------------------

  function PlanIn(d: map<RunId, Records>, run: RunId): Option<AgentPlan> {
    var recs := RecordsOf(d, run);
    if PlanMemory in recs && recs[PlanMemory].PlanRecord? then Some(recs[PlanMemory].plan) else None
  }

  function GraphIn(d: map<RunId, Records>, run: RunId): Option<TaskGraph> {
    var recs := RecordsOf(d, run);
    if GraphMemory in recs && recs[GraphMemory].GraphRecord? then Some(recs[GraphMemory].graph) else None
  }

  predicate KeyIn(d: map<RunId, Records>, run: RunId, key: string) {
    KeyMemory(key) in RecordsOf(d, run)
  }

  function Versionless(g: Option<TaskGraph>): Option<TaskGraph> {
    if g.Some? then Some(g.value.(version := 0)) else None
  }

  /** Each key belongs to one plan. */
  ghost predicate Owned(p: AgentPlan, owner: string -> RunId) {
    forall i :: 0 <= i < |p.actions| ==> owner(p.actions[i].idempotencyKey) == p.planId
  }

  /** No plan that owns a key has an empty id. */
  ghost predicate Named(owner: string -> RunId) {
    forall k :: owner(k).id != ""
  }

  /** Durable memory holds what the in-memory store holds, and each key under the plan that owns it. */
  ghost predicate Holds(s: Store, d: map<RunId, Records>, owner: string -> RunId) {
    && DurableOk(d)
    && (forall run :: PlanIn(d, run) == Lookup(s.plans, run))
    && (forall run :: Versionless(GraphIn(d, run)) == Versionless(Lookup(s.graphs, run)))
    && (forall run :: ResultsIn(RecordsOf(d, run)) == ResultsOf(s, run))
    && (forall run, k :: KeyIn(d, run, k) <==> k in s.keys && owner(k) == run)
    && (forall run :: run in s.plans ==> Owned(s.plans[run], owner))
  }

  /** A cache never says anything that durable memory does not. */
  ghost predicate Faithful(c: Cold, owner: string -> RunId) {
    && (forall run :: run in c.cache.plans ==> PlanIn(c.durable, run) == Some(c.cache.plans[run]))
    && (forall run :: run in c.cache.graphs ==> GraphIn(c.durable, run) == Some(c.cache.graphs[run]))
    && (forall run :: run in c.cache.subResults ==> Agrees(c.cache.subResults[run], ResultsIn(RecordsOf(c.durable, run))))
    && (forall k :: k in c.cache.keys ==> KeyIn(c.durable, owner(k), k))
    && (forall k :: k in c.locations ==> c.locations[k] == owner(k))
  }

  predicate Agrees(part: map<string, SubAgentResult>, whole: map<string, SubAgentResult>) {
    forall n :: n in part ==> n in whole && part[n] == whole[n]
  }

  ghost predicate Simulates(s: Store, c: Cold, owner: string -> RunId) {
    Holds(s, c.durable, owner) && Faithful(c, owner)
  }

  /** What callers owe: plans have keys of their own, graphs unique ids, and keys are asked for only after their plan was read or saved. */
  ghost predicate Allowed(c: Cold, op: Request, owner: string -> RunId) {
    match op
    case SavePlan(p) => Owned(p, owner)
    case SaveTaskGraph(g) => g.WellFormed()
    case AdvanceTaskGraph(_, _, status) => Terminal(status)
    case CheckKey(k) => k in c.locations
    case RecordKey(k) => k in c.locations
    case _ => true
  }

  /** The keys in the records of a run are the recorded keys that the run owns. */
  lemma KeysOfRun(s: Store, d: map<RunId, Records>, owner: string -> RunId, run: RunId)
    requires Holds(s, d, owner)
    ensures forall k :: k in KeysIn(RecordsOf(d, run)) <==> k in s.keys && owner(k) == run
  {
    var recs := RecordsOf(d, run);
    forall k ensures k in KeysIn(recs) <==> k in s.keys && owner(k) == run {
      assert KeyIn(d, run, k) <==> KeyMemory(k) in recs;
    }
  }

  lemma LoadedKeys(s: Store, c: Cold, owner: string -> RunId, run: RunId)
    requires Holds(s, c.durable, owner) && Faithful(c, owner)
    ensures var d := Load(c, run);
            && (forall k :: k in d.cache.keys ==> KeyIn(c.durable, owner(k), k))
            && (forall k :: owner(k) == run ==> (k in d.cache.keys <==> k in s.keys))
  {
    KeysOfRun(s, c.durable, owner, run);
    forall k | k in c.cache.keys ensures k in s.keys {
      assert KeyIn(c.durable, owner(k), k);
    }
    hide ResultsIn, KeysIn, PlanKeys, Remembered, RecordsOk;
  }

  lemma LoadedLocations(s: Store, c: Cold, owner: string -> RunId, run: RunId)
    requires Holds(s, c.durable, owner) && Faithful(c, owner)
    ensures var d := Load(c, run);
            && (forall k :: k in d.locations ==> d.locations[k] == owner(k))
            && (forall k :: run in s.plans && k in PlanKeys(s.plans[run]) ==> k in d.locations)
            && (forall k :: k in c.locations ==> k in d.locations)
  {
    KeysOfRun(s, c.durable, owner, run);
    assert PlanIn(c.durable, run) == Lookup(s.plans, run);
    hide ResultsIn, KeysIn, PlanKeys, RecordsOk;
  }

  lemma LoadedResults(c: Cold, run: RunId)
    requires run in c.cache.subResults ==> Agrees(c.cache.subResults[run], ResultsIn(RecordsOf(c.durable, run)))
    ensures ResultsOf(Load(c, run).cache, run) == ResultsIn(RecordsOf(c.durable, run))
    ensures forall other :: other != run ==> Lookup(Load(c, run).cache.subResults, other) == Lookup(c.cache.subResults, other)
    ensures Load(c, run).durable == c.durable
  {
    hide KeysIn, PlanKeys, Remembered;
  }

  lemma LoadedPlans(c: Cold, run: RunId)
    requires DurableOk(c.durable)
    requires forall r :: r in c.cache.plans ==> PlanIn(c.durable, r) == Some(c.cache.plans[r])
    requires forall r :: r in c.cache.graphs ==> GraphIn(c.durable, r) == Some(c.cache.graphs[r])
    ensures var d := Load(c, run);
            && Lookup(d.cache.plans, run) == PlanIn(c.durable, run)
            && Lookup(d.cache.graphs, run) == GraphIn(c.durable, run)
            && (forall r :: r in d.cache.plans ==> PlanIn(c.durable, r) == Some(d.cache.plans[r]))
            && (forall r :: r in d.cache.graphs ==> GraphIn(c.durable, r) == Some(d.cache.graphs[r]))
  {
    hide KeysIn, PlanKeys, Remembered, ResultsIn;
    assert RecordsOk(run, RecordsOf(c.durable, run));
  }

  /** Loading a run leaves the cache faithful, and complete for that run. */
  lemma LoadIsComplete(s: Store, c: Cold, owner: string -> RunId, run: RunId)
    requires Simulates(s, c, owner)
    ensures var d := Load(c, run);
            && Simulates(s, d, owner) && d.durable == c.durable
            && Lookup(d.cache.plans, run) == Lookup(s.plans, run)
            && Lookup(d.cache.graphs, run) == GraphIn(c.durable, run)
            && ResultsOf(d.cache, run) == ResultsOf(s, run)
            && (forall k :: owner(k) == run ==> (k in d.cache.keys <==> k in s.keys))
            && (forall k :: run in s.plans && k in PlanKeys(s.plans[run]) ==> k in d.locations)
            && (forall k :: k in c.locations ==> k in d.locations)
  {
    hide ResultsIn, KeysIn, PlanKeys, Remembered, DurableOk, KeyIn, PlanIn, GraphIn, Agrees, Owned, Overlay;
    LoadedPlans(c, run);
    LoadedResults(c, run);
    LoadedKeys(s, c, owner, run);
    LoadedLocations(s, c, owner, run);
    assert PlanIn(c.durable, run) == Lookup(s.plans, run);
    assert ResultsIn(RecordsOf(c.durable, run)) == ResultsOf(s, run);
    var d := Load(c, run);
    forall r | r in d.cache.subResults ensures Agrees(d.cache.subResults[r], ResultsIn(RecordsOf(d.durable, r))) {
      assert r != run ==> Lookup(d.cache.subResults, r) == Lookup(c.cache.subResults, r);
      AgreesSelf(ResultsIn(RecordsOf(c.durable, r)));
    }
  }

  lemma AgreesSelf(m: map<string, SubAgentResult>)
    ensures Agrees(m, m)
  {
  }

  // ---------------------------------------------------------------------
  // Saving
  // ---------------------------------------------------------------------

  /** What is read of run `r` after a memory was put for `run`. */
  lemma PutAt(d: map<RunId, Records>, run: RunId, id: MemoryId, record: Record, r: RunId)
    requires Placed(run, id, record)
    ensures var e := Put(d, run, id, record);
            && PlanIn(e, r) == (if r == run && id.PlanMemory? then Some(record.plan) else PlanIn(d, r))
            && GraphIn(e, r) == (if r == run && id.GraphMemory? then Some(record.graph) else GraphIn(d, r))
            && (RecordsOk(r, RecordsOf(d, r)) ==> RecordsOk(r, RecordsOf(e, r)))
  {
  }

  lemma PutResultAt(d: map<RunId, Records>, run: RunId, id: MemoryId, record: Record, r: RunId)
    requires Placed(run, id, record)
    ensures var e := Put(d, run, id, record);
            ResultsIn(RecordsOf(e, r)) == if r == run && id.ResultMemory? then ResultsIn(RecordsOf(d, r))[id.nodeId := record.result]
                                          else ResultsIn(RecordsOf(d, r))
  {
    var e := Put(d, run, id, record);
    if r == run {
      assert RecordsOf(e, r) == RecordsOf(d, r)[id := record];
      if !id.ResultMemory? {
        OtherRecords(RecordsOf(d, r), id, record);
      } else {
        OneMoreResult(RecordsOf(d, r), run, id.nodeId, record.result);
      }
    }
    hide ResultsIn;
  }

  /** All that a put changes. */
  lemma PutFacts(d: map<RunId, Records>, run: RunId, id: MemoryId, record: Record)
    requires DurableOk(d) && Placed(run, id, record)
    ensures var e := Put(d, run, id, record);
            && DurableOk(e)
            && (forall r :: PlanIn(e, r) == if r == run && id.PlanMemory? then Some(record.plan) else PlanIn(d, r))
            && (forall r :: GraphIn(e, r) == if r == run && id.GraphMemory? then Some(record.graph) else GraphIn(d, r))
            && (forall r :: ResultsIn(RecordsOf(e, r)) == if r == run && id.ResultMemory?
                then ResultsIn(RecordsOf(d, r))[id.nodeId := record.result] else ResultsIn(RecordsOf(d, r)))
            && (forall r, k :: KeyIn(e, r, k) <==> KeyIn(d, r, k) || (r == run && id == KeyMemory(k)))
  {
    hide PlanIn, GraphIn, ResultsIn, RecordsOk;
    forall r
      ensures var e := Put(d, run, id, record);
              && RecordsOk(r, RecordsOf(e, r))
              && PlanIn(e, r) == (if r == run && id.PlanMemory? then Some(record.plan) else PlanIn(d, r))
              && GraphIn(e, r) == (if r == run && id.GraphMemory? then Some(record.graph) else GraphIn(d, r))
              && ResultsIn(RecordsOf(e, r)) == if r == run && id.ResultMemory?
                 then ResultsIn(RecordsOf(d, r))[id.nodeId := record.result] else ResultsIn(RecordsOf(d, r))
    {
      PutAt(d, run, id, record, r);
      PutResultAt(d, run, id, record, r);
    }
  }

  lemma SavePlanSimulates(s: Store, c: Cold, owner: string -> RunId, p: AgentPlan)
    requires Simulates(s, c, owner) && Owned(p, owner)
    ensures Simulates(s.SavePlan(p), SavePlanTo(c, p), owner)
  {
    hide Put, Owned;
    SavePlanHolds(s, c.durable, owner, p);
    SavePlanFaithful(c, owner, p);
    hide Holds, Faithful;
  }

  lemma SavePlanHolds(s: Store, d: map<RunId, Records>, owner: string -> RunId, p: AgentPlan)
    requires Holds(s, d, owner) && Owned(p, owner)
    ensures Holds(s.SavePlan(p), Put(d, p.planId, PlanMemory, PlanRecord(p)), owner)
  {
    hide Put, RecordsOf, ResultsIn, PlanIn, GraphIn, KeyIn, DurableOk, Owned;
    PutFacts(d, p.planId, PlanMemory, PlanRecord(p));
  }

  lemma SavePlanFaithful(c: Cold, owner: string -> RunId, p: AgentPlan)
    requires DurableOk(c.durable) && Faithful(c, owner) && Owned(p, owner)
    ensures Faithful(SavePlanTo(c, p), owner)
  {
    hide Put, RecordsOf, ResultsIn, PlanIn, GraphIn, KeyIn, DurableOk, PlanKeys, Agrees;
    PutFacts(c.durable, p.planId, PlanMemory, PlanRecord(p));
  }

  /** Saving a graph that differs from what the in-memory store saves in its version only. */
  lemma SaveGraphSimulates(s: Store, c: Cold, owner: string -> RunId, g: TaskGraph, h: TaskGraph)
    requires Simulates(s, c, owner) && g.WellFormed() && g.(version := 0) == h.(version := 0)
    ensures Simulates(s.SaveGraph(h), SaveGraphTo(c, g), owner)
  {
    hide Put, TaskGraph.WellFormed;
    SaveGraphHolds(s, c.durable, owner, g, h);
    SaveGraphFaithful(c, owner, g);
    hide Holds, Faithful;
  }

  lemma SaveGraphHolds(s: Store, d: map<RunId, Records>, owner: string -> RunId, g: TaskGraph, h: TaskGraph)
    requires Holds(s, d, owner) && g.WellFormed() && g.(version := 0) == h.(version := 0)
    ensures Holds(s.SaveGraph(h), Put(d, g.planId, GraphMemory, GraphRecord(g)), owner)
  {
    hide Put, RecordsOf, ResultsIn, PlanIn, GraphIn, KeyIn, DurableOk, Owned, TaskGraph.WellFormed;
    PutFacts(d, g.planId, GraphMemory, GraphRecord(g));
    assert g.planId == g.(version := 0).planId == h.(version := 0).planId == h.planId;
  }

  lemma SaveGraphFaithful(c: Cold, owner: string -> RunId, g: TaskGraph)
    requires DurableOk(c.durable) && Faithful(c, owner) && g.WellFormed()
    ensures Faithful(SaveGraphTo(c, g), owner)
  {
    hide Put, RecordsOf, ResultsIn, PlanIn, GraphIn, KeyIn, DurableOk, TaskGraph.WellFormed, Agrees;
    PutFacts(c.durable, g.planId, GraphMemory, GraphRecord(g));
  }

  lemma SaveResultSimulates(s: Store, c: Cold, owner: string -> RunId, run: RunId, result: SubAgentResult)
    requires Simulates(s, c, owner)
    ensures Simulates(s.SaveSubAgentResult(run, result), SaveResultTo(c, run, result), owner)
  {
    hide Put;
    SaveResultHolds(s, c.durable, owner, run, result);
    SaveResultFaithful(c, owner, run, result);
    hide Holds, Faithful;
  }

  lemma SaveResultHolds(s: Store, d: map<RunId, Records>, owner: string -> RunId, run: RunId, result: SubAgentResult)
    requires Holds(s, d, owner)
    ensures Holds(s.SaveSubAgentResult(run, result), Put(d, run, ResultMemory(result.nodeId), ResultRecord(run, result)), owner)
  {
    hide Put, RecordsOf, ResultsIn, PlanIn, GraphIn, KeyIn, DurableOk, Owned;
    PutFacts(d, run, ResultMemory(result.nodeId), ResultRecord(run, result));
    var e, t := Put(d, run, ResultMemory(result.nodeId), ResultRecord(run, result)), s.SaveSubAgentResult(run, result);
    forall r ensures ResultsIn(RecordsOf(e, r)) == ResultsOf(t, r) {
      assert ResultsIn(RecordsOf(d, r)) == ResultsOf(s, r);
    }
  }

  lemma SaveResultFaithful(c: Cold, owner: string -> RunId, run: RunId, result: SubAgentResult)
    requires DurableOk(c.durable) && Faithful(c, owner)
    ensures Faithful(SaveResultTo(c, run, result), owner)
  {
    hide Put, RecordsOf, ResultsIn, PlanIn, GraphIn, KeyIn, DurableOk, Agrees;
    PutFacts(c.durable, run, ResultMemory(result.nodeId), ResultRecord(run, result));
    var d := SaveResultTo(c, run, result);
    forall r | r in d.cache.subResults ensures Agrees(d.cache.subResults[r], ResultsIn(RecordsOf(d.durable, r))) {
      AgreesMore(ResultsOf(c.cache, r), ResultsIn(RecordsOf(c.durable, r)), result);
    }
  }

  lemma AgreesMore(part: map<string, SubAgentResult>, whole: map<string, SubAgentResult>, result: SubAgentResult)
    ensures part == map[] || Agrees(part, whole) ==> Agrees(part[result.nodeId := result], whole[result.nodeId := result])
  {
  }

  lemma RecordKeySimulates(s: Store, c: Cold, owner: string -> RunId, key: string)
    requires Simulates(s, c, owner) && key in c.locations && Named(owner)
    ensures Simulates(s.RecordKey(key), RecordKeyTo(c, key), owner)
  {
    hide Put, RecordsOf, ResultsIn, PlanIn, GraphIn, KeyIn, PlanKeys, DurableOk, Owned;
    PutFacts(c.durable, owner(key), KeyMemory(key), KeyRecord(key));
  }

  // ---------------------------------------------------------------------
  // Claims and advances
  // ---------------------------------------------------------------------

  /** Versions play no part in what a claim or an advance does. */
  lemma VersionIsInert(g: TaskGraph, v: nat, id: string, status: SubTaskStatus)
    ensures g.(version := v).Claimed() == g.Claimed().(graph := g.Claimed().graph.(version := v))
    ensures g.(version := v).Advanced(id, status) == g.Advanced(id, status).(graph := g.Advanced(id, status).graph.(version := v))
  {
    hide Marked, Runnable, Find, Ids, TaskGraph.Joined;
    var h := g.(version := v);
    assert h.Claimed() == g.Claimed().(graph := g.Claimed().graph.(version := v));
    var marked := g.WithNodeStatus(id, status);
    assert h.WithNodeStatus(id, status) == marked.(version := v);
    JoinIsInert(marked, v);
    hide TaskGraph.WithNodeStatus, TaskGraph.Claimed;
  }

  lemma JoinIsInert(g: TaskGraph, v: nat)
    ensures g.(version := v).Joined() == g.Joined().(graph := g.Joined().graph.(version := v))
  {
    hide Marked, Runnable, Ids;
  }

  /** A claim that hands nothing out, and a duplicate advance, leave the graph as it is. */
  lemma NothingNew(g: TaskGraph, id: string, status: SubTaskStatus)
    ensures g.Claimed().newlyReady == [] ==> g.Claimed().graph == g
    ensures g.Advanced(id, status).alreadyProcessed ==> g.Advanced(id, status).graph == g
  {
    hide Runnable, Find;
    if g.Claimed().newlyReady == [] {
      assert g.ReadyNodes() == [];
      assert Marked(g.nodes, Ids([]), SubTaskStatus.Running) == g.nodes;
    }
    hide Marked;
  }

  lemma SameVersionless(g: TaskGraph, h: TaskGraph, id: string, status: SubTaskStatus)
    requires g.(version := 0) == h.(version := 0)
    ensures g.Claimed().newlyReady == h.Claimed().newlyReady
    ensures g.Claimed().graph.(version := 0) == h.Claimed().graph.(version := 0)
    ensures g.Advanced(id, status).(graph := g.Advanced(id, status).graph.(version := 0))
         == h.Advanced(id, status).(graph := h.Advanced(id, status).graph.(version := 0))
  {
    VersionIsInert(g, 0, id, status);
    VersionIsInert(h, 0, id, status);
    hide TaskGraph.Claimed, TaskGraph.Advanced;
  }

  /** What is saved after a claim differs from what the in-memory store saves in its version only. */
  lemma ClaimsAgree(g: TaskGraph, h: TaskGraph)
    requires g.WellFormed() && g.(version := 0) == h.(version := 0)
    ensures g.Claimed().newlyReady == h.Claimed().newlyReady
    ensures g.Claimed().graph.Bumped().WellFormed()
    ensures g.Claimed().graph.Bumped().(version := 0) == h.Claimed().graph.(version := 0)
    ensures h.Claimed().newlyReady == [] ==> h.Claimed().graph == h
  {
    hide TaskGraph.Claimed, TaskGraph.Advanced;
    SameVersionless(g, h, "", SubTaskStatus.Completed);
    NothingNew(h, "", SubTaskStatus.Completed);
    ClaimHandsOut(g);
  }

  lemma AdvancesAgree(g: TaskGraph, h: TaskGraph, id: string, status: SubTaskStatus)
    requires g.WellFormed() && g.(version := 0) == h.(version := 0) && Terminal(status)
    ensures var a, b := g.Advanced(id, status), h.Advanced(id, status);
            && a.graph.Bumped().WellFormed() && a.graph.Bumped().(version := 0) == b.graph.(version := 0)
            && a.(graph := a.graph.(version := 0)) == b.(graph := b.graph.(version := 0)) && a.alreadyProcessed == b.alreadyProcessed
            && (b.alreadyProcessed ==> b.graph == h)
  {
    hide TaskGraph.Claimed, TaskGraph.Advanced;
    SameVersionless(g, h, id, status);
    NothingNew(h, id, status);
    StepHandsOut(g, Settle(id, status));
    assert g.Advanced(id, status).(graph := g.Advanced(id, status).graph.(version := 0)).alreadyProcessed
        == h.Advanced(id, status).(graph := h.Advanced(id, status).graph.(version := 0)).alreadyProcessed;
  }

  lemma ClaimSimulates(s: Store, c: Cold, owner: string -> RunId, run: RunId)
    requires Simulates(s, c, owner)
    ensures Simulates(Plainly(s, ClaimReadyNodes(run)).0, ClaimIn(c, run).0, owner)
    ensures Plainly(s, ClaimReadyNodes(run)).1 == TheNodes(ClaimIn(c, run).1)
  {
    hide TaskGraph.Claimed, Load, Simulates, GraphIn, ResultsIn, PlanKeys, TaskGraph.WellFormed, SaveGraphTo, TaskGraph.Bumped;
    LoadIsComplete(s, c, owner, run);
    var d := Load(c, run);
    Loaded(s, d, owner, run);
    if run in s.graphs {
      var g, h := d.cache.graphs[run], s.graphs[run];
      ClaimsAgree(g, h);
      if h.Claimed().newlyReady == [] {
        assert s.SaveGraph(h) == s;
      } else {
        SaveGraphSimulates(s, d, owner, g.Claimed().graph.Bumped(), h.Claimed().graph);
      }
    }
  }

  lemma AdvanceSimulates(s: Store, c: Cold, owner: string -> RunId, run: RunId, nodeId: string, status: SubTaskStatus)
    requires Simulates(s, c, owner) && Terminal(status)
    ensures var op := AdvanceTaskGraph(run, nodeId, status);
            && Simulates(Plainly(s, op).0, AdvanceIn(c, run, nodeId, status).0, owner)
            && Unversioned(Plainly(s, op).1) == Unversioned(TheAdvance(AdvanceIn(c, run, nodeId, status).1))
  {
    hide TaskGraph.Advanced, Load, Simulates, GraphIn, ResultsIn, PlanKeys, TaskGraph.WellFormed, SaveGraphTo, TaskGraph.Bumped, Unversioned;
    LoadIsComplete(s, c, owner, run);
    var d := Load(c, run);
    Loaded(s, d, owner, run);
    if run in s.graphs {
      var g, h := d.cache.graphs[run], s.graphs[run];
      AdvancesAgree(g, h, nodeId, status);
      SameUnversioned(g.Advanced(nodeId, status), h.Advanced(nodeId, status));
      if h.Advanced(nodeId, status).alreadyProcessed {
        assert s.SaveGraph(h) == s;
      } else {
        SaveGraphSimulates(s, d, owner, g.Advanced(nodeId, status).graph.Bumped(), h.Advanced(nodeId, status).graph);
      }
    }
  }

  lemma SameUnversioned(a: Advance, b: Advance)
    requires a.(graph := a.graph.(version := 0)) == b.(graph := b.graph.(version := 0))
    ensures Unversioned(TheAdvance(Some(a))) == Unversioned(TheAdvance(Some(b)))
  {
  }

  /** A loaded graph is the in-memory one under another version. */
  lemma Loaded(s: Store, d: Cold, owner: string -> RunId, run: RunId)
    requires Simulates(s, d, owner) && Lookup(d.cache.graphs, run) == GraphIn(d.durable, run)
    ensures run in d.cache.graphs <==> run in s.graphs
    ensures run in s.graphs ==> d.cache.graphs[run].WellFormed() && d.cache.graphs[run].planId == run && s.graphs[run].planId == run
    ensures run in s.graphs ==> d.cache.graphs[run].(version := 0) == s.graphs[run].(version := 0)
  {
    hide PlanIn, ResultsIn, PlanKeys, KeyIn;
    assert Versionless(GraphIn(d.durable, run)) == Versionless(Lookup(s.graphs, run));
    assert RecordsOk(run, RecordsOf(d.durable, run));
    if run in s.graphs {
      assert s.graphs[run].(version := 0).planId == d.cache.graphs[run].(version := 0).planId;
    }
  }

  lemma CheckKeySimulates(s: Store, c: Cold, owner: string -> RunId, key: string)
    requires Simulates(s, c, owner) && Named(owner)
    ensures Simulates(s, CheckKeyIn(c, key).0, owner)
    ensures CheckKeyIn(c, key).1 <==> key in s.keys && (key in c.cache.keys || key in c.locations)
  {
    if key in c.cache.keys {
      assert KeyIn(c.durable, owner(key), key);
    } else if key in c.locations {
      LoadIsComplete(s, c, owner, owner(key));
    }
    hide Load, GraphIn, PlanIn, ResultsIn, PlanKeys;
  }

  // ---------------------------------------------------------------------
  // A series of processes
  // ---------------------------------------------------------------------

  /** The durable store answers as the in-memory store does, up to graph versions, and goes on doing so. */
  lemma OpSimulates(s: Store, c: Cold, owner: string -> RunId, op: Request)
    requires Simulates(s, c, owner) && Named(owner) && Allowed(c, op, owner)
    ensures Simulates(Plainly(s, op).0, Durably(c, op).0, owner)
    ensures Unversioned(Plainly(s, op).1) == Unversioned(Durably(c, op).1)
  {
    match op
    case SavePlan(p) => SavePlanSimulates(s, c, owner, p);
    case SaveTaskGraph(g) => SaveGraphSimulates(s, c, owner, g, g);
    case SaveResult(run, r) => SaveResultSimulates(s, c, owner, run, r);
    case ClaimReadyNodes(run) => ClaimSimulates(s, c, owner, run);
    case AdvanceTaskGraph(run, n, status) => AdvanceSimulates(s, c, owner, run, n, status);
    case CheckKey(k) => CheckKeySimulates(s, c, owner, k);
    case RecordKey(k) => RecordKeySimulates(s, c, owner, k);
    case GetPlan(id) => LoadIsComplete(s, c, owner, id);
    case GetTaskGraph(run) => GetGraphSimulates(s, c, owner, run);
    case GetResults(run) => LoadIsComplete(s, c, owner, run);
    case Restart =>
  }

  lemma GetGraphSimulates(s: Store, c: Cold, owner: string -> RunId, run: RunId)
    requires Simulates(s, c, owner)
    ensures Simulates(s, Load(c, run), owner)
    ensures Unversioned(TheGraph(Lookup(s.graphs, run))) == Unversioned(TheGraph(Lookup(Load(c, run).cache.graphs, run)))
  {
    LoadIsComplete(s, c, owner, run);
    Loaded(s, Load(c, run), owner, run);
    hide Load, Simulates, GraphIn;
  }

  function PlainSeries(s: Store, ops: seq<Request>): (Store, seq<Answer>)
    decreases |ops|
  {
    if ops == [] then (s, []) else var r := PlainSeries(Plainly(s, ops[0]).0, ops[1..]); (r.0, [Unversioned(Plainly(s, ops[0]).1)] + r.1)
  }

  function DurableSeries(c: Cold, ops: seq<Request>): (Cold, seq<Answer>)
    decreases |ops|
  {
    if ops == [] then (c, []) else var r := DurableSeries(Durably(c, ops[0]).0, ops[1..]); (r.0, [Unversioned(Durably(c, ops[0]).1)] + r.1)
  }

  ghost predicate AllAllowed(c: Cold, ops: seq<Request>, owner: string -> RunId)
    decreases |ops|
  {
    ops != [] ==> Allowed(c, ops[0], owner) && AllAllowed(Durably(c, ops[0]).0, ops[1..], owner)
  }

  /** Any series of operations and restarts gets the answers of one in-memory store that is never restarted. */
  lemma {:induction false} SeriesAgrees(s: Store, c: Cold, owner: string -> RunId, ops: seq<Request>)
    requires Simulates(s, c, owner) && Named(owner) && AllAllowed(c, ops, owner)
    ensures PlainSeries(s, ops).1 == DurableSeries(c, ops).1
    ensures Simulates(PlainSeries(s, ops).0, DurableSeries(c, ops).0, owner)
    decreases |ops|
  {
    hide Simulates, Plainly, Durably, Allowed, Unversioned, Named;
    if ops != [] {
      OpSimulates(s, c, owner, ops[0]);
      SeriesAgrees(Plainly(s, ops[0]).0, Durably(c, ops[0]).0, owner, ops[1..]);
    }
  }

  /** The same from the very beginning, when nothing is stored. */
  lemma ColdSeriesAgrees(owner: string -> RunId, ops: seq<Request>)
    requires Named(owner) && AllAllowed(Cold(map[], EMPTY_STORE, map[]), ops, owner)
    ensures PlainSeries(EMPTY_STORE, ops).1 == DurableSeries(Cold(map[], EMPTY_STORE, map[]), ops).1
  {
    SeriesAgrees(EMPTY_STORE, Cold(map[], EMPTY_STORE, map[]), owner, ops);
  }

  /** Saving a plan locates the key of each of its actions, and no other key. */
  lemma SavedPlanLocatesKeys(c: Cold, p: AgentPlan, k: string)
    ensures var d := Durably(c, SavePlan(p)).0;
            && (forall i :: 0 <= i < |p.actions| && p.actions[i].idempotencyKey == k ==> k in d.locations && d.locations[k] == p.planId)
            && ((forall i :: 0 <= i < |p.actions| ==> p.actions[i].idempotencyKey != k) ==> Lookup(d.locations, k) == Lookup(c.locations, k))
  {
  }

  /** Reading a plan that durable memory holds locates the key of each of its actions. */
  lemma StoredPlanLocatesKeys(c: Cold, id: RunId, i: nat)
    requires PlanIn(c.durable, id).Some? && i < |PlanIn(c.durable, id).value.actions|
    ensures var k, d := PlanIn(c.durable, id).value.actions[i].idempotencyKey, Durably(c, GetPlan(id)).0;
            k in d.locations && d.locations[k] == id
  {
    hide PlanKeys, ResultsIn, KeysIn;
  }

  /** After a plan was read, the key of each of its actions may be asked for. */
  lemma ReadPlanLocatesKeys(s: Store, c: Cold, owner: string -> RunId, id: RunId, i: nat)
    requires Simulates(s, c, owner) && id in s.plans && i < |s.plans[id].actions|
    ensures var k, d := s.plans[id].actions[i].idempotencyKey, Durably(c, GetPlan(id)).0;
            k in d.locations && d.locations[k] == id && Allowed(d, CheckKey(k), owner) && Allowed(d, RecordKey(k), owner)
  {
    assert PlanIn(c.durable, id) == Some(s.plans[id]);
    StoredPlanLocatesKeys(c, id, i);
  }

  /** In general, the answer about a key is right exactly if the key is not recorded, cached, or located. */
  lemma KeyAnswerIsRight(s: Store, c: Cold, owner: string -> RunId, key: string)
    requires Simulates(s, c, owner) && Named(owner)
    ensures Durably(c, CheckKey(key)).1 == Plainly(s, CheckKey(key)).1 <==> key !in s.keys || key in c.cache.keys || key in c.locations
  {
    CheckKeySimulates(s, c, owner, key);
  }

  /** Does the operation, answered by `a`, change the graph of `run`? */
  predicate Changes(op: Request, a: Answer, run: RunId) {
    match (op, a)
    case (ClaimReadyNodes(of), TheNodes(nodes)) => of == run && nodes != []
    case (AdvanceTaskGraph(of, _, _), TheAdvance(Some(x))) => of == run && !x.alreadyProcessed
    case _ => false
  }

  /** A graph's version grows by one with a claim that hands something out and with an advance that is news, and only then. */
  lemma VersionCountsChanges(s: Store, c: Cold, owner: string -> RunId, op: Request, run: RunId)
    requires Simulates(s, c, owner) && Allowed(c, op, owner) && GraphIn(c.durable, run).Some? && !op.SaveTaskGraph?
    ensures var r := Durably(c, op);
            && GraphIn(r.0.durable, run).Some?
            && GraphIn(r.0.durable, run).value.version == GraphIn(c.durable, run).value.version + if Changes(op, r.1, run) then 1 else 0
  {
    if op.ClaimReadyNodes? || op.AdvanceTaskGraph? {
      var of := if op.ClaimReadyNodes? then op.claimed else op.advanced;
      LoadIsComplete(s, c, owner, of);
      Loaded(s, Load(c, of), owner, of);
      if of in s.graphs {
        StepVersion(s, Load(c, of), c, owner, of, op, run);
      }
    } else {
      OtherOpsKeepGraph(c, op, run);
    }
    hide Load, Simulates, Allowed, GraphIn;
  }

  lemma OtherOpsKeepGraph(c: Cold, op: Request, run: RunId)
    requires !op.SaveTaskGraph? && !op.ClaimReadyNodes? && !op.AdvanceTaskGraph?
    ensures GraphIn(Durably(c, op).0.durable, run) == GraphIn(c.durable, run)
  {
    hide Remembered, ResultsIn, KeysIn;
  }

  lemma StepVersion(s: Store, d: Cold, c: Cold, owner: string -> RunId, of: RunId, op: Request, run: RunId)
    requires d == Load(c, of) && d.durable == c.durable && of in d.cache.graphs && Lookup(d.cache.graphs, of) == GraphIn(c.durable, of)
    requires d.cache.graphs[of].planId == of && GraphIn(c.durable, run).Some?
    requires op == ClaimReadyNodes(of) || (op.AdvanceTaskGraph? && op.advanced == of)
    ensures var r := Durably(c, op);
            && GraphIn(r.0.durable, run).Some?
            && GraphIn(r.0.durable, run).value.version == GraphIn(c.durable, run).value.version + if Changes(op, r.1, run) then 1 else 0
  {
    var g := d.cache.graphs[of];
    var a := if op.ClaimReadyNodes? then g.Claimed() else g.Advanced(op.nodeId, op.status);
    KeepsVersion(g, op);
    PutGraphAt(c.durable, a.graph.Bumped(), run);
    hide Load, GraphIn, TaskGraph.Claimed, TaskGraph.Advanced, Put;
  }

  lemma KeepsVersion(g: TaskGraph, op: Request)
    ensures g.Claimed().graph.planId == g.planId && g.Claimed().graph.version == g.version
    ensures op.AdvanceTaskGraph? ==> var h := g.Advanced(op.nodeId, op.status).graph; h.planId == g.planId && h.version == g.version
  {
    hide Marked, Runnable, Find, Ids;
  }

  lemma PutGraphAt(d: map<RunId, Records>, g: TaskGraph, run: RunId)
    ensures GraphIn(Put(d, g.planId, GraphMemory, GraphRecord(g)), run) == if run == g.planId then Some(g) else GraphIn(d, run)
  {
  }
}
