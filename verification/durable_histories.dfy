/**
  Idempotency keys over whole histories of the durable store, with nothing asked of callers about when
  they record or check a key: exactly when the answer about a key is the one an in-memory store gives.
 */
module DurableHistories {
  import opened Common
  import opened Events
  import opened Subtasks
  import opened Plans
  import opened Runtime
  import opened DurableStores

  /** Both stores after a history that began with nothing stored. */
  function Lived(ops: seq<Request>): (Store, Cold) {
    if ops == [] then (EMPTY_STORE, Cold(map[], EMPTY_STORE, map[]))
    else
      var before, last := Lived(ops[..|ops| - 1]), ops[|ops| - 1];
      (Plainly(before.0, last).0, Durably(before.1, last).0)
  }

  /** Each key belongs to one plan. */
  ghost predicate Fair(owner: string -> RunId, ops: seq<Request>) {
    forall op :: op in ops && op.SavePlan? ==> Owned(op.plan, owner)
  }

  /** Was the key recorded, at some time, by a process that knew where it belongs? */
  predicate RecordedLocated(ops: seq<Request>, key: string) {
    exists i :: 0 <= i < |ops| && ops[i] == RecordKey(key) && key in Lived(ops[..i]).1.locations
  }

  /** The keys that were recorded with their location known. */
  ghost predicate Keeps(kept: set<string>, ops: seq<Request>) {
    forall k :: k in kept <==> RecordedLocated(ops, k)
  }

  /** What durable memory, cache and locations say of keys, when those in `kept` were recorded with their location known. */
  ghost predicate Tracks(s: Store, c: Cold, owner: string -> RunId, kept: set<string>) {
    && (forall run, k :: KeyIn(c.durable, run, k) <==> k in kept && owner(k) == run)
    && (forall run :: PlanIn(c.durable, run).Some? ==> Owned(PlanIn(c.durable, run).value, owner) && PlanIn(c.durable, run).value.planId == run)
    && kept <= s.keys && c.cache.keys <= s.keys
    && (forall k :: k in c.locations ==> c.locations[k] == owner(k))
  }

  lemma PutKeys(d: map<RunId, Records>, run: RunId, id: MemoryId, record: Record)
    ensures var e := Put(d, run, id, record);
            && (forall r, k :: KeyIn(e, r, k) <==> KeyIn(d, r, k) || (r == run && id == KeyMemory(k)))
            && (!id.PlanMemory? ==> forall r :: PlanIn(e, r) == PlanIn(d, r))
            && (id.PlanMemory? && record.PlanRecord? ==> forall r :: PlanIn(e, r) == if r == run then Some(record.plan) else PlanIn(d, r))
  {
  }

  lemma KeysOfRecords(d: map<RunId, Records>, run: RunId, k: string)
    ensures k in KeysIn(RecordsOf(d, run)) <==> KeyIn(d, run, k)
    ensures PlanKeysIn(RecordsOf(d, run)) == if PlanIn(d, run).Some? then PlanKeys(PlanIn(d, run).value) else {}
  {
    assert KeyIn(d, run, k) <==> KeyMemory(k) in RecordsOf(d, run);
  }

  /** Loading a run adds the keys kept for it to the cache, and its plan's keys to the locations. */
  lemma LoadTracks(s: Store, c: Cold, owner: string -> RunId, kept: set<string>, run: RunId)
    requires Tracks(s, c, owner, kept)
    ensures var d := Load(c, run);
            && Tracks(s, d, owner, kept)
            && (forall k :: k in d.cache.keys <==> k in c.cache.keys || (k in kept && owner(k) == run))
            && (forall k :: k in c.locations || (PlanIn(c.durable, run).Some? && k in PlanKeys(PlanIn(c.durable, run).value)) ==> k in d.locations)
  {
    hide KeysIn, PlanKeysIn, KeyIn, PlanIn, RecordsOf, ResultsIn, PlanKeys;
    forall k
      ensures k in KeysIn(RecordsOf(c.durable, run)) <==> KeyIn(c.durable, run, k)
      ensures PlanKeysIn(RecordsOf(c.durable, run)) == if PlanIn(c.durable, run).Some? then PlanKeys(PlanIn(c.durable, run).value) else {}
    {
      KeysOfRecords(c.durable, run, k);
    }
    assert Load(c, run).durable == c.durable;
  }

  lemma SaveTracks(s: Store, c: Cold, owner: string -> RunId, kept: set<string>, t: Store, d: Cold, run: RunId, id: MemoryId, record: Record)
    requires Tracks(s, c, owner, kept) && !id.PlanMemory? && !id.KeyMemory? && t.keys == s.keys
    requires d.durable == Put(c.durable, run, id, record) && d.cache.keys == c.cache.keys && d.locations == c.locations
    ensures Tracks(t, d, owner, kept)
  {
    hide Put, KeyIn, PlanIn, Owned;
    PutKeys(c.durable, run, id, record);
  }

  lemma SavePlanTracks(s: Store, c: Cold, owner: string -> RunId, kept: set<string>, p: AgentPlan)
    requires Tracks(s, c, owner, kept) && Owned(p, owner)
    ensures Tracks(s.SavePlan(p), SavePlanTo(c, p), owner, kept)
  {
    hide Put, KeyIn, PlanIn, PlanKeys;
    PutKeys(c.durable, p.planId, PlanMemory, PlanRecord(p));
  }

  lemma RecordTracks(s: Store, c: Cold, owner: string -> RunId, kept: set<string>, key: string)
    requires Tracks(s, c, owner, kept) && Named(owner)
    ensures Tracks(s.RecordKey(key), RecordKeyTo(c, key), owner, kept + (if key in c.locations then {key} else {}))
  {
    hide Put, KeyIn, PlanIn, Owned;
    PutKeys(c.durable, owner(key), KeyMemory(key), KeyRecord(key));
  }

  lemma ClaimTracks(s: Store, c: Cold, owner: string -> RunId, kept: set<string>, run: RunId)
    requires Tracks(s, c, owner, kept)
    ensures Tracks(Plainly(s, ClaimReadyNodes(run)).0, ClaimIn(c, run).0, owner, kept)
  {
    hide Load, Tracks, Put, TaskGraph.Claimed, TaskGraph.Bumped;
    LoadTracks(s, c, owner, kept, run);
    var d := Load(c, run);
    var t := Plainly(s, ClaimReadyNodes(run)).0;
    SameKeysTrack(s, t, d, owner, kept);
    if run in d.cache.graphs && d.cache.graphs[run].Claimed().newlyReady != [] {
      var g := d.cache.graphs[run].Claimed().graph.Bumped();
      SaveTracks(s, d, owner, kept, t, SaveGraphTo(d, g), g.planId, GraphMemory, GraphRecord(g));
    }
  }

  lemma AdvanceTracks(s: Store, c: Cold, owner: string -> RunId, kept: set<string>, run: RunId, nodeId: string, status: SubTaskStatus)
    requires Tracks(s, c, owner, kept)
    ensures Tracks(Plainly(s, AdvanceTaskGraph(run, nodeId, status)).0, AdvanceIn(c, run, nodeId, status).0, owner, kept)
  {
    hide Load, Tracks, Put, TaskGraph.Advanced, TaskGraph.Bumped;
    LoadTracks(s, c, owner, kept, run);
    var d := Load(c, run);
    var t := Plainly(s, AdvanceTaskGraph(run, nodeId, status)).0;
    SameKeysTrack(s, t, d, owner, kept);
    if run in d.cache.graphs && !d.cache.graphs[run].Advanced(nodeId, status).alreadyProcessed {
      var g := d.cache.graphs[run].Advanced(nodeId, status).graph.Bumped();
      SaveTracks(s, d, owner, kept, t, SaveGraphTo(d, g), g.planId, GraphMemory, GraphRecord(g));
    }
  }

  lemma SameKeysTrack(s: Store, t: Store, c: Cold, owner: string -> RunId, kept: set<string>)
    requires Tracks(s, c, owner, kept) && t.keys == s.keys
    ensures Tracks(t, c, owner, kept)
  {
  }

  /** The answer about a key: cached, or kept and located. */
  lemma CheckTracks(s: Store, c: Cold, owner: string -> RunId, kept: set<string>, key: string)
    requires Tracks(s, c, owner, kept) && Named(owner)
    ensures Tracks(s, CheckKeyIn(c, key).0, owner, kept)
    ensures CheckKeyIn(c, key).1 <==> key in c.cache.keys || (key in c.locations && key in kept)
  {
    hide Load;
    if key in c.locations {
      LoadTracks(s, c, owner, kept, owner(key));
    }
    hide KeyIn, PlanIn, Owned;
  }

  lemma OpTracks(s: Store, c: Cold, owner: string -> RunId, kept: set<string>, op: Request)
    requires Tracks(s, c, owner, kept) && Named(owner) && (op.SavePlan? ==> Owned(op.plan, owner))
    ensures Tracks(Plainly(s, op).0, Durably(c, op).0, owner,
                   kept + if op.RecordKey? && op.recorded in c.locations then {op.recorded} else {})
  {
    hide Tracks, Put, Load, ClaimIn, AdvanceIn, CheckKeyIn, RecordKeyTo, SavePlanTo, Owned;
    assert kept + {} == kept;
    match op
    case SavePlan(p) => SavePlanTracks(s, c, owner, kept, p);
    case SaveTaskGraph(g) => SaveTracks(s, c, owner, kept, s.SaveGraph(g), SaveGraphTo(c, g), g.planId, GraphMemory, GraphRecord(g));
    case SaveResult(run, r) =>
      SaveTracks(s, c, owner, kept, s.SaveSubAgentResult(run, r), SaveResultTo(c, run, r), run, ResultMemory(r.nodeId), ResultRecord(run, r));
    case ClaimReadyNodes(run) => ClaimTracks(s, c, owner, kept, run);
    case AdvanceTaskGraph(run, n, status) => AdvanceTracks(s, c, owner, kept, run, n, status);
    case CheckKey(k) => CheckTracks(s, c, owner, kept, k);
    case RecordKey(k) => RecordTracks(s, c, owner, kept, k);
    case GetPlan(id) => LoadTracks(s, c, owner, kept, id);
    case GetTaskGraph(run) => LoadTracks(s, c, owner, kept, run);
    case GetResults(run) => LoadTracks(s, c, owner, kept, run);
    case Restart => RestartTracks(s, c, owner, kept);
  }

  lemma RestartTracks(s: Store, c: Cold, owner: string -> RunId, kept: set<string>)
    requires Tracks(s, c, owner, kept)
    ensures Tracks(s, Cold(c.durable, EMPTY_STORE, map[]), owner, kept)
  {
    hide KeyIn, PlanIn, Owned;
  }

  /** The keys that any history keeps, and what is tracked of them. */
  lemma {:induction false} HistoryTracks(owner: string -> RunId, ops: seq<Request>) returns (kept: set<string>)
    requires Named(owner) && Fair(owner, ops)
    ensures Tracks(Lived(ops).0, Lived(ops).1, owner, kept) && Keeps(kept, ops)
    ensures forall k :: k in Lived(ops).0.keys <==> RecordKey(k) in ops
  {
    hide Tracks, Plainly, Durably, Named, Owned;
    if ops == [] {
      kept := {};
      NothingTracked(owner);
    } else {
      var before, last := ops[..|ops| - 1], ops[|ops| - 1];
      assert ops == before + [last] && last in ops;
      var most := HistoryTracks(owner, before);
      OpTracks(Lived(before).0, Lived(before).1, owner, most, last);
      kept := most + if last.RecordKey? && last.recorded in Lived(before).1.locations then {last.recorded} else {};
      OneMoreOp(Lived(before).0, last);
      forall k ensures k in kept <==> RecordedLocated(ops, k) {
        RecordedMore(ops, k);
      }
    }
  }

  lemma NothingTracked(owner: string -> RunId)
    ensures Tracks(EMPTY_STORE, Cold(map[], EMPTY_STORE, map[]), owner, {})
  {
  }

  lemma OneMoreOp(s: Store, op: Request)
    ensures Plainly(s, op).0.keys == s.keys + if op.RecordKey? then {op.recorded} else {}
  {
    hide TaskGraph.Claimed, TaskGraph.Advanced;
  }

  lemma RecordedMore(ops: seq<Request>, k: string)
    requires ops != []
    ensures var before, last := ops[..|ops| - 1], ops[|ops| - 1];
            RecordedLocated(ops, k) <==> RecordedLocated(before, k) || (last == RecordKey(k) && k in Lived(before).1.locations)
  {
    hide Lived;
    var before, last := ops[..|ops| - 1], ops[|ops| - 1];
    assert forall i :: 0 <= i < |before| ==> before[..i] == ops[..i] && before[i] == ops[i];
    if RecordedLocated(before, k) {
      var i :| 0 <= i < |before| && before[i] == RecordKey(k) && k in Lived(before[..i]).1.locations;
      assert ops[i] == RecordKey(k) && k in Lived(ops[..i]).1.locations;
    }
    if RecordedLocated(ops, k) {
      var i :| 0 <= i < |ops| && ops[i] == RecordKey(k) && k in Lived(ops[..i]).1.locations;
      if i < |before| {
        assert before[i] == RecordKey(k) && k in Lived(before[..i]).1.locations;
      }
    }
  }

  /**
    After any history, the durable store answers about a key as an in-memory store would exactly if the
    key was never recorded, or is in the cache, or was located both when it was recorded and now.
   */
  lemma KeyAnswerOverHistory(owner: string -> RunId, ops: seq<Request>, key: string)
    requires Named(owner) && Fair(owner, ops)
    ensures var s, c := Lived(ops).0, Lived(ops).1;
            Durably(c, CheckKey(key)).1 == Plainly(s, CheckKey(key)).1 <==>
            RecordKey(key) !in ops || key in c.cache.keys || (key in c.locations && RecordedLocated(ops, key))
  {
    hide Lived, Load, RecordedLocated, Named;
    var kept := HistoryTracks(owner, ops);
    CheckTracks(Lived(ops).0, Lived(ops).1, owner, kept, key);
    hide CheckKeyIn;
  }

  /**
    A key recorded by the process that saved its plan is found again by any later process that has read
    the plan, whatever happened before and in between: as long as durable memory holds a plan with that key.
   */
  lemma LocatedKeySurvives(owner: string -> RunId, before: seq<Request>, p: AgentPlan, i: nat, between: seq<Request>, q: AgentPlan, j: nat)
    requires i < |p.actions| && j < |q.actions| && q.actions[j].idempotencyKey == p.actions[i].idempotencyKey
    requires var ops := before + [SavePlan(p)] + [RecordKey(p.actions[i].idempotencyKey)] + between;
             Named(owner) && Fair(owner, ops) && PlanIn(Lived(ops).1.durable, p.planId) == Some(q)
    ensures var ops := before + [SavePlan(p)] + [RecordKey(p.actions[i].idempotencyKey)] + between + [Restart] + [GetPlan(p.planId)];
            Durably(Lived(ops).1, CheckKey(p.actions[i].idempotencyKey)).1 == Recorded(true)
  {
    hide Lived, Durably, Plainly, Named, Owned, PlanIn;
    var key := p.actions[i].idempotencyKey;
    var saved := before + [SavePlan(p)];
    var most := saved + [RecordKey(key)] + between;
    var ops := most + [Restart] + [GetPlan(p.planId)];
    LivedMore(before, SavePlan(p));
    SavedPlanLocatesKeys(Lived(before).1, p, key);
    RestartedAndRead(most, p.planId, j);
    assert ops[|saved|] == RecordKey(key) && ops[..|saved|] == saved;
    assert RecordedLocated(ops, key);
    FairMore(owner, most, p.planId);
    KeyAnswerOverHistory(owner, ops, key);
    var kept := HistoryTracks(owner, ops);
    CheckOfRecorded(Lived(ops).0, key);
  }

  /** In particular if nothing happens in between. */
  lemma RecordedKeySurvives(owner: string -> RunId, before: seq<Request>, p: AgentPlan, i: nat)
    requires Named(owner) && Fair(owner, before) && Owned(p, owner) && i < |p.actions|
    ensures var key := p.actions[i].idempotencyKey;
            var c := Lived(before + [SavePlan(p), RecordKey(key), Restart, GetPlan(p.planId)]).1;
            key in c.locations && Durably(c, CheckKey(key)).1 == Recorded(true)
  {
    hide Lived, Durably, Plainly, Named, Owned, PlanIn;
    var key := p.actions[i].idempotencyKey;
    var ops := before + [SavePlan(p)] + [RecordKey(key)];
    PlanIsHeld(before, p, key);
    assert ops + [] == ops;
    LocatedKeySurvives(owner, before, p, i, [], p, i);
    RestartedAndRead(ops, p.planId, i);
    assert ops + [Restart] + [GetPlan(p.planId)] == before + [SavePlan(p), RecordKey(key), Restart, GetPlan(p.planId)];
  }

  lemma PlanIsHeld(ops: seq<Request>, p: AgentPlan, key: string)
    ensures PlanIn(Lived(ops + [SavePlan(p)] + [RecordKey(key)]).1.durable, p.planId) == Some(p)
  {
    hide Lived, PlanIn, Put;
    LivedMore(ops, SavePlan(p));
    LivedMore(ops + [SavePlan(p)], RecordKey(key));
    var c := Lived(ops).1;
    var d := SavePlanTo(c, p);
    PutKeys(c.durable, p.planId, PlanMemory, PlanRecord(p));
    if key in d.locations && KeyRun(d.locations[key], key).Some? {
      PutKeys(d.durable, KeyRun(d.locations[key], key).value, KeyMemory(key), KeyRecord(key));
    }
  }

  lemma CheckOfRecorded(s: Store, key: string)
    requires key in s.keys
    ensures Plainly(s, CheckKey(key)).1 == Recorded(true)
  {
  }

  lemma FairMore(owner: string -> RunId, ops: seq<Request>, id: RunId)
    requires Fair(owner, ops)
    ensures Fair(owner, ops + [Restart] + [GetPlan(id)])
  {
  }

  /** A new process that reads a plan knows where the key of each of its actions belongs. */
  lemma RestartedAndRead(ops: seq<Request>, id: RunId, j: nat)
    requires PlanIn(Lived(ops).1.durable, id).Some? && j < |PlanIn(Lived(ops).1.durable, id).value.actions|
    ensures PlanIn(Lived(ops).1.durable, id).value.actions[j].idempotencyKey in Lived(ops + [Restart] + [GetPlan(id)]).1.locations
  {
    hide Lived, Load, PlanIn;
    var c := Cold(Lived(ops).1.durable, EMPTY_STORE, map[]);
    LivedMore(ops, Restart);
    LivedMore(ops + [Restart], GetPlan(id));
    StoredPlanLocatesKeys(c, id, j);
  }

  /** Record a key before its plan was read: every such key is lost with the process that recorded it, and reading the plan does not bring it back. */
  function RecordedTooEarly(p: AgentPlan, key: string): seq<Request> {
    [SavePlan(p), Restart, RecordKey(key), Restart, GetPlan(p.planId)]
  }

  lemma LivedMore(ops: seq<Request>, op: Request)
    ensures Lived(ops + [op]) == (Plainly(Lived(ops).0, op).0, Durably(Lived(ops).1, op).0)
  {
    hide Plainly, Durably;
    assert (ops + [op])[..|ops|] == ops;
  }

  /** What is left: the plan in durable memory, the key in the in-memory store only. */
  lemma TooEarlyLeaves(p: AgentPlan, key: string)
    ensures var c := Cold(SavePlanTo(Cold(map[], EMPTY_STORE, map[]), p).durable, EMPTY_STORE, map[]);
            Lived(RecordedTooEarly(p, key)) == (EMPTY_STORE.SavePlan(p).RecordKey(key), Load(c, p.planId))
  {
    hide Lived, Load, PlanKeys, Put, Remembered;
    var h: seq<Request> := [];
    assert Lived(h) == (EMPTY_STORE, Cold(map[], EMPTY_STORE, map[])) by { NothingLived(); }
    LivedMore(h, SavePlan(p));
    LivedMore(h + [SavePlan(p)], Restart);
    LivedMore(h + [SavePlan(p)] + [Restart], RecordKey(key));
    LivedMore(h + [SavePlan(p)] + [Restart] + [RecordKey(key)], Restart);
    LivedMore(h + [SavePlan(p)] + [Restart] + [RecordKey(key)] + [Restart], GetPlan(p.planId));
    assert h + [SavePlan(p)] + [Restart] + [RecordKey(key)] + [Restart] + [GetPlan(p.planId)] == RecordedTooEarly(p, key);
  }

  lemma NothingLived()
    ensures Lived([]) == (EMPTY_STORE, Cold(map[], EMPTY_STORE, map[]))
  {
  }

  lemma EarlyKeyIsLost(owner: string -> RunId, p: AgentPlan, key: string)
    requires Named(owner) && Owned(p, owner) && exists i :: 0 <= i < |p.actions| && p.actions[i].idempotencyKey == key
    ensures var s, c := Lived(RecordedTooEarly(p, key)).0, Lived(RecordedTooEarly(p, key)).1;
            && key in c.locations && key !in c.cache.keys
            && Durably(c, CheckKey(key)).1 == Recorded(false) && Plainly(s, CheckKey(key)).1 == Recorded(true)
  {
    hide Lived, Load, PlanKeys, Put, Owned, Tracks, CheckKeyIn, RecordedTooEarly, Remembered, KeyIn;
    TooEarlyLeaves(p, key);
    var s0, c0 := EMPTY_STORE, Cold(map[], EMPTY_STORE, map[]);
    NothingTracked(owner);
    SavePlanTracks(s0, c0, owner, {}, p);
    PutKeys(c0.durable, p.planId, PlanMemory, PlanRecord(p));
    var c := Cold(SavePlanTo(c0, p).durable, EMPTY_STORE, map[]);
    RestartTracks(s0.SavePlan(p), SavePlanTo(c0, p), owner, {});
    MoreKeysTrack(s0.SavePlan(p), s0.SavePlan(p).RecordKey(key), c, owner, {});
    LoadTracks(s0.SavePlan(p).RecordKey(key), c, owner, {}, p.planId);
    CheckTracks(s0.SavePlan(p).RecordKey(key), Load(c, p.planId), owner, {}, key);
  }

  lemma MoreKeysTrack(s: Store, t: Store, c: Cold, owner: string -> RunId, kept: set<string>)
    requires Tracks(s, c, owner, kept) && s.keys <= t.keys
    ensures Tracks(t, c, owner, kept)
  {
  }

  /** Such a plan, its owner and its key. */
  const PLAN := AgentPlan(RunId("w", "r"), None, None, Source("w", "e", Some("r"), None, None, [], false),
                          [PlannedAction("a", "t", [], false, ActionStatus.Pending, "r:t:1")], Planned)

  lemma LostKey()
    ensures var s, c := Lived(RecordedTooEarly(PLAN, "r:t:1")).0, Lived(RecordedTooEarly(PLAN, "r:t:1")).1;
            "r:t:1" in c.locations && Durably(c, CheckKey("r:t:1")).1 == Recorded(false) && Plainly(s, CheckKey("r:t:1")).1 == Recorded(true)
  {
    hide Lived, Durably, Plainly, RecordedTooEarly;
    assert PLAN.actions[0].idempotencyKey == "r:t:1";
    EarlyKeyIsLost(_ => PLAN.planId, PLAN, "r:t:1");
  }
}
