/**
  Idempotency keys in runs of a single plan under redelivery: when a key is recorded exactly for the
  actions that are COMPLETED or REQUIRES_APPROVAL, and which replan events break that.
 */
module WorkflowKeys {
  import opened Common
  import opened Events
  import opened Plans
  import opened Planner
  import opened Runtime
  import Orchestration
  import opened WorkflowRun

  ghost predicate OwnKey(p: AgentPlan, key: string) {
    exists j :: 0 <= j < |p.actions| && p.actions[j].idempotencyKey == key && Orchestration.Consumed(p.actions[j].status)
  }

  /** No key of any action that could be planned under this prefix is recorded. */
  ghost predicate NoKeyUnder(keys: set<string>, prefix: string) {
    forall t, i: nat :: Plain(t) && i > 0 ==> Key(prefix, t, i) !in keys
  }

  /** Of the keys under the plan's prefix, those of its COMPLETED or REQUIRES_APPROVAL actions are recorded and no others. */
  ghost predicate KeysKept(run: RunId, keys: set<string>, p: AgentPlan) {
    && (forall t, i: nat :: Plain(t) && i > 0 && Key(RunPrefix(p.source, run.id), t, i) in keys ==> OwnKey(p, Key(RunPrefix(p.source, run.id), t, i)))
    && (forall j :: 0 <= j < |p.actions| && Orchestration.Consumed(p.actions[j].status) ==> p.actions[j].idempotencyKey in keys)
  }

  lemma KeyIsExact(run: RunId, keys: set<string>, p: AgentPlan, i: nat)
    requires PlanKept(run, p) && KeysKept(run, keys, p) && i < |p.actions|
    ensures p.actions[i].idempotencyKey in keys <==> Orchestration.Consumed(p.actions[i].status)
  {
    hide Shaped, RunOf, Key;
    var prefix, a := RunPrefix(p.source, run.id), p.actions[i];
    assert a.idempotencyKey == Key(prefix, a.toolName, i + 1) && Plain(a.toolName);
    if a.idempotencyKey in keys {
      var j :| 0 <= j < |p.actions| && p.actions[j].idempotencyKey == a.idempotencyKey && Orchestration.Consumed(p.actions[j].status);
      KeyTells(p.actions, prefix, i, p.actions, prefix, j);
    }
  }

  // ---------------------------------------------------------------------
  // Deliveries of action events
  // ---------------------------------------------------------------------

  lemma TurnKeys(run: RunId, keys: set<string>, p: AgentPlan, status: ActionStatus, q: AgentPlan)
    requires KeysKept(run, keys, p) && HasTurn(p) && q.source == p.source
    requires q.actions == p.actions[Frontier(p.actions) := OnTurn(p).WithStatus(status)]
    ensures KeysKept(run, keys + (if Orchestration.Consumed(status) then {OnTurn(p).idempotencyKey} else {}), q)
  {
    hide Key, RunPrefix;
    var k, after := Frontier(p.actions), keys + (if Orchestration.Consumed(status) then {OnTurn(p).idempotencyKey} else {});
    forall key | key in after && (key in keys ==> OwnKey(p, key)) ensures OwnKey(q, key) {
      if key in keys {
        var j :| 0 <= j < |p.actions| && p.actions[j].idempotencyKey == key && Orchestration.Consumed(p.actions[j].status);
        assert q.actions[j] == p.actions[j];
      } else {
        assert q.actions[k].idempotencyKey == key && Orchestration.Consumed(q.actions[k].status);
      }
    }
    forall j | 0 <= j < |q.actions| && Orchestration.Consumed(q.actions[j].status) ensures q.actions[j].idempotencyKey in after {
      assert q.actions[j].idempotencyKey == p.actions[j].idempotencyKey;
      assert j != k ==> q.actions[j] == p.actions[j];
    }
  }

  lemma VisitKeys(run: RunId, s: Store, sent: set<Message>, aid: string, attempt: nat, correlation: Option<string>, o: Outcome)
    requires Kept(run, s, sent) && Message(ActionRequested(run, aid), attempt) in sent && KeysKept(run, s.keys, s.plans[run])
    ensures var v := Visit(s, run, aid, attempt, correlation, o);
            run in v.store.plans && KeysKept(run, v.store.keys, v.store.plans[run])
  {
    hide Visit, PlanKept, CommitsKept, KeysKept, IsLate, AgentPlan.ReplaceAction, Moving;
    var p := s.plans[run];
    assert MessageKept(run, p, Message(ActionRequested(run, aid), attempt));
    VisitIs(run, s, aid, attempt, correlation, o);
    if GivesTurn(s, p, aid) {
      TurnLeaves(run, p, Goes(attempt, o));
      TurnKeys(run, s.keys, p, Goes(attempt, o), p.ReplaceAction(OnTurn(p).WithStatus(Goes(attempt, o))));
    } else if IsLate(p, aid) {
      ChooseNextKeeps(s, p);
    }
  }

  lemma ChooseNextKeeps(s: Store, p: AgentPlan)
    ensures var v := ChooseNext(s, p, []);
            v.store.plans == s.plans && v.store.keys == s.keys && v.store.executions == s.executions && v.store.commits == s.commits
  {
    hide AgentPlan.NextPendingAction;
  }

  lemma {:induction false} HandleActionKeys(run: RunId, s: Store, sent: set<Message>, aid: string, attempt: nat, correlation: Option<string>,
                                            oracle: nat -> Outcome, answers: nat, inlined: nat)
    requires Kept(run, s, sent) && Trimmed(run.id) && Message(ActionRequested(run, aid), attempt) in sent
    requires KeysKept(run, s.keys, s.plans[run])
    ensures var h := HandleAction(s, run, aid, attempt, correlation, oracle, answers, inlined);
            run in h.store.plans && KeysKept(run, h.store.keys, h.store.plans[run])
    decreases INLINE_ACTION_CHAIN_BUDGET - inlined
  {
    hide Visit, Kept, KeysKept;
    assert run in s.plans by { KeptPlan(run, s, sent); }
    var v := Visit(s, run, aid, attempt, correlation, oracle(answers));
    VisitKept(run, s, sent, aid, attempt, correlation, oracle(answers));
    VisitKeys(run, s, sent, aid, attempt, correlation, oracle(answers));
    if v.next.Some? && !v.next.value.requiresApproval && inlined < INLINE_ACTION_CHAIN_BUDGET {
      HandleActionKeys(run, v.store, sent + Set(v.sent) + Asks(run, v.next), v.next.value.actionId, 0, correlation, oracle, answers + 1, inlined + 1);
    }
  }

  // ---------------------------------------------------------------------
  // Safe runs
  // ---------------------------------------------------------------------

  /** The delivery of a trigger makes no plan under whose prefix a key is recorded. */
  ghost predicate Safe(run: RunId, n: Net, c: Choice) {
    c.Deliver? && c.at < |n.bag| && n.bag[c.at].body.Trigger? && MakesPlan(run, n.store, n.bag[c.at].body.source) ==>
      NoKeyUnder(n.store.keys, RunPrefix(n.bag[c.at].body.source, run.id))
  }

  ghost predicate SafeRun(e: Source, cs: seq<Choice>) {
    forall i :: 0 <= i < |cs| ==> Safe(RunOf(e), Run(e, cs[..i]), cs[i])
  }

  /** In a run in order: the keys are exact as soon as there is a plan. */
  ghost predicate KeysInOrder(run: RunId, s: Store) {
    run in s.plans ==> KeysKept(run, s.keys, s.plans[run])
  }

  lemma PlannedKeys(run: RunId, keys: set<string>, p: AgentPlan, x: Source, drafts: seq<Draft>)
    requires JustPlanned(run, p, x, drafts) && NoKeyUnder(keys, RunPrefix(x, run.id))
    ensures KeysKept(run, keys, p)
  {
    hide Key, RunPrefix, PlanKept;
  }

  lemma HandleKeys(run: RunId, e: Source, n: Net, m: Message, w: World, inlined: nat)
    requires NetKept(run, e, n) && m in n.sent && RunOf(e) == run && Trimmed(run.id) && KeysInOrder(run, n.store)
    requires m.body.Trigger? ==> UniqueDrafts(w.proposal.drafts) && FreshIds(run, n, w.proposal.drafts)
    requires m.body.Trigger? && MakesPlan(run, n.store, m.body.source) ==> NoKeyUnder(n.store.keys, RunPrefix(m.body.source, run.id))
    ensures KeysInOrder(run, Handle(n.store, m, AsWhole(w), 0, inlined).store)
  {
    hide HandleAction, HandleWhole, Kept, FreshIds, UniqueDrafts, RunOf, Trimmed, KeysKept, NoKeyUnder, RunPrefix, JustPlanned, PlanKept;
    KindKept(run, e, n, m);
    if m.body.ActionRequested? {
      HandleActionKeys(run, n.store, n.sent, m.body.actionId, m.attempt, w.correlation, w.oracle, 0, inlined);
    } else if m.body.Trigger? {
      TriggerKept(run, e, n, m, w.proposal);
      if MakesPlan(run, n.store, m.body.source) {
        PlanForm(run, n.store, m.body.source, w.proposal);
        PlannedKeys(run, n.store.keys, HandleWhole(n.store, m.body.source, w.proposal).0.plans[run], m.body.source, w.proposal.drafts);
      } else {
        KeptParts(run, n.store, n.sent);
        ResumeForm(run, n.store, m.body.source, w.proposal);
      }
    }
  }

  lemma KeptParts(run: RunId, s: Store, sent: set<Message>)
    requires Kept(run, s, sent)
    ensures run in s.plans && PlanKept(run, s.plans[run]) && CommitsKept(run, s, s.plans[run])
  {
  }

  lemma {:induction false} SafeRunKeys(e: Source, cs: seq<Choice>)
    requires Trimmed(ResolveRunId(e)) && ProperRun(e, cs) && SafeRun(e, cs)
    ensures KeysInOrder(RunOf(e), Run(e, cs).store)
  {
    hide Handle, ResolveRunId, NetKept, KeysInOrder, NoKeyUnder, UniqueDrafts, FreshIds, MakesPlan, ProperRun;
    if cs == [] {
      NothingRecorded(RunOf(e));
    } else {
      var n, c := Run(e, cs[..|cs| - 1]), cs[|cs| - 1];
      ProperBefore(e, cs);
      RunKept(e, cs[..|cs| - 1]);
      SafeBefore(e, cs);
      SafeRunKeys(e, cs[..|cs| - 1]);
      if c.Deliver? && c.at < |n.bag| {
        BagIsSent(RunOf(e), e, n, c.at);
        HandleKeys(RunOf(e), e, n, n.bag[c.at], c.world, c.inlined);
      }
    }
  }

  lemma NothingRecorded(run: RunId)
    ensures KeysInOrder(run, EMPTY_STORE)
  {
  }

  lemma BagIsSent(run: RunId, e: Source, n: Net, at: nat)
    requires NetKept(run, e, n) && at < |n.bag|
    ensures n.bag[at] in n.sent
  {
    assert n.bag[at] in Set(n.bag);
  }

  lemma SafeBefore(e: Source, cs: seq<Choice>)
    requires SafeRun(e, cs) && cs != []
    ensures SafeRun(e, cs[..|cs| - 1]) && Safe(RunOf(e), Run(e, cs[..|cs| - 1]), cs[|cs| - 1])
  {
    var before := cs[..|cs| - 1];
    forall i | 0 <= i < |before| ensures Safe(RunOf(e), Run(e, before[..i]), before[i]) {
      assert before[..i] == cs[..i];
    }
  }

  /** In a safe run, under any redelivery, a key is recorded at every moment exactly if its action is COMPLETED or REQUIRES_APPROVAL. */
  lemma SoloKeysAreExact(e: Source, cs: seq<Choice>, i: nat)
    requires Trimmed(ResolveRunId(e)) && ProperRun(e, cs) && SafeRun(e, cs)
    requires RunOf(e) in Run(e, cs).store.plans && i < |Run(e, cs).store.plans[RunOf(e)].actions|
    ensures var s := Run(e, cs).store;
            var a := s.plans[RunOf(e)].actions[i];
            a.idempotencyKey in s.keys <==> Orchestration.Consumed(a.status)
  {
    hide ResolveRunId, Key;
    RunKept(e, cs);
    SafeRunKeys(e, cs);
    KeyIsExact(RunOf(e), Run(e, cs).store.keys, Run(e, cs).store.plans[RunOf(e)], i);
  }

  /** So the action whose turn it is is never taken for a duplicate. */
  lemma DueActionIsNoDuplicate(e: Source, cs: seq<Choice>)
    requires Trimmed(ResolveRunId(e)) && ProperRun(e, cs) && SafeRun(e, cs) && RunOf(e) in Run(e, cs).store.plans
    ensures var s := Run(e, cs).store;
            var next := s.plans[RunOf(e)].NextPendingAction();
            next.Some? ==> next.value.idempotencyKey !in s.keys
  {
    hide ResolveRunId, Key, AgentPlan.NextPendingAction;
    RunKept(e, cs);
    var p := Run(e, cs).store.plans[RunOf(e)];
    NextIsOnTurn(RunOf(e), p);
    if HasTurn(p) {
      SoloKeysAreExact(e, cs, Frontier(p.actions));
    }
  }

  // ---------------------------------------------------------------------
  // Which triggers are safe
  // ---------------------------------------------------------------------

  function Drafts(tool: string, n: nat): (r: seq<Draft>)
    ensures |r| == n && forall i :: 0 <= i < n ==> r[i] == Draft(Decimal(i), tool)
  {
    seq(n, i requires 0 <= i => Draft(Decimal(i), tool))
  }

  /**
    A trigger may make its plan exactly if no key under its prefix is recorded: then no proposal can lead
    to a planned action whose key is recorded; otherwise some proposal does.
   */
  lemma PlanningIsSafe(run: RunId, s: Store, x: Source)
    requires MakesPlan(run, s, x) && RunOf(x) == run
    ensures NoKeyUnder(s.keys, RunPrefix(x, run.id)) <==> forall proposal: Proposal :: UniqueDrafts(proposal.drafts) ==> Undisturbed(run, s, x, proposal)
  {
    hide NoKeyUnder, HandleWhole, Key, RunPrefix, RunOf, MakesPlan, Undisturbed, UniqueDrafts;
    if NoKeyUnder(s.keys, RunPrefix(x, run.id)) {
      forall proposal: Proposal | UniqueDrafts(proposal.drafts) ensures Undisturbed(run, s, x, proposal) {
        FreshPrefixIsUndisturbed(run, s, x, proposal);
      }
    } else {
      var proposal := UsedPrefixIsDisturbed(run, s, x);
    }
  }

  lemma FreshPrefixIsUndisturbed(run: RunId, s: Store, x: Source, proposal: Proposal)
    requires MakesPlan(run, s, x) && RunOf(x) == run && UniqueDrafts(proposal.drafts) && NoKeyUnder(s.keys, RunPrefix(x, run.id))
    ensures Undisturbed(run, s, x, proposal)
  {
    hide HandleWhole, Key, RunPrefix, RunOf, MakesPlan, PlanKept;
    PlanForm(run, s, x, proposal);
  }

  lemma UsedPrefixIsDisturbed(run: RunId, s: Store, x: Source) returns (proposal: Proposal)
    requires MakesPlan(run, s, x) && RunOf(x) == run && !NoKeyUnder(s.keys, RunPrefix(x, run.id))
    ensures UniqueDrafts(proposal.drafts) && !Undisturbed(run, s, x, proposal)
  {
    hide HandleWhole, Key, RunPrefix, RunOf, MakesPlan, PlanKept, UniqueDrafts;
    var prefix := RunPrefix(x, run.id);
    var t, i: nat :| Plain(t) && i > 0 && Key(prefix, t, i) in s.keys;
    proposal := Proposal(x, Drafts(t, i), _ => false);
    DraftsUnique(t, i);
    PlanForm(run, s, x, proposal);
    assert HandleWhole(s, x, proposal).0.plans[run].actions[i - 1].idempotencyKey == Key(prefix, t, i);
  }

  lemma DraftsUnique(tool: string, n: nat)
    requires Plain(tool)
    ensures UniqueDrafts(Drafts(tool, n))
  {
    hide Decimal;
    forall i, j | 0 <= i < j < n ensures Decimal(i) != Decimal(j) {
      if Decimal(i) == Decimal(j) {
        DecimalIsInjective(i, j);
      }
    }
  }

  /** The plan that the proposal leads to has no action whose key is recorded. */
  ghost predicate Undisturbed(run: RunId, s: Store, x: Source, proposal: Proposal) {
    var t := HandleWhole(s, x, proposal).0;
    run in t.plans && forall i :: 0 <= i < |t.plans[run].actions| ==> t.plans[run].actions[i].idempotencyKey !in t.keys
  }

  /** The replan event of the action that is stale now, told by its key. */
  ghost predicate IsCurrent(p: AgentPlan, x: Source) {
    Frontier(p.actions) < |p.actions| && x.idempotencyKey == Some(OnTurn(p).idempotencyKey + ":replan")
  }

  /** A delivery whose trigger, if it replans, is that of the action that is stale now. */
  ghost predicate Current(run: RunId, n: Net, c: Choice) {
    c.Deliver? && c.at < |n.bag| && n.bag[c.at].body.Trigger? && run in n.store.plans && MakesPlan(run, n.store, n.bag[c.at].body.source) ==>
      IsCurrent(n.store.plans[run], n.bag[c.at].body.source)
  }

  ghost predicate CurrentRun(e: Source, cs: seq<Choice>) {
    forall i :: 0 <= i < |cs| ==> Current(RunOf(e), Run(e, cs[..i]), cs[i])
  }

  /** Every recorded key has a prefix no longer than `n`. */
  ghost predicate UpTo(keys: set<string>, n: nat) {
    forall key :: key in keys ==> HasPrefix(key, n)
  }

  ghost predicate HasPrefix(key: string, n: nat) {
    exists q, t, i: nat :: key == Key(q, t, i) && Plain(t) && |q| <= n
  }

  /** The plan has its keys, and no recorded key belongs to a later generation. */
  ghost predicate Linear(run: RunId, s: Store) {
    if run in s.plans then KeysKept(run, s.keys, s.plans[run]) && UpTo(s.keys, |RunPrefix(s.plans[run].source, run.id)|) else s.keys == {}
  }

  lemma CurrentIsSafe(run: RunId, keys: set<string>, p: AgentPlan, x: Source)
    requires PlanKept(run, p) && UpTo(keys, |RunPrefix(p.source, run.id)|) && IsCurrent(p, x)
    ensures NoKeyUnder(keys, RunPrefix(x, run.id)) && |RunPrefix(p.source, run.id)| < |RunPrefix(x, run.id)|
  {
    hide Shaped, RunOf;
    var prefix, next := RunPrefix(p.source, run.id), RunPrefix(x, run.id);
    assert OnTurn(p).idempotencyKey == Key(prefix, OnTurn(p).toolName, Frontier(p.actions) + 1);
    assert |prefix| < |next|;
    forall t, i: nat | Plain(t) && i > 0 && Key(next, t, i) in keys ensures false {
      assert HasPrefix(Key(next, t, i), |prefix|);
      var q, u, j: nat :| Key(next, t, i) == Key(q, u, j) && Plain(u) && |q| <= |prefix|;
      KeyIsInjective(next, t, i, q, u, j);
    }
  }

  lemma MoreUpTo(keys: set<string>, m: nat, n: nat)
    requires UpTo(keys, m) && m <= n
    ensures UpTo(keys, n)
  {
    forall key | key in keys ensures HasPrefix(key, n) {
      var q, t, i: nat :| key == Key(q, t, i) && Plain(t) && |q| <= m;
    }
  }

  lemma VisitLinear(run: RunId, s: Store, sent: set<Message>, aid: string, attempt: nat, correlation: Option<string>, o: Outcome)
    requires Kept(run, s, sent) && Message(ActionRequested(run, aid), attempt) in sent && Linear(run, s)
    ensures Linear(run, Visit(s, run, aid, attempt, correlation, o).store)
  {
    hide Visit, CommitsKept, KeysKept, IsLate, Moving, UpTo, Key, RunPrefix, RunOf, Shaped, StatusOf, Replaced;
    var p := s.plans[run];
    assert MessageKept(run, p, Message(ActionRequested(run, aid), attempt));
    VisitIs(run, s, aid, attempt, correlation, o);
    VisitKeys(run, s, sent, aid, attempt, correlation, o);
    if GivesTurn(s, p, aid) {
      var prefix, a := RunPrefix(p.source, run.id), OnTurn(p);
      assert a.idempotencyKey == Key(prefix, a.toolName, Frontier(p.actions) + 1) && Plain(a.toolName);
      OneMoreUpTo(s.keys, prefix, a.toolName, Frontier(p.actions) + 1);
    } else if IsLate(p, aid) {
      ChooseNextKeeps(s, p);
    }
  }

  lemma OneMoreUpTo(keys: set<string>, prefix: string, tool: string, i: nat)
    requires UpTo(keys, |prefix|) && Plain(tool)
    ensures UpTo(keys + {Key(prefix, tool, i)}, |prefix|) && UpTo(keys + {}, |prefix|)
  {
    hide Key;
    assert HasPrefix(Key(prefix, tool, i), |prefix|);
  }

  lemma {:induction false} HandleActionLinear(run: RunId, s: Store, sent: set<Message>, aid: string, attempt: nat, correlation: Option<string>,
                                              oracle: nat -> Outcome, answers: nat, inlined: nat)
    requires Kept(run, s, sent) && Trimmed(run.id) && Message(ActionRequested(run, aid), attempt) in sent && Linear(run, s)
    ensures Linear(run, HandleAction(s, run, aid, attempt, correlation, oracle, answers, inlined).store)
    decreases INLINE_ACTION_CHAIN_BUDGET - inlined
  {
    hide Visit, Kept, Linear;
    var v := Visit(s, run, aid, attempt, correlation, oracle(answers));
    VisitKept(run, s, sent, aid, attempt, correlation, oracle(answers));
    VisitLinear(run, s, sent, aid, attempt, correlation, oracle(answers));
    if v.next.Some? && !v.next.value.requiresApproval && inlined < INLINE_ACTION_CHAIN_BUDGET {
      HandleActionLinear(run, v.store, sent + Set(v.sent) + Asks(run, v.next), v.next.value.actionId, 0, correlation, oracle, answers + 1, inlined + 1);
    }
  }

  /** A plan made for the replan event of the stale action starts the next generation. */
  lemma PlannedLinear(run: RunId, s: Store, sent: set<Message>, x: Source, proposal: Proposal)
    requires MakesPlan(run, s, x) && RunOf(x) == run && UniqueDrafts(proposal.drafts) && Linear(run, s)
    requires run in s.plans ==> PlanKept(run, s.plans[run]) && IsCurrent(s.plans[run], x)
    ensures NoKeyUnder(s.keys, RunPrefix(x, run.id)) && Linear(run, HandleWhole(s, x, proposal).0)
  {
    hide HandleWhole, KeysKept, Key, RunPrefix, RunOf, PlanKept, HasPrefix;
    if run in s.plans {
      CurrentIsSafe(run, s.keys, s.plans[run], x);
      MoreUpTo(s.keys, |RunPrefix(s.plans[run].source, run.id)|, |RunPrefix(x, run.id)|);
    }
    PlanForm(run, s, x, proposal);
    PlannedKeys(run, s.keys, HandleWhole(s, x, proposal).0.plans[run], x, proposal.drafts);
  }

  lemma HandleLinear(run: RunId, e: Source, n: Net, m: Message, w: World, inlined: nat)
    requires NetKept(run, e, n) && m in n.sent && RunOf(e) == run && Trimmed(run.id) && Linear(run, n.store)
    requires m.body.Trigger? ==> UniqueDrafts(w.proposal.drafts) && FreshIds(run, n, w.proposal.drafts)
    requires m.body.Trigger? && run in n.store.plans && MakesPlan(run, n.store, m.body.source) ==> IsCurrent(n.store.plans[run], m.body.source)
    ensures Linear(run, Handle(n.store, m, AsWhole(w), 0, inlined).store)
    ensures m.body.Trigger? && MakesPlan(run, n.store, m.body.source) ==> NoKeyUnder(n.store.keys, RunPrefix(m.body.source, run.id))
  {
    hide HandleAction, HandleWhole, Kept, FreshIds, UniqueDrafts, RunOf, Trimmed, Linear, NoKeyUnder, RunPrefix, JustPlanned, PlanKept, MakesPlan, IsCurrent;
    KindKept(run, e, n, m);
    if run in n.store.plans {
      KeptParts(run, n.store, n.sent);
    }
    if m.body.ActionRequested? {
      HandleActionLinear(run, n.store, n.sent, m.body.actionId, m.attempt, w.correlation, w.oracle, 0, inlined);
    } else if m.body.Trigger? {
      TriggerKept(run, e, n, m, w.proposal);
      if MakesPlan(run, n.store, m.body.source) {
        PlannedLinear(run, n.store, n.sent, m.body.source, w.proposal);
      } else {
        NoPlanMade(run, n.store, m.body.source);
        ResumeForm(run, n.store, m.body.source, w.proposal);
      }
    }
  }

  lemma NoPlanMade(run: RunId, s: Store, x: Source)
    requires !MakesPlan(run, s, x)
    ensures run in s.plans
  {
  }

  /**
    A run in which every replan is made for the replan event of the action that is stale then, told by
    its key, is safe. Deliveries of other messages may repeat in any way.
   */
  lemma {:induction false} CurrentRunIsSafe(e: Source, cs: seq<Choice>)
    requires Trimmed(ResolveRunId(e)) && ProperRun(e, cs) && CurrentRun(e, cs)
    ensures SafeRun(e, cs) && Linear(RunOf(e), Run(e, cs).store)
  {
    hide Handle, ResolveRunId, NetKept, Linear, NoKeyUnder, UniqueDrafts, FreshIds, MakesPlan, ProperRun, IsCurrent;
    if cs == [] {
      NothingLinear(RunOf(e));
    } else {
      var before, n, c := cs[..|cs| - 1], Run(e, cs[..|cs| - 1]), cs[|cs| - 1];
      ProperBefore(e, cs);
      RunKept(e, before);
      CurrentBefore(e, cs);
      CurrentRunIsSafe(e, before);
      if c.Deliver? && c.at < |n.bag| {
        BagIsSent(RunOf(e), e, n, c.at);
        HandleLinear(RunOf(e), e, n, n.bag[c.at], c.world, c.inlined);
      }
      forall i | 0 <= i < |cs| ensures Safe(RunOf(e), Run(e, cs[..i]), cs[i]) {
        if i < |before| {
          assert cs[..i] == before[..i] && Safe(RunOf(e), Run(e, before[..i]), before[i]);
        }
      }
    }
  }

  lemma NothingLinear(run: RunId)
    ensures Linear(run, EMPTY_STORE)
  {
  }

  lemma CurrentBefore(e: Source, cs: seq<Choice>)
    requires CurrentRun(e, cs) && cs != []
    ensures CurrentRun(e, cs[..|cs| - 1]) && Current(RunOf(e), Run(e, cs[..|cs| - 1]), cs[|cs| - 1])
  {
    var before := cs[..|cs| - 1];
    forall i | 0 <= i < |before| ensures Current(RunOf(e), Run(e, before[..i]), before[i]) {
      assert before[..i] == cs[..i];
    }
  }

  /**
    A replan event delivered in a run that was current so far, for the first time or again: no proposal
    for it can lead to an action whose key is recorded exactly if the event is that of the action that is
    stale now, or no key under its prefix is recorded.
   */
  lemma ReplanGuardIsExact(e: Source, cs: seq<Choice>, x: Source)
    requires Trimmed(ResolveRunId(e)) && ProperRun(e, cs) && CurrentRun(e, cs) && RunOf(x) == RunOf(e)
    requires RunOf(e) in Run(e, cs).store.plans && MakesPlan(RunOf(e), Run(e, cs).store, x)
    ensures var s, run := Run(e, cs).store, RunOf(e);
            (forall proposal: Proposal :: UniqueDrafts(proposal.drafts) ==> Undisturbed(run, s, x, proposal)) <==>
            IsCurrent(s.plans[run], x) || NoKeyUnder(s.keys, RunPrefix(x, run.id))
  {
    hide ResolveRunId, NoKeyUnder, UniqueDrafts, ProperRun, Undisturbed, IsCurrent, PlanKept, MakesPlan, RunOf, Trimmed;
    var s, run := Run(e, cs).store, RunOf(e);
    RunKept(e, cs);
    CurrentRunIsSafe(e, cs);
    PlanningIsSafe(run, s, x);
    if IsCurrent(s.plans[run], x) {
      CurrentIsSafe(run, s.keys, s.plans[run], x);
    }
  }

  /**
    The failing family: once an action of the present plan is COMPLETED, the plan made again for the event
    that made it, with the same tool at that place, holds an action whose key is recorded. Delivering a
    request for it does nothing, so the run goes no further.
   */
  lemma ReplayedReplanHangs(run: RunId, s: Store, proposal: Proposal)
    requires run in s.plans && PlanKept(run, s.plans[run]) && KeysKept(run, s.keys, s.plans[run]) && MakesPlan(run, s, s.plans[run].source)
    requires Frontier(s.plans[run].actions) > 0 && UniqueDrafts(proposal.drafts)
    requires proposal.drafts != [] && proposal.drafts[0].toolName == s.plans[run].actions[0].toolName
    ensures var t := HandleWhole(s, s.plans[run].source, proposal).0;
            && run in t.plans && t.plans[run].NextPendingAction().Some?
            && forall attempt, correlation, o ::
                 Visit(t, run, t.plans[run].NextPendingAction().value.actionId, attempt, correlation, o) == Still(t)
  {
    hide HandleWhole, Key, RunPrefix, RunOf, Shaped, ActOn, AgentPlan.NextPendingAction;
    var p, x := s.plans[run], s.plans[run].source;
    assert p.actions[0].idempotencyKey == Key(RunPrefix(x, run.id), p.actions[0].toolName, 0 + 1);
    assert p.actions[0].idempotencyKey in s.keys;
    PlanForm(run, s, x, proposal);
    var t := HandleWhole(s, x, proposal).0;
    FirstOfPlan(run, t.plans[run], x, proposal.drafts);
    TurnIsFound(run, t.plans[run]);
  }
}
