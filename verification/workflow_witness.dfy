/**
  Runs of a single plan in which redelivery does harm: one that is reported completed twice, and one in
  which a replan event delivered again leaves the run with an action that will never be executed.
 */
module WorkflowWitness {
  import opened Common
  import opened Events
  import opened Plans
  import opened Planner
  import opened Runtime
  import Orchestration
  import opened WorkflowRun
  import opened WorkflowKeys
  import opened WorkflowCounts

  // ---------------------------------------------------------------------
  // Steps without notices
  // ---------------------------------------------------------------------

  /** An answer of the validator without events, and the tool's with none either. */
  function Answer(decision: Decision): Outcome {
    Outcome(decision, [], Returned("", Commit, []), "", "x")
  }

  /** The world of a delivery with this proposal and this answer. */
  function Given(x: Source, drafts: seq<Draft>, decision: Decision): World {
    World(_ => Answer(decision), Proposal(x, drafts, _ => false), Ignored, None)
  }

  /** A delivery without inline chaining. */
  function Plainly(at: nat, w: World): Choice {
    Deliver(at, w, INLINE_ACTION_CHAIN_BUDGET)
  }

  lemma PlanStep(run: RunId, n: Net, at: nat, w: World)
    requires at < |n.bag| && n.bag[at].body.Trigger? && MakesPlan(run, n.store, n.bag[at].body.source) && RunOf(n.bag[at].body.source) == run
    requires UniqueDrafts(w.proposal.drafts) && w.proposal.drafts != []
    ensures var r, request := Next(n, Plainly(at, w)), Send(ActionRequested(run, w.proposal.drafts[0].actionId));
            && run in r.store.plans && JustPlanned(run, r.store.plans[run], n.bag[at].body.source, w.proposal.drafts)
            && r.store.keys == n.store.keys && r.store.executions == n.store.executions
            && r.bag == RemoveAt(n.bag, at) + [request] && r.sent == n.sent + {request}
  {
    hide HandleWhole, JustPlanned, RunOf, MakesPlan, UniqueDrafts;
    PlanForm(run, n.store, n.bag[at].body.source, w.proposal);
  }

  lemma ResumeStep(run: RunId, n: Net, at: nat, w: World)
    requires at < |n.bag| && n.bag[at].body.Trigger? && !MakesPlan(run, n.store, n.bag[at].body.source) && RunOf(n.bag[at].body.source) == run
    requires PlanKept(run, n.store.plans[run]) && HasTurn(n.store.plans[run])
    ensures var r, request := Next(n, Plainly(at, w)), Send(ActionRequested(run, OnTurn(n.store.plans[run]).actionId));
            r == Net(n.store, RemoveAt(n.bag, at) + [request], n.sent + {request})
  {
    hide HandleWhole, RunOf, PlanKept;
    ResumeForm(run, n.store, n.bag[at].body.source, w.proposal);
  }

  /** A turn whose answers carry no events sends what moves the run on and nothing else. */
  lemma QuietTurn(run: RunId, s: Store, attempt: nat, correlation: Option<string>, decision: Decision)
    requires run in s.plans && PlanKept(run, s.plans[run]) && HasTurn(s.plans[run]) && (decision == Commit || decision == Decision.Replan)
    ensures var p, o := s.plans[run], Answer(decision);
            var v := ActOn(s, p, OnTurn(p), attempt, correlation, o);
            v.sent == Moving(run, p, OnTurn(p), attempt, correlation, o)
  {
    hide Shaped, Keyed, RunOf, RunPrefix, Replaced, StatusOf, AgentPlan.NextPendingAction, ReplanSource;
    assert Notices([]) == [];
    var p, a := s.plans[run], OnTurn(s.plans[run]);
    if decision == Commit {
      Orchestration.ExecuteForm(s, p, a, attempt, Answer(Commit));
      ChoiceForm(run, Committed(s, p, a, ""), p.ReplaceAction(a.WithStatus(ActionStatus.Completed)), []);
      hide Execute, ChooseNext;
    }
  }

  lemma TurnStep(run: RunId, n: Net, at: nat, w: World, decision: Decision)
    requires at < |n.bag| && n.bag[at].body.ActionRequested? && n.bag[at].body.plan == run && (decision == Commit || decision == Decision.Replan)
    requires run in n.store.plans && PlanKept(run, n.store.plans[run]) && GivesTurn(n.store, n.store.plans[run], n.bag[at].body.actionId)
    requires w.oracle(0) == Answer(decision)
    ensures var r, p, o := Next(n, Plainly(at, w)), n.store.plans[run], Answer(decision);
            var status := if decision == Commit then ActionStatus.Completed else Stale;
            var q := p.ReplaceAction(OnTurn(p).WithStatus(status));
            var out := (if decision == Commit then [] else [Send(Trigger(ReplanSource(p.source, run.id, OnTurn(p).idempotencyKey, w.correlation, "x")))])
                       + (if decision == Commit && HasTurn(q) then [Send(ActionRequested(run, OnTurn(q).actionId))] else []);
            && r.store.plans == n.store.plans[run := q]
            && r.store.keys == n.store.keys + (if decision == Commit then {OnTurn(p).idempotencyKey} else {})
            && r.store.executions == n.store.executions + (if decision == Commit then multiset{(run, OnTurn(p).actionId)} else multiset{})
            && r.bag == RemoveAt(n.bag, at) + out && r.sent == n.sent + Set(out)
  {
    hide ActOn, PlanKept, AgentPlan.ReplaceAction, AgentPlan.NextPendingAction, Tokens, ReplanSource;
    var s, m, p, o := n.store, n.bag[at], n.store.plans[run], Answer(decision);
    VisitOfTurn(run, s, m.body.actionId, m.attempt, w.correlation, o);
    QuietTurn(run, s, m.attempt, w.correlation, decision);
    ActTurn(run, s, m.attempt, w.correlation, o);
    var v := Visit(s, run, m.body.actionId, m.attempt, w.correlation, o);
    var status := if decision == Commit then ActionStatus.Completed else Stale;
    TurnLeaves(run, p, status);
    NextIsOnTurn(run, p.ReplaceAction(OnTurn(p).WithStatus(status)));
    hide Visit;
  }

  lemma ActTurn(run: RunId, s: Store, attempt: nat, correlation: Option<string>, o: Outcome)
    requires run in s.plans && PlanKept(run, s.plans[run]) && HasTurn(s.plans[run])
    ensures TurnTaken(run, s, attempt, correlation, o, ActOn(s, s.plans[run], OnTurn(s.plans[run]), attempt, correlation, o))
  {
    ActTakesTurn(run, s, attempt, correlation, o);
    hide TurnTaken, ActOn;
  }

  lemma VisitOfTurn(run: RunId, s: Store, aid: string, attempt: nat, correlation: Option<string>, o: Outcome)
    requires run in s.plans && PlanKept(run, s.plans[run]) && GivesTurn(s, s.plans[run], aid)
    ensures Visit(s, run, aid, attempt, correlation, o) == ActOn(s, s.plans[run], OnTurn(s.plans[run]), attempt, correlation, o)
  {
    hide ActOn, PlanKept;
    TurnIsFound(run, s.plans[run]);
  }

  /** A request for an action whose key is recorded does nothing. */
  lemma StillStep(run: RunId, n: Net, at: nat, w: World)
    requires at < |n.bag| && n.bag[at].body.ActionRequested? && n.bag[at].body.plan == run
    requires run in n.store.plans && PlanKept(run, n.store.plans[run]) && HasTurn(n.store.plans[run])
    requires OnTurn(n.store.plans[run]).actionId == n.bag[at].body.actionId && OnTurn(n.store.plans[run]).idempotencyKey in n.store.keys
    ensures Next(n, Plainly(at, w)) == n.(bag := RemoveAt(n.bag, at))
  {
    hide ActOn, PlanKept;
    TurnIsFound(run, n.store.plans[run]);
    assert RemoveAt(n.bag, at) + [] == RemoveAt(n.bag, at) && n.sent + Set([]) == n.sent;
  }

  // ---------------------------------------------------------------------
  // Appending choices
  // ---------------------------------------------------------------------

  lemma RunMore(e: Source, cs: seq<Choice>, c: Choice)
    ensures Run(e, cs + [c]) == Next(Run(e, cs), c)
  {
    hide Next;
    assert (cs + [c])[..|cs|] == cs;
  }

  lemma ProperMore(e: Source, cs: seq<Choice>, c: Choice)
    requires ProperRun(e, cs) && Proper(RunOf(e), Run(e, cs), c)
    ensures ProperRun(e, cs + [c])
  {
    hide Run, Proper;
    forall i | 0 <= i < |cs + [c]| ensures Proper(RunOf(e), Run(e, (cs + [c])[..i]), (cs + [c])[i]) {
      if i < |cs| {
        assert (cs + [c])[..i] == cs[..i] && Proper(RunOf(e), Run(e, cs[..i]), cs[i]);
      } else {
        assert (cs + [c])[..i] == cs;
      }
    }
  }

  // ---------------------------------------------------------------------
  // Reported again
  // ---------------------------------------------------------------------

  /**
    Every finished run goes on to be reported completed once more: deliver again any event that was sent
    for an action of its plan.
   */
  lemma RedeliveryReportsAgain(e: Source, cs: seq<Choice>, m: Message, w: World, inlined: nat)
    requires Trimmed(ResolveRunId(e)) && ProperRun(e, cs) && IsCompleted(RunOf(e), Run(e, cs).store)
    requires m in Run(e, cs).sent && m.body.ActionRequested? && Run(e, cs).store.plans[RunOf(e)].GetAction(m.body.actionId).Some?
    ensures var more := cs + [Redeliver(m)] + [Deliver(|Run(e, cs).bag|, w, inlined)];
            && ProperRun(e, more) && IsCompleted(RunOf(e), Run(e, more).store)
            && Completions(RunOf(e), Run(e, more).store) == Completions(RunOf(e), Run(e, cs).store) + 1
  {
    hide ProperRun, ResolveRunId, Run, Handle, Completions, IsCompleted;
    var n, one, c := Run(e, cs), cs + [Redeliver(m)], Deliver(|Run(e, cs).bag|, w, inlined);
    RunMore(e, cs, Redeliver(m));
    ProperMore(e, cs, Redeliver(m));
    RunMore(e, one, c);
    ProperMore(e, one, c);
    CompletionsAreCounted(e, cs);
    CompletionsAreCounted(e, one + [c]);
    LateMore(e, cs, Redeliver(m));
    LateMore(e, one, c);
    CompletedStays(e, one, c);
  }

  lemma LateMore(e: Source, cs: seq<Choice>, c: Choice)
    ensures LateDeliveries(e, cs + [c]) == LateDeliveries(e, cs) + if ComesLate(RunOf(e), Run(e, cs), c) then 1 else 0
  {
    hide Run, ComesLate;
    assert (cs + [c])[..|cs|] == cs;
  }

  /** A late delivery leaves the plan as it is. */
  lemma CompletedStays(e: Source, cs: seq<Choice>, c: Choice)
    requires Trimmed(ResolveRunId(e)) && ProperRun(e, cs) && ComesLate(RunOf(e), Run(e, cs), c)
    ensures IsCompleted(RunOf(e), Next(Run(e, cs), c).store)
  {
    hide ResolveRunId, ProperRun, Run, HandleAction, NetKept, Completions;
    var n := Run(e, cs);
    RunKept(e, cs);
    BagIsSent(RunOf(e), e, n, c.at);
    KindKept(RunOf(e), e, n, n.bag[c.at]);
    HandleReports(RunOf(e), e, n, n.bag[c.at], c.world, c.inlined);
  }

  // ---------------------------------------------------------------------
  // The runs
  // ---------------------------------------------------------------------

  const SEED := Source("w", "e", Some("r"), None, None, [], false)

  const RUN := RunId("w", "r")

  lemma SeedRun()
    ensures RunOf(SEED) == RUN && Trimmed(RUN.id) && ResolveRunId(SEED) == RUN.id && RunPrefix(SEED, RUN.id) == "r"
  {
    assert [SEED.payloadId] + SEED.otherIds == [None] && FirstId([None]) == FirstId([None][1..]);
    assert Strip("r") == "r";
  }

  lemma OneDraft(id: string, tool: string)
    requires Plain(tool)
    ensures UniqueDrafts([Draft(id, tool)])
  {
  }

  /** The run whose one action is COMPLETED. */
  lemma FinishedRun() returns (cs: seq<Choice>)
    ensures Trimmed(ResolveRunId(SEED)) && ProperRun(SEED, cs) && IsCompleted(RUN, Run(SEED, cs).store)
    ensures Send(ActionRequested(RUN, "a")) in Run(SEED, cs).sent && Run(SEED, cs).store.plans[RUN].GetAction("a").Some?
    ensures Completions(RUN, Run(SEED, cs).store) == 1
  {
    hide ProperRun, Run, Next, RunOf, Trimmed, ResolveRunId, RunPrefix, Key, JustPlanned, Completions, IsCompleted;
    SeedRun();
    NothingRun();
    var n0 := Start(SEED);
    var first := FirstPlanned(n0, Commit);
    RunMore(SEED, [], first);
    ProperMore(SEED, [], first);
    assert [] + [first] == [first];
    var second := FirstCompletes(Next(n0, first));
    RunMore(SEED, [first], second);
    ProperMore(SEED, [first], second);
    cs := [first] + [second];
    CompletionsAreCounted(SEED, cs);
    LateMore(SEED, [], first);
    LateMore(SEED, [first], second);
    NotLate(n0, first);
    NotLate(Next(n0, first), second);
  }

  lemma FirstCompletes(n: Net) returns (c: Choice)
    requires RUN in n.store.plans && JustPlanned(RUN, n.store.plans[RUN], SEED, [Draft("a", "t")])
    requires n.store.keys == {} && n.bag == [Send(ActionRequested(RUN, "a"))]
    ensures Proper(RUN, n, c) && !IsCompleted(RUN, n.store)
    ensures IsCompleted(RUN, Next(n, c).store) && Next(n, c).store.plans[RUN].GetAction("a").Some? && n.sent <= Next(n, c).sent
  {
    hide Next, RunOf, RunPrefix, Key, ReplanSource, Trimmed, ResolveRunId, Keyed, Shaped;
    SeedRun();
    var w, p := Given(SEED, [], Commit), n.store.plans[RUN];
    c := Plainly(0, w);
    assert OnTurn(p) == p.actions[0];
    TurnStep(RUN, n, 0, w, Commit);
    TurnLeaves(RUN, p, ActionStatus.Completed);
    Found(Next(n, c).store.plans[RUN].actions, 0);
  }

  lemma NotLate(n: Net, c: Choice)
    requires !IsCompleted(RUN, n.store)
    ensures !ComesLate(RUN, n, c)
  {
  }

  lemma NothingRun()
    ensures Run(SEED, []) == Start(SEED) && ProperRun(SEED, []) && LateDeliveries(SEED, []) == 0 && !IsCompleted(RUN, Start(SEED).store)
  {
  }

  /** A run that is reported completed twice. */
  lemma ReportedTwice() returns (cs: seq<Choice>)
    ensures Trimmed(ResolveRunId(SEED)) && ProperRun(SEED, cs) && Completions(RUN, Run(SEED, cs).store) == 2
  {
    hide ProperRun, Run, Next, RunOf, Trimmed, ResolveRunId;
    SeedRun();
    var finished := FinishedRun();
    var w := Given(SEED, [], Commit);
    RedeliveryReportsAgain(SEED, finished, Send(ActionRequested(RUN, "a")), w, 0);
    cs := finished + [Redeliver(Send(ActionRequested(RUN, "a")))] + [Deliver(|Run(SEED, finished).bag|, w, 0)];
  }

  /** The replan event of the first generation. */
  function FirstReplan(): Source {
    ReplanSource(SEED, RUN.id, Key("r", "t", 1), None, "x")
  }

  lemma FirstReplanIs()
    ensures RunOf(FirstReplan()) == RUN && FirstReplan().replan && RunPrefix(FirstReplan(), RUN.id) == Key("r", "t", 1) + ":replan"
  {
    hide Key, ResolveRunId, Trimmed;
    SeedRun();
    ReplanKeepsRunId(SEED, Key("r", "t", 1), None, "x");
  }

  /** The first generation's action is stale: its replan event waits. */
  ghost predicate FirstStale(n: Net) {
    && n.bag == [Send(Trigger(FirstReplan()))]
    && n.sent == {Send(Trigger(SEED)), Send(ActionRequested(RUN, "a")), Send(Trigger(FirstReplan()))}
    && n.store.keys == {} && n.store.executions == multiset{}
    && RUN in n.store.plans && n.store.plans[RUN].status == ReplanRequired
  }

  lemma FirstPlanned(n: Net, decision: Decision) returns (c: Choice)
    requires n == Start(SEED)
    ensures Proper(RUN, n, c)
    ensures var r := Next(n, c);
            && RUN in r.store.plans && JustPlanned(RUN, r.store.plans[RUN], SEED, [Draft("a", "t")])
            && r.store.keys == {} && r.store.executions == multiset{} && r.bag == [Send(ActionRequested(RUN, "a"))]
            && r.sent == n.sent + {Send(ActionRequested(RUN, "a"))}
  {
    hide Next, RunOf, RunPrefix, Key, ReplanSource, Trimmed, ResolveRunId;
    SeedRun();
    OneDraft("a", "t");
    var w := Given(SEED, [Draft("a", "t")], decision);
    c := Plainly(0, w);
    PlanStep(RUN, n, 0, w);
    assert RemoveAt(n.bag, 0) == [];
  }

  lemma FirstGoesStale(n: Net) returns (c: Choice)
    requires RUN in n.store.plans && JustPlanned(RUN, n.store.plans[RUN], SEED, [Draft("a", "t")])
    requires n.store.keys == {} && n.store.executions == multiset{} && n.bag == [Send(ActionRequested(RUN, "a"))]
    requires n.sent == {Send(Trigger(SEED)), Send(ActionRequested(RUN, "a"))}
    ensures Proper(RUN, n, c) && FirstStale(Next(n, c))
  {
    hide Next, RunOf, RunPrefix, Key, ReplanSource, Trimmed, ResolveRunId, Keyed, Shaped;
    SeedRun();
    var w, p := Given(SEED, [], Decision.Replan), n.store.plans[RUN];
    c := Plainly(0, w);
    assert p.actions[0].idempotencyKey == Key("r", "t", 0 + 1) && OnTurn(p) == p.actions[0];
    TurnStep(RUN, n, 0, w, Decision.Replan);
    TurnLeaves(RUN, p, Stale);
    assert RemoveAt(n.bag, 0) == [];
  }

  lemma ToFirstStale() returns (cs: seq<Choice>)
    ensures ProperRun(SEED, cs) && FirstStale(Run(SEED, cs))
  {
    hide ProperRun, Run, Next, RunOf, Trimmed, ResolveRunId, RunPrefix, Key, ReplanSource, JustPlanned, FirstStale;
    SeedRun();
    NothingRun();
    var n0 := Start(SEED);
    var first := FirstPlanned(n0, Decision.Replan);
    RunMore(SEED, [], first);
    ProperMore(SEED, [], first);
    assert [] + [first] == [first];
    var second := FirstGoesStale(Next(n0, first));
    RunMore(SEED, [first], second);
    ProperMore(SEED, [first], second);
    cs := [first] + [second];
  }

  /** In the second generation one action is COMPLETED and the next is stale. */
  ghost predicate SecondStale(n: Net) {
    && |n.bag| == 1 && n.bag[0].body.Trigger? && RunOf(n.bag[0].body.source) == RUN && Send(Trigger(FirstReplan())) in n.sent
    && Key(RunPrefix(FirstReplan(), RUN.id), "t", 1) in n.store.keys && n.store.executions[(RUN, "d")] == 0
    && (forall m :: m in n.sent ==> m.body != ActionRequested(RUN, "d"))
    && RUN in n.store.plans && n.store.plans[RUN].status == ReplanRequired
  }

  lemma TwoDrafts()
    ensures UniqueDrafts([Draft("b", "t"), Draft("c", "t")])
  {
  }

  lemma SecondPlanned(n: Net) returns (c: Choice)
    requires FirstStale(n)
    ensures Proper(RUN, n, c)
    ensures var r := Next(n, c);
            && RUN in r.store.plans && JustPlanned(RUN, r.store.plans[RUN], FirstReplan(), [Draft("b", "t"), Draft("c", "t")])
            && r.store.keys == {} && r.store.executions == multiset{} && r.bag == [Send(ActionRequested(RUN, "b"))]
            && r.sent == n.sent + {Send(ActionRequested(RUN, "b"))}
  {
    hide Next, RunOf, RunPrefix, Key, ReplanSource;
    FirstReplanIs();
    TwoDrafts();
    var w := Given(SEED, [Draft("b", "t"), Draft("c", "t")], Commit);
    c := Plainly(0, w);
    PlanStep(RUN, n, 0, w);
  }

  /** The next action after the first is COMPLETED, and its key. */
  lemma SecondCommitted(n: Net) returns (c: Choice)
    requires RUN in n.store.plans && JustPlanned(RUN, n.store.plans[RUN], FirstReplan(), [Draft("b", "t"), Draft("c", "t")])
    requires n.store.keys == {} && n.store.executions == multiset{} && n.bag == [Send(ActionRequested(RUN, "b"))]
    ensures Proper(RUN, n, c)
    ensures var r := Next(n, c);
            && RUN in r.store.plans && PlanKept(RUN, r.store.plans[RUN]) && r.store.plans[RUN].source == FirstReplan()
            && HasTurn(r.store.plans[RUN]) && OnTurn(r.store.plans[RUN]).actionId == "c"
            && OnTurn(r.store.plans[RUN]).idempotencyKey == Key(RunPrefix(FirstReplan(), RUN.id), "t", 2)
            && r.store.keys == {Key(RunPrefix(FirstReplan(), RUN.id), "t", 1)} && r.store.executions == multiset{(RUN, "b")}
            && r.bag == [Send(ActionRequested(RUN, "c"))] && r.sent == n.sent + {Send(ActionRequested(RUN, "c"))}
  {
    hide Next, RunOf, RunPrefix, Key, ReplanSource, Keyed, Shaped;
    var w, p, prefix := Given(SEED, [], Commit), n.store.plans[RUN], RunPrefix(FirstReplan(), RUN.id);
    c := Plainly(0, w);
    assert p.actions[0].idempotencyKey == Key(prefix, "t", 0 + 1) && p.actions[1].idempotencyKey == Key(prefix, "t", 1 + 1) && p.actions[1].actionId == "c";
    assert OnTurn(p) == p.actions[0] && GivesTurn(n.store, p, "b");
    TurnStep(RUN, n, 0, w, Commit);
    TurnLeaves(RUN, p, ActionStatus.Completed);
    var r := Next(n, c);
    assert Frontier(r.store.plans[RUN].actions) == 1 && r.store.plans[RUN].actions[1] == p.actions[1];
    assert RemoveAt(n.bag, 0) == [];
  }

  lemma ToSecondStale() returns (cs: seq<Choice>)
    ensures ProperRun(SEED, cs) && SecondStale(Run(SEED, cs))
  {
    hide ProperRun, Run, Next, RunOf, Trimmed, ResolveRunId, RunPrefix, Key, ReplanSource, PlanKept;
    SeedRun();
    var before := ToFirstStale();
    var n2 := Run(SEED, before);
    var c3 := SecondPlanned(n2);
    RunMore(SEED, before, c3);
    ProperMore(SEED, before, c3);
    var n3 := Next(n2, c3);
    var c4 := SecondCommitted(n3);
    RunMore(SEED, before + [c3], c4);
    ProperMore(SEED, before + [c3], c4);
    var n4 := Next(n3, c4);
    var c5 := StaleAgain(n4);
    RunMore(SEED, before + [c3] + [c4], c5);
    ProperMore(SEED, before + [c3] + [c4], c5);
    cs := before + [c3] + [c4] + [c5];
  }

  lemma StaleAgain(n: Net) returns (c: Choice)
    requires RUN in n.store.plans && PlanKept(RUN, n.store.plans[RUN]) && n.store.plans[RUN].source == FirstReplan()
    requires HasTurn(n.store.plans[RUN]) && OnTurn(n.store.plans[RUN]).actionId == "c"
    requires OnTurn(n.store.plans[RUN]).idempotencyKey == Key(RunPrefix(FirstReplan(), RUN.id), "t", 2)
    requires n.store.keys == {Key(RunPrefix(FirstReplan(), RUN.id), "t", 1)} && n.store.executions == multiset{(RUN, "b")}
    requires n.bag == [Send(ActionRequested(RUN, "c"))] && Send(Trigger(FirstReplan())) in n.sent
    requires forall m :: m in n.sent ==> m.body != ActionRequested(RUN, "d")
    ensures Proper(RUN, n, c) && SecondStale(Next(n, c))
  {
    hide Next, RunOf, RunPrefix, Key, ReplanSource, Trimmed, ResolveRunId;
    var w, p, prefix := Given(SEED, [], Decision.Replan), n.store.plans[RUN], RunPrefix(FirstReplan(), RUN.id);
    c := Plainly(0, w);
    if Key(prefix, "t", 2) == Key(prefix, "t", 1) {
      KeyIsInjective(prefix, "t", 2, prefix, "t", 1);
    }
    TurnStep(RUN, n, 0, w, Decision.Replan);
    TurnLeaves(RUN, p, Stale);
    SeedRun();
    ReplanStays(RUN, p, OnTurn(p).idempotencyKey, None, "x");
    assert RemoveAt(n.bag, 0) == [];
  }

  /** The second generation's replan event, delivered again, makes a third plan whose action has the key of the COMPLETED one. */
  ghost predicate Disturbed(n: Net) {
    && RUN in n.store.plans && PlanKept(RUN, n.store.plans[RUN]) && HasTurn(n.store.plans[RUN]) && n.store.plans[RUN].status == Planned
    && OnTurn(n.store.plans[RUN]).actionId == "d" && OnTurn(n.store.plans[RUN]).idempotencyKey in n.store.keys
  }

  lemma Redelivered(n: Net) returns (c: Choice, d: Choice)
    requires SecondStale(n)
    ensures Proper(RUN, n, c) && Proper(RUN, Next(n, c), d)
    ensures var r := Next(Next(n, c), d);
            Disturbed(r) && r.bag == [n.bag[0], Send(ActionRequested(RUN, "d"))]
  {
    hide Next, RunOf, RunPrefix, Key, ReplanSource, Keyed, Shaped;
    FirstReplanIs();
    OneDraft("d", "t");
    var w := Given(SEED, [Draft("d", "t")], Commit);
    c, d := Redeliver(Send(Trigger(FirstReplan()))), Plainly(1, w);
    OneCopy(n, Send(Trigger(FirstReplan())));
    var mid := Next(n, c);
    PlanStep(RUN, mid, 1, w);
    var r := Next(mid, d);
    assert r.store.plans[RUN].actions[0].idempotencyKey == Key(RunPrefix(FirstReplan(), RUN.id), "t", 0 + 1);
    assert RemoveAt(mid.bag, 1) == [n.bag[0]];
  }

  lemma OneCopy(n: Net, m: Message)
    requires m in n.sent
    ensures Next(n, Redeliver(m)) == n.(bag := n.bag + [m])
  {
  }

  /** The requests that still come do nothing. */
  lemma Exhausted(n: Net, first: Message) returns (c: Choice, d: Choice, f: Choice)
    requires Disturbed(n) && n.bag == [first, Send(ActionRequested(RUN, "d"))] && first.body.Trigger? && RunOf(first.body.source) == RUN
    ensures Proper(RUN, n, c) && Proper(RUN, Next(n, c), d) && Proper(RUN, Next(Next(n, c), d), f)
    ensures var r := Next(Next(Next(n, c), d), f);
            r.bag == [] && r.store == n.store
  {
    hide Next, RunOf, PlanKept;
    var w := Given(SEED, [], Commit);
    c, d, f := Plainly(1, w), Plainly(0, w), Plainly(0, w);
    StillStep(RUN, n, 1, w);
    var n1 := Next(n, c);
    assert n1.bag == [first];
    NoDrafts(RUN, n1, d);
    ResumeStep(RUN, n1, 0, w);
    var n2 := Next(n1, d);
    assert n2.bag == [Send(ActionRequested(RUN, "d"))];
    StillStep(RUN, n2, 0, w);
  }

  lemma NoDrafts(run: RunId, n: Net, c: Choice)
    requires c.Deliver? && c.world.proposal.drafts == []
    ensures Proper(run, n, c)
  {
  }

  /** A run in which a replan event is delivered twice: nothing waits any more, and the plan has an action that was never executed. */
  lemma HangingRun() returns (cs: seq<Choice>)
    ensures Trimmed(ResolveRunId(SEED)) && ProperRun(SEED, cs) && Run(SEED, cs).bag == []
    ensures var s := Run(SEED, cs).store;
            RUN in s.plans && s.plans[RUN].NextPendingAction().Some? && s.plans[RUN].NextPendingAction().value.idempotencyKey in s.keys
  {
    hide ProperRun, Run, Next, RunOf, Trimmed, ResolveRunId, PlanKept, AgentPlan.NextPendingAction, FirstReplan;
    SeedRun();
    var before := ToSecondStale();
    var n := Run(SEED, before);
    var c, d := Redelivered(n);
    RunMore(SEED, before, c);
    ProperMore(SEED, before, c);
    RunMore(SEED, before + [c], d);
    ProperMore(SEED, before + [c], d);
    var m := Next(Next(n, c), d);
    var f, g, h := Exhausted(m, n.bag[0]);
    RunMore(SEED, before + [c] + [d], f);
    ProperMore(SEED, before + [c] + [d], f);
    RunMore(SEED, before + [c] + [d] + [f], g);
    ProperMore(SEED, before + [c] + [d] + [f], g);
    RunMore(SEED, before + [c] + [d] + [f] + [g], h);
    ProperMore(SEED, before + [c] + [d] + [f] + [g], h);
    cs := before + [c] + [d] + [f] + [g] + [h];
    NextIsOnTurn(RUN, m.store.plans[RUN]);
  }
}
