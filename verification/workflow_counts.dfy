/**
  Counting in runs of a single plan under redelivery: how often a run is reported completed, and how
  often an action is executed.
 */
module WorkflowCounts {
  import opened Common
  import opened Events
  import opened Plans
  import opened Planner
  import opened Runtime
  import Orchestration
  import opened WorkflowRun
  import opened WorkflowKeys

  // ---------------------------------------------------------------------
  // Reports
  // ---------------------------------------------------------------------

  function Completions(run: RunId, s: Store): nat {
    multiset(s.reports)[RunCompleted(run)]
  }

  predicate IsCompleted(run: RunId, s: Store) {
    run in s.plans && s.plans[run].status == PlanStatus.Completed
  }

  /** What one visit or delivery adds to the completion reports of the run. */
  ghost predicate ReportsAdd(run: RunId, s: Store, aid: string, t: Store) {
    && Completions(run, t) == Completions(run, s) + (if IsCompleted(run, s) then (if s.plans[run].GetAction(aid).Some? then 1 else 0)
                                                     else if IsCompleted(run, t) then 1 else 0)
    && (IsCompleted(run, s) ==> t.plans == s.plans)
  }

  lemma CompletedHasNoTurn(run: RunId, p: AgentPlan)
    requires PlanKept(run, p)
    ensures p.status == PlanStatus.Completed <==> p.actions != [] && Frontier(p.actions) == |p.actions|
    ensures p.status == PlanStatus.Completed ==> !HasTurn(p)
  {
  }

  lemma CompletedIsLate(run: RunId, p: AgentPlan, aid: string)
    requires PlanKept(run, p) && p.status == PlanStatus.Completed
    ensures IsLate(p, aid) <==> p.GetAction(aid).Some?
  {
    if p.GetAction(aid).Some? {
      var i := FindActionIndex(p.actions, aid);
    }
  }

  lemma TurnReports(run: RunId, s: Store, aid: string, attempt: nat, correlation: Option<string>, o: Outcome, v: Visited)
    requires run in s.plans && PlanKept(run, s.plans[run]) && HasTurn(s.plans[run]) && TurnTaken(run, s, attempt, correlation, o, v)
    ensures ReportsAdd(run, s, aid, v.store) && (v.next.Some? ==> !IsCompleted(run, v.store))
  {
    hide PlanKept, Moving, AgentPlan.ReplaceAction, AgentPlan.NextPendingAction, Tokens;
    var p := s.plans[run];
    CompletedHasNoTurn(run, p);
    TurnLeaves(run, p, Goes(attempt, o));
    var q := p.ReplaceAction(OnTurn(p).WithStatus(Goes(attempt, o)));
    CompletedHasNoTurn(run, q);
    NextIsOnTurn(run, q);
    OneReport(s.reports, RunCompleted(run));
  }

  lemma LateReports(run: RunId, s: Store, aid: string)
    requires run in s.plans && PlanKept(run, s.plans[run]) && IsLate(s.plans[run], aid)
    ensures var v := ChooseNext(s, s.plans[run], []);
            ReportsAdd(run, s, aid, v.store) && (v.next.Some? ==> !IsCompleted(run, v.store))
  {
    hide ChooseNext, AgentPlan.NextPendingAction;
    var p := s.plans[run];
    assert p.planId == run && p.parentRunId == None;
    CompletedHasNoTurn(run, p);
    ChoiceForm(run, s, p, []);
    NextIsOnTurn(run, p);
    OneReport(s.reports, RunCompleted(run));
  }

  lemma VisitReports(run: RunId, s: Store, sent: set<Message>, aid: string, attempt: nat, correlation: Option<string>, o: Outcome)
    requires Kept(run, s, sent) && Message(ActionRequested(run, aid), attempt) in sent
    ensures var v := Visit(s, run, aid, attempt, correlation, o);
            ReportsAdd(run, s, aid, v.store) && (v.next.Some? ==> !IsCompleted(run, v.store))
  {
    hide Visit, CommitsKept, TurnTaken, PlanKept, IsLate, GivesTurn;
    var p := s.plans[run];
    assert MessageKept(run, p, Message(ActionRequested(run, aid), attempt));
    VisitIs(run, s, aid, attempt, correlation, o);
    if GivesTurn(s, p, aid) {
      TurnGiven(s, p, aid);
      TurnReports(run, s, aid, attempt, correlation, o, Visit(s, run, aid, attempt, correlation, o));
    } else if IsLate(p, aid) {
      LateReports(run, s, aid);
    } else if p.status == PlanStatus.Completed {
      CompletedIsLate(run, p, aid);
    }
  }

  lemma OneReport(reports: seq<Report>, r: Report)
    ensures multiset(reports + [r])[r] == multiset(reports)[r] + 1 && reports + [] == reports
  {
  }

  lemma {:induction false} HandleActionReports(run: RunId, s: Store, sent: set<Message>, aid: string, attempt: nat, correlation: Option<string>,
                                               oracle: nat -> Outcome, answers: nat, inlined: nat)
    requires Kept(run, s, sent) && Trimmed(run.id) && Message(ActionRequested(run, aid), attempt) in sent
    ensures ReportsAdd(run, s, aid, HandleAction(s, run, aid, attempt, correlation, oracle, answers, inlined).store)
    decreases INLINE_ACTION_CHAIN_BUDGET - inlined
  {
    hide Visit, Kept, IsCompleted, Completions;
    var v := Visit(s, run, aid, attempt, correlation, oracle(answers));
    VisitKept(run, s, sent, aid, attempt, correlation, oracle(answers));
    VisitReports(run, s, sent, aid, attempt, correlation, oracle(answers));
    KeptPlan(run, s, sent);
    if v.next.Some? && !v.next.value.requiresApproval && inlined < INLINE_ACTION_CHAIN_BUDGET {
      HandleActionReports(run, v.store, sent + Set(v.sent) + Asks(run, v.next), v.next.value.actionId, 0, correlation, oracle, answers + 1, inlined + 1);
      SamePlansCompleted(run, s, v.store);
    }
  }

  lemma SamePlansCompleted(run: RunId, s: Store, t: Store)
    ensures t.plans == s.plans ==> (IsCompleted(run, s) <==> IsCompleted(run, t))
  {
  }

  /** A delivery of an event for an action of the plan when the plan is COMPLETED already. */
  predicate ComesLate(run: RunId, n: Net, c: Choice) {
    && c.Deliver? && c.at < |n.bag| && n.bag[c.at].body.ActionRequested? && IsCompleted(run, n.store)
    && n.store.plans[run].GetAction(n.bag[c.at].body.actionId).Some?
  }

  /** How many of the deliveries come late. */
  function LateDeliveries(e: Source, cs: seq<Choice>): nat {
    if cs == [] then 0
    else LateDeliveries(e, cs[..|cs| - 1]) + if ComesLate(RunOf(e), Run(e, cs[..|cs| - 1]), cs[|cs| - 1]) then 1 else 0
  }

  lemma TriggerReports(run: RunId, s: Store, x: Source, proposal: Proposal)
    requires RunOf(x) == run && UniqueDrafts(proposal.drafts) && (run in s.plans ==> PlanKept(run, s.plans[run]))
    ensures var t := HandleWhole(s, x, proposal).0;
            Completions(run, t) == Completions(run, s) && (IsCompleted(run, t) <==> IsCompleted(run, s))
  {
    hide HandleWhole, RunOf, UniqueDrafts, Key, RunPrefix;
    if MakesPlan(run, s, x) {
      PlanForm(run, s, x, proposal);
      var t := HandleWhole(s, x, proposal).0;
      CompletedHasNoTurn(run, t.plans[run]);
      assert s.reports + [] == s.reports;
      assert multiset(s.reports + [RunFailed(run)])[RunCompleted(run)] == multiset(s.reports)[RunCompleted(run)];
    } else {
      ResumeForm(run, s, x, proposal);
    }
  }

  /** What a delivery adds to the completion reports of the run. */
  lemma HandleReports(run: RunId, e: Source, n: Net, m: Message, w: World, inlined: nat)
    requires NetKept(run, e, n) && m in n.sent && RunOf(e) == run && Trimmed(run.id)
    requires m.body.Trigger? ==> UniqueDrafts(w.proposal.drafts) && FreshIds(run, n, w.proposal.drafts)
    ensures var t := Handle(n.store, m, AsWhole(w), 0, inlined).store;
            if m.body.ActionRequested? then run in n.store.plans && ReportsAdd(run, n.store, m.body.actionId, t)
            else Completions(run, t) == Completions(run, n.store) && (IsCompleted(run, t) <==> IsCompleted(run, n.store))
  {
    hide HandleAction, HandleWhole, Kept, FreshIds, UniqueDrafts, RunOf, Trimmed, ReportsAdd, PlanKept, IsCompleted, Completions;
    KindKept(run, e, n, m);
    if run in n.store.plans {
      KeptParts(run, n.store, n.sent);
    }
    if m.body.ActionRequested? {
      HandleActionReports(run, n.store, n.sent, m.body.actionId, m.attempt, w.correlation, w.oracle, 0, inlined);
    } else if m.body.Trigger? {
      TriggerKept(run, e, n, m, w.proposal);
      TriggerReports(run, n.store, m.body.source, w.proposal);
    }
  }

  /**
    The exact count: a run whose plan is COMPLETED was reported completed once, and once more for every
    delivery of an event for one of its actions since then. Any other run was never reported completed.
   */
  lemma {:induction false} CompletionsAreCounted(e: Source, cs: seq<Choice>)
    requires Trimmed(ResolveRunId(e)) && ProperRun(e, cs)
    ensures var s := Run(e, cs).store;
            && Completions(RunOf(e), s) == (if IsCompleted(RunOf(e), s) then 1 + LateDeliveries(e, cs) else 0)
            && (!IsCompleted(RunOf(e), s) ==> LateDeliveries(e, cs) == 0)
  {
    hide Handle, ResolveRunId, NetKept, UniqueDrafts, FreshIds, ProperRun;
    if cs == [] {
      assert Run(e, cs).store == EMPTY_STORE;
    } else {
      var before, n, c := cs[..|cs| - 1], Run(e, cs[..|cs| - 1]), cs[|cs| - 1];
      ProperBefore(e, cs);
      RunKept(e, before);
      CompletionsAreCounted(e, before);
      if c.Deliver? && c.at < |n.bag| {
        BagIsSent(RunOf(e), e, n, c.at);
        HandleReports(RunOf(e), e, n, n.bag[c.at], c.world, c.inlined);
      }
    }
  }

  /** A finished run was reported completed once exactly if no event for one of its actions was delivered since. */
  lemma ReportedOnceIff(e: Source, cs: seq<Choice>)
    requires Trimmed(ResolveRunId(e)) && ProperRun(e, cs) && IsCompleted(RunOf(e), Run(e, cs).store)
    ensures Completions(RunOf(e), Run(e, cs).store) == 1 <==>
            forall i :: 0 <= i < |cs| ==> !ComesLate(RunOf(e), Run(e, cs[..i]), cs[i])
  {
    hide Run, ResolveRunId, ProperRun, ComesLate;
    CompletionsAreCounted(e, cs);
    NoneLate(e, cs);
  }

  lemma {:induction false} NoneLate(e: Source, cs: seq<Choice>)
    ensures LateDeliveries(e, cs) == 0 <==> forall i :: 0 <= i < |cs| ==> !ComesLate(RunOf(e), Run(e, cs[..i]), cs[i])
  {
    hide Run, ComesLate;
    if cs != [] {
      var before := cs[..|cs| - 1];
      NoneLate(e, before);
      assert forall i :: 0 <= i < |before| ==> before[..i] == cs[..i] && before[i] == cs[i];
      if LateDeliveries(e, before) == 0 {
        forall i | 0 <= i < |before| ensures !ComesLate(RunOf(e), Run(e, cs[..i]), cs[i]) {
          assert !ComesLate(RunOf(e), Run(e, before[..i]), before[i]);
        }
      } else {
        var i :| 0 <= i < |before| && ComesLate(RunOf(e), Run(e, before[..i]), before[i]);
        assert ComesLate(RunOf(e), Run(e, cs[..i]), cs[i]);
      }
    }
  }
}
