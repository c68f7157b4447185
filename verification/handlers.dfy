/**
  The event handlers in the form the source gives them: objects that read and write the shared store
  and queue step by step. Each is proved to do exactly what the functions of `Runtime` say.
 */
module Handlers {
  import opened Common
  import opened Events
  import opened Subtasks
  import opened JoinProtocol
  import opened Plans
  import opened Planner
  import opened Runtime
  import opened Queues
  import opened MemoryStores

  /**
    What lies outside the runtime: the answers of validator and executor, of planner and router, the
    ids of new events, and the logs of executor calls and of what is reported of runs.
   */
  class Outside {
    const oracle: nat -> Outcome
    const proposals: nat -> Proposal
    const routes: nat -> Route
    const newId: nat -> string
    const noticeCause: string -> Causality
    var answers: nat
    var asked: nat
    var drawn: nat
    ghost var reports: seq<Report>
    ghost var executions: multiset<(RunId, string)>
    ghost var commits: multiset<(RunId, string)>

    constructor (oracle: nat -> Outcome, proposals: nat -> Proposal, routes: nat -> Route, newId: nat -> string, noticeCause: string -> Causality)
      ensures this.oracle == oracle && this.proposals == proposals && this.routes == routes && answers == asked == 0
      ensures reports == [] && executions == commits == multiset{}
    {
      this.oracle, this.proposals, this.routes, this.newId, this.noticeCause := oracle, proposals, routes, newId, noticeCause;
      answers, asked, drawn := 0, 0, 0;
      reports, executions, commits := [], multiset{}, multiset{};
    }

    /** No event is given an empty id. */
    ghost predicate Names() {
      forall k: nat :: newId(k) != "" && oracle(k).eventId != ""
    }

    /** Graphs the router hands out have unique ids. */
    ghost predicate Routes() {
      forall k: nat :: routes(k).Orchestrated? ==> TaskGraph(RunId("", ""), 0, routes(k).nodes, routes(k).synthesizer).WellFormed()
    }

    method Draw() returns (id: string)
      modifies this`drawn
      ensures id == newId(old(drawn))
    {
      id := newId(drawn);
      drawn := drawn + 1;
    }
  }

  /** What the handlers share. */
  class Shared {
    const store: MemoryStateStore
    const queue: MemoryQueue
    const outside: Outside

    constructor (store: MemoryStateStore, queue: MemoryQueue, outside: Outside)
      ensures this.store == store && this.queue == queue && this.outside == outside
    {
      this.store, this.queue, this.outside := store, queue, outside;
    }

    ghost predicate Valid()
      reads store, queue
    {
      store.Valid() && queue.Valid() && AllTraced(queue.enqueued) && outside.Names()
    }

    ghost function State(): Store
      reads store, outside
    {
      store.View(outside.reports, outside.executions, outside.commits)
    }

    /** Enqueue a new event caused by `parent`. */
    method Emit(parent: Envelope, m: Message)
      requires Valid() && IsCause(parent)
      modifies queue, outside`drawn
      ensures Valid() && Grew(old(queue.View()), queue.View(), [m]) && |queue.messages| > 0
      ensures var e := queue.messages[|queue.messages| - 1].envelope;
              e.causality == parent.causality.Child(parent.eventId) && e.correlation == parent.correlation && e.message == m
    {
      var id := outside.Draw();
      EmitUnder(parent, id, parent.correlation, m);
    }

    /** The same under a given id. */
    method EmitUnder(parent: Envelope, id: string, correlation: Option<string>, m: Message)
      requires Valid() && IsCause(parent) && id != ""
      modifies queue
      ensures Valid() && Grew(old(queue.View()), queue.View(), [m])
      ensures |queue.messages| > 0 && queue.messages[|queue.messages| - 1].envelope == Envelope(id, parent.causality.Child(parent.eventId), correlation, m)
    {
      ChildIsTraced(parent.causality, parent.eventId);
      ghost var before := queue.enqueued;
      var q := queue.Enqueue(Envelope(id, parent.causality.Child(parent.eventId), correlation, m));
      OneMoreTraced(before, q);
    }

    /** Enqueue the events a validator or tool emitted, in order. */
    method EmitNotices(events: seq<string>)
      requires Valid()
      modifies queue, outside`drawn
      ensures Valid() && Grew(old(queue.View()), queue.View(), Notices(events))
    {
      hide Grew;
      ghost var before := queue.View();
      GrewNot(before);
      assert Notices(events[..0]) == [];
      for i := 0 to |events|
        invariant Valid() && Grew(before, queue.View(), Notices(events[..i]))
      {
        ghost var mid := queue.View();
        ghost var enqueued := queue.enqueued;
        var id := outside.Draw();
        var q := queue.Enqueue(Envelope(id, outside.noticeCause(events[i]), None, Send(Notice(events[i]))));
        OneMoreTraced(enqueued, q);
        GrewTwice(before, mid, queue.View(), Notices(events[..i]), [Send(Notice(events[i]))]);
        assert Notices(events[..i + 1]) == Notices(events[..i]) + [Send(Notice(events[i]))];
      }
      assert events[..|events|] == events;
    }

    /** Enqueue the tasks of the given nodes, in order. */
    method EmitTasks(parent: Envelope, run: RunId, nodes: seq<SubTask>)
      requires Valid() && IsCause(parent)
      modifies queue, outside`drawn
      ensures Valid() && Grew(old(queue.View()), queue.View(), Tasks(run, nodes))
    {
      hide Grew, AllTraced, IsCause, Contents;
      ghost var before := queue.View();
      GrewNot(before);
      assert Tasks(run, nodes[..0]) == [];
      for i := 0 to |nodes|
        invariant Valid() && Grew(before, queue.View(), Tasks(run, nodes[..i]))
      {
        ghost var mid := queue.View();
        Emit(parent, Send(TaskRequested(run, nodes[i].nodeId)));
        GrewTwice(before, mid, queue.View(), Tasks(run, nodes[..i]), [Send(TaskRequested(run, nodes[i].nodeId))]);
        assert Tasks(run, nodes[..i + 1]) == Tasks(run, nodes[..i]) + [Send(TaskRequested(run, nodes[i].nodeId))];
      }
      assert nodes[..|nodes|] == nodes;
    }
  }

  /** What handling the choice `v` of a next action comes to: it is chained inline, sent, or there is none. */
  function Chain(v: Visited, pid: RunId, correlation: Option<string>, oracle: nat -> Outcome, answers: nat, inlined: nat): Handled {
    match v.next
    case None => Handled(v.store, v.sent, answers, inlined, v.raised)
    case Some(next) =>
      if !next.requiresApproval && inlined < INLINE_ACTION_CHAIN_BUDGET then
        var h := HandleAction(v.store, pid, next.actionId, 0, correlation, oracle, answers, inlined + 1);
        h.(sent := v.sent + h.sent)
      else Handled(v.store, v.sent + [Send(ActionRequested(pid, next.actionId))], answers, inlined, false)
  }

  /** Notices sent before the choice of a next action come first. */
  lemma ChainAfter(s: Store, p: AgentPlan, notices: seq<Message>, pid: RunId, correlation: Option<string>,
                   oracle: nat -> Outcome, answers: nat, inlined: nat)
    ensures var h := Chain(ChooseNext(s, p, []), pid, correlation, oracle, answers, inlined);
            Chain(ChooseNext(s, p, notices), pid, correlation, oracle, answers, inlined) == h.(sent := notices + h.sent)
  {
    hide HandleAction, AgentPlan.NextPendingAction, Settlement;
    var v, w := ChooseNext(s, p, []), ChooseNext(s, p, notices);
    assert w.sent == notices + v.sent;
    if v.next.Some? {
      var tail := Chain(v, pid, correlation, oracle, answers, inlined).sent;
      assert notices + [] + tail == notices + tail;
    }
  }

  /** Saving a plan over another one of the same id leaves only the second. */
  lemma Overwrite(plans: map<RunId, AgentPlan>, p: AgentPlan, q: AgentPlan)
    requires p.planId == q.planId
    ensures plans[p.planId := p][q.planId := q] == plans[q.planId := q]
  {
  }

  /** Nothing is left of the plan as it was saved before the tool ran. */
  lemma ExecuteOverwrites(s: Store, p: AgentPlan, a: PlannedAction, attempt: nat, o: Outcome)
    ensures Execute(s.SavePlan(p.ReplaceAction(a.WithStatus(ActionStatus.Running))), p, a, attempt, o) == Execute(s, p, a, attempt, o)
  {
    hide AgentPlan.ReplaceAction, Settlement, Notices, AgentPlan.NextPendingAction;
    var running := p.ReplaceAction(a.WithStatus(ActionStatus.Running));
    Overwrite(s.plans, running, running.ReplaceAction(a.WithStatus(ActionStatus.Failed)));
    Overwrite(s.plans, running, running.ReplaceAction(a.WithStatus(ActionStatus.Pending)));
    Overwrite(s.plans, running, running.ReplaceAction(a.WithStatus(ActionStatus.Completed)));
    if o.call.Returned? && o.call.decision == Commit {
      hide ChooseNext;
    }
  }

  /** `src/application/action_event_handler.py`. */
  class ActionEventHandler {
    const shared: Shared
    var inlineActionsUsed: nat

    constructor (shared: Shared)
      ensures this.shared == shared && inlineActionsUsed == 0
    {
      this.shared := shared;
      inlineActionsUsed := 0;
    }

    /** The state, queue and counters after a delivery are those of `h`. */
    ghost predicate Did(before: QueueState, h: Handled)
      reads this, shared, shared.store, shared.queue, shared.outside
    {
      && shared.Valid() && shared.State() == h.store && Grew(before, shared.queue.View(), h.sent)
      && shared.outside.answers == h.answers && inlineActionsUsed == h.inlined
    }

    /** `_settle_subplan`, called only for sub-plans. */
    method SettleSubplan(envelope: Envelope, p: AgentPlan, outcome: NodeOutcome)
      requires shared.Valid() && IsCause(envelope)
      modifies shared.queue, shared.outside`drawn
      ensures shared.Valid() && Grew(old(shared.queue.View()), shared.queue.View(), Settlement(p, outcome))
    {
      if p.parentRunId.Some? && p.nodeId.Some? {
        shared.Emit(envelope, Send(NodeSettled(p.parentRunId.value, p.nodeId.value, outcome)));
      } else {
        GrewNot(shared.queue.View());
      }
    }

    /** `_enqueue_next_action`. */
    method EnqueueNextAction(envelope: Envelope, p: AgentPlan) returns (raised: bool)
      requires shared.Valid() && IsCause(envelope)
      modifies this, shared.store, shared.queue, shared.outside
      ensures var h := Chain(ChooseNext(old(shared.State()), p, []), p.planId, envelope.correlation, shared.outside.oracle,
                             old(shared.outside.answers), old(inlineActionsUsed));
              Did(old(shared.queue.View()), h) && raised == h.raised
      decreases INLINE_ACTION_CHAIN_BUDGET - inlineActionsUsed, 0, 0
    {
      hide HandleAction, AgentPlan.NextPendingAction, Settlement, AllTraced, Contents, Traced;
      raised := false;
      var next := p.NextPendingAction();
      if next.None? {
        GrewNot(shared.queue.View());
        if p.status == PlanStatus.Completed {
          if p.IsSubplan() {
            SettleSubplan(envelope, p, NodeCompleted);
            return;
          }
          shared.outside.reports := shared.outside.reports + [RunCompleted(p.planId)];
        }
        return;
      }
      var message := Send(ActionRequested(p.planId, next.value.actionId));
      if !next.value.requiresApproval && inlineActionsUsed < INLINE_ACTION_CHAIN_BUDGET {
        inlineActionsUsed := inlineActionsUsed + 1;
        var id := shared.outside.Draw();
        ChildIsTraced(envelope.causality, envelope.eventId);
        raised := Handle(Envelope(id, envelope.causality.Child(envelope.eventId), envelope.correlation, message));
        return;
      }
      shared.Emit(envelope, message);
    }

    /** The action ends in `status`; a sub-plan settles. */
    method EndAction(envelope: Envelope, p: AgentPlan, a: PlannedAction, status: ActionStatus, outcome: NodeOutcome)
      requires shared.Valid() && IsCause(envelope)
      modifies shared.store`plans, shared.queue, shared.outside`drawn
      ensures shared.Valid()
      ensures var v := End(old(shared.State()), p, a, status, outcome, []);
              shared.State() == v.store && Grew(old(shared.queue.View()), shared.queue.View(), v.sent)
    {
      var q := p.ReplaceAction(a.WithStatus(status));
      shared.store.SavePlan(q);
      SettleSubplan(envelope, q, outcome);
    }

    /** The tool's result is accepted: the action is COMPLETED, its key recorded, and the next one chosen. */
    method Accept(envelope: Envelope, p: AgentPlan, a: PlannedAction, events: seq<string>) returns (raised: bool)
      requires shared.Valid() && IsCause(envelope)
      modifies this, shared.store, shared.queue, shared.outside
      ensures var q := p.ReplaceAction(a.WithStatus(ActionStatus.Completed));
              var done := old(shared.State()).SavePlan(q).RecordKey(a.idempotencyKey);
              var h := Chain(ChooseNext(done.(commits := done.commits + multiset{(p.planId, a.actionId)}), q, Notices(events)), p.planId,
                             envelope.correlation, shared.outside.oracle, old(shared.outside.answers), old(inlineActionsUsed));
              Did(old(shared.queue.View()), h) && raised == h.raised
      decreases INLINE_ACTION_CHAIN_BUDGET - inlineActionsUsed, 1, 0
    {
      hide HandleAction, ChooseNext, AgentPlan.ReplaceAction, Notices, Chain, Contents, Grew;
      ghost var q0, n0, u0 := shared.queue.View(), shared.outside.answers, inlineActionsUsed;
      var q := p.ReplaceAction(a.WithStatus(ActionStatus.Completed));
      shared.store.SavePlan(q);
      shared.store.RecordIdempotencyKey(a.idempotencyKey);
      shared.outside.commits := shared.outside.commits + multiset{(p.planId, a.actionId)};
      shared.EmitNotices(events);
      ghost var s1, q1 := shared.State(), shared.queue.View();
      raised := EnqueueNextAction(envelope, q);
      ghost var rest := Chain(ChooseNext(s1, q, []), p.planId, envelope.correlation, shared.outside.oracle, n0, u0);
      GrewTwice(q0, q1, shared.queue.View(), Notices(events), rest.sent);
      ChainAfter(s1, q, Notices(events), p.planId, envelope.correlation, shared.outside.oracle, n0, u0);
    }

    /** The part of `handle` that runs the tool and acts on what the validator makes of its result. */
    method Run(envelope: Envelope, p: AgentPlan, a: PlannedAction, o: Outcome) returns (raised: bool)
      requires shared.Valid() && IsCause(envelope)
      modifies this, shared.store, shared.queue, shared.outside
      ensures var h := Chain(Execute(old(shared.State()), p, a, envelope.message.attempt, o), p.planId, envelope.correlation,
                             shared.outside.oracle, old(shared.outside.answers), old(inlineActionsUsed));
              Did(old(shared.queue.View()), h) && raised == h.raised
      decreases INLINE_ACTION_CHAIN_BUDGET - inlineActionsUsed, 3, 0
    {
      hide Execute, AgentPlan.ReplaceAction, Contents, Grew, AllTraced, IsCause;
      ExecuteOverwrites(shared.State(), p, a, envelope.message.attempt, o);
      shared.store.SavePlan(p.ReplaceAction(a.WithStatus(ActionStatus.Running)));
      raised := RunTool(envelope, p, a, o);
    }

    /** The call of the tool, once the plan is saved with the action RUNNING, and the choice among what may follow. */
    method RunTool(envelope: Envelope, p: AgentPlan, a: PlannedAction, o: Outcome) returns (raised: bool)
      requires shared.Valid() && IsCause(envelope)
      modifies this, shared.store, shared.queue, shared.outside
      ensures var h := Chain(Execute(old(shared.State()), p, a, envelope.message.attempt, o), p.planId, envelope.correlation,
                             shared.outside.oracle, old(shared.outside.answers), old(inlineActionsUsed));
              Did(old(shared.queue.View()), h) && raised == h.raised
      decreases INLINE_ACTION_CHAIN_BUDGET - inlineActionsUsed, 2, 0
    {
      hide Execute, HandleAction, AgentPlan.ReplaceAction, Contents, Grew, AllTraced, IsCause;
      raised := o.call.Raised? && !p.IsSubplan();
      if o.call.Returned? && o.call.decision == Commit {
        raised := RunCommitted(envelope, p, a, o);
      } else if o.call.Returned? && o.call.decision == Retry && envelope.message.attempt + 1 < ACTION_EXECUTION_ATTEMPTS {
        RunRetried(envelope, p, a, o);
      } else {
        RunToFailure(envelope, p, a, o);
      }
    }

    /** The tool's result is accepted. */
    method RunCommitted(envelope: Envelope, p: AgentPlan, a: PlannedAction, o: Outcome) returns (raised: bool)
      requires shared.Valid() && IsCause(envelope) && o.call.Returned? && o.call.decision == Commit
      modifies this, shared.store, shared.queue, shared.outside
      ensures var h := Chain(Execute(old(shared.State()), p, a, envelope.message.attempt, o), p.planId, envelope.correlation,
                             shared.outside.oracle, old(shared.outside.answers), old(inlineActionsUsed));
              Did(old(shared.queue.View()), h) && raised == h.raised
      decreases INLINE_ACTION_CHAIN_BUDGET - inlineActionsUsed, 1, 1
    {
      hide HandleAction, ChooseNext, AgentPlan.ReplaceAction, Notices, Contents, Grew, AllTraced, IsCause;
      shared.outside.executions := shared.outside.executions + multiset{(p.planId, a.actionId)};
      shared.store.SaveActionResult(p.planId, a.actionId, o.call.output);
      raised := Accept(envelope, p.ReplaceAction(a.WithStatus(ActionStatus.Running)), a, o.call.events);
    }

    /** The tool is to be run again: the action goes back to PENDING and is asked for once more. */
    method RunRetried(envelope: Envelope, p: AgentPlan, a: PlannedAction, o: Outcome)
      requires shared.Valid() && IsCause(envelope) && o.call.Returned?
      requires o.call.decision == Retry && envelope.message.attempt + 1 < ACTION_EXECUTION_ATTEMPTS
      modifies shared.store, shared.queue, shared.outside`drawn, shared.outside`executions
      ensures var v := Execute(old(shared.State()), p, a, envelope.message.attempt, o);
              shared.Valid() && shared.State() == v.store && Grew(old(shared.queue.View()), shared.queue.View(), v.sent) && v.next.None? && !v.raised
    {
      hide ChooseNext, AgentPlan.ReplaceAction, Contents, Grew, AllTraced, IsCause;
      var running := p.ReplaceAction(a.WithStatus(ActionStatus.Running));
      shared.outside.executions := shared.outside.executions + multiset{(p.planId, a.actionId)};
      shared.store.SaveActionResult(p.planId, a.actionId, o.call.output);
      shared.store.SavePlan(running.ReplaceAction(a.WithStatus(ActionStatus.Pending)));
      shared.Emit(envelope, Message(ActionRequested(p.planId, a.actionId), envelope.message.attempt + 1));
    }

    /** The tool raised, or its result is not accepted and it may not run again: the action is FAILED. */
    method RunToFailure(envelope: Envelope, p: AgentPlan, a: PlannedAction, o: Outcome)
      requires shared.Valid() && IsCause(envelope)
      requires o.call.Returned? ==> o.call.decision != Commit && !(o.call.decision == Retry && envelope.message.attempt + 1 < ACTION_EXECUTION_ATTEMPTS)
      modifies shared.store, shared.queue, shared.outside`drawn, shared.outside`executions
      ensures var v := Execute(old(shared.State()), p, a, envelope.message.attempt, o);
              && shared.Valid() && shared.State() == v.store && Grew(old(shared.queue.View()), shared.queue.View(), v.sent)
              && v.next.None? && v.raised == (o.call.Raised? && !p.IsSubplan())
    {
      hide ChooseNext, AgentPlan.ReplaceAction, Contents, Grew, AllTraced, IsCause;
      shared.outside.executions := shared.outside.executions + multiset{(p.planId, a.actionId)};
      if o.call.Returned? {
        shared.store.SaveActionResult(p.planId, a.actionId, o.call.output);
      }
      EndAction(envelope, p.ReplaceAction(a.WithStatus(ActionStatus.Running)), a, ActionStatus.Failed, NodeFailed);
    }

    /** The suggestion is stored for approval; a sub-plan says that it waits. */
    method SuggestAction(envelope: Envelope, p: AgentPlan, a: PlannedAction, o: Outcome)
      requires shared.Valid() && IsCause(envelope) && o.decision == Suggest
      modifies shared.store, shared.queue, shared.outside`drawn
      ensures shared.Valid()
      ensures var v := ActOn(old(shared.State()), p, a, envelope.message.attempt, envelope.correlation, o);
              shared.State() == v.store && Grew(old(shared.queue.View()), shared.queue.View(), v.sent) && v.next.None? && !v.raised
    {
      hide AgentPlan.ReplaceAction, Notices, Settlement, Contents, Grew, AllTraced, IsCause;
      ghost var q0 := shared.queue.View();
      shared.store.SaveActionResult(p.planId, a.actionId, o.suggestion);
      var q := p.ReplaceAction(a.WithStatus(RequiresApproval));
      shared.store.SavePlan(q);
      shared.store.RecordIdempotencyKey(a.idempotencyKey);
      shared.EmitNotices(o.events);
      ghost var q1 := shared.queue.View();
      SettleSubplan(envelope, q, NodeWaiting);
      GrewTwice(q0, q1, shared.queue.View(), Notices(o.events), Settlement(q, NodeWaiting));
    }

    /** The part of `handle` that acts on the validator's decision about an action it has not handled before. */
    method Decide(envelope: Envelope, p: AgentPlan, a: PlannedAction, o: Outcome) returns (raised: bool)
      requires shared.Valid() && IsCause(envelope) && o.eventId != ""
      modifies this, shared.store, shared.queue, shared.outside
      ensures var h := Chain(ActOn(old(shared.State()), p, a, envelope.message.attempt, envelope.correlation, o), p.planId, envelope.correlation,
                             shared.outside.oracle, old(shared.outside.answers), old(inlineActionsUsed));
              Did(old(shared.queue.View()), h) && raised == h.raised
      decreases INLINE_ACTION_CHAIN_BUDGET - inlineActionsUsed, 4, 0
    {
      hide Execute, ChooseNext, AgentPlan.ReplaceAction, Notices, ReplanSource, HandleAction, Contents;
      GrewNot(shared.queue.View());
      raised := false;
      match o.decision
      case Suggest =>
        SuggestAction(envelope, p, a, o);
      case Replan =>
        EndAction(envelope, p, a, Stale, NodeFailed);
        if !p.IsSubplan() {
          var e := ReplanSource(p.source, p.planId.id, a.idempotencyKey, envelope.correlation, o.eventId);
          shared.EmitUnder(envelope, o.eventId, e.correlationId, Send(Trigger(e)));
        }
      case Reject =>
        EndAction(envelope, p, a, ActionStatus.Failed, NodeFailed);
      case _ =>
        raised := Run(envelope, p, a, o);
    }

    /** `handle`. */
    method Handle(envelope: Envelope) returns (raised: bool)
      requires shared.Valid() && IsCause(envelope) && envelope.message.body.ActionRequested?
      modifies this, shared.store, shared.queue, shared.outside
      ensures var m := envelope.message;
              var h := HandleAction(old(shared.State()), m.body.plan, m.body.actionId, m.attempt, envelope.correlation,
                                    shared.outside.oracle, old(shared.outside.answers), old(inlineActionsUsed));
              Did(old(shared.queue.View()), h) && raised == h.raised
      decreases INLINE_ACTION_CHAIN_BUDGET - inlineActionsUsed, 5, 0
    {
      hide ActOn, ChooseNext, AgentPlan.GetAction;
      var pid, aid := envelope.message.body.plan, envelope.message.body.actionId;
      var o := shared.outside.oracle(shared.outside.answers);
      shared.outside.answers := shared.outside.answers + 1;
      GrewNot(shared.queue.View());
      raised := false;
      var plan := shared.store.GetPlan(pid);
      if plan.None? || plan.value.GetAction(aid).None? {
        return true;
      }
      var a := plan.value.GetAction(aid).value;
      if a.status != ActionStatus.Pending {
        if a.status in {ActionStatus.Completed, Skipped} {
          raised := EnqueueNextAction(envelope, plan.value);
        }
        return;
      }
      var duplicate := shared.store.CheckIdempotencyKey(a.idempotencyKey);
      if !duplicate {
        raised := Decide(envelope, plan.value, a, o);
      }
    }
  }
}
