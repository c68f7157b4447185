/**
  The bounded drain loop (src/application/recursion_runner.py): a class in the form the source gives it,
  and what its passes over the queue come to. Where no message is cut off, a pass is a delivery of the
  composed system of `Quiescence`, so an orchestrated run that the loop drains is decided.
 */
module RecursionRunners {
  import opened Common
  import opened Events
  import opened Subtasks
  import opened Plans
  import opened Planner
  import opened Runtime
  import opened Queues
  import opened MemoryStores
  import opened Handlers
  import opened Coordination
  import opened Orchestration
  import opened Quiescence

  /**
    What a pass does with the first waiting message: it reaches its handler, with these answers from
    outside, or it is dropped, as a duplicate, or as too deep and then perhaps with a report.
   */
  datatype Pass = Handed(world: World, answers: nat, inlined: nat) | Dropped(failed: Option<RunId>)

  /** The store and the waiting messages, first come first served. */
  datatype Line = Line(store: Store, waiting: seq<Message>)

  /** The store after the pass, and what it sent. */
  function Effect(s: Store, m: Message, p: Pass): (Store, seq<Message>) {
    match p
    case Handed(w, answers, inlined) => var h := Handle(s, m, w, answers, inlined); (h.store, h.sent)
    case Dropped(failed) => (if failed.Some? then s.Reported(RunFailed(failed.value)) else s, [])
  }

  function PassOver(l: Line, p: Pass): Line {
    if l.waiting == [] then l
    else
      var r := Effect(l.store, l.waiting[0], p);
      Line(r.0, l.waiting[1..] + r.1)
  }

  function Passes(l: Line, ps: seq<Pass>): Line {
    if ps == [] then l else PassOver(Passes(l, ps[..|ps| - 1]), ps[|ps| - 1])
  }

  lemma PassesNone(l: Line)
    ensures Passes(l, []) == l
  {
  }

  lemma PassesMore(l: Line, ps: seq<Pass>, p: Pass)
    ensures Passes(l, ps + [p]) == PassOver(Passes(l, ps), p)
  {
    hide PassOver;
    assert (ps + [p])[..|ps|] == ps;
  }

  /** `_event_run_id`; what a notice says of its run is known outside. */
  function EventRunId(e: Envelope, workspace: string, noticeRun: string -> Option<string>): Option<RunId> {
    match e.message.body
    case ActionRequested(plan, _) => Some(plan)
    case TaskRequested(run, _) => if Truthy(e.correlation) then Some(RunId(run.workspace, e.correlation.value)) else None
    case NodeSettled(run, _, _) => if Truthy(e.correlation) then Some(RunId(run.workspace, e.correlation.value)) else None
    case Notice(t) => if noticeRun(t).Some? then Some(RunId(workspace, noticeRun(t).value)) else None
    case Trigger(s) =>
      var explicit := FirstId([s.payloadId] + s.otherIds);
      if explicit.Some? then Some(RunId(s.workspace, explicit.value))
      else if Truthy(s.correlationId) then Some(RunId(s.workspace, s.correlationId.value))
      else if s.idempotencyKey.Some? then Some(RunId(s.workspace, s.idempotencyKey.value))
      else None
  }

  /** Does the trigger name its run otherwise than by its own event id? */
  predicate NamesRun(s: Source) {
    || (exists i :: 0 <= i < |[s.payloadId] + s.otherIds| && NonBlank(([s.payloadId] + s.otherIds)[i]))
    || Truthy(s.correlationId) || Truthy(s.idempotencyKey)
  }

  /**
    A refused event is reported against the run it belongs to: an action's plan, and the run that a trigger
    would start exactly if the trigger names it (or has two empty texts for its key and its event id).
   */
  lemma RefusedIsReportedRight(e: Envelope, workspace: string, noticeRun: string -> Option<string>)
    ensures e.message.body.ActionRequested? ==> EventRunId(e, workspace, noticeRun) == Some(e.message.body.plan)
    ensures e.message.body.Trigger? ==>
              var s := e.message.body.source;
              EventRunId(e, workspace, noticeRun) == Some(RunOf(s)) <==> NamesRun(s) || (s.idempotencyKey == Some("") && s.eventId == "")
    ensures (e.message.body.TaskRequested? || e.message.body.NodeSettled?) && e.correlation == Some(e.message.body.run.id) && e.message.body.run.id != "" ==>
              EventRunId(e, workspace, noticeRun) == Some(e.message.body.run)
  {
    if e.message.body.Trigger? {
      FirstIdIs([e.message.body.source.payloadId] + e.message.body.source.otherIds);
    }
    hide NonBlank, FirstId;
  }

  // ---------------------------------------------------------------------
  // Work done by one delivery
  // ---------------------------------------------------------------------

  /** A delivery runs tools at most once, and once more for every action it chains inline. */
  lemma {:induction false} HandleActionCost(s: Store, pid: RunId, aid: string, attempt: nat, correlation: Option<string>,
                                            oracle: nat -> Outcome, answers: nat, inlined: nat)
    requires inlined <= INLINE_ACTION_CHAIN_BUDGET
    ensures var h := HandleAction(s, pid, aid, attempt, correlation, oracle, answers, inlined);
            && inlined <= h.inlined <= INLINE_ACTION_CHAIN_BUDGET
            && |h.store.executions| <= |s.executions| + 1 + (h.inlined - inlined)
    decreases INLINE_ACTION_CHAIN_BUDGET - inlined
  {
    var v := Visit(s, pid, aid, attempt, correlation, oracle(answers));
    VisitCost(s, pid, aid, attempt, correlation, oracle(answers));
    hide Visit;
    if v.next.Some? && !v.next.value.requiresApproval && inlined < INLINE_ACTION_CHAIN_BUDGET {
      HandleActionCost(v.store, pid, v.next.value.actionId, 0, correlation, oracle, answers + 1, inlined + 1);
    }
  }

  lemma VisitCost(s: Store, pid: RunId, aid: string, attempt: nat, correlation: Option<string>, o: Outcome)
    ensures |Visit(s, pid, aid, attempt, correlation, o).store.executions| <= |s.executions| + 1
  {
    hide AgentPlan.NextPendingAction, AgentPlan.GetAction, ActOn;
    if pid in s.plans && s.plans[pid].GetAction(aid).Some? {
      ActCost(s, s.plans[pid], s.plans[pid].GetAction(aid).value, attempt, correlation, o);
    }
  }

  lemma ActCost(s: Store, p: AgentPlan, a: PlannedAction, attempt: nat, correlation: Option<string>, o: Outcome)
    ensures |ActOn(s, p, a, attempt, correlation, o).store.executions| <= |s.executions| + 1
  {
    hide AgentPlan.ReplaceAction, ChooseNext, End, Notices, ReplanSource;
  }

  lemma HandleCost(s: Store, m: Message, w: World, answers: nat, inlined: nat)
    requires inlined <= INLINE_ACTION_CHAIN_BUDGET
    ensures var h := Handle(s, m, w, answers, inlined);
            && inlined <= h.inlined <= INLINE_ACTION_CHAIN_BUDGET
            && |h.store.executions| <= |s.executions| + 1 + (h.inlined - inlined)
  {
    hide HandleAction;
    if m.body.ActionRequested? {
      HandleActionCost(s, m.body.plan, m.body.actionId, m.attempt, w.correlation, w.oracle, answers, inlined);
    }
  }

  // ---------------------------------------------------------------------
  // Conservation, step by step
  // ---------------------------------------------------------------------

  lemma MessageTaken(q: QueueState, r: QueueState)
    requires Conserved(q, []) && q.messages != [] && r == q.(messages := q.messages[1..])
    ensures Conserved(r, [q.messages[0].id])
    ensures Contents(q.messages)[0] == q.messages[0].envelope.message && Contents(r.messages) == Contents(q.messages)[1..]
  {
    assert MessageIds(q.messages) == [q.messages[0].id] + MessageIds(r.messages);
  }

  lemma MessageAcked(q: QueueState, r: QueueState, m: QueueMessage)
    requires Conserved(q, [m.id]) && r == q.(acked := q.acked + [m.id])
    ensures Conserved(r, [])
  {
  }

  lemma MessageFailed(q: QueueState, r: QueueState, m: QueueMessage, reason: string)
    requires Conserved(q, [m.id]) && r == q.(failed := q.failed + [(m, reason)])
    ensures Conserved(r, [])
  {
    assert FailedIds(r.failed) == FailedIds(q.failed) + [m.id];
  }

  lemma GrewWaiting(a: QueueState, b: QueueState, sent: seq<Message>)
    requires Grew(a, b, sent)
    ensures Contents(b.messages) == Contents(a.messages) + sent
    ensures |b.enqueued| - |b.messages| == |a.enqueued| - |a.messages| && b.acked == a.acked && b.failed == a.failed
  {
    assert b.messages == a.messages + b.messages[|a.messages|..];
  }

  // ---------------------------------------------------------------------
  // The runner
  // ---------------------------------------------------------------------

  ghost predicate EachOnce(ids: seq<string>) {
    forall i, j :: 0 <= i < j < |ids| ==> ids[i] != ids[j]
  }

  /** Only ids that were seen earlier, or that the messages from `from` up to `to` carry, are in `seen`. */
  ghost predicate SeenOnly(seen: set<string>, earlier: set<string>, enqueued: seq<QueueMessage>, from: nat, to: nat) {
    to <= |enqueued| && forall id :: id in seen ==> id in earlier || exists i :: from <= i < to && enqueued[i].envelope.eventId == id
  }

  lemma SeenBefore(seen: set<string>, enqueued: seq<QueueMessage>, from: nat)
    requires from <= |enqueued|
    ensures SeenOnly(seen, seen, enqueued, from, from)
  {
  }

  lemma SeenMore(seen: set<string>, now: set<string>, earlier: set<string>, before: seq<QueueMessage>, after: seq<QueueMessage>, from: nat, at: nat)
    requires SeenOnly(seen, earlier, before, from, at) && from <= at < |before| && before <= after
    requires now <= seen + {before[at].envelope.eventId}
    ensures SeenOnly(now, earlier, after, from, at + 1)
  {
    forall id | id in now && id !in earlier ensures exists i :: from <= i < at + 1 && after[i].envelope.eventId == id {
      if id in seen {
        var i :| from <= i < at && before[i].envelope.eventId == id;
        assert after[i].envelope.eventId == id;
      } else {
        assert after[at].envelope.eventId == id;
      }
    }
  }

  /** The outside answers for the orchestrated run `x`: every trigger is routed to it, and every proposal is well-formed. */
  ghost predicate Serves(outside: Outside, x: Setup) {
    && (forall k: nat :: outside.routes(k) == Orchestrated(x.nodes, x.synthesizer))
    && (forall k: nat :: UniqueDrafts(outside.proposals(k).drafts))
  }

  /** Handed-over messages get the answers of this process's outside world. */
  ghost predicate Genuine(outside: Outside, p: Pass) {
    p.Handed? ==>
      && (exists k: nat {:trigger outside.proposals(k)} :: p.world.proposal == outside.proposals(k))
      && (exists k: nat {:trigger outside.routes(k)} :: p.world.route == outside.routes(k))
  }

  class RecursionRunner {
    const shared: Shared
    const triggers: DomainEventHandler
    const actions: ActionEventHandler
    const coordinator: Option<SubAgentCoordinator>
    const maxRecursionDepth: int
    const workspace: string
    const noticeRun: string -> Option<string>
    var seenEventIds: set<string>
    ghost var handled: seq<string>

    /** The event ids handed to a handler are those seen, each handed over once. */
    ghost predicate Valid()
      reads this, actions, shared.store, shared.queue
    {
      && shared.Valid() && actions.shared == shared && triggers.shared == shared
      && (coordinator.Some? ==> coordinator.value.shared == shared)
      && actions.inlineActionsUsed <= INLINE_ACTION_CHAIN_BUDGET
      && EachOnce(handled) && (forall id :: id in seenEventIds <==> id in handled)
    }

    ghost function View(): Line
      reads shared.store, shared.queue, shared.outside
    {
      Line(shared.State(), Contents(shared.queue.messages))
    }

    constructor (triggers: DomainEventHandler, actions: ActionEventHandler, coordinator: Option<SubAgentCoordinator>,
                 maxRecursionDepth: int, workspace: string, noticeRun: string -> Option<string>)
      requires triggers.shared.Valid() && actions.shared == triggers.shared && actions.inlineActionsUsed <= INLINE_ACTION_CHAIN_BUDGET
      requires coordinator.Some? ==> coordinator.value.shared == triggers.shared
      ensures Valid() && shared == triggers.shared && handled == [] && this.maxRecursionDepth == maxRecursionDepth
      ensures this.actions == actions && this.coordinator == coordinator
    {
      this.shared, this.triggers, this.actions, this.coordinator := triggers.shared, triggers, actions, coordinator;
      this.maxRecursionDepth, this.workspace, this.noticeRun := maxRecursionDepth, workspace, noticeRun;
      seenEventIds, handled := {}, [];
    }

    /** Sub-agent events fail when no coordinator is configured. */
    predicate Unserved(m: Message) {
      coordinator.None? && (m.body.TaskRequested? || m.body.NodeSettled?)
    }

    /** How many events one `Run` may hand over. */
    function Limit(): nat {
      if maxRecursionDepth < 0 then 0 else maxRecursionDepth
    }

    predicate TooDeep(processed: nat, e: Envelope) {
      processed >= maxRecursionDepth || e.causality.depth > maxRecursionDepth
    }

    /**
      None of the messages enqueued from position `from` on is cut off: there are no more of them than
      the runner may process, none is too deep, each has an event id of its own that was not seen before.
     */
    ghost predicate Uncut(enqueued: seq<QueueMessage>, from: nat, seen: set<string>) {
      && |enqueued| <= from + Limit()
      && (forall i :: from <= i < |enqueued| ==> enqueued[i].envelope.causality.depth <= maxRecursionDepth && enqueued[i].envelope.eventId !in seen)
      && (forall i, j :: from <= i < j < |enqueued| ==> enqueued[i].envelope.eventId != enqueued[j].envelope.eventId)
      && coordinator.Some?
    }

    /** The handler that an event goes to. Sub-agent events need a coordinator. */
    method HandleEvent(envelope: Envelope) returns (raised: bool, ghost pass: Pass)
      requires Valid() && shared.outside.Routes() && (envelope.message.body.Notice? || IsCause(envelope))
      modifies actions, shared.store, shared.queue, shared.outside
      ensures Valid() && Genuine(shared.outside, pass) && old(shared.queue.enqueued) <= shared.queue.enqueued
      ensures if Unserved(envelope.message) then raised && pass == Dropped(None)
              else pass.Handed? && raised == Handle(old(shared.State()), envelope.message, pass.world, pass.answers, pass.inlined).raised
      ensures var r := Effect(old(shared.State()), envelope.message, pass);
              shared.State() == r.0 && Grew(old(shared.queue.View()), shared.queue.View(), r.1)
      ensures |shared.outside.executions| + old(actions.inlineActionsUsed)
           <= |old(shared.outside.executions)| + 1 + actions.inlineActionsUsed
    {
      hide HandleAction, Runtime.HandleTask, HandleSettled, Runtime.HandleOrchestrated, Runtime.HandleWhole, Contents, AllTraced, IsCause;
      var m := envelope.message;
      var k := shared.outside.asked;
      raised := false;
      pass := Handed(World(shared.outside.oracle, shared.outside.proposals(k), shared.outside.routes(k), envelope.correlation),
                     shared.outside.answers, actions.inlineActionsUsed);
      HandleCost(shared.State(), m, pass.world, pass.answers, pass.inlined);
      GrewNot(shared.queue.View());
      match m.body
      case ActionRequested(_, _) =>
        raised := actions.Handle(envelope);
      case Trigger(e) =>
        triggers.Handle(envelope, e);
      case Notice(_) =>
      case _ =>
        if coordinator.None? {
          return true, Dropped(None);
        }
        coordinator.value.Handle(envelope);
    }

    /** A message beyond the limits fails, and the run it names is reported failed (`record_max_depth_failure`). */
    method Refuse(message: QueueMessage) returns (ghost pass: Pass)
      requires Valid() && Conserved(shared.queue.View(), [message.id])
      modifies shared.queue, shared.outside`reports
      ensures Valid() && Conserved(shared.queue.View(), []) && Genuine(shared.outside, pass)
      ensures pass == Dropped(EventRunId(message.envelope, workspace, noticeRun))
      ensures var r := Effect(old(shared.State()), message.envelope.message, pass);
              View() == Line(r.0, old(Contents(shared.queue.messages)) + r.1)
      ensures shared.queue.View() == old(shared.queue.View()).(failed := old(shared.queue.failed) + [(message, "max_recursion_depth_exceeded")])
    {
      hide Conserved, Handle, EventRunId, Contents;
      MessageFailed(shared.queue.View(), shared.queue.View().(failed := shared.queue.failed + [(message, "max_recursion_depth_exceeded")]),
                    message, "max_recursion_depth_exceeded");
      shared.queue.Fail(message, "max_recursion_depth_exceeded");
      var run := EventRunId(message.envelope, workspace, noticeRun);
      if run.Some? {
        shared.outside.reports := shared.outside.reports + [RunFailed(run.value)];
      }
      pass := Dropped(run);
      assert Contents(shared.queue.messages) + [] == Contents(shared.queue.messages);
    }

    /** A message whose event was seen before is acknowledged without being handled. */
    method SkipDuplicate(message: QueueMessage) returns (ghost pass: Pass)
      requires Valid() && Conserved(shared.queue.View(), [message.id])
      modifies shared.queue
      ensures Valid() && Conserved(shared.queue.View(), []) && Genuine(shared.outside, pass) && pass == Dropped(None)
      ensures var r := Effect(old(shared.State()), message.envelope.message, pass);
              View() == Line(r.0, old(Contents(shared.queue.messages)) + r.1)
      ensures shared.queue.View() == old(shared.queue.View()).(acked := old(shared.queue.acked) + [message.id])
    {
      hide Conserved, Handle, Contents;
      MessageAcked(shared.queue.View(), shared.queue.View().(acked := shared.queue.acked + [message.id]), message);
      shared.queue.Ack(message);
      pass := Dropped(None);
      assert Contents(shared.queue.messages) + [] == Contents(shared.queue.messages);
    }

    /** The part of a pass that hands a message to its handler and settles it. */
    method HandOver(message: QueueMessage) returns (ghost pass: Pass)
      requires Valid() && shared.outside.Routes() && Conserved(shared.queue.View(), [message.id])
      requires message.envelope.eventId !in seenEventIds && (message.envelope.message.body.Notice? || IsCause(message.envelope))
      modifies this, actions, shared.store, shared.queue, shared.outside
      ensures Valid() && Conserved(shared.queue.View(), []) && Genuine(shared.outside, pass) && handled == old(handled) + [message.envelope.eventId]
      ensures seenEventIds == old(seenEventIds) + {message.envelope.eventId}
      ensures old(shared.queue.enqueued) <= shared.queue.enqueued && (pass.Dropped? <==> Unserved(message.envelope.message))
      ensures |shared.queue.enqueued| - |shared.queue.messages| == |old(shared.queue.enqueued)| - |old(shared.queue.messages)|
      ensures var raised := pass.Dropped? || Handle(old(shared.State()), message.envelope.message, pass.world, pass.answers, pass.inlined).raised;
              && shared.queue.acked == old(shared.queue.acked) + (if raised then [] else [message.id])
              && shared.queue.failed == old(shared.queue.failed) + (if raised then [(message, "raised")] else [])
      ensures var r := Effect(old(shared.State()), message.envelope.message, pass);
              View() == Line(r.0, Contents(old(shared.queue.messages)) + r.1)
      ensures |shared.outside.executions| + old(actions.inlineActionsUsed)
           <= |old(shared.outside.executions)| + 1 + actions.inlineActionsUsed
    {
      hide Effect, Contents, Conserved, Handle, AllTraced, IsCause, Grew, Genuine, Unserved;
      ghost var before := shared.queue.View();
      seenEventIds := seenEventIds + {message.envelope.eventId};
      handled := handled + [message.envelope.eventId];
      var raised: bool;
      raised, pass := HandleEvent(message.envelope);
      ghost var after, sent := shared.queue.View(), Effect(old(shared.State()), message.envelope.message, pass).1;
      GrowthConserves(before, after, sent, [message.id]);
      GrewWaiting(before, after, sent);
      if raised {
        shared.queue.Fail(message, "raised");
        MessageFailed(after, shared.queue.View(), message, "raised");
      } else {
        shared.queue.Ack(message);
        MessageAcked(after, shared.queue.View(), message);
      }
    }

    /** One pass of the loop over a non-empty queue. */
    method Step(processed: nat) returns (now: nat, empty: bool, ghost pass: Pass)
      requires Valid() && shared.outside.Routes() && Conserved(shared.queue.View(), []) && shared.queue.messages != []
      requires processed <= Limit()
      modifies this, actions, shared.store, shared.queue, shared.outside
      ensures Valid() && Conserved(shared.queue.View(), []) && Genuine(shared.outside, pass)
      ensures View() == PassOver(old(View()), pass) && empty == (shared.queue.messages == [])
      ensures old(handled) <= handled && |handled| - |old(handled)| == now - processed
      ensures now == processed || now == processed + 1 <= Limit()
      ensures old(shared.queue.enqueued) <= shared.queue.enqueued && |shared.queue.enqueued| - |shared.queue.messages|
                == |old(shared.queue.enqueued)| - |old(shared.queue.messages)| + 1
      ensures var m := old(shared.queue.messages[0]);
              if TooDeep(processed, m.envelope) then
                && now == processed && seenEventIds == old(seenEventIds) && pass == Dropped(EventRunId(m.envelope, workspace, noticeRun))
                && shared.queue.failed == old(shared.queue.failed) + [(m, "max_recursion_depth_exceeded")]
              else if m.envelope.eventId in old(seenEventIds) then
                now == processed && seenEventIds == old(seenEventIds) && pass == Dropped(None) && shared.queue.acked == old(shared.queue.acked) + [m.id]
              else
                && now == processed + 1 && seenEventIds == old(seenEventIds) + {m.envelope.eventId} && (pass.Handed? <==> !Unserved(m.envelope.message))
                && handled == old(handled) + [m.envelope.eventId]
      ensures var m := old(shared.queue.messages[0]);
              m.envelope.causality.depth > maxRecursionDepth || processed >= maxRecursionDepth ==>
                && now == processed && handled == old(handled) && pass.Dropped? && shared.queue.acked == old(shared.queue.acked)
                && (m.envelope.message.body.ActionRequested? ==> pass == Dropped(Some(m.envelope.message.body.plan)))
      ensures var m := old(shared.queue.messages[0]);
              m.envelope.causality.depth <= maxRecursionDepth && processed < maxRecursionDepth && m.envelope.eventId !in old(seenEventIds) ==>
                handled == old(handled) + [m.envelope.eventId]
      ensures now == processed ==> |shared.queue.messages| < |old(shared.queue.messages)|
      ensures |shared.outside.executions| + old(actions.inlineActionsUsed)
           <= |old(shared.outside.executions)| + (now - processed) + actions.inlineActionsUsed
    {
      hide Conserved, Handle, Contents, EventRunId, Genuine, Effect;
      ghost var q0 := shared.queue.View();
      var taken := shared.queue.Dequeue();
      var message := taken.value;
      ghost var q1 := shared.queue.View();
      MessageTaken(q0, q1);
      now := processed;
      if TooDeep(processed, message.envelope) {
        pass := Refuse(message);
        RefusedIsReportedRight(message.envelope, workspace, noticeRun);
      } else if message.envelope.eventId in seenEventIds {
        pass := SkipDuplicate(message);
      } else {
        pass := HandOver(message);
        now := processed + 1;
      }
      empty := shared.queue.IsEmpty();
    }

    /** The bookkeeping of a pass over the message at position `at`: while nothing is cut off, it is handed over. */
    lemma PassAccounts(before: seq<QueueMessage>, after: seq<QueueMessage>, at: nat, from: nat, earlier: set<string>,
                       seen: set<string>, now: set<string>, processed: nat)
      requires before <= after && from <= at < |before| && processed <= at - from
      requires SeenOnly(seen, earlier, before, from, at) && now <= seen + {before[at].envelope.eventId}
      ensures SeenOnly(now, earlier, after, from, at + 1)
      ensures Uncut(after, from, earlier) ==> Uncut(before, from, earlier)
      ensures var e := before[at].envelope;
              Uncut(after, from, earlier) ==> !TooDeep(processed, e) && e.eventId !in seen && !Unserved(e.message)
    {
      SeenMore(seen, now, earlier, before, after, from, at);
      forall i | from <= i < |before| ensures before[i] == after[i] {}
    }

    /**
      `run`: it ends although handlers keep enqueueing; the queue is then empty and every message
      acknowledged or failed once; no event id reached a handler twice; tools ran at most as often as
      `maxRecursionDepth` and what was left of the inline budget allow. If no message was cut off, all
      of them reached a handler; an orchestrated run that started on an empty store is then decided.
     */
    method Run(seed: Envelope) returns (ghost passes: seq<Pass>)
      requires Valid() && shared.outside.Routes() && Conserved(shared.queue.View(), []) && IsCause(seed)
      modifies this, actions, shared.store, shared.queue, shared.outside
      ensures Valid() && Conserved(shared.queue.View(), []) && shared.queue.messages == []
      ensures View() == Passes(Line(old(shared.State()), Contents(old(shared.queue.messages)) + [seed.message]), passes)
      ensures forall p :: p in passes ==> Genuine(shared.outside, p)
      ensures old(handled) <= handled && |handled| - |old(handled)| <= Limit()
      ensures |shared.outside.executions| <= |old(shared.outside.executions)| + Limit() + INLINE_ACTION_CHAIN_BUDGET - old(actions.inlineActionsUsed)
      ensures Uncut(shared.queue.enqueued, |old(shared.queue.enqueued)| - |old(shared.queue.messages)|, old(seenEventIds)) ==>
                forall p :: p in passes ==> p.Handed?
      ensures old(shared.State()) == EMPTY_STORE && old(shared.queue.messages) == [] ==>
                Uncut(shared.queue.enqueued, |old(shared.queue.enqueued)|, old(seenEventIds)) ==>
                  forall x: Setup :: Serves(shared.outside, x) && x.Valid() && seed.message == Send(Trigger(x.source)) ==>
                    x.Run() in shared.store.taskGraphs && Decided(x.Run(), shared.State())
    {
      hide Passes, PassOver, Conserved, Decided, Handle, EventRunId, Contents, Uncut, Grew, Serves, Setup.Valid, Genuine, SeenOnly, AllTraced, IsCause,
           EachOnce;
      ghost var before := shared.queue.View();
      OneMoreTraced(shared.queue.enqueued, QueueMessage(|shared.queue.enqueued|, seed));
      var m := shared.queue.Enqueue(seed);
      GrowthConserves(before, shared.queue.View(), [seed.message], []);
      GrewWaiting(before, shared.queue.View(), [seed.message]);
      ghost var start := View();
      passes := Drain();
      if start == Line(EMPTY_STORE, [seed.message]) && forall p :: p in passes ==> p.Handed? {
        ServedIsDecided(shared.outside, seed.message, passes);
      }
    }

    /** The loop of `run`, over a queue in which something waits. */
    method Drain() returns (ghost passes: seq<Pass>)
      requires Valid() && shared.outside.Routes() && Conserved(shared.queue.View(), []) && shared.queue.messages != []
      modifies this, actions, shared.store, shared.queue, shared.outside
      ensures Valid() && Conserved(shared.queue.View(), []) && shared.queue.messages == []
      ensures View() == Passes(old(View()), passes) && forall p :: p in passes ==> Genuine(shared.outside, p)
      ensures old(handled) <= handled && |handled| - |old(handled)| <= Limit()
      ensures |shared.outside.executions| <= |old(shared.outside.executions)| + Limit() + INLINE_ACTION_CHAIN_BUDGET - old(actions.inlineActionsUsed)
      ensures Uncut(shared.queue.enqueued, |old(shared.queue.enqueued)| - |old(shared.queue.messages)|, old(seenEventIds)) ==>
                forall p :: p in passes ==> p.Handed?
    {
      hide Passes, PassOver, Conserved, Handle, EventRunId, Contents, Uncut, Genuine, SeenOnly, TooDeep, Unserved, AllTraced, EachOnce;
      ghost var from, start := |shared.queue.enqueued| - |shared.queue.messages|, View();
      PassesNone(start);
      SeenBefore(seenEventIds, shared.queue.enqueued, from);
      var processed: nat := 0;
      passes := [];
      var empty := false;
      while !empty
        invariant empty <==> shared.queue.messages == []
        invariant Valid() && Conserved(shared.queue.View(), [])
        invariant View() == Passes(start, passes) && forall p :: p in passes ==> Genuine(shared.outside, p)
        invariant old(handled) <= handled && |handled| - |old(handled)| == processed <= Limit()
        invariant |shared.outside.executions| + old(actions.inlineActionsUsed)
               <= |old(shared.outside.executions)| + processed + actions.inlineActionsUsed
        invariant processed <= |shared.queue.enqueued| - |shared.queue.messages| - from
        invariant SeenOnly(seenEventIds, old(seenEventIds), shared.queue.enqueued, from, |shared.queue.enqueued| - |shared.queue.messages|)
        invariant Uncut(shared.queue.enqueued, from, old(seenEventIds)) ==> forall p :: p in passes ==> p.Handed?
        decreases Limit() - processed, |shared.queue.messages|
      {
        ghost var pass: Pass;
        ghost var enqueued, at, seen, had := shared.queue.enqueued, |shared.queue.enqueued| - |shared.queue.messages|, seenEventIds, processed;
        processed, empty, pass := Step(processed);
        PassesMore(start, passes, pass);
        passes := passes + [pass];
        PassAccounts(enqueued, shared.queue.enqueued, at, from, old(seenEventIds), seen, seenEventIds, had);
      }
    }
  }

  // ---------------------------------------------------------------------
  // A drained orchestrated run is decided
  // ---------------------------------------------------------------------

  function Shifted(oracle: nat -> Outcome, offset: nat): nat -> Outcome {
    (k: nat) => oracle(offset + k)
  }

  lemma HandleUnfolds(s: Store, pid: RunId, aid: string, attempt: nat, correlation: Option<string>,
                      oracle: nat -> Outcome, answers: nat, inlined: nat)
    ensures HandleAction(s, pid, aid, attempt, correlation, oracle, answers, inlined)
         == Chain(Visit(s, pid, aid, attempt, correlation, oracle(answers)), pid, correlation, oracle, answers + 1, inlined)
  {
    hide Visit;
  }

  lemma {:induction false} ShiftAnswers(s: Store, pid: RunId, aid: string, attempt: nat, correlation: Option<string>,
                                        oracle: nat -> Outcome, offset: nat, answers: nat, inlined: nat)
    ensures var g := HandleAction(s, pid, aid, attempt, correlation, oracle, offset + answers, inlined);
            var h := HandleAction(s, pid, aid, attempt, correlation, Shifted(oracle, offset), answers, inlined);
            g == h.(answers := offset + h.answers)
    decreases INLINE_ACTION_CHAIN_BUDGET - inlined
  {
    hide Visit, HandleAction;
    HandleUnfolds(s, pid, aid, attempt, correlation, oracle, offset + answers, inlined);
    HandleUnfolds(s, pid, aid, attempt, correlation, Shifted(oracle, offset), answers, inlined);
    var v := Visit(s, pid, aid, attempt, correlation, oracle(offset + answers));
    if v.next.Some? && !v.next.value.requiresApproval && inlined < INLINE_ACTION_CHAIN_BUDGET {
      ShiftAnswers(v.store, pid, v.next.value.actionId, 0, correlation, oracle, offset, answers + 1, inlined + 1);
    }
  }

  /** A pass in which the message is handed over, as a delivery of the composed system. */
  function AsDelivery(p: Pass): Choice
    requires p.Handed?
  {
    Deliver(0, p.world.(oracle := Shifted(p.world.oracle, p.answers)), p.inlined)
  }

  lemma ShiftHandle(s: Store, m: Message, w: World, answers: nat, inlined: nat)
    ensures var g := Handle(s, m, w, answers, inlined);
            var h := Handle(s, m, w.(oracle := Shifted(w.oracle, answers)), 0, inlined);
            g.store == h.store && g.sent == h.sent
  {
    hide HandleAction, Runtime.HandleTask, HandleSettled, Runtime.HandleOrchestrated, Runtime.HandleWhole;
    if m.body.ActionRequested? {
      ShiftAnswers(s, m.body.plan, m.body.actionId, m.attempt, w.correlation, w.oracle, answers, 0, inlined);
    }
  }

  lemma PassIsDelivery(x: Setup, n: Net, p: Pass)
    requires p.Handed? && p.world.route == Orchestrated(x.nodes, x.synthesizer)
    ensures var d := Next(x, n, AsDelivery(p));
            Line(d.store, d.bag) == PassOver(Line(n.store, n.bag), p)
  {
    hide Handle;
    if n.bag != [] {
      ShiftHandle(n.store, n.bag[0], p.world, p.answers, p.inlined);
      var w := p.world.(oracle := Shifted(p.world.oracle, p.answers));
      assert Around(x, w) == w;
      assert RemoveAt(n.bag, 0) == n.bag[1..];
    }
  }

  /** The trigger is handed over first, and every later pass is a delivery: the runner follows a run of the composed system. */
  lemma {:induction false} PassesAreRun(x: Setup, ps: seq<Pass>) returns (cs: seq<Choice>)
    requires ps != [] && forall p :: p in ps ==> p.Handed? && p.world.route == Orchestrated(x.nodes, x.synthesizer)
    requires forall p :: p in ps ==> UniqueDrafts(p.world.proposal.drafts)
    ensures forall c :: c in cs ==> Proper(c)
    ensures Passes(Line(EMPTY_STORE, [Send(Trigger(x.source))]), ps) == Line(Run(x, cs).store, Run(x, cs).bag)
  {
    var start, before, p := Line(EMPTY_STORE, [Send(Trigger(x.source))]), ps[..|ps| - 1], ps[|ps| - 1];
    if before == [] {
      cs := [];
      hide Runtime.HandleOrchestrated;
      assert start.waiting[1..] == [];
      assert [] + Begin(x).bag == Begin(x).bag;
      assert Passes(start, before) == start;
    } else {
      var most := PassesAreRun(x, before);
      PassIsDelivery(x, Run(x, most), p);
      cs := most + [AsDelivery(p)];
      assert cs[..|cs| - 1] == most;
      hide Next, PassOver;
    }
  }

  /**
    An orchestrated run started on an empty store and drained without a message being dropped, as a
    duplicate or as too deep, ends decided.
   */
  lemma DrainedIsDecided(x: Setup, ps: seq<Pass>)
    requires x.Valid() && forall p :: p in ps ==> p.Handed? && p.world.route == Orchestrated(x.nodes, x.synthesizer)
    requires forall p :: p in ps ==> UniqueDrafts(p.world.proposal.drafts)
    requires Passes(Line(EMPTY_STORE, [Send(Trigger(x.source))]), ps).waiting == []
    ensures var s := Passes(Line(EMPTY_STORE, [Send(Trigger(x.source))]), ps).store;
            x.Run() in s.graphs && Decided(x.Run(), s)
  {
    var cs := PassesAreRun(x, ps);
    QuiescentIsDecided(x, cs);
  }

  lemma ServedIsDecided(outside: Outside, m: Message, ps: seq<Pass>)
    requires forall p :: p in ps ==> p.Handed? && Genuine(outside, p)
    requires Passes(Line(EMPTY_STORE, [m]), ps).waiting == []
    ensures var s := Passes(Line(EMPTY_STORE, [m]), ps).store;
            forall x: Setup :: Serves(outside, x) && x.Valid() && m == Send(Trigger(x.source)) ==> x.Run() in s.graphs && Decided(x.Run(), s)
  {
    var s := Passes(Line(EMPTY_STORE, [m]), ps).store;
    forall x: Setup | Serves(outside, x) && x.Valid() && m == Send(Trigger(x.source)) ensures x.Run() in s.graphs && Decided(x.Run(), s) {
      hide Passes, Decided;
      DrainedIsDecided(x, ps);
    }
  }
}
