/**
  Inline chaining is transparent. A delivery that handles successor actions in the same invocation
  reaches the state that plain deliveries reach, with each successor sent as a message of its own and
  delivered next: the fast form refines the simple one.
 */
module Inlining {
  import opened Common
  import opened Events
  import opened Plans
  import opened Planner
  import opened Runtime
  import opened Orchestration
  import opened Quiescence

  function Play(x: Setup, n: Net, cs: seq<Choice>): Net
    decreases |cs|
  {
    if cs == [] then n else Play(x, Next(x, n, cs[0]), cs[1..])
  }

  /** A delivery that may not chain anything inline, and plans nothing. */
  ghost predicate HopOnly(c: Choice) {
    c.Deliver? && c.inlined == INLINE_ACTION_CHAIN_BUDGET && c.world.proposal.drafts == []
  }

  function PlainDelivery(x: Setup, at: nat, correlation: Option<string>, o: Outcome): Choice {
    Deliver(at, World(_ => o, Proposal(x.source, [], _ => false), Ignored, correlation), INLINE_ACTION_CHAIN_BUDGET)
  }

  /** One plain delivery of an action event: the visit, with the next action sent. */
  lemma OneHop(x: Setup, n: Net, at: nat, correlation: Option<string>, o: Outcome)
    requires at < |n.bag| && n.bag[at].body.ActionRequested?
    ensures var m := n.bag[at];
            var v := Visit(n.store, m.body.plan, m.body.actionId, m.attempt, correlation, o);
            var out := v.sent + if v.next.Some? then [Send(ActionRequested(m.body.plan, v.next.value.actionId))] else [];
            Next(x, n, PlainDelivery(x, at, correlation, o)) == Net(v.store, RemoveAt(n.bag, at) + out, n.sent + Set(out))
  {
    hide Visit;
    var m := n.bag[at];
    var v := Visit(n.store, m.body.plan, m.body.actionId, m.attempt, correlation, o);
    assert v.next.None? ==> v.sent + [] == v.sent;
  }

  /** A choice followed by more. */
  lemma PlayMore(x: Setup, n: Net, c: Choice, cs: seq<Choice>)
    ensures Play(x, n, [c] + cs) == Play(x, Next(x, n, c), cs)
  {
    hide Next;
    assert ([c] + cs)[1..] == cs;
  }

  lemma PlayOne(x: Setup, n: Net, c: Choice)
    ensures Play(x, n, [c]) == Next(x, n, c)
  {
    hide Next;
    assert [c][1..] == [];
  }

  /** `cs` are plain deliveries that lead from `n` to the outcome `h` of delivering its message at `at`. */
  ghost predicate Reaches(x: Setup, n: Net, at: nat, cs: seq<Choice>, h: Handled)
    requires at < |n.bag|
  {
    && (forall c :: c in cs ==> HopOnly(c))
    && Play(x, n, cs).store == h.store && Play(x, n, cs).bag == RemoveAt(n.bag, at) + h.sent
    && n.sent + Set(h.sent) <= Play(x, n, cs).sent
  }

  /** After one hop to `mid`, whose last message is the next action, deliveries for that message reach the whole outcome. */
  lemma HopThenRest(x: Setup, n: Net, at: nat, first: Choice, mid: Net, before: seq<Message>, next: Message, more: seq<Choice>, rest: Handled)
    requires at < |n.bag| && HopOnly(first) && Next(x, n, first) == mid
    requires mid.bag == RemoveAt(n.bag, at) + (before + [next]) && mid.sent == n.sent + Set(before + [next])
    requires Reaches(x, mid, |mid.bag| - 1, more, rest)
    ensures Reaches(x, n, at, [first] + more, rest.(sent := before + rest.sent))
  {
    hide Next, HopOnly;
    PlayMore(x, n, first, more);
    hide Play;
    assert RemoveAt(mid.bag, |mid.bag| - 1) == RemoveAt(n.bag, at) + before;
    SetAppend(before, rest.sent);
    SetAppend(before, [next]);
    assert RemoveAt(n.bag, at) + before + rest.sent == RemoveAt(n.bag, at) + (before + rest.sent);
  }

  /** A plain delivery on its own, where nothing is chained. */
  lemma OneHopReaches(x: Setup, n: Net, at: nat, correlation: Option<string>, o: Outcome, h: Handled)
    requires at < |n.bag| && n.bag[at].body.ActionRequested?
    requires var m := n.bag[at];
             var v := Visit(n.store, m.body.plan, m.body.actionId, m.attempt, correlation, o);
             && h.store == v.store
             && h.sent == v.sent + if v.next.Some? then [Send(ActionRequested(m.body.plan, v.next.value.actionId))] else []
    ensures HopOnly(PlainDelivery(x, at, correlation, o))
    ensures Reaches(x, n, at, [PlainDelivery(x, at, correlation, o)], h)
  {
    hide Visit, Next, Play;
    OneHop(x, n, at, correlation, o);
    PlayOne(x, n, PlainDelivery(x, at, correlation, o));
  }

  /** For every delivery of an action event there are plain deliveries that reach the same store and waiting messages. */
  lemma {:induction false} InlineIsTransparent(x: Setup, n: Net, at: nat, correlation: Option<string>,
                                               oracle: nat -> Outcome, answers: nat, inlined: nat)
    returns (cs: seq<Choice>)
    requires at < |n.bag| && n.bag[at].body.ActionRequested?
    ensures var m := n.bag[at];
            Reaches(x, n, at, cs,
                    HandleAction(n.store, m.body.plan, m.body.actionId, m.attempt, correlation, oracle, answers, inlined))
    decreases INLINE_ACTION_CHAIN_BUDGET - inlined
  {
    hide Visit, Next, Play, HopOnly, PlainDelivery, Reaches;
    var m, o := n.bag[at], oracle(answers);
    var pid := m.body.plan;
    var v := Visit(n.store, pid, m.body.actionId, m.attempt, correlation, o);
    var first := PlainDelivery(x, at, correlation, o);
    var out := v.sent + if v.next.Some? then [Send(ActionRequested(pid, v.next.value.actionId))] else [];
    OneHopReaches(x, n, at, correlation, o, Handled(v.store, out, answers + 1, inlined, v.raised));
    cs := [first];
    if v.next.Some? {
      if !v.next.value.requiresApproval && inlined < INLINE_ACTION_CHAIN_BUDGET {
        OneHop(x, n, at, correlation, o);
        var mid, next := Next(x, n, first), Send(ActionRequested(pid, v.next.value.actionId));
        assert mid.bag[|mid.bag| - 1] == next;
        var more := InlineIsTransparent(x, mid, |mid.bag| - 1, correlation, oracle, answers + 1, inlined + 1);
        var rest := HandleAction(v.store, pid, v.next.value.actionId, 0, correlation, oracle, answers + 1, inlined + 1);
        HopThenRest(x, n, at, first, mid, v.sent, next, more, rest);
        cs := [first] + more;
      } else {
        SameReach(x, n, at, cs, Handled(v.store, out, answers + 1, inlined, v.raised), Handled(v.store, out, answers + 1, inlined, false));
      }
    } else {
      assert v.sent + [] == v.sent;
    }
  }

  lemma SameReach(x: Setup, n: Net, at: nat, cs: seq<Choice>, g: Handled, h: Handled)
    requires at < |n.bag| && Reaches(x, n, at, cs, g) && g.store == h.store && g.sent == h.sent
    ensures Reaches(x, n, at, cs, h)
  {
    hide Play;
  }
}
