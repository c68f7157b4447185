/** The in-memory queue (src/infrastructure/queue/memory_queue.py), with a record of everything ever enqueued. */
module Queues {
  import opened Common
  import opened Events

  /** An event as it travels: its id, how it came about, its correlation id and what it asks for. */
  datatype Envelope = Envelope(eventId: string, causality: Causality, correlation: Option<string>, message: Message)

  datatype QueueMessage = QueueMessage(id: nat, envelope: Envelope)

  /** The event can be named as the cause of others. */
  ghost predicate IsCause(e: Envelope) {
    e.eventId != "" && Traced(e.causality)
  }

  /** Every event the runtime itself sends can be traced back to its root; notices come from outside. */
  ghost predicate AllTraced(ms: seq<QueueMessage>) {
    forall i :: 0 <= i < |ms| ==> ms[i].envelope.message.body.Notice? || IsCause(ms[i].envelope)
  }

  lemma OneMoreTraced(ms: seq<QueueMessage>, m: QueueMessage)
    requires AllTraced(ms) && (m.envelope.message.body.Notice? || IsCause(m.envelope))
    ensures AllTraced(ms + [m])
  {
  }

  /** The queue as a value; `enqueued` is every message ever enqueued. */
  datatype QueueState = QueueState(messages: seq<QueueMessage>, acked: seq<nat>, failed: seq<(QueueMessage, string)>,
                                   enqueued: seq<QueueMessage>)

  function Contents(ms: seq<QueueMessage>): (r: seq<Message>)
    ensures |r| == |ms| && forall i :: 0 <= i < |r| ==> r[i] == ms[i].envelope.message
  {
    seq(|ms|, i requires 0 <= i < |ms| => ms[i].envelope.message)
  }

  function MessageIds(ms: seq<QueueMessage>): (r: seq<nat>)
    ensures |r| == |ms| && forall i :: 0 <= i < |r| ==> r[i] == ms[i].id
  {
    seq(|ms|, i requires 0 <= i < |ms| => ms[i].id)
  }

  function FailedIds(fs: seq<(QueueMessage, string)>): (r: seq<nat>)
    ensures |r| == |fs| && forall i :: 0 <= i < |r| ==> r[i] == fs[i].0.id
  {
    seq(|fs|, i requires 0 <= i < |fs| => fs[i].0.id)
  }

  /** `b` is `a` after messages with contents `sent` were enqueued, and nothing else happened. */
  ghost predicate Grew(a: QueueState, b: QueueState, sent: seq<Message>) {
    && a.messages <= b.messages && b.enqueued == a.enqueued + b.messages[|a.messages|..]
    && Contents(b.messages[|a.messages|..]) == sent && b.acked == a.acked && b.failed == a.failed
  }

  lemma GrewTwice(a: QueueState, b: QueueState, c: QueueState, first: seq<Message>, second: seq<Message>)
    requires Grew(a, b, first) && Grew(b, c, second)
    ensures Grew(a, c, first + second)
  {
    assert c.messages[|a.messages|..] == b.messages[|a.messages|..] + c.messages[|b.messages|..];
    assert Contents(c.messages[|a.messages|..]) == first + second;
  }

  lemma GrewNot(a: QueueState)
    ensures Grew(a, a, [])
  {
    assert a.messages[|a.messages|..] == [];
  }

  /**
    Conservation: every message ever enqueued, each under an id of its own, is in exactly one place:
    still queued, among `inHand`, acknowledged or failed.
   */
  ghost predicate Conserved(q: QueueState, inHand: seq<nat>) {
    && (forall i :: 0 <= i < |q.enqueued| ==> q.enqueued[i].id == i)
    && multiset(MessageIds(q.enqueued)) ==
       multiset(MessageIds(q.messages)) + multiset(inHand) + multiset(q.acked) + multiset(FailedIds(q.failed))
  }

  class MemoryQueue {
    var messages: seq<QueueMessage>
    var acked: seq<nat>
    var failed: seq<(QueueMessage, string)>
    var nextId: nat
    ghost var enqueued: seq<QueueMessage>

    /** What waits is what was enqueued last, in that order. */
    ghost predicate Valid()
      reads this
    {
      && nextId == |enqueued| && (forall i :: 0 <= i < |enqueued| ==> enqueued[i].id == i)
      && |messages| <= |enqueued| && messages == enqueued[|enqueued| - |messages|..]
    }

    ghost function View(): QueueState
      reads this
    {
      QueueState(messages, acked, failed, enqueued)
    }

    constructor ()
      ensures Valid() && View() == QueueState([], [], [], [])
    {
      messages, acked, failed, nextId, enqueued := [], [], [], 0, [];
    }

    method Enqueue(envelope: Envelope) returns (m: QueueMessage)
      requires Valid()
      modifies this
      ensures Valid() && m == QueueMessage(|old(enqueued)|, envelope)
      ensures Grew(old(View()), View(), [envelope.message]) && messages == old(messages) + [m]
      ensures enqueued == old(enqueued) + [m]
    {
      m := QueueMessage(nextId, envelope);
      messages := messages + [m];
      nextId := nextId + 1;
      enqueued := enqueued + [m];
    }

    method Dequeue() returns (r: Option<QueueMessage>)
      requires Valid()
      modifies this
      ensures Valid() && acked == old(acked) && failed == old(failed) && enqueued == old(enqueued)
      ensures r == if old(messages) == [] then None else Some(old(messages)[0])
      ensures messages == if old(messages) == [] then [] else old(messages)[1..]
    {
      if messages == [] {
        return None;
      }
      r := Some(messages[0]);
      messages := messages[1..];
    }

    method Ack(m: QueueMessage)
      requires Valid()
      modifies this
      ensures Valid() && View() == old(View()).(acked := old(acked) + [m.id])
    {
      acked := acked + [m.id];
    }

    method Fail(m: QueueMessage, reason: string)
      requires Valid()
      modifies this
      ensures Valid() && View() == old(View()).(failed := old(failed) + [(m, reason)])
    {
      failed := failed + [(m, reason)];
    }

    method IsEmpty() returns (r: bool)
      ensures r == (messages == [])
    {
      r := messages == [];
    }
  }

  /** Conserved messages stay conserved when more are enqueued. */
  lemma GrowthConserves(a: QueueState, b: QueueState, sent: seq<Message>, inHand: seq<nat>)
    requires Conserved(a, inHand) && Grew(a, b, sent)
    requires forall i :: 0 <= i < |b.enqueued| ==> b.enqueued[i].id == i
    ensures Conserved(b, inHand)
  {
    var added := b.messages[|a.messages|..];
    assert b.messages == a.messages + added;
    IdsAppend(a.messages, added);
    IdsAppend(a.enqueued, added);
    hide MessageIds, Contents, FailedIds;
  }

  lemma IdsAppend(a: seq<QueueMessage>, b: seq<QueueMessage>)
    ensures multiset(MessageIds(a + b)) == multiset(MessageIds(a)) + multiset(MessageIds(b))
  {
    assert MessageIds(a + b) == MessageIds(a) + MessageIds(b);
  }

  /** No message id occurs twice among queue, hands, acknowledged and failed. */
  lemma ConservedIsExclusive(q: QueueState, inHand: seq<nat>, id: nat)
    requires Conserved(q, inHand)
    ensures multiset(MessageIds(q.messages))[id] + multiset(inHand)[id] + multiset(q.acked)[id] + multiset(FailedIds(q.failed))[id]
         == if id < |q.enqueued| then 1 else 0
  {
    DistinctIds(q.enqueued, |q.enqueued|, id);
    assert q.enqueued[..|q.enqueued|] == q.enqueued;
  }

  lemma {:induction false} DistinctIds(ms: seq<QueueMessage>, n: nat, id: nat)
    requires n <= |ms| && forall i :: 0 <= i < |ms| ==> ms[i].id == i
    ensures multiset(MessageIds(ms[..n]))[id] == if id < n then 1 else 0
  {
    if n > 0 {
      DistinctIds(ms, n - 1, id);
      assert MessageIds(ms[..n]) == MessageIds(ms[..n - 1]) + [n - 1];
    }
  }
}
