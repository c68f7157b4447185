/**
  Runtime events (src/domain/events.py) reduced to what steers the runtime, and the run id an event
  belongs to (src/domain/agent_run.py). Text fields that may be missing are options.
 */
module Events {
  import opened Common

  /**
    A triggering event: `payloadId` is payload["agentRunId"] when that is text, `otherIds` the values
    under "runId", "agent_run_id" and the three keys of the queue pointer, in the order they are tried.
   */
  datatype Source = Source(workspace: string, eventId: string, correlationId: Option<string>,
                           idempotencyKey: Option<string>, payloadId: Option<string>,
                           otherIds: seq<Option<string>>, replan: bool)

  datatype NodeOutcome = NodeCompleted | NodeFailed | NodeWaiting

  datatype Body =
    | Trigger(source: Source)
    | Notice(eventType: string)
    | ActionRequested(plan: RunId, actionId: string)
    | TaskRequested(run: RunId, nodeId: string)
    | NodeSettled(run: RunId, nodeId: string, outcome: NodeOutcome)

  /** What a handler puts on the queue; `attempt` is the envelope's retry counter. */
  datatype Message = Message(body: Body, attempt: nat)

  function Send(body: Body): Message {
    Message(body, 0)
  }

  function Set(ms: seq<Message>): set<Message> {
    set m | m in ms
  }

  /** How an event came about: the first event of its chain, the one before it, how many there are, and all of them. */
  datatype Causality = Causality(root: Option<string>, parent: Option<string>, depth: int, chain: seq<string>) {
    /** `EventCausality.child`. */
    function Child(parentEventId: string): Causality {
      Causality(if Truthy(root) then root else Some(parentEventId), Some(parentEventId), depth + 1, chain + [parentEventId])
    }
  }

  /** The depth counts the chain, which begins with the root and ends with the parent. */
  ghost predicate Traced(c: Causality) {
    && c.depth == |c.chain| && (forall i :: 0 <= i < |c.chain| ==> c.chain[i] != "")
    && (if c.chain == [] then c.root == None && c.parent == None
        else c.root == Some(c.chain[0]) && c.parent == Some(c.chain[|c.chain| - 1]))
  }

  /** The event that a traced event causes is traced, from the same root. */
  lemma ChildIsTraced(c: Causality, eventId: string)
    requires Traced(c) && eventId != ""
    ensures Traced(c.Child(eventId)) && (c.chain != [] ==> c.Child(eventId).root == c.root)
  {
    if c.chain != [] {
      assert c.Child(eventId).chain[0] == c.chain[0];
    }
  }

  predicate IsSpace(c: char) {
    c == ' ' || c == '\t' || c == '\n' || c == '\r'
  }

  /** `str.strip` for the white space of `IsSpace`. */
  function Strip(s: string): (r: string)
    ensures r == "" <==> forall i :: 0 <= i < |s| ==> IsSpace(s[i])
    ensures r != "" ==> !IsSpace(r[0]) && !IsSpace(r[|r| - 1])
    ensures |r| <= |s|
  {
    if s == "" then ""
    else if IsSpace(s[0]) then
      assert s == [s[0]] + s[1..];
      Strip(s[1..])
    else if IsSpace(s[|s| - 1]) then Strip(s[..|s| - 1])
    else s
  }

  lemma {:induction false} StripIsIdempotent(s: string)
    ensures Strip(Strip(s)) == Strip(s)
  {
    var r := Strip(s);
    assert Strip(r) == r;
  }

  /** The first non-blank candidate, stripped. */
  function FirstId(ids: seq<Option<string>>): Option<string> {
    if ids == [] then None
    else if ids[0].Some? && Strip(ids[0].value) != "" then Some(Strip(ids[0].value))
    else FirstId(ids[1..])
  }

  predicate NonBlank(id: Option<string>) {
    id.Some? && Strip(id.value) != ""
  }

  /** The first candidate with text counts, without the white space around it. */
  lemma {:induction false} FirstIdIs(ids: seq<Option<string>>)
    ensures FirstId(ids).Some? <==> exists i :: 0 <= i < |ids| && NonBlank(ids[i])
    ensures forall i :: 0 <= i < |ids| && NonBlank(ids[i]) && (forall j :: 0 <= j < i ==> !NonBlank(ids[j])) ==> FirstId(ids) == Some(Strip(ids[i].value))
  {
    hide Strip;
    if ids != [] {
      FirstIdIs(ids[1..]);
      assert ids == [ids[0]] + ids[1..];
      forall i | 1 <= i < |ids| && NonBlank(ids[i]) && (forall j :: 0 <= j < i ==> !NonBlank(ids[j])) ensures FirstId(ids) == Some(Strip(ids[i].value)) {
        assert ids[1..][i - 1] == ids[i];
        assert !NonBlank(ids[0]) && forall j :: 0 <= j < i - 1 ==> ids[1..][j] == ids[j + 1];
      }
    }
  }

  /** Python's `a or b` on an optional text. */
  predicate Truthy(s: Option<string>) {
    s.Some? && s.value != ""
  }

  /** `resolve_agent_run_id`: payload, then queue pointer, then correlation id, idempotency key, event id. */
  function ResolveRunId(e: Source): string {
    var explicit := FirstId([e.payloadId] + e.otherIds);
    if explicit.Some? then explicit.value
    else if Truthy(e.correlationId) then e.correlationId.value
    else if Truthy(e.idempotencyKey) then e.idempotencyKey.value
    else e.eventId
  }

  function RunOf(e: Source): RunId {
    RunId(e.workspace, ResolveRunId(e))
  }
}
