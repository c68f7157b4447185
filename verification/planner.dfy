/**
  Plan normalization and idempotency keys (src/application/planner.py), and the replan event
  (src/application/action_event_handler.py). What the language model proposes is a list of drafts.
 */
module Planner {
  import opened Common
  import opened Events
  import opened Plans

  datatype Draft = Draft(actionId: string, toolName: string)

  // ---------------------------------------------------------------------
  // Idempotency keys
  // ---------------------------------------------------------------------

  function Decimal(n: nat): (r: string)
    ensures r != "" && forall i :: 0 <= i < |r| ==> r[i] in "0123456789"
  {
    if n < 10 then ["0123456789"[n]] else Decimal(n / 10) + ["0123456789"[n % 10]]
  }

  /** The number that decimal digits stand for. */
  function Value(digits: string): nat
    requires forall i :: 0 <= i < |digits| ==> digits[i] in "0123456789"
  {
    if digits == "" then 0 else 10 * Value(digits[..|digits| - 1]) + (digits[|digits| - 1] as int - '0' as int)
  }

  /** The digits stand for the number, without a leading zero. */
  lemma {:induction false} DecimalHasItsValue(n: nat)
    ensures Value(Decimal(n)) == n && (n > 0 ==> Decimal(n)[0] != '0')
  {
    var r := Decimal(n);
    assert "0123456789"[n % 10] as int == n % 10 + '0' as int;
    if n >= 10 {
      DecimalHasItsValue(n / 10);
      assert r[..|r| - 1] == Decimal(n / 10);
    } else {
      assert r[..|r| - 1] == "";
    }
  }

  function Key(prefix: string, tool: string, index: nat): string {
    prefix + ":" + tool + ":" + Decimal(index)
  }

  predicate Plain(tool: string) {
    ':' !in tool
  }

  lemma {:induction false} DecimalIsInjective(m: nat, n: nat)
    requires Decimal(m) == Decimal(n)
    ensures m == n
  {
    DigitIsInjective();
    if m >= 10 && n >= 10 {
      assert Decimal(m)[..|Decimal(m)| - 1] == Decimal(m / 10);
      assert Decimal(n)[..|Decimal(n)| - 1] == Decimal(n / 10);
      assert Decimal(m)[|Decimal(m)| - 1] == Decimal(n)[|Decimal(n)| - 1];
      DecimalIsInjective(m / 10, n / 10);
    } else if m < 10 && n < 10 {
      assert Decimal(m)[0] == Decimal(n)[0];
    }
  }

  lemma DigitIsInjective()
    ensures forall i, j :: 0 <= i < 10 && 0 <= j < 10 && "0123456789"[i] == "0123456789"[j] ==> i == j
  {
  }

  /** Text split at its last colon splits in one way only. */
  lemma SplitAtLastColon(a: string, b: string, c: string, d: string)
    requires a + ":" + b == c + ":" + d && Plain(b) && Plain(d)
    ensures a == c && b == d
  {
    var s := a + ":" + b;
    assert s[|a|] == ':' && s[|c|] == ':';
    assert forall k :: |a| < k < |s| ==> s[k] == b[k - |a| - 1];
    assert forall k :: |c| < k < |s| ==> s[k] == d[k - |c| - 1];
    assert |a| == |c|;
    assert a == s[..|a|] && c == s[..|c|];
    assert b == s[|a| + 1..] && d == s[|c| + 1..];
  }

  /** A key tells its prefix, its tool and its index. */
  lemma KeyIsInjective(p: string, t: string, i: nat, q: string, u: string, j: nat)
    requires Plain(t) && Plain(u) && Key(p, t, i) == Key(q, u, j)
    ensures p == q && t == u && i == j
  {
    SplitAtLastColon(p + ":" + t, Decimal(i), q + ":" + u, Decimal(j));
    SplitAtLastColon(p, t, q, u);
    DecimalIsInjective(i, j);
  }

  // ---------------------------------------------------------------------
  // Normalization
  // ---------------------------------------------------------------------

  /** The `index`-th action of a plan, counted from 1: PENDING, dependent on the one before it, keyed by its position. */
  function NormalizedAction(d: Draft, previous: Option<string>, approval: string -> bool, prefix: string, index: nat): PlannedAction {
    PlannedAction(d.actionId, d.toolName, if Truthy(previous) then [previous.value] else [],
                  approval(d.toolName), ActionStatus.Pending, Key(prefix, d.toolName, index))
  }

  function Normalized(drafts: seq<Draft>, approval: string -> bool, prefix: string): (r: seq<PlannedAction>)
    ensures |r| == |drafts|
  {
    seq(|drafts|, i requires 0 <= i < |drafts| =>
      NormalizedAction(drafts[i], if i == 0 then None else Some(drafts[i - 1].actionId), approval, prefix, i + 1))
  }

  /** The loop of `_normalize_plan_for_runtime`, which carries the previous action's id. */
  method Normalize(drafts: seq<Draft>, approval: string -> bool, prefix: string) returns (actions: seq<PlannedAction>)
    ensures actions == Normalized(drafts, approval, prefix)
  {
    hide Key;
    actions := [];
    var previous: Option<string> := None;
    for i := 0 to |drafts|
      invariant actions == Normalized(drafts, approval, prefix)[..i]
      invariant previous == if i == 0 then None else Some(drafts[i - 1].actionId)
    {
      var a := NormalizedAction(drafts[i], previous, approval, prefix, i + 1);
      assert a == Normalized(drafts, approval, prefix)[i];
      actions := actions + [a];
      previous := Some(a.actionId);
    }
  }

  ghost predicate UniqueDrafts(drafts: seq<Draft>) {
    && (forall i, j :: 0 <= i < j < |drafts| ==> drafts[i].actionId != drafts[j].actionId)
    && (forall i :: 0 <= i < |drafts| ==> Plain(drafts[i].toolName))
  }

  /** The `i`-th action is keyed by `prefix`, its tool and its position. */
  ghost predicate Keyed(actions: seq<PlannedAction>, prefix: string) {
    forall i :: 0 <= i < |actions| ==>
      Plain(actions[i].toolName) && actions[i].idempotencyKey == Key(prefix, actions[i].toolName, i + 1)
  }

  lemma NormalizedIsKeyed(drafts: seq<Draft>, approval: string -> bool, prefix: string)
    requires UniqueDrafts(drafts)
    ensures Keyed(Normalized(drafts, approval, prefix), prefix)
  {
    var actions := Normalized(drafts, approval, prefix);
    forall i | 0 <= i < |actions|
      ensures Plain(actions[i].toolName) && actions[i].idempotencyKey == Key(prefix, actions[i].toolName, i + 1) {
      NormalizedAt(drafts, approval, prefix, i);
    }
  }

  lemma NormalizedAt(drafts: seq<Draft>, approval: string -> bool, prefix: string, i: nat)
    requires i < |drafts|
    ensures var a := Normalized(drafts, approval, prefix)[i];
            && a.actionId == drafts[i].actionId && a.toolName == drafts[i].toolName && a.status == ActionStatus.Pending
            && a.idempotencyKey == Key(prefix, drafts[i].toolName, i + 1)
            && a.dependsOn == (if i > 0 && drafts[i - 1].actionId != "" then [drafts[i - 1].actionId] else [])
            && a.requiresApproval == approval(drafts[i].toolName)
  {
  }

  /** A freshly normalized plan is a chain whose turn is at its first action. */
  lemma NormalizedIsShaped(p: AgentPlan, drafts: seq<Draft>)
    requires UniqueDrafts(drafts) && p.status == Planned && |p.actions| == |drafts|
    requires forall i :: 0 <= i < |drafts| ==> p.actions[i].actionId == drafts[i].actionId && p.actions[i].status == ActionStatus.Pending
    requires forall i :: 0 <= i < |drafts| ==> p.actions[i].dependsOn == [] || (i > 0 && p.actions[i].dependsOn == [drafts[i - 1].actionId])
    ensures Shaped(p) && Frontier(p.actions) == 0
  {
    forall i, d | 0 <= i < |p.actions| && d in p.actions[i].dependsOn ensures i > 0 && d == p.actions[i - 1].actionId {
      assert p.actions[i].dependsOn == [drafts[i - 1].actionId];
    }
    FrontierIs(p.actions, 0);
  }

  lemma NormalizedIsChain(p: AgentPlan, drafts: seq<Draft>, approval: string -> bool, prefix: string)
    requires UniqueDrafts(drafts) && p.actions == Normalized(drafts, approval, prefix) && p.status == Planned
    ensures Shaped(p) && Frontier(p.actions) == 0 && Keyed(p.actions, prefix)
  {
    forall i | 0 <= i < |drafts|
      ensures p.actions[i].actionId == drafts[i].actionId && p.actions[i].status == ActionStatus.Pending
      ensures p.actions[i].dependsOn == [] || (i > 0 && p.actions[i].dependsOn == [drafts[i - 1].actionId])
    {
      NormalizedAt(drafts, approval, prefix, i);
    }
    NormalizedIsShaped(p, drafts);
    NormalizedIsKeyed(drafts, approval, prefix);
  }

  lemma KeyTells(a: seq<PlannedAction>, p: string, i: nat, b: seq<PlannedAction>, q: string, j: nat)
    requires Keyed(a, p) && Keyed(b, q) && i < |a| && j < |b| && a[i].idempotencyKey == b[j].idempotencyKey
    ensures p == q && i == j
  {
    KeyIsInjective(p, a[i].toolName, i + 1, q, b[j].toolName, j + 1);
  }

  lemma KeysDiffer(actions: seq<PlannedAction>, prefix: string)
    requires Keyed(actions, prefix)
    ensures forall i, j :: 0 <= i < j < |actions| ==> actions[i].idempotencyKey != actions[j].idempotencyKey
  {
    forall i, j | 0 <= i < j < |actions| ensures actions[i].idempotencyKey != actions[j].idempotencyKey {
      if actions[i].idempotencyKey == actions[j].idempotencyKey {
        KeyTells(actions, prefix, i, actions, prefix, j);
      }
    }
  }

  lemma PrefixesSeparateKeys(a: seq<PlannedAction>, p: string, b: seq<PlannedAction>, q: string)
    requires Keyed(a, p) && Keyed(b, q) && p != q
    ensures forall i, j :: 0 <= i < |a| && 0 <= j < |b| ==> a[i].idempotencyKey != b[j].idempotencyKey
  {
    forall i, j | 0 <= i < |a| && 0 <= j < |b| ensures a[i].idempotencyKey != b[j].idempotencyKey {
      if a[i].idempotencyKey == b[j].idempotencyKey {
        KeyTells(a, p, i, b, q, j);
      }
    }
  }

  /** `_idempotency_prefix` for a plan of the run itself. */
  function RunPrefix(e: Source, runId: string): string {
    if Truthy(e.idempotencyKey) then e.idempotencyKey.value else runId
  }

  // ---------------------------------------------------------------------
  // Replanning
  // ---------------------------------------------------------------------

  /** `_replan_event`: the triggering event again, under the plan's id and a key derived from the stale action's. */
  function ReplanSource(e: Source, planId: string, staleKey: string, envelopeCorrelation: Option<string>, eventId: string): Source {
    e.(payloadId := Some(planId),
    correlationId := if Truthy(e.correlationId) then e.correlationId else envelopeCorrelation,
    idempotencyKey := Some(staleKey + ":replan"),
    eventId := eventId,
    replan := true)
  }

  /** Text with no white space at either end, and not empty. */
  predicate Trimmed(s: string) {
    s != "" && Strip(s) == s
  }

  /**
    The replan event of a run resolves to the run's own id exactly if that id is trimmed, or is blank
    and came from a correlation id (the trigger's, or one the action event carries instead).
   */
  lemma ReplanKeepsRunId(e: Source, staleKey: string, corr: Option<string>, eventId: string)
    ensures var id := ResolveRunId(e);
            ResolveRunId(ReplanSource(e, id, staleKey, corr, eventId)) == id <==>
            Trimmed(id) || (Strip(id) == "" && (Truthy(e.correlationId) || (Truthy(corr) && corr.value == id)))
  {
    var id := ResolveRunId(e);
    var r := ReplanSource(e, id, staleKey, corr, eventId);
    assert ([e.payloadId] + e.otherIds)[1..] == e.otherIds;
    assert ([r.payloadId] + r.otherIds)[1..] == r.otherIds;
    if Strip(id) == "" {
      FirstIdIsTrimmed([e.payloadId] + e.otherIds);
      var key := staleKey + ":replan";
      assert key[|key| - 1] == 'n';
    } else {
      StripIsIdempotent(id);
    }
  }

  lemma {:induction false} FirstIdIsTrimmed(ids: seq<Option<string>>)
    ensures FirstId(ids).Some? ==> Trimmed(FirstId(ids).value)
  {
    if ids != [] {
      if ids[0].Some? {
        StripIsIdempotent(ids[0].value);
      }
      FirstIdIsTrimmed(ids[1..]);
    }
  }

  /** A correlation id with white space around it makes the replan event address another run. */
  lemma PaddedIdLosesItsRun()
    ensures var e := Source("w", "e", Some(" r "), None, None, [], false);
            ResolveRunId(e) == " r " && ResolveRunId(ReplanSource(e, " r ", "k", None, "e2")) == "r"
  {
    var e := Source("w", "e", Some(" r "), None, None, [], false);
    var r := ReplanSource(e, " r ", "k", None, "e2");
    assert " r "[1..] == "r " && "r "[..1] == "r";
    assert Strip("r ") == Strip("r") == "r";
    assert Strip(" r ") == "r";
    assert [e.payloadId] + e.otherIds == [None] && FirstId([None]) == FirstId([None][1..]);
  }

  /** One replan: which action of the plan was stale, the correlation id of its event, and the new event's id. */
  datatype Replan = Replan(stale: nat, correlation: Option<string>, eventId: string)

  /** The plans of one run's generations: `drafts[g]` is what was proposed for generation `g`. */
  function SourceAt(e: Source, drafts: seq<seq<Draft>>, replans: seq<Replan>, g: nat): Source
    requires g <= |replans| && g <= |drafts|
    requires forall h :: 0 <= h < g ==> replans[h].stale < |drafts[h]|
    decreases g, 0
  {
    if g == 0 then e
    else
      var before := SourceAt(e, drafts, replans, g - 1);
      ReplanSource(before, ResolveRunId(before),
                   Key(RunPrefix(before, ResolveRunId(before)), drafts[g - 1][replans[g - 1].stale].toolName, replans[g - 1].stale + 1),
                   replans[g - 1].correlation, replans[g - 1].eventId)
  }

  function PrefixAt(e: Source, drafts: seq<seq<Draft>>, replans: seq<Replan>, g: nat): string
    requires g <= |replans| && g <= |drafts|
    requires forall h :: 0 <= h < g ==> replans[h].stale < |drafts[h]|
  {
    var s := SourceAt(e, drafts, replans, g);
    RunPrefix(s, ResolveRunId(s))
  }

  lemma {:induction false} PrefixGrows(e: Source, drafts: seq<seq<Draft>>, replans: seq<Replan>, g: nat, h: nat)
    requires g < h <= |replans| && h <= |drafts|
    requires forall n :: 0 <= n < h ==> replans[n].stale < |drafts[n]|
    ensures |PrefixAt(e, drafts, replans, g)| < |PrefixAt(e, drafts, replans, h)|
  {
    hide PrefixAt, Decimal;
    PrefixStep(e, drafts, replans, h);
    if g + 1 < h {
      PrefixGrows(e, drafts, replans, g, h - 1);
    }
  }

  /** The prefix of a generation extends that of the one before. */
  lemma PrefixStep(e: Source, drafts: seq<seq<Draft>>, replans: seq<Replan>, h: nat)
    requires 0 < h <= |replans| && h <= |drafts|
    requires forall n :: 0 <= n < h ==> replans[n].stale < |drafts[n]|
    ensures var stale := replans[h - 1].stale;
            PrefixAt(e, drafts, replans, h) == Key(PrefixAt(e, drafts, replans, h - 1), drafts[h - 1][stale].toolName, stale + 1) + ":replan"
  {
    hide Key, ResolveRunId;
  }

  lemma {:induction false} RunIdStays(e: Source, drafts: seq<seq<Draft>>, replans: seq<Replan>, g: nat)
    requires g <= |replans| && g <= |drafts| && Trimmed(ResolveRunId(e))
    requires forall h :: 0 <= h < g ==> replans[h].stale < |drafts[h]|
    ensures ResolveRunId(SourceAt(e, drafts, replans, g)) == ResolveRunId(e)
  {
    hide ResolveRunId, Trimmed, Strip, Key, FirstId;
    if g > 0 {
      RunIdStays(e, drafts, replans, g - 1);
      var before := SourceAt(e, drafts, replans, g - 1);
      var r := replans[g - 1];
      ReplanKeepsRunId(before, Key(PrefixAt(e, drafts, replans, g - 1), drafts[g - 1][r.stale].toolName, r.stale + 1), r.correlation, r.eventId);
    }
  }

  /**
    Over any number of replans of a run with a trimmed id, every generation keeps that id, and no two
    planned actions, of the same or of different generations, share an idempotency key.
   */
  lemma KeysStayFresh(e: Source, drafts: seq<seq<Draft>>, replans: seq<Replan>, approval: string -> bool, g: nat, h: nat)
    requires Trimmed(ResolveRunId(e)) && |drafts| == |replans| + 1 && g <= h < |drafts|
    requires forall n :: 0 <= n < |replans| ==> replans[n].stale < |drafts[n]|
    requires forall n :: 0 <= n < |drafts| ==> UniqueDrafts(drafts[n])
    ensures ResolveRunId(SourceAt(e, drafts, replans, h)) == ResolveRunId(e)
    ensures var a := Normalized(drafts[g], approval, PrefixAt(e, drafts, replans, g));
            var b := Normalized(drafts[h], approval, PrefixAt(e, drafts, replans, h));
            forall i, j :: 0 <= i < |a| && 0 <= j < |b| && (g < h || i < j) ==> a[i].idempotencyKey != b[j].idempotencyKey
  {
    hide SourceAt, ResolveRunId, RunPrefix, Keyed, Normalized, Trimmed;
    RunIdStays(e, drafts, replans, h);
    NormalizedIsKeyed(drafts[g], approval, PrefixAt(e, drafts, replans, g));
    NormalizedIsKeyed(drafts[h], approval, PrefixAt(e, drafts, replans, h));
    var a := Normalized(drafts[g], approval, PrefixAt(e, drafts, replans, g));
    var b := Normalized(drafts[h], approval, PrefixAt(e, drafts, replans, h));
    if g < h {
      PrefixGrows(e, drafts, replans, g, h);
      PrefixesSeparateKeys(a, PrefixAt(e, drafts, replans, g), b, PrefixAt(e, drafts, replans, h));
    } else {
      KeysDiffer(a, PrefixAt(e, drafts, replans, g));
    }
  }
}
