/**
  The roll-up of assignees (src/capabilities/tools/workitem_tools.py): bottom-up, in place, every item of
  a validated tree gets everyone who works below it. Proved against a one-line description: the
  usernames of the subtree in pre-order, each once.
 */
module WorkItemTrees {
  import opened Common
  import opened Events
  import opened WorkItemValidation
  import opened WorkItemRollup

  /** A validated item with the items below it. */
  datatype Tree = Tree(title: Shown, assignees: seq<Shown>, children: seq<Tree>)

  /** The tree that a well-typed node stands for. */
  function TreeOf(v: Value): Tree
    requires WellTypedNode(v)
    decreases v
  {
    Tree(v.title, v.assignees, if v.children.Array? then ForestOf(v.children.items) else [])
  }

  function ForestOf(nodes: seq<Value>): seq<Tree>
    requires WellTyped(nodes)
    decreases nodes
  {
    seq(|nodes|, i requires 0 <= i < |nodes| => TreeOf(nodes[i]))
  }

  function TreeSize(t: Tree): nat {
    1 + ForestSize(t.children)
  }

  function ForestSize(ts: seq<Tree>): nat {
    if ts == [] then 0 else TreeSize(ts[0]) + ForestSize(ts[1..])
  }

  /** An accepted tree has as many items as were counted. */
  lemma {:induction false} ForestOfKeepsSize(nodes: seq<Value>)
    requires WellTyped(nodes)
    ensures ForestSize(ForestOf(nodes)) == Size(nodes)
    decreases nodes
  {
    if nodes != [] {
      if nodes[0].children.Array? {
        ForestOfKeepsSize(nodes[0].children.items);
      }
      ForestOfKeepsSize(nodes[1..]);
      var rest := ForestOf(nodes)[1..];
      assert rest == ForestOf(nodes[1..]);
      var first := ForestOf(nodes)[0];
      assert first == TreeOf(nodes[0]) && TreeSize(first) == SizeOf(nodes[0]);
    }
  }

  // ---------------------------------------------------------------------
  // The description
  // ---------------------------------------------------------------------

  /** The usernames in a tree: an item's own first, then those of its children in order. */
  function NamesIn(t: Tree, known: map<string, string>): seq<string> {
    Names(t.assignees, known) + NamesBelow(t.children, known)
  }

  function NamesBelow(ts: seq<Tree>, known: map<string, string>): seq<string> {
    if ts == [] then [] else NamesBelow(ts[..|ts| - 1], known) + NamesIn(ts[|ts| - 1], known)
  }

  function Everyone(t: Tree, known: map<string, string>): seq<string> {
    Dedup(NamesIn(t, known))
  }

  /** The tree after the roll-up. An item in whose subtree nobody is known keeps what it had. */
  function RolledUp(t: Tree, known: map<string, string>): Tree {
    Tree(t.title, if Everyone(t, known) != [] then Texts(Everyone(t, known)) else t.assignees,
         seq(|t.children|, i requires 0 <= i < |t.children| => RolledUp(t.children[i], known)))
  }

  predicate Within(d: Tree, t: Tree) {
    d == t || exists i :: 0 <= i < |t.children| && Within(d, t.children[i])
  }

  /** Whoever works on an item works on every item above it. */
  lemma {:induction false} AncestorsHaveEveryone(d: Tree, t: Tree, known: map<string, string>, name: string)
    requires Within(d, t) && name in Everyone(d, known)
    ensures name in Everyone(t, known)
  {
    if d != t {
      var i :| 0 <= i < |t.children| && Within(d, t.children[i]);
      AncestorsHaveEveryone(d, t.children[i], known, name);
      MergeIs([], NamesIn(t.children[i], known));
      MergeIs([], NamesIn(t, known));
      BelowHas(t.children, i, known);
    }
  }

  lemma {:induction false} BelowHas(ts: seq<Tree>, i: nat, known: map<string, string>)
    requires i < |ts|
    ensures forall n :: n in NamesIn(ts[i], known) ==> n in NamesBelow(ts, known)
  {
    if i < |ts| - 1 {
      BelowHas(ts[..|ts| - 1], i, known);
    }
  }

  /** The names sent at creation, which are cleaned once more, are everyone in the subtree, if the resolver is canonical. */
  lemma SentAssignees(t: Tree, known: map<string, string>)
    requires IsResolver(known) && Canonical(known)
    ensures Clean(RolledUp(t, known).assignees, known) == Everyone(t, known)
  {
    if Everyone(t, known) != [] {
      AllFixed(NamesIn(t, known), t, known);
    } else {
      DedupOfNothing(NamesIn(t, known));
      DedupOfNothing(Names(t.assignees, known));
      assert |NamesIn(t, known)| == |Names(t.assignees, known)| + |NamesBelow(t.children, known)|;
    }
  }

  lemma DedupOfNothing(s: seq<string>)
    ensures Dedup(s) == [] <==> s == []
  {
    MergeIs([], s);
    assert s != [] ==> s[0] in Dedup(s);
  }

  lemma AllFixed(names: seq<string>, t: Tree, known: map<string, string>)
    requires IsResolver(known) && Canonical(known) && names == NamesIn(t, known)
    ensures Clean(Texts(Dedup(names)), known) == Dedup(names)
  {
    SubtreeUsernames(t, known);
    MergeIs([], names);
    forall n | n in Dedup(names) ensures Resolve(Text(n), known) == Some(n) {
    }
    NamesFixed(Dedup(names), known);
    DedupFixed(Dedup(names));
  }

  lemma {:induction false} SubtreeUsernames(t: Tree, known: map<string, string>)
    requires IsResolver(known)
    ensures forall n :: n in NamesIn(t, known) ==> n != "" && Strip(n) == n && (known == map[] || LedTo(known, n))
    decreases t, 1
  {
    NamesAreUsernames(t.assignees, known);
    ForestUsernames(t.children, known);
  }

  lemma {:induction false} ForestUsernames(ts: seq<Tree>, known: map<string, string>)
    requires IsResolver(known)
    ensures forall n :: n in NamesBelow(ts, known) ==> n != "" && Strip(n) == n && (known == map[] || LedTo(known, n))
    decreases ts, 0
  {
    if ts != [] {
      ForestUsernames(ts[..|ts| - 1], known);
      SubtreeUsernames(ts[|ts| - 1], known);
    }
  }

  // ---------------------------------------------------------------------
  // In place
  // ---------------------------------------------------------------------

  /** An item whose assignees are rewritten in place. Items below it are its own: no two branches share one. */
  class WorkItem {
    const title: Shown
    const children: seq<WorkItem>
    var assignees: seq<Shown>
    ghost const repr: set<WorkItem>
    ghost const height: nat

    ghost predicate Valid()
      decreases height
    {
      && this in repr
      && (forall i :: 0 <= i < |children| ==>
            children[i].height < height && children[i].repr < repr && this !in children[i].repr && children[i].Valid())
      && (forall i, j :: 0 <= i < j < |children| ==> children[i].repr !! children[j].repr)
    }

    function View(): Tree
      requires Valid()
      reads repr
      decreases height
    {
      Tree(title, assignees, seq(|children|, i reads repr requires 0 <= i < |children| => children[i].View()))
    }

    constructor (title: Shown, assignees: seq<Shown>, children: seq<WorkItem>)
      requires forall i :: 0 <= i < |children| ==> children[i].Valid()
      requires forall i, j :: 0 <= i < j < |children| ==> children[i].repr !! children[j].repr
      ensures Valid() && this.title == title && this.assignees == assignees && this.children == children
      ensures repr == {this} + Reprs(children)
    {
      this.title, this.assignees, this.children := title, assignees, children;
      repr := {this} + Reprs(children);
      height := Highest(children) + 1;
      new;
      ReprsHas(children);
    }

    /** `_rollup_assignee_usernames`. */
    method RollUp(known: map<string, string>) returns (merged: seq<string>)
      requires Valid()
      modifies repr
      ensures merged == Everyone(old(View()), known)
      ensures View() == RolledUp(old(View()), known)
      decreases height
    {
      hide RolledUp, NamesBelow, Merge, Names;
      ghost var before := View();
      merged := CleanUsernames(assignees, known);
      MergeNothing(merged, before.children, known);
      for i := 0 to |children|
        invariant assignees == before.assignees
        invariant forall j :: 0 <= j < i ==> children[j].View() == RolledUp(before.children[j], known)
        invariant forall j :: i <= j < |children| ==> children[j].View() == before.children[j]
        invariant merged == Merge(Clean(before.assignees, known), NamesBelow(before.children[..i], known))
      {
        var names := children[i].RollUp(known);
        MergeBranch(Clean(before.assignees, known), before.children, i, known);
        merged := MergeNames(merged, names);
      }
      RolledUpIs(before, known);
      if merged != [] {
        assignees := Texts(merged);
      }
      assert View().children == RolledUp(before, known).children;
    }
  }

  lemma MergeNothing(a: seq<string>, ts: seq<Tree>, known: map<string, string>)
    ensures Merge(a, NamesBelow(ts[..0], known)) == a
  {
    assert ts[..0] == [];
  }

  lemma MergeBranch(a: seq<string>, ts: seq<Tree>, i: nat, known: map<string, string>)
    requires i < |ts|
    ensures Merge(a, NamesBelow(ts[..i + 1], known)) == Merge(Merge(a, NamesBelow(ts[..i], known)), Everyone(ts[i], known))
  {
    MergeDedup(Merge(a, NamesBelow(ts[..i], known)), NamesIn(ts[i], known));
    MergeAppend(a, NamesBelow(ts[..i], known), NamesIn(ts[i], known));
    assert ts[..i + 1][..i] == ts[..i];
  }

  /** What all branches together add up to. */
  lemma RolledUpIs(t: Tree, known: map<string, string>)
    ensures Everyone(t, known) == Merge(Clean(t.assignees, known), NamesBelow(t.children[..|t.children|], known))
    ensures var r := RolledUp(t, known);
            && r.title == t.title && |r.children| == |t.children|
            && r.assignees == (if Everyone(t, known) != [] then Texts(Everyone(t, known)) else t.assignees)
            && forall i :: 0 <= i < |t.children| ==> r.children[i] == RolledUp(t.children[i], known)
  {
    assert t.children[..|t.children|] == t.children;
    MergeAppend([], Names(t.assignees, known), NamesBelow(t.children, known));
  }

  /** The inner loop of the roll-up. */
  method MergeNames(a: seq<string>, b: seq<string>) returns (r: seq<string>)
    ensures r == Merge(a, b)
  {
    r := a;
    for k := 0 to |b|
      invariant r == Merge(a, b[..k])
    {
      assert b[..k + 1][..k] == b[..k];
      if b[k] !in r {
        r := r + [b[k]];
      }
    }
    assert b[..|b|] == b;
  }

  ghost function Reprs(items: seq<WorkItem>): set<WorkItem> {
    if items == [] then {} else items[0].repr + Reprs(items[1..])
  }

  ghost function Highest(items: seq<WorkItem>): nat {
    if items == [] then 0 else Max(items[0].height, Highest(items[1..]))
  }

  lemma {:induction false} ReprsHas(items: seq<WorkItem>)
    ensures forall i :: 0 <= i < |items| ==> items[i].repr <= Reprs(items) && items[i].height <= Highest(items)
  {
    if items != [] {
      ReprsHas(items[1..]);
      forall i | 0 <= i < |items| ensures items[i].repr <= Reprs(items) && items[i].height <= Highest(items) {
        assert i > 0 ==> items[1..][i - 1] == items[i];
      }
    }
  }
}
