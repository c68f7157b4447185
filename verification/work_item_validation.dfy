/**
  Work-item trees as they arrive, and what may be created of them: the validator that walks a tree with
  a mutable counter, and the conversion of typed drafts (src/capabilities/tools/workitem_tools.py).
 */
module WorkItemValidation {
  import opened Common
  import opened Events

  const MAX_WORK_ITEM_TREE_DEPTH := 3
  const MAX_WORK_ITEM_TREE_ITEMS := 100

  /** Any value, reduced to what `str` shows of it and whether it counts as true. */
  datatype Shown = Shown(text: string, truthy: bool)

  /** Python's `str(value or "")`. */
  function TextOf(v: Shown): string {
    if v.truthy then v.text else ""
  }

  /**
    Decoded JSON, as far as a tree looks at it. A node's missing or null children are `Absent`; its
    assignees are the listed names, or the one value that stands in for a list.
   */
  datatype Value =
    | Absent
    | Scalar
    | Array(items: seq<Value>)
    | Node(title: Shown, assignees: seq<Shown>, children: Value)

  datatype TreeError = NotAList | TooDeep | NotAnObject | BlankTitle | TooMany | BadChildren

  predicate Blank(title: Shown) {
    Strip(TextOf(title)) == ""
  }

  function ItemsOf(v: Value): seq<Value> {
    if v.Array? then v.items else []
  }

  // ---------------------------------------------------------------------
  // Which trees are accepted
  // ---------------------------------------------------------------------

  /** Every node is an object with a title that is not blank, and its children, if any, are a list of such. */
  predicate WellTyped(nodes: seq<Value>) {
    forall i :: 0 <= i < |nodes| ==> WellTypedNode(nodes[i])
  }

  predicate WellTypedNode(v: Value) {
    v.Node? && !Blank(v.title) && (v.children.Absent? || (v.children.Array? && WellTyped(v.children.items)))
  }

  function Size(nodes: seq<Value>): nat {
    if nodes == [] then 0 else SizeOf(nodes[0]) + Size(nodes[1..])
  }

  function SizeOf(v: Value): nat {
    if v.Node? then 1 + (if v.children.Array? then Size(v.children.items) else 0) else 1
  }

  /** The number of levels. */
  function Height(nodes: seq<Value>): nat {
    if nodes == [] then 0 else Max(HeightOf(nodes[0]), Height(nodes[1..]))
  }

  function HeightOf(v: Value): nat {
    if v.Node? then 1 + (if v.children.Array? then Height(v.children.items) else 0) else 1
  }

  function Max(a: nat, b: nat): nat {
    if a >= b then a else b
  }

  predicate Acceptable(v: Value) {
    v.Array? && v.items != [] && WellTyped(v.items)
    && Height(v.items) <= MAX_WORK_ITEM_TREE_DEPTH && Size(v.items) <= MAX_WORK_ITEM_TREE_ITEMS
  }

  // ---------------------------------------------------------------------
  // The walk
  // ---------------------------------------------------------------------

  /** The walk over non-empty `nodes` at `depth`, after `count` nodes: the first error met, and the count then. */
  function Walked(nodes: seq<Value>, depth: nat, count: nat): (Option<TreeError>, nat)
    decreases nodes, 1
  {
    if depth > MAX_WORK_ITEM_TREE_DEPTH then (Some(TooDeep), count) else WalkedRest(nodes, depth, count)
  }

  function WalkedRest(nodes: seq<Value>, depth: nat, count: nat): (Option<TreeError>, nat)
    decreases nodes, 0
  {
    if nodes == [] then (None, count)
    else
      var r := WalkedNode(nodes[0], depth, count);
      if r.0.Some? then r else WalkedRest(nodes[1..], depth, r.1)
  }

  function WalkedNode(v: Value, depth: nat, count: nat): (Option<TreeError>, nat)
    decreases v
  {
    if !v.Node? then (Some(NotAnObject), count)
    else if Blank(v.title) then (Some(BlankTitle), count)
    else if count + 1 > MAX_WORK_ITEM_TREE_ITEMS then (Some(TooMany), count + 1)
    else if !v.children.Absent? && !v.children.Array? then (Some(BadChildren), count + 1)
    else if ItemsOf(v.children) != [] then Walked(v.children.items, depth + 1, count + 1)
    else (None, count + 1)
  }

  /** The counter shared by all levels of the walk. */
  class Walker {
    var count: nat

    constructor ()
      ensures count == 0
    {
      count := 0;
    }

    method Walk(nodes: seq<Value>, depth: nat) returns (error: Option<TreeError>)
      modifies this
      ensures (error, count) == Walked(nodes, depth, old(count))
      decreases nodes
    {
      if depth > MAX_WORK_ITEM_TREE_DEPTH {
        return Some(TooDeep);
      }
      for i := 0 to |nodes|
        invariant WalkedRest(nodes, depth, old(count)) == WalkedRest(nodes[i..], depth, count)
      {
        assert nodes[i..][0] == nodes[i] && nodes[i..][1..] == nodes[i + 1..];
        if !nodes[i].Node? {
          return Some(NotAnObject);
        }
        if Blank(nodes[i].title) {
          return Some(BlankTitle);
        }
        count := count + 1;
        if count > MAX_WORK_ITEM_TREE_ITEMS {
          return Some(TooMany);
        }
        var children := nodes[i].children;
        if !children.Absent? && !children.Array? {
          return Some(BadChildren);
        }
        if ItemsOf(children) != [] {
          error := Walk(children.items, depth + 1);
          if error.Some? {
            return error;
          }
        }
      }
      error := None;
    }
  }

  /** `validate_work_item_tree`. */
  method ValidateWorkItemTree(v: Value) returns (error: Option<TreeError>)
    ensures error.None? <==> Acceptable(v)
    ensures error == Some(NotAList) <==> !v.Array? || v.items == []
    ensures v.Array? && v.items != [] ==> error == Walked(v.items, 1, 0).0
  {
    if !v.Array? || v.items == [] {
      return Some(NotAList);
    }
    var walker := new Walker();
    error := walker.Walk(v.items, 1);
    WalkIsExact(v.items, 1, 0);
    WalkSaysMore(v.items, 1, 0);
  }

  // ---------------------------------------------------------------------
  // The walk accepts exactly the acceptable trees
  // ---------------------------------------------------------------------

  /** What a walk that has seen `count` nodes may still accept at `depth`. */
  predicate Fits(nodes: seq<Value>, depth: nat, count: nat) {
    WellTyped(nodes) && (nodes == [] || depth + Height(nodes) <= MAX_WORK_ITEM_TREE_DEPTH + 1) && count + Size(nodes) <= MAX_WORK_ITEM_TREE_ITEMS
  }

  lemma {:induction false} WalkIsExact(nodes: seq<Value>, depth: nat, count: nat)
    requires nodes != [] && count <= MAX_WORK_ITEM_TREE_ITEMS
    ensures Walked(nodes, depth, count).0.None? <==> Fits(nodes, depth, count)
    ensures Walked(nodes, depth, count).0.None? ==> Walked(nodes, depth, count).1 == count + Size(nodes)
    decreases nodes, 1
  {
    if depth > MAX_WORK_ITEM_TREE_DEPTH {
      SomeHeight(nodes);
    } else {
      RestIsExact(nodes, depth, count);
    }
  }

  lemma {:induction false} RestIsExact(nodes: seq<Value>, depth: nat, count: nat)
    requires count <= MAX_WORK_ITEM_TREE_ITEMS && depth <= MAX_WORK_ITEM_TREE_DEPTH
    ensures WalkedRest(nodes, depth, count).0.None? <==> Fits(nodes, depth, count)
    ensures WalkedRest(nodes, depth, count).0.None? ==> WalkedRest(nodes, depth, count).1 == count + Size(nodes)
    decreases nodes, 0
  {
    if nodes != [] {
      NodeIsExact(nodes[0], depth, count);
      TypedSplit(nodes);
      if WalkedNode(nodes[0], depth, count).0.None? {
        RestIsExact(nodes[1..], depth, WalkedNode(nodes[0], depth, count).1);
      }
    }
  }

  lemma {:induction false} NodeIsExact(v: Value, depth: nat, count: nat)
    requires count <= MAX_WORK_ITEM_TREE_ITEMS && depth <= MAX_WORK_ITEM_TREE_DEPTH
    ensures WalkedNode(v, depth, count).0.None? <==>
            WellTypedNode(v) && depth + HeightOf(v) <= MAX_WORK_ITEM_TREE_DEPTH + 1 && count + SizeOf(v) <= MAX_WORK_ITEM_TREE_ITEMS
    ensures WalkedNode(v, depth, count).0.None? ==> WalkedNode(v, depth, count).1 == count + SizeOf(v)
    decreases v
  {
    if v.Node? && count + 1 <= MAX_WORK_ITEM_TREE_ITEMS && ItemsOf(v.children) != [] {
      WalkIsExact(v.children.items, depth + 1, count + 1);
    } else if v.Node? && v.children.Array? && v.children.items == [] {
      assert WellTyped(v.children.items) && Height(v.children.items) == Size(v.children.items) == 0;
    }
  }

  lemma SomeHeight(nodes: seq<Value>)
    requires nodes != []
    ensures Height(nodes) >= 1 && Size(nodes) >= 1
  {
  }

  lemma TypedSplit(nodes: seq<Value>)
    requires nodes != []
    ensures WellTyped(nodes) <==> WellTypedNode(nodes[0]) && WellTyped(nodes[1..])
  {
    assert nodes == [nodes[0]] + nodes[1..];
  }

  /** A walk never answers that there is no list, and says a tree is too deep only if it is. */
  lemma {:induction false} WalkSaysMore(nodes: seq<Value>, depth: nat, count: nat)
    ensures Walked(nodes, depth, count).0 != Some(NotAList)
    ensures nodes != [] && Walked(nodes, depth, count).0 == Some(TooDeep) ==> depth + Height(nodes) > MAX_WORK_ITEM_TREE_DEPTH + 1
    decreases nodes, 1
  {
    if depth <= MAX_WORK_ITEM_TREE_DEPTH {
      RestSaysMore(nodes, depth, count);
    } else if nodes != [] {
      SomeHeight(nodes);
    }
  }

  lemma {:induction false} RestSaysMore(nodes: seq<Value>, depth: nat, count: nat)
    ensures WalkedRest(nodes, depth, count).0 != Some(NotAList)
    ensures WalkedRest(nodes, depth, count).0 == Some(TooDeep) ==> depth + Height(nodes) > MAX_WORK_ITEM_TREE_DEPTH + 1
    decreases nodes, 0
  {
    if nodes != [] {
      var v := nodes[0];
      if v.Node? && ItemsOf(v.children) != [] {
        WalkSaysMore(v.children.items, depth + 1, count + 1);
      }
      RestSaysMore(nodes[1..], depth, WalkedNode(v, depth, count).1);
    }
  }

  // ---------------------------------------------------------------------
  // Typed drafts
  // ---------------------------------------------------------------------

  /** A draft of the planner; the three draft classes nest in one way only, so a list of drafts has at most three levels. */
  datatype ItemDraft = ItemDraft(title: string, assignees: seq<string>, children: seq<ItemDraft>)

  predicate Typed(drafts: seq<ItemDraft>, levels: nat) {
    drafts == [] || (levels > 0 && forall i :: 0 <= i < |drafts| ==> Typed(drafts[i].children, levels - 1))
  }

  function DraftSize(drafts: seq<ItemDraft>): nat {
    if drafts == [] then 0 else 1 + DraftSize(drafts[0].children) + DraftSize(drafts[1..])
  }

  function Text(s: string): Shown {
    Shown(s, s != "")
  }

  /** `_draft_to_node`. */
  function DraftToNode(d: ItemDraft): Value
    decreases d
  {
    Node(Text(d.title), seq(|d.assignees|, i requires 0 <= i < |d.assignees| => Text(d.assignees[i])),
         if d.children == [] then Absent else Array(seq(|d.children|, i requires 0 <= i < |d.children| => DraftToNode(d.children[i]))))
  }

  /** `work_item_drafts_to_items`. */
  function DraftsToItems(drafts: seq<ItemDraft>): (r: seq<Value>)
    ensures |r| == |drafts| && forall i :: 0 <= i < |r| ==> r[i] == DraftToNode(drafts[i])
  {
    seq(|drafts|, i requires 0 <= i < |drafts| => DraftToNode(drafts[i]))
  }

  /** The drafts that a list of nodes came from: the inverse of the conversion. */
  function ItemsToDrafts(nodes: seq<Value>): seq<ItemDraft> {
    if nodes == [] then []
    else if !nodes[0].Node? then ItemsToDrafts(nodes[1..])
    else
      var v := nodes[0];
      [ItemDraft(v.title.text, seq(|v.assignees|, i requires 0 <= i < |v.assignees| => v.assignees[i].text),
                 if v.children.Array? then ItemsToDrafts(v.children.items) else [])] + ItemsToDrafts(nodes[1..])
  }

  predicate AllTitled(drafts: seq<ItemDraft>) {
    forall i :: 0 <= i < |drafts| ==> Strip(drafts[i].title) != "" && AllTitled(drafts[i].children)
  }

  /** Conversion loses nothing: titles, assignees, nesting and order of siblings come back. */
  lemma {:induction false} DraftsRoundTrip(drafts: seq<ItemDraft>)
    ensures ItemsToDrafts(DraftsToItems(drafts)) == drafts
    ensures Size(DraftsToItems(drafts)) == DraftSize(drafts)
    decreases drafts
  {
    if drafts != [] {
      var d := drafts[0];
      ChildrenConverted(d);
      DraftsRoundTrip(d.children);
      DraftsRoundTrip(drafts[1..]);
      assert DraftsToItems(drafts)[1..] == DraftsToItems(drafts[1..]);
      var v := DraftToNode(d);
      assert seq(|v.assignees|, i requires 0 <= i < |v.assignees| => v.assignees[i].text) == d.assignees;
      assert drafts == [d] + drafts[1..];
    }
  }

  lemma ChildrenConverted(d: ItemDraft)
    ensures ItemsOf(DraftToNode(d).children) == DraftsToItems(d.children)
    ensures DraftToNode(d).children == if d.children == [] then Absent else Array(DraftsToItems(d.children))
  {
  }

  lemma {:induction false} DraftsHeight(drafts: seq<ItemDraft>, levels: nat)
    requires Typed(drafts, levels)
    ensures Height(DraftsToItems(drafts)) <= levels
    decreases drafts
  {
    if drafts != [] {
      ChildrenConverted(drafts[0]);
      DraftsHeight(drafts[0].children, levels - 1);
      DraftsHeight(drafts[1..], levels);
      assert DraftsToItems(drafts)[1..] == DraftsToItems(drafts[1..]);
    }
  }

  lemma {:induction false} DraftsWellTyped(drafts: seq<ItemDraft>)
    ensures WellTyped(DraftsToItems(drafts)) <==> AllTitled(drafts)
    decreases drafts
  {
    forall i | 0 <= i < |drafts|
      ensures WellTypedNode(DraftToNode(drafts[i])) <==> Strip(drafts[i].title) != "" && AllTitled(drafts[i].children)
    {
      ChildrenConverted(drafts[i]);
      DraftsWellTyped(drafts[i].children);
    }
  }

  /**
    Typed drafts never make the validator complain of depth, and are accepted exactly if there are
    some, at most a hundred, and all titles have text.
   */
  lemma DraftsAreAccepted(drafts: seq<ItemDraft>)
    requires Typed(drafts, MAX_WORK_ITEM_TREE_DEPTH)
    ensures Walked(DraftsToItems(drafts), 1, 0).0 != Some(TooDeep)
    ensures Acceptable(Array(DraftsToItems(drafts))) <==> drafts != [] && AllTitled(drafts) && DraftSize(drafts) <= MAX_WORK_ITEM_TREE_ITEMS
  {
    DraftsHeight(drafts, MAX_WORK_ITEM_TREE_DEPTH);
    DraftsWellTyped(drafts);
    DraftsRoundTrip(drafts);
    WalkSaysMore(DraftsToItems(drafts), 1, 0);
  }
}
