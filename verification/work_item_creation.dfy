/**
  The creation of a work-item tree (src/capabilities/tools/workitem_tools.py): level by level, each
  parent before its children, into a flat list of entries linked by parent ids. The list says all
  there is to say: rebuilding from it, in list order, returns the forest with its order of siblings.
 */
module WorkItemCreation {
  import opened Common
  import opened Events
  import opened Planner
  import opened WorkItemValidation
  import opened WorkItemRollup
  import opened WorkItemTrees
  import opened WorkItemNames

  const TITLE_LIMIT := 100

  /** An item still to be created. */
  datatype Pending = Pending(node: Tree, parent: Option<string>, depth: nat)

  /** What the tool reports of a created item, and what it sent to create it. */
  datatype Entry = Entry(itemId: string, parentId: Option<string>, depth: nat, title: string)
  datatype Payload = Payload(title: string, assignees: seq<string>, parentId: Option<string>)

  /** An item as it can be read back from entries and payloads. */
  datatype Item = Item(title: string, assignees: seq<string>, children: seq<Item>)

  function TitleOf(t: Tree): string {
    var text := if t.title.truthy then t.title.text else "Generated task";
    if |text| <= TITLE_LIMIT then text else text[..TITLE_LIMIT]
  }

  /** A title is the first hundred characters of the text it is made from; without any it says so. */
  predicate Cut(text: Shown, title: string) {
    if text.truthy then title <= text.text && |title| == (if |text.text| <= 100 then |text.text| else 100)
    else title == "Generated task"
  }

  lemma TitleIsCut(t: Tree)
    ensures Cut(t.title, TitleOf(t))
  {
  }

  function PayloadOf(p: Pending, known: map<string, string>): Payload {
    Payload(TitleOf(p.node), Clean(p.node.assignees, known), if Truthy(p.parent) then p.parent else None)
  }

  function EntryOf(p: Pending, id: string): Entry {
    Entry(id, p.parent, p.depth, TitleOf(p.node))
  }

  /** The item that a tree becomes. */
  function ItemOf(t: Tree, known: map<string, string>): Item {
    Item(TitleOf(t), Clean(t.assignees, known), seq(|t.children|, i requires 0 <= i < |t.children| => ItemOf(t.children[i], known)))
  }

  function ItemsOfForest(ts: seq<Tree>, known: map<string, string>): (r: seq<Item>)
    ensures |r| == |ts| && forall i :: 0 <= i < |r| ==> r[i] == ItemOf(ts[i], known)
  {
    seq(|ts|, i requires 0 <= i < |ts| => ItemOf(ts[i], known))
  }

  /** The item has the title of the tree, and its children those of the tree's children, in order. */
  predicate Shows(item: Item, t: Tree)
    decreases t
  {
    && Cut(t.title, item.title) && |item.children| == |t.children|
    && forall i :: 0 <= i < |t.children| ==> Shows(item.children[i], t.children[i])
  }

  lemma {:induction false} ItemShows(t: Tree, known: map<string, string>)
    ensures Shows(ItemOf(t, known), t)
  {
    hide Cut, TitleOf, Clean;
    TitleIsCut(t);
    forall i | 0 <= i < |t.children| ensures Shows(ItemOf(t.children[i], known), t.children[i]) {
      ItemShows(t.children[i], known);
    }
  }

  /** The items below `parent` among the entries from position `from` on. */
  function Rebuilt(created: seq<Entry>, sent: seq<Payload>, parent: Option<string>, from: nat): seq<Item>
    requires |sent| == |created|
    decreases |created| - from
  {
    if from >= |created| then []
    else
      var rest := Rebuilt(created, sent, parent, from + 1);
      if created[from].parentId != parent then rest
      else [Item(created[from].title, sent[from].assignees, Rebuilt(created, sent, Some(created[from].itemId), from + 1))] + rest
  }

  // ---------------------------------------------------------------------
  // The order of creation
  // ---------------------------------------------------------------------

  /**
    All trees met so far, in the order they are met: `nodes[i]` was met as a child of `nodes[parents[i]]`,
    or as a root if `parents[i]` is -1. The first `done` of them are created and have shown their children.
   */
  datatype Order = Order(nodes: seq<Tree>, parents: seq<int>, depths: seq<nat>, done: nat)

  /** The trees met as children of position `p`, in order. */
  function Met(nodes: seq<Tree>, parents: seq<int>, p: int): seq<Tree>
    requires |nodes| == |parents|
  {
    if nodes == [] then []
    else (if parents[0] == p then [nodes[0]] else []) + Met(nodes[1..], parents[1..], p)
  }

  lemma {:induction false} MetAppend(a: seq<Tree>, b: seq<Tree>, p: seq<int>, q: seq<int>, at: int)
    requires |a| == |p| && |b| == |q|
    ensures Met(a + b, p + q, at) == Met(a, p, at) + Met(b, q, at)
  {
    if a == [] {
      assert a + b == b && p + q == q;
    } else {
      assert (a + b)[1..] == a[1..] + b && (p + q)[1..] == p[1..] + q;
      MetAppend(a[1..], b, p[1..], q, at);
      assert (a + b)[0] == a[0] && (p + q)[0] == p[0];
      var first := if p[0] == at then [a[0]] else [];
      assert first + (Met(a[1..], p[1..], at) + Met(b, q, at)) == (first + Met(a[1..], p[1..], at)) + Met(b, q, at);
    }
  }

  lemma {:induction false} MetAll(ts: seq<Tree>, parents: seq<int>, p: int)
    requires |ts| == |parents| && forall i :: 0 <= i < |parents| ==> parents[i] == p
    ensures Met(ts, parents, p) == ts
    ensures forall q :: q != p ==> Met(ts, parents, q) == []
  {
    if ts != [] {
      MetAll(ts[1..], parents[1..], p);
    }
  }

  lemma {:induction false} MetNone(ts: seq<Tree>, parents: seq<int>, p: int)
    requires |ts| == |parents| && forall i :: 0 <= i < |parents| ==> parents[i] != p
    ensures Met(ts, parents, p) == []
  {
    if ts != [] {
      MetNone(ts[1..], parents[1..], p);
    }
  }

  /** Each tree was met after its parent was created, and every created tree has shown exactly its children. */
  ghost predicate Ordered(o: Order, forest: seq<Tree>) {
    && |o.parents| == |o.nodes| == |o.depths| && o.done <= |o.nodes|
    && (forall i :: 0 <= i < |o.nodes| ==> -1 <= o.parents[i] < i && o.parents[i] < o.done)
    && (forall i :: 0 <= i < |o.nodes| ==> o.depths[i] == if o.parents[i] == -1 then 1 else o.depths[o.parents[i]] + 1)
    && Met(o.nodes, o.parents, -1) == forest
    && (forall i :: 0 <= i < o.done ==> Met(o.nodes, o.parents, i) == o.nodes[i].children)
  }

  function Repeated<T>(x: T, n: nat): (r: seq<T>)
    ensures |r| == n && forall i :: 0 <= i < n ==> r[i] == x
  {
    seq(n, _ => x)
  }

  /** The next tree is created and shows its children. */
  function Grown(o: Order): Order
    requires o.done < |o.nodes| == |o.depths|
  {
    var children := o.nodes[o.done].children;
    Order(o.nodes + children, o.parents + Repeated(o.done, |children|), o.depths + Repeated(o.depths[o.done] + 1, |children|), o.done + 1)
  }

  lemma GrownIsOrdered(o: Order, forest: seq<Tree>)
    requires Ordered(o, forest) && o.done < |o.nodes|
    ensures Ordered(Grown(o), forest)
  {
    var children, s := o.nodes[o.done].children, Grown(o);
    var added := Repeated(o.done as int, |children|);
    assert s.parents == o.parents + added;
    MetAll(children, added, o.done);
    forall p ensures Met(s.nodes, s.parents, p) == Met(o.nodes, o.parents, p) + (if p == o.done then children else []) {
      MetAppend(o.nodes, children, o.parents, added, p);
    }
    MetNone(o.nodes, o.parents, o.done);
    forall i | 0 <= i < s.done ensures Met(s.nodes, s.parents, i) == s.nodes[i].children {
      assert s.nodes[i] == o.nodes[i];
    }
  }

  lemma StartIsOrdered(forest: seq<Tree>)
    ensures Ordered(Order(forest, Repeated(-1, |forest|), Repeated(1, |forest|), 0), forest)
  {
    MetAll(forest, Repeated(-1, |forest|), -1);
  }

  lemma {:induction false} ForestSizeAppend(a: seq<Tree>, b: seq<Tree>)
    ensures ForestSize(a + b) == ForestSize(a) + ForestSize(b)
  {
    if a == [] {
      assert a + b == b;
    } else {
      assert (a + b)[1..] == a[1..] + b;
      ForestSizeAppend(a[1..], b);
    }
  }

  lemma GrownKeepsSize(o: Order)
    requires o.done < |o.nodes| == |o.depths|
    ensures 1 + ForestSize(Grown(o).nodes[o.done + 1..]) == ForestSize(o.nodes[o.done..])
  {
    var rest := o.nodes[o.done..];
    assert Grown(o).nodes[o.done + 1..] == rest[1..] + rest[0].children;
    ForestSizeAppend(rest[1..], rest[0].children);
  }

  // ---------------------------------------------------------------------
  // Creation
  // ---------------------------------------------------------------------

  /** Ids drawn one after the other never repeat, and none is that of the item the tree is put under. */
  ghost predicate FreshIds(ids: nat -> string, root: Option<string>) {
    && (forall i: nat, j: nat :: i != j ==> ids(i) != ids(j))
    && (forall i: nat :: Some(ids(i)) != root)
  }

  function ParentId(ids: nat -> string, root: Option<string>, p: int): Option<string>
    requires p >= -1
  {
    if p == -1 then root else Some(ids(p))
  }

  /** What the position `i` in the order stands for while it waits. */
  function PendingAt(o: Order, ids: nat -> string, root: Option<string>, i: nat): Pending
    requires i < |o.nodes| == |o.parents| == |o.depths| && o.parents[i] >= -1
  {
    Pending(o.nodes[i], ParentId(ids, root, o.parents[i]), o.depths[i])
  }

  /** Entries and payloads of the first `done` trees, and the trees still waiting, in order. */
  ghost predicate Follows(o: Order, ids: nat -> string, root: Option<string>, known: map<string, string>,
                          created: seq<Entry>, sent: seq<Payload>, waiting: seq<Pending>)
    requires |o.nodes| == |o.parents| == |o.depths| && o.done <= |o.nodes| && forall i :: 0 <= i < |o.nodes| ==> o.parents[i] >= -1
  {
    && |created| == |sent| == o.done && |waiting| == |o.nodes| - o.done
    && (forall i :: 0 <= i < o.done ==> created[i] == EntryOf(PendingAt(o, ids, root, i), ids(i)) && sent[i] == PayloadOf(PendingAt(o, ids, root, i), known))
    && (forall k :: 0 <= k < |waiting| ==> waiting[k] == PendingAt(o, ids, root, o.done + k))
  }

  /** `_create_level`: what is sent for each item, and the ids that come back. */
  method CreateLevel(level: seq<Pending>, start: nat, ids: nat -> string, known: map<string, string>)
    returns (sent: seq<Payload>, itemIds: seq<string>)
    ensures |sent| == |itemIds| == |level|
    ensures forall k :: 0 <= k < |level| ==> sent[k] == PayloadOf(level[k], known) && itemIds[k] == ids(start + k)
    ensures forall k :: 0 <= k < |level| ==> Cut(level[k].node.title, sent[k].title)
  {
    hide TitleOf, Cut, Clean;
    sent, itemIds := [], [];
    for k := 0 to |level|
      invariant |sent| == |itemIds| == k
      invariant forall i :: 0 <= i < k ==> sent[i] == PayloadOf(level[i], known) && itemIds[i] == ids(start + i)
      invariant forall i :: 0 <= i < k ==> Cut(level[i].node.title, sent[i].title)
    {
      var assignees := CleanUsernames(level[k].node.assignees, known);
      TitleIsCut(level[k].node);
      sent := sent + [Payload(TitleOf(level[k].node), assignees, if Truthy(level[k].parent) then level[k].parent else None)];
      itemIds := itemIds + [ids(start + k)];
    }
  }

  /** The children of a created item, to be created at the next level. */
  function ChildrenOf(p: Pending, id: string): seq<Pending> {
    seq(|p.node.children|, i requires 0 <= i < |p.node.children| => Pending(p.node.children[i], Some(id), p.depth + 1))
  }

  /** One more item is created and its children wait after all others. */
  lemma CreateOne(o: Order, forest: seq<Tree>, ids: nat -> string, root: Option<string>, known: map<string, string>,
                  created: seq<Entry>, sent: seq<Payload>, waiting: seq<Pending>)
    requires Ordered(o, forest) && Follows(o, ids, root, known, created, sent, waiting) && waiting != []
    ensures var p, id := waiting[0], ids(|created|);
            && Ordered(Grown(o), forest)
            && Follows(Grown(o), ids, root, known, created + [EntryOf(p, id)], sent + [PayloadOf(p, known)], waiting[1..] + ChildrenOf(p, id))
  {
    hide Ordered, PayloadOf, EntryOf, ChildrenOf, PendingAt, Grown;
    OrderedIs(o, forest);
    GrownIsOrdered(o, forest);
    var s, p, id := Grown(o), waiting[0], ids(|created|);
    var created1, sent1, after := created + [EntryOf(p, id)], sent + [PayloadOf(p, known)], waiting[1..] + ChildrenOf(p, id);
    assert p == PendingAt(o, ids, root, o.done + 0);
    FirstWaiting(o, ids, root);
    OrderedIs(s, forest);
    StillWaiting(o, waiting, id);
    forall i | 0 <= i < s.done
      ensures created1[i] == EntryOf(PendingAt(s, ids, root, i), ids(i)) && sent1[i] == PayloadOf(PendingAt(s, ids, root, i), known) {
      StaysPending(o, ids, root, i);
    }
    forall k | 0 <= k < |after| ensures s.done + k < |s.nodes| && after[k] == PendingAt(s, ids, root, s.done + k) {
      NextWaiting(o, ids, root, waiting, k);
    }
  }

  lemma OrderedIs(o: Order, forest: seq<Tree>)
    requires Ordered(o, forest)
    ensures |o.nodes| == |o.parents| == |o.depths| && o.done <= |o.nodes| && forall i :: 0 <= i < |o.nodes| ==> o.parents[i] >= -1
  {
  }

  lemma FirstWaiting(o: Order, ids: nat -> string, root: Option<string>)
    requires |o.nodes| == |o.parents| == |o.depths| && o.done < |o.nodes| && o.parents[o.done] >= -1
    ensures PendingAt(o, ids, root, o.done).node == o.nodes[o.done]
  {
  }

  lemma StaysPending(o: Order, ids: nat -> string, root: Option<string>, i: nat)
    requires |o.nodes| == |o.parents| == |o.depths| && o.done < |o.nodes| && i < |o.nodes| && o.parents[i] >= -1
    ensures Grown(o).parents[i] == o.parents[i] && PendingAt(Grown(o), ids, root, i) == PendingAt(o, ids, root, i)
  {
  }

  lemma NextWaiting(o: Order, ids: nat -> string, root: Option<string>, waiting: seq<Pending>, k: nat)
    requires |o.nodes| == |o.parents| == |o.depths| && o.done < |o.nodes| && forall i :: 0 <= i < |o.nodes| ==> o.parents[i] >= -1
    requires |waiting| == |o.nodes| - o.done && forall j :: 0 <= j < |waiting| ==> waiting[j] == PendingAt(o, ids, root, o.done + j)
    requires k < |waiting[1..] + ChildrenOf(waiting[0], ids(o.done))|
    ensures o.done + 1 + k < |Grown(o).nodes| && Grown(o).parents[o.done + 1 + k] >= -1
    ensures (waiting[1..] + ChildrenOf(waiting[0], ids(o.done)))[k] == PendingAt(Grown(o), ids, root, o.done + 1 + k)
  {
    assert waiting[0] == PendingAt(o, ids, root, o.done + 0);
    if k < |waiting| - 1 {
      assert waiting[1..][k] == PendingAt(o, ids, root, o.done + (k + 1));
    }
  }

  /** There are as many waiting afterwards as positions not done. */
  lemma StillWaiting(o: Order, waiting: seq<Pending>, id: string)
    requires |o.nodes| == |o.parents| == |o.depths| && o.done < |o.nodes| && |waiting| == |o.nodes| - o.done && waiting[0].node == o.nodes[o.done]
    ensures |waiting[1..] + ChildrenOf(waiting[0], id)| == |Grown(o).nodes| - Grown(o).done
    ensures |Grown(o).nodes| == |Grown(o).parents| == |Grown(o).depths| && Grown(o).done == o.done + 1 <= |Grown(o).nodes|
  {
  }

  /**
    The loop of `execute`. Exactly one entry per item, with the ids in order; each entry is a root or
    comes after its parent, one level deeper; and if ids are fresh, entries and payloads in list order
    give back the forest, title by title.
   */
  method CreateTree(forest: seq<Tree>, root: Option<string>, ids: nat -> string, known: map<string, string>)
    returns (created: seq<Entry>, sent: seq<Payload>)
    ensures |created| == |sent| == ForestSize(forest)
    ensures forall i :: 0 <= i < |created| ==> created[i].itemId == ids(i) && ParentFirst(created, root, i)
    ensures forall i :: 0 <= i < |created| ==>
              sent[i].title == created[i].title && sent[i].parentId == if Truthy(created[i].parentId) then created[i].parentId else None
    ensures FreshIds(ids, root) ==>
              var rebuilt := Rebuilt(created, sent, root, 0);
              rebuilt == ItemsOfForest(forest, known) && forall i :: 0 <= i < |forest| ==> Shows(rebuilt[i], forest[i])
  {
    hide Ordered, Follows, Met, ChildrenOf, PayloadOf, Grown, ItemsOfForest, ItemOf, Rebuilt, FreshIds, Shows;
    created, sent := [], [];
    var pending := seq(|forest|, i requires 0 <= i < |forest| => Pending(forest[i], root, 1));
    ghost var o := Order(forest, Repeated(-1, |forest|), Repeated(1, |forest|), 0);
    StartFollows(forest, ids, root, known, pending);
    while pending != []
      invariant Tracks(o, forest, ids, root, known, created, sent, pending)
      decreases ForestSize(forest) - |created|
    {
      ghost var before := |created|;
      SomeLeft(o, forest, ids, root, known, created, sent, pending);
      var payloads, itemIds := CreateLevel(pending, |created|, ids, known);
      var next: seq<Pending> := [];
      assert pending[0..] + next == pending;
      for k := 0 to |pending|
        invariant |created| == before + k
        invariant Tracks(o, forest, ids, root, known, created, sent, pending[k..] + next)
      {
        var p, id := pending[k], itemIds[k];
        assert id == ids(|created|) && payloads[k] == PayloadOf(p, known);
        TrackOne(o, forest, ids, root, known, created, sent, pending[k..] + next);
        assert (pending[k..] + next)[0] == p;
        assert (pending[k..] + next)[1..] + ChildrenOf(p, id) == pending[k + 1..] + (next + ChildrenOf(p, id));
        created := created + [EntryOf(p, id)];
        sent := sent + [payloads[k]];
        next := next + ChildrenOf(p, id);
        o := Grown(o);
      }
      assert pending[|pending|..] + next == next;
      pending := next;
    }
    TracksToTheEnd(o, forest, ids, root, known, created, sent);
    forall i | 0 <= i < |forest| ensures Shows(ItemOf(forest[i], known), forest[i]) {
      ItemShows(forest[i], known);
    }
  }

  ghost predicate Tracks(o: Order, forest: seq<Tree>, ids: nat -> string, root: Option<string>, known: map<string, string>,
                         created: seq<Entry>, sent: seq<Payload>, waiting: seq<Pending>)
  {
    Ordered(o, forest) && Follows(o, ids, root, known, created, sent, waiting) && |created| + ForestSize(o.nodes[o.done..]) == ForestSize(forest)
  }

  lemma StartFollows(forest: seq<Tree>, ids: nat -> string, root: Option<string>, known: map<string, string>, pending: seq<Pending>)
    requires |pending| == |forest| && forall i :: 0 <= i < |forest| ==> pending[i] == Pending(forest[i], root, 1)
    ensures Tracks(Order(forest, Repeated(-1, |forest|), Repeated(1, |forest|), 0), forest, ids, root, known, [], [], pending)
  {
    StartIsOrdered(forest);
    assert forest[0..] == forest;
  }

  lemma TrackOne(o: Order, forest: seq<Tree>, ids: nat -> string, root: Option<string>, known: map<string, string>,
                 created: seq<Entry>, sent: seq<Payload>, waiting: seq<Pending>)
    requires Tracks(o, forest, ids, root, known, created, sent, waiting) && waiting != []
    ensures var p, id := waiting[0], ids(|created|);
            Tracks(Grown(o), forest, ids, root, known, created + [EntryOf(p, id)], sent + [PayloadOf(p, known)], waiting[1..] + ChildrenOf(p, id))
    ensures |o.depths| == |o.nodes| > o.done
  {
    CreateOne(o, forest, ids, root, known, created, sent, waiting);
    GrownKeepsSize(o);
    hide Ordered, Met;
  }

  lemma SomeLeft(o: Order, forest: seq<Tree>, ids: nat -> string, root: Option<string>, known: map<string, string>,
                 created: seq<Entry>, sent: seq<Payload>, waiting: seq<Pending>)
    requires Tracks(o, forest, ids, root, known, created, sent, waiting) && waiting != []
    ensures |created| < ForestSize(forest)
  {
    var rest := o.nodes[o.done..];
    assert rest != [] && ForestSize(rest) == TreeSize(rest[0]) + ForestSize(rest[1..]);
    hide Ordered;
  }

  /** Entry `i` is a root, or its parent comes earlier and is one level higher. */
  predicate ParentFirst(created: seq<Entry>, root: Option<string>, i: nat)
    requires i < |created|
  {
    || (created[i].parentId == root && created[i].depth == 1)
    || exists j :: 0 <= j < i && created[i].parentId == Some(created[j].itemId) && created[i].depth == created[j].depth + 1
  }

  lemma TracksToTheEnd(o: Order, forest: seq<Tree>, ids: nat -> string, root: Option<string>, known: map<string, string>,
                       created: seq<Entry>, sent: seq<Payload>)
    requires Tracks(o, forest, ids, root, known, created, sent, [])
    ensures |created| == |sent| == ForestSize(forest)
    ensures forall i :: 0 <= i < |created| ==> created[i].itemId == ids(i) && ParentFirst(created, root, i)
    ensures forall i :: 0 <= i < |created| ==>
              sent[i].title == created[i].title && sent[i].parentId == if Truthy(created[i].parentId) then created[i].parentId else None
    ensures FreshIds(ids, root) ==> Rebuilt(created, sent, root, 0) == ItemsOfForest(forest, known)
  {
    assert o.nodes[o.done..] == [];
    forall i | 0 <= i < |created| ensures ParentFirst(created, root, i) {
      if o.parents[i] >= 0 {
        var j := o.parents[i];
        assert created[j] == EntryOf(PendingAt(o, ids, root, j), ids(j));
      }
    }
    if FreshIds(ids, root) {
      RebuiltIs(o, forest, ids, root, known, created, sent, 0, -1);
      assert o.nodes[0..] == o.nodes && o.parents[0..] == o.parents;
    }
  }

  // ---------------------------------------------------------------------
  // Rebuilding
  // ---------------------------------------------------------------------

  /** The children of a created tree are all met after it. */
  lemma MetLater(o: Order, forest: seq<Tree>, i: nat)
    requires Ordered(o, forest) && i < o.done == |o.nodes|
    ensures Met(o.nodes[i + 1..], o.parents[i + 1..], i) == o.nodes[i].children
  {
    assert o.nodes == o.nodes[..i + 1] + o.nodes[i + 1..] && o.parents == o.parents[..i + 1] + o.parents[i + 1..];
    MetAppend(o.nodes[..i + 1], o.nodes[i + 1..], o.parents[..i + 1], o.parents[i + 1..], i);
    MetNone(o.nodes[..i + 1], o.parents[..i + 1], i);
  }

  lemma RebuiltUnfolds(created: seq<Entry>, sent: seq<Payload>, parent: Option<string>, from: nat)
    requires |sent| == |created| > from
    ensures var e, rest := created[from], Rebuilt(created, sent, parent, from + 1);
            Rebuilt(created, sent, parent, from) ==
            if e.parentId != parent then rest
            else [Item(e.title, sent[from].assignees, Rebuilt(created, sent, Some(e.itemId), from + 1))] + rest
  {
  }

  lemma MetUnfolds(nodes: seq<Tree>, parents: seq<int>, from: nat, p: int)
    requires |nodes| == |parents| > from
    ensures var rest := Met(nodes[from + 1..], parents[from + 1..], p);
            Met(nodes[from..], parents[from..], p) == if parents[from] == p then [nodes[from]] + rest else rest
  {
    assert nodes[from..][1..] == nodes[from + 1..] && parents[from..][1..] == parents[from + 1..];
  }

  lemma {:induction false} RebuiltIs(o: Order, forest: seq<Tree>, ids: nat -> string, root: Option<string>, known: map<string, string>,
                                     created: seq<Entry>, sent: seq<Payload>, from: nat, p: int)
    requires Ordered(o, forest) && Follows(o, ids, root, known, created, sent, []) && FreshIds(ids, root)
    requires -1 <= p < from <= |o.nodes| || (p == -1 && from == 0)
    ensures Rebuilt(created, sent, ParentId(ids, root, p), from) == ItemsOfForest(Met(o.nodes[from..], o.parents[from..], p), known)
    decreases |o.nodes| - from
  {
    hide FreshIds, Rebuilt, Met, ItemOf, Clean, TitleOf, ParentId;
    if from < |o.nodes| {
      RebuiltIs(o, forest, ids, root, known, created, sent, from + 1, p);
      RebuiltIs(o, forest, ids, root, known, created, sent, from + 1, from);
      MetLater(o, forest, from);
      ParentIdTells(ids, root, o.parents[from], p);
      assert ParentId(ids, root, from) == Some(ids(from)) by {
        ParentIdOf(ids, root, from);
      }
      MetUnfolds(o.nodes, o.parents, from, p);
      RebuiltUnfolds(created, sent, ParentId(ids, root, p), from);
      ItemSplit(o.nodes[from], Met(o.nodes[from + 1..], o.parents[from + 1..], p), known);
      assert created[from] == EntryOf(PendingAt(o, ids, root, from), ids(from));
      assert sent[from] == PayloadOf(PendingAt(o, ids, root, from), known);
      hide Ordered, Follows, ItemsOfForest;
    } else {
      NothingRebuilt(created, sent, ParentId(ids, root, p), from);
      assert o.nodes[from..] == [] && Met(o.nodes[from..], o.parents[from..], p) == [] by {
        MetNone(o.nodes[from..], o.parents[from..], p);
      }
    }
  }

  lemma NothingRebuilt(created: seq<Entry>, sent: seq<Payload>, parent: Option<string>, from: nat)
    requires |sent| == |created| <= from
    ensures Rebuilt(created, sent, parent, from) == []
  {
  }

  lemma ParentIdOf(ids: nat -> string, root: Option<string>, p: nat)
    ensures ParentId(ids, root, p) == Some(ids(p))
  {
  }

  lemma ParentIdTells(ids: nat -> string, root: Option<string>, p: int, q: int)
    requires FreshIds(ids, root) && p >= -1 && q >= -1
    ensures ParentId(ids, root, p) == ParentId(ids, root, q) <==> p == q
  {
  }

  lemma ItemSplit(t: Tree, ts: seq<Tree>, known: map<string, string>)
    ensures ItemsOfForest([t] + ts, known) == [ItemOf(t, known)] + ItemsOfForest(ts, known)
    ensures ItemOf(t, known) == Item(TitleOf(t), Clean(t.assignees, known), ItemsOfForest(t.children, known))
  {
    hide TitleOf, Clean;
  }

  // ---------------------------------------------------------------------
  // Ids
  // ---------------------------------------------------------------------

  /** The id of the `n`-th item that is created without a backend. */
  function LocalId(actionId: string, n: nat): string {
    "local-" + actionId + "-" + Decimal(n + 1)
  }

  /** Local ids are fresh, under no item or under one with a UUID, whose text begins with a hexadecimal digit. */
  lemma LocalIdsAreFresh(actionId: string, root: Option<string>)
    requires root.Some? && root.value != "" ==> root.value[0] != 'l'
    ensures FreshIds((n: nat) => LocalId(actionId, n), root)
  {
    forall i: nat, j: nat | i != j ensures LocalId(actionId, i) != LocalId(actionId, j) {
      if LocalId(actionId, i) == LocalId(actionId, j) {
        var front := "local-" + actionId + "-";
        assert LocalId(actionId, i)[|front|..] == Decimal(i + 1) && LocalId(actionId, j)[|front|..] == Decimal(j + 1);
        DecimalIsInjective(i + 1, j + 1);
      }
    }
    forall i: nat ensures Some(LocalId(actionId, i)) != root {
      assert LocalId(actionId, i)[0] == 'l';
    }
  }

  // ---------------------------------------------------------------------
  // The whole tool
  // ---------------------------------------------------------------------

  /** The item that a tree as it arrived becomes: everyone who works in the subtree is assigned. */
  function Complete(t: Tree, known: map<string, string>): Item {
    Item(TitleOf(t), Everyone(t, known), seq(|t.children|, i requires 0 <= i < |t.children| => Complete(t.children[i], known)))
  }

  lemma {:induction false} RolledUpBecomes(t: Tree, known: map<string, string>)
    requires IsResolver(known) && Canonical(known)
    ensures ItemOf(RolledUp(t, known), known) == Complete(t, known)
  {
    forall i | 0 <= i < |t.children| ensures ItemOf(RolledUp(t.children[i], known), known) == Complete(t.children[i], known) {
      RolledUpBecomes(t.children[i], known);
    }
    SentAssignees(t, known);
    var r := RolledUp(t, known);
    assert TitleOf(r) == TitleOf(t);
    hide RolledUp, Everyone, Clean, TitleOf;
    assert ItemOf(r, known).children == Complete(t, known).children;
  }

  // ---------------------------------------------------------------------
  // What is created, against what arrived
  // ---------------------------------------------------------------------

  /** The item has the title of the arriving node, and its children those of the node's children, in order. */
  predicate Carries(item: Item, v: Value)
    decreases v
  {
    && v.Node? && Cut(v.title, item.title)
    && (if v.children.Array? then
          |item.children| == |v.children.items| && forall i :: 0 <= i < |item.children| ==> Carries(item.children[i], v.children.items[i])
        else item.children == [])
  }

  /** Exactly those who work on the arriving node or below it are assigned to the item, each once; so for all its children. */
  ghost predicate Staffed(item: Item, v: Value, known: map<string, string>)
    decreases v
  {
    && v.Node? && NoRepeats(item.assignees) && (forall name :: name in item.assignees <==> WorksOn(v, known, name))
    && (v.children.Array? ==>
          |item.children| == |v.children.items| && forall i :: 0 <= i < |item.children| ==> Staffed(item.children[i], v.children.items[i], known))
  }

  lemma ChildrenOfNode(v: Value)
    requires WellTypedNode(v)
    ensures v.Node? && WellTyped(ItemsOf(v.children)) && TreeOf(v).title == v.title && |TreeOf(v).children| == |ItemsOf(v.children)|
    ensures forall i :: 0 <= i < |ItemsOf(v.children)| ==> TreeOf(v).children[i] == TreeOf(v.children.items[i])
  {
    hide Blank;
  }

  lemma {:induction false} RolledUpCarries(v: Value, known: map<string, string>)
    requires WellTypedNode(v)
    ensures Carries(ItemOf(RolledUp(TreeOf(v), known), known), v)
    decreases v
  {
    hide Everyone, Clean, TitleOf, Cut, Blank, RolledUp, TreeOf, ItemOf;
    var t := TreeOf(v);
    var r := RolledUp(t, known);
    ChildrenOfNode(v);
    RolledUpIs(t, known);
    TitleIsCut(r);
    ItemSplit(r, [], known);
    forall i | 0 <= i < |ItemsOf(v.children)| ensures Carries(ItemOf(r.children[i], known), v.children.items[i]) {
      RolledUpCarries(v.children.items[i], known);
    }
  }

  lemma {:induction false} CompleteIsStaffed(v: Value, known: map<string, string>)
    requires WellTypedNode(v)
    ensures Staffed(Complete(TreeOf(v), known), v, known)
    decreases v
  {
    hide Everyone, Clean, TitleOf, Blank, WorksOn;
    var t := TreeOf(v);
    forall name ensures name in Everyone(t, known) <==> WorksOn(v, known, name) {
      EveryoneIs(v, known, name);
    }
    EveryoneIs(v, known, "");
    if v.children.Array? {
      forall i | 0 <= i < |v.children.items|
        ensures Staffed(Complete(t.children[i], known), v.children.items[i], known)
      {
        CompleteIsStaffed(v.children.items[i], known);
      }
    }
  }

  /** The items as objects are those of the decoded value, each in an object of its own. */
  ghost predicate Mirrors(items: seq<WorkItem>, v: Value)
    reads Reprs(items)
  {
    && WellTyped(ItemsOf(v)) && |items| == |ItemsOf(v)|
    && (forall i :: 0 <= i < |items| ==> items[i].Valid())
    && (forall i, j :: 0 <= i < j < |items| ==> items[i].repr !! items[j].repr)
    && (forall i :: 0 <= i < |items| ==> items[i].repr <= Reprs(items) && items[i].View() == TreeOf(ItemsOf(v)[i]))
  }

  /** The roll-up of every root, and the forest that results. */
  method RollUpAll(items: seq<WorkItem>, known: map<string, string>, ghost v: Value) returns (forest: seq<Tree>)
    requires Mirrors(items, v)
    modifies Reprs(items)
    ensures |forest| == |ItemsOf(v)| && forall i :: 0 <= i < |forest| ==> forest[i] == RolledUp(TreeOf(ItemsOf(v)[i]), known)
  {
    hide TreeOf, RolledUp, WorkItem.View, WorkItem.Valid, WellTypedNode;
    forest := [];
    for i := 0 to |items|
      invariant |forest| == i && forall j :: 0 <= j < i ==> forest[j] == RolledUp(TreeOf(ItemsOf(v)[j]), known)
      invariant forall j :: i <= j < |items| ==> items[j].View() == TreeOf(ItemsOf(v)[j])
    {
      var names := items[i].RollUp(known);
      forest := forest + [items[i].View()];
    }
  }

  /**
    `execute`: a tree that is not acceptable creates nothing and changes nothing; an acceptable one is
    created whole, and entries and payloads give back the tree as it arrived, title by title, with everyone assigned.
   */
  method Execute(v: Value, items: seq<WorkItem>, root: Option<string>, ids: nat -> string, members: seq<Member>)
    returns (error: Option<TreeError>, created: seq<Entry>, sent: seq<Payload>)
    requires Acceptable(v) ==> Mirrors(items, v)
    modifies if Acceptable(v) then Reprs(items) else {}
    ensures error.None? <==> Acceptable(v)
    ensures error.Some? ==> created == [] && sent == []
    ensures error.None? ==> |created| == |sent| == Size(v.items) <= MAX_WORK_ITEM_TREE_ITEMS
    ensures error.None? ==> forall i :: 0 <= i < |created| ==> ParentFirst(created, root, i)
    ensures error.None? && FreshIds(ids, root) ==>
              var rebuilt := Rebuilt(created, sent, root, 0);
              && |rebuilt| == |v.items| && (forall i :: 0 <= i < |rebuilt| ==> Carries(rebuilt[i], v.items[i]))
              && (Canonical(Known(members)) ==> forall i :: 0 <= i < |rebuilt| ==>
                    rebuilt[i] == Complete(TreeOf(v.items[i]), Known(members)) && Staffed(rebuilt[i], v.items[i], Known(members)))
  {
    hide IsResolver, Canonical, RolledUp, Complete, Rebuilt, FreshIds, WellTypedNode, Known, Carries, Staffed, Shows;
    error := ValidateWorkItemTree(v);
    if error.Some? {
      return error, [], [];
    }
    var known := KnownMemberUsernames(members);
    var forest := RollUpAll(items, known, v);
    created, sent := CreateTree(forest, root, ids, known);
    ForestOfKeepsSize(v.items);
    RolledUpForestSize(ForestOf(v.items), forest, known);
    ForestCarries(v.items, forest, known);
  }

  /** The forest that the roll-up makes of the arriving nodes, as items. */
  lemma ForestCarries(nodes: seq<Value>, forest: seq<Tree>, known: map<string, string>)
    requires WellTyped(nodes) && |forest| == |nodes| && IsResolver(known)
    requires forall i :: 0 <= i < |forest| ==> forest[i] == RolledUp(TreeOf(nodes[i]), known)
    ensures forall i :: 0 <= i < |forest| ==> Carries(ItemsOfForest(forest, known)[i], nodes[i])
    ensures Canonical(known) ==> forall i :: 0 <= i < |forest| ==>
              ItemsOfForest(forest, known)[i] == Complete(TreeOf(nodes[i]), known) && Staffed(ItemsOfForest(forest, known)[i], nodes[i], known)
  {
    hide IsResolver, Canonical, RolledUp, Complete, Carries, Staffed, ItemsOfForest, ItemOf;
    forall i | 0 <= i < |forest|
      ensures Carries(ItemOf(forest[i], known), nodes[i])
      ensures Canonical(known) ==> ItemOf(forest[i], known) == Complete(TreeOf(nodes[i]), known) && Staffed(ItemOf(forest[i], known), nodes[i], known)
    {
      RolledUpCarries(nodes[i], known);
      if Canonical(known) {
        RolledUpBecomes(TreeOf(nodes[i]), known);
        CompleteIsStaffed(nodes[i], known);
      }
    }
  }

  lemma {:induction false} RolledUpSize(t: Tree, known: map<string, string>)
    ensures TreeSize(RolledUp(t, known)) == TreeSize(t)
    decreases t, 1
  {
    RolledUpForestSize(t.children, RolledUp(t, known).children, known);
  }

  lemma {:induction false} RolledUpForestSize(ts: seq<Tree>, after: seq<Tree>, known: map<string, string>)
    requires |after| == |ts| && forall i :: 0 <= i < |ts| ==> after[i] == RolledUp(ts[i], known)
    ensures ForestSize(after) == ForestSize(ts)
    decreases ts, 0
  {
    if ts != [] {
      RolledUpSize(ts[0], known);
      RolledUpForestSize(ts[1..], after[1..], known);
    }
  }
}
