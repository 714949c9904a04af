/** The research tree: a single-rooted, append-only map from node id to typed
    node, with a parent link on every node and an ordered child list on every
    parent. `order` records insertion order, which Python's dict iteration
    follows and which the type queries return. */
module ResearchTree {
  import opened Wrappers
  import opened Seqs
  import Text

  type NodeId = string

  /** Creation timestamps are opaque values supplied by the caller. */
  type Stamp = string

  datatype NodeType = Root | Query | Result | Insight | Summary | Outline {

    /** The enum's `.value`, as written into the dictionary form. */
    function Value(): (v: string)
      ensures KindOf(v) == Some(this)
    {
      match this
      case Root => "root"
      case Query => "query"
      case Result => "result"
      case Insight => "insight"
      case Summary => "summary"
      case Outline => "outline"
    }
  }

  /** Reads a `.value` string back as a node type. */
  function KindOf(v: string): Option<NodeType> {
    if v == "root" then Some(Root)
    else if v == "query" then Some(Query)
    else if v == "result" then Some(Result)
    else if v == "insight" then Some(Insight)
    else if v == "summary" then Some(Summary)
    else if v == "outline" then Some(Outline)
    else None
  }

  /** The metadata values the code stores: strings, integers, flags and
      the creation stamp. */
  datatype MetaValue = Str(s: string) | Num(n: int) | Flag(b: bool) | Time(stamp: Stamp)

  type Metadata = map<string, MetaValue>

  const CreatedAt: string := "created_at"

  datatype Node = Node(
    id: NodeId,
    kind: NodeType,
    content: string,
    metadata: Metadata,
    parentId: Option<NodeId>,
    childrenIds: seq<NodeId>)

  datatype Tree = Tree(rootId: NodeId, nodes: map<NodeId, Node>, order: seq<NodeId>)

  datatype TreeError = ParentNotFound(parentId: NodeId) {
    function Message(): string {
      "Parent node " + parentId + " not found"
    }
  }

  /** The `i`-th inserted node has a parent that was inserted before it. */
  ghost predicate ParentEarlier(t: Tree, i: nat)
    requires i < |t.order|
  {
    && t.order[i] in t.nodes
    && t.nodes[t.order[i]].parentId.Some?
    && t.nodes[t.order[i]].parentId.value in t.order[..i]
  }

  /** Insertion order lists every node exactly once, root first; ids are
      non-empty and match their keys; the root is a parentless ROOT node. */
  ghost predicate Indexed(t: Tree) {
    && |t.order| > 0
    && t.order[0] == t.rootId
    && Distinct(t.order)
    && Keyed(t)
    && "" !in t.nodes
    && (forall id :: id in t.nodes ==> t.nodes[id].id == id)
    && t.nodes[t.rootId].kind == Root
    && t.nodes[t.rootId].parentId == None
  }

  /** The keys of the node map are exactly the ids in insertion order. */
  ghost predicate Keyed(t: Tree) {
    forall id :: id in t.nodes <==> id in t.order
  }

  /** Every node after the root has a parent inserted before it. */
  ghost predicate ParentsEarlier(t: Tree) {
    forall i :: 0 < i < |t.order| ==> ParentEarlier(t, i)
  }

  /** A listed child points back at the parent listing it. */
  ghost predicate LinksDown(t: Tree) {
    forall p, c :: p in t.nodes && c in t.nodes[p].childrenIds ==>
      c in t.nodes && t.nodes[c].parentId == Some(p)
  }

  /** A non-root node is listed among its parent's children. */
  ghost predicate LinksUp(t: Tree) {
    forall c :: c in t.nodes && c != t.rootId ==>
      t.nodes[c].parentId.Some? && t.nodes[c].parentId.value in t.nodes &&
      c in t.nodes[t.nodes[c].parentId.value].childrenIds
  }

  ghost predicate ChildrenDistinct(t: Tree) {
    forall p :: p in t.nodes ==> Distinct(t.nodes[p].childrenIds)
  }

  /** The structural invariant every tree built by `Create` and `AddNode`
      keeps: one parentless root inserted first, every other node's parent
      inserted before it, ids never empty, and the child lists agreeing
      with the parent links in both directions. */
  ghost predicate Valid(t: Tree) {
    Indexed(t) && ParentsEarlier(t) && LinksDown(t) && LinksUp(t) && ChildrenDistinct(t)
  }

  /** An id the tree does not hold yet. `_generate_id` takes the first 8
      characters of a random UUID and never checks this. */
  predicate Fresh(t: Tree, id: NodeId) {
    id != "" && id !in t.nodes
  }

  /** `Tree(root_content)`: a tree holding only its ROOT node. */
  function Create(rootContent: string, rootId: NodeId, now: Stamp): (t: Tree)
    requires rootId != ""
    ensures Valid(t)
    ensures t.rootId == rootId && t.nodes.Keys == {rootId} && t.order == [rootId]
    ensures t.nodes[rootId] == Node(rootId, Root, rootContent, map[CreatedAt := Time(now)], None, [])
  {
    Tree(rootId, map[rootId := Node(rootId, Root, rootContent, map[CreatedAt := Time(now)], None, [])], [rootId])
  }

  /** `add_node`: attaches a new node under `parent` (the root when absent),
      stamping its metadata and appending its id to the parent's children.
      An unknown parent is an error and no tree is produced. */
  function AddNode(t: Tree, id: NodeId, content: string, kind: NodeType,
                   parent: Option<NodeId>, meta: Metadata, now: Stamp): (r: Result<Tree, TreeError>)
    requires Fresh(t, id)
    ensures r.Err? <==> parent.GetOr(t.rootId) !in t.nodes
    ensures r.Err? ==> r.error == ParentNotFound(parent.GetOr(t.rootId))
    ensures r.Ok? ==>
      var p := parent.GetOr(t.rootId);
      && r.value.rootId == t.rootId
      && r.value.order == t.order + [id]
      && r.value.nodes.Keys == t.nodes.Keys + {id}
      && r.value.nodes[id] == Node(id, kind, content, meta[CreatedAt := Time(now)], Some(p), [])
      && r.value.nodes[p] == t.nodes[p].(childrenIds := t.nodes[p].childrenIds + [id])
      && (forall x :: x in t.nodes && x != p ==> r.value.nodes[x] == t.nodes[x])
    ensures Valid(t) && parent.None? ==> r.Ok? && r.value.nodes[id].parentId == Some(t.rootId)
  {
    var p := parent.GetOr(t.rootId);
    if p !in t.nodes then Err(ParentNotFound(p))
    else
      var node := Node(id, kind, content, meta[CreatedAt := Time(now)], Some(p), []);
      var pn := t.nodes[p];
      Ok(Tree(t.rootId, t.nodes[id := node][p := pn.(childrenIds := pn.childrenIds + [id])], t.order + [id]))
  }

  /** Adding a node keeps the structural invariant. */
  lemma AddNodeKeepsValid(t: Tree, id: NodeId, content: string, kind: NodeType,
                          parent: Option<NodeId>, meta: Metadata, now: Stamp)
    requires Valid(t) && Fresh(t, id)
    requires AddNode(t, id, content, kind, parent, meta, now).Ok?
    ensures Valid(AddNode(t, id, content, kind, parent, meta, now).value)
  {
    var r := AddNode(t, id, content, kind, parent, meta, now).value;
    var p := parent.GetOr(t.rootId);
    AddKeepsIndexed(t, r, id, p);
    AddKeepsParentsEarlier(t, r, id, p);
    AddKeepsLinksDown(t, r, id, p);
    AddKeepsLinksUp(t, r, id, p);
    AddKeepsChildrenDistinct(t, r, id, p);
  }

  /** What `AddNode` does to the tree, as used by the preservation proofs. */
  ghost predicate Added(t: Tree, r: Tree, id: NodeId, p: NodeId) {
    && p in t.nodes && Fresh(t, id)
    && r.rootId == t.rootId
    && r.order == t.order + [id]
    && r.nodes.Keys == t.nodes.Keys + {id}
    && r.nodes[id].id == id
    && r.nodes[id].parentId == Some(p)
    && r.nodes[id].childrenIds == []
    && r.nodes[p] == t.nodes[p].(childrenIds := t.nodes[p].childrenIds + [id])
    && (forall x :: x in t.nodes && x != p ==> r.nodes[x] == t.nodes[x])
  }

  lemma AddKeepsIndexed(t: Tree, r: Tree, id: NodeId, p: NodeId)
    requires Indexed(t) && Added(t, r, id, p)
    ensures Indexed(r)
  {
    assert forall x :: x in r.nodes <==> x in r.order;
  }

  lemma AddKeepsParentsEarlier(t: Tree, r: Tree, id: NodeId, p: NodeId)
    requires Indexed(t) && ParentsEarlier(t) && Added(t, r, id, p)
    ensures ParentsEarlier(r)
  {
    forall i | 0 < i < |r.order| ensures ParentEarlier(r, i) {
      if i < |t.order| {
        assert ParentEarlier(t, i);
        assert r.order[..i] == t.order[..i];
        assert r.order[i] == t.order[i];
        assert r.nodes[r.order[i]].parentId == t.nodes[t.order[i]].parentId;
      } else {
        assert r.order[..i] == t.order;
      }
    }
  }

  lemma AddKeepsLinksDown(t: Tree, r: Tree, id: NodeId, p: NodeId)
    requires LinksDown(t) && Added(t, r, id, p)
    ensures LinksDown(r)
  {
    forall p', c | p' in r.nodes && c in r.nodes[p'].childrenIds
      ensures c in r.nodes && r.nodes[c].parentId == Some(p')
    {
      if p' == p {
        if c != id {
          assert c in t.nodes[p].childrenIds;
        }
      } else {
        assert p' != id;
        assert c in t.nodes[p'].childrenIds;
      }
    }
  }

  lemma AddKeepsLinksUp(t: Tree, r: Tree, id: NodeId, p: NodeId)
    requires LinksUp(t) && Added(t, r, id, p)
    ensures LinksUp(r)
  {
    forall c | c in r.nodes && c != r.rootId
      ensures r.nodes[c].parentId.Some? && r.nodes[c].parentId.value in r.nodes &&
              c in r.nodes[r.nodes[c].parentId.value].childrenIds
    {
      if c != id {
        var q := t.nodes[c].parentId.value;
        assert c in t.nodes[q].childrenIds;
        if q == p {
          assert r.nodes[p].childrenIds == t.nodes[p].childrenIds + [id];
        }
      }
    }
  }

  lemma AddKeepsChildrenDistinct(t: Tree, r: Tree, id: NodeId, p: NodeId)
    requires LinksDown(t) && ChildrenDistinct(t) && Added(t, r, id, p)
    ensures ChildrenDistinct(r)
  {
    forall x | x in r.nodes ensures Distinct(r.nodes[x].childrenIds) {
      if x == p {
        assert id !in t.nodes[p].childrenIds;
        assert Distinct(t.nodes[p].childrenIds);
      }
    }
  }

  /** `get_node` */
  function GetNode(t: Tree, id: NodeId): Option<Node> {
    if id in t.nodes then Some(t.nodes[id]) else None
  }

  /** The nodes behind a list of child ids, skipping ids the tree lacks. */
  function NodesOf(t: Tree, ids: seq<NodeId>): (r: seq<Node>)
    ensures (forall x :: x in ids ==> x in t.nodes) ==>
              |r| == |ids| && forall k :: 0 <= k < |ids| ==> r[k] == t.nodes[ids[k]]
    ensures forall k :: 0 <= k < |r| ==> r[k] in t.nodes.Values
  {
    if ids == [] then []
    else if ids[0] in t.nodes then [t.nodes[ids[0]]] + NodesOf(t, ids[1..])
    else NodesOf(t, ids[1..])
  }

  /** `get_children`: the nodes behind the child list; empty for an
      unknown id. */
  function GetChildren(t: Tree, id: NodeId): (r: seq<Node>)
    ensures id !in t.nodes ==> r == []
    ensures id in t.nodes && (forall c :: c in t.nodes[id].childrenIds ==> c in t.nodes) ==>
      |r| == |t.nodes[id].childrenIds| &&
      forall k :: 0 <= k < |r| ==> r[k] == t.nodes[t.nodes[id].childrenIds[k]]
  {
    if id !in t.nodes then [] else NodesOf(t, t.nodes[id].childrenIds)
  }

  /** On a valid tree the children of a node are, in order of addition,
      exactly the nodes whose parent it is. */
  lemma ChildrenLinked(t: Tree, id: NodeId)
    requires Valid(t) && id in t.nodes
    ensures |GetChildren(t, id)| == |t.nodes[id].childrenIds|
    ensures forall k :: 0 <= k < |GetChildren(t, id)| ==>
      GetChildren(t, id)[k].id == t.nodes[id].childrenIds[k] &&
      GetChildren(t, id)[k].parentId == Some(id)
    ensures forall n :: n in t.nodes.Values && n.parentId == Some(id) ==> n in GetChildren(t, id)
  {
    var cs := t.nodes[id].childrenIds;
    assert forall c :: c in cs ==> c in t.nodes && t.nodes[c].parentId == Some(id) && t.nodes[c].id == c by {
      assert LinksDown(t) && Indexed(t);
    }
    ChildrenInOrder(t, id);
    forall n | n in t.nodes.Values && n.parentId == Some(id) ensures n in GetChildren(t, id) {
      var x :| x in t.nodes && t.nodes[x] == n;
      ListedUnderParent(t, x);
      ChildListed(t, id, x);
    }
  }

  lemma ChildrenInOrder(t: Tree, id: NodeId)
    requires id in t.nodes
    requires forall c :: c in t.nodes[id].childrenIds ==>
      c in t.nodes && t.nodes[c].parentId == Some(id) && t.nodes[c].id == c
    ensures |GetChildren(t, id)| == |t.nodes[id].childrenIds|
    ensures forall k :: 0 <= k < |GetChildren(t, id)| ==>
      GetChildren(t, id)[k].id == t.nodes[id].childrenIds[k] &&
      GetChildren(t, id)[k].parentId == Some(id)
  {
  }

  lemma ChildListed(t: Tree, id: NodeId, x: NodeId)
    requires id in t.nodes && x in t.nodes[id].childrenIds
    requires forall c :: c in t.nodes[id].childrenIds ==> c in t.nodes
    ensures t.nodes[x] in GetChildren(t, id)
  {
    var cs := t.nodes[id].childrenIds;
    var k :| 0 <= k < |cs| && cs[k] == x;
    assert GetChildren(t, id)[k] == t.nodes[x];
  }

  /** A node with a parent is listed among that parent's children. */
  lemma ListedUnderParent(t: Tree, x: NodeId)
    requires Valid(t) && x in t.nodes && t.nodes[x].parentId.Some?
    ensures t.nodes[x].parentId.value in t.nodes
    ensures x in t.nodes[t.nodes[x].parentId.value].childrenIds
  {
    assert Indexed(t);
    assert x != t.rootId;
    assert LinksUp(t);
  }

  /** 1 + the insertion position of a node; 0 when absent. */
  function Rank(t: Tree, id: NodeId): nat {
    if id in t.order then IndexOf(t.order, id) + 1 else 0
  }

  lemma ParentRankSmaller(t: Tree, id: NodeId)
    requires Valid(t) && id in t.nodes && t.nodes[id].parentId.Some?
    ensures t.nodes[id].parentId.value in t.nodes
    ensures Rank(t, t.nodes[id].parentId.value) < Rank(t, id)
  {
    var i := IndexOf(t.order, id);
    IndexOfDistinct(t.order, i);
    assert ParentEarlier(t, i);
    var p := t.nodes[id].parentId.value;
    var j :| 0 <= j < i && t.order[..i][j] == p;
    IndexOfDistinct(t.order, j);
  }

  lemma OnlyRootParentless(t: Tree, id: NodeId)
    requires Valid(t) && id in t.nodes && t.nodes[id].parentId.None?
    ensures id == t.rootId
  {
    var i := IndexOf(t.order, id);
    assert ParentsEarlier(t);
  }

  /** `get_path_to_root`: the chain of ancestors from the root down to the
      queried node, each element the parent of the next; empty for an
      unknown id. On a valid tree the walk always ends at the root. */
  function PathToRoot(t: Tree, id: NodeId): (path: seq<Node>)
    requires Valid(t)
    ensures id !in t.nodes ==> path == []
    ensures id in t.nodes ==>
      && |path| >= 1
      && path[0] == t.nodes[t.rootId]
      && path[|path| - 1] == t.nodes[id]
      && (forall k :: 0 <= k < |path| ==> path[k] in t.nodes.Values)
      && (forall k :: 0 <= k < |path| - 1 ==> path[k + 1].parentId == Some(path[k].id))
    decreases Rank(t, id)
  {
    if id == "" || id !in t.nodes then []
    else match t.nodes[id].parentId
      case None =>
        OnlyRootParentless(t, id);
        [t.nodes[id]]
      case Some(p) =>
        ParentRankSmaller(t, id);
        PathToRoot(t, p) + [t.nodes[id]]
  }

  /** The node ids of kind `k` among `ids`, in the same order. */
  function IdsOfKind(nodes: map<NodeId, Node>, ids: seq<NodeId>, k: NodeType): (r: seq<NodeId>)
    ensures forall i :: 0 <= i < |r| ==> r[i] in ids && r[i] in nodes && nodes[r[i]].kind == k
  {
    if ids == [] then []
    else
      var init := ids[..|ids| - 1];
      var last := ids[|ids| - 1];
      IdsOfKind(nodes, init, k) + if last in nodes && nodes[last].kind == k then [last] else []
  }

  /** Every id of kind `k` among `ids` is kept, and in a list without
      repeats the kept ids keep their relative order. */
  lemma {:induction false} IdsOfKindSpec(nodes: map<NodeId, Node>, ids: seq<NodeId>, k: NodeType)
    ensures var r := IdsOfKind(nodes, ids, k);
      && (forall x :: x in ids && x in nodes && nodes[x].kind == k ==> x in r)
      && (Distinct(ids) ==> forall i, j :: 0 <= i < j < |r| ==> IndexOf(ids, r[i]) < IndexOf(ids, r[j]))
    decreases |ids|
  {
    if ids != [] {
      var init := ids[..|ids| - 1];
      var last := ids[|ids| - 1];
      var r0 := IdsOfKind(nodes, init, k);
      var r := IdsOfKind(nodes, ids, k);
      assert r == r0 + if last in nodes && nodes[last].kind == k then [last] else [];
      IdsOfKindSpec(nodes, init, k);
      assert forall x :: x in ids ==> x in init || x == last;
      if Distinct(ids) {
        IdsOfKindOrder(ids, r0, r);
      }
    }
  }

  lemma IdsOfKindOrder(ids: seq<NodeId>, r0: seq<NodeId>, r: seq<NodeId>)
    requires |ids| > 0 && Distinct(ids)
    requires forall i :: 0 <= i < |r0| ==> r0[i] in ids[..|ids| - 1]
    requires forall i, j :: 0 <= i < j < |r0| ==>
               IndexOf(ids[..|ids| - 1], r0[i]) < IndexOf(ids[..|ids| - 1], r0[j])
    requires r == r0 || r == r0 + [ids[|ids| - 1]]
    ensures forall i, j :: 0 <= i < j < |r| ==> IndexOf(ids, r[i]) < IndexOf(ids, r[j])
  {
    var init := ids[..|ids| - 1];
    assert Distinct(init);
    forall x | x in init ensures IndexOf(ids, x) == IndexOf(init, x) < |init| {
      var i := IndexOf(init, x);
      IndexOfDistinct(init, i);
      IndexOfDistinct(ids, i);
    }
    IndexOfDistinct(ids, |ids| - 1);
    forall i, j | 0 <= i < j < |r| ensures IndexOf(ids, r[i]) < IndexOf(ids, r[j]) {
      assert r[i] == r0[i];
      if j < |r0| {
        assert r[j] == r0[j];
      }
    }
  }

  /** The nodes of type `k`, in insertion order. */
  function OfKind(t: Tree, k: NodeType): (r: seq<Node>)
    ensures |r| == |IdsOfKind(t.nodes, t.order, k)|
    ensures forall i :: 0 <= i < |r| ==> r[i].kind == k && r[i] in t.nodes.Values
  {
    var ids := IdsOfKind(t.nodes, t.order, k);
    seq(|ids|, i requires 0 <= i < |ids| => t.nodes[ids[i]])
  }

  /** `get_insights` */
  function GetInsights(t: Tree): seq<Node> {
    OfKind(t, Insight)
  }

  /** `get_results` */
  function GetResults(t: Tree): seq<Node> {
    OfKind(t, Result)
  }

  /** `extract_insights`: the contents of the INSIGHT nodes, in insertion order. */
  function ExtractInsights(t: Tree): (r: seq<string>)
    ensures |r| == |GetInsights(t)|
    ensures forall i :: 0 <= i < |r| ==> r[i] == GetInsights(t)[i].content
  {
    var ns := GetInsights(t);
    seq(|ns|, i requires 0 <= i < |ns| => ns[i].content)
  }

  /** The contents of `ns`, in order. */
  function ContentsOf(ns: seq<Node>): (r: seq<string>)
    ensures |r| == |ns|
  {
    seq(|ns|, i requires 0 <= i < |ns| => ns[i].content)
  }

  /** `get_insights` and `get_results` return exactly the nodes of their type,
      in the order they were inserted. */
  lemma OfKindExact(t: Tree, k: NodeType)
    requires Valid(t)
    ensures forall n :: n in OfKind(t, k) <==> n in t.nodes.Values && n.kind == k
    ensures forall i, j :: 0 <= i < j < |OfKind(t, k)| ==>
              Rank(t, OfKind(t, k)[i].id) < Rank(t, OfKind(t, k)[j].id)
  {
    var ids := IdsOfKind(t.nodes, t.order, k);
    var r := OfKind(t, k);
    IdsOfKindSpec(t.nodes, t.order, k);
    forall n | n in t.nodes.Values && n.kind == k ensures n in r {
      var x :| x in t.nodes && t.nodes[x] == n;
      assert x in ids;
      var i :| 0 <= i < |ids| && ids[i] == x;
      assert r[i] == n;
    }
  }

  /** Adding a node of type `k'` appends exactly that id to the ids of type
      `k'` and leaves the ids of every other type alone. */
  lemma AddNodeAppendsKind(t: Tree, id: NodeId, content: string, kind: NodeType,
                           parent: Option<NodeId>, meta: Metadata, now: Stamp, k: NodeType)
    requires Keyed(t) && Fresh(t, id)
    requires AddNode(t, id, content, kind, parent, meta, now).Ok?
    ensures var r := AddNode(t, id, content, kind, parent, meta, now).value;
      IdsOfKind(r.nodes, r.order, k) ==
        IdsOfKind(t.nodes, t.order, k) + (if kind == k then [id] else [])
  {
    var r := AddNode(t, id, content, kind, parent, meta, now).value;
    assert r.order[..|r.order| - 1] == t.order;
    IdsOfKindFrame(t.nodes, r.nodes, t.order, k);
  }

  lemma {:induction false} IdsOfKindFrame(a: map<NodeId, Node>, b: map<NodeId, Node>, ids: seq<NodeId>, k: NodeType)
    requires forall x :: x in ids ==> x in a && x in b && a[x].kind == b[x].kind
    ensures IdsOfKind(a, ids, k) == IdsOfKind(b, ids, k)
  {
    if ids != [] {
      IdsOfKindFrame(a, b, ids[..|ids| - 1], k);
    }
  }

  /** After adding a node, the insight contents are the old ones, plus the
      new content at the end when the new node is an INSIGHT. */
  lemma AddNodeExtendsInsights(t: Tree, id: NodeId, content: string, kind: NodeType,
                               parent: Option<NodeId>, meta: Metadata, now: Stamp)
    requires Keyed(t) && Fresh(t, id)
    requires AddNode(t, id, content, kind, parent, meta, now).Ok?
    ensures ExtractInsights(AddNode(t, id, content, kind, parent, meta, now).value) ==
              ExtractInsights(t) + (if kind == Insight then [content] else [])
  {
    var r := AddNode(t, id, content, kind, parent, meta, now).value;
    AddNodeAppendsKind(t, id, content, kind, parent, meta, now, Insight);
    var before := IdsOfKind(t.nodes, t.order, Insight);
    var after := IdsOfKind(r.nodes, r.order, Insight);
    var a := ExtractInsights(t);
    var b := ExtractInsights(r);
    var tail: seq<string> := if kind == Insight then [content] else [];
    assert |b| == |a| + |tail|;
    forall i | 0 <= i < |b| ensures b[i] == (a + tail)[i] {
      assert b[i] == r.nodes[after[i]].content;
      if i < |a| {
        assert a[i] == t.nodes[before[i]].content;
        assert after[i] == before[i];
        assert before[i] in t.nodes;
      }
    }
    assert b == a + tail;
  }

  // ---------------------------------------------------------------------
  // Trees grown from an id supply

  /** An id supply standing in for the truncated UUIDs: never empty and
      never repeating. The `i`-th node inserted into a tree gets `mint(i)`. */
  ghost predicate GoodMint(mint: nat -> NodeId) {
    && (forall i :: mint(i) != "")
    && (forall i, j :: mint(i) == mint(j) ==> i == j)
  }

  /** The tree's ids are the first ids of the supply, in insertion order. */
  ghost predicate Supplied(t: Tree, mint: nat -> NodeId) {
    && GoodMint(mint)
    && Keyed(t)
    && (forall i :: 0 <= i < |t.order| ==> t.order[i] == mint(i))
  }

  /** Ids drawn from the supply after a tree's last one are new to it. */
  lemma SuppliedLater(t: Tree, r: Tree, mint: nat -> NodeId, k: nat)
    requires Supplied(t, mint) && Supplied(r, mint) && |t.order| <= k < |r.order|
    ensures r.order[k] !in t.nodes
  {
    forall j | 0 <= j < |t.order| ensures t.order[j] != r.order[k] {
      assert t.order[j] == mint(j) && r.order[k] == mint(k);
    }
  }

  /** The id the next inserted node gets. */
  function NextId(t: Tree, mint: nat -> NodeId): NodeId {
    mint(|t.order|)
  }

  lemma NextIdFresh(t: Tree, mint: nat -> NodeId)
    requires Supplied(t, mint)
    ensures Fresh(t, NextId(t, mint))
  {
  }

  /** A fresh tree whose root takes the first id of the supply. */
  function Start(rootContent: string, mint: nat -> NodeId, now: Stamp): (t: Tree)
    requires GoodMint(mint)
    ensures Valid(t) && Supplied(t, mint)
    ensures t == Create(rootContent, mint(0), now)
  {
    Create(rootContent, mint(0), now)
  }

  /** A fresh tree holds only its ROOT id, and the supply's next id is the
      second one. */
  lemma StartKinds(rootContent: string, mint: nat -> NodeId, now: Stamp, k: NodeType)
    requires GoodMint(mint)
    ensures var t := Start(rootContent, mint, now);
      && IdsOfKind(t.nodes, t.order, k) == (if k == Root then [mint(0)] else [])
      && NextId(t, mint) == mint(1)
  {
    var t := Start(rootContent, mint, now);
    assert t.order == [mint(0)] && t.order[..0] == [];
    assert IdsOfKind(t.nodes, [], k) == [];
  }

  /** `add_node` under a parent known to exist, with the next id of the
      supply; it cannot fail. */
  function Grow(t: Tree, mint: nat -> NodeId, content: string, kind: NodeType,
                parent: Option<NodeId>, meta: Metadata, now: Stamp): (r: Tree)
    requires Supplied(t, mint) && parent.GetOr(t.rootId) in t.nodes
    ensures Supplied(r, mint)
    ensures Fresh(t, NextId(t, mint))
    ensures AddNode(t, NextId(t, mint), content, kind, parent, meta, now) == Ok(r)
  {
    NextIdFresh(t, mint);
    AddNode(t, NextId(t, mint), content, kind, parent, meta, now).value
  }

  lemma GrowKeepsValid(t: Tree, mint: nat -> NodeId, content: string, kind: NodeType,
                       parent: Option<NodeId>, meta: Metadata, now: Stamp)
    requires Valid(t) && Supplied(t, mint) && parent.GetOr(t.rootId) in t.nodes
    ensures Valid(Grow(t, mint, content, kind, parent, meta, now))
  {
    AddNodeKeepsValid(t, NextId(t, mint), content, kind, parent, meta, now);
  }

  /** `Grow` appends the new id to the ids of its type and its content to
      the insights when it is an INSIGHT. */
  lemma GrowKinds(t: Tree, mint: nat -> NodeId, content: string, kind: NodeType,
                  parent: Option<NodeId>, meta: Metadata, now: Stamp, k: NodeType)
    requires Supplied(t, mint) && parent.GetOr(t.rootId) in t.nodes
    ensures var r := Grow(t, mint, content, kind, parent, meta, now);
      IdsOfKind(r.nodes, r.order, k) ==
        IdsOfKind(t.nodes, t.order, k) + (if kind == k then [NextId(t, mint)] else [])
  {
    NextIdFresh(t, mint);
    AddNodeAppendsKind(t, NextId(t, mint), content, kind, parent, meta, now, k);
  }

  lemma GrowInsights(t: Tree, mint: nat -> NodeId, content: string, kind: NodeType,
                     parent: Option<NodeId>, meta: Metadata, now: Stamp)
    requires Supplied(t, mint) && parent.GetOr(t.rootId) in t.nodes
    ensures ExtractInsights(Grow(t, mint, content, kind, parent, meta, now)) ==
              ExtractInsights(t) + (if kind == Insight then [content] else [])
  {
    NextIdFresh(t, mint);
    AddNodeExtendsInsights(t, NextId(t, mint), content, kind, parent, meta, now);
  }

  /** Adds one node of type `kind` under `parent` per element of
      `contents`, in order, as a loop of `add_node` calls does. */
  function GrowAll(t: Tree, mint: nat -> NodeId, contents: seq<string>, kind: NodeType,
                   parent: NodeId, meta: Metadata, now: Stamp): (r: Tree)
    requires Supplied(t, mint) && parent in t.nodes
    ensures Supplied(r, mint)
    ensures r.rootId == t.rootId && t.nodes.Keys <= r.nodes.Keys
    ensures |r.order| == |t.order| + |contents|
    decreases |contents|
  {
    if contents == [] then t
    else
      var t1 := GrowAll(t, mint, contents[..|contents| - 1], kind, parent, meta, now);
      Grow(t1, mint, contents[|contents| - 1], kind, Some(parent), meta, now)
  }

  /** The last content is added by a single `Grow` on the tree built from
      the others. */
  lemma GrowAllStep(t: Tree, mint: nat -> NodeId, contents: seq<string>, kind: NodeType,
                    parent: NodeId, meta: Metadata, now: Stamp)
    requires Supplied(t, mint) && parent in t.nodes && contents != []
    ensures var t1 := GrowAll(t, mint, contents[..|contents| - 1], kind, parent, meta, now);
      && Supplied(t1, mint) && parent in t1.nodes
      && GrowAll(t, mint, contents, kind, parent, meta, now) ==
         AddNode(t1, NextId(t1, mint), contents[|contents| - 1], kind, Some(parent), meta, now).value
      && AddNode(t1, NextId(t1, mint), contents[|contents| - 1], kind, Some(parent), meta, now).Ok?
  {
  }

  lemma {:induction false} GrowAllKeepsValid(t: Tree, mint: nat -> NodeId, contents: seq<string>,
                                             kind: NodeType, parent: NodeId, meta: Metadata, now: Stamp)
    requires Valid(t) && Supplied(t, mint) && parent in t.nodes
    ensures Valid(GrowAll(t, mint, contents, kind, parent, meta, now))
    decreases |contents|
  {
    if contents != [] {
      var init := contents[..|contents| - 1];
      GrowAllKeepsValid(t, mint, init, kind, parent, meta, now);
      GrowKeepsValid(GrowAll(t, mint, init, kind, parent, meta, now), mint,
                     contents[|contents| - 1], kind, Some(parent), meta, now);
    }
  }

  /** `GrowAll` keeps the ids already inserted, in their order, and the
      ids it adds are new to the tree. */
  lemma GrowAllPrefix(t: Tree, mint: nat -> NodeId, contents: seq<string>, kind: NodeType,
                      parent: NodeId, meta: Metadata, now: Stamp)
    requires Supplied(t, mint) && parent in t.nodes
    ensures var r := GrowAll(t, mint, contents, kind, parent, meta, now);
      && r.order[..|t.order|] == t.order
      && (forall k :: |t.order| <= k < |r.order| ==> r.order[k] !in t.nodes)
  {
    var r := GrowAll(t, mint, contents, kind, parent, meta, now);
    assert r.order[..|t.order|] == t.order by {
      forall i | 0 <= i < |t.order| ensures r.order[i] == t.order[i] {
        assert r.order[i] == mint(i) && t.order[i] == mint(i);
      }
    }
    forall k | |t.order| <= k < |r.order| ensures r.order[k] !in t.nodes {
      forall j | 0 <= j < |t.order| ensures t.order[j] != r.order[k] {
        assert t.order[j] == mint(j) && r.order[k] == mint(k);
      }
    }
  }

  /** `GrowAll` leaves every node other than `parent` as it was. */
  lemma {:induction false} GrowAllKeepsOthers(t: Tree, mint: nat -> NodeId, contents: seq<string>, kind: NodeType,
                                              parent: NodeId, meta: Metadata, now: Stamp)
    requires Supplied(t, mint) && parent in t.nodes
    ensures var r := GrowAll(t, mint, contents, kind, parent, meta, now);
      forall x :: x in t.nodes && x != parent ==> r.nodes[x] == t.nodes[x]
    decreases |contents|
  {
    if contents != [] {
      var init := contents[..|contents| - 1];
      GrowAllKeepsOthers(t, mint, init, kind, parent, meta, now);
      var t1 := GrowAll(t, mint, init, kind, parent, meta, now);
      GrowAllStep(t, mint, contents, kind, parent, meta, now);
      NextIdFresh(t1, mint);
    }
  }

  /** `parent`'s child list gains the new ids, in order, and nothing else
      about it changes. */
  lemma {:induction false} GrowAllParent(t: Tree, mint: nat -> NodeId, contents: seq<string>, kind: NodeType,
                                         parent: NodeId, meta: Metadata, now: Stamp)
    requires Supplied(t, mint) && parent in t.nodes
    ensures var r := GrowAll(t, mint, contents, kind, parent, meta, now);
      r.nodes[parent] ==
        t.nodes[parent].(childrenIds := t.nodes[parent].childrenIds + r.order[|t.order|..])
    decreases |contents|
  {
    if contents != [] {
      var init := contents[..|contents| - 1];
      GrowAllParent(t, mint, init, kind, parent, meta, now);
      var t1 := GrowAll(t, mint, init, kind, parent, meta, now);
      var id := NextId(t1, mint);
      var r := GrowAll(t, mint, contents, kind, parent, meta, now);
      GrowAllStep(t, mint, contents, kind, parent, meta, now);
      NextIdFresh(t1, mint);
      assert r.order == t1.order + [id];
      SliceAppend(t1.order, id, |t.order|);
      AppendAssoc(t.nodes[parent].childrenIds, t1.order[|t.order|..], [id]);
    }
  }

  /** Each added node holds its content, in order, with type `kind` and
      parent `parent`. */
  lemma {:induction false} GrowAllNew(t: Tree, mint: nat -> NodeId, contents: seq<string>, kind: NodeType,
                                      parent: NodeId, meta: Metadata, now: Stamp)
    requires Supplied(t, mint) && parent in t.nodes
    ensures var r := GrowAll(t, mint, contents, kind, parent, meta, now);
      forall k :: |t.order| <= k < |r.order| ==>
        && r.order[k] in r.nodes
        && r.nodes[r.order[k]].kind == kind
        && r.nodes[r.order[k]].content == contents[k - |t.order|]
        && r.nodes[r.order[k]].parentId == Some(parent)
    decreases |contents|
  {
    if contents != [] {
      var init := contents[..|contents| - 1];
      GrowAllNew(t, mint, init, kind, parent, meta, now);
      var t1 := GrowAll(t, mint, init, kind, parent, meta, now);
      var id := NextId(t1, mint);
      var r := GrowAll(t, mint, contents, kind, parent, meta, now);
      GrowAllStep(t, mint, contents, kind, parent, meta, now);
      NextIdFresh(t1, mint);
      GrowAllPrefix(t, mint, init, kind, parent, meta, now);
      assert r.order == t1.order + [id];
      forall k | |t.order| <= k < |r.order|
        ensures && r.order[k] in r.nodes
                && r.nodes[r.order[k]].kind == kind
                && r.nodes[r.order[k]].content == contents[k - |t.order|]
                && r.nodes[r.order[k]].parentId == Some(parent)
      {
        if k < |t1.order| {
          var x := t1.order[k];
          assert r.order[k] == x;
          assert x != parent;
          assert r.nodes[x] == t1.nodes[x];
          assert contents[k - |t.order|] == init[k - |t.order|];
        } else {
          assert r.order[k] == id;
          assert r.nodes[id] == Node(id, kind, contents[|contents| - 1], meta[CreatedAt := Time(now)], Some(parent), []);
        }
      }
    }
  }

  /** `GrowAll` appends the new ids to the ids of type `kind` and leaves the
      ids of every other type alone. */
  lemma {:induction false} GrowAllKinds(t: Tree, mint: nat -> NodeId, contents: seq<string>, kind: NodeType,
                                        parent: NodeId, meta: Metadata, now: Stamp, k': NodeType)
    requires Supplied(t, mint) && parent in t.nodes
    ensures var r := GrowAll(t, mint, contents, kind, parent, meta, now);
      IdsOfKind(r.nodes, r.order, k') ==
        IdsOfKind(t.nodes, t.order, k') + (if kind == k' then r.order[|t.order|..] else [])
    decreases |contents|
  {
    if contents != [] {
      var init := contents[..|contents| - 1];
      GrowAllKinds(t, mint, init, kind, parent, meta, now, k');
      var t1 := GrowAll(t, mint, init, kind, parent, meta, now);
      var id := NextId(t1, mint);
      var r := GrowAll(t, mint, contents, kind, parent, meta, now);
      GrowAllStep(t, mint, contents, kind, parent, meta, now);
      NextIdFresh(t1, mint);
      AddNodeAppendsKind(t1, id, contents[|contents| - 1], kind, Some(parent), meta, now, k');
      assert r.order == t1.order + [id];
      SliceAppend(t1.order, id, |t.order|);
      var x := IdsOfKind(t.nodes, t.order, k');
      var y := IdsOfKind(t1.nodes, t1.order, k');
      if kind == k' {
        assert IdsOfKind(r.nodes, r.order, k') == y + [id];
        assert y == x + t1.order[|t.order|..];
        AppendAssoc(x, t1.order[|t.order|..], [id]);
      }
    }
  }

  /** The INSIGHT contents after `GrowAll`: the old ones, then the new
      contents when the added nodes are insights. */
  lemma {:induction false} GrowAllInsights(t: Tree, mint: nat -> NodeId, contents: seq<string>, kind: NodeType,
                                           parent: NodeId, meta: Metadata, now: Stamp)
    requires Supplied(t, mint) && parent in t.nodes
    ensures ExtractInsights(GrowAll(t, mint, contents, kind, parent, meta, now)) ==
              ExtractInsights(t) + (if kind == Insight then contents else [])
    decreases |contents|
  {
    if contents != [] {
      var init := contents[..|contents| - 1];
      var last := contents[|contents| - 1];
      assert contents == init + [last];
      GrowAllInsights(t, mint, init, kind, parent, meta, now);
      var t1 := GrowAll(t, mint, init, kind, parent, meta, now);
      GrowAllStep(t, mint, contents, kind, parent, meta, now);
      NextIdFresh(t1, mint);
      AddNodeExtendsInsights(t1, NextId(t1, mint), last, kind, Some(parent), meta, now);
      if kind == Insight {
        AppendAssoc(ExtractInsights(t), init, [last]);
      }
    }
  }


  // ---------------------------------------------------------------------
  // Dictionary form (`to_dict`)

  datatype NodeRecord = NodeRecord(
    id: NodeId,
    kindValue: string,
    content: string,
    parentId: Option<NodeId>,
    childrenIds: seq<NodeId>,
    metadata: Metadata)

  /** `{"root_id": ..., "nodes": {...}}`; `keys` is the key order of the
      nodes dictionary, which follows insertion order. */
  datatype TreeRecord = TreeRecord(rootId: NodeId, keys: seq<NodeId>, nodes: map<NodeId, NodeRecord>)

  function ToRecord(n: Node): NodeRecord {
    NodeRecord(n.id, n.kind.Value(), n.content, n.parentId, n.childrenIds, n.metadata)
  }

  /** `to_dict`: the root id and one record per node, keyed by the node's id. */
  function ToDict(t: Tree): (d: TreeRecord)
    ensures d.rootId == t.rootId && d.keys == t.order
    ensures d.nodes.Keys == t.nodes.Keys
    ensures Valid(t) ==> forall id :: id in d.nodes ==> d.nodes[id].id == id
    ensures forall id :: id in d.nodes ==>
      && KindOf(d.nodes[id].kindValue) == Some(t.nodes[id].kind)
      && d.nodes[id].content == t.nodes[id].content
      && d.nodes[id].parentId == t.nodes[id].parentId
      && d.nodes[id].childrenIds == t.nodes[id].childrenIds
      && d.nodes[id].metadata == t.nodes[id].metadata
  {
    TreeRecord(t.rootId, t.order, map id | id in t.nodes :: ToRecord(t.nodes[id]))
  }

  /** Reads the dictionary form back; `None` when a type value is unknown. */
  function FromDict(d: TreeRecord): Option<Tree> {
    if forall id :: id in d.nodes ==> KindOf(d.nodes[id].kindValue).Some? then
      Some(Tree(d.rootId,
                map id | id in d.nodes ::
                  var n := d.nodes[id];
                  Node(n.id, KindOf(n.kindValue).value, n.content, n.metadata, n.parentId, n.childrenIds),
                d.keys))
    else None
  }

  /** The dictionary form loses nothing: reading it back gives the tree. */
  lemma DictRoundTrip(t: Tree)
    requires forall id :: id in t.nodes ==> t.nodes[id].id == id
    ensures FromDict(ToDict(t)) == Some(t)
  {
    var d := ToDict(t);
    assert forall id :: id in d.nodes ==> KindOf(d.nodes[id].kindValue).Some?;
    var t' := FromDict(d).value;
    forall id | id in t.nodes ensures t'.nodes[id] == t.nodes[id] {
      var n := t.nodes[id];
      assert d.nodes[id] == ToRecord(n);
      assert KindOf(n.kind.Value()) == Some(n.kind);
    }
    assert t'.nodes == t.nodes;
  }
}
