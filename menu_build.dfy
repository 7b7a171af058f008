/**
 * Building whole subtrees of the menu: the nested loops that create a
 * MenuList, `add_child` it under its parent and then fill it with further
 * lists and operai (the library refreshes, the Shoutcast directory, the
 * fixed sub-menus of each component) all produce a subtree whose shape is
 * known in advance. `Tree` states that shape as a value, `Shape` says that
 * a node of the arena realises it, and `Realise` is the loop that builds it.
 */
module MenuBuild {

  import opened Wrappers
  import opened MenuTree

  /** A subtree to create: a detached leaf, or a new list with the subtrees of its children in order. */
  datatype Tree = Leaf(node: Node) | Branch(node: Node, kids: seq<Tree>)

  /** A node as its constructor leaves it: no parent, and for a list no children, cursor 0 and an ordinary role. */
  predicate Blank(n: Node) {
    && "name" in n.labels && "comment" in n.labels && n.parent.None?
    && (n.kind.List? ==> n.kind.children == [] && n.kind.index == 0 && n.kind.role == Ordinary)
  }

  predicate TreeOk(t: Tree)
    decreases t
  {
    match t
    case Leaf(n) => Blank(n) && !n.kind.List?
    case Branch(n, kids) => Blank(n) && n.kind.List? && forall k :: 0 <= k < |kids| ==> TreeOk(kids[k])
  }

  /**
   * Node `id`, a child of `p`, realises `t`: it is the tree's node with its
   * parent set and, for a list, with one child per subtree realising that
   * subtree. Every node of the realisation has an id of at least `lo`.
   */
  ghost predicate Shape(nodes: Nodes, id: NodeId, t: Tree, p: NodeId, lo: nat)
    decreases t
  {
    && id in nodes && id >= lo
    && match t
       case Leaf(n) => nodes[id] == n.(parent := Some(p))
       case Branch(n, kids) =>
         && nodes[id].kind.List?
         && nodes[id] == n.(parent := Some(p), kind := List(nodes[id].kind.children, 0, Ordinary))
         && |nodes[id].kind.children| == |kids|
         && forall k :: 0 <= k < |kids| ==> Shape(nodes, nodes[id].kind.children[k], kids[k], id, lo)
  }

  /** A realisation survives any change that leaves the nodes from `lo` upwards alone. */
  lemma {:induction false} ShapeStable(a: Nodes, b: Nodes, id: NodeId, t: Tree, p: NodeId, lo: nat)
    requires Shape(a, id, t, p, lo)
    requires forall k :: k in a && k >= lo ==> k in b && b[k] == a[k]
    ensures Shape(b, id, t, p, lo)
    decreases t
  {
    match t
    case Leaf(_) =>
    case Branch(n, kids) =>
      forall k | 0 <= k < |kids| ensures Shape(b, b[id].kind.children[k], kids[k], id, lo) {
        ShapeStable(a, b, a[id].kind.children[k], kids[k], id, lo);
      }
  }

  lemma {:induction false} ShapeWeaken(nodes: Nodes, id: NodeId, t: Tree, p: NodeId, lo: nat, lo2: nat)
    requires Shape(nodes, id, t, p, lo) && lo2 <= lo
    ensures Shape(nodes, id, t, p, lo2)
    decreases t
  {
    match t
    case Leaf(_) =>
    case Branch(n, kids) =>
      forall k | 0 <= k < |kids| ensures Shape(nodes, nodes[id].kind.children[k], kids[k], id, lo2) {
        ShapeWeaken(nodes, nodes[id].kind.children[k], kids[k], id, lo, lo2);
      }
  }

  lemma BlankOk(n: Node, nodes: Nodes)
    requires Blank(n)
    ensures NodeOk(n, nodes)
  {
  }

  /** Create the subtree `t` as the new last child of `p`. */
  method Realise(arena: Arena, p: NodeId, t: Tree) returns (id: NodeId)
    requires arena.Valid() && IsList(arena.nodes, p) && TreeOk(t)
    modifies arena
    ensures arena.Valid() && IsList(arena.nodes, p) && old(arena.next) <= arena.next
    ensures id !in old(arena.nodes) && Children(arena.nodes, p) == Children(old(arena.nodes), p) + [id]
    ensures Shape(arena.nodes, id, t, p, old(arena.next))
    ensures arena.nodes[p] == old(arena.nodes)[p].(kind := arena.nodes[p].kind)
    ensures arena.nodes[p].kind.index == old(arena.nodes)[p].kind.index
    ensures arena.nodes[p].kind.role == old(arena.nodes)[p].kind.role
    ensures old(arena.nodes).Keys <= arena.nodes.Keys
    ensures forall k :: k in old(arena.nodes) && k != p ==> arena.nodes[k] == old(arena.nodes)[k]
    decreases t, 1
  {
    BlankOk(t.node, arena.nodes);
    id := arena.Append(p, t.node);
    if t.Branch? {
      ghost var made := arena.nodes;
      var kids := Populate(arena, id, t.kids);
      forall k | 0 <= k < |t.kids|
        ensures Shape(arena.nodes, kids[k], t.kids[k], id, old(arena.next))
      {
        ShapeWeaken(arena.nodes, kids[k], t.kids[k], id, id + 1, old(arena.next));
      }
      assert Children(arena.nodes, id) == kids;
      assert arena.nodes[id] == made[id].(kind := arena.nodes[id].kind);
    }
  }

  /** A loop of `node.add_child(...)` calls, one new subtree per element of `trees`. */
  method Populate(arena: Arena, node: NodeId, trees: seq<Tree>) returns (ids: seq<NodeId>)
    requires arena.Valid() && IsList(arena.nodes, node)
    requires forall k :: 0 <= k < |trees| ==> TreeOk(trees[k])
    modifies arena
    ensures arena.Valid() && IsList(arena.nodes, node) && old(arena.next) <= arena.next
    ensures Children(arena.nodes, node) == Children(old(arena.nodes), node) + ids && |ids| == |trees|
    ensures forall k :: 0 <= k < |trees| ==> ids[k] !in old(arena.nodes) && Shape(arena.nodes, ids[k], trees[k], node, old(arena.next))
    ensures arena.nodes[node] == old(arena.nodes)[node].(kind := arena.nodes[node].kind)
    ensures arena.nodes[node].kind.index == old(arena.nodes)[node].kind.index
    ensures arena.nodes[node].kind.role == old(arena.nodes)[node].kind.role
    ensures old(arena.nodes).Keys <= arena.nodes.Keys
    ensures forall k :: k in old(arena.nodes) && k != node ==> arena.nodes[k] == old(arena.nodes)[k]
    decreases trees, 0
  {
    ids := [];
    var i := 0;
    while i < |trees|
      invariant 0 <= i <= |trees| && |ids| == i
      invariant arena.Valid() && IsList(arena.nodes, node) && old(arena.next) <= arena.next
      invariant Children(arena.nodes, node) == Children(old(arena.nodes), node) + ids
      invariant forall k :: 0 <= k < i ==> ids[k] !in old(arena.nodes) && Shape(arena.nodes, ids[k], trees[k], node, old(arena.next))
      invariant arena.nodes[node] == old(arena.nodes)[node].(kind := arena.nodes[node].kind)
      invariant arena.nodes[node].kind.index == old(arena.nodes)[node].kind.index
      invariant arena.nodes[node].kind.role == old(arena.nodes)[node].kind.role
      invariant old(arena.nodes).Keys <= arena.nodes.Keys
      invariant forall k :: k in old(arena.nodes) && k != node ==> arena.nodes[k] == old(arena.nodes)[k]
    {
      ghost var before := arena.nodes;
      ghost var beforeNext := arena.next;
      var c := Realise(arena, node, trees[i]);
      forall k | 0 <= k < i
        ensures Shape(arena.nodes, ids[k], trees[k], node, old(arena.next))
      {
        ShapeStable(before, arena.nodes, ids[k], trees[k], node, old(arena.next));
      }
      ShapeWeaken(arena.nodes, c, trees[i], node, beforeNext, old(arena.next));
      ids := ids + [c];
      i := i + 1;
    }
  }

  /** `reset_children()` followed by such a loop: the node ends up with exactly the new subtrees. */
  method Repopulate(arena: Arena, node: NodeId, trees: seq<Tree>) returns (ids: seq<NodeId>)
    requires arena.Valid() && IsList(arena.nodes, node)
    requires forall k :: 0 <= k < |trees| ==> TreeOk(trees[k])
    modifies arena
    ensures arena.Valid() && IsList(arena.nodes, node) && old(arena.next) <= arena.next
    ensures Children(arena.nodes, node) == ids && |ids| == |trees|
    ensures forall k :: 0 <= k < |trees| ==> ids[k] !in old(arena.nodes) && Shape(arena.nodes, ids[k], trees[k], node, old(arena.next))
    ensures arena.nodes[node] == old(arena.nodes)[node].(kind := arena.nodes[node].kind)
    ensures arena.nodes[node].kind.index == old(arena.nodes)[node].kind.index
    ensures arena.nodes[node].kind.role == old(arena.nodes)[node].kind.role
    ensures old(arena.nodes).Keys <= arena.nodes.Keys
    ensures forall k :: k in old(arena.nodes) && k != node ==> arena.nodes[k] == old(arena.nodes)[k]
  {
    arena.ResetChildren(node);
    ids := Populate(arena, node, trees);
  }
}
