/**
 * The super-favorites menu of components/superfavorites.py: one shadow list
 * per audio component, each a copy of that component's Favorites list, all
 * collected under one node next to the components.
 */
module SuperFavorites {

  import opened Wrappers
  import opened MenuTree

  const Tag := "superfavorites"

  /** `SuperFavoritesComponent.__init__`: a component that is always available. */
  function SuperFavoritesNode(): (n: Node)
    ensures n.kind.List? && n.kind.children == [] && n.kind.role == Component(true)
    ensures n.component == Tag && "name" in n.labels && n.labels["name"] == "Favorites"
  {
    ListNode("Favorites", "Fav", "Collected Favorites from all Components", Tag, Component(true))
  }

  function OriginOf(nodes: Nodes, sh: NodeId): (o: NodeId)
    requires WellFormed(nodes) && IsShadow(nodes, sh)
    ensures IsList(nodes, o)
  {
    nodes[sh].kind.role.origin
  }

  /**
   * `SuperFavoritesMenuList.__init__`, before it is attached: named after the
   * origin's parent and already holding a copy of the origin's children.
   */
  function ShadowNode(nodes: Nodes, origin: NodeId): (n: Node)
    requires WellFormed(nodes) && IsList(nodes, origin) && nodes[origin].parent.Some?
    ensures n.kind.List? && n.kind.role == Shadow(origin) && n.component == Tag
    ensures n.kind.children == Children(nodes, origin) && n.kind.index == 0 && n.parent.None?
    ensures "name" in n.labels && n.labels["name"] == Name(nodes, nodes[origin].parent.value) + " Favorites"
  {
    var l := ListNode(Name(nodes, nodes[origin].parent.value) + " Favorites", "", "", Tag, Shadow(origin));
    l.(kind := l.kind.(children := Children(nodes, origin)))
  }

  /** `update_favorites`: the shadow's children become a fresh copy of the origin's. */
  function Refresh(nodes: Nodes, sh: NodeId): (r: Nodes)
    requires WellFormed(nodes) && IsShadow(nodes, sh)
    ensures WellFormed(r) && r.Keys == nodes.Keys && IsShadow(r, sh)
    ensures Children(r, sh) == Children(nodes, OriginOf(nodes, sh))
    ensures r[sh] == nodes[sh].(kind := r[sh].kind) && r[sh].kind.role == nodes[sh].kind.role
    ensures r[sh].kind.index == nodes[sh].kind.index
    ensures forall id :: id in nodes && id != sh ==> r[id] == nodes[id]
  {
    var n := nodes[sh];
    var copied := n.(kind := n.kind.(children := Children(nodes, OriginOf(nodes, sh))));
    StoreKeepsWellFormed(nodes, sh, copied);
    nodes[sh := copied]
  }

  predicate AllShadows(nodes: Nodes, ids: seq<NodeId>) {
    forall i :: 0 <= i < |ids| ==> IsShadow(nodes, ids[i])
  }

  /** No shadow in `ids` mirrors another shadow; each mirrors an ordinary list. */
  ghost predicate PlainOrigins(nodes: Nodes, ids: seq<NodeId>)
    requires WellFormed(nodes) && AllShadows(nodes, ids)
  {
    forall i :: 0 <= i < |ids| ==> !IsShadow(nodes, OriginOf(nodes, ids[i]))
  }

  /** Whether a refresh pass over `ids` refreshes `id`: a shadow in `ids`, of origin `only` when given. */
  predicate Picked(nodes: Nodes, ids: seq<NodeId>, only: Option<NodeId>, id: NodeId) {
    id in ids && IsShadow(nodes, id) && (only.None? || nodes[id].kind.role.origin == only.value)
  }

  /** A shadow with its children replaced by a copy of its origin's. */
  function Copied(nodes: Nodes, sh: NodeId): Node
    requires WellFormed(nodes) && IsShadow(nodes, sh)
  {
    var n := nodes[sh];
    n.(kind := n.kind.(children := Children(nodes, OriginOf(nodes, sh))))
  }

  /** The tree after refreshing every picked shadow from the origins as they stand in `nodes`. */
  function Mirrored(nodes: Nodes, ids: seq<NodeId>, only: Option<NodeId>): (r: Nodes)
    requires WellFormed(nodes)
    ensures r.Keys == nodes.Keys
  {
    map id | id in nodes :: if Picked(nodes, ids, only, id) then Copied(nodes, id) else nodes[id]
  }

  lemma MirroredWellFormed(nodes: Nodes, ids: seq<NodeId>, only: Option<NodeId>)
    requires WellFormed(nodes)
    ensures WellFormed(Mirrored(nodes, ids, only))
    ensures forall id :: IsShadow(nodes, id) ==> IsShadow(Mirrored(nodes, ids, only), id)
  {
    var r := Mirrored(nodes, ids, only);
    forall id | id in r ensures NodeOk(r[id], r) {
      NodeOkGrows(r[id], nodes, r);
    }
  }

  /**
   * After a refresh pass, every picked shadow holds exactly its origin's
   * children, and that stays true of the resulting tree: the origins
   * themselves, being ordinary lists, are not touched by the pass. Every
   * other node is as it was.
   */
  lemma MirroredShadowsMatchOrigins(nodes: Nodes, ids: seq<NodeId>, only: Option<NodeId>)
    requires WellFormed(nodes) && AllShadows(nodes, ids) && PlainOrigins(nodes, ids)
    ensures WellFormed(Mirrored(nodes, ids, only))
    ensures var r := Mirrored(nodes, ids, only);
            forall id :: Picked(nodes, ids, only, id) ==>
              IsShadow(r, id) && OriginOf(r, id) == OriginOf(nodes, id) &&
              Children(r, id) == Children(nodes, OriginOf(nodes, id)) &&
              Children(r, id) == Children(r, OriginOf(r, id))
    ensures var r := Mirrored(nodes, ids, only);
            forall id :: id in nodes && !Picked(nodes, ids, only, id) ==> r[id] == nodes[id]
  {
    MirroredWellFormed(nodes, ids, only);
    var r := Mirrored(nodes, ids, only);
    forall id | Picked(nodes, ids, only, id)
      ensures IsShadow(r, id) && OriginOf(r, id) == OriginOf(nodes, id)
      ensures Children(r, id) == Children(nodes, OriginOf(nodes, id))
      ensures Children(r, id) == Children(r, OriginOf(r, id))
    {
      var k :| 0 <= k < |ids| && ids[k] == id;
      var o := OriginOf(nodes, id);
      assert !IsShadow(nodes, o);
      assert !Picked(nodes, ids, only, o);
    }
  }

  /**
   * `update_one_favorite_menu(n)` changes nothing when no shadow mirrors `n`;
   * a component passed in place of its Favorites list is never an origin.
   */
  lemma RefreshOneUnmatched(nodes: Nodes, ids: seq<NodeId>, n: NodeId)
    requires WellFormed(nodes) && AllShadows(nodes, ids)
    requires forall i :: 0 <= i < |ids| ==> OriginOf(nodes, ids[i]) != n
    ensures Mirrored(nodes, ids, Some(n)) == nodes
  {
    var r := Mirrored(nodes, ids, Some(n));
    forall id | id in nodes ensures r[id] == nodes[id] {
      if id in ids {
        var k :| 0 <= k < |ids| && ids[k] == id;
      }
    }
  }

  /** One iteration of the refresh loop. */
  function RefreshStep(nodes: Nodes, sh: NodeId, only: Option<NodeId>): Nodes
    requires WellFormed(nodes) && IsShadow(nodes, sh)
  {
    if only.None? || OriginOf(nodes, sh) == only.value then Refresh(nodes, sh) else nodes
  }

  /** Extending the pass by one shadow picks that shadow as well. */
  lemma PickedExtend(nodes: Nodes, ids: seq<NodeId>, i: nat, only: Option<NodeId>, id: NodeId)
    requires i < |ids|
    ensures Picked(nodes, ids[..i + 1], only, id) <==>
            Picked(nodes, ids[..i], only, id) || (id == ids[i] && Picked(nodes, [id], only, id))
  {
    assert ids[..i + 1] == ids[..i] + [ids[i]];
  }

  /** Refreshing the shadows one at a time builds up `Mirrored`, one prefix at a time. */
  lemma MirroredStep(nodes: Nodes, ids: seq<NodeId>, i: nat, only: Option<NodeId>)
    requires WellFormed(nodes) && AllShadows(nodes, ids) && PlainOrigins(nodes, ids) && i < |ids|
    ensures WellFormed(Mirrored(nodes, ids[..i], only))
    ensures IsShadow(Mirrored(nodes, ids[..i], only), ids[i])
    ensures RefreshStep(Mirrored(nodes, ids[..i], only), ids[i], only) == Mirrored(nodes, ids[..i + 1], only)
  {
    var sh := ids[i];
    var m := Mirrored(nodes, ids[..i], only);
    MirroredWellFormed(nodes, ids[..i], only);
    var o := OriginOf(nodes, sh);
    assert !IsShadow(nodes, o);
    assert m[o] == nodes[o];
    assert m[sh].kind.role == nodes[sh].kind.role;
    var after := RefreshStep(m, sh, only);
    var want := Mirrored(nodes, ids[..i + 1], only);
    forall id | id in nodes ensures after[id] == want[id] {
      PickedExtend(nodes, ids, i, only, id);
    }
  }

  /** `add_child_menu`: attach a new shadow of `origin` as the last child of the super-favorites node. */
  method AddChildMenu(arena: Arena, sfavs: NodeId, origin: NodeId) returns (sh: NodeId)
    requires arena.Valid() && IsList(arena.nodes, sfavs) && IsList(arena.nodes, origin)
    requires arena.nodes[origin].parent.Some?
    modifies arena
    ensures arena.Valid() && sh !in old(arena.nodes)
    ensures arena.nodes == AddChildTo(old(arena.nodes)[sh := ShadowNode(old(arena.nodes), origin)], sfavs, sh)
    ensures IsShadow(arena.nodes, sh) && OriginOf(arena.nodes, sh) == origin && IsList(arena.nodes, sfavs)
    ensures arena.nodes[sh].parent == Some(sfavs)
    ensures Children(arena.nodes, sfavs) == Children(old(arena.nodes), sfavs) + [sh]
  {
    sh := arena.Alloc(ShadowNode(arena.nodes, origin));
    arena.AddChild(sfavs, sh);
  }

  /** `SuperFavoritesMenuList.add_child`: appends a shadow of the component's Favorites list, not the component. */
  method AddChildToShadow(arena: Arena, shadow: NodeId, comp: NodeId) returns (sh: NodeId)
    requires arena.Valid() && IsShadow(arena.nodes, shadow) && IsAudio(arena.nodes, comp)
    requires arena.nodes[FavoritesOf(arena.nodes, comp)].parent.Some?
    modifies arena
    ensures arena.Valid() && sh !in old(arena.nodes)
    ensures IsShadow(arena.nodes, sh) && OriginOf(arena.nodes, sh) == FavoritesOf(old(arena.nodes), comp)
    ensures IsList(arena.nodes, shadow) && Children(arena.nodes, shadow) == Children(old(arena.nodes), shadow) + [sh]
  {
    sh := AddChildMenu(arena, shadow, FavoritesOf(arena.nodes, comp));
  }

  /** `SuperFavoritesMenuList.update_favorites` on one shadow of the arena. */
  method UpdateFavorites(arena: Arena, sh: NodeId)
    requires arena.Valid() && IsShadow(arena.nodes, sh)
    modifies arena
    ensures arena.Valid() && arena.nodes == Refresh(old(arena.nodes), sh)
  {
    arena.nodes := Refresh(arena.nodes, sh);
  }

  /** One pass of the refresh loop: refresh `sh` when it mirrors `only`, or every shadow when `only` is absent. */
  method RefreshPicked(arena: Arena, sh: NodeId, only: Option<NodeId>)
    requires arena.Valid() && IsShadow(arena.nodes, sh)
    modifies arena
    ensures arena.Valid() && arena.nodes == RefreshStep(old(arena.nodes), sh, only)
  {
    if only.None? || OriginOf(arena.nodes, sh) == only.value {
      UpdateFavorites(arena, sh);
    }
  }

  /** A pass over no shadows changes nothing. */
  lemma MirroredNone(nodes: Nodes, only: Option<NodeId>)
    requires WellFormed(nodes)
    ensures Mirrored(nodes, [], only) == nodes
  {
  }

  /** `update_all_favorite_menus` (with `only == None`) and `update_one_favorite_menu` (with `only == Some(n)`). */
  method UpdateFavoriteMenus(arena: Arena, sfavs: NodeId, only: Option<NodeId>)
    requires arena.Valid() && IsList(arena.nodes, sfavs) && !IsShadow(arena.nodes, sfavs)
    requires AllShadows(arena.nodes, Children(arena.nodes, sfavs))
    requires PlainOrigins(arena.nodes, Children(arena.nodes, sfavs))
    modifies arena
    ensures arena.Valid()
    ensures arena.nodes == Mirrored(old(arena.nodes), Children(old(arena.nodes), sfavs), only)
  {
    var kids := Children(arena.nodes, sfavs);
    ghost var start := arena.nodes;
    var i := 0;
    MirroredNone(start, only);
    assert kids[..0] == [];
    while i < |kids|
      invariant arena.Valid() && 0 <= i <= |kids|
      invariant arena.nodes == Mirrored(start, kids[..i], only)
    {
      MirroredStep(start, kids, i, only);
      RefreshPicked(arena, kids[i], only);
      i := i + 1;
    }
    assert kids[..i] == kids;
  }
}
