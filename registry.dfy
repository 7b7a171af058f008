/**
 * The invariants the controller keeps of the menu tree: the super-favorites
 * list mirrors the registered audio components' Favorites lists, the
 * registry sits under root after super-favorites, and start-up registers the
 * components with the tags of `RegisteredTags`, in order.
 */
module Registry {

  import opened Wrappers
  import opened MenuTree
  import opened SuperFavorites
  import opened Radio
  import Library
  import Streaming
  import Boodler
  // ---------------------------------------------------------------------------
  // The tree invariants the controller keeps

  /** The changes that leave every node's kind and tag, and every list's role, as they were. */
  ghost predicate KeepsRoles(a: Nodes, b: Nodes) {
    && a.Keys <= b.Keys
    && forall k :: k in a ==>
         && (a[k].kind.List? <==> b[k].kind.List?)
         && (a[k].kind.Playable? <==> b[k].kind.Playable?)
         && (a[k].kind.List? ==> b[k].kind.role == a[k].kind.role)
         && b[k].component == a[k].component
  }

  lemma KeepsRolesKeepsKinds(a: Nodes, b: Nodes)
    requires KeepsRoles(a, b)
    ensures KindsKept(a, b)
  {
  }

  /** The registered components that are audio components, in registration order. */
  function AudioOf(nodes: Nodes, regs: seq<NodeId>): (r: seq<NodeId>)
    ensures |r| <= |regs|
    ensures forall i :: 0 <= i < |r| ==> IsAudio(nodes, r[i]) && r[i] in regs
  {
    if regs == [] then []
    else
      var last := regs[|regs| - 1];
      AudioOf(nodes, regs[..|regs| - 1]) + (if IsAudio(nodes, last) then [last] else [])
  }

  lemma {:induction false} AudioOfKept(a: Nodes, b: Nodes, regs: seq<NodeId>)
    requires KeepsRoles(a, b) && forall i :: 0 <= i < |regs| ==> regs[i] in a
    ensures AudioOf(a, regs) == AudioOf(b, regs)
  {
    if regs != [] {
      AudioOfKept(a, b, regs[..|regs| - 1]);
    }
  }

  /**
   * The super-favorites list holds one shadow per registered audio
   * component, in registration order, each mirroring that component's
   * Favorites list; every origin is an ordinary list, and no registered
   * component keeps its favorites in the super-favorites list itself.
   */
  ghost predicate Mirrors(nodes: Nodes, sfavs: NodeId, regs: seq<NodeId>) {
    && WellFormed(nodes) && IsList(nodes, sfavs) && !IsShadow(nodes, sfavs)
    && (forall i :: 0 <= i < |regs| ==> regs[i] in nodes)
    && (forall i :: 0 <= i < |regs| && IsAudio(nodes, regs[i]) ==> FavoritesOf(nodes, regs[i]) != sfavs)
    && AllShadows(nodes, Children(nodes, sfavs))
    && PlainOrigins(nodes, Children(nodes, sfavs))
    && var audio := AudioOf(nodes, regs);
       var shadows := Children(nodes, sfavs);
       && |shadows| == |audio|
       && forall i :: 0 <= i < |audio| ==> OriginOf(nodes, shadows[i]) == FavoritesOf(nodes, audio[i])
  }

  /** A change that keeps roles and leaves the super-favorites' children alone keeps the mirror. */
  lemma MirrorsKept(a: Nodes, b: Nodes, sfavs: NodeId, regs: seq<NodeId>)
    requires Mirrors(a, sfavs, regs) && WellFormed(b) && KeepsRoles(a, b)
    requires b[sfavs].kind.children == a[sfavs].kind.children
    ensures Mirrors(b, sfavs, regs)
  {
    AudioOfKept(a, b, regs);
  }

  /** Moving cursors and parents, or changing opus settings, keeps the mirror. */
  lemma SameListsKeepMirrors(a: Nodes, b: Nodes, sfavs: NodeId, regs: seq<NodeId>)
    requires Mirrors(a, sfavs, regs) && WellFormed(b) && SameLists(a, b)
    ensures Mirrors(b, sfavs, regs)
  {
    MirrorsKept(a, b, sfavs, regs);
  }

  /** `add_favorite` on a registered audio component keeps the mirror: it only touches that component's Favorites. */
  lemma FavoriteAddedKeepsMirrors(a: Nodes, sfavs: NodeId, regs: seq<NodeId>, comp: NodeId, fav: NodeId)
    requires Mirrors(a, sfavs, regs) && comp in regs && IsAudio(a, comp) && IsOpus(a, fav)
    ensures Mirrors(AddFavoriteTo(a, comp, fav), sfavs, regs) && KeepsRoles(a, AddFavoriteTo(a, comp, fav))
    ensures Children(AddFavoriteTo(a, comp, fav), sfavs) == Children(a, sfavs)
  {
    var k :| 0 <= k < |regs| && regs[k] == comp;
    MirrorsKept(a, AddFavoriteTo(a, comp, fav), sfavs, regs);
  }

  /** `update_all_favorite_menus` keeps the mirror, and afterwards every shadow holds its origin's children. */
  lemma RefreshedKeepsMirrors(a: Nodes, sfavs: NodeId, regs: seq<NodeId>)
    requires Mirrors(a, sfavs, regs)
    ensures var b := Mirrored(a, Children(a, sfavs), None);
            && Mirrors(b, sfavs, regs) && KeepsRoles(a, b) && Children(b, sfavs) == Children(a, sfavs)
            && forall i :: 0 <= i < |Children(b, sfavs)| ==>
                 var sh := Children(b, sfavs)[i];
                 Children(b, sh) == Children(b, OriginOf(b, sh))
  {
    var kids := Children(a, sfavs);
    var b := Mirrored(a, kids, None);
    MirroredShadowsMatchOrigins(a, kids, None);
    assert !Picked(a, kids, None, sfavs);
    MirrorsKept(a, b, sfavs, regs);
    forall i | 0 <= i < |Children(b, sfavs)| ensures Children(b, Children(b, sfavs)[i]) == Children(b, OriginOf(b, Children(b, sfavs)[i])) {
      assert Picked(a, kids, None, kids[i]);
    }
  }

  lemma AudioOfAppend(nodes: Nodes, regs: seq<NodeId>, c: NodeId)
    ensures AudioOf(nodes, regs + [c]) == AudioOf(nodes, regs) + (if IsAudio(nodes, c) then [c] else [])
  {
    assert (regs + [c])[..|regs|] == regs;
  }

  /** Registering a component that is not an audio component leaves the mirror as it was. */
  lemma RegisteredPlain(nodes: Nodes, sfavs: NodeId, regs: seq<NodeId>, c: NodeId)
    requires Mirrors(nodes, sfavs, regs) && c in nodes && !IsAudio(nodes, c)
    ensures Mirrors(nodes, sfavs, regs + [c])
  {
    AudioOfAppend(nodes, regs, c);
  }

  /** Registering an audio component together with a new shadow of its Favorites keeps the mirror. */
  lemma RegisteredAudio(a: Nodes, b: Nodes, sfavs: NodeId, regs: seq<NodeId>, c: NodeId, sh: NodeId)
    requires Mirrors(a, sfavs, regs) && IsAudio(a, c)
    requires FavoritesOf(a, c) != sfavs && !IsShadow(a, FavoritesOf(a, c))
    requires WellFormed(b) && KeepsRoles(a, b) && IsList(b, sfavs)
    requires IsShadow(b, sh) && sh !in a && OriginOf(b, sh) == FavoritesOf(a, c)
    requires Children(b, sfavs) == Children(a, sfavs) + [sh]
    ensures Mirrors(b, sfavs, regs + [c])
  {
    OriginsAppended(a, b, sfavs, regs, c, sh);
    var shadows := Children(b, sfavs);
    forall i | 0 <= i < |shadows| ensures IsShadow(b, shadows[i]) && !IsShadow(b, OriginOf(b, shadows[i])) {
      if i < |shadows| - 1 {
        assert shadows[i] == Children(a, sfavs)[i];
        assert !IsShadow(a, OriginOf(a, shadows[i]));
      }
    }
    assert PlainOrigins(b, shadows);
  }

  lemma OriginsAppended(a: Nodes, b: Nodes, sfavs: NodeId, regs: seq<NodeId>, c: NodeId, sh: NodeId)
    requires Mirrors(a, sfavs, regs) && IsAudio(a, c)
    requires WellFormed(b) && KeepsRoles(a, b) && IsList(b, sfavs)
    requires IsShadow(b, sh) && OriginOf(b, sh) == FavoritesOf(a, c)
    requires Children(b, sfavs) == Children(a, sfavs) + [sh]
    ensures var audio := AudioOf(b, regs + [c]);
            var shadows := Children(b, sfavs);
            |shadows| == |audio| && forall i :: 0 <= i < |audio| ==> OriginOf(b, shadows[i]) == FavoritesOf(b, audio[i])
  {
    AudioOfKept(a, b, regs + [c]);
    AudioOfAppend(a, regs, c);
    var audio, old_audio := AudioOf(a, regs + [c]), AudioOf(a, regs);
    var shadows, old_shadows := Children(b, sfavs), Children(a, sfavs);
    assert audio == old_audio + [c];
    forall i | 0 <= i < |audio| ensures OriginOf(b, shadows[i]) == FavoritesOf(b, audio[i]) {
      if i < |old_audio| {
        assert shadows[i] == old_shadows[i] && audio[i] == old_audio[i];
        assert OriginOf(a, old_shadows[i]) == FavoritesOf(a, old_audio[i]);
      }
    }
  }

  lemma KeepsRolesTransitive(a: Nodes, b: Nodes, c: Nodes)
    requires KeepsRoles(a, b) && KeepsRoles(b, c)
    ensures KeepsRoles(a, c)
  {
  }

  lemma SameListsKeepRoles(a: Nodes, b: Nodes)
    requires SameLists(a, b)
    ensures KeepsRoles(a, b)
  {
  }

  /** A refresh pass only copies children into shadows. */
  lemma MirroredKeepsRoles(nodes: Nodes, ids: seq<NodeId>, only: Option<NodeId>)
    requires WellFormed(nodes)
    ensures KeepsRoles(nodes, Mirrored(nodes, ids, only))
    ensures forall k :: k in nodes && !IsShadow(nodes, k) ==> Mirrored(nodes, ids, only)[k] == nodes[k]
  {
  }

  /** Whether `register_component` accepts a node: a component whose requirements are met. */
  predicate Met(n: Node) {
    n.kind.List? && match n.kind.role
                    case Component(met) => met
                    case Audio(_, met) => met
                    case _ => false
  }

  /** The tags of the components that register at start-up, in order; WX radio and settings are never met. */
  const RegisteredTags := [Library.Tag, Streaming.Tag, Boodler.Tag, "fmradio", "system"]

  lemma RegisteredTagsAt()
    ensures |RegisteredTags| == 5
    ensures RegisteredTags[0] == Library.Tag && RegisteredTags[1] == Streaming.Tag && RegisteredTags[2] == Boodler.Tag
    ensures RegisteredTags[3] == "fmradio" && RegisteredTags[4] == "system"
  {
  }

  lemma GrowthKeepsRoles(a: Nodes, b: Nodes)
    requires a.Keys <= b.Keys && forall k :: k in a ==> b[k] == a[k]
    ensures KeepsRoles(a, b)
  {
  }

  /** Super-favorites is the first child of root, followed by the registered components in order. */
  ghost predicate Rooted(nodes: Nodes, root: NodeId, sfavs: NodeId, regs: seq<NodeId>) {
    && Mirrors(nodes, sfavs, regs) && IsList(nodes, root) && root != sfavs
    && Children(nodes, root) == [sfavs] + regs && nodes[sfavs].parent == Some(root)
    && nodes[sfavs].component == Tag && nodes[sfavs].labels == SuperFavoritesNode().labels
  }

  /**
   * The registry holds components with the first tags of `RegisteredTags`,
   * in order, and super-favorites holds `shadows` shadows.
   */
  ghost predicate Tagged(nodes: Nodes, sfavs: NodeId, regs: seq<NodeId>, shadows: nat) {
    && |regs| <= |RegisteredTags|
    && (forall i :: 0 <= i < |regs| ==> regs[i] in nodes && nodes[regs[i]].component == RegisteredTags[i])
    && IsList(nodes, sfavs) && |Children(nodes, sfavs)| == shadows
  }

  /** Start-up so far. */
  ghost predicate Started(nodes: Nodes, root: NodeId, sfavs: NodeId, regs: seq<NodeId>, shadows: nat) {
    Rooted(nodes, root, sfavs, regs) && Tagged(nodes, sfavs, regs, shadows)
  }

  /** The radio's root holding only the empty super-favorites list is where start-up begins. */
  lemma StartsEmpty(nodes: Nodes, root: NodeId, sfavs: NodeId)
    requires WellFormed(nodes) && IsList(nodes, root) && sfavs != root && Children(nodes, root) == [sfavs]
    requires nodes[sfavs] == SuperFavoritesNode().(parent := Some(root))
    ensures Started(nodes, root, sfavs, [], 0)
  {
    assert [sfavs] + [] == [sfavs];
  }

  /** Building a component only adds nodes, so start-up is where it was. */
  lemma StartedGrown(a: Nodes, b: Nodes, root: NodeId, sfavs: NodeId, regs: seq<NodeId>, shadows: nat)
    requires Started(a, root, sfavs, regs, shadows) && WellFormed(b)
    requires a.Keys <= b.Keys && forall k :: k in a ==> b[k] == a[k]
    ensures Started(b, root, sfavs, regs, shadows) && KeepsRoles(a, b)
  {
    GrowthKeepsRoles(a, b);
    MirrorsKept(a, b, sfavs, regs);
  }

  /** Hanging a component under root leaves the mirror and the component's Favorites as they were. */
  lemma Attached(a: Nodes, b: Nodes, root: NodeId, sfavs: NodeId, regs: seq<NodeId>, comp: NodeId)
    requires Mirrors(a, sfavs, regs) && IsList(a, root) && root != sfavs
    requires IsList(a, comp) && comp != sfavs && comp != root
    requires WellFormed(b) && b == AddChildTo(a, root, comp)
    ensures Mirrors(b, sfavs, regs) && KeepsRoles(a, b) && b[sfavs] == a[sfavs]
    ensures IsAudio(b, comp) <==> IsAudio(a, comp)
    ensures IsAudio(a, comp) ==>
              var favs := FavoritesOf(a, comp);
              FavoritesOf(b, comp) == favs && (a[favs].parent.Some? ==> b[favs].parent.Some?) &&
              (IsShadow(b, favs) <==> IsShadow(a, favs))
  {
    assert KeepsRoles(a, b);
    MirrorsKept(a, b, sfavs, regs);
  }

  /** Appending a fresh shadow of a component's Favorites to super-favorites extends the mirror by that component. */
  lemma ShadowAdded(a: Nodes, b: Nodes, sfavs: NodeId, regs: seq<NodeId>, c: NodeId, sh: NodeId)
    requires Mirrors(a, sfavs, regs) && IsAudio(a, c)
    requires FavoritesOf(a, c) != sfavs && a[FavoritesOf(a, c)].parent.Some? && !IsShadow(a, FavoritesOf(a, c))
    requires sh !in a && WellFormed(b)
    requires b == AddChildTo(a[sh := ShadowNode(a, FavoritesOf(a, c))], sfavs, sh)
    ensures Mirrors(b, sfavs, regs + [c]) && KeepsRoles(a, b)
    ensures forall k :: k in a && k != sfavs ==> b[k] == a[k]
    ensures b[sfavs].labels == a[sfavs].labels && b[sfavs].parent == a[sfavs].parent
    ensures |Children(b, sfavs)| == |Children(a, sfavs)| + 1
  {
    assert KeepsRoles(a, b);
    RegisteredAudio(a, b, sfavs, regs, c, sh);
  }

  /**
   * What start-up knows of an audio component its constructor just made: a fresh, detached
   * component whose requirements are met, with its own Favorites list, the rest of the tree as it was.
   */
  ghost predicate BuiltAudio(before: Nodes, after: Nodes, comp: NodeId, tag: string) {
    && WellFormed(after) && before.Keys <= after.Keys && (forall k :: k in before ==> after[k] == before[k])
    && comp !in before && IsAudio(after, comp) && after[comp].parent.None?
    && Met(after[comp]) && after[comp].component == tag
    && var favs := FavoritesOf(after, comp);
       after[favs].parent == Some(comp) && after[favs].kind.role == Ordinary
  }

}
