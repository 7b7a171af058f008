/**
 * The menu tree of base_classes.py.
 *
 * Every MenuList, Opus and Command object of the running server is a node of
 * one arena, addressed by a numeric id: a list's `children` is a sequence of
 * ids and every node's `parent` is an optional id. Python object identity
 * (`node in self.children`, `current_opus != selected_node`) becomes id
 * equality. The subclasses that only add behaviour are told apart by the
 * node's `Kind`, the `Role` of a list and the `Payload` of an opus.
 */
module MenuTree {

  import opened Wrappers
  import opened Text

  type NodeId = nat

  /** The `menu_labels` dictionary of a node. */
  type Labels = map<string, string>

  /** `MenuNode.__init__`: the three keys every node starts with. */
  function MakeLabels(name: string, shortName: string, comment: string): (l: Labels)
    ensures l.Keys == {"name", "shortname", "comment"} && "name" in l && "comment" in l
    ensures l["name"] == name && l["shortname"] == shortName && l["comment"] == comment
  {
    map["name" := name, "shortname" := shortName, "comment" := comment]
  }

  /** A value in a favorites record: text, or a list of text (slice search terms). */
  datatype Value = Str(s: string) | Strs(items: seq<string>)

  /** A flat metadata record, as `opus_get_metadata` returns it and the favorites files hold it. */
  type Record = map<string, Value>

  /** The `repeat` or `shuffle` attribute of an opus: `0`, `1` or a string such as `"none"`. */
  datatype Setting = Num(n: int) | Word(w: string)
  {
    /** Python truthiness: nonzero numbers and non-empty strings. */
    predicate Truthy() {
      if Num? then n != 0 else w != ""
    }
  }

  /** What a particular kind of opus carries beyond the base class. */
  datatype Payload =
    | NoPayload                                // a base `Opus`, e.g. the null opus
    | Playlist                                 // library PlaylistOpus: the playlist is its name
    | Slice(terms: seq<string>)                // library SliceOpus: MPD find terms
    | Stream(url: string, genre: string, subgenre: string)   // StreamingOpus
    | Shoutcast(streamId: string, bitrate: string, currentTrack: string,
                listeners: string, url: string, genre: string, subgenre: string)
    | Soundscape(package: string, agent: string, process: Option<nat>)  // BoodlerOpus

  datatype Opus = Opus(shuffleSupport: bool, shuffle: Setting,
                       repeatSupport: bool, repeat: Setting,
                       pauseSupport: bool, payload: Payload)

  /** `Opus.__init__`: every capability off and both settings `0`. */
  function BaseOpus(payload: Payload): (o: Opus)
    ensures !o.shuffleSupport && !o.repeatSupport && !o.pauseSupport
    ensures !o.shuffle.Truthy() && !o.repeat.Truthy() && o.payload == payload
  {
    Opus(false, Num(0), false, Num(0), false, payload)
  }

  /** What a MenuList subclass adds. */
  datatype Role =
    | Ordinary                                 // MenuList and its tag-only subclasses
    | Component(requirementsMet: bool)         // MenuComponent
    | Audio(favorites: NodeId, requirementsMet: bool)   // AudioComponent
    | Shadow(origin: NodeId)                   // SuperFavoritesMenuList

  datatype Kind =
    | List(children: seq<NodeId>, index: nat, role: Role)
    | Playable(opus: Opus)
    | Action                                   // Command

  /**
   * One node. `component` is the tag string of the object; a Command has no
   * such attribute and carries `""`, which no code path reads.
   */
  datatype Node = Node(labels: Labels, component: string, parent: Option<NodeId>, kind: Kind)

  type Nodes = map<NodeId, Node>

  /** `MenuList.__init__` (with the tag a subclass assigns): no parent, no children, cursor 0. */
  function ListNode(name: string, shortName: string, comment: string, tag: string, role: Role): (n: Node)
    ensures n.kind.List? && n.kind.children == [] && n.kind.index == 0 && n.parent.None?
    ensures n.labels == MakeLabels(name, shortName, comment) && n.component == tag && n.kind.role == role
    ensures n.labels["name"] == name
  {
    Node(MakeLabels(name, shortName, comment), tag, None, List([], 0, role))
  }

  function OpusNode(name: string, shortName: string, comment: string, tag: string, opus: Opus): (n: Node)
    ensures n.kind.Playable? && n.parent.None? && n.kind.opus == opus
    ensures n.labels == MakeLabels(name, shortName, comment) && n.component == tag
  {
    Node(MakeLabels(name, shortName, comment), tag, None, Playable(opus))
  }

  /** `Command.__init__`: a leaf whose `children` is None. */
  function CommandNode(name: string, shortName: string, comment: string): (n: Node)
    ensures n.kind.Action? && n.parent.None?
  {
    Node(MakeLabels(name, shortName, comment), "", None, Action)
  }

  /**
   * Python truthiness of `node.children`: only a list node with at least one
   * child; an Opus has `children == False` and a Command `children == None`.
   */
  predicate HasChildren(n: Node) {
    n.kind.List? && |n.kind.children| > 0
  }

  predicate IsList(nodes: Nodes, id: NodeId) {
    id in nodes && nodes[id].kind.List?
  }

  predicate IsOpus(nodes: Nodes, id: NodeId) {
    id in nodes && nodes[id].kind.Playable?
  }

  predicate IsAudio(nodes: Nodes, id: NodeId) {
    IsList(nodes, id) && nodes[id].kind.role.Audio?
  }

  predicate IsShadow(nodes: Nodes, id: NodeId) {
    IsList(nodes, id) && nodes[id].kind.role.Shadow?
  }

  function Children(nodes: Nodes, id: NodeId): seq<NodeId>
    requires IsList(nodes, id)
  {
    nodes[id].kind.children
  }

  ghost predicate RoleOk(r: Role, nodes: Nodes) {
    match r
    case Audio(f, _) => IsList(nodes, f)
    case Shadow(o) => IsList(nodes, o)
    case _ => true
  }

  /** What every node of the tree may rely on about the nodes it refers to. */
  ghost predicate NodeOk(n: Node, nodes: Nodes) {
    && "name" in n.labels && "comment" in n.labels
    && (n.parent.Some? ==> IsList(nodes, n.parent.value))
    && (n.kind.List? ==>
          (forall c :: c in n.kind.children ==> c in nodes) && RoleOk(n.kind.role, nodes))
  }

  ghost predicate WellFormed(nodes: Nodes) {
    forall id :: id in nodes ==> NodeOk(nodes[id], nodes)
  }

  /** The display name of a node. */
  function Name(nodes: Nodes, id: NodeId): string
    requires WellFormed(nodes) && id in nodes
  {
    nodes[id].labels["name"]
  }

  lemma NodeOkGrows(n: Node, a: Nodes, b: Nodes)
    requires NodeOk(n, a)
    requires a.Keys <= b.Keys
    requires forall id :: IsList(a, id) ==> IsList(b, id)
    ensures NodeOk(n, b)
  {
  }

  /** A node rewritten with its labels, and its children and role if it is a list, may be stored back. */
  lemma RewriteOk(nodes: Nodes, id: NodeId, n: Node)
    requires WellFormed(nodes) && id in nodes && n.labels == nodes[id].labels
    requires n.parent.Some? ==> IsList(nodes, n.parent.value)
    requires n.kind.List? ==> nodes[id].kind.List? && n.kind.children == nodes[id].kind.children && n.kind.role == nodes[id].kind.role
    ensures NodeOk(n, nodes)
  {
    assert NodeOk(nodes[id], nodes);
  }

  /** Overwriting one node keeps the tree well formed, as long as a list stays a list. */
  lemma StoreKeepsWellFormed(nodes: Nodes, id: NodeId, n: Node)
    requires WellFormed(nodes) && id in nodes
    requires IsList(nodes, id) ==> n.kind.List?
    requires NodeOk(n, nodes)
    ensures WellFormed(nodes[id := n])
  {
    var after := nodes[id := n];
    forall k | k in after
      ensures NodeOk(after[k], after)
    {
      NodeOkGrows(after[k], nodes, after);
    }
  }

  /** Adding a fresh node keeps the tree well formed. */
  lemma AllocKeepsWellFormed(nodes: Nodes, id: NodeId, n: Node)
    requires WellFormed(nodes) && id !in nodes
    requires NodeOk(n, nodes)
    ensures WellFormed(nodes[id := n])
  {
    var after := nodes[id := n];
    forall k | k in after
      ensures NodeOk(after[k], after)
    {
      NodeOkGrows(after[k], nodes, after);
    }
  }

  // ---------------------------------------------------------------------------
  // MenuList operations as transformations of the arena.

  /**
   * `MenuList.selected_node`: `children[index]` when there are children,
   * None when there are none, and IndexError when the cursor is past the end
   * (which `reset_children` makes possible).
   */
  function SelectedNode(nodes: Nodes, list: NodeId): (r: Outcome<Option<NodeId>>)
    requires IsList(nodes, list)
    ensures Children(nodes, list) == [] ==> r == Done(None)
    ensures r.Done? && r.value.Some? <==>
              Children(nodes, list) != [] && nodes[list].kind.index < |Children(nodes, list)|
    ensures r.Done? && r.value.Some? ==> r.value.value == Children(nodes, list)[nodes[list].kind.index]
    ensures r.Raised? ==> r.fault == IndexError
  {
    var l := nodes[list].kind;
    if l.children == [] then Done(None)
    else if l.index < |l.children| then Done(Some(l.children[l.index]))
    else Raised(IndexError)
  }

  /** `MenuList.has_child`: membership by identity. */
  predicate HasChild(nodes: Nodes, list: NodeId, node: NodeId)
    requires IsList(nodes, list)
  {
    node in Children(nodes, list)
  }

  /** `MenuList.add_child`: append the node and make the list its parent. */
  function AddChildTo(nodes: Nodes, list: NodeId, child: NodeId): (r: Nodes)
    requires IsList(nodes, list) && child in nodes
    ensures r.Keys == nodes.Keys && IsList(r, list)
    ensures Children(r, list) == Children(nodes, list) + [child]
    ensures r[child].parent == Some(list)
    ensures r[list].kind.index == nodes[list].kind.index && r[list].kind.role == nodes[list].kind.role
    ensures r[child].labels == nodes[child].labels && r[child].kind.List? == nodes[child].kind.List?
    ensures r[list].labels == nodes[list].labels && r[list].component == nodes[list].component
    ensures forall id :: id in nodes && id != list && id != child ==> r[id] == nodes[id]
    ensures child != list ==> r[child] == nodes[child].(parent := Some(list))
    ensures child != list ==> r[list].parent == nodes[list].parent
  {
    var l := nodes[list];
    var grown := nodes[list := l.(kind := l.kind.(children := l.kind.children + [child]))];
    grown[child := grown[child].(parent := Some(list))]
  }

  lemma AddChildKeepsWellFormed(nodes: Nodes, list: NodeId, child: NodeId)
    requires WellFormed(nodes) && IsList(nodes, list) && child in nodes
    ensures WellFormed(AddChildTo(nodes, list, child))
  {
    var l := nodes[list];
    var grown := nodes[list := l.(kind := l.kind.(children := l.kind.children + [child]))];
    StoreKeepsWellFormed(nodes, list, grown[list]);
    StoreKeepsWellFormed(grown, child, grown[child].(parent := Some(list)));
  }

  /** `MenuList.reset_children`: no children; the cursor is left where it was. */
  function ResetChildrenOf(nodes: Nodes, list: NodeId): (r: Nodes)
    requires IsList(nodes, list)
    ensures r.Keys == nodes.Keys && IsList(r, list)
    ensures Children(r, list) == [] && r[list].kind.index == nodes[list].kind.index
    ensures r[list] == nodes[list].(kind := r[list].kind) && r[list].kind.role == nodes[list].kind.role
    ensures forall id :: id in nodes && id != list ==> r[id] == nodes[id]
  {
    var l := nodes[list];
    nodes[list := l.(kind := l.kind.(children := []))]
  }

  lemma ResetKeepsWellFormed(nodes: Nodes, list: NodeId)
    requires WellFormed(nodes) && IsList(nodes, list)
    ensures WellFormed(ResetChildrenOf(nodes, list))
  {
    var l := nodes[list];
    StoreKeepsWellFormed(nodes, list, l.(kind := l.kind.(children := [])));
  }

  /** After a reset the cursor may point past the end, and `selected_node` then raises. */
  lemma ResetLeavesStaleCursor(nodes: Nodes, list: NodeId)
    requires IsList(nodes, list) && nodes[list].kind.index > 0
    ensures var r := ResetChildrenOf(nodes, list);
            r[list].kind.index > 0 && Children(r, list) == [] &&
            SelectedNode(AddChildTo(r, list, list), list) == Raised(IndexError)
  {
    var r := ResetChildrenOf(nodes, list);
    var s := AddChildTo(r, list, list);
    assert Children(s, list) == [list];
    assert s[list].kind.index == nodes[list].kind.index;
  }

  /**
   * `update_menu_labels` as written: the short name lands under a new key
   * `'short_name'`, so the `'shortname'` that the clients read is not changed.
   */
  function RelabelAsWritten(l: Labels, name: string, shortName: string, comment: string): Labels
  {
    l["name" := name]["short_name" := shortName]["comment" := comment]
  }

  lemma RelabelAsWrittenMissesShortName(name: string, shortName: string, comment: string, newShort: string)
    requires newShort != shortName
    ensures var l := RelabelAsWritten(MakeLabels(name, shortName, comment), name, newShort, comment);
            l["shortname"] == shortName && l != MakeLabels(name, newShort, comment)
  {
  }

  /** `update_menu_labels` as intended: the three `MenuNode` keys are overwritten. */
  function Relabel(l: Labels, name: string, shortName: string, comment: string): (r: Labels)
    ensures r.Keys == l.Keys + {"name", "shortname", "comment"}
    ensures r["name"] == name && r["shortname"] == shortName && r["comment"] == comment
    ensures forall k :: k in l && k !in {"name", "shortname", "comment"} ==> r[k] == l[k]
  {
    l["name" := name]["shortname" := shortName]["comment" := comment]
  }

  /** Relabelling a node built by `MenuNode.__init__` gives the labels it would have been built with. */
  lemma RelabelFresh(name: string, shortName: string, comment: string, n2: string, s2: string, c2: string)
    ensures Relabel(MakeLabels(name, shortName, comment), n2, s2, c2) == MakeLabels(n2, s2, c2)
  {
  }

  // ---------------------------------------------------------------------------
  // sort_children

  /**
   * The intended sort key: the node's name. Every node of a well-formed tree
   * has one; the fallback `""` is never used there.
   */
  function Key(nodes: Nodes, id: NodeId): string
  {
    if id in nodes && "name" in nodes[id].labels then nodes[id].labels["name"] else ""
  }

  /** `a` may precede `b` in name order (Python's `not b < a`). */
  predicate KeyLe(nodes: Nodes, a: NodeId, b: NodeId) {
    !StrLt(Key(nodes, b), Key(nodes, a))
  }

  predicate SortedByName(nodes: Nodes, s: seq<NodeId>) {
    forall i, j :: 0 <= i < j < |s| ==> KeyLe(nodes, s[i], s[j])
  }

  /** The ids among `s` whose name is `k`, in their order in `s`. */
  function WithKey(nodes: Nodes, s: seq<NodeId>, k: string): seq<NodeId>
  {
    if s == [] then []
    else (if Key(nodes, s[0]) == k then [s[0]] else []) + WithKey(nodes, s[1..], k)
  }

  /** Insert `x` before the first element whose name is not smaller. */
  function InsertByName(nodes: Nodes, x: NodeId, s: seq<NodeId>): (r: seq<NodeId>)
    ensures multiset(r) == multiset(s) + multiset{x}
  {
    if s == [] then [x]
    else if KeyLe(nodes, x, s[0]) then [x] + s
    else
      assert s == [s[0]] + s[1..];
      [s[0]] + InsertByName(nodes, x, s[1..])
  }

  /**
   * The intended `children.sort(key=lambda n: n.menu_labels['name'])`:
   * Python's sort is stable, as is this insertion sort.
   */
  function SortByName(nodes: Nodes, s: seq<NodeId>): (r: seq<NodeId>)
    ensures multiset(r) == multiset(s)
  {
    if s == [] then []
    else
      assert s == [s[0]] + s[1..];
      InsertByName(nodes, s[0], SortByName(nodes, s[1..]))
  }

  lemma KeyLeTotal(nodes: Nodes, a: NodeId, b: NodeId)
    ensures KeyLe(nodes, a, b) || KeyLe(nodes, b, a)
  {
    if Key(nodes, a) == Key(nodes, b) {
      StrLtIrreflexive(Key(nodes, a));
    } else {
      StrLtTotal(Key(nodes, a), Key(nodes, b));
      if StrLt(Key(nodes, a), Key(nodes, b)) && StrLt(Key(nodes, b), Key(nodes, a)) {
        StrLtTransitive(Key(nodes, a), Key(nodes, b), Key(nodes, a));
        StrLtIrreflexive(Key(nodes, a));
      }
    }
  }

  lemma KeyLeTransitive(nodes: Nodes, a: NodeId, b: NodeId, c: NodeId)
    requires KeyLe(nodes, a, b) && KeyLe(nodes, b, c)
    ensures KeyLe(nodes, a, c)
  {
    var ka, kb, kc := Key(nodes, a), Key(nodes, b), Key(nodes, c);
    if StrLt(kc, ka) {
      if ka == kb {
      } else {
        StrLtTotal(ka, kb);
        StrLtTransitive(kc, ka, kb);
      }
    }
  }

  /** Every element of an insertion is the inserted id or one of the list's. */
  lemma InsertedFrom(nodes: Nodes, x: NodeId, s: seq<NodeId>, j: nat)
    requires j < |InsertByName(nodes, x, s)|
    ensures InsertByName(nodes, x, s)[j] == x || InsertByName(nodes, x, s)[j] in s
  {
    var r := InsertByName(nodes, x, s);
    assert r[j] in multiset(r);
  }

  lemma {:induction false} InsertKeepsSorted(nodes: Nodes, x: NodeId, s: seq<NodeId>)
    requires SortedByName(nodes, s)
    ensures SortedByName(nodes, InsertByName(nodes, x, s))
    decreases |s|
  {
    var r := InsertByName(nodes, x, s);
    if s == [] {
    } else if KeyLe(nodes, x, s[0]) {
      forall i, j | 0 <= i < j < |r|
        ensures KeyLe(nodes, r[i], r[j])
      {
        if i == 0 && j > 1 {
          KeyLeTransitive(nodes, x, s[0], s[j - 1]);
        }
      }
    } else {
      InsertKeepsSorted(nodes, x, s[1..]);
      var t := InsertByName(nodes, x, s[1..]);
      assert r == [s[0]] + t;
      KeyLeTotal(nodes, x, s[0]);
      forall j | 0 <= j < |t|
        ensures KeyLe(nodes, s[0], t[j])
      {
        InsertedFrom(nodes, x, s[1..], j);
        if t[j] != x {
          var k :| 0 <= k < |s[1..]| && s[1..][k] == t[j];
          assert s[k + 1] == t[j];
        }
      }
    }
  }

  /** The intended sort orders the children by name. */
  lemma {:induction false} SortByNameSorted(nodes: Nodes, s: seq<NodeId>)
    ensures SortedByName(nodes, SortByName(nodes, s))
  {
    if s != [] {
      SortByNameSorted(nodes, s[1..]);
      InsertKeepsSorted(nodes, s[0], SortByName(nodes, s[1..]));
    }
  }

  lemma WithKeyCons(nodes: Nodes, a: NodeId, t: seq<NodeId>, k: string)
    ensures WithKey(nodes, [a] + t, k) == (if Key(nodes, a) == k then [a] else []) + WithKey(nodes, t, k)
  {
    assert ([a] + t)[1..] == t;
  }

  lemma ConcatSwap<T>(a: seq<T>, b: seq<T>, w: seq<T>)
    requires a == [] || b == []
    ensures a + (b + w) == b + (a + w)
  {
  }

  lemma {:induction false} InsertWithKey(nodes: Nodes, x: NodeId, s: seq<NodeId>, k: string)
    ensures WithKey(nodes, InsertByName(nodes, x, s), k) ==
            (if Key(nodes, x) == k then [x] else []) + WithKey(nodes, s, k)
    decreases |s|
  {
    if s == [] {
      WithKeyCons(nodes, x, [], k);
    } else if KeyLe(nodes, x, s[0]) {
      WithKeyCons(nodes, x, s, k);
    } else {
      var t := InsertByName(nodes, x, s[1..]);
      InsertWithKey(nodes, x, s[1..], k);
      WithKeyCons(nodes, s[0], t, k);
      WithKeyCons(nodes, s[0], s[1..], k);
      assert s == [s[0]] + s[1..];
      var head := if Key(nodes, s[0]) == k then [s[0]] else [];
      var mine := if Key(nodes, x) == k then [x] else [];
      if Key(nodes, x) == k && Key(nodes, s[0]) == k {
        StrLtIrreflexive(k);
      }
      ConcatSwap(head, mine, WithKey(nodes, s[1..], k));
    }
  }

  /**
   * Stability: the children that share a name keep their relative order, for
   * every name. With `SortByNameSorted` and the multiset equality in
   * `SortByName`'s contract this pins the result down completely.
   */
  lemma {:induction false} SortByNameStable(nodes: Nodes, s: seq<NodeId>, k: string)
    ensures WithKey(nodes, SortByName(nodes, s), k) == WithKey(nodes, s, k)
  {
    if s != [] {
      SortByNameStable(nodes, s[1..], k);
      InsertWithKey(nodes, s[0], SortByName(nodes, s[1..]), k);
    }
  }

  /**
   * `sort_children` as written: its key reads `.labels`, an attribute no
   * node has, so sorting any non-empty child list raises AttributeError.
   */
  function SortChildrenAsWritten(nodes: Nodes, list: NodeId): Outcome<Nodes>
    requires IsList(nodes, list)
  {
    if Children(nodes, list) == [] then Done(nodes) else Raised(AttributeError)
  }

  lemma SortAsWrittenFails(nodes: Nodes, list: NodeId)
    requires IsList(nodes, list) && Children(nodes, list) != []
    ensures SortChildrenAsWritten(nodes, list) == Raised(AttributeError)
  {
  }

  // ---------------------------------------------------------------------------
  // get_path

  /**
   * `get_path`: the labels from the child of root down to and including the
   * node, built by recursing to the parent. A parent of None raises
   * AttributeError; `fuel` stands in for the recursion limit.
   */
  function PathOf(nodes: Nodes, id: NodeId, fuel: nat): Outcome<seq<Labels>>
    requires WellFormed(nodes) && IsList(nodes, id)
    decreases fuel
  {
    if Name(nodes, id) == "root" then Done([])
    else if fuel == 0 then Raised(RecursionError)
    else match nodes[id].parent
      case None => Raised(AttributeError)
      case Some(p) =>
        match PathOf(nodes, p, fuel - 1)
        case Done(above) => Done(above + [nodes[id].labels])
        case Raised(f) => Raised(f)
  }

  /** The breadcrumb of a menu list; the arena size bounds any parent chain that ends. */
  function GetPath(nodes: Nodes, id: NodeId): Outcome<seq<Labels>>
    requires WellFormed(nodes) && IsList(nodes, id)
  {
    PathOf(nodes, id, |nodes|)
  }

  /** The node `k` parent steps above `id`, if the chain is that long. */
  function Ancestor(nodes: Nodes, id: NodeId, k: nat): (r: Option<NodeId>)
    requires WellFormed(nodes) && id in nodes
    ensures r.Some? ==> r.value in nodes
    ensures k == 0 ==> r == Some(id)
    decreases k
  {
    if k == 0 then Some(id)
    else match nodes[id].parent
      case None => None
      case Some(p) => Ancestor(nodes, p, k - 1)
  }

  /** `id` lies `d` levels below a node named root, with no node named root in between. */
  ghost predicate DepthBelowRoot(nodes: Nodes, id: NodeId, d: nat)
    requires WellFormed(nodes) && id in nodes
  {
    && (forall k :: 0 <= k < d ==>
          Ancestor(nodes, id, k).Some? && Name(nodes, Ancestor(nodes, id, k).value) != "root")
    && Ancestor(nodes, id, d).Some? && Name(nodes, Ancestor(nodes, id, d).value) == "root"
  }

  lemma {:induction false} PathOfDepth(nodes: Nodes, id: NodeId, d: nat, fuel: nat)
    requires WellFormed(nodes) && IsList(nodes, id)
    requires DepthBelowRoot(nodes, id, d) && fuel >= d
    ensures PathOf(nodes, id, fuel).Done?
    ensures var path := PathOf(nodes, id, fuel).value;
            |path| == d &&
            forall k :: 0 <= k < d ==> path[k] == nodes[Ancestor(nodes, id, d - 1 - k).value].labels
    decreases d
  {
    if d > 0 {
      assert Ancestor(nodes, id, 0) == Some(id);
      assert Ancestor(nodes, id, 1).Some?;
      var p := nodes[id].parent.value;
      forall k | 0 <= k <= d - 1
        ensures Ancestor(nodes, p, k) == Ancestor(nodes, id, k + 1)
      {
      }
      PathOfDepth(nodes, p, d - 1, fuel - 1);
    }
  }

  lemma {:induction false} AncestorShift(nodes: Nodes, id: NodeId, i: nat, m: nat)
    requires WellFormed(nodes) && id in nodes && Ancestor(nodes, id, i).Some?
    ensures Ancestor(nodes, id, i + m) == Ancestor(nodes, Ancestor(nodes, id, i).value, m)
    decreases i
  {
    if i > 0 {
      AncestorShift(nodes, nodes[id].parent.value, i - 1, m);
    }
  }

  /** Below root, the chain of ancestors never repeats a node. */
  lemma AncestorsDistinct(nodes: Nodes, id: NodeId, d: nat, i: nat, j: nat)
    requires WellFormed(nodes) && id in nodes && DepthBelowRoot(nodes, id, d)
    requires i < j <= d
    ensures Ancestor(nodes, id, i) != Ancestor(nodes, id, j)
  {
    AncestorShift(nodes, id, i, d - j);
    AncestorShift(nodes, id, j, d - j);
  }

  lemma {:induction false} DistinctBound(s: seq<NodeId>, keys: set<NodeId>)
    requires forall i, j :: 0 <= i < j < |s| ==> s[i] != s[j]
    requires forall i :: 0 <= i < |s| ==> s[i] in keys
    ensures |s| <= |keys|
    decreases |s|
  {
    if s != [] {
      var rest := keys - {s[0]};
      forall i | 0 <= i < |s[1..]| ensures s[1..][i] in rest {
        assert s[1..][i] == s[i + 1];
      }
      forall i, j | 0 <= i < j < |s[1..]| ensures s[1..][i] != s[1..][j] {
        assert s[1..][i] == s[i + 1] && s[1..][j] == s[j + 1];
      }
      DistinctBound(s[1..], rest);
    }
  }

  function AncestorList(nodes: Nodes, id: NodeId, d: nat): (s: seq<NodeId>)
    requires WellFormed(nodes) && id in nodes
    requires forall k :: 0 <= k < d ==> Ancestor(nodes, id, k).Some?
    ensures |s| == d && forall k :: 0 <= k < d ==> s[k] == Ancestor(nodes, id, k).value
  {
    if d == 0 then [] else AncestorList(nodes, id, d - 1) + [Ancestor(nodes, id, d - 1).value]
  }

  /** A node d levels below root has at least d + 1 nodes on its chain, so d < |nodes|. */
  lemma DepthBound(nodes: Nodes, id: NodeId, d: nat)
    requires WellFormed(nodes) && id in nodes && DepthBelowRoot(nodes, id, d)
    ensures d < |nodes|
  {
    var s := AncestorList(nodes, id, d + 1);
    forall i, j | 0 <= i < j < |s| ensures s[i] != s[j] {
      AncestorsDistinct(nodes, id, d, i, j);
    }
    DistinctBound(s, nodes.Keys);
  }

  /**
   * `get_path` on a node `d` levels below root gives `d` label records, from
   * the child of root down to the node itself; on root it gives `[]`.
   */
  lemma GetPathBelowRoot(nodes: Nodes, id: NodeId, d: nat)
    requires WellFormed(nodes) && IsList(nodes, id) && DepthBelowRoot(nodes, id, d)
    ensures GetPath(nodes, id).Done?
    ensures var path := GetPath(nodes, id).value;
            |path| == d &&
            (forall k :: 0 <= k < d ==> path[k] == nodes[Ancestor(nodes, id, d - 1 - k).value].labels) &&
            (d > 0 ==> path[d - 1] == nodes[id].labels)
  {
    DepthBound(nodes, id, d);
    PathOfDepth(nodes, id, d, |nodes|);
  }

  // ---------------------------------------------------------------------------
  // AudioComponent

  function FavoritesOf(nodes: Nodes, comp: NodeId): (f: NodeId)
    requires WellFormed(nodes) && IsAudio(nodes, comp)
    ensures IsList(nodes, f)
  {
    nodes[comp].kind.role.favorites
  }

  /** `AudioComponent.add_favorite`: append to the favorites list unless already there. */
  function AddFavoriteTo(nodes: Nodes, comp: NodeId, fav: NodeId): (r: Nodes)
    requires WellFormed(nodes) && IsAudio(nodes, comp) && fav in nodes
    ensures WellFormed(r) && r.Keys == nodes.Keys && IsAudio(r, comp)
    ensures FavoritesOf(r, comp) == FavoritesOf(nodes, comp) && r[comp].component == nodes[comp].component
    ensures fav in Children(r, FavoritesOf(nodes, comp))
  {
    var f := FavoritesOf(nodes, comp);
    if fav in Children(nodes, f) then nodes
    else
      AddChildKeepsWellFormed(nodes, f, fav);
      AddChildTo(nodes, f, fav)
  }

  /** Adding a favorite twice is the same as adding it once. */
  lemma AddFavoriteIdempotent(nodes: Nodes, comp: NodeId, fav: NodeId)
    requires WellFormed(nodes) && IsAudio(nodes, comp) && fav in nodes
    ensures AddFavoriteTo(AddFavoriteTo(nodes, comp, fav), comp, fav) == AddFavoriteTo(nodes, comp, fav)
  {
  }

  predicate Distinct(s: seq<NodeId>) {
    forall i, j :: 0 <= i < j < |s| ==> s[i] != s[j]
  }

  /** A favorites list never holds the same opus twice, and only ever grows at the end. */
  lemma AddFavoriteKeepsDistinct(nodes: Nodes, comp: NodeId, fav: NodeId)
    requires WellFormed(nodes) && IsAudio(nodes, comp) && fav in nodes
    requires Distinct(Children(nodes, FavoritesOf(nodes, comp)))
    ensures var before := Children(nodes, FavoritesOf(nodes, comp));
            var after := Children(AddFavoriteTo(nodes, comp, fav), FavoritesOf(nodes, comp));
            Distinct(after) && before <= after && |after| <= |before| + 1
  {
  }

  // ---------------------------------------------------------------------------
  // The arena object

  /** The heap of menu objects; methods are the in-place updates of base_classes.py. */
  class Arena {
    var nodes: Nodes
    var next: NodeId

    ghost predicate Valid()
      reads this
    {
      WellFormed(nodes) && forall id :: id in nodes ==> id < next
    }

    constructor ()
      ensures Valid() && nodes == map[]
    {
      nodes := map[];
      next := 0;
    }

    /** Create an object; it refers only to objects that already exist. */
    method Alloc(n: Node) returns (id: NodeId)
      requires Valid() && NodeOk(n, nodes)
      modifies this
      ensures Valid() && id == old(next) && next == old(next) + 1
      ensures id !in old(nodes) && nodes == old(nodes)[id := n]
    {
      id := next;
      AllocKeepsWellFormed(nodes, id, n);
      nodes := nodes[id := n];
      next := next + 1;
    }

    /** Overwrite one object's attributes; a list stays a list. */
    method Store(id: NodeId, n: Node)
      requires Valid() && id in nodes && NodeOk(n, nodes)
      requires IsList(nodes, id) ==> n.kind.List?
      modifies this
      ensures Valid() && nodes == old(nodes)[id := n] && next == old(next)
    {
      StoreKeepsWellFormed(nodes, id, n);
      nodes := nodes[id := n];
    }

    /** `MenuList.__init__` (or a subclass that only sets the tag). */
    method NewList(name: string, shortName: string, comment: string, tag: string) returns (id: NodeId)
      requires Valid()
      modifies this
      ensures Valid() && id !in old(nodes) && id == old(next) && next == old(next) + 1
      ensures nodes == old(nodes)[id := ListNode(name, shortName, comment, tag, Ordinary)]
    {
      id := Alloc(ListNode(name, shortName, comment, tag, Ordinary));
    }

    method NewOpus(name: string, shortName: string, comment: string, tag: string, opus: Opus)
      returns (id: NodeId)
      requires Valid()
      modifies this
      ensures Valid() && id !in old(nodes) && id == old(next) && next == old(next) + 1
      ensures nodes == old(nodes)[id := OpusNode(name, shortName, comment, tag, opus)]
    {
      id := Alloc(OpusNode(name, shortName, comment, tag, opus));
    }

    /** Create a node and append it to a list, as `list.add_child(Cls(...))` does. */
    method Append(list: NodeId, n: Node) returns (id: NodeId)
      requires Valid() && IsList(nodes, list) && NodeOk(n, nodes)
      modifies this
      ensures Valid() && id == old(next) && next == old(next) + 1 && id !in old(nodes)
      ensures nodes.Keys == old(nodes).Keys + {id} && IsList(nodes, list)
      ensures Children(nodes, list) == Children(old(nodes), list) + [id]
      ensures nodes[id] == n.(parent := Some(list))
      ensures nodes[list] == old(nodes)[list].(kind := nodes[list].kind)
      ensures nodes[list].kind.index == old(nodes)[list].kind.index
      ensures nodes[list].kind.role == old(nodes)[list].kind.role
      ensures forall k :: k in old(nodes) && k != list ==> nodes[k] == old(nodes)[k]
    {
      id := Alloc(n);
      AddChild(list, id);
    }

    method AddChild(list: NodeId, child: NodeId)
      requires Valid() && IsList(nodes, list) && child in nodes
      modifies this
      ensures Valid() && nodes == AddChildTo(old(nodes), list, child) && next == old(next)
    {
      AddChildKeepsWellFormed(nodes, list, child);
      nodes := AddChildTo(nodes, list, child);
    }

    method ResetChildren(list: NodeId)
      requires Valid() && IsList(nodes, list)
      modifies this
      ensures Valid() && nodes == ResetChildrenOf(old(nodes), list) && next == old(next)
    {
      ResetKeepsWellFormed(nodes, list);
      nodes := ResetChildrenOf(nodes, list);
    }

    /** `update_menu_labels`, writing the `'shortname'` key that `MenuNode` defines. */
    method UpdateMenuLabels(id: NodeId, name: string, shortName: string, comment: string)
      requires Valid() && id in nodes
      modifies this
      ensures Valid() && next == old(next)
      ensures nodes == old(nodes)[id := old(nodes)[id].(labels := Relabel(old(nodes)[id].labels, name, shortName, comment))]
    {
      var n := nodes[id];
      Store(id, n.(labels := Relabel(n.labels, name, shortName, comment)));
    }

    /** `sort_children` with the key it evidently intends: a stable sort by name. */
    method SortChildren(list: NodeId)
      requires Valid() && IsList(nodes, list)
      modifies this
      ensures Valid() && IsList(nodes, list) && next == old(next)
      ensures SortedByName(nodes, Children(nodes, list))
      ensures multiset(Children(nodes, list)) == multiset(Children(old(nodes), list))
      ensures forall k :: WithKey(nodes, Children(nodes, list), k) == WithKey(nodes, Children(old(nodes), list), k)
      ensures nodes == old(nodes)[list := old(nodes)[list].(kind := nodes[list].kind)]
      ensures nodes[list].kind.index == old(nodes)[list].kind.index
    {
      var n := nodes[list];
      var kids := n.kind.children;
      var sorted := SortByName(nodes, kids);
      forall c | c in sorted ensures c in nodes {
        assert c in multiset(sorted);
      }
      ghost var before := nodes;
      Store(list, n.(kind := n.kind.(children := sorted)));
      SortedUnderSameKeys(before, nodes, kids);
    }

    method AddFavorite(comp: NodeId, fav: NodeId)
      requires Valid() && IsAudio(nodes, comp) && fav in nodes
      modifies this
      ensures Valid() && nodes == AddFavoriteTo(old(nodes), comp, fav) && next == old(next)
    {
      nodes := AddFavoriteTo(nodes, comp, fav);
    }

    /**
     * `AudioComponent.__init__` with the tag and the requirements check of
     * the subclass: a component list whose first child is a fresh Favorites
     * list.
     */
    method NewAudioComponent(name: string, shortName: string, comment: string, tag: string, met: bool)
      returns (comp: NodeId, favs: NodeId)
      requires Valid()
      modifies this
      ensures Valid() && comp !in old(nodes) && favs !in old(nodes) && comp != favs
      ensures favs == old(next) && comp == old(next) + 1 && next == old(next) + 2
      ensures nodes.Keys == old(nodes).Keys + {comp, favs}
      ensures forall id :: id in old(nodes) ==> nodes[id] == old(nodes)[id]
      ensures IsAudio(nodes, comp) && FavoritesOf(nodes, comp) == favs
      ensures nodes[comp] == Node(MakeLabels(name, shortName, comment), tag, None, List([favs], 0, Audio(favs, met)))
      ensures nodes[favs] == Node(MakeLabels("Favorites", "Fav", "Generic Favorites"), "menulistbase", Some(comp), List([], 0, Ordinary))
    {
      favs := NewList("Favorites", "Fav", "Generic Favorites", "menulistbase");
      comp := Alloc(ListNode(name, shortName, comment, tag, Audio(favs, met)));
      AddChild(comp, favs);
    }
  }

  /** Sorting is judged by names only, so a tree with the same names judges it alike. */
  lemma SortedUnderSameKeys(a: Nodes, b: Nodes, s: seq<NodeId>)
    requires forall id :: Key(a, id) == Key(b, id)
    ensures SortedByName(b, SortByName(a, s))
    ensures forall k :: WithKey(b, SortByName(a, s), k) == WithKey(b, s, k)
  {
    var t := SortByName(a, s);
    SortByNameSorted(a, s);
    assert SortedByName(b, t) by {
      forall i, j | 0 <= i < j < |t| ensures KeyLe(b, t[i], t[j]) {
        assert KeyLe(a, t[i], t[j]);
      }
    }
    forall k ensures WithKey(b, t, k) == WithKey(b, s, k) {
      SortByNameStable(a, s, k);
      WithKeySameLabels(a, b, t, k);
      WithKeySameLabels(a, b, s, k);
    }
  }

  lemma {:induction false} WithKeySameLabels(a: Nodes, b: Nodes, s: seq<NodeId>, k: string)
    requires forall id :: id in s ==> Key(a, id) == Key(b, id)
    ensures WithKey(a, s, k) == WithKey(b, s, k)
  {
    if s != [] {
      WithKeySameLabels(a, b, s[1..], k);
    }
  }
}
