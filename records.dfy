/**
 * Favorites records: what `opus_get_metadata` makes of each kind of opus,
 * the save loop that collects them from a Favorites list, and the load loop
 * that appends rebuilt operai to a Favorites list. JSON text and the files
 * themselves are abstracted into `SavedFile`.
 */
module Records {

  import opened Wrappers
  import opened MenuTree

  /** A favorites file as `json.loads` sees it when a component starts. */
  datatype SavedFile = Missing | Corrupt | Saved(records: seq<Record>)

  /** `fav[key]` where the record must hold text there. */
  function TextField(rec: Record, key: string): (r: Outcome<string>)
    ensures r.Done? <==> key in rec && rec[key].Str?
    ensures r.Done? ==> rec[key] == Str(r.value)
    ensures r.Raised? ==> r.fault == KeyError
  {
    if key in rec && rec[key].Str? then Done(rec[key].s) else Raised(KeyError)
  }

  /** `fav[key]` where the record must hold a list of text there. */
  function ListField(rec: Record, key: string): (r: Outcome<seq<string>>)
    ensures r.Done? <==> key in rec && rec[key].Strs?
    ensures r.Done? ==> rec[key] == Strs(r.value)
    ensures r.Raised? ==> r.fault == KeyError
  {
    if key in rec && rec[key].Strs? then Done(rec[key].items) else Raised(KeyError)
  }

  /** The record shared by StreamingOpus and ShoutcastOpus; `title` repeats the name. */
  function StreamRecord(n: Node, url: string, genre: string, subgenre: string): (r: Record)
    requires "name" in n.labels && "comment" in n.labels
    ensures r.Keys == {"component", "type", "name", "comment", "title", "url", "genre", "subgenre"}
    ensures r["type"] == Str("stream") && r["title"] == r["name"] == Str(n.labels["name"])
  {
    map["component" := Str(n.component), "type" := Str("stream"),
        "name" := Str(n.labels["name"]), "comment" := Str(n.labels["comment"]),
        "title" := Str(n.labels["name"]), "url" := Str(url),
        "genre" := Str(genre), "subgenre" := Str(subgenre)]
  }

  /**
   * `opus_get_metadata` of every kind of opus: the base class gives `{}`; a
   * menu list or a command has no such method.
   */
  function Metadata(n: Node): (r: Outcome<Record>)
    requires "name" in n.labels && "comment" in n.labels
    ensures r.Done? <==> n.kind.Playable?
    ensures r.Raised? ==> r.fault == AttributeError
    ensures r.Done? && n.kind.opus.payload.NoPayload? ==> r.value == map[]
    ensures r.Done? && !n.kind.opus.payload.NoPayload? ==>
              "component" in r.value && r.value["component"] == Str(n.component) &&
              "name" in r.value && r.value["name"] == Str(n.labels["name"]) && "type" in r.value
  {
    if !n.kind.Playable? then Raised(AttributeError)
    else
      var name := Str(n.labels["name"]);
      match n.kind.opus.payload
      case NoPayload => Done(map[])
      case Playlist =>
        Done(map["component" := Str(n.component), "type" := Str("playlist"), "name" := name])
      case Slice(terms) =>
        Done(map["component" := Str(n.component), "type" := Str("slice"), "name" := name,
                 "terms" := Strs(terms)])
      case Stream(url, genre, subgenre) => Done(StreamRecord(n, url, genre, subgenre))
      case Shoutcast(_, _, _, _, url, genre, subgenre) => Done(StreamRecord(n, url, genre, subgenre))
      case Soundscape(package, agent, _) =>
        Done(map["component" := Str(n.component), "type" := Str("soundscape"), "name" := name,
                 "comment" := Str(n.labels["comment"]),
                 "package" := Str(package), "agent" := Str(agent)])
  }

  /** The list `save_favorites` builds: one record per child, in order, or the first failure. */
  function RecordsOf(nodes: Nodes, ids: seq<NodeId>): (r: Outcome<seq<Record>>)
    requires WellFormed(nodes) && forall i :: 0 <= i < |ids| ==> ids[i] in nodes
    ensures r.Done? <==> forall i :: 0 <= i < |ids| ==> IsOpus(nodes, ids[i])
    ensures r.Done? ==> |r.value| == |ids|
    ensures r.Done? ==> forall i :: 0 <= i < |ids| ==> Metadata(nodes[ids[i]]) == Done(r.value[i])
    ensures r.Raised? ==> r.fault == AttributeError
    decreases |ids|
  {
    if ids == [] then Done([])
    else
      var last := ids[|ids| - 1];
      match RecordsOf(nodes, ids[..|ids| - 1])
      case Raised(f) => Raised(f)
      case Done(recs) =>
        match Metadata(nodes[last])
        case Raised(f) => Raised(f)
        case Done(m) => Done(recs + [m])
  }

  /** The loop of `save_favorites`, up to the JSON encoding. */
  method CollectRecords(arena: Arena, favs: NodeId) returns (r: Outcome<seq<Record>>)
    requires arena.Valid() && IsList(arena.nodes, favs)
    ensures r == RecordsOf(arena.nodes, Children(arena.nodes, favs))
  {
    var kids := Children(arena.nodes, favs);
    var recs: seq<Record> := [];
    var i := 0;
    while i < |kids|
      invariant 0 <= i <= |kids|
      invariant RecordsOf(arena.nodes, kids[..i]) == Done(recs)
    {
      assert kids[..i + 1][..i] == kids[..i];
      var m := Metadata(arena.nodes[kids[i]]);
      if m.Raised? {
        return Raised(m.fault);
      }
      recs := recs + [m.value];
      i := i + 1;
    }
    assert kids[..i] == kids;
    r := Done(recs);
  }

  /** What saving does to the file: written on success, untouched when the loop raised. */
  function WriteFile(file: SavedFile, collected: Outcome<seq<Record>>): (r: SavedFile)
    ensures collected.Done? ==> r == Saved(collected.value)
    ensures collected.Raised? ==> r == file
  {
    if collected.Done? then Saved(collected.value) else file
  }

  /** How a component rebuilds one record: an opus, nothing (a type it skips), or a failure. */
  type Loader = Record -> Outcome<Option<Node>>

  /** What a loader builds: a detached opus with the label keys every node has. */
  predicate Detached(n: Node) {
    n.kind.Playable? && n.parent.None? && "name" in n.labels && "comment" in n.labels
  }

  ghost predicate LoaderOk(load: Loader) {
    forall rec :: load(rec).Done? && load(rec).value.Some? ==> Detached(load(rec).value.value)
  }

  /**
   * The operai the load loop of `load_favorites` appends, in file order, up
   * to the first record it cannot rebuild, and the error that stops it.
   */
  function LoadNodes(load: Loader, recs: seq<Record>): (r: (seq<Node>, Option<Fault>))
    ensures |r.0| <= |recs|
    ensures LoaderOk(load) ==> forall k :: 0 <= k < |r.0| ==> Detached(r.0[k])
    decreases |recs|
  {
    if recs == [] then ([], None)
    else
      match load(recs[0])
      case Raised(f) => ([], Some(f))
      case Done(None) => LoadNodes(load, recs[1..])
      case Done(Some(n)) =>
        var rest := LoadNodes(load, recs[1..]);
        ([n] + rest.0, rest.1)
  }

  /** Loading the records one after the other is loading them all at once. */
  lemma {:induction false} LoadNodesStep(load: Loader, recs: seq<Record>, i: nat)
    requires i < |recs|
    requires LoadNodes(load, recs[..i]).1 == None
    ensures var before := LoadNodes(load, recs[..i]).0;
            match load(recs[i])
            case Raised(f) => LoadNodes(load, recs[..i + 1]) == (before, Some(f))
            case Done(None) => LoadNodes(load, recs[..i + 1]) == (before, None)
            case Done(Some(n)) => LoadNodes(load, recs[..i + 1]) == (before + [n], None)
  {
    if i > 0 {
      var tail := recs[1..];
      assert recs[..i][1..] == tail[..i - 1];
      assert recs[..i + 1][1..] == tail[..i];
      assert recs[..i][0] == recs[0] == recs[..i + 1][0];
      match load(recs[0])
      case Raised(_) =>
      case Done(None) =>
        LoadNodesStep(load, tail, i - 1);
      case Done(Some(n)) =>
        LoadNodesStep(load, tail, i - 1);
        var a := LoadNodes(load, tail[..i - 1]).0;
        assert LoadNodes(load, recs[..i]).0 == [n] + a;
        assert tail[i - 1] == recs[i];
        match load(recs[i])
        case Raised(_) =>
        case Done(None) =>
        case Done(Some(m)) =>
          assert LoadNodes(load, recs[..i + 1]).0 == [n] + (a + [m]);
          assert [n] + (a + [m]) == ([n] + a) + [m];
    } else {
      assert recs[..0] == [] && recs[..1] == [recs[0]] && recs[..1][1..] == [];
      assert LoadNodes(load, recs[..1][1..]) == ([], None);
      assert LoadNodes(load, recs[..0]) == ([], None);
      match load(recs[0])
      case Raised(_) =>
      case Done(None) =>
      case Done(Some(n)) =>
        assert LoadNodes(load, recs[..1]) == ([n] + [], None);
        assert [n] + [] == [] + [n];
    }
  }

  /**
   * `b` is `a` with the nodes `built` appended to the list `favs` as `added`,
   * every other node as it was.
   */
  ghost predicate Grown(a: Nodes, b: Nodes, favs: NodeId, added: seq<NodeId>, built: seq<Node>) {
    && IsList(a, favs) && IsList(b, favs) && |added| == |built|
    && Children(b, favs) == Children(a, favs) + added
    && b[favs] == a[favs].(kind := b[favs].kind) && b[favs].kind.role == a[favs].kind.role
    && (forall k :: 0 <= k < |added| ==>
          added[k] !in a && added[k] in b && b[added[k]] == built[k].(parent := Some(favs)))
    && a.Keys <= b.Keys
    && (forall id :: id in a && id != favs ==> b[id] == a[id])
  }

  lemma GrownAppend(a: Nodes, b: Nodes, c: Nodes, favs: NodeId, added: seq<NodeId>, built: seq<Node>, id: NodeId, n: Node)
    requires Grown(a, b, favs, added, built)
    requires IsList(c, favs) && id !in b && c.Keys == b.Keys + {id}
    requires Children(c, favs) == Children(b, favs) + [id] && c[id] == n.(parent := Some(favs))
    requires c[favs] == b[favs].(kind := c[favs].kind) && c[favs].kind.role == b[favs].kind.role
    requires forall k :: k in b && k != favs ==> c[k] == b[k]
    ensures Grown(a, c, favs, added + [id], built + [n])
  {
    assert Children(c, favs) == Children(a, favs) + (added + [id]);
    forall k | 0 <= k < |added + [id]|
      ensures (added + [id])[k] !in a && (added + [id])[k] in c &&
              c[(added + [id])[k]] == (built + [n])[k].(parent := Some(favs))
    {
      if k < |added| {
        assert (added + [id])[k] == added[k] && (built + [n])[k] == built[k];
        assert added[k] != favs;
      }
    }
  }

  lemma DetachedOk(n: Node, nodes: Nodes)
    requires Detached(n)
    ensures NodeOk(n, nodes)
  {
  }

  /** One loaded opus appended to the Favorites list. */
  method AppendLoaded(arena: Arena, favs: NodeId, n: Node, ghost base: Nodes, ghost added: seq<NodeId>, ghost built: seq<Node>)
    returns (id: NodeId)
    requires arena.Valid() && Detached(n) && Grown(base, arena.nodes, favs, added, built)
    modifies arena
    ensures arena.Valid() && old(arena.next) <= arena.next
    ensures Grown(base, arena.nodes, favs, added + [id], built + [n])
  {
    DetachedOk(n, arena.nodes);
    ghost var before := arena.nodes;
    id := arena.Append(favs, n);
    GrownAppend(base, before, arena.nodes, favs, added, built, id, n);
  }

  /**
   * The load loop of `load_favorites` once the file has been read: append
   * each rebuilt opus to the Favorites list, stopping at the first error,
   * which escapes to the caller. A missing or undecodable file adds nothing.
   */
  method LoadInto(arena: Arena, favs: NodeId, file: SavedFile, load: Loader)
    returns (added: seq<NodeId>, error: Option<Fault>)
    requires arena.Valid() && IsList(arena.nodes, favs) && LoaderOk(load)
    modifies arena
    ensures arena.Valid() && old(arena.next) <= arena.next
    ensures !file.Saved? ==> arena.nodes == old(arena.nodes) && added == [] && error == None
    ensures file.Saved? ==> error == LoadNodes(load, file.records).1
    ensures file.Saved? ==> Grown(old(arena.nodes), arena.nodes, favs, added, LoadNodes(load, file.records).0)
  {
    added, error := [], None;
    if !file.Saved? {
      return;
    }
    var recs := file.records;
    ghost var built: seq<Node> := [];
    var i := 0;
    assert recs[..0] == [];
    while i < |recs|
      invariant 0 <= i <= |recs|
      invariant arena.Valid() && IsList(arena.nodes, favs) && old(arena.next) <= arena.next
      invariant LoadNodes(load, recs[..i]) == (built, None)
      invariant Grown(old(arena.nodes), arena.nodes, favs, added, built)
    {
      LoadNodesStep(load, recs, i);
      var one := load(recs[i]);
      if one.Raised? {
        error := Some(one.fault);
        RestIsUnread(load, recs, i);
        assert built == LoadNodes(load, recs).0;
        return;
      }
      if one.value.Some? {
        var id := AppendLoaded(arena, favs, one.value.value, old(arena.nodes), added, built);
        added := added + [id];
        built := built + [one.value.value];
      }
      i := i + 1;
    }
    assert recs[..i] == recs;
    assert built == LoadNodes(load, recs).0;
  }

  /** Once a record fails to load, the records after it are never looked at. */
  lemma {:induction false} RestIsUnread(load: Loader, recs: seq<Record>, i: nat)
    requires i < |recs| && load(recs[i]).Raised?
    requires LoadNodes(load, recs[..i]).1 == None
    ensures LoadNodes(load, recs) == (LoadNodes(load, recs[..i]).0, Some(load(recs[i]).fault))
  {
    if i > 0 {
      var tail := recs[1..];
      assert recs[..i][1..] == tail[..i - 1];
      assert recs[..i][0] == recs[0];
      match load(recs[0])
      case Raised(_) =>
      case Done(None) =>
        RestIsUnread(load, tail, i - 1);
      case Done(Some(n)) =>
        RestIsUnread(load, tail, i - 1);
    }
  }

  /** The operai of `ids` as their constructors built them, before `add_child` set their parent. */
  function Detach(nodes: Nodes, ids: seq<NodeId>): (r: seq<Node>)
    requires forall i :: 0 <= i < |ids| ==> ids[i] in nodes
    ensures |r| == |ids| && forall i :: 0 <= i < |ids| ==> r[i] == nodes[ids[i]].(parent := None)
  {
    seq(|ids|, i requires 0 <= i < |ids| => nodes[ids[i]].(parent := None))
  }

  /** Records that each rebuild a known opus load as those operai, in order, with no error. */
  lemma {:induction false} LoadNodesAll(load: Loader, recs: seq<Record>, ns: seq<Node>)
    requires |recs| == |ns|
    requires forall k :: 0 <= k < |recs| ==> load(recs[k]) == Done(Some(ns[k]))
    ensures LoadNodes(load, recs) == (ns, None)
    decreases |recs|
  {
    if recs != [] {
      LoadNodesAll(load, recs[1..], ns[1..]);
      assert ns == [ns[0]] + ns[1..];
    }
  }

  /**
   * Saving a Favorites list and loading the file back rebuilds the same
   * operai in the same order, whenever each opus's own record loads back as
   * that opus.
   */
  lemma SaveThenLoad(nodes: Nodes, ids: seq<NodeId>, load: Loader)
    requires WellFormed(nodes)
    requires forall i :: 0 <= i < |ids| ==>
               ids[i] in nodes && nodes[ids[i]].kind.Playable? &&
               load(Metadata(nodes[ids[i]]).value) == Done(Some(nodes[ids[i]].(parent := None)))
    ensures RecordsOf(nodes, ids).Done?
    ensures LoadNodes(load, RecordsOf(nodes, ids).value) == (Detach(nodes, ids), None)
  {
    LoadNodesAll(load, RecordsOf(nodes, ids).value, Detach(nodes, ids));
  }

  /** What every audio component does to its Favorites list at start-up: its own comment and tag. */
  method TagFavorites(arena: Arena, favs: NodeId, comment: string, tag: string)
    requires arena.Valid() && IsList(arena.nodes, favs)
    modifies arena
    ensures arena.Valid() && arena.next == old(arena.next)
    ensures arena.nodes == old(arena.nodes)[favs := old(arena.nodes)[favs].(
              labels := old(arena.nodes)[favs].labels["comment" := comment], component := tag)]
  {
    var f := arena.nodes[favs];
    arena.Store(favs, f.(labels := f.labels["comment" := comment], component := tag));
  }

  /**
   * The start of every audio component's constructor: the component list
   * with its Favorites list as child 0, the Favorites list given the
   * component's comment and tag, and the saved favorites loaded into it. An
   * error from the load escapes the constructor.
   */
  method StartAudioComponent(arena: Arena, name: string, shortName: string, comment: string, tag: string,
                             met: bool, favsComment: string, file: SavedFile, load: Loader)
    returns (comp: NodeId, favs: NodeId, error: Option<Fault>)
    requires arena.Valid() && LoaderOk(load)
    modifies arena
    ensures arena.Valid() && comp !in old(arena.nodes) && favs !in old(arena.nodes) && comp != favs
    ensures old(arena.next) <= arena.next
    ensures IsAudio(arena.nodes, comp) && FavoritesOf(arena.nodes, comp) == favs
    ensures arena.nodes[comp] == Node(MakeLabels(name, shortName, comment), tag, None, List([favs], 0, Audio(favs, met)))
    ensures IsList(arena.nodes, favs) && arena.nodes[favs].component == tag
    ensures arena.nodes[favs].labels == MakeLabels("Favorites", "Fav", favsComment)
    ensures arena.nodes[favs].parent == Some(comp) && arena.nodes[favs].kind.role == Ordinary
    ensures !file.Saved? ==> error == None && Children(arena.nodes, favs) == []
    ensures file.Saved? ==> error == LoadNodes(load, file.records).1
    ensures file.Saved? ==> |Children(arena.nodes, favs)| == |LoadNodes(load, file.records).0|
    ensures file.Saved? ==> forall k :: 0 <= k < |Children(arena.nodes, favs)| ==>
              arena.nodes[Children(arena.nodes, favs)[k]] == LoadNodes(load, file.records).0[k].(parent := Some(favs))
    ensures old(arena.nodes).Keys <= arena.nodes.Keys
    ensures forall k :: k in old(arena.nodes) ==> arena.nodes[k] == old(arena.nodes)[k]
  {
    comp, favs := NewTaggedAudio(arena, name, shortName, comment, tag, met, favsComment);
    ghost var tagged := arena.nodes;
    var added;
    added, error := LoadInto(arena, favs, file, load);
    assert arena.nodes[comp] == tagged[comp];
    assert Children(arena.nodes, favs) == [] + added == added;
  }

  /** The component list and its Favorites list, given the component's comment and tag. */
  method NewTaggedAudio(arena: Arena, name: string, shortName: string, comment: string, tag: string,
                        met: bool, favsComment: string)
    returns (comp: NodeId, favs: NodeId)
    requires arena.Valid()
    modifies arena
    ensures arena.Valid() && comp !in old(arena.nodes) && favs !in old(arena.nodes) && comp != favs
    ensures old(arena.next) <= arena.next
    ensures arena.nodes == old(arena.nodes)[favs := FavoritesNode(favsComment, tag, comp)]
              [comp := Node(MakeLabels(name, shortName, comment), tag, None, List([favs], 0, Audio(favs, met)))]
  {
    comp, favs := arena.NewAudioComponent(name, shortName, comment, tag, met);
    TagFavorites(arena, favs, favsComment, tag);
    RecommentLabels("Favorites", "Fav", "Generic Favorites", favsComment);
  }

  /** A component's Favorites list, empty, under the component. */
  function FavoritesNode(comment: string, tag: string, comp: NodeId): (n: Node)
    ensures n.kind.List? && n.kind.children == [] && n.kind.role == Ordinary && n.parent == Some(comp)
  {
    Node(MakeLabels("Favorites", "Fav", comment), tag, Some(comp), List([], 0, Ordinary))
  }

  lemma RecommentLabels(name: string, shortName: string, comment: string, comment': string)
    ensures MakeLabels(name, shortName, comment)["comment" := comment'] == MakeLabels(name, shortName, comment')
  {
  }

}
