/**
 * The streaming component of components/streaming.py: internet radio
 * played through MPD. Its operai are streams with a fixed URL and stations
 * of the Shoutcast directory, whose URL is only learnt when they are tuned
 * in. The directory itself (genres and the stations of each genre) comes
 * from the network and is a parameter of the model.
 */
module Streaming {

  import opened Wrappers
  import opened MenuTree
  import opened MenuBuild
  import opened Records

  const Tag := "streaming"

  /** `StreamingMenuList(name, short_name, comment)`. */
  function StreamList(name: string, shortName: string, comment: string): (n: Node)
    ensures Blank(n) && n.kind.List? && n.component == Tag && n.labels == MakeLabels(name, shortName, comment)
  {
    ListNode(name, shortName, comment, Tag, Ordinary)
  }

  /**
   * `StreamingOpus(name, comment, url, mpdc, genre, subgenre)`: an empty name
   * is replaced by the URL; no capability is supported.
   */
  function StreamNode(name: string, comment: string, url: string, genre: string, subgenre: string): (n: Node)
    ensures Blank(n) && n.kind.Playable? && n.component == Tag
    ensures n.labels.Keys == {"name", "shortname", "comment"}
    ensures name != "" ==> n.labels["name"] == name
    ensures name == "" ==> n.labels["name"] == url
    ensures n.labels["shortname"] == "" && n.labels["comment"] == comment
    ensures n.kind.opus == BaseOpus(Stream(url, genre, subgenre))
  {
    OpusNode(if name == "" then url else name, "", comment, Tag, BaseOpus(Stream(url, genre, subgenre)))
  }

  /** Building a stream again under the name it ended up with changes nothing. */
  lemma StreamNameSettles(name: string, comment: string, url: string, genre: string, subgenre: string)
    ensures var n := StreamNode(name, comment, url, genre, subgenre);
            StreamNode(n.labels["name"], comment, url, genre, subgenre) == n
  {
  }

  /** One entry of the Shoutcast station list: name, stream id, bitrate, current track, listener count. */
  datatype Station = Station(name: string, id: string, bitrate: string, currentTrack: string, listeners: string)

  /**
   * `ShoutcastOpus(sc, mpdc, name, streamid, br, genre, ct, lc)`: no name
   * fallback, no comment, no subgenre, and no URL until it is tuned in.
   */
  function ShoutcastNode(st: Station, genre: string): (n: Node)
    ensures Blank(n) && n.kind.Playable? && n.component == Tag
    ensures n.labels == MakeLabels(st.name, "", "")
    ensures n.kind.opus == BaseOpus(Shoutcast(st.id, st.bitrate, st.currentTrack, st.listeners, "", genre, ""))
  {
    OpusNode(st.name, "", "", Tag, BaseOpus(Shoutcast(st.id, st.bitrate, st.currentTrack, st.listeners, "", genre, "")))
  }

  /** What `ShoutcastOpus.opus_play` stores: the URL the directory's `tune_in` answered. */
  function Tuned(n: Node, url: string): (r: Node)
    requires n.kind.Playable? && n.kind.opus.payload.Shoutcast?
    ensures r.kind.Playable? && r.kind.opus.payload.Shoutcast? && r.kind.opus.payload.url == url
    ensures r.labels == n.labels && r.component == n.component && r.parent == n.parent
    ensures r.kind.opus == n.kind.opus.(payload := r.kind.opus.payload)
    ensures r.kind.opus.payload == n.kind.opus.payload.(url := url)
  {
    var p := n.kind.opus.payload;
    n.(kind := Playable(n.kind.opus.(payload := Shoutcast(p.streamId, p.bitrate, p.currentTrack, p.listeners,
                                                          url, p.genre, p.subgenre))))
  }

  /**
   * One record of `load_favorites`: every record becomes a stream, whatever
   * its type; a missing key raises KeyError, which the loader does not catch.
   */
  function FromRecord(rec: Record): (r: Outcome<Option<Node>>)
    ensures r.Done? <==> forall key :: key in ["name", "comment", "url", "genre", "subgenre"] ==> key in rec && rec[key].Str?
    ensures r.Done? ==> r.value.Some? && Detached(r.value.value)
    ensures r.Done? ==> r.value.value == StreamNode(rec["name"].s, rec["comment"].s, rec["url"].s,
                                                   rec["genre"].s, rec["subgenre"].s)
    ensures r.Raised? ==> r.fault == KeyError
  {
    match TextField(rec, "name")
    case Raised(f) => Raised(f)
    case Done(name) =>
      match TextField(rec, "comment")
      case Raised(f) => Raised(f)
      case Done(comment) =>
        match TextField(rec, "url")
        case Raised(f) => Raised(f)
        case Done(url) =>
          match TextField(rec, "genre")
          case Raised(f) => Raised(f)
          case Done(genre) =>
            match TextField(rec, "subgenre")
            case Raised(f) => Raised(f)
            case Done(subgenre) => Done(Some(StreamNode(name, comment, url, genre, subgenre)))
  }

  lemma FromRecordOk()
    ensures LoaderOk(FromRecord)
  {
  }

  /** A stream exactly as the component built it. */
  predicate Built(n: Node) {
    && n.kind.Playable? && n.kind.opus.payload.Stream? && "name" in n.labels && "comment" in n.labels
    && var p := n.kind.opus.payload;
       n.(parent := None) == StreamNode(n.labels["name"], n.labels["comment"], p.url, p.genre, p.subgenre)
  }

  /** `opus_get_metadata` and `load_favorites` are inverse on streams. */
  lemma RecordRoundTrip(n: Node)
    requires Built(n)
    ensures Metadata(n).Done? && Metadata(n).value["type"] == Str("stream")
    ensures FromRecord(Metadata(n).value) == Done(Some(n.(parent := None)))
  {
  }

  /**
   * A saved Shoutcast station comes back as a plain stream with the same
   * name, genre and the URL it had when saved: empty if it was never tuned
   * in, in which case the stream's name stays the station's own (the
   * fallback only applies to an empty name).
   */
  lemma ShoutcastReloadsAsStream(n: Node)
    requires n.kind.Playable? && n.kind.opus.payload.Shoutcast? && "name" in n.labels && "comment" in n.labels
    ensures Metadata(n).Done?
    ensures var p := n.kind.opus.payload;
            FromRecord(Metadata(n).value) ==
              Done(Some(StreamNode(n.labels["name"], n.labels["comment"], p.url, p.genre, p.subgenre)))
  {
  }

  /** `save_favorites` then `load_favorites` rebuilds the same Favorites list. */
  lemma FavoritesRoundTrip(nodes: Nodes, ids: seq<NodeId>)
    requires WellFormed(nodes) && forall i :: 0 <= i < |ids| ==> ids[i] in nodes && Built(nodes[ids[i]])
    ensures RecordsOf(nodes, ids).Done?
    ensures LoadNodes(FromRecord, RecordsOf(nodes, ids).value) == (Detach(nodes, ids), None)
  {
    forall i | 0 <= i < |ids|
      ensures FromRecord(Metadata(nodes[ids[i]]).value) == Done(Some(nodes[ids[i]].(parent := None)))
    {
      RecordRoundTrip(nodes[ids[i]]);
    }
    SaveThenLoad(nodes, ids, FromRecord);
  }

  // ---------------------------------------------------------------------------
  // The sub-menus built by the constructor

  /** The three stations the constructor puts in the Custom menu. */
  function CustomStations(): (r: seq<Node>)
    ensures |r| == 3 && forall k :: 0 <= k < 3 ==> Built(r[k]) && r[k].parent.None?
  {
    [StreamNode("AncientFM", "Early music.", "http://5.152.208.98:8058/", "Classical", "Early"),
     StreamNode("Venice Classsic Radio", "Beautiful classical music.", "http://174.36.206.197:8000/stream",
                "Classical", ""),
     StreamNode("Bartok Radio", "Hungarian classical radio.", "http://mr-stream.mediaconnect.hu/4741/mr3.mp3",
                "Classical", "")]
  }

  function CustomTree(): (t: Tree)
    ensures TreeOk(t) && t.Branch? && t.node == StreamList("Custom", "Cstm", "My custom stations")
    ensures |t.kids| == 3 && forall k :: 0 <= k < 3 ==> t.kids[k] == Leaf(CustomStations()[k])
  {
    var s := CustomStations();
    Branch(StreamList("Custom", "Cstm", "My custom stations"), [Leaf(s[0]), Leaf(s[1]), Leaf(s[2])])
  }

  /** The Community Radio list, which stays empty: nothing fills it (its initialiser is commented out). */
  function CrdTree(): (t: Tree)
    ensures TreeOk(t) && t.Branch? && t.kids == []
    ensures t.node == StreamList("Community Radio", "CRD", "Community-driven radio directory")
  {
    Branch(StreamList("Community Radio", "CRD", "Community-driven radio directory"), [])
  }

  /** The station lists of the Shoutcast directory, by genre. */
  type Directory = string -> seq<Station>

  /** One genre of `init_shoutcast`: a list named after the genre holding its stations in order. */
  function GenreTree(dir: Directory, genre: string): (t: Tree)
    ensures TreeOk(t) && t.Branch? && t.node == StreamList(genre, "", "") && |t.kids| == |dir(genre)|
    ensures forall k :: 0 <= k < |t.kids| ==> t.kids[k] == Leaf(ShoutcastNode(dir(genre)[k], genre))
  {
    Branch(StreamList(genre, "", ""),
           seq(|dir(genre)|, k requires 0 <= k < |dir(genre)| => Leaf(ShoutcastNode(dir(genre)[k], genre))))
  }

  /** `init_shoutcast`: the Shoutcast list holding one Genres list, which holds one list per genre. */
  function ShoutcastTree(genres: seq<string>, dir: Directory): (t: Tree)
    ensures TreeOk(t) && t.Branch? && t.node == StreamList("Shoutcast", "SC", "Shoutcast radio directory")
    ensures |t.kids| == 1 && t.kids[0].Branch?
    ensures t.kids[0].node == StreamList("Genres", "Gnr", "Shoutcast radio directory genres")
    ensures |t.kids[0].kids| == |genres|
    ensures forall k :: 0 <= k < |genres| ==> t.kids[0].kids[k] == GenreTree(dir, genres[k])
  {
    Branch(StreamList("Shoutcast", "SC", "Shoutcast radio directory"), [
      Branch(StreamList("Genres", "Gnr", "Shoutcast radio directory genres"),
             seq(|genres|, k requires 0 <= k < |genres| => GenreTree(dir, genres[k])))])
  }

  /** `first`, followed by `second` when `withSecond` and by `last` when `withLast`. */
  function OptionalAfter<T>(first: T, second: T, last: T, withSecond: bool, withLast: bool): (r: seq<T>)
    ensures |r| == 1 + (if withSecond then 1 else 0) + (if withLast then 1 else 0)
    ensures r[0] == first && (withSecond ==> r[1] == second) && (withLast ==> r[|r| - 1] == last)
  {
    [first] + (if withSecond then [second] else []) + (if withLast then [last] else [])
  }

  /**
   * The lists the constructor adds after Favorites: Custom always, then
   * Community Radio and Shoutcast each only when its feature is enabled.
   */
  function SubMenus(crd: bool, shoutcast: bool, genres: seq<string>, dir: Directory): (r: seq<Tree>)
    ensures |r| == 1 + (if crd then 1 else 0) + (if shoutcast then 1 else 0)
    ensures r[0] == CustomTree()
    ensures crd ==> r[1] == CrdTree()
    ensures shoutcast ==> r[|r| - 1] == ShoutcastTree(genres, dir)
  {
    OptionalAfter(CustomTree(), CrdTree(), ShoutcastTree(genres, dir), crd, shoutcast)
  }

  /** What holds of each of the three candidates holds of every element picked. */
  lemma OptionalAfterAll<T>(first: T, second: T, last: T, withSecond: bool, withLast: bool, p: T -> bool)
    requires p(first) && p(second) && p(last)
    ensures var r := OptionalAfter(first, second, last, withSecond, withLast);
            forall k :: 0 <= k < |r| ==> p(r[k])
  {
  }

  /** Every sub-menu is a tree of fresh nodes, lists above and streams below. */
  lemma SubMenusOk(crd: bool, shoutcast: bool, genres: seq<string>, dir: Directory)
    ensures var r := SubMenus(crd, shoutcast, genres, dir);
            forall k :: 0 <= k < |r| ==> TreeOk(r[k])
  {
    OptionalAfterAll(CustomTree(), CrdTree(), ShoutcastTree(genres, dir), crd, shoutcast, t => TreeOk(t));
  }

  /**
   * `StreamingComponent.__init__`: an audio component whose requirements are
   * always met, its Favorites list tagged and loaded, then its sub-menus. A
   * record that cannot be loaded stops the constructor with its error.
   */
  method NewComponent(arena: Arena, file: SavedFile, crd: bool, shoutcast: bool, genres: seq<string>, dir: Directory)
    returns (comp: NodeId, favs: NodeId, menus: seq<NodeId>, error: Option<Fault>)
    requires arena.Valid()
    modifies arena
    ensures arena.Valid() && IsAudio(arena.nodes, comp) && FavoritesOf(arena.nodes, comp) == favs
    ensures comp !in old(arena.nodes) && arena.nodes[comp].kind.role == Audio(favs, true)
    ensures arena.nodes[comp].component == Tag && arena.nodes[comp].parent.None?
    ensures arena.nodes[comp].labels == MakeLabels("Streaming", "Str", "Streaming Audio Services")
    ensures arena.nodes[favs].component == Tag
    ensures arena.nodes[favs].parent == Some(comp) && arena.nodes[favs].kind.role == Ordinary
    ensures arena.nodes[favs].labels == MakeLabels("Favorites", "Fav", "Streaming Favorites")
    ensures file.Saved? ==> error == LoadNodes(FromRecord, file.records).1
    ensures !file.Saved? ==> error == None && Children(arena.nodes, favs) == []
    ensures error.Some? ==> menus == [] && Children(arena.nodes, comp) == [favs]
    ensures error == None ==> Children(arena.nodes, comp) == [favs] + menus
    ensures error == None ==> |menus| == |SubMenus(crd, shoutcast, genres, dir)|
    ensures error == None ==> forall k :: 0 <= k < |menus| ==>
              Shape(arena.nodes, menus[k], SubMenus(crd, shoutcast, genres, dir)[k], comp, old(arena.next))
    ensures old(arena.nodes).Keys <= arena.nodes.Keys
    ensures forall k :: k in old(arena.nodes) ==> arena.nodes[k] == old(arena.nodes)[k]
  {
    FromRecordOk();
    comp, favs, error := StartAudioComponent(arena, "Streaming", "Str", "Streaming Audio Services", Tag, true,
                                             "Streaming Favorites", file, FromRecord);
    menus := [];
    if error.None? {
      ghost var started := arena.nodes;
      ghost var startedNext := arena.next;
      var trees := SubMenus(crd, shoutcast, genres, dir);
      SubMenusOk(crd, shoutcast, genres, dir);
      menus := Populate(arena, comp, trees);
      assert arena.nodes[favs] == started[favs];
      forall k | k in old(arena.nodes) ensures arena.nodes[k] == old(arena.nodes)[k] {
        assert k != comp;
        assert arena.nodes[k] == started[k];
      }
      forall k | 0 <= k < |menus| ensures Shape(arena.nodes, menus[k], trees[k], comp, old(arena.next)) {
        ShapeWeaken(arena.nodes, menus[k], trees[k], comp, startedNext, old(arena.next));
      }
    }
  }
}
