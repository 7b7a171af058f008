/**
 * The library component of components/library.py: locally stored music
 * played through MPD. Its operai are playlists and "slices" (the result of
 * an MPD `findadd` on a list of search terms); its menus are rebuilt from
 * the MPD catalogue, which the model takes as a parameter.
 */
module Library {

  import opened Wrappers
  import opened Text
  import opened MenuTree
  import opened MenuBuild
  import opened Records

  const Tag := "library"

  /** `LibraryMenuList(name, "", "")`, the lists the refreshes create. */
  function LibList(name: string): (n: Node)
    ensures Blank(n) && n.kind.List? && n.component == Tag && n.labels == MakeLabels(name, "", "")
  {
    ListNode(name, "", "", Tag, Ordinary)
  }

  /**
   * `PlaylistOpus(name)`: pause is supported, nothing else; `repeat` starts
   * as the string "none" (its `random = "none"` sets an attribute nothing
   * reads, so `shuffle` keeps the base class's 0).
   */
  function PlaylistNode(name: string): (n: Node)
    ensures Blank(n) && n.kind.Playable? && n.component == Tag && n.labels == MakeLabels(name, "", "")
    ensures var o := n.kind.opus;
            o.pauseSupport && !o.repeatSupport && !o.shuffleSupport &&
            o.repeat == Word("none") && o.repeat.Truthy() && o.shuffle == Num(0) && o.payload == Playlist
  {
    OpusNode(name, "", "", Tag, Opus(false, Num(0), false, Word("none"), true, Playlist))
  }

  /** `SliceOpus(name, terms)`: pause, repeat and shuffle are all supported; both settings start at 0. */
  function SliceNode(name: string, terms: seq<string>): (n: Node)
    ensures Blank(n) && n.kind.Playable? && n.component == Tag && n.labels == MakeLabels(name, "", "")
    ensures var o := n.kind.opus;
            o.pauseSupport && o.repeatSupport && o.shuffleSupport &&
            !o.repeat.Truthy() && !o.shuffle.Truthy() && o.payload == Slice(terms)
  {
    OpusNode(name, "", "", Tag, Opus(true, Num(0), true, Num(0), true, Slice(terms)))
  }

  /**
   * One record of `load_favorites`: a playlist or a slice by its `type`,
   * any other type skipped; a missing key raises KeyError, which the
   * loader does not catch.
   */
  function FromRecord(rec: Record): (r: Outcome<Option<Node>>)
    ensures "type" !in rec ==> r == Raised(KeyError)
    ensures r.Done? && r.value.Some? ==> Detached(r.value.value)
    ensures r == Done(None) <==> "type" in rec && rec["type"] != Str("playlist") && rec["type"] != Str("slice")
    ensures "type" in rec && rec["type"] == Str("playlist") && "name" in rec && rec["name"].Str? ==>
              r == Done(Some(PlaylistNode(rec["name"].s)))
    ensures "type" in rec && rec["type"] == Str("slice") && "name" in rec && rec["name"].Str? &&
            "terms" in rec && rec["terms"].Strs? ==>
              r == Done(Some(SliceNode(rec["name"].s, rec["terms"].items)))
    ensures "type" in rec && (rec["type"] == Str("playlist") || rec["type"] == Str("slice")) &&
            !("name" in rec && rec["name"].Str?) ==>
              r == Raised(KeyError)
    ensures "type" in rec && rec["type"] == Str("slice") && !("terms" in rec && rec["terms"].Strs?) ==>
              r == Raised(KeyError)
  {
    if "type" !in rec then Raised(KeyError)
    else if rec["type"] == Str("playlist") then
      match TextField(rec, "name")
      case Raised(f) => Raised(f)
      case Done(name) => Done(Some(PlaylistNode(name)))
    else if rec["type"] == Str("slice") then
      match TextField(rec, "name")
      case Raised(f) => Raised(f)
      case Done(name) =>
        match ListField(rec, "terms")
        case Raised(f) => Raised(f)
        case Done(terms) => Done(Some(SliceNode(name, terms)))
    else Done(None)
  }

  lemma FromRecordOk()
    ensures LoaderOk(FromRecord)
  {
  }

  /** An opus exactly as the library built it (settings not toggled since). */
  predicate Built(n: Node) {
    && n.kind.Playable? && "name" in n.labels
    && match n.kind.opus.payload
       case Playlist => n.(parent := None) == PlaylistNode(n.labels["name"])
       case Slice(terms) => n.(parent := None) == SliceNode(n.labels["name"], terms)
       case _ => false
  }

  /** `opus_get_metadata` and `load_favorites` are inverse on the library's operai. */
  lemma RecordRoundTrip(n: Node)
    requires Built(n)
    ensures "comment" in n.labels && Metadata(n).Done?
    ensures FromRecord(Metadata(n).value) == Done(Some(n.(parent := None)))
  {
  }

  /** `save_favorites` then `load_favorites` rebuilds the same Favorites list. */
  lemma FavoritesRoundTrip(nodes: Nodes, ids: seq<NodeId>)
    requires WellFormed(nodes) && forall i :: 0 <= i < |ids| ==> ids[i] in nodes && Built(nodes[ids[i]])
    ensures RecordsOf(nodes, ids).Done?
    ensures LoadNodes(FromRecord, RecordsOf(nodes, ids).value) == (Detach(nodes, ids), None)
  {
    forall i | 0 <= i < |ids|
      ensures FromRecord(Metadata(nodes[ids[i]]).value) == Done(Some(nodes[ids[i]].(parent := None)))
    {
      RecordRoundTrip(nodes[ids[i]]);
    }
    SaveThenLoad(nodes, ids, FromRecord);
  }

  // ---------------------------------------------------------------------------
  // Next and previous

  /** The answer of MPD's `status` command; an empty map when the call failed. */
  type Status = map<string, string>

  datatype MpdCall = Next | Previous | SeekCur(position: nat)

  /** `SliceOpus._opus_next`: skip only when MPD reports a next song. */
  function NextCall(status: Status): (r: Option<MpdCall>)
    ensures r.Some? <==> "nextsong" in status
    ensures r.Some? ==> r.value == Next
  {
    if "nextsong" in status then Some(Next) else None
  }

  /**
   * `SliceOpus._opus_previous`: more than 5 seconds into the track restarts
   * it, otherwise go back a track; no `time` in the status does nothing. The
   * elapsed seconds are the text before the first `:`, and `int` raises
   * ValueError on anything that is not a number.
   */
  function PreviousCall(status: Status): (r: Outcome<Option<MpdCall>>)
    ensures "time" !in status ==> r == Done(None)
    ensures r.Raised? ==> r.fault == ValueError
    ensures r.Done? && r.value.Some? ==> "time" in status
  {
    if "time" !in status then Done(None)
    else
      match ParseInt(BeforeFirst(status["time"], ':'))
      case None => Raised(ValueError)
      case Some(elapsed) => Done(Some(if elapsed > 5 then SeekCur(0) else Previous))
  }

  /** With MPD's `elapsed:total` time, the rule is decided by the elapsed seconds alone. */
  lemma PreviousByElapsed(elapsed: nat, total: string, status: Status)
    requires "time" in status && status["time"] == NatToString(elapsed) + ":" + total
    ensures PreviousCall(status) == Done(Some(if elapsed > 5 then SeekCur(0) else Previous))
  {
    var e := NatToString(elapsed);
    assert ':' !in e;
    BeforeFirstOfJoin(e, ':', total);
    ParseIntOfNatToString(elapsed);
  }

  // ---------------------------------------------------------------------------
  // The menus rebuilt from the catalogue

  /** The answers of MPD's `list` command, by query (`['album', 'genre', g]` and so on). */
  type Catalogue = seq<string> -> seq<string>

  /**
   * One slice leaf per album; its search terms are the album between `lead`
   * and `scope` (a genre puts itself first, an artist after the album).
   */
  function AlbumLeaves(albums: seq<string>, lead: seq<string>, scope: seq<string>): (r: seq<Tree>)
    ensures |r| == |albums|
    ensures forall k :: 0 <= k < |r| ==> r[k] == Leaf(SliceNode(albums[k], lead + ["album", albums[k]] + scope)) && TreeOk(r[k])
  {
    seq(|albums|, k requires 0 <= k < |albums| => Leaf(SliceNode(albums[k], lead + ["album", albums[k]] + scope)))
  }

  /**
   * An artist's menu: all their songs, then a "By Album" list; `scope` is
   * `['genre', g]` under a genre and empty under Artists.
   */
  function ArtistTree(cat: Catalogue, artist: string, scope: seq<string>): (t: Tree)
    ensures TreeOk(t) && t.Branch? && t.node == LibList(artist) && |t.kids| == 2
    ensures t.kids[0] == Leaf(SliceNode("All songs by " + artist, ["artist", artist] + scope))
    ensures t.kids[1].Branch? && t.kids[1].node == LibList("By Album")
    ensures t.kids[1].kids == AlbumLeaves(cat(["album", "artist", artist] + scope), [], ["artist", artist] + scope)
  {
    Branch(LibList(artist), [
      Leaf(SliceNode("All songs by " + artist, ["artist", artist] + scope)),
      Branch(LibList("By Album"), AlbumLeaves(cat(["album", "artist", artist] + scope), [], ["artist", artist] + scope))])
  }

  function ArtistTrees(cat: Catalogue, artists: seq<string>, scope: seq<string>): (r: seq<Tree>)
    ensures |r| == |artists|
    ensures forall k :: 0 <= k < |r| ==> r[k] == ArtistTree(cat, artists[k], scope) && TreeOk(r[k])
  {
    seq(|artists|, k requires 0 <= k < |artists| => ArtistTree(cat, artists[k], scope))
  }

  /** A genre's menu: all its songs, then its albums, then its artists. */
  function GenreTree(cat: Catalogue, genre: string): (t: Tree)
    ensures TreeOk(t) && t.Branch? && t.node == LibList(genre) && |t.kids| == 3
    ensures t.kids[0] == Leaf(SliceNode("All songs in " + genre, ["genre", genre]))
    ensures t.kids[1].Branch? && t.kids[1].node == LibList("By Album")
    ensures t.kids[1].kids == AlbumLeaves(cat(["album", "genre", genre]), ["genre", genre], [])
    ensures t.kids[2].Branch? && t.kids[2].node == LibList("By Artist")
    ensures t.kids[2].kids == ArtistTrees(cat, cat(["artist", "genre", genre]), ["genre", genre])
  {
    Branch(LibList(genre), [
      Leaf(SliceNode("All songs in " + genre, ["genre", genre])),
      Branch(LibList("By Album"), AlbumLeaves(cat(["album", "genre", genre]), ["genre", genre], [])),
      Branch(LibList("By Artist"), ArtistTrees(cat, cat(["artist", "genre", genre]), ["genre", genre]))])
  }

  function GenreTrees(cat: Catalogue, genres: seq<string>): (r: seq<Tree>)
    ensures |r| == |genres|
    ensures forall k :: 0 <= k < |r| ==> r[k] == GenreTree(cat, genres[k]) && TreeOk(r[k])
  {
    seq(|genres|, k requires 0 <= k < |genres| => GenreTree(cat, genres[k]))
  }

  function PlaylistLeaves(names: seq<string>): (r: seq<Tree>)
    ensures |r| == |names|
    ensures forall k :: 0 <= k < |r| ==> r[k] == Leaf(PlaylistNode(names[k])) && TreeOk(r[k])
  {
    seq(|names|, k requires 0 <= k < |names| => Leaf(PlaylistNode(names[k])))
  }

  /** The nodes the library component keeps references to. */
  datatype Menus = Menus(comp: NodeId, favs: NodeId, playlists: NodeId, genres: NodeId,
                         artists: NodeId, albums: NodeId)

  /** `refresh_playlists`: the Playlists menu becomes one playlist opus per stored playlist, in MPD's order. */
  method RefreshPlaylists(arena: Arena, node: NodeId, stored: seq<string>) returns (ids: seq<NodeId>)
    requires arena.Valid() && IsList(arena.nodes, node)
    modifies arena
    ensures old(arena.next) <= arena.next
    ensures arena.Valid() && IsList(arena.nodes, node) && Children(arena.nodes, node) == ids
    ensures |ids| == |stored|
    ensures forall k :: 0 <= k < |ids| ==> arena.nodes[ids[k]] == PlaylistNode(stored[k]).(parent := Some(node))
    ensures Realised(arena.nodes, node, PlaylistLeaves(stored), old(arena.next))
    ensures old(arena.nodes).Keys <= arena.nodes.Keys
    ensures forall k :: k in old(arena.nodes) && k != node ==> arena.nodes[k] == old(arena.nodes)[k]
  {
    ids := Repopulate(arena, node, PlaylistLeaves(stored));
  }

  /** `refresh_genres`: one menu per genre, each shaped as `GenreTree` says. */
  method RefreshGenres(arena: Arena, node: NodeId, cat: Catalogue) returns (ids: seq<NodeId>)
    requires arena.Valid() && IsList(arena.nodes, node)
    modifies arena
    ensures old(arena.next) <= arena.next
    ensures arena.Valid() && IsList(arena.nodes, node) && Children(arena.nodes, node) == ids
    ensures |ids| == |cat(["genre"])|
    ensures forall k :: 0 <= k < |ids| ==> Shape(arena.nodes, ids[k], GenreTree(cat, cat(["genre"])[k]), node, old(arena.next))
    ensures Realised(arena.nodes, node, GenreTrees(cat, cat(["genre"])), old(arena.next))
    ensures old(arena.nodes).Keys <= arena.nodes.Keys
    ensures forall k :: k in old(arena.nodes) && k != node ==> arena.nodes[k] == old(arena.nodes)[k]
  {
    ids := Repopulate(arena, node, GenreTrees(cat, cat(["genre"])));
  }

  /** `refresh_artists`: one menu per artist, each shaped as `ArtistTree` says. */
  method RefreshArtists(arena: Arena, node: NodeId, cat: Catalogue) returns (ids: seq<NodeId>)
    requires arena.Valid() && IsList(arena.nodes, node)
    modifies arena
    ensures old(arena.next) <= arena.next
    ensures arena.Valid() && IsList(arena.nodes, node) && Children(arena.nodes, node) == ids
    ensures |ids| == |cat(["artist"])|
    ensures forall k :: 0 <= k < |ids| ==> Shape(arena.nodes, ids[k], ArtistTree(cat, cat(["artist"])[k], []), node, old(arena.next))
    ensures Realised(arena.nodes, node, ArtistTrees(cat, cat(["artist"]), []), old(arena.next))
    ensures old(arena.nodes).Keys <= arena.nodes.Keys
    ensures forall k :: k in old(arena.nodes) && k != node ==> arena.nodes[k] == old(arena.nodes)[k]
  {
    ids := Repopulate(arena, node, ArtistTrees(cat, cat(["artist"]), []));
  }

  /** `refresh_albums`: one slice per album, searching by the album alone. */
  method RefreshAlbums(arena: Arena, node: NodeId, cat: Catalogue) returns (ids: seq<NodeId>)
    requires arena.Valid() && IsList(arena.nodes, node)
    modifies arena
    ensures old(arena.next) <= arena.next
    ensures arena.Valid() && IsList(arena.nodes, node) && Children(arena.nodes, node) == ids
    ensures |ids| == |cat(["album"])|
    ensures forall k :: 0 <= k < |ids| ==>
              arena.nodes[ids[k]] == SliceNode(cat(["album"])[k], ["album", cat(["album"])[k]]).(parent := Some(node))
    ensures Realised(arena.nodes, node, AlbumLeaves(cat(["album"]), [], []), old(arena.next))
    ensures old(arena.nodes).Keys <= arena.nodes.Keys
    ensures forall k :: k in old(arena.nodes) && k != node ==> arena.nodes[k] == old(arena.nodes)[k]
  {
    ids := Repopulate(arena, node, AlbumLeaves(cat(["album"]), [], []));
    forall k | 0 <= k < |ids|
      ensures arena.nodes[ids[k]] == SliceNode(cat(["album"])[k], ["album", cat(["album"])[k]]).(parent := Some(node))
    {
      assert ["album", cat(["album"])[k]] + [] == ["album", cat(["album"])[k]];
    }
  }

  /** List `list` holds one child per tree of `trees`, each realising its tree with ids from `lo` upwards. */
  ghost predicate Realised(nodes: Nodes, list: NodeId, trees: seq<Tree>, lo: nat)
  {
    && IsList(nodes, list) && |Children(nodes, list)| == |trees|
    && forall k :: 0 <= k < |trees| ==> Shape(nodes, Children(nodes, list)[k], trees[k], list, lo)
  }

  /** A realisation from `lo2` upwards is one from any lower bound. */
  lemma RealisedWeaken(nodes: Nodes, list: NodeId, trees: seq<Tree>, lo: nat, lo2: nat)
    requires Realised(nodes, list, trees, lo2) && lo <= lo2
    ensures Realised(nodes, list, trees, lo)
  {
    forall k | 0 <= k < |trees| ensures Shape(nodes, Children(nodes, list)[k], trees[k], list, lo) {
      ShapeWeaken(nodes, Children(nodes, list)[k], trees[k], list, lo2, lo);
    }
  }

  /**
   * A refreshed menu stays as it is while a later refresh rebuilds another
   * menu `node` that existed before it.
   */
  lemma RealisedKept(a: Nodes, b: Nodes, list: NodeId, trees: seq<Tree>, lo: nat, node: NodeId)
    requires Realised(a, list, trees, lo) && node != list && node < lo
    requires forall k :: k in a && k != node ==> k in b && b[k] == a[k]
    ensures Realised(b, list, trees, lo)
  {
    forall k | 0 <= k < |trees| ensures Shape(b, Children(b, list)[k], trees[k], list, lo) {
      ShapeStable(a, b, Children(a, list)[k], trees[k], list, lo);
    }
  }

  /** `refresh_library`: the four refreshes in order, each menu rebuilt to its own shape. */
  method RefreshLibrary(arena: Arena, m: Menus, stored: seq<string>, cat: Catalogue)
    requires arena.Valid()
    requires m.playlists != m.genres && m.playlists != m.artists && m.playlists != m.albums
    requires m.genres != m.artists && m.genres != m.albums && m.artists != m.albums
    requires IsList(arena.nodes, m.playlists) && IsList(arena.nodes, m.genres)
    requires IsList(arena.nodes, m.artists) && IsList(arena.nodes, m.albums)
    modifies arena
    ensures arena.Valid()
    ensures Realised(arena.nodes, m.playlists, PlaylistLeaves(stored), old(arena.next))
    ensures Realised(arena.nodes, m.genres, GenreTrees(cat, cat(["genre"])), old(arena.next))
    ensures Realised(arena.nodes, m.artists, ArtistTrees(cat, cat(["artist"]), []), old(arena.next))
    ensures Realised(arena.nodes, m.albums, AlbumLeaves(cat(["album"]), [], []), old(arena.next))
    ensures forall k :: k in old(arena.nodes) && k !in {m.playlists, m.genres, m.artists, m.albums} ==>
              k in arena.nodes && arena.nodes[k] == old(arena.nodes)[k]
  {
    ghost var lo := arena.next;
    var p := RefreshPlaylists(arena, m.playlists, stored);
    ghost var n1, l1 := arena.nodes, arena.next;
    var g := RefreshGenres(arena, m.genres, cat);
    ghost var n2, l2 := arena.nodes, arena.next;
    RealisedKept(n1, n2, m.playlists, PlaylistLeaves(stored), lo, m.genres);
    RealisedWeaken(n2, m.genres, GenreTrees(cat, cat(["genre"])), lo, l1);
    var a := RefreshArtists(arena, m.artists, cat);
    ghost var n3, l3 := arena.nodes, arena.next;
    RealisedKept(n2, n3, m.playlists, PlaylistLeaves(stored), lo, m.artists);
    RealisedKept(n2, n3, m.genres, GenreTrees(cat, cat(["genre"])), lo, m.artists);
    RealisedWeaken(n3, m.artists, ArtistTrees(cat, cat(["artist"]), []), lo, l2);
    var b := RefreshAlbums(arena, m.albums, cat);
    RealisedKept(n3, arena.nodes, m.playlists, PlaylistLeaves(stored), lo, m.albums);
    RealisedKept(n3, arena.nodes, m.genres, GenreTrees(cat, cat(["genre"])), lo, m.albums);
    RealisedKept(n3, arena.nodes, m.artists, ArtistTrees(cat, cat(["artist"]), []), lo, m.albums);
    RealisedWeaken(arena.nodes, m.albums, AlbumLeaves(cat(["album"]), [], []), lo, l3);
  }

  /**
   * `LibraryComponent.__init__` up to scheduling the refresh: an audio
   * component (whose requirements are always met) with its Favorites list
   * tagged and loaded from the saved file, then the four empty menus. A
   * record that cannot be loaded stops the constructor with its error.
   */
  method NewComponent(arena: Arena, file: SavedFile) returns (m: Menus, error: Option<Fault>)
    requires arena.Valid()
    modifies arena
    ensures arena.Valid() && IsAudio(arena.nodes, m.comp) && FavoritesOf(arena.nodes, m.comp) == m.favs
    ensures m.comp !in old(arena.nodes) && arena.nodes[m.comp].kind.role == Audio(m.favs, true)
    ensures arena.nodes[m.comp].component == Tag && arena.nodes[m.comp].parent.None?
    ensures arena.nodes[m.comp].labels == MakeLabels("Library", "Lib", "Locally Stored Audio")
    ensures arena.nodes[m.favs].component == Tag
    ensures arena.nodes[m.favs].parent == Some(m.comp) && arena.nodes[m.favs].kind.role == Ordinary
    ensures arena.nodes[m.favs].labels == MakeLabels("Favorites", "Fav", "Library Favorites")
    ensures file.Saved? ==> error == LoadNodes(FromRecord, file.records).1
    ensures !file.Saved? ==> error == None && Children(arena.nodes, m.favs) == []
    ensures error == None ==> Children(arena.nodes, m.comp) == [m.favs, m.playlists, m.genres, m.artists, m.albums]
    ensures error == None ==>
              IsList(arena.nodes, m.playlists) && IsList(arena.nodes, m.genres) &&
              IsList(arena.nodes, m.artists) && IsList(arena.nodes, m.albums)
    ensures old(arena.nodes).Keys <= arena.nodes.Keys
    ensures forall k :: k in old(arena.nodes) ==> arena.nodes[k] == old(arena.nodes)[k]
  {
    FromRecordOk();
    var comp, favs;
    comp, favs, error := StartAudioComponent(arena, "Library", "Lib", "Locally Stored Audio", Tag, true,
                                             "Library Favorites", file, FromRecord);
    m := Menus(comp, favs, comp, comp, comp, comp);
    if error.None? {
      ghost var started := arena.nodes;
      var ids := AddMenus(arena, comp);
      assert arena.nodes[favs] == started[favs];
      assert [favs] + ids == [favs, ids[0], ids[1], ids[2], ids[3]];
      m := Menus(comp, favs, ids[0], ids[1], ids[2], ids[3]);
      forall k | k in old(arena.nodes) ensures arena.nodes[k] == old(arena.nodes)[k] {
        assert k != comp;
        assert arena.nodes[k] == started[k];
      }
    }
  }

  /** The four menus the constructor appends after the Favorites list. */
  method AddMenus(arena: Arena, comp: NodeId) returns (ids: seq<NodeId>)
    requires arena.Valid() && IsList(arena.nodes, comp)
    modifies arena
    ensures arena.Valid() && IsList(arena.nodes, comp) && |ids| == 4
    ensures Children(arena.nodes, comp) == Children(old(arena.nodes), comp) + ids
    ensures forall k :: 0 <= k < 4 ==> ids[k] !in old(arena.nodes) && IsList(arena.nodes, ids[k])
    ensures arena.nodes[comp] == old(arena.nodes)[comp].(kind := arena.nodes[comp].kind)
    ensures arena.nodes[comp].kind.role == old(arena.nodes)[comp].kind.role
    ensures old(arena.nodes).Keys <= arena.nodes.Keys
    ensures forall k :: k in old(arena.nodes) && k != comp ==> arena.nodes[k] == old(arena.nodes)[k]
  {
    ids := Populate(arena, comp, [
      Branch(ListNode("Playlists", "Pls", "My playlists.", Tag, Ordinary), []),
      Branch(ListNode("Genres", "Gnr", "Library By Genre", Tag, Ordinary), []),
      Branch(ListNode("Artists", "Art", "Library By Artist", Tag, Ordinary), []),
      Branch(ListNode("Albums", "Alb", "Library By Album", Tag, Ordinary), [])]);
  }
}
