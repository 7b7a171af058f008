/**
 * The boodler component of components/boodler.py: generated soundscapes,
 * each played by running the `boodler` program on a package and an agent.
 * The process handle a soundscape keeps while it plays is modelled as the
 * process id the system handed out, which is a parameter.
 */
module Boodler {

  import opened Wrappers
  import opened Text
  import opened MenuTree
  import opened MenuBuild
  import opened Records

  const Tag := "boodler"

  /** `BoodlerMenuList(name, short_name, comment)`. */
  function BoodlerList(name: string, shortName: string, comment: string): (n: Node)
    ensures Blank(n) && n.kind.List? && n.component == Tag && n.labels == MakeLabels(name, shortName, comment)
  {
    ListNode(name, shortName, comment, Tag, Ordinary)
  }

  /** `BoodlerOpus(name, comment, package, agent)`: no capability, and no process yet. */
  function SoundscapeNode(name: string, comment: string, package: string, agent: string): (n: Node)
    ensures Blank(n) && n.kind.Playable? && n.component == Tag
    ensures n.labels == MakeLabels(name, "", comment)
    ensures n.kind.opus == BaseOpus(Soundscape(package, agent, None))
  {
    OpusNode(name, "", comment, Tag, BaseOpus(Soundscape(package, agent, None)))
  }

  predicate IsSoundscape(n: Node) {
    n.kind.Playable? && n.kind.opus.payload.Soundscape?
  }

  /** The shell command that plays a soundscape: `boodler <package>/<agent>`. */
  function Command(n: Node): (c: string)
    requires IsSoundscape(n)
    ensures var p := n.kind.opus.payload;
            |c| == 9 + |p.package| + |p.agent| && c[..8] == "boodler "
    ensures var p := n.kind.opus.payload;
            c[8 + |p.package|] == '/' && c[9 + |p.package|..] == p.agent
  {
    var p := n.kind.opus.payload;
    "boodler " + p.package + "/" + p.agent
  }

  /** Package names hold no `/`, so the command names its package and agent unambiguously. */
  lemma CommandNamesPackage(n: Node)
    requires IsSoundscape(n) && '/' !in n.kind.opus.payload.package
    ensures var p := n.kind.opus.payload;
            BeforeFirst(Command(n)[8..], '/') == p.package && Command(n)[9 + |p.package|..] == p.agent
  {
    var p := n.kind.opus.payload;
    assert Command(n)[8..] == p.package + ['/'] + p.agent;
    BeforeFirstOfJoin(p.package, '/', p.agent);
  }

  /** `opus_play`: the handle of the new process replaces whatever handle was kept before. */
  function Started(n: Node, pid: nat): (r: Node)
    requires IsSoundscape(n)
    ensures IsSoundscape(r) && r.kind.opus.payload.process == Some(pid)
    ensures r.labels == n.labels && r.component == n.component && r.parent == n.parent
    ensures r.kind.opus == n.kind.opus.(payload := r.kind.opus.payload)
    ensures r.kind.opus.payload.package == n.kind.opus.payload.package
    ensures r.kind.opus.payload.agent == n.kind.opus.payload.agent
  {
    var p := n.kind.opus.payload;
    n.(kind := Playable(n.kind.opus.(payload := Soundscape(p.package, p.agent, Some(pid)))))
  }

  /**
   * `opus_stop`: kill the process only when a handle is kept, then forget it.
   * The result is the soundscape afterwards and the process killed, if any.
   */
  function Stopped(n: Node): (r: (Node, Option<nat>))
    requires IsSoundscape(n)
    ensures IsSoundscape(r.0) && r.0.kind.opus.payload.process == None
    ensures r.1 == n.kind.opus.payload.process
    ensures n.kind.opus.payload.process == None ==> r.0 == n
    ensures r.0.labels == n.labels && r.0.component == n.component && r.0.parent == n.parent
    ensures r.0.kind.opus == n.kind.opus.(payload := r.0.kind.opus.payload)
    ensures r.0.kind.opus.payload.package == n.kind.opus.payload.package
    ensures r.0.kind.opus.payload.agent == n.kind.opus.payload.agent
  {
    var p := n.kind.opus.payload;
    match p.process
    case None => (n, None)
    case Some(pid) => (n.(kind := Playable(n.kind.opus.(payload := Soundscape(p.package, p.agent, None)))), Some(pid))
  }

  /** Stopping twice kills at most once: the second stop finds no handle and changes nothing. */
  lemma StopTwice(n: Node)
    requires IsSoundscape(n)
    ensures Stopped(Stopped(n).0) == (Stopped(n).0, None)
  {
  }

  /** Stopping what was just started kills exactly that process and restores the stopped soundscape. */
  lemma StopAfterStart(n: Node, pid: nat)
    requires IsSoundscape(n)
    ensures Stopped(Started(n, pid)) == (Stopped(n).0, Some(pid))
  {
  }

  /** `opus_stop` on a soundscape of the arena. */
  method Stop(arena: Arena, id: NodeId) returns (killed: Option<nat>)
    requires arena.Valid() && id in arena.nodes && IsSoundscape(arena.nodes[id])
    modifies arena
    ensures arena.Valid() && arena.next == old(arena.next)
    ensures killed == old(arena.nodes)[id].kind.opus.payload.process
    ensures arena.nodes == old(arena.nodes)[id := Stopped(old(arena.nodes)[id]).0]
  {
    var r := Stopped(arena.nodes[id]);
    arena.Store(id, r.0);
    killed := r.1;
  }

  /** `opus_play` on a soundscape of the arena; `pid` is the process the system started. */
  method Play(arena: Arena, id: NodeId, pid: nat) returns (command: string)
    requires arena.Valid() && id in arena.nodes && IsSoundscape(arena.nodes[id])
    modifies arena
    ensures arena.Valid() && arena.next == old(arena.next)
    ensures command == Command(old(arena.nodes)[id])
    ensures arena.nodes == old(arena.nodes)[id := Started(old(arena.nodes)[id], pid)]
  {
    command := Command(arena.nodes[id]);
    arena.Store(id, Started(arena.nodes[id], pid));
  }

  // ---------------------------------------------------------------------------
  // Favorites records

  /**
   * One record of `load_favorites`: every record becomes a soundscape,
   * whatever its type; a missing key raises KeyError, which escapes.
   */
  function FromRecord(rec: Record): (r: Outcome<Option<Node>>)
    ensures r.Done? <==> forall key :: key in ["name", "comment", "package", "agent"] ==> key in rec && rec[key].Str?
    ensures r.Done? ==> r.value.Some? && Detached(r.value.value)
    ensures r.Done? ==> r.value.value == SoundscapeNode(rec["name"].s, rec["comment"].s, rec["package"].s, rec["agent"].s)
    ensures r.Raised? ==> r.fault == KeyError
  {
    match TextField(rec, "name")
    case Raised(f) => Raised(f)
    case Done(name) =>
      match TextField(rec, "comment")
      case Raised(f) => Raised(f)
      case Done(comment) =>
        match TextField(rec, "package")
        case Raised(f) => Raised(f)
        case Done(package) =>
          match TextField(rec, "agent")
          case Raised(f) => Raised(f)
          case Done(agent) => Done(Some(SoundscapeNode(name, comment, package, agent)))
  }

  lemma FromRecordOk()
    ensures LoaderOk(FromRecord)
  {
  }

  /** A soundscape as the component built it, possibly started since. */
  predicate Built(n: Node) {
    && IsSoundscape(n) && "name" in n.labels && "comment" in n.labels
    && var p := n.kind.opus.payload;
       Stopped(n).0.(parent := None) == SoundscapeNode(n.labels["name"], n.labels["comment"], p.package, p.agent)
  }

  /** `opus_get_metadata` and `load_favorites` are inverse, up to the process, which is not saved. */
  lemma RecordRoundTrip(n: Node)
    requires Built(n)
    ensures Metadata(n).Done? && Metadata(n).value["type"] == Str("soundscape")
    ensures Metadata(n).value.Keys == {"component", "type", "name", "comment", "package", "agent"}
    ensures FromRecord(Metadata(n).value) == Done(Some(Stopped(n).0.(parent := None)))
  {
  }

  /** Saving a Favorites list of stopped soundscapes and loading it back rebuilds the same list. */
  lemma FavoritesRoundTrip(nodes: Nodes, ids: seq<NodeId>)
    requires WellFormed(nodes)
    requires forall i :: 0 <= i < |ids| ==>
               ids[i] in nodes && Built(nodes[ids[i]]) && nodes[ids[i]].kind.opus.payload.process.None?
    ensures RecordsOf(nodes, ids).Done?
    ensures LoadNodes(FromRecord, RecordsOf(nodes, ids).value) == (Detach(nodes, ids), None)
  {
    forall i | 0 <= i < |ids|
      ensures FromRecord(Metadata(nodes[ids[i]]).value) == Done(Some(nodes[ids[i]].(parent := None)))
    {
      RecordRoundTrip(nodes[ids[i]]);
    }
    SaveThenLoad(nodes, ids, FromRecord);
  }

  /**
   * `save_favorites` as written: it asks each favorite for `get_metadata`,
   * which no node has, so any non-empty list raises AttributeError before
   * the file is opened; only an empty list is written.
   */
  function SaveAsWritten(file: SavedFile, ids: seq<NodeId>): (r: (SavedFile, Option<Fault>))
    ensures ids == [] ==> r == (Saved([]), None)
    ensures ids != [] ==> r == (file, Some(AttributeError))
  {
    if ids == [] then (Saved([]), None) else (file, Some(AttributeError))
  }

  /**
   * The input that shows it: a Favorites list holding one stopped
   * soundscape. As written, saving raises and leaves the file as it was, so
   * a reload loses the favorite; saving its records, as the other
   * components do, brings it back.
   */
  lemma SaveAsWrittenLosesFavorite(id: NodeId)
    ensures var nodes := map[id := SoundscapeNode("Crows", "A Parliament of Crows.", "com.eblong.zarf.crows",
                                                  "ParliamentOfCrows")];
            && SaveAsWritten(Missing, [id]) == (Missing, Some(AttributeError))
            && WriteFile(Missing, RecordsOf(nodes, [id])).Saved?
            && LoadNodes(FromRecord, WriteFile(Missing, RecordsOf(nodes, [id])).records) == ([nodes[id]], None)
  {
    var nodes := map[id := SoundscapeNode("Crows", "A Parliament of Crows.", "com.eblong.zarf.crows",
                                          "ParliamentOfCrows")];
    assert WellFormed(nodes);
    FavoritesRoundTrip(nodes, [id]);
    assert Detach(nodes, [id]) == [nodes[id]];
  }

  // ---------------------------------------------------------------------------
  // The constructor

  /** The two soundscapes the constructor offers under Available. */
  function AvailableTree(): (t: Tree)
    ensures TreeOk(t) && t.Branch? && t.node == BoodlerList("Available", "Avbl", "My custom stations")
    ensures t.kids == [Leaf(SoundscapeNode("Crows", "A Parliament of Crows.", "com.eblong.zarf.crows", "ParliamentOfCrows")),
                       Leaf(SoundscapeNode("Thunderstorms.", "A storm an hour.", "com.eblong.ow.storm", "RainForever"))]
  {
    Branch(BoodlerList("Available", "Avbl", "My custom stations"),
           [Leaf(SoundscapeNode("Crows", "A Parliament of Crows.", "com.eblong.zarf.crows", "ParliamentOfCrows")),
            Leaf(SoundscapeNode("Thunderstorms.", "A storm an hour.", "com.eblong.ow.storm", "RainForever"))])
  }

  /**
   * `BoodlerComponent.__init__`: an audio component whose requirements are
   * always met, its Favorites list tagged and loaded, then the Available
   * list. A record that cannot be loaded stops the constructor with its error.
   */
  method NewComponent(arena: Arena, file: SavedFile) returns (comp: NodeId, favs: NodeId, available: NodeId, error: Option<Fault>)
    requires arena.Valid()
    modifies arena
    ensures arena.Valid() && IsAudio(arena.nodes, comp) && FavoritesOf(arena.nodes, comp) == favs
    ensures comp !in old(arena.nodes) && arena.nodes[comp].kind.role == Audio(favs, true)
    ensures arena.nodes[comp].component == Tag && arena.nodes[comp].parent.None?
    ensures arena.nodes[comp].labels == MakeLabels("Boodler", "Boo", "Generated Soundscapes")
    ensures arena.nodes[favs].component == Tag
    ensures arena.nodes[favs].parent == Some(comp) && arena.nodes[favs].kind.role == Ordinary
    ensures arena.nodes[favs].labels == MakeLabels("Favorites", "Fav", "Boodler Favorites")
    ensures file.Saved? ==> error == LoadNodes(FromRecord, file.records).1
    ensures !file.Saved? ==> error == None && Children(arena.nodes, favs) == []
    ensures error.Some? ==> Children(arena.nodes, comp) == [favs]
    ensures error == None ==> Children(arena.nodes, comp) == [favs, available]
    ensures error == None ==> Shape(arena.nodes, available, AvailableTree(), comp, old(arena.next))
    ensures old(arena.nodes).Keys <= arena.nodes.Keys
    ensures forall k :: k in old(arena.nodes) ==> arena.nodes[k] == old(arena.nodes)[k]
  {
    FromRecordOk();
    comp, favs, error := StartAudioComponent(arena, "Boodler", "Boo", "Generated Soundscapes", Tag, true,
                                             "Boodler Favorites", file, FromRecord);
    available := comp;
    if error.None? {
      ghost var started := arena.nodes;
      ghost var startedNext := arena.next;
      var ids := Populate(arena, comp, [AvailableTree()]);
      available := ids[0];
      assert arena.nodes[favs] == started[favs];
      forall k | k in old(arena.nodes) ensures arena.nodes[k] == old(arena.nodes)[k] {
        assert k != comp;
        assert arena.nodes[k] == started[k];
      }
      ShapeWeaken(arena.nodes, available, AvailableTree(), comp, startedNext, old(arena.next));
    }
  }
}
