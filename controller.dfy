/**
 * `OpusculeController` of opuscule.py: the command table, component
 * registration at start-up, and the handlers the commands run against the
 * radio state, including adding the playing opus to its component's
 * Favorites and mirroring the change into the super-favorites.
 *
 * The favorites files are a map from component tag to file contents.
 */
module Opuscule {

  import opened Wrappers
  import opened MenuTree
  import opened Records
  import opened RadioParts
  import opened Radio
  import opened SuperFavorites
  import opened MenuBuild
  import opened Registry
  import Library
  import Streaming
  import Boodler

  // ---------------------------------------------------------------------------
  // The command table

  datatype Command =
    | Advance | Retreat | Select | Escape | Shutdown | Play | Pause | Stop | AddFavorite
    | Shuffle | Repeat | Next | Previous | Louder | Softer | Mute | Refresh

  /** The names the controller accepts, in table order. */
  const CommandNames: seq<string> :=
    ["advance", "retreat", "select", "escape", "shutdown", "play", "pause", "stop", "add_favorite",
     "shuffle", "repeat", "next", "previous", "louder", "softer", "mute", "refresh"]

  function NameOf(c: Command): (name: string)
    ensures name in CommandNames
  {
    match c
    case Advance => "advance"
    case Retreat => "retreat"
    case Select => "select"
    case Escape => "escape"
    case Shutdown => "shutdown"
    case Play => "play"
    case Pause => "pause"
    case Stop => "stop"
    case AddFavorite => "add_favorite"
    case Shuffle => "shuffle"
    case Repeat => "repeat"
    case Next => "next"
    case Previous => "previous"
    case Louder => "louder"
    case Softer => "softer"
    case Mute => "mute"
    case Refresh => "refresh"
  }

  /** The `commands` dictionary: a handler for exactly the 17 names of the table. */
  function Lookup(name: string): (r: Option<Command>)
    ensures r.Some? <==> name in CommandNames
    ensures r.Some? ==> NameOf(r.value) == name
  {
    if name == "advance" then Some(Advance)
    else if name == "retreat" then Some(Retreat)
    else if name == "select" then Some(Select)
    else if name == "escape" then Some(Escape)
    else if name == "shutdown" then Some(Shutdown)
    else if name == "play" then Some(Play)
    else if name == "pause" then Some(Pause)
    else if name == "stop" then Some(Stop)
    else if name == "add_favorite" then Some(AddFavorite)
    else if name == "shuffle" then Some(Shuffle)
    else if name == "repeat" then Some(Repeat)
    else if name == "next" then Some(Next)
    else if name == "previous" then Some(Previous)
    else if name == "louder" then Some(Louder)
    else if name == "softer" then Some(Softer)
    else if name == "mute" then Some(Mute)
    else if name == "refresh" then Some(Refresh)
    else None
  }

  /** Every command is found under its own name, so the table has one entry per command. */
  lemma LookupNameOf(c: Command)
    ensures Lookup(NameOf(c)) == Some(c)
  {
  }

  lemma CommandTableSize()
    ensures |CommandNames| == 17
    ensures forall i, j :: 0 <= i < j < |CommandNames| ==> CommandNames[i] != CommandNames[j]
  {
  }

  datatype Reply = Reply(response: string, text: string)

  const Accepted := Reply("OK", "Command accepted.")
  const Unknown := Reply("ERROR", "Unknown command.")

  /** The file a component reads at start-up: none yet unless one was saved under its tag. */
  function FileOf(files: map<string, SavedFile>, tag: string): (f: SavedFile)
    ensures tag !in files ==> f == Missing
  {
    if tag in files then files[tag] else Missing
  }

  /**
   * The for-else search of `do_add_favorite`: the first registered component
   * whose tag is the opus's, or none.
   */
  function Home(nodes: Nodes, regs: seq<NodeId>, tag: string): (r: Option<NodeId>)
    requires forall i :: 0 <= i < |regs| ==> regs[i] in nodes
    ensures r.None? <==> forall i :: 0 <= i < |regs| ==> nodes[regs[i]].component != tag
    ensures r.Some? ==> exists i :: 0 <= i < |regs| && regs[i] == r.value && nodes[regs[i]].component == tag &&
                                     forall j :: 0 <= j < i ==> nodes[regs[j]].component != tag
  {
    if regs == [] then None
    else if nodes[regs[0]].component == tag then Some(regs[0])
    else
      var r := Home(nodes, regs[1..], tag);
      assert r.Some? ==> exists i :: 0 <= i < |regs[1..]| && regs[1..][i] == r.value && nodes[regs[1..][i]].component == tag &&
                                     forall j :: 0 <= j < i ==> nodes[regs[1..][j]].component != tag;
      assert forall i :: 1 <= i < |regs| ==> regs[i] == regs[1..][i - 1];
      r
  }

  /** The components whose favorites are written as records of their operai. */
  const RecordTags := [Library.Tag, Streaming.Tag, Boodler.Tag]

  /** What `save_favorites` collects for an audio component: one record per favorite. */
  function FavoriteRecords(nodes: Nodes, comp: NodeId): Outcome<seq<Record>>
    requires WellFormed(nodes) && IsAudio(nodes, comp)
  {
    RecordsOf(nodes, Children(nodes, FavoritesOf(nodes, comp)))
  }

  /**
   * The saved files after `save_favorites` of a component tagged `tag`: a
   * component that writes records replaces its file when every favorite
   * is an opus and keeps the old one otherwise; no other file changes.
   * Boodler counts as writing records here, as its `save_favorites`
   * intends (`Boodler.SaveAsWritten` is what its code does).
   */
  function SavedFiles(files: map<string, SavedFile>, tag: string, recs: Outcome<seq<Record>>): (r: map<string, SavedFile>)
    ensures tag in RecordTags && recs.Done? ==> tag in r && r[tag] == Saved(recs.value)
    ensures FileOf(r, tag) == (if tag in RecordTags && recs.Done? then Saved(recs.value) else FileOf(files, tag))
    ensures forall t :: t != tag ==> FileOf(r, t) == FileOf(files, t)
  {
    if tag in RecordTags then files[tag := WriteFile(FileOf(files, tag), recs)] else files
  }

  /** The exception `save_favorites` lets through: the one its records raised. */
  function SaveFault(tag: string, recs: Outcome<seq<Record>>): Option<Fault>
  {
    if tag in RecordTags && recs.Raised? then Some(recs.fault) else None
  }

  // ---------------------------------------------------------------------------
  // The components of sdr.py, settings.py and system.py

  /** `FmRadioComponent.__init__` up to its Favorites list; its stations are not part of this model. */
  method NewFmRadio(arena: Arena) returns (comp: NodeId)
    requires arena.Valid()
    modifies arena
    ensures arena.Valid() && comp !in old(arena.nodes) && IsAudio(arena.nodes, comp) && arena.nodes[comp].parent.None?
    ensures arena.nodes[comp].component == "fmradio" && Met(arena.nodes[comp])
    ensures arena.nodes[comp].labels == MakeLabels("FM Radio", "FM", "FM Radio Stations")
    ensures var favs := FavoritesOf(arena.nodes, comp);
            favs !in old(arena.nodes) && favs != comp && arena.nodes[favs].parent == Some(comp) &&
            arena.nodes[favs].kind.role == Ordinary && Children(arena.nodes, favs) == [] &&
            arena.nodes[favs].component == "fmradio"
    ensures forall k :: k in old(arena.nodes) ==> k in arena.nodes && arena.nodes[k] == old(arena.nodes)[k]
  {
    var favs;
    comp, favs := arena.NewAudioComponent("FM Radio", "FM", "FM Radio Stations", "fmradio", true);
    TagFavorites(arena, favs, "FM radio favorites", "fmradio");
  }

  /** `WxRadioComponent.__init__`: an audio component whose requirements are never met. */
  method NewWxRadio(arena: Arena) returns (comp: NodeId)
    requires arena.Valid()
    modifies arena
    ensures arena.Valid() && comp !in old(arena.nodes) && IsAudio(arena.nodes, comp) && arena.nodes[comp].parent.None?
    ensures arena.nodes[comp].component == "wxradio" && !Met(arena.nodes[comp])
    ensures arena.nodes[comp].labels == MakeLabels("WX Radio", "WX", "NOAA Weather Radio Stations")
    ensures var favs := FavoritesOf(arena.nodes, comp);
            favs !in old(arena.nodes) && favs != comp && arena.nodes[favs].parent == Some(comp) &&
            arena.nodes[favs].kind.role == Ordinary && Children(arena.nodes, favs) == [] &&
            arena.nodes[favs].component == "wxradio"
    ensures forall k :: k in old(arena.nodes) ==> k in arena.nodes && arena.nodes[k] == old(arena.nodes)[k]
  {
    var favs;
    comp, favs := arena.NewAudioComponent("WX Radio", "WX", "NOAA Weather Radio Stations", "wxradio", false);
    TagFavorites(arena, favs, "Weather Station Favorites", "wxradio");
  }

  /** `SettingsComponent.__init__`: an empty component whose requirements are never met. */
  method NewSettings(arena: Arena) returns (comp: NodeId)
    requires arena.Valid()
    modifies arena
    ensures arena.Valid() && comp !in old(arena.nodes) && IsList(arena.nodes, comp) && !IsAudio(arena.nodes, comp)
    ensures arena.nodes[comp].parent.None?
    ensures arena.nodes[comp].component == "settings" && !Met(arena.nodes[comp])
    ensures forall k :: k in old(arena.nodes) ==> k in arena.nodes && arena.nodes[k] == old(arena.nodes)[k]
  {
    comp := arena.Alloc(ListNode("Settings", "Set", "System Settings", "settings", Component(false)));
  }

  /** The commands of the system component, in menu order; `execute` only logs, so they do nothing here. */
  const SystemCommands: seq<Node> := [
    CommandNode("Logs", "Log", "Display the logs.").(component := "system"),
    CommandNode("Sleep", "Slp", "Put the system to sleep.").(component := "system"),
    CommandNode("Restart", "Rst", "Restart the system.").(component := "system"),
    CommandNode("Shutdown", "Stdn", "Shutdown the system.").(component := "system")]

  /** Menu trees of one node each. */
  function Leaves(ns: seq<Node>): (r: seq<Tree>)
    ensures |r| == |ns| && forall k :: 0 <= k < |r| ==> r[k] == Leaf(ns[k])
  {
    seq(|ns|, k requires 0 <= k < |ns| => Leaf(ns[k]))
  }

  lemma SystemCommandsOk()
    ensures |SystemCommands| == 4 && forall k :: 0 <= k < 4 ==> TreeOk(Leaves(SystemCommands)[k])
  {
  }

  lemma LeavesPlaced(nodes: Nodes, ids: seq<NodeId>, ns: seq<Node>, p: NodeId, lo: nat)
    requires |ids| == |ns| && forall k :: 0 <= k < |ids| ==> Shape(nodes, ids[k], Leaves(ns)[k], p, lo)
    ensures forall k :: 0 <= k < |ids| ==> ids[k] in nodes && nodes[ids[k]] == ns[k].(parent := Some(p))
  {
    forall k | 0 <= k < |ids| ensures ids[k] in nodes && nodes[ids[k]] == ns[k].(parent := Some(p)) {
      assert Shape(nodes, ids[k], Leaves(ns)[k], p, lo);
    }
  }

  /** `SystemComponent.__init__`: the four commands under a component that is always met. */
  method NewSystem(arena: Arena) returns (comp: NodeId)
    requires arena.Valid()
    modifies arena
    ensures arena.Valid() && comp !in old(arena.nodes) && IsList(arena.nodes, comp) && !IsAudio(arena.nodes, comp)
    ensures arena.nodes[comp].parent.None?
    ensures arena.nodes[comp].component == "system" && Met(arena.nodes[comp])
    ensures arena.nodes[comp].labels == MakeLabels("System", "Sys", "System Commands")
    ensures var kids := Children(arena.nodes, comp);
            |kids| == |SystemCommands| &&
            forall i :: 0 <= i < |kids| ==>
              kids[i] in arena.nodes && arena.nodes[kids[i]] == SystemCommands[i].(parent := Some(comp))
    ensures forall k :: k in old(arena.nodes) ==> k in arena.nodes && arena.nodes[k] == old(arena.nodes)[k]
  {
    comp := arena.Alloc(ListNode("System", "Sys", "System Commands", "system", Component(true)));
    ghost var lo := arena.next;
    SystemCommandsOk();
    var kids := Populate(arena, comp, Leaves(SystemCommands));
    LeavesPlaced(arena.nodes, kids, SystemCommands, comp, lo);
    forall k | k in old(arena.nodes) ensures k in arena.nodes && arena.nodes[k] == old(arena.nodes)[k] {
      assert k != comp;
    }
  }

  /** The error a component's `load_favorites` lets escape from its constructor. */
  function LoadError(load: Loader, file: SavedFile): Option<Fault> {
    if file.Saved? then LoadNodes(load, file.records).1 else None
  }

  /** The error that ends start-up: the first of the library's, streaming's and boodler's. */
  function StartError(files: map<string, SavedFile>): Option<Fault> {
    var e1 := LoadError(Library.FromRecord, FileOf(files, Library.Tag));
    var e2 := LoadError(Streaming.FromRecord, FileOf(files, Streaming.Tag));
    var e3 := LoadError(Boodler.FromRecord, FileOf(files, Boodler.Tag));
    if e1.Some? then e1 else if e2.Some? then e2 else e3
  }

  // ---------------------------------------------------------------------------
  // The controller

  /**
   * `register_component`: a component whose requirements are met is added
   * to the registry `regs` and under root, and an audio component also gets
   * its shadow in the super-favorites; any other component is left out.
   */
  method Register(arena: Arena, root: NodeId, sfavs: NodeId, regs: seq<NodeId>, comp: NodeId) returns (regs': seq<NodeId>)
    requires arena.Valid() && Mirrors(arena.nodes, sfavs, regs) && IsList(arena.nodes, root) && root != sfavs
    requires IsList(arena.nodes, comp) && comp != sfavs && comp != root
    requires IsAudio(arena.nodes, comp) ==>
               FavoritesOf(arena.nodes, comp) != sfavs && arena.nodes[FavoritesOf(arena.nodes, comp)].parent.Some? &&
               !IsShadow(arena.nodes, FavoritesOf(arena.nodes, comp))
    modifies arena
    ensures arena.Valid() && Mirrors(arena.nodes, sfavs, regs') && KeepsRoles(old(arena.nodes), arena.nodes)
    ensures !Met(old(arena.nodes)[comp]) ==> regs' == regs && arena.nodes == old(arena.nodes)
    ensures Met(old(arena.nodes)[comp]) ==>
              && regs' == regs + [comp]
              && Children(arena.nodes, root) == Children(old(arena.nodes), root) + [comp]
              && arena.nodes[comp].parent == Some(root)
    ensures arena.nodes[sfavs].labels == old(arena.nodes)[sfavs].labels
    ensures arena.nodes[sfavs].parent == old(arena.nodes)[sfavs].parent
    ensures |Children(arena.nodes, sfavs)| ==
            |Children(old(arena.nodes), sfavs)| + if Met(old(arena.nodes)[comp]) && IsAudio(old(arena.nodes), comp) then 1 else 0
  {
    regs' := regs;
    if !Met(arena.nodes[comp]) {
      return;
    }
    ghost var before := arena.nodes;
    arena.AddChild(root, comp);
    Attached(before, arena.nodes, root, sfavs, regs, comp);
    if IsAudio(arena.nodes, comp) {
      ghost var added := arena.nodes;
      var sh := AddChildMenu(arena, sfavs, FavoritesOf(arena.nodes, comp));
      ShadowAdded(added, arena.nodes, sfavs, regs, comp, sh);
      KeepsRolesTransitive(before, added, arena.nodes);
      assert arena.nodes[root] == added[root];
      assert arena.nodes[comp] == added[comp];
    } else {
      RegisteredPlain(arena.nodes, sfavs, regs, comp);
    }
    regs' := regs + [comp];
  }

  /** One freshly built component through `register_component` during start-up. */
  method Join(arena: Arena, root: NodeId, sfavs: NodeId, regs: seq<NodeId>, comp: NodeId, ghost shadows: nat)
    returns (regs': seq<NodeId>)
    requires arena.Valid() && Started(arena.nodes, root, sfavs, regs, shadows)
    requires IsList(arena.nodes, comp) && arena.nodes[comp].parent.None? && comp != root
    requires IsAudio(arena.nodes, comp) ==>
               var favs := FavoritesOf(arena.nodes, comp);
               arena.nodes[favs].parent == Some(comp) && arena.nodes[favs].kind.role == Ordinary
    requires Met(arena.nodes[comp]) ==> |regs| < |RegisteredTags| && arena.nodes[comp].component == RegisteredTags[|regs|]
    modifies arena
    ensures arena.Valid() && KeepsRoles(old(arena.nodes), arena.nodes)
    ensures regs' == if Met(old(arena.nodes)[comp]) then regs + [comp] else regs
    ensures Met(old(arena.nodes)[comp]) && IsAudio(old(arena.nodes), comp) ==> Started(arena.nodes, root, sfavs, regs', shadows + 1)
    ensures !(Met(old(arena.nodes)[comp]) && IsAudio(old(arena.nodes), comp)) ==> Started(arena.nodes, root, sfavs, regs', shadows)
  {
    ghost var before := arena.nodes;
    regs' := Register(arena, root, sfavs, regs, comp);
    if Met(before[comp]) {
      forall i | 0 <= i < |regs'|
        ensures arena.nodes[regs'[i]].component == RegisteredTags[i]
      {
        if i < |regs| {
          assert regs'[i] == regs[i];
        }
      }
    }
  }

  /** The registrations of `__init__`, in order, stopping at the first load error. */
  method Start(arena: Arena, root: NodeId, sfavs: NodeId, files: map<string, SavedFile>,
               crd: bool, shoutcast: bool, genres: seq<string>, dir: Streaming.Directory)
    returns (regs: seq<NodeId>, error: Option<Fault>)
    requires arena.Valid() && Started(arena.nodes, root, sfavs, [], 0)
    modifies arena
    ensures arena.Valid() && KeepsRoles(old(arena.nodes), arena.nodes) && Rooted(arena.nodes, root, sfavs, regs)
    ensures error == StartError(files)
    ensures error == None ==> |regs| == |RegisteredTags| && Tagged(arena.nodes, sfavs, regs, 4)
  {
    regs, error := StartRecorded(arena, root, sfavs, FileOf(files, Library.Tag), FileOf(files, Streaming.Tag),
                                 FileOf(files, Boodler.Tag), crd, shoutcast, genres, dir);
    if error.Some? {
      return;
    }
    ghost var n3 := arena.nodes;
    regs := StartRadios(arena, root, sfavs, regs);
    KeepsRolesTransitive(old(arena.nodes), n3, arena.nodes);
    ghost var n4 := arena.nodes;
    regs := StartSystem(arena, root, sfavs, regs);
    KeepsRolesTransitive(old(arena.nodes), n4, arena.nodes);
  }

  /** The three components that keep favorites files, each registered unless its load failed. */
  method StartRecorded(arena: Arena, root: NodeId, sfavs: NodeId, lib: SavedFile, str: SavedFile, boo: SavedFile,
                       crd: bool, shoutcast: bool, genres: seq<string>, dir: Streaming.Directory)
    returns (regs: seq<NodeId>, error: Option<Fault>)
    requires arena.Valid() && Started(arena.nodes, root, sfavs, [], 0)
    modifies arena
    ensures arena.Valid() && KeepsRoles(old(arena.nodes), arena.nodes) && Started(arena.nodes, root, sfavs, regs, |regs|)
    ensures var e1 := LoadError(Library.FromRecord, lib);
            var e2 := LoadError(Streaming.FromRecord, str);
            var e3 := LoadError(Boodler.FromRecord, boo);
            error == if e1.Some? then e1 else if e2.Some? then e2 else e3
    ensures error == None ==> |regs| == 3
  {
    regs, error := StartLibrary(arena, root, sfavs, [], lib);
    if error == None {
      ghost var n1 := arena.nodes;
      regs, error := StartStreaming(arena, root, sfavs, regs, str, crd, shoutcast, genres, dir);
      KeepsRolesTransitive(old(arena.nodes), n1, arena.nodes);
      if error == None {
        ghost var n2 := arena.nodes;
        regs, error := StartBoodler(arena, root, sfavs, regs, boo);
        KeepsRolesTransitive(old(arena.nodes), n2, arena.nodes);
      }
    }
  }

  method StartLibrary(arena: Arena, root: NodeId, sfavs: NodeId, regs: seq<NodeId>, file: SavedFile)
    returns (regs': seq<NodeId>, e: Option<Fault>)
    requires arena.Valid() && |regs| == 0 && Started(arena.nodes, root, sfavs, regs, |regs|)
    modifies arena
    ensures arena.Valid() && KeepsRoles(old(arena.nodes), arena.nodes) && Started(arena.nodes, root, sfavs, regs', |regs'|)
    ensures e == LoadError(Library.FromRecord, file) && |regs'| == if e == None then 1 else 0
  {
    ghost var n0 := arena.nodes;
    var comp;
    comp, e := BuildLibrary(arena, file);
    regs' := Enroll(arena, root, sfavs, regs, comp, e, n0);
  }

  method StartStreaming(arena: Arena, root: NodeId, sfavs: NodeId, regs: seq<NodeId>, file: SavedFile,
                        crd: bool, shoutcast: bool, genres: seq<string>, dir: Streaming.Directory)
    returns (regs': seq<NodeId>, e: Option<Fault>)
    requires arena.Valid() && |regs| == 1 && Started(arena.nodes, root, sfavs, regs, |regs|)
    modifies arena
    ensures arena.Valid() && KeepsRoles(old(arena.nodes), arena.nodes) && Started(arena.nodes, root, sfavs, regs', |regs'|)
    ensures e == LoadError(Streaming.FromRecord, file) && |regs'| == if e == None then 2 else 1
  {
    ghost var n0 := arena.nodes;
    var comp;
    comp, e := BuildStreaming(arena, file, crd, shoutcast, genres, dir);
    regs' := Enroll(arena, root, sfavs, regs, comp, e, n0);
  }

  method StartBoodler(arena: Arena, root: NodeId, sfavs: NodeId, regs: seq<NodeId>, file: SavedFile)
    returns (regs': seq<NodeId>, e: Option<Fault>)
    requires arena.Valid() && |regs| == 2 && Started(arena.nodes, root, sfavs, regs, |regs|)
    modifies arena
    ensures arena.Valid() && KeepsRoles(old(arena.nodes), arena.nodes) && Started(arena.nodes, root, sfavs, regs', |regs'|)
    ensures e == LoadError(Boodler.FromRecord, file) && |regs'| == if e == None then 3 else 2
  {
    ghost var n0 := arena.nodes;
    var comp;
    comp, e := BuildBoodler(arena, file);
    regs' := Enroll(arena, root, sfavs, regs, comp, e, n0);
  }

  /**
   * One audio component just built by start-up: registered when it loaded its favorites, left
   * out of the tree when loading failed (start-up then stops).
   */
  method Enroll(arena: Arena, root: NodeId, sfavs: NodeId, regs: seq<NodeId>, comp: NodeId, e: Option<Fault>,
                ghost before: Nodes)
    returns (regs': seq<NodeId>)
    requires arena.Valid() && Started(before, root, sfavs, regs, |regs|)
    requires |regs| < |RegisteredTags| && BuiltAudio(before, arena.nodes, comp, RegisteredTags[|regs|])
    modifies arena
    ensures arena.Valid() && KeepsRoles(before, arena.nodes) && Started(arena.nodes, root, sfavs, regs', |regs'|)
    ensures regs' == if e == None then regs + [comp] else regs
  {
    StartedGrown(before, arena.nodes, root, sfavs, regs, |regs|);
    regs' := regs;
    if e == None {
      ghost var grown := arena.nodes;
      regs' := Join(arena, root, sfavs, regs, comp, |regs|);
      KeepsRolesTransitive(before, grown, arena.nodes);
    }
  }

  /** The library's constructor as start-up sees it: a fresh audio component and its load error. */
  method BuildLibrary(arena: Arena, file: SavedFile) returns (comp: NodeId, e: Option<Fault>)
    requires arena.Valid()
    modifies arena
    ensures arena.Valid() && BuiltAudio(old(arena.nodes), arena.nodes, comp, RegisteredTags[0])
    ensures e == LoadError(Library.FromRecord, file)
  {
    var m;
    m, e := Library.NewComponent(arena, file);
    comp := m.comp;
    RegisteredTagsAt();
  }

  /** The streaming component's constructor as start-up sees it: a fresh audio component and its load error. */
  method BuildStreaming(arena: Arena, file: SavedFile, crd: bool, shoutcast: bool, genres: seq<string>, dir: Streaming.Directory)
    returns (comp: NodeId, e: Option<Fault>)
    requires arena.Valid()
    modifies arena
    ensures arena.Valid() && BuiltAudio(old(arena.nodes), arena.nodes, comp, RegisteredTags[1])
    ensures e == LoadError(Streaming.FromRecord, file)
  {
    var favs, menus;
    comp, favs, menus, e := Streaming.NewComponent(arena, file, crd, shoutcast, genres, dir);
    RegisteredTagsAt();
  }

  /** The Boodler component's constructor as start-up sees it. */
  method BuildBoodler(arena: Arena, file: SavedFile) returns (comp: NodeId, e: Option<Fault>)
    requires arena.Valid()
    modifies arena
    ensures arena.Valid() && BuiltAudio(old(arena.nodes), arena.nodes, comp, RegisteredTags[2])
    ensures e == LoadError(Boodler.FromRecord, file)
  {
    var favs, available;
    comp, favs, available, e := Boodler.NewComponent(arena, file);
    RegisteredTagsAt();
  }

  /** The FM radio, which registers, and the weather radio, which does not. */
  method StartRadios(arena: Arena, root: NodeId, sfavs: NodeId, regs: seq<NodeId>) returns (regs': seq<NodeId>)
    requires arena.Valid() && |regs| == 3 && Started(arena.nodes, root, sfavs, regs, |regs|)
    modifies arena
    ensures arena.Valid() && KeepsRoles(old(arena.nodes), arena.nodes)
    ensures |regs'| == 4 && Started(arena.nodes, root, sfavs, regs', 4)
  {
    ghost var n0 := arena.nodes;
    var fm := NewFmRadio(arena);
    StartedGrown(n0, arena.nodes, root, sfavs, regs, 3);
    ghost var n1 := arena.nodes;
    RegisteredTagsAt();
    regs' := Join(arena, root, sfavs, regs, fm, 3);
    KeepsRolesTransitive(n0, n1, arena.nodes);
    ghost var n2 := arena.nodes;
    var wx := NewWxRadio(arena);
    StartedGrown(n2, arena.nodes, root, sfavs, regs', 4);
    KeepsRolesTransitive(n0, n2, arena.nodes);
    ghost var n3 := arena.nodes;
    regs' := Join(arena, root, sfavs, regs', wx, 4);
    KeepsRolesTransitive(n0, n3, arena.nodes);
  }

  /** The settings component, which does not register, and the system component, which does. */
  method StartSystem(arena: Arena, root: NodeId, sfavs: NodeId, regs: seq<NodeId>) returns (regs': seq<NodeId>)
    requires arena.Valid() && |regs| == 4 && Started(arena.nodes, root, sfavs, regs, 4)
    modifies arena
    ensures arena.Valid() && KeepsRoles(old(arena.nodes), arena.nodes)
    ensures |regs'| == 5 && Started(arena.nodes, root, sfavs, regs', 4)
  {
    ghost var n0 := arena.nodes;
    var settings := NewSettings(arena);
    StartedGrown(n0, arena.nodes, root, sfavs, regs, 4);
    ghost var n1 := arena.nodes;
    regs' := Join(arena, root, sfavs, regs, settings, 4);
    KeepsRolesTransitive(n0, n1, arena.nodes);
    ghost var n2 := arena.nodes;
    var system := NewSystem(arena);
    StartedGrown(n2, arena.nodes, root, sfavs, regs', 4);
    KeepsRolesTransitive(n0, n2, arena.nodes);
    ghost var n3 := arena.nodes;
    RegisteredTagsAt();
    regs' := Join(arena, root, sfavs, regs', system, 4);
    KeepsRolesTransitive(n0, n3, arena.nodes);
  }

  /** The radio state `__init__` builds: super-favorites the only child of root, and selected. */
  method NewRadio() returns (r: RadioState, s: NodeId)
    ensures fresh(r.arena) && r.Valid()
    ensures r.state == Stopped && r.updates == [] && r.nowPlaying.history == []
    ensures r.menu.current == r.menu.root && r.menu.selected == Some(s)
    ensures s != r.menu.root && Children(r.arena.nodes, r.menu.root) == [s]
    ensures r.arena.nodes[s] == SuperFavoritesNode().(parent := Some(r.menu.root))
    ensures Started(r.arena.nodes, r.menu.root, s, [], 0)
  {
    var a := new Arena();
    r := new RadioState(a);
    s := AddSuperFavorites(r);
    StartsEmpty(r.arena.nodes, r.menu.root, s);
    label grown:
    r.menu.selected := Some(s);
    r.MenuMoved@grown();
  }

  /** The super-favorites list, hung under the radio's empty root. */
  method AddSuperFavorites(r: RadioState) returns (s: NodeId)
    requires r.Valid() && Children(r.arena.nodes, r.menu.root) == []
    modifies r.arena
    ensures r.Valid() && s != r.menu.root && Children(r.arena.nodes, r.menu.root) == [s]
    ensures r.arena.nodes[s] == SuperFavoritesNode().(parent := Some(r.menu.root))
  {
    label made:
    s := r.arena.Alloc(SuperFavoritesNode());
    r.arena.AddChild(r.menu.root, s);
    AddedChildKeepsKinds(old(r.arena.nodes), r.menu.root, s, SuperFavoritesNode());
    r.TreeGrown@made();
  }

  /** The radio state and registrations `__init__` builds, before the controller holds them. */
  method Boot(files: map<string, SavedFile>, crd: bool, shoutcast: bool, genres: seq<string>, dir: Streaming.Directory)
    returns (r: RadioState, s: NodeId, regs: seq<NodeId>, e: Option<Fault>)
    ensures r.Valid() && Rooted(r.arena.nodes, r.menu.root, s, regs)
    ensures r.state == Stopped && r.updates == [] && r.nowPlaying.history == []
    ensures r.menu.current == r.menu.root && r.menu.selected == Some(s)
    ensures e == StartError(files)
    ensures e == None ==> |regs| == |RegisteredTags| && Tagged(r.arena.nodes, s, regs, 4)
  {
    r, s := NewRadio();
    label built:
    regs, e := Start(r.arena, r.menu.root, s, files, crd, shoutcast, genres, dir);
    KeepsRolesKeepsKinds(old@built(r.arena.nodes), r.arena.nodes);
    r.TreeGrown@built();
  }

  class Controller {
    const arena: Arena
    const rs: RadioState
    const sfavs: NodeId
    var registered: seq<NodeId>
    /** The favorites files, by component tag. */
    var files: map<string, SavedFile>
    /** False once `shutdown` has stopped the event loop. */
    var running: bool
    /** The error that escaped a component's constructor at start-up, if any. */
    var error: Option<Fault>

    ghost predicate Valid()
      reads this, arena, rs, rs.menu, rs.nowPlaying, rs.volume, rs.messages, rs.indicators
    {
      && rs.arena == arena && rs.Valid()
      && Mirrors(arena.nodes, sfavs, registered)
    }

    /** A move of cursors or parents, or a change of opus settings, keeps the controller valid. */
    twostate lemma ListsKept()
      requires old(Valid()) && rs.Valid() && unchanged(this) && SameLists(old(arena.nodes), arena.nodes)
      ensures Valid()
    {
      SameListsKeepMirrors(old(arena.nodes), arena.nodes, sfavs, registered);
    }

    /** A change to the tree alone that keeps roles and the mirror keeps the controller valid. */
    twostate lemma TreeKept()
      requires old(Valid()) && arena.Valid() && registered == old(registered)
      requires unchanged(rs, rs.menu, rs.nowPlaying, rs.volume, rs.messages, rs.indicators)
      requires KeepsRoles(old(arena.nodes), arena.nodes) && Mirrors(arena.nodes, sfavs, registered)
      ensures Valid()
    {
      KeepsRolesKeepsKinds(old(arena.nodes), arena.nodes);
      rs.TreeGrown();
    }

    /**
     * `OpusculeController.__init__`: a fresh radio state; the super-favorites
     * list as the first child of root and the selected node; then the
     * components in order, each registered when its requirements are met.
     * An error loading saved favorites ends start-up there.
     */
    constructor (files: map<string, SavedFile>, crd: bool, shoutcast: bool, genres: seq<string>, dir: Streaming.Directory)
      ensures Valid() && Rooted(arena.nodes, rs.menu.root, sfavs, registered) && this.files == files && running
      ensures rs.state == Stopped && rs.updates == [] && rs.nowPlaying.history == []
      ensures rs.menu.current == rs.menu.root && rs.menu.selected == Some(sfavs)
      ensures error == StartError(files)
      ensures error == None ==> |registered| == |RegisteredTags| && Tagged(arena.nodes, sfavs, registered, 4)
    {
      var r, s, regs, e := Boot(files, crd, shoutcast, genres, dir);
      arena := r.arena;
      rs := r;
      sfavs := s;
      registered := regs;
      this.files := files;
      running := true;
      error := e;
    }

    /** The for-else loop of `do_add_favorite`: the first registered component with the given tag. */
    method FindHome(tag: string) returns (home: Option<NodeId>)
      requires Valid()
      ensures home == Home(arena.nodes, registered, tag)
    {
      var i := 0;
      while i < |registered|
        invariant 0 <= i <= |registered|
        invariant Home(arena.nodes, registered[i..], tag) == Home(arena.nodes, registered, tag)
      {
        assert registered[i..][1..] == registered[i + 1..];
        if arena.nodes[registered[i]].component == tag {
          return Some(registered[i]);
        }
        i := i + 1;
      }
      return None;
    }

    /**
     * `save_favorites` of the component `comp`: the library and streaming
     * components write one record per favorite, or raise and leave the file
     * alone; no other component writes a file here. The Boodler component
     * is given the same save, which is what its `save_favorites` intends:
     * as written that method raises AttributeError on any non-empty
     * Favorites list (`Boodler.SaveAsWritten`).
     */
    method SaveFavorites(comp: NodeId) returns (fault: Option<Fault>)
      requires Valid() && IsAudio(arena.nodes, comp)
      modifies this`files
      ensures var recs := FavoriteRecords(arena.nodes, comp);
              && files == SavedFiles(old(files), arena.nodes[comp].component, recs)
              && fault == SaveFault(arena.nodes[comp].component, recs)
    {
      var tag := arena.nodes[comp].component;
      fault := None;
      if tag in RecordTags {
        var recs := CollectRecords(arena, FavoritesOf(arena.nodes, comp));
        files := files[tag := WriteFile(FileOf(files, tag), recs)];
        if recs.Raised? {
          fault := Some(recs.fault);
        }
      }
    }

    /** `add_favorite` followed by `save_favorites` on an audio component. */
    method AddAndSave(comp: NodeId, fav: NodeId) returns (fault: Option<Fault>)
      requires Valid() && comp in registered && IsAudio(arena.nodes, comp) && IsOpus(arena.nodes, fav)
      modifies this`files, arena
      ensures Valid() && arena.nodes == AddFavoriteTo(old(arena.nodes), comp, fav)
      ensures Children(arena.nodes, sfavs) == Children(old(arena.nodes), sfavs)
      ensures var recs := FavoriteRecords(arena.nodes, comp);
              && files == SavedFiles(old(files), arena.nodes[comp].component, recs)
              && fault == SaveFault(arena.nodes[comp].component, recs)
    {
      label start:
      FavoriteAddedKeepsMirrors(arena.nodes, sfavs, registered, comp, fav);
      arena.AddFavorite(comp, fav);
      TreeKept@start();
      fault := SaveFavorites(comp);
    }

    /** `update_all_favorite_menus`: every shadow in the super-favorites takes its origin's children again. */
    method RefreshShadows()
      requires Valid()
      modifies arena
      ensures Valid() && arena.nodes == Mirrored(old(arena.nodes), Children(old(arena.nodes), sfavs), None)
      ensures forall i :: 0 <= i < |Children(arena.nodes, sfavs)| ==>
                var sh := Children(arena.nodes, sfavs)[i];
                IsShadow(arena.nodes, sh) && Children(arena.nodes, sh) == Children(arena.nodes, OriginOf(arena.nodes, sh))
    {
      label start:
      RefreshedKeepsMirrors(arena.nodes, sfavs, registered);
      UpdateFavoriteMenus(arena, sfavs, None);
      TreeKept@start();
    }

    /**
     * The audio branch of `do_add_favorite`: add the opus to the component's
     * Favorites, save them, and refresh every shadow in the super-favorites.
     * A save that raises stops there.
     */
    method AddToHome(comp: NodeId, fav: NodeId) returns (fault: Option<Fault>)
      requires Valid() && comp in registered && IsAudio(arena.nodes, comp) && IsOpus(arena.nodes, fav)
      modifies this`files, arena
      ensures Valid()
      ensures var added := AddFavoriteTo(old(arena.nodes), comp, fav);
              var recs := FavoriteRecords(added, comp);
              && files == SavedFiles(old(files), old(arena.nodes)[comp].component, recs)
              && fault == SaveFault(old(arena.nodes)[comp].component, recs)
              && arena.nodes == (if fault.Some? then added else Mirrored(added, Children(old(arena.nodes), sfavs), None))
    {
      fault := AddAndSave(comp, fav);
      if fault.None? {
        RefreshShadows();
      }
    }

    /**
     * The state `do_add_favorite` leaves: find the component whose tag is
     * the current opus's; with none, nothing changes. A component without
     * Favorites raises AttributeError; an audio component adds, saves and
     * refreshes.
     */
    twostate predicate FavoriteAdded(new fault: Option<Fault>)
      reads this, arena, rs, rs.arena, rs.menu, rs.nowPlaying, rs.volume, rs.messages, rs.indicators
      requires old(Valid()) && Valid()
    {
      && registered == old(registered)
      && var co := old(rs.nowPlaying.current);
         var home := Home(old(arena.nodes), old(registered), old(arena.nodes)[co].component);
         && (home.None? ==> fault == None && arena.nodes == old(arena.nodes) && files == old(files))
         && (home.Some? && !IsAudio(old(arena.nodes), home.value) ==>
               fault == Some(AttributeError) && arena.nodes == old(arena.nodes) && files == old(files))
         && (home.Some? && IsAudio(old(arena.nodes), home.value) ==>
               var added := AddFavoriteTo(old(arena.nodes), home.value, co);
               var recs := FavoriteRecords(added, home.value);
               && files == SavedFiles(old(files), old(arena.nodes)[co].component, recs)
               && fault == SaveFault(old(arena.nodes)[co].component, recs)
               && arena.nodes == (if fault.Some? then added else Mirrored(added, Children(old(arena.nodes), sfavs), None)))
    }

    /** `do_add_favorite`: only the tree and the favorites files change. */
    method DoAddFavorite() returns (fault: Option<Fault>)
      requires Valid()
      modifies this`files, arena
      ensures Valid() && Ran(AddFavorite, fault)
    {
      fault := AddCurrentFavorite();
    }

    /** The body of `do_add_favorite`. */
    method AddCurrentFavorite() returns (fault: Option<Fault>)
      requires Valid()
      modifies this`files, arena
      ensures Valid() && FavoriteAdded(fault)
    {
      var co := rs.nowPlaying.current;
      var home := FindHome(arena.nodes[co].component);
      fault := None;
      if home.Some? {
        if IsAudio(arena.nodes, home.value) {
          fault := AddToHome(home.value, co);
        } else {
          fault := Some(AttributeError);
        }
      }
    }

    /**
     * The state `do_select` leaves: a selected list is entered as
     * `menu_select` enters it, a selected opus is played as `update` plays
     * it, a selected command runs its `command_execute` (which does
     * nothing), and with nothing selected nothing happens.
     */
    twostate predicate SelectDone(new fault: Option<Fault>)
      reads this, arena, rs, rs.arena, rs.menu, rs.nowPlaying, rs.volume, rs.messages, rs.indicators
      requires old(Valid()) && Valid()
    {
      && arena.next == old(arena.next)
      && var sel := old(rs.menu.selected);
         && (sel.None? || old(arena.nodes)[sel.value].kind.Action? ==>
               && fault == None && arena.nodes == old(arena.nodes)
               && rs.MenuKept() && rs.PlayerKept() && rs.LampsKept())
         && (sel.Some? && old(arena.nodes)[sel.value].kind.List? ==>
               rs.Descended(fault) && rs.PlayerKept() && rs.LampsKept())
         && (sel.Some? && old(arena.nodes)[sel.value].kind.Playable? ==>
               fault == None && arena.nodes == old(arena.nodes) && rs.Updated("play") && rs.MenuKept())
    }

    /** `do_select`. */
    method DoSelect() returns (fault: Option<Fault>)
      requires Valid()
      modifies arena, rs, rs.menu, rs.indicators, rs.nowPlaying
      ensures Valid() && Ran(Select, fault)
    {
      fault := None;
      var sel := rs.menu.selected;
      if sel.None? {
        return;
      }
      var kind := arena.nodes[sel.value].kind;
      if kind.List? {
        label start:
        fault := rs.MenuSelect();
        ListsKept@start();
      } else if kind.Playable? {
        rs.Update("play");
      }
    }

    /** The state `do_mute` leaves: the mute flag flipped, the level kept, and the mute lamp lit to match. */
    twostate predicate Muted()
      reads this, arena, rs, rs.arena, rs.menu, rs.nowPlaying, rs.volume, rs.messages, rs.indicators
      requires old(Valid()) && Valid()
    {
      && rs.volume.muted == !old(rs.volume.muted) && rs.volume.level == old(rs.volume.level)
      && rs.indicators.mute == rs.volume.muted
      && forall lamp :: lamp != MuteLamp ==> rs.indicators.Lit(lamp) == old(rs.indicators.Lit(lamp))
    }

    /** `do_mute`. */
    method DoMute()
      requires Valid()
      modifies rs.volume, rs.indicators
      ensures Valid() && Ran(Mute, None)
    {
      rs.volume.ToggleMute();
      rs.indicators.Set(MuteLamp, rs.volume.muted);
    }

    /**
     * The state the handler of `c` leaves, `fault` being what it raised:
     * each command does what its handler in the command table does, and
     * the parts of the state it does not touch are kept.
     */
    twostate predicate Ran(c: Command, new fault: Option<Fault>)
      reads this, arena, rs, rs.arena, rs.menu, rs.nowPlaying, rs.volume, rs.messages, rs.indicators
      requires old(Valid()) && Valid()
    {
      && registered == old(registered) && error == old(error)
      && running == (old(running) && c != Shutdown)
      && (c != AddFavorite ==> files == old(files))
      && rs.messages.pending == old(rs.messages.pending)
      && match c
         case Advance => fault == None && rs.Advanced() && rs.PlayerKept() && rs.LampsKept() && rs.VolumeKept()
         case Retreat => rs.Retreated(fault) && rs.PlayerKept() && rs.LampsKept() && rs.VolumeKept()
         case Escape => rs.Escaped(fault) && rs.PlayerKept() && rs.LampsKept() && rs.VolumeKept()
         case Select => SelectDone(fault) && rs.VolumeKept()
         case Play | Stop | Pause =>
           fault == None && rs.Updated(NameOf(c)) && arena.nodes == old(arena.nodes) && rs.MenuKept() && rs.VolumeKept()
         case Repeat => fault == None && rs.RepeatToggled() && rs.MenuKept() && rs.VolumeKept()
         case Shuffle => fault == None && rs.ShuffleToggled() && rs.MenuKept() && rs.VolumeKept()
         case Next | Previous =>
           fault == None && Skipped(if c == Next then OpusNext else OpusPrevious)
           && arena.nodes == old(arena.nodes) && rs.MenuKept() && rs.LampsKept() && rs.VolumeKept()
         case Louder =>
           fault == None && rs.volume.SteppedUp() && arena.nodes == old(arena.nodes)
           && rs.MenuKept() && rs.PlayerKept() && rs.LampsKept()
         case Softer =>
           fault == None && rs.volume.SteppedDown() && arena.nodes == old(arena.nodes)
           && rs.MenuKept() && rs.PlayerKept() && rs.LampsKept()
         case Mute => fault == None && Muted() && arena.nodes == old(arena.nodes) && rs.MenuKept() && rs.PlayerKept()
         case AddFavorite => FavoriteAdded(fault) && rs.MenuKept() && rs.PlayerKept() && rs.LampsKept() && rs.VolumeKept()
         case Refresh | Shutdown =>
           fault == None && arena.nodes == old(arena.nodes) && rs.MenuKept() && rs.PlayerKept() && rs.LampsKept() && rs.VolumeKept()
    }

    /** The state `do_next` or `do_previous` leaves: the current opus is asked to skip, and nothing else changes. */
    twostate predicate Skipped(call: OpusCall)
      reads this, arena, rs, rs.arena, rs.menu, rs.nowPlaying, rs.volume, rs.messages, rs.indicators
      requires old(Valid()) && Valid()
    {
      && rs.state == old(rs.state) && rs.updates == old(rs.updates)
      && rs.nowPlaying.current == old(rs.nowPlaying.current) && rs.nowPlaying.history == old(rs.nowPlaying.history)
      && rs.nowPlaying.data == old(rs.nowPlaying.data)
      && rs.nowPlaying.calls == old(rs.nowPlaying.calls) + [Call(call, rs.nowPlaying.current)]
    }

    /** `do_advance`. */
    method DoAdvance()
      requires Valid()
      modifies arena, rs.menu
      ensures Valid() && Ran(Advance, None)
    {
      label start:
      rs.MenuAdvance();
      ListsKept@start();
    }

    /** `do_retreat`. */
    method DoRetreat() returns (fault: Option<Fault>)
      requires Valid()
      modifies arena, rs.menu
      ensures Valid() && Ran(Retreat, fault)
    {
      label start:
      fault := rs.MenuRetreat();
      ListsKept@start();
    }

    /** `do_escape`. */
    method DoEscape() returns (fault: Option<Fault>)
      requires Valid()
      modifies rs.menu
      ensures Valid() && Ran(Escape, fault)
    {
      fault := rs.MenuEscape();
    }

    /** `do_play`, `do_stop` and `do_pause`: each passes its own name to `update`. */
    method DoUpdate(c: Command)
      requires Valid() && c in {Play, Stop, Pause}
      modifies rs, rs.indicators, rs.nowPlaying
      ensures Valid() && Ran(c, None)
    {
      rs.Update(NameOf(c));
    }

    /** `do_repeat`. */
    method DoRepeat()
      requires Valid()
      modifies arena, rs, rs.indicators, rs.nowPlaying
      ensures Valid() && Ran(Repeat, None)
    {
      label start:
      rs.ToggleRepeat();
      ListsKept@start();
    }

    /** `do_shuffle`. */
    method DoShuffle()
      requires Valid()
      modifies arena, rs, rs.indicators, rs.nowPlaying
      ensures Valid() && Ran(Shuffle, None)
    {
      label start:
      rs.ToggleShuffle();
      ListsKept@start();
    }

    /** `do_next` and `do_previous`. */
    method DoSkip(c: Command)
      requires Valid() && c in {Next, Previous}
      modifies rs.nowPlaying
      ensures Valid() && Ran(c, None)
    {
      rs.CallOpus(if c == Next then OpusNext else OpusPrevious);
    }

    /** `do_louder`. */
    method DoLouder()
      requires Valid()
      modifies rs.volume
      ensures Valid() && Ran(Louder, None)
    {
      rs.volume.Louder();
    }

    /** `do_softer`. */
    method DoSofter()
      requires Valid()
      modifies rs.volume
      ensures Valid() && Ran(Softer, None)
    {
      rs.volume.Softer();
    }

    /**
     * The handler of one command. Only select, retreat, escape and
     * add_favorite can raise; only add_favorite writes files; only shutdown
     * stops the loop; refresh and shutdown change nothing else.
     */
    method Run(c: Command) returns (fault: Option<Fault>)
      requires Valid()
      modifies this`files, this`running, arena, rs, rs.menu, rs.indicators, rs.nowPlaying, rs.volume
      ensures Valid() && Ran(c, fault)
      ensures fault.Some? ==> c in {Select, Retreat, Escape, AddFavorite}
    {
      fault := None;
      match c
      case Advance => DoAdvance();
      case Retreat => fault := DoRetreat();
      case Escape => fault := DoEscape();
      case Select => fault := DoSelect();
      case Play | Stop | Pause => DoUpdate(c);
      case Repeat => DoRepeat();
      case Shuffle => DoShuffle();
      case Next | Previous => DoSkip(c);
      case Louder => DoLouder();
      case Softer => DoSofter();
      case Mute => DoMute();
      case AddFavorite => fault := DoAddFavorite();
      case Refresh =>
      case Shutdown => running := false;
    }

    /**
     * `handle`: a name in the command table runs its handler and is answered
     * OK, unless the handler raises; any other name is answered ERROR and
     * changes nothing.
     */
    method Handle(name: string) returns (r: Outcome<Reply>)
      requires Valid()
      modifies this`files, this`running, arena, rs, rs.menu, rs.indicators, rs.nowPlaying, rs.volume
      ensures Valid() && registered == old(registered)
      ensures name !in CommandNames ==>
                && r == Done(Unknown) && files == old(files) && running == old(running)
                && unchanged(arena, rs, rs.menu, rs.indicators, rs.nowPlaying, rs.volume)
      ensures name in CommandNames ==> r == Done(Accepted) || (r.Raised? && name in ["select", "retreat", "escape", "add_favorite"])
      ensures name in CommandNames ==> Ran(Lookup(name).value, if r.Raised? then Some(r.fault) else None)
    {
      var c := Lookup(name);
      if c.None? {
        return Done(Unknown);
      }
      var fault := Run(c.value);
      r := if fault.Some? then Raised(fault.value) else Done(Accepted);
    }
  }
}
