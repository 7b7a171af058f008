/**
 * The parts of the radio's state in radiostate.py: the menu cursor, what is
 * playing, the volume, the pending messages and the indicator lamps. The
 * RadioState that combines them is in module Radio.
 */
module RadioParts {

  import opened Wrappers
  import opened MenuTree
  import opened Records

  // ---------------------------------------------------------------------------
  // Volume

  const VolStep := 5
  const VolMin := 0
  const VolMax := 100
  const InitialLevel := 80

  /**
   * `Volume`: a level kept in [VolMin, VolMax] and a mute flag. The ALSA
   * mixer that mirrors them is not part of this model.
   */
  class Volume {
    var level: int
    var muted: bool

    /** The level stays within bounds and, starting at 80 and moving by 5, on a multiple of 5. */
    ghost predicate Valid()
      reads this
    {
      VolMin <= level <= VolMax && level % VolStep == 0
    }

    constructor ()
      ensures Valid() && level == InitialLevel && !muted
    {
      level := InitialLevel;
      muted := false;
    }

    /** The state `louder` leaves: one step up, stopping at the maximum; the mute flag is kept. */
    twostate predicate SteppedUp()
      reads this
      requires old(Valid())
    {
      && Valid() && muted == old(muted)
      && (old(level) < VolMax ==> level == old(level) + VolStep)
      && (old(level) == VolMax ==> level == VolMax)
    }

    /** The state `softer` leaves: one step down, stopping at the minimum; the mute flag is kept. */
    twostate predicate SteppedDown()
      reads this
      requires old(Valid())
    {
      && Valid() && muted == old(muted)
      && (old(level) > VolMin ==> level == old(level) - VolStep)
      && (old(level) == VolMin ==> level == VolMin)
    }

    /** `louder`. */
    method Louder()
      requires Valid()
      modifies this
      ensures SteppedUp()
    {
      if level + VolStep > VolMax {
        level := VolMax;
      } else {
        level := level + VolStep;
      }
    }

    /** `softer`. */
    method Softer()
      requires Valid()
      modifies this
      ensures SteppedDown()
    {
      if level - VolStep < VolMin {
        level := VolMin;
      } else {
        level := level - VolStep;
      }
    }

    /** `toggle_mute`: flip the flag; the level is kept for when the sound comes back. */
    method ToggleMute()
      requires Valid()
      modifies this
      ensures Valid() && muted == !old(muted) && level == old(level)
    {
      muted := !muted;
    }

    /** `get_level` and `compose_data`. */
    function Level(): (r: int)
      reads this
      requires Valid()
      ensures VolMin <= r <= VolMax
    {
      level
    }
  }

  // ---------------------------------------------------------------------------
  // Messages

  datatype Message = Message(kind: string, dist: string, text: string)

  const MessageKinds := ["FAULT", "INFO", "ALERT"]

  /** The default audience of `queue_message`. */
  const Everyone := "ALL"

  /** `Messages`: the batch waiting to go out with the next state update. */
  class Messages {
    var pending: seq<Message>

    ghost predicate Valid()
      reads this
    {
      forall k :: 0 <= k < |pending| ==> pending[k].kind in MessageKinds
    }

    constructor ()
      ensures Valid() && pending == []
    {
      pending := [];
    }

    /** `queue_message`: a message of an unknown type is dropped. */
    method Queue(kind: string, text: string, dist: string)
      requires Valid()
      modifies this
      ensures Valid()
      ensures kind in MessageKinds ==> pending == old(pending) + [Message(kind, dist, text)]
      ensures kind !in MessageKinds ==> pending == old(pending)
    {
      if kind in MessageKinds {
        pending := pending + [Message(kind, dist, text)];
      }
    }

    /** `flush_pending_messages`. */
    method Flush()
      modifies this
      ensures Valid() && pending == []
    {
      pending := [];
    }

    /** `compose_data`: hand out the batch and start a new one. */
    method Compose() returns (batch: seq<Message>)
      requires Valid()
      modifies this
      ensures Valid() && batch == old(pending) && pending == []
      ensures forall k :: 0 <= k < |batch| ==> batch[k].kind in MessageKinds
    {
      batch := pending;
      Flush();
    }
  }

  // ---------------------------------------------------------------------------
  // Indicators

  datatype Lamp = PowerLamp | PlayLamp | PauseLamp | StopLamp | RepeatLamp | ShuffleLamp | MuteLamp

  /** The play state of the radio, `current_state` of RadioState. */
  datatype PlayState = Playing | Paused | Stopped
  {
    function Name(): (s: string)
      ensures s in ["playing", "paused", "stopped"]
    {
      match this
      case Playing => "playing"
      case Paused => "paused"
      case Stopped => "stopped"
    }
  }

  lemma PlayStateNamesDistinct(a: PlayState, b: PlayState)
    ensures a.Name() == b.Name() <==> a == b
  {
  }

  /** `Indicators`: seven lamps. */
  class Indicators {
    var power: bool
    var play: bool
    var pause: bool
    var stop: bool
    var repeat: bool
    var shuffle: bool
    var mute: bool

    /** Power and stop lit, everything else dark. */
    constructor ()
      ensures power && !play && !pause && stop && !repeat && !shuffle && !mute
    {
      power, play, pause, stop := true, false, false, true;
      repeat, shuffle, mute := false, false, false;
    }

    function Lit(lamp: Lamp): bool
      reads this
    {
      match lamp
      case PowerLamp => power
      case PlayLamp => play
      case PauseLamp => pause
      case StopLamp => stop
      case RepeatLamp => repeat
      case ShuffleLamp => shuffle
      case MuteLamp => mute
    }

    /** `set_power`, `set_play`, … `set_mute`: one lamp changes, the others keep their state. */
    method Set(lamp: Lamp, state: bool)
      modifies this
      ensures Lit(lamp) == state
      ensures forall other :: other != lamp ==> Lit(other) == old(Lit(other))
      ensures power == (if lamp == PowerLamp then state else old(power))
      ensures play == (if lamp == PlayLamp then state else old(play))
      ensures pause == (if lamp == PauseLamp then state else old(pause))
      ensures stop == (if lamp == StopLamp then state else old(stop))
      ensures repeat == (if lamp == RepeatLamp then state else old(repeat))
      ensures shuffle == (if lamp == ShuffleLamp then state else old(shuffle))
      ensures mute == (if lamp == MuteLamp then state else old(mute))
    {
      match lamp
      case PowerLamp => power := state;
      case PlayLamp => play := state;
      case PauseLamp => pause := state;
      case StopLamp => stop := state;
      case RepeatLamp => repeat := state;
      case ShuffleLamp => shuffle := state;
      case MuteLamp => mute := state;
    }

    /** The lamps lit for a play state: play alone, play and pause, or stop alone. */
    predicate Shows(s: PlayState)
      reads this
    {
      match s
      case Playing => play && !pause && !stop
      case Paused => play && pause && !stop
      case Stopped => stop && !play && !pause
    }

    /** `compose_data`: the lamps by name. */
    function Compose(): (r: map<string, bool>)
      reads this
      ensures r.Keys == {"power", "play", "pause", "stop", "repeat", "shuffle", "mute"}
      ensures r["play"] == play && r["pause"] == pause && r["stop"] == stop
      ensures r["power"] == power && r["repeat"] == repeat && r["shuffle"] == shuffle && r["mute"] == mute
    {
      map["power" := power, "play" := play, "pause" := pause, "stop" := stop,
          "repeat" := repeat, "shuffle" := shuffle, "mute" := mute]
    }
  }

  /** Each play state lights its own pattern, so the lamps tell the states apart. */
  lemma ShowsOne(ind: Indicators, s: PlayState, t: PlayState)
    requires ind.Shows(s) && ind.Shows(t)
    ensures s == t
  {
  }

  // ---------------------------------------------------------------------------
  // Now playing

  /** The length of the play history; older entries fall out. */
  const HistoryCap := 100

  /** `deque.append` on a deque of maximum length 100. */
  function Pushed(h: seq<NodeId>, x: NodeId): (r: seq<NodeId>)
    requires |h| <= HistoryCap
    ensures |r| == if |h| < HistoryCap then |h| + 1 else HistoryCap
    ensures r[|r| - 1] == x
    ensures r == (h + [x])[|h| + 1 - |r|..]
  {
    if |h| < HistoryCap then h + [x] else h[1..] + [x]
  }

  /** Nothing but the oldest entry is lost, and only when the history is full. */
  lemma PushedKeeps(h: seq<NodeId>, x: NodeId, k: nat)
    requires |h| <= HistoryCap && k < |h|
    ensures |h| < HistoryCap ==> Pushed(h, x)[k] == h[k]
    ensures |h| == HistoryCap && k > 0 ==> Pushed(h, x)[k - 1] == h[k]
  {
  }

  /** The 26 keys of the now-playing record, in the order `reset_data` writes them. */
  const Fields: seq<string> := [
    "file", "last-modified", "artist", "album", "title", "name", "track", "genre", "date", "disc",
    "albumartist", "time", "duration", "pos", "id", "package", "agent", "callsign", "freq", "mode",
    "error", "component", "type", "comment", "url", "subgenre"]

  lemma FieldsDistinct()
    ensures |Fields| == 26 && forall i, j :: 0 <= i < j < |Fields| ==> Fields[i] != Fields[j]
  {
  }

  /** `reset_data`: every key present and empty. */
  function EmptyRecord(): (r: Record)
    ensures r.Keys == set k | k in Fields
    ensures forall k :: k in r ==> r[k] == Str("")
  {
    map k | k in Fields :: Str("")
  }

  /** What the overlay loop of `update_data` leaves: known keys take the new value, unknown keys are dropped. */
  function Overlaid(data: Record, extra: Record): (r: Record)
    ensures r.Keys == data.Keys
  {
    map k | k in data :: if k in extra then extra[k] else data[k]
  }

  /** The calls RadioState and NowPlaying make on an opus; their effects belong to the opus. */
  datatype OpusCall = OpusPlay | OpusStop | OpusPause | OpusUnpause | OpusNext | OpusPrevious
                    | OpusUpdateRepeat | OpusUpdateShuffle

  datatype Call = Call(call: OpusCall, opus: NodeId)

  /**
   * Where `revert` as written goes: `play_history[1]`, the second-oldest
   * entry, and IndexError with fewer than two.
   */
  function RevertTargetAsWritten(h: seq<NodeId>): (r: Outcome<NodeId>)
    ensures |h| < 2 <==> r == Raised(IndexError)
  {
    if |h| < 2 then Raised(IndexError) else Done(h[1])
  }

  /** Where `revert` evidently means to go: the latest entry, the opus that was current before the last load. */
  function RevertTarget(h: seq<NodeId>): (r: Outcome<NodeId>)
    ensures h == [] <==> r == Raised(IndexError)
  {
    if h == [] then Raised(IndexError) else Done(h[|h| - 1])
  }

  /** After loading a new opus, reverting returns to the one that was current. */
  lemma RevertAfterLoad(h: seq<NodeId>, current: NodeId)
    requires |h| <= HistoryCap
    ensures RevertTarget(Pushed(h, current)) == Done(current)
  {
  }

  /** The input that shows it: after three loads, `play_history[1]` is not the opus played last. */
  lemma RevertAsWrittenMissesLast(a: NodeId, b: NodeId, c: NodeId)
    requires b != c
    ensures RevertTargetAsWritten(Pushed([a, b], c)) == Done(b)
    ensures RevertTarget(Pushed([a, b], c)) == Done(c)
    ensures RevertTargetAsWritten([c]) == Raised(IndexError) && RevertTarget([c]) == Done(c)
  {
  }

  /** The null opus NowPlaying starts with: a base Opus whose hooks do nothing. */
  function NullOpus(): (n: Node)
    ensures n.kind.Playable? && n.parent.None? && n.component == "opusbase"
    ensures n.labels == MakeLabels("Null", "", "Null Opus") && n.kind.opus == BaseOpus(NoPayload)
  {
    OpusNode("Null", "", "Null Opus", "opusbase", BaseOpus(NoPayload))
  }

  /**
   * `NowPlaying`: the current opus, the bounded history of operai played
   * before it, the now-playing record, and the calls made on operai through
   * it and RadioState.
   */
  class NowPlaying {
    var current: NodeId
    var history: seq<NodeId>
    var data: Record
    var calls: seq<Call>

    ghost predicate Valid()
      reads this
    {
      |history| <= HistoryCap && data.Keys == EmptyRecord().Keys
    }

    /** `NowPlaying.__init__`: the null opus is current, nothing played yet, the record empty. */
    constructor (arena: Arena)
      requires arena.Valid()
      modifies arena
      ensures Valid() && arena.Valid() && current !in old(arena.nodes)
      ensures arena.nodes == old(arena.nodes)[current := NullOpus()]
      ensures history == [] && data == EmptyRecord() && calls == []
    {
      var id := arena.Alloc(NullOpus());
      current := id;
      history := [];
      data := EmptyRecord();
      calls := [];
    }

    /** `load`: the current opus joins the history and `opus` becomes current. */
    method Load(opus: NodeId)
      requires Valid()
      modifies this
      ensures Valid() && current == opus && history == Pushed(old(history), old(current))
      ensures data == old(data) && calls == old(calls)
    {
      history := Pushed(history, current);
      current := opus;
    }

    /** Call one of the current opus's hooks. */
    method Invoke(call: OpusCall)
      modifies this
      ensures calls == old(calls) + [Call(call, current)]
      ensures current == old(current) && history == old(history) && data == old(data)
    {
      calls := calls + [Call(call, current)];
    }

    /** `revert` as written: make `play_history[1]` current and play it. */
    method RevertAsWritten() returns (fault: Option<Fault>)
      requires Valid()
      modifies this
      ensures Valid() && history == old(history) && data == old(data)
      ensures match RevertTargetAsWritten(old(history))
              case Raised(f) => fault == Some(f) && current == old(current) && calls == old(calls)
              case Done(o) => fault == None && current == o && calls == old(calls) + [Call(OpusPlay, o)]
    {
      fault := None;
      match RevertTargetAsWritten(history)
      case Raised(f) => fault := Some(f);
      case Done(o) =>
        current := o;
        Invoke(OpusPlay);
    }

    /** `revert` going back to the latest history entry, which `RevertAfterLoad` shows is the previous opus. */
    method Revert() returns (fault: Option<Fault>)
      requires Valid()
      modifies this
      ensures Valid() && history == old(history) && data == old(data)
      ensures match RevertTarget(old(history))
              case Raised(f) => fault == Some(f) && current == old(current) && calls == old(calls)
              case Done(o) => fault == None && current == o && calls == old(calls) + [Call(OpusPlay, o)]
    {
      fault := None;
      match RevertTarget(history)
      case Raised(f) => fault := Some(f);
      case Done(o) =>
        current := o;
        Invoke(OpusPlay);
    }

    /** `reset_data`. */
    method ResetData()
      requires Valid()
      modifies this
      ensures Valid() && data == EmptyRecord()
      ensures current == old(current) && history == old(history) && calls == old(calls)
    {
      data := EmptyRecord();
    }

    /** One overlay loop of `update_data`: each key of `extra` the record knows is overwritten. */
    method Overlay(extra: Record)
      requires Valid()
      modifies this
      ensures Valid() && data == Overlaid(old(data), extra)
      ensures current == old(current) && history == old(history) && calls == old(calls)
    {
      var rest := extra.Keys;
      while rest != {}
        invariant rest <= extra.Keys
        invariant Valid() && data.Keys == old(data).Keys
        invariant forall k :: k in data ==> data[k] == if k in extra && k !in rest then extra[k] else old(data)[k]
        invariant current == old(current) && history == old(history) && calls == old(calls)
        decreases rest
      {
        var k :| k in rest;
        if k in data {
          data := data[k := extra[k]];
        }
        rest := rest - {k};
      }
    }

    /**
     * `update_data`: reset the record, then overlay the current opus's
     * metadata, then the song data the player reports.
     */
    method UpdateData(arena: Arena, song: Record)
      requires Valid() && arena.Valid() && IsOpus(arena.nodes, current)
      modifies this
      ensures Valid() && current == old(current) && history == old(history) && calls == old(calls)
      ensures data == Overlaid(Overlaid(EmptyRecord(), Metadata(arena.nodes[current]).value), song)
    {
      ResetData();
      var meta := Metadata(arena.nodes[current]);
      Overlay(meta.value);
      Overlay(song);
    }
  }

  /**
   * The record `update_data` leaves has exactly the 26 keys; each takes the
   * song's value if the song has it, else the metadata's, else stays empty.
   */
  lemma NowPlayingRecord(meta: Record, song: Record)
    ensures var r := Overlaid(Overlaid(EmptyRecord(), meta), song);
            && r.Keys == set k | k in Fields
            && (forall k :: k in r && k in song ==> r[k] == song[k])
            && (forall k :: k in r && k !in song && k in meta ==> r[k] == meta[k])
            && (forall k :: k in r && k !in song && k !in meta ==> r[k] == Str(""))
  {
  }

  /** A key outside the 26 is dropped, whichever of the two sources carries it. */
  lemma UnknownKeysDropped(meta: Record, song: Record, k: string)
    requires k !in Fields
    ensures k !in Overlaid(Overlaid(EmptyRecord(), meta), song)
  {
  }

  // ---------------------------------------------------------------------------
  // The menu

  /** What `Menu.compose_data` reports. */
  datatype MenuData = MenuData(path: seq<Labels>, list: seq<Labels>, index: nat, selkind: string)

  /** The kind `compose_data` reports for the selected node, or "unknown" when there is none. */
  function SelKind(nodes: Nodes, selected: Option<NodeId>): string {
    if selected.None? || selected.value !in nodes then "unknown"
    else match nodes[selected.value].kind
      case Playable(_) => "opus"
      case List(_, _, _) => "menulist"
      case Action => "command"
  }

  /** Two selections reported with the same kind are both absent, both operai, both lists or both commands. */
  lemma SelKindTellsKindsApart(nodes: Nodes, a: Option<NodeId>, b: Option<NodeId>)
    requires SelKind(nodes, a) == SelKind(nodes, b)
    ensures (a.Some? && a.value in nodes) <==> (b.Some? && b.value in nodes)
    ensures a.Some? && a.value in nodes && b.Some? && b.value in nodes ==>
              && (nodes[a.value].kind.Playable? <==> nodes[b.value].kind.Playable?)
              && (nodes[a.value].kind.List? <==> nodes[b.value].kind.List?)
              && (nodes[a.value].kind.Action? <==> nodes[b.value].kind.Action?)
  {
  }

  /** The labels of the children of a list, in order. */
  function ChildLabels(nodes: Nodes, list: NodeId): (r: seq<Labels>)
    requires WellFormed(nodes) && IsList(nodes, list)
    ensures |r| == |Children(nodes, list)|
    ensures forall k :: 0 <= k < |r| ==> r[k] == nodes[Children(nodes, list)[k]].labels
  {
    var kids := Children(nodes, list);
    seq(|kids|, k requires 0 <= k < |kids| => nodes[kids[k]].labels)
  }

  /**
   * `Menu`: the root of the tree, the list the user is in and the node
   * under the cursor (None until the controller selects one).
   */
  class Menu {
    const root: NodeId
    var current: NodeId
    var selected: Option<NodeId>

    ghost predicate Valid(arena: Arena)
      reads this, arena
    {
      arena.Valid() && IsList(arena.nodes, root) && IsList(arena.nodes, current)
      && (selected.Some? ==> selected.value in arena.nodes)
    }

    /** `Menu.__init__`: a fresh root list, which is also the current list; nothing selected. */
    constructor (arena: Arena)
      requires arena.Valid()
      modifies arena
      ensures Valid(arena) && root !in old(arena.nodes) && current == root && selected == None
      ensures arena.nodes == old(arena.nodes)[root := ListNode("root", "root", "The root of all weevil.", "menulistbase", Ordinary)]
    {
      var id := arena.Alloc(ListNode("root", "root", "The root of all weevil.", "menulistbase", Ordinary));
      root := id;
      current := root;
      selected := None;
    }

    /**
     * `compose_data`: the breadcrumb of the current list, the labels of its
     * children, its cursor and the kind of the selected node. The breadcrumb
     * raises when the parent chain does not reach root.
     */
    function ComposeData(arena: Arena): (r: Outcome<MenuData>)
      reads this, arena
      requires Valid(arena)
      ensures r.Done? <==> GetPath(arena.nodes, current).Done?
      ensures r.Done? ==> r.value == MenuData(GetPath(arena.nodes, current).value, ChildLabels(arena.nodes, current),
                                              arena.nodes[current].kind.index, SelKind(arena.nodes, selected))
      ensures r.Raised? ==> r.fault == GetPath(arena.nodes, current).fault
    {
      match GetPath(arena.nodes, current)
      case Raised(f) => Raised(f)
      case Done(path) =>
        Done(MenuData(path, ChildLabels(arena.nodes, current), arena.nodes[current].kind.index,
                      SelKind(arena.nodes, selected)))
    }
  }
}
