/**
 * `RadioState` of radiostate.py: the play/pause/stop state machine, the
 * lamps that follow it, the repeat and shuffle toggles of the current opus,
 * the menu cursor, and the state updates queued for the clients.
 *
 * The parts live in module RadioParts; the menu tree and the operai live in
 * the shared arena. Starting, stopping and loading an opus is modelled as
 * taking effect at once (the source defers it to a coroutine), and the
 * calls made on operai are recorded in `NowPlaying.calls`.
 */
module Radio {

  import opened Wrappers
  import opened MenuTree
  import opened Records
  import opened RadioParts

  const ValidActions := ["play", "stop", "pause"]

  /** The state update `schedule_state_update` queues for the clients. */
  datatype StateUpdate = StateUpdate(response: string, playstate: string, component: string, messages: seq<Message>,
                           menu: MenuData, nowPlaying: Record, volume: int, indicators: map<string, bool>)

  /** What the play-state transitions read and write, for saying what they leave alone. */
  datatype Player = Player(state: PlayState, lamps: map<string, bool>, current: NodeId,
                           history: seq<NodeId>, calls: seq<Call>)

  /** `update_repeat`/`update_shuffle`: a truthy setting becomes 0, any other becomes 1. */
  function Flipped(s: Setting): (r: Setting)
    ensures r.Num? && (r.n == 0 || r.n == 1)
    ensures r.Truthy() == !s.Truthy()
  {
    if s.Truthy() then Num(0) else Num(1)
  }

  /** Two toggles restore a 0/1 setting; a string such as "none" comes back as the number 1. */
  lemma FlippedTwice(s: Setting)
    ensures s == Num(0) || s == Num(1) ==> Flipped(Flipped(s)) == s
    ensures s.Truthy() ==> Flipped(Flipped(s)) == Num(1)
  {
  }

  /** The changes the radio's own operations make to the tree: cursors, parents and opus settings only. */
  ghost predicate SameLists(a: Nodes, b: Nodes) {
    && a.Keys == b.Keys
    && forall k :: k in a ==>
         && (a[k].kind.List? <==> b[k].kind.List?)
         && (a[k].kind.Playable? <==> b[k].kind.Playable?)
         && (a[k].kind.List? ==> b[k].kind.children == a[k].kind.children && b[k].kind.role == a[k].kind.role)
         && b[k].labels == a[k].labels && b[k].component == a[k].component
  }

  /** The changes that only add nodes or edit them, keeping every list a list and every opus an opus. */
  ghost predicate KindsKept(a: Nodes, b: Nodes) {
    && a.Keys <= b.Keys
    && (forall k :: k in a && a[k].kind.List? ==> b[k].kind.List?)
    && (forall k :: k in a && a[k].kind.Playable? ==> b[k].kind.Playable?)
  }

  /** Adding a new node as the last child of a list is such a change. */
  lemma AddedChildKeepsKinds(a: Nodes, list: NodeId, child: NodeId, n: Node)
    requires IsList(a, list) && child !in a
    ensures KindsKept(a, AddChildTo(a[child := n], list, child))
  {
  }

  /** Rewriting one node's cursor, parent or opus settings is such a change. */
  lemma SameListsStore(a: Nodes, id: NodeId, n: Node)
    requires id in a && n.labels == a[id].labels && n.component == a[id].component
    requires (a[id].kind.List? <==> n.kind.List?) && (a[id].kind.Playable? <==> n.kind.Playable?)
    requires a[id].kind.List? ==> n.kind.children == a[id].kind.children && n.kind.role == a[id].kind.role
    ensures SameLists(a, a[id := n])
  {
  }

  lemma SameListsTransitive(a: Nodes, b: Nodes, c: Nodes)
    requires SameLists(a, b) && SameLists(b, c)
    ensures SameLists(a, c)
  {
  }

  class RadioState {
    const arena: Arena
    const menu: Menu
    const nowPlaying: NowPlaying
    const volume: Volume
    const messages: Messages
    const indicators: Indicators
    var state: PlayState
    var updates: seq<StateUpdate>

    /**
     * The lamps show the play state, except that a play with no opus under
     * the cursor enters `playing` without relighting them.
     */
    ghost predicate LampsAgree()
      reads this, indicators
    {
      indicators.Shows(state) || (state == Playing && indicators.Shows(Stopped))
    }

    ghost predicate Valid()
      reads this, arena, menu, nowPlaying, volume, messages, indicators
    {
      && menu.Valid(arena) && nowPlaying.Valid() && volume.Valid() && messages.Valid()
      && IsOpus(arena.nodes, nowPlaying.current)
      && LampsAgree() && indicators.power
    }

    /** A change to the tree alone that keeps every list a list and every opus an opus keeps the state valid. */
    twostate lemma TreeGrown()
      requires old(Valid()) && arena.Valid()
      requires unchanged(this, menu, nowPlaying, volume, messages, indicators)
      requires KindsKept(old(arena.nodes), arena.nodes)
      ensures Valid()
    {
    }

    /** A change of cursors, parents or opus settings, with the menu still in the tree, keeps the state valid. */
    twostate lemma ListsKept()
      requires old(Valid()) && menu.Valid(arena) && SameLists(old(arena.nodes), arena.nodes)
      requires unchanged(this, nowPlaying, volume, messages, indicators)
      ensures Valid()
    {
    }

    /** Moving the menu cursor or selection within the tree keeps the state valid. */
    twostate lemma MenuMoved()
      requires old(Valid()) && menu.Valid(arena)
      requires unchanged(this, arena, nowPlaying, volume, messages, indicators)
      ensures Valid()
    {
    }

    ghost function View(): Player
      reads this, indicators, nowPlaying
    {
      Player(state, indicators.Compose(), nowPlaying.current, nowPlaying.history, nowPlaying.calls)
    }

    /** The play state, the queued updates, the current opus, its history and the calls made on operai are as they were. */
    twostate predicate PlayerKept()
      reads this, nowPlaying
    {
      && state == old(state) && updates == old(updates)
      && nowPlaying.current == old(nowPlaying.current) && nowPlaying.history == old(nowPlaying.history)
      && nowPlaying.data == old(nowPlaying.data) && nowPlaying.calls == old(nowPlaying.calls)
    }

    /** Every lamp is as it was. */
    twostate predicate LampsKept()
      reads indicators
    {
      && indicators.power == old(indicators.power) && indicators.play == old(indicators.play)
      && indicators.pause == old(indicators.pause) && indicators.stop == old(indicators.stop)
      && indicators.repeat == old(indicators.repeat) && indicators.shuffle == old(indicators.shuffle)
      && indicators.mute == old(indicators.mute)
    }

    /** The menu cursor and selection are where they were. */
    twostate predicate MenuKept()
      reads menu
    {
      menu.current == old(menu.current) && menu.selected == old(menu.selected)
    }

    /** The volume level and the mute flag are as they were. */
    twostate predicate VolumeKept()
      reads volume
    {
      volume.level == old(volume.level) && volume.muted == old(volume.muted)
    }

    /** `RadioState.__init__`: a fresh root and null opus, volume 80, nothing queued, stopped. */
    constructor (arena: Arena)
      requires arena.Valid()
      modifies arena
      ensures Valid() && this.arena == arena && state == Stopped && updates == []
      ensures fresh(menu) && fresh(nowPlaying) && fresh(volume) && fresh(messages) && fresh(indicators)
      ensures menu.current == menu.root && menu.selected == None && menu.root !in old(arena.nodes)
      ensures nowPlaying.current !in old(arena.nodes) && nowPlaying.current != menu.root
      ensures arena.nodes == old(arena.nodes)[menu.root := arena.nodes[menu.root]][nowPlaying.current := NullOpus()]
      ensures arena.nodes[menu.root] == ListNode("root", "root", "The root of all weevil.", "menulistbase", Ordinary)
      ensures nowPlaying.history == [] && nowPlaying.calls == [] && nowPlaying.data == EmptyRecord()
      ensures volume.level == InitialLevel && !volume.muted && messages.pending == []
      ensures indicators.power && indicators.stop && !indicators.play && !indicators.pause
      ensures !indicators.repeat && !indicators.shuffle && !indicators.mute
    {
      this.arena := arena;
      var m := new Menu(arena);
      var np := new NowPlaying(arena);
      menu := m;
      nowPlaying := np;
      volume := new Volume();
      messages := new Messages();
      indicators := new Indicators();
      state := Stopped;
      updates := [];
    }

    // -------------------------------------------------------------------------
    // Lamps

    /** `set_playing_indicators`. */
    method SetPlayingIndicators()
      modifies indicators
      ensures indicators.Shows(Playing)
      ensures indicators.power == old(indicators.power) && indicators.mute == old(indicators.mute)
      ensures indicators.repeat == old(indicators.repeat) && indicators.shuffle == old(indicators.shuffle)
    {
      indicators.Set(StopLamp, false);
      indicators.Set(PlayLamp, true);
      indicators.Set(PauseLamp, false);
    }

    /** `set_paused_indicators`. */
    method SetPausedIndicators()
      modifies indicators
      ensures indicators.Shows(Paused)
      ensures indicators.power == old(indicators.power) && indicators.mute == old(indicators.mute)
      ensures indicators.repeat == old(indicators.repeat) && indicators.shuffle == old(indicators.shuffle)
    {
      indicators.Set(StopLamp, false);
      indicators.Set(PlayLamp, true);
      indicators.Set(PauseLamp, true);
    }

    /** `set_stopped_indicators`. */
    method SetStoppedIndicators()
      modifies indicators
      ensures indicators.Shows(Stopped)
      ensures indicators.power == old(indicators.power) && indicators.mute == old(indicators.mute)
      ensures indicators.repeat == old(indicators.repeat) && indicators.shuffle == old(indicators.shuffle)
    {
      indicators.Set(StopLamp, true);
      indicators.Set(PlayLamp, false);
      indicators.Set(PauseLamp, false);
    }

    // -------------------------------------------------------------------------
    // The play state

    /** Whether the node under the cursor is an opus. */
    predicate SelectedIsOpus()
      reads this, menu, arena
    {
      menu.selected.Some? && IsOpus(arena.nodes, menu.selected.value)
    }

    /**
     * `set_playing` as it is meant to work: enter `playing`; only when an
     * opus is under the cursor, stop the current opus, load the selected
     * one, play it, and light the playing lamps. The code as written never
     * loads the selection (`SetPlayingAsWritten`); `update` and
     * `reset_playing` here call this corrected version.
     */
    method SetPlaying()
      requires Valid() && state != Paused
      modifies this, indicators, nowPlaying
      ensures Valid() && state == Playing && updates == old(updates) && nowPlaying.data == old(nowPlaying.data)
      ensures SelectedIsOpus() ==>
                && indicators.Shows(Playing) && nowPlaying.current == menu.selected.value
                && nowPlaying.history == Pushed(old(nowPlaying.history), old(nowPlaying.current))
                && nowPlaying.calls == old(nowPlaying.calls) + [Call(OpusStop, old(nowPlaying.current)),
                                                                Call(OpusPlay, menu.selected.value)]
      ensures !SelectedIsOpus() ==> View() == old(View()).(state := Playing)
      ensures indicators.power == old(indicators.power) && indicators.mute == old(indicators.mute)
      ensures indicators.repeat == old(indicators.repeat) && indicators.shuffle == old(indicators.shuffle)
    {
      state := Playing;
      if SelectedIsOpus() {
        nowPlaying.Invoke(OpusStop);
        nowPlaying.Load(menu.selected.value);
        nowPlaying.Invoke(OpusPlay);
        SetPlayingIndicators();
      }
    }

    /**
     * `set_playing` as written: the stop, load and play are handed to a
     * coroutine that awaits the result of `opus_stop`, which is not
     * awaitable, so the coroutine ends with a TypeError after the stop and
     * nothing is loaded; the lamps are lit all the same.
     */
    method SetPlayingAsWritten()
      requires Valid() && state != Paused
      modifies this, indicators, nowPlaying
      ensures Valid() && state == Playing && updates == old(updates)
      ensures nowPlaying.current == old(nowPlaying.current) && nowPlaying.history == old(nowPlaying.history)
      ensures SelectedIsOpus() ==>
                indicators.Shows(Playing) &&
                nowPlaying.calls == old(nowPlaying.calls) + [Call(OpusStop, old(nowPlaying.current))]
      ensures !SelectedIsOpus() ==> View() == old(View()).(state := Playing)
    {
      state := Playing;
      if SelectedIsOpus() {
        nowPlaying.Invoke(OpusStop);
        SetPlayingIndicators();
      }
    }

    /** `reset_playing`: play again only if the selected node is not the current opus. */
    method ResetPlaying()
      requires Valid() && state == Playing
      modifies this, indicators, nowPlaying
      ensures Valid() && updates == old(updates) && nowPlaying.data == old(nowPlaying.data) && state == Playing
      ensures menu.selected == Some(old(nowPlaying.current)) ==> View() == old(View())
      ensures menu.selected != Some(old(nowPlaying.current)) && SelectedIsOpus() ==>
                && indicators.Shows(Playing) && nowPlaying.current == menu.selected.value
                && nowPlaying.history == Pushed(old(nowPlaying.history), old(nowPlaying.current))
                && nowPlaying.calls == old(nowPlaying.calls) + [Call(OpusStop, old(nowPlaying.current)),
                                                                Call(OpusPlay, menu.selected.value)]
      ensures !SelectedIsOpus() ==> View() == old(View())
      ensures indicators.power == old(indicators.power) && indicators.mute == old(indicators.mute)
      ensures indicators.repeat == old(indicators.repeat) && indicators.shuffle == old(indicators.shuffle)
    {
      if menu.selected != Some(nowPlaying.current) {
        SetPlaying();
      }
    }

    /** `current_opus_supports_pause`. */
    predicate CanPause()
      reads this, arena, nowPlaying
      requires IsOpus(arena.nodes, nowPlaying.current)
    {
      arena.nodes[nowPlaying.current].kind.opus.pauseSupport
    }

    /** `set_paused`: only an opus that supports pausing is paused; otherwise nothing happens. */
    method SetPaused()
      requires Valid()
      modifies this, indicators, nowPlaying
      ensures Valid() && updates == old(updates) && nowPlaying.data == old(nowPlaying.data)
      ensures !CanPause() ==> View() == old(View())
      ensures CanPause() ==>
                && state == Paused && indicators.Shows(Paused)
                && nowPlaying.current == old(nowPlaying.current) && nowPlaying.history == old(nowPlaying.history)
                && nowPlaying.calls == old(nowPlaying.calls) + [Call(OpusPause, nowPlaying.current)]
      ensures indicators.power == old(indicators.power) && indicators.mute == old(indicators.mute)
      ensures indicators.repeat == old(indicators.repeat) && indicators.shuffle == old(indicators.shuffle)
    {
      if CanPause() {
        state := Paused;
        SetPausedIndicators();
        nowPlaying.Invoke(OpusPause);
      }
    }

    /** `set_unpaused`: back to playing the same opus. */
    method SetUnpaused()
      requires Valid()
      modifies this, indicators, nowPlaying
      ensures Valid() && updates == old(updates) && nowPlaying.data == old(nowPlaying.data)
      ensures state == Playing && indicators.Shows(Playing)
      ensures nowPlaying.current == old(nowPlaying.current) && nowPlaying.history == old(nowPlaying.history)
      ensures nowPlaying.calls == old(nowPlaying.calls) + [Call(OpusUnpause, nowPlaying.current)]
      ensures indicators.power == old(indicators.power) && indicators.mute == old(indicators.mute)
      ensures indicators.repeat == old(indicators.repeat) && indicators.shuffle == old(indicators.shuffle)
    {
      state := Playing;
      SetPlayingIndicators();
      nowPlaying.Invoke(OpusUnpause);
    }

    /** `set_stopped`. */
    method SetStopped()
      requires Valid()
      modifies this, indicators, nowPlaying
      ensures Valid() && updates == old(updates) && nowPlaying.data == old(nowPlaying.data)
      ensures state == Stopped && indicators.Shows(Stopped)
      ensures nowPlaying.current == old(nowPlaying.current) && nowPlaying.history == old(nowPlaying.history)
      ensures nowPlaying.calls == old(nowPlaying.calls) + [Call(OpusStop, nowPlaying.current)]
      ensures indicators.power == old(indicators.power) && indicators.mute == old(indicators.mute)
      ensures indicators.repeat == old(indicators.repeat) && indicators.shuffle == old(indicators.shuffle)
    {
      state := Stopped;
      SetStoppedIndicators();
      nowPlaying.Invoke(OpusStop);
    }

    /**
     * The state `update` leaves: the play/pause/stop state machine. Unknown
     * actions, and stop or pause while stopped, do nothing; play or pause
     * while paused resume; stop stops; pause pauses only an opus that can
     * pause; play starts the selected opus unless it is the one already
     * playing.
     */
    twostate predicate Updated(action: string)
      reads this, arena, menu, nowPlaying, volume, messages, indicators
      requires old(Valid()) && Valid()
    {
      && updates == old(updates) && nowPlaying.data == old(nowPlaying.data)
      && (action !in ValidActions ==> View() == old(View()))
      && (old(state) == Stopped && action in ["stop", "pause"] ==> View() == old(View()))
      && (old(state) == Paused && action in ["play", "pause"] ==>
            && state == Playing && indicators.Shows(Playing)
            && nowPlaying.current == old(nowPlaying.current) && nowPlaying.history == old(nowPlaying.history)
            && nowPlaying.calls == old(nowPlaying.calls) + [Call(OpusUnpause, nowPlaying.current)])
      && (old(state) != Stopped && action == "stop" ==>
            && state == Stopped && indicators.Shows(Stopped)
            && nowPlaying.current == old(nowPlaying.current) && nowPlaying.history == old(nowPlaying.history)
            && nowPlaying.calls == old(nowPlaying.calls) + [Call(OpusStop, nowPlaying.current)])
      && (old(state) == Playing && action == "pause" && !CanPause() ==> View() == old(View()))
      && (old(state) == Playing && action == "pause" && CanPause() ==>
            && state == Paused && indicators.Shows(Paused)
            && nowPlaying.current == old(nowPlaying.current) && nowPlaying.history == old(nowPlaying.history)
            && nowPlaying.calls == old(nowPlaying.calls) + [Call(OpusPause, nowPlaying.current)])
      && (old(state) == Playing && action == "play" && menu.selected == Some(old(nowPlaying.current)) ==>
            View() == old(View()))
      && (action == "play" && (old(state) == Stopped || (old(state) == Playing && menu.selected != Some(old(nowPlaying.current)))) ==>
            && state == Playing
            && (SelectedIsOpus() ==>
                  && indicators.Shows(Playing) && nowPlaying.current == menu.selected.value
                  && nowPlaying.history == Pushed(old(nowPlaying.history), old(nowPlaying.current))
                  && nowPlaying.calls == old(nowPlaying.calls) + [Call(OpusStop, old(nowPlaying.current)),
                                                                  Call(OpusPlay, menu.selected.value)])
            && (!SelectedIsOpus() ==> View() == old(View()).(state := Playing)))
      && indicators.power == old(indicators.power) && indicators.mute == old(indicators.mute)
      && indicators.repeat == old(indicators.repeat) && indicators.shuffle == old(indicators.shuffle)
    }

    /** `update`. */
    method Update(action: string)
      requires Valid()
      modifies this, indicators, nowPlaying
      ensures Valid() && Updated(action)
    {
      if action !in ValidActions {
        return;
      }
      match state
      case Playing =>
        if action == "play" {
          ResetPlaying();
        } else if action == "stop" {
          SetStopped();
        } else {
          SetPaused();
        }
      case Paused =>
        if action == "stop" {
          SetStopped();
        } else {
          SetUnpaused();
        }
      case Stopped =>
        if action == "play" {
          SetPlaying();
        }
    }

    // -------------------------------------------------------------------------
    // Repeat and shuffle

    /** Replace the settings of the current opus in the tree. */
    method StoreCurrentOpus(o: Opus)
      requires Valid()
      modifies arena
      ensures Valid() && SameLists(old(arena.nodes), arena.nodes) && arena.next == old(arena.next)
      ensures arena.nodes == old(arena.nodes)[nowPlaying.current := old(arena.nodes)[nowPlaying.current].(kind := Playable(o))]
    {
      var co := nowPlaying.current;
      var n := arena.nodes[co];
      RewriteOk(arena.nodes, co, n.(kind := Playable(o)));
      SameListsStore(arena.nodes, co, n.(kind := Playable(o)));
      arena.Store(co, n.(kind := Playable(o)));
    }

    /** Light or darken the repeat or shuffle lamp, which the play state does not depend on. */
    method SetSettingLamp(lamp: Lamp, on: bool)
      requires Valid() && (lamp == RepeatLamp || lamp == ShuffleLamp)
      modifies indicators
      ensures Valid()
      ensures indicators.repeat == (if lamp == RepeatLamp then on else old(indicators.repeat))
      ensures indicators.shuffle == (if lamp == ShuffleLamp then on else old(indicators.shuffle))
      ensures indicators.play == old(indicators.play) && indicators.pause == old(indicators.pause)
      ensures indicators.stop == old(indicators.stop) && indicators.power == old(indicators.power)
      ensures indicators.mute == old(indicators.mute)
    {
      indicators.Set(lamp, on);
    }

    /** Record a call on the current opus. */
    method CallOpus(call: OpusCall)
      requires Valid()
      modifies nowPlaying
      ensures Valid() && nowPlaying.calls == old(nowPlaying.calls) + [Call(call, nowPlaying.current)]
      ensures nowPlaying.current == old(nowPlaying.current) && nowPlaying.history == old(nowPlaying.history)
      ensures nowPlaying.data == old(nowPlaying.data)
    {
      nowPlaying.Invoke(call);
    }

    /**
     * The state `toggle_repeat` leaves: with repeat support, flip the current opus's setting,
     * light the lamp when it is now on, and tell the opus; otherwise nothing.
     */
    twostate predicate RepeatToggled()
      reads this, arena, menu, nowPlaying, volume, messages, indicators
      requires old(Valid()) && Valid()
    {
      && SameLists(old(arena.nodes), arena.nodes) && arena.next == old(arena.next)
      && state == old(state) && updates == old(updates) && nowPlaying.current == old(nowPlaying.current)
      && nowPlaying.history == old(nowPlaying.history) && nowPlaying.data == old(nowPlaying.data)
      && (var co := nowPlaying.current;
          var o := old(arena.nodes)[co].kind.opus;
          && (!o.repeatSupport ==> arena.nodes == old(arena.nodes) && View() == old(View()))
          && (o.repeatSupport ==>
                && arena.nodes == old(arena.nodes)[co := old(arena.nodes)[co].(kind := Playable(o.(repeat := Flipped(o.repeat))))]
                && indicators.repeat == Flipped(o.repeat).Truthy()
                && nowPlaying.calls == old(nowPlaying.calls) + [Call(OpusUpdateRepeat, co)]))
      && indicators.play == old(indicators.play) && indicators.pause == old(indicators.pause)
      && indicators.stop == old(indicators.stop) && indicators.shuffle == old(indicators.shuffle)
      && indicators.power == old(indicators.power) && indicators.mute == old(indicators.mute)
    }

    /** `toggle_repeat`. */
    method ToggleRepeat()
      requires Valid()
      modifies this, arena, indicators, nowPlaying
      ensures Valid() && RepeatToggled()
    {
      var co := nowPlaying.current;
      var n := arena.nodes[co];
      var o := n.kind.opus;
      if o.repeatSupport {
        StoreCurrentOpus(o.(repeat := Flipped(o.repeat)));
        if o.repeat.Truthy() {
          SetSettingLamp(RepeatLamp, false);
        } else {
          SetSettingLamp(RepeatLamp, true);
        }
        CallOpus(OpusUpdateRepeat);
      }
    }

    /** The state `toggle_shuffle` leaves: as `toggle_repeat`, for the shuffle setting and lamp. */
    twostate predicate ShuffleToggled()
      reads this, arena, menu, nowPlaying, volume, messages, indicators
      requires old(Valid()) && Valid()
    {
      && SameLists(old(arena.nodes), arena.nodes) && arena.next == old(arena.next)
      && state == old(state) && updates == old(updates) && nowPlaying.current == old(nowPlaying.current)
      && nowPlaying.history == old(nowPlaying.history) && nowPlaying.data == old(nowPlaying.data)
      && (var co := nowPlaying.current;
          var o := old(arena.nodes)[co].kind.opus;
          && (!o.shuffleSupport ==> arena.nodes == old(arena.nodes) && View() == old(View()))
          && (o.shuffleSupport ==>
                && arena.nodes == old(arena.nodes)[co := old(arena.nodes)[co].(kind := Playable(o.(shuffle := Flipped(o.shuffle))))]
                && indicators.shuffle == Flipped(o.shuffle).Truthy()
                && nowPlaying.calls == old(nowPlaying.calls) + [Call(OpusUpdateShuffle, co)]))
      && indicators.play == old(indicators.play) && indicators.pause == old(indicators.pause)
      && indicators.stop == old(indicators.stop) && indicators.repeat == old(indicators.repeat)
      && indicators.power == old(indicators.power) && indicators.mute == old(indicators.mute)
    }

    /** `toggle_shuffle`. */
    method ToggleShuffle()
      requires Valid()
      modifies this, arena, indicators, nowPlaying
      ensures Valid() && ShuffleToggled()
    {
      var co := nowPlaying.current;
      var n := arena.nodes[co];
      var o := n.kind.opus;
      if o.shuffleSupport {
        StoreCurrentOpus(o.(shuffle := Flipped(o.shuffle)));
        if o.shuffle.Truthy() {
          SetSettingLamp(ShuffleLamp, false);
        } else {
          SetSettingLamp(ShuffleLamp, true);
        }
        CallOpus(OpusUpdateShuffle);
      }
    }

    // -------------------------------------------------------------------------
    // The menu cursor

    /** The cursor of the current list. */
    function Cursor(): nat
      reads this, menu, arena
      requires menu.Valid(arena)
    {
      arena.nodes[menu.current].kind.index
    }

    /**
     * Only the cursor of the current list has moved, and only the tree and
     * the menu may have changed.
     */
    twostate predicate CursorOnlyMoved()
      reads this, arena, menu, nowPlaying, volume, messages, indicators
      requires old(Valid()) && Valid()
    {
      && SameLists(old(arena.nodes), arena.nodes) && arena.next == old(arena.next)
      && menu.current == old(menu.current)
      && (forall k :: k in old(arena.nodes) && k != menu.current ==> arena.nodes[k] == old(arena.nodes)[k])
      && arena.nodes[menu.current] == old(arena.nodes)[menu.current].(kind := arena.nodes[menu.current].kind)
    }

    /** The state `menu_advance` leaves: one step forward while not on the last child; no wrap-around. */
    twostate predicate Advanced()
      reads this, arena, menu, nowPlaying, volume, messages, indicators
      requires old(Valid()) && Valid()
    {
      && CursorOnlyMoved()
      && var kids := Children(old(arena.nodes), menu.current);
         var i := old(Cursor());
         && (i < |kids| - 1 ==> Cursor() == i + 1 && menu.selected == Some(kids[i + 1]))
         && (i >= |kids| - 1 ==> arena.nodes == old(arena.nodes) && menu.selected == old(menu.selected))
    }

    /** Move the cursor of the current list to `i`, leaving the selection to the caller. */
    method SetCursor(i: nat)
      requires Valid()
      modifies arena
      ensures Valid() && CursorOnlyMoved() && Cursor() == i
    {
      label start:
      var cur := arena.nodes[menu.current];
      RewriteOk(arena.nodes, menu.current, cur.(kind := cur.kind.(index := i)));
      SameListsStore(arena.nodes, menu.current, cur.(kind := cur.kind.(index := i)));
      arena.Store(menu.current, cur.(kind := cur.kind.(index := i)));
      ListsKept@start();
    }

    /** `menu_advance`. */
    method MenuAdvance()
      requires Valid()
      modifies arena, menu
      ensures Valid() && Advanced()
    {
      var cur := arena.nodes[menu.current];
      var kids := cur.kind.children;
      if cur.kind.index < |kids| - 1 {
        var i := cur.kind.index + 1;
        SetCursor(i);
        label moved:
        menu.selected := Some(kids[i]);
        MenuMoved@moved();
      }
    }

    /**
     * `menu_retreat`: one step back while not on the first child. A cursor
     * left past the end by `reset_children` is decremented and then raises
     * IndexError when the child is fetched.
     */
    twostate predicate Retreated(new fault: Option<Fault>)
      reads this, arena, menu, nowPlaying, volume, messages, indicators
      requires old(Valid()) && Valid()
    {
      && CursorOnlyMoved()
      && var kids := Children(old(arena.nodes), menu.current);
         var i := old(Cursor());
         && (i == 0 ==> arena.nodes == old(arena.nodes) && menu.selected == old(menu.selected) && fault == None)
         && (0 < i <= |kids| ==> Cursor() == i - 1 && menu.selected == Some(kids[i - 1]) && fault == None)
         && (i > |kids| ==> Cursor() == i - 1 && menu.selected == old(menu.selected) && fault == Some(IndexError))
    }

    /** `menu_retreat`. */
    method MenuRetreat() returns (fault: Option<Fault>)
      requires Valid()
      modifies arena, menu
      ensures Valid() && Retreated(fault)
    {
      fault := None;
      var cur := arena.nodes[menu.current];
      var kids := cur.kind.children;
      if cur.kind.index > 0 {
        var i := cur.kind.index - 1;
        SetCursor(i);
        if i < |kids| {
          label moved:
          menu.selected := Some(kids[i]);
          MenuMoved@moved();
        } else {
          fault := Some(IndexError);
        }
      }
    }

    /**
     * `menu_select`: descend into the selected node when it has children,
     * selecting the child under its cursor and making the list it was
     * entered from its parent. Nothing selected raises AttributeError; a
     * stale cursor raises IndexError after the descent.
     */
    twostate predicate Descended(new fault: Option<Fault>)
      reads this, arena, menu, nowPlaying, volume, messages, indicators
      requires old(Valid()) && Valid()
    {
      && SameLists(old(arena.nodes), arena.nodes) && arena.next == old(arena.next)
      && (old(menu.selected) == None ==>
            && fault == Some(AttributeError) && arena.nodes == old(arena.nodes)
            && menu.current == old(menu.current) && menu.selected == None)
      && var sel := old(menu.selected);
         && (sel.Some? && !HasChildren(old(arena.nodes)[sel.value]) ==>
               fault == None && arena.nodes == old(arena.nodes) && menu.current == old(menu.current) && menu.selected == sel)
         && (sel.Some? && HasChildren(old(arena.nodes)[sel.value]) ==>
               && menu.current == sel.value
               && var kids := Children(old(arena.nodes), sel.value);
                  var i := old(arena.nodes)[sel.value].kind.index;
                  && (i < |kids| ==> fault == None && menu.selected == Some(kids[i]) &&
                                     arena.nodes == old(arena.nodes)[sel.value := old(arena.nodes)[sel.value].(parent := Some(old(menu.current)))])
                  && (i >= |kids| ==> fault == Some(IndexError) && menu.selected == sel && arena.nodes == old(arena.nodes)))
    }

    /** `menu_select`. */
    method MenuSelect() returns (fault: Option<Fault>)
      requires Valid()
      modifies arena, menu
      ensures Valid() && Descended(fault)
    {
      label start:
      fault := None;
      if menu.selected.None? {
        fault := Some(AttributeError);
        return;
      }
      var sel := menu.selected.value;
      var n := arena.nodes[sel];
      if HasChildren(n) {
        var from := menu.current;
        menu.current := sel;
        if n.kind.index < |n.kind.children| {
          menu.selected := Some(n.kind.children[n.kind.index]);
          RewriteOk(arena.nodes, sel, n.(parent := Some(from)));
          SameListsStore(arena.nodes, sel, n.(parent := Some(from)));
          arena.Store(sel, n.(parent := Some(from)));
        } else {
          fault := Some(IndexError);
        }
        ListsKept@start();
      }
    }

    /**
     * `menu_escape`: go up to the parent list, selecting the child under its
     * cursor; at a list with no parent nothing happens. A stale cursor in
     * the parent raises IndexError after the move.
     */
    twostate predicate Escaped(new fault: Option<Fault>)
      reads this, arena, menu, nowPlaying, volume, messages, indicators
      requires old(Valid()) && Valid()
    {
      && arena.nodes == old(arena.nodes)
      && (old(arena.nodes)[old(menu.current)].parent == None ==>
            fault == None && menu.current == old(menu.current) && menu.selected == old(menu.selected))
      && var p := old(arena.nodes)[old(menu.current)].parent;
         p.Some? ==>
           && menu.current == p.value
           && var kids := Children(arena.nodes, p.value);
              var i := arena.nodes[p.value].kind.index;
              && (i < |kids| ==> fault == None && menu.selected == Some(kids[i]))
              && (i >= |kids| ==> fault == Some(IndexError) && menu.selected == old(menu.selected))
    }

    /** `menu_escape`. */
    method MenuEscape() returns (fault: Option<Fault>)
      requires Valid()
      modifies menu
      ensures Valid() && Escaped(fault)
    {
      fault := None;
      var p := arena.nodes[menu.current].parent;
      if p.Some? {
        menu.current := p.value;
        var n := arena.nodes[p.value];
        if n.kind.index < |n.kind.children| {
          menu.selected := Some(n.kind.children[n.kind.index]);
        } else {
          fault := Some(IndexError);
        }
      }
    }

    // -------------------------------------------------------------------------
    // State updates

    /**
     * `schedule_state_update`: queue a snapshot of the whole state. The
     * pending messages go into it and are flushed; when the breadcrumb
     * raises, they are flushed all the same and nothing is queued.
     */
    method ScheduleStateUpdate() returns (fault: Option<Fault>)
      requires Valid()
      modifies this, messages
      ensures Valid() && messages.pending == [] && state == old(state)
      ensures match menu.ComposeData(arena)
              case Raised(f) => fault == Some(f) && updates == old(updates)
              case Done(m) =>
                && fault == None
                && updates == old(updates) + [StateUpdate("OK", state.Name(), arena.nodes[menu.current].component,
                                                     old(messages.pending), m, nowPlaying.data, volume.level,
                                                     indicators.Compose())]
    {
      fault := None;
      var batch := messages.Compose();
      match menu.ComposeData(arena)
      case Raised(f) =>
        fault := Some(f);
      case Done(m) =>
        updates := updates + [StateUpdate("OK", state.Name(), arena.nodes[menu.current].component, batch, m,
                                     nowPlaying.data, volume.Level(), indicators.Compose())];
    }
  }
}
