# Opuscule, modelled in Dafny

Opuscule is a media-appliance server. It keeps a menu tree of media
sources and a radio-style play state. Clients drive it with short commands
(`advance`, `select`, `play`, `fav`, `louder`, ...), and after each command
it broadcasts the resulting state to every connected client. This project
models the server's in-process state engine, the favorites records its
audio components save and load, and the text layout of its three test
clients. It then proves what each of those parts promises.

The modules follow the program's structure:

- `MenuTree` models the menu tree of `base_classes.py` as an arena: a class
  whose `nodes` map gives each node its labels, component tag, parent and
  kind (a list with children and a cursor, an opus, or a command). It
  covers `selected_node`, `add_child`, `reset_children`,
  `update_menu_labels`, `sort_children`, `get_path` and `add_favorite`.
- `RadioParts` and `Radio` model `radiostate.py`. `RadioParts` holds the
  volume, the message queue, the indicator lamps, the now-playing record
  with its play history, and the menu snapshot. `Radio` holds the
  `RadioState` machine: play, pause and stop, the repeat and shuffle
  toggles, the menu cursor and the scheduled state update. Calls into the
  playback backend are logged as values.
- `Opuscule` models `opuscule.py`: the command table, component
  registration, the start-up of every component, and the `OpusculeController`
  handlers.
- `SuperFavorites` models the mirror lists of `components/superfavorites.py`.
  `Registry` holds the invariants that keep the mirrors and the registered
  components in step. `MenuBuild` turns a tree value into arena nodes.
- `Records` models the shared favorites save and load loop and the flat
  metadata records. `Library`, `Streaming` and `Boodler` model each
  component's operai, records, loaders and menu shapes.
- `MenuLayout` and `Broadcast` hold the menu and now-playing layout that the
  clients share. `TuiClient`, `SimpleClient` and `CliClient` model the
  `TextLine` and display classes of the three test clients.
- `Text` gives the Python string behaviour the code relies on: clamped
  slicing, `str`/`int` on decimal text, `split` and string order.
  `Wrappers` holds `Option`, `Outcome` and the Python exceptions the model
  raises.

State that the source updates in place is a Dafny `class`: the arena, the
radio state, the controller and the client lines. Methods on those classes
state the whole new state. Pure rules are functions with lemmas beside them.
Python exceptions the source can raise are modelled as results
(`Raised(IndexError)`, `Some(KeyError)`), not as preconditions.

## Model

| member | source | states |
|---|---|---|
| MenuTree.MakeLabels | base_classes.py:15-19 | a node's labels hold exactly `name`, `shortname` and `comment`, with the values given |
| MenuTree.BaseOpus | base_classes.py:123-134 | a new opus supports neither shuffle, repeat nor pause, and both settings are the falsy `0` |
| MenuTree.ListNode | base_classes.py:25-30 | a new list has no parent, no children, its cursor at 0, the given labels and its subclass's tag |
| MenuTree.OpusNode | base_classes.py:123-134 | a new opus node has no parent and carries the given labels, tag and opus attributes |
| MenuTree.CommandNode | base_classes.py:177-181 | a command is a leaf with no parent and no children |
| MenuTree.SelectedNode | base_classes.py:32-34 | None when the list has no children; `children[index]` exactly when there are children and the cursor is in range; IndexError otherwise |
| MenuTree.AddChildTo | base_classes.py:39-41 | the child is appended after the unchanged earlier children, its parent becomes the list, and no other node changes |
| MenuTree.AddChildKeepsWellFormed | base_classes.py:39-41 | appending a child keeps every parent, child and favorites reference pointing at an existing node |
| MenuTree.ResetChildrenOf | base_classes.py:43-44 | the list loses its children but keeps its cursor, labels and role; no other node changes |
| MenuTree.ResetKeepsWellFormed | base_classes.py:43-44 | emptying a list keeps the tree's references intact |
| MenuTree.ResetLeavesStaleCursor | base_classes.py:32-44 | after a reset the cursor is not moved back, so a list that regains one child with a cursor past 0 raises IndexError on `selected_node` |
| MenuTree.RelabelAsWrittenMissesShortName | base_classes.py:46-49 | as written, a new short name is stored under `short_name` and the `shortname` key keeps its old value |
| MenuTree.Relabel | base_classes.py:46-49 | the intended update overwrites `name`, `shortname` and `comment` and keeps every other key |
| MenuTree.RelabelFresh | base_classes.py:46-49 | relabelling a freshly built node gives the labels it would have been built with |
| MenuTree.InsertByName | base_classes.py:51-54 | inserting one child into the sorted run adds exactly that child |
| MenuTree.SortByName | base_classes.py:51-54 | the intended sort is a permutation of the children |
| MenuTree.InsertKeepsSorted | base_classes.py:51-54 | inserting into a run sorted by name keeps it sorted |
| MenuTree.SortByNameSorted | base_classes.py:51-54 | the intended sort orders the children by name, by Python's string order |
| MenuTree.InsertWithKey | base_classes.py:51-54 | inserting keeps the order of the children sharing any one name |
| MenuTree.SortByNameStable | base_classes.py:51-54 | the intended sort is stable: children with the same name keep their relative order |
| MenuTree.SortAsWrittenFails | base_classes.py:51-54 | as written the key reads `.labels`, which no node has, so sorting a non-empty list raises AttributeError |
| MenuTree.Ancestor | base_classes.py:56-61 | the parent chain starts at the node itself and only visits nodes of the tree |
| MenuTree.PathOfDepth | base_classes.py:56-61 | with enough recursion depth, the path of a node `d` levels below root has `d` records ordered from the top down |
| MenuTree.AncestorsDistinct | base_classes.py:56-61 | below root the chain of parents never repeats a node |
| MenuTree.DepthBound | base_classes.py:56-61 | a node `d` levels below root has `d` below the number of nodes, so that bound suffices as recursion depth |
| MenuTree.GetPathBelowRoot | base_classes.py:56-61 | `get_path` on a node `d` levels below root succeeds with `d` label records, from the child of root down to and including the node; root gives `[]` |
| MenuTree.FavoritesOf | base_classes.py:87-91 | an audio component's favorites node is a menu list |
| MenuTree.AddFavoriteTo | base_classes.py:98-100 | after `add_favorite` the item is among the favorites, the component keeps its favorites node and the tree stays well formed |
| MenuTree.AddFavoriteIdempotent | base_classes.py:98-100 | adding the same favorite twice has the effect of adding it once |
| MenuTree.AddFavoriteKeepsDistinct | base_classes.py:98-100 | a favorites list without duplicates keeps none; it grows only at the end, by at most one |
| MenuTree.Arena.NewList | base_classes.py:25-30 | creates one new list node and changes no other node |
| MenuTree.Arena.NewOpus | base_classes.py:123-134 | creates one new opus node and changes no other node |
| MenuTree.Arena.Append | base_classes.py:39-41 | a new node becomes the list's last child with the list as parent; the list keeps its cursor and role and no other node changes |
| MenuTree.Arena.AddChild | base_classes.py:39-41 | the tree becomes the one `AddChildTo` describes |
| MenuTree.Arena.ResetChildren | base_classes.py:43-44 | the tree becomes the one `ResetChildrenOf` describes |
| MenuTree.Arena.UpdateMenuLabels | base_classes.py:46-49 | only the node's labels change, as `Relabel` describes |
| MenuTree.Arena.SortChildren | base_classes.py:51-54 | the children end up sorted by name, as a permutation of the old ones, stable for every name; nothing else changes |
| MenuTree.Arena.AddFavorite | base_classes.py:98-100 | the tree becomes the one `AddFavoriteTo` describes |
| MenuTree.Arena.NewAudioComponent | base_classes.py:87-91 | a new component list whose only child is a fresh `Favorites` list, which has the component as parent |
| RadioParts.Volume.constructor | radiostate.py:186-196 | the volume starts at 80, unmuted, within bounds |
| RadioParts.Volume.Louder | radiostate.py:198-206 | one step of 5 up, stopping at 100; the mute flag is untouched and the level stays in [0, 100] |
| RadioParts.Volume.Softer | radiostate.py:208-216 | one step of 5 down, stopping at 0; the mute flag is untouched and the level stays in [0, 100] |
| RadioParts.Volume.ToggleMute | radiostate.py:218-226 | the mute flag flips and the level is kept for when the sound returns |
| RadioParts.Volume.Level | radiostate.py:228-232 | the reported level lies in [0, 100] |
| RadioParts.Messages.constructor | radiostate.py:161-163 | no message is pending at first |
| RadioParts.Messages.Queue | radiostate.py:165-167 | a FAULT, INFO or ALERT message is appended with its audience; any other type is dropped |
| RadioParts.Messages.Flush | radiostate.py:169-170 | the pending batch is emptied |
| RadioParts.Messages.Compose | radiostate.py:172-176 | hands out exactly the pending batch, all of known types, and leaves none pending |
| RadioParts.PlayState.Name | radiostate.py:289-326 | a play state is reported as one of `playing`, `paused`, `stopped` |
| RadioParts.PlayStateNamesDistinct | radiostate.py:289-326 | the three reported names tell the play states apart |
| RadioParts.Indicators.constructor | radiostate.py:236-245 | power and stop lit, every other lamp dark |
| RadioParts.Indicators.Set | radiostate.py:247-266 | the named lamp takes the new state and every other lamp keeps its own |
| RadioParts.Indicators.Compose | radiostate.py:268-272 | the lamps are reported under their seven names with their current states |
| RadioParts.ShowsOne | radiostate.py:406-431 | the play, paused and stopped lamp patterns are pairwise different, so the lamps identify the play state |
| RadioParts.Pushed | radiostate.py:80-85 | appending to a history capped at 100 keeps the newest 100 entries, the new one last |
| RadioParts.PushedKeeps | radiostate.py:80-85 | no entry but the oldest is lost, and that only when the history is full |
| RadioParts.FieldsDistinct | radiostate.py:96-123 | the now-playing record has 26 distinct keys |
| RadioParts.EmptyRecord | radiostate.py:96-123 | `reset_data` leaves exactly the 26 keys, each with an empty string |
| RadioParts.Overlaid | radiostate.py:133-145 | an overlay keeps the record's key set: unknown keys are dropped |
| RadioParts.RevertTargetAsWritten | radiostate.py:87-90 | as written `revert` raises IndexError exactly when fewer than two operai were played |
| RadioParts.RevertTarget | radiostate.py:87-90 | the intended target fails only on an empty history |
| RadioParts.RevertAfterLoad | radiostate.py:87-94 | after a `load`, reverting returns to the opus that was current before it |
| RadioParts.RevertAsWrittenMissesLast | radiostate.py:87-94 | with a history `[a, b]`, loading again and reverting as written goes to `b`, not to the opus played last; with one entry it raises |
| RadioParts.NullOpus | radiostate.py:77-79 | the null opus is a parentless base opus labelled `Null`, with every capability off |
| RadioParts.NowPlaying.constructor | radiostate.py:77-82 | the null opus is current, the history is empty and the record holds the 26 empty keys |
| RadioParts.NowPlaying.Load | radiostate.py:92-94 | the old current opus joins the capped history and the new one becomes current |
| RadioParts.NowPlaying.Invoke | radiostate.py:90 | one call on the current opus is recorded and nothing else changes |
| RadioParts.NowPlaying.RevertAsWritten | radiostate.py:87-90 | as written: IndexError, or `play_history[1]` becomes current and is played |
| RadioParts.NowPlaying.Revert | radiostate.py:87-90 | the latest history entry becomes current and is played; IndexError on an empty history |
| RadioParts.NowPlaying.ResetData | radiostate.py:96-123 | the record becomes the 26 empty keys and nothing else changes |
| RadioParts.NowPlaying.Overlay | radiostate.py:133-138 | each key of the extra record that the record knows takes the extra value; the others keep theirs |
| RadioParts.NowPlaying.UpdateData | radiostate.py:125-145 | the record is reset, overlaid with the current opus's metadata, then with the song data |
| RadioParts.NowPlayingRecord | radiostate.py:125-145 | after `update_data` every one of the 26 keys holds the song's value if it has one, else the metadata's, else "" |
| RadioParts.UnknownKeysDropped | radiostate.py:133-145 | a key outside the 26 never reaches the record, from either source |
| RadioParts.SelKindTellsKindsApart | radiostate.py:55-62 | the reported kind tells an absent selection, an opus, a list and a command apart: two selections reported alike are of the same class |
| RadioParts.ChildLabels | radiostate.py:50-53 | one labels record per child of the current list, in order |
| RadioParts.Menu.constructor | radiostate.py:29-32 | a fresh root list is both root and current; nothing is selected |
| RadioParts.Menu.ComposeData | radiostate.py:48-69 | the menu data is the current list's path, its children's labels, its cursor and the selected kind; it fails exactly when `get_path` fails |
| Radio.Flipped | radiostate.py:445-453 | a toggle leaves the number 0 or 1, with the opposite truthiness |
| Radio.FlippedTwice | radiostate.py:445-473 | two toggles restore a 0/1 setting; any other truthy setting comes back as 1 |
| Radio.RadioState.constructor | radiostate.py:280-291 | a fresh root list that is current, the null opus current and unplayed, volume 80 unmuted, no message, power and stop lit, state `stopped` |
| Radio.RadioState.SetPlayingIndicators | radiostate.py:406-413 | play lit, pause and stop dark; other lamps untouched |
| Radio.RadioState.SetPausedIndicators | radiostate.py:415-422 | play and pause lit, stop dark; other lamps untouched |
| Radio.RadioState.SetStoppedIndicators | radiostate.py:424-431 | stop lit, play and pause dark; other lamps untouched |
| Radio.RadioState.SetPlaying | radiostate.py:328-352 | intended: the state becomes `playing`; with an opus selected the old opus is stopped, the selected one loaded into history order and played, and the playing lamps lit; otherwise only the state changes |
| Radio.RadioState.SetPlayingAsWritten | radiostate.py:328-352 | as written the coroutine awaits the non-awaitable result of `opus_stop`: the old opus is stopped and the lamps lit, but nothing is loaded or played |
| Radio.RadioState.ResetPlaying | radiostate.py:355-364 | playing the opus already current changes nothing; any other selected opus is started as the corrected `set_playing` starts it |
| Radio.RadioState.SetPaused | radiostate.py:366-377 | only a current opus that supports pausing is paused, with play and pause lit; otherwise nothing changes |
| Radio.RadioState.SetUnpaused | radiostate.py:379-386 | back to `playing` on the same opus, with the playing lamps and an unpause call |
| Radio.RadioState.SetStopped | radiostate.py:388-395 | `stopped`, stop lamp alone, and a stop call on the current opus |
| Radio.RadioState.Update | radiostate.py:295-326 | the play/pause/stop machine: unknown actions and stop or pause while stopped change nothing; play or pause while paused resume; stop stops; pause pauses only an opus that can; play starts the selected opus unless it is already current, through the corrected `set_playing`; power, mute, repeat and shuffle lamps never change |
| Radio.RadioState.StoreCurrentOpus | radiostate.py:445-453 | only the current opus's settings change in the tree |
| Radio.RadioState.SetSettingLamp | radiostate.py:449-472 | only the repeat or shuffle lamp changes |
| Radio.RadioState.CallOpus | radiostate.py:453 | one call on the current opus is recorded |
| Radio.RadioState.ToggleRepeat | radiostate.py:435-453 | with repeat support the current opus's repeat flips, the lamp shows the new value and the opus is told; without it nothing changes |
| Radio.RadioState.ToggleShuffle | radiostate.py:455-473 | with shuffle support the current opus's shuffle flips, the lamp shows the new value and the opus is told; without it nothing changes |
| Radio.RadioState.MenuAdvance | radiostate.py:475-482 | the cursor moves one forward and selects that child unless it is on the last child; there is no wrap-around and no other node changes |
| Radio.RadioState.SetCursor | radiostate.py:480-481 | the cursor of the current list moves to the given child; the selection, the list's children and every other node are left alone |
| Radio.RadioState.MenuRetreat | radiostate.py:484-491 | the cursor moves one back and selects that child unless it is at 0; a stale cursor past the end is decremented and raises IndexError |
| Radio.RadioState.MenuSelect | radiostate.py:493-501 | a selected node with children is entered, its child under its cursor selected and its parent set to the list it was entered from; a leaf changes nothing; no selection raises AttributeError; a stale cursor raises IndexError |
| Radio.RadioState.MenuEscape | radiostate.py:503-509 | the parent becomes current with its child under the cursor selected; at a list without a parent nothing happens; a stale cursor raises IndexError |
| Radio.RadioState.ScheduleStateUpdate | radiostate.py:511-526 | queues one snapshot with response `OK`, the play state, the component, the flushed messages, the menu data, the now-playing record, the volume and the lamps; pending messages are flushed even when the path raises |
| Opuscule.NameOf | opuscule.py:79-97 | every command has a name in the table |
| Opuscule.Lookup | opuscule.py:79-97 | a handler is found exactly for the 17 names of the table, and it is the command of that name |
| Opuscule.LookupNameOf | opuscule.py:79-97 | every command is found under its own name |
| Opuscule.CommandTableSize | opuscule.py:79-97 | the table has 17 distinct names |
| Opuscule.FileOf | base_classes.py:102-106 | a component with no saved file reads none |
| Opuscule.Home | opuscule.py:241-248 | the home is the first registered component whose tag is the opus's, and none exactly when no registered component has that tag |
| Opuscule.SavedFiles | base_classes.py:102-106 | saving replaces the component's own file when every favorite could be exported and keeps it otherwise; no other component's file changes; Boodler is saved this way too, as its `save_favorites` intends |
| Opuscule.NewFmRadio | components/sdr.py:23-35 | a fresh, always-met audio component tagged `fmradio`, with an empty Favorites list carrying the same tag |
| Opuscule.NewWxRadio | components/sdr.py:86-101 | a fresh audio component tagged `wxradio` whose requirements are never met |
| Opuscule.NewSettings | settings.py:4-12 | a fresh, plain component tagged `settings` whose requirements are never met |
| Opuscule.Leaves | system.py:14-17 | one single-node tree per command |
| Opuscule.SystemCommandsOk | system.py:14-17 | the system component has four well-formed command leaves |
| Opuscule.NewSystem | system.py:7-20 | a fresh, always-met component tagged `system` whose children are the four commands Logs, Sleep, Restart and Shutdown, in that order |
| Opuscule.Register | opuscule.py:131-146 | a component whose requirements are met is appended to the registry and under root, and an audio component adds one shadow to the super-favorites; any other component changes nothing |
| Opuscule.Join | opuscule.py:115-129 | one component through `register_component` during start-up keeps the registry in start-up order |
| Opuscule.Start | opuscule.py:115-129 | the registrations stop at the first component whose saved favorites fail to load; without such an error all five components that can register do, in order |
| Opuscule.StartRecorded | opuscule.py:115-121 | the library, streaming and Boodler components register in that order, stopping at the first load error |
| Opuscule.StartLibrary | opuscule.py:115 | the library registers exactly when its favorites load |
| Opuscule.StartStreaming | opuscule.py:119 | the streaming component registers exactly when its favorites load |
| Opuscule.StartBoodler | opuscule.py:121 | the Boodler component registers exactly when its favorites load |
| Opuscule.Enroll | opuscule.py:115-121 | a component built without a load error is registered; one whose load raised never reaches the tree |
| Opuscule.BuildLibrary | components/library.py:16-50 | a fresh library component and the error its favorites load raises |
| Opuscule.BuildStreaming | components/streaming.py:22-84 | a fresh streaming component and the error its favorites load raises |
| Opuscule.BuildBoodler | components/boodler.py:12-39 | a fresh Boodler component and the error its favorites load raises |
| Opuscule.StartRadios | opuscule.py:123-125 | the FM radio registers and the weather radio does not |
| Opuscule.StartSystem | opuscule.py:127-129 | the settings component does not register and the system component does |
| Opuscule.NewRadio | opuscule.py:104-112 | a stopped radio whose root holds only the super-favorites list, which is selected |
| Opuscule.AddSuperFavorites | opuscule.py:110-111 | the super-favorites list becomes the only child of root |
| Opuscule.Boot | opuscule.py:104-129 | the radio and registry `__init__` builds; the start-up error is the first load error of the three components that keep favorites files |
| Opuscule.Controller.constructor | opuscule.py:73-129 | a stopped radio with the super-favorites selected under root, the components registered in order, and every registered audio component mirrored in the super-favorites |
| Opuscule.Controller.FindHome | opuscule.py:241-248 | the loop returns the first registered component with the tag, as `Home` defines |
| Opuscule.Controller.SaveFavorites | base_classes.py:102-106 | the files become those `SavedFiles` gives for the component's favorite records, and the fault is the one collecting them raised; a Boodler component is saved as intended rather than as written |
| Opuscule.Controller.AddAndSave | opuscule.py:253-254 | the opus is added to the component's Favorites, the super-favorites keep their shadows, and the files are saved from the new favorites (Boodler's as intended) |
| Opuscule.Controller.RefreshShadows | opuscule.py:255 | afterwards every shadow in the super-favorites has exactly its origin's children |
| Opuscule.Controller.AddToHome | opuscule.py:253-255 | add, save (Boodler's as intended), then refresh every shadow; a save that raises stops before the refresh |
| Opuscule.Controller.DoAddFavorite | opuscule.py:231-257 | no home component changes nothing; a home without Favorites raises AttributeError; an audio home adds the current opus, saves (Boodler's as intended) and refreshes the shadows; the menu, play state, lamps and volume are untouched |
| Opuscule.Controller.AddCurrentFavorite | opuscule.py:231-257 | the body of `do_add_favorite`: the current opus goes to its home component's Favorites, or AttributeError when that home has none, and only the tree and the favorites files change |
| Opuscule.Controller.DoSelect | opuscule.py:176-192 | a selected list is entered as `menu_select` enters it, with its fault passed on; a selected opus is played as `update('play')` plays it, through the corrected `set_playing`; a command or no selection changes nothing; the volume is untouched |
| Opuscule.Controller.DoMute | opuscule.py:225-227 | the mute flag flips, the level stays, the mute lamp shows the flag and no other lamp changes; the menu and the play state are untouched |
| Opuscule.Controller.DoAdvance | opuscule.py:164-166 | the cursor moves as `menu_advance` moves it, never raising; the play state, lamps and volume are untouched |
| Opuscule.Controller.DoRetreat | opuscule.py:168-170 | the cursor moves as `menu_retreat` moves it, and its IndexError is passed on; the play state, lamps and volume are untouched |
| Opuscule.Controller.DoEscape | opuscule.py:172-174 | the menu goes up a level as `menu_escape` takes it, and its IndexError is passed on; the play state, lamps and volume are untouched |
| Opuscule.Controller.DoUpdate | opuscule.py:196-203 | `do_play`, `do_stop` and `do_pause` each give `update` its own name and leave the state `update` leaves; the menu and volume are untouched |
| Opuscule.Controller.DoRepeat | opuscule.py:205-206 | the repeat toggle as `toggle_repeat` makes it; the menu and volume are untouched |
| Opuscule.Controller.DoShuffle | opuscule.py:208-209 | the shuffle toggle as `toggle_shuffle` makes it; the menu and volume are untouched |
| Opuscule.Controller.DoSkip | opuscule.py:211-215 | `opus_next` or `opus_previous` is asked of the current opus and logged; the play state, history, tree, menu, lamps and volume are untouched |
| Opuscule.Controller.DoLouder | opuscule.py:219-220 | the volume steps up as `louder` steps it; nothing else changes |
| Opuscule.Controller.DoSofter | opuscule.py:222-223 | the volume steps down as `softer` steps it; nothing else changes |
| Opuscule.Controller.Run | opuscule.py:164-276 | each command leaves the state its handler leaves: the menu commands move only the menu, play, stop and pause only the play state, its lamps and the current opus, next and previous only log a call, the volume commands only the volume (mute also its lamp), add_favorite only the tree and its home's file, refresh nothing, and shutdown only stops the loop; only select, retreat, escape and add_favorite can raise |
| Opuscule.Controller.Handle | opuscule.py:148-160 | a known name runs its command with exactly the effect `Run` states for it and is answered OK unless its handler raised; an unknown name is answered ERROR and changes nothing |
| SuperFavorites.SuperFavoritesNode | components/superfavorites.py:13-19 | the super-favorites list starts empty, is always available, is tagged `superfavorites` and is named `Favorites` |
| SuperFavorites.OriginOf | components/superfavorites.py:42-45 | a shadow's origin is a list of the tree |
| SuperFavorites.ShadowNode | components/superfavorites.py:42-47 | a new shadow is named after its origin's parent plus ` Favorites`, tagged `superfavorites`, detached, and already holds the origin's children |
| SuperFavorites.Refresh | components/superfavorites.py:54-55 | the shadow's children become exactly its origin's; its cursor, role and every other node stay as they were |
| SuperFavorites.Mirrored | components/superfavorites.py:26-33 | a refresh pass keeps the set of nodes |
| SuperFavorites.MirroredWellFormed | components/superfavorites.py:26-33 | a refresh pass keeps the tree well formed and every shadow a shadow |
| SuperFavorites.MirroredShadowsMatchOrigins | components/superfavorites.py:26-33 | after a pass every shadow refreshed holds exactly its origin's children, also in the resulting tree; every other node is unchanged |
| SuperFavorites.RefreshOneUnmatched | components/superfavorites.py:30-33 | `update_one_favorite_menu` changes nothing when no shadow mirrors the node it is given, which is the case when a component is passed instead of its Favorites list |
| SuperFavorites.MirroredStep | components/superfavorites.py:26-33 | refreshing the shadows one at a time builds the pass up prefix by prefix |
| SuperFavorites.MirroredNone | components/superfavorites.py:26-33 | a pass over no shadows changes nothing |
| SuperFavorites.AddChildMenu | components/superfavorites.py:21-24 | a new shadow of the origin becomes the last child of the super-favorites, with it as parent |
| SuperFavorites.AddChildToShadow | components/superfavorites.py:49-52 | a shadow's `add_child` appends a new shadow of the component's Favorites list, not of the component |
| SuperFavorites.UpdateFavorites | components/superfavorites.py:54-55 | the tree becomes the one `Refresh` describes |
| SuperFavorites.RefreshPicked | components/superfavorites.py:26-33 | one iteration of the refresh loop |
| SuperFavorites.UpdateFavoriteMenus | components/superfavorites.py:26-33 | `update_all_favorite_menus` and `update_one_favorite_menu` leave the tree `Mirrored` describes |
| Registry.AudioOf | opuscule.py:141-146 | the registered audio components, in registration order |
| Registry.MirrorsKept | opuscule.py:141-146 | a change that keeps roles and the super-favorites' children keeps every shadow mirroring its component's Favorites |
| Registry.SameListsKeepMirrors | radiostate.py:475-509 | moving cursors and parents, or changing opus settings, keeps the mirror |
| Registry.FavoriteAddedKeepsMirrors | opuscule.py:253 | `add_favorite` on a registered audio component keeps the mirror and leaves the super-favorites' children alone |
| Registry.RefreshedKeepsMirrors | opuscule.py:255 | `update_all_favorite_menus` keeps the mirror, and afterwards every shadow holds exactly its origin's children |
| Registry.RegisteredPlain | opuscule.py:141-144 | registering a component that is not an audio component keeps the mirror |
| Registry.RegisteredAudio | opuscule.py:141-146 | registering an audio component together with one new shadow of its Favorites keeps the mirror |
| Registry.RegisteredTagsAt | opuscule.py:115-129 | the five components that register at start-up are library, streaming, boodler, fmradio and system, in that order |
| Registry.StartsEmpty | opuscule.py:110-112 | a root holding only the empty super-favorites list is where start-up begins |
| Registry.StartedGrown | opuscule.py:115-129 | building a new component only adds nodes, so the registrations so far are kept |
| Registry.Attached | opuscule.py:144 | hanging a component under root keeps the mirror and the component's Favorites |
| Registry.ShadowAdded | opuscule.py:145-146 | appending a shadow of the new component's Favorites extends the mirror by that component and changes no other node but the super-favorites |
| MenuBuild.Realise | base_classes.py:39-41 | a nested run of `add_child` calls creates the planned subtree as the new last child of its parent and changes no older node but the parent's child list |
| MenuBuild.Populate | base_classes.py:39-41 | a loop of `add_child` calls appends one planned subtree per element, in order |
| MenuBuild.Repopulate | base_classes.py:39-44 | `reset_children` followed by such a loop leaves the node with exactly the new subtrees |
| MenuBuild.ShapeStable | base_classes.py:39-41 | a built subtree survives changes to older nodes |
| Records.TextField | components/streaming.py:118-120 | `fav[key]` gives the text the record holds under the key, and a missing key raises KeyError |
| Records.ListField | components/library.py:79-95 | `fav[key]` gives the list of text the record holds under the key, and a missing key raises KeyError |
| Records.StreamRecord | components/streaming.py:269-281 | a stream's record has exactly its eight keys, type `stream`, and a title equal to the name |
| Records.Metadata | base_classes.py:169-171 | only an opus has metadata (anything else raises AttributeError); the base opus gives `{}`, and every other opus a record naming its component, its name and its type |
| Records.RecordsOf | components/streaming.py:105-108 | the save loop yields one record per favorite, in order, exactly when every favorite is an opus, and AttributeError otherwise |
| Records.CollectRecords | components/streaming.py:105-108 | the loop collects what `RecordsOf` describes |
| Records.WriteFile | components/streaming.py:105-113 | the file is overwritten with the records when the loop succeeded and untouched when it raised |
| Records.LoadNodes | components/streaming.py:115-127 | the load loop rebuilds at most one opus per record, each detached with the label keys every node has |
| Records.LoadNodesStep | components/streaming.py:115-127 | loading the records one after the other is loading them all at once |
| Records.RestIsUnread | components/streaming.py:115-127 | once a record fails to load, the records after it are never read and the error is that record's |
| Records.Detach | components/streaming.py:115-127 | the favorites as their constructors built them, before `add_child` set their parent |
| Records.LoadNodesAll | components/streaming.py:115-127 | records that each rebuild an opus load as exactly those operai, with no error |
| Records.SaveThenLoad | components/streaming.py:105-127 | saving favorites whose loader rebuilds each from its own record, then loading the file, gives back the same operai in the same order |
| Records.GrownAppend | base_classes.py:39-41 | appending one more loaded opus extends the Favorites list by it |
| Records.AppendLoaded | components/streaming.py:121-122 | one loaded opus becomes the last favorite |
| Records.LoadInto | components/streaming.py:115-127 | a missing or corrupt file adds nothing and raises nothing; a saved file appends the operai `LoadNodes` rebuilds and raises its error |
| Records.TagFavorites | components/streaming.py:33-35 | the component's Favorites list takes its own comment and tag, and nothing else changes |
| Records.StartAudioComponent | base_classes.py:87-91 | a fresh audio component whose only child is its Favorites list, holding the favorites loaded from its file |
| Library.LibList | components/library.py:199-202 | a library list is a fresh, empty list tagged `library` with the given name |
| Library.PlaylistNode | components/library.py:205-215 | a playlist opus supports pause only; its repeat starts as the truthy string `none` and its shuffle as 0 |
| Library.SliceNode | components/library.py:245-254 | a slice supports pause, repeat and shuffle, both settings falsy, and keeps its search terms |
| Library.FromRecord | components/library.py:79-90 | a record without `type` raises KeyError; a `playlist` record with a text name rebuilds that playlist; a `slice` record with a text name and a list of terms rebuilds that slice; a playlist or slice record missing either raises KeyError; any other type is skipped |
| Library.FromRecordOk | components/library.py:79-90 | the library's loader only builds detached operai |
| Library.RecordRoundTrip | components/library.py:232-237 | loading the record `opus_get_metadata` writes for a library opus rebuilds the same opus |
| Library.FavoritesRoundTrip | components/library.py:69-90 | `save_favorites` then `load_favorites` rebuilds the same Favorites list, in order, with no error |
| Library.NextCall | components/library.py:288-298 | `next` is sent to MPD exactly when its status reports a next song |
| Library.PreviousCall | components/library.py:303-319 | without `time` in the status nothing is sent; a non-numeric elapsed time raises ValueError |
| Library.PreviousByElapsed | components/library.py:303-319 | more than 5 seconds into a track restarts it; otherwise MPD goes back one track |
| Library.AlbumLeaves | components/library.py:135-137 | one slice per album, searching by the album inside its scope |
| Library.ArtistTree | components/library.py:145-156 | an artist's menu holds all their songs, then a `By Album` list of their albums, searched within the genre when under one |
| Library.ArtistTrees | components/library.py:166-178 | one artist menu per artist, in MPD's order |
| Library.GenreTree | components/library.py:125-156 | a genre's menu holds all its songs, then its albums, then its artists |
| Library.GenreTrees | components/library.py:123-127 | one genre menu per genre, in MPD's order |
| Library.PlaylistLeaves | components/library.py:109-113 | one playlist opus per stored playlist, in MPD's order |
| Library.RefreshPlaylists | components/library.py:102-115 | the Playlists menu is emptied and refilled with one playlist opus per stored playlist, in order; no older node changes |
| Library.RefreshGenres | components/library.py:117-158 | the Genres menu is rebuilt with one menu per genre, each shaped as `GenreTree` says |
| Library.RefreshArtists | components/library.py:160-180 | the Artists menu is rebuilt with one menu per artist, each shaped as `ArtistTree` says |
| Library.RefreshAlbums | components/library.py:182-193 | the Albums menu is rebuilt with one slice per album, searching by the album alone |
| Library.RefreshLibrary | components/library.py:96-100 | after the four refreshes the Playlists, Genres, Artists and Albums menus each have the shape their own refresh builds, one entry per item of its catalogue answer, and no other older node changes |
| Library.NewComponent | components/library.py:16-50 | an always-met audio component tagged `library`, with `Library Favorites` loaded from its file, then the Playlists, Genres, Artists and Albums menus; a load error stops it after the Favorites |
| Library.AddMenus | components/library.py:40-47 | the four menus are appended, in order, as fresh lists |
| Streaming.StreamList | components/streaming.py:222-225 | a streaming list is a fresh, empty list tagged `streaming` with the given labels |
| Streaming.StreamNode | components/streaming.py:235-252 | a stream with an empty name is named after its URL; it keeps its comment, URL, genre and subgenre and supports no capability |
| Streaming.StreamNameSettles | components/streaming.py:235-241 | building a stream again under the name it ended up with gives the same stream |
| Streaming.ShoutcastNode | components/streaming.py:286-302 | a Shoutcast station keeps the directory's name, id, bitrate, current track and listener count, with no comment, subgenre or URL |
| Streaming.Tuned | components/streaming.py:304-309 | playing a station stores the URL the directory answered and changes nothing else |
| Streaming.FromRecord | components/streaming.py:115-122 | a record with text under name, comment, url, genre and subgenre becomes a stream, whatever its type; otherwise KeyError |
| Streaming.FromRecordOk | components/streaming.py:115-122 | the streaming loader only builds detached operai |
| Streaming.RecordRoundTrip | components/streaming.py:269-280 | loading the record of a stream rebuilds the same stream |
| Streaming.ShoutcastReloadsAsStream | components/streaming.py:323-334 | a saved Shoutcast station comes back as a plain stream with its name, comment, genre and the URL it had when saved |
| Streaming.FavoritesRoundTrip | components/streaming.py:105-127 | `save_favorites` then `load_favorites` rebuilds the same list of streams |
| Streaming.CustomStations | components/streaming.py:74-81 | the three built-in stations, each a stream as the component builds it |
| Streaming.CustomTree | components/streaming.py:58-59 | the Custom list holds the three built-in stations, in order |
| Streaming.CrdTree | components/streaming.py:61-63 | the Community Radio list stays empty |
| Streaming.GenreTree | components/streaming.py:133-147 | one list per genre holding its stations in the directory's order |
| Streaming.ShoutcastTree | components/streaming.py:129-148 | the Shoutcast list holds one Genres list, which holds one station list per genre |
| Streaming.OptionalAfter | components/streaming.py:58-67 | the first element always, then the second and the last only when enabled |
| Streaming.SubMenus | components/streaming.py:58-69 | Custom always, then Community Radio and Shoutcast each only when enabled |
| Streaming.SubMenusOk | components/streaming.py:58-69 | every sub-menu is a well-formed tree of fresh nodes |
| Streaming.NewComponent | components/streaming.py:22-84 | an always-met audio component tagged `streaming`, with `Streaming Favorites` loaded from its file, then its enabled sub-menus in order; a load error stops it after the Favorites |
| Boodler.BoodlerList | components/boodler.py:68-71 | a Boodler list is a fresh, empty list tagged `boodler` |
| Boodler.SoundscapeNode | components/boodler.py:79-85 | a soundscape keeps its package and agent, supports no capability and has no process |
| Boodler.Command | components/boodler.py:85 | the command is `boodler `, the package, `/`, and the agent |
| Boodler.CommandNamesPackage | components/boodler.py:85 | with a package free of `/`, the command determines the package and the agent |
| Boodler.Started | components/boodler.py:87-88 | playing keeps the new process, replacing any handle kept before |
| Boodler.Stopped | components/boodler.py:90-93 | stopping kills the kept process, if any, and forgets it; with none nothing changes |
| Boodler.StopTwice | components/boodler.py:90-93 | a second stop kills nothing and changes nothing |
| Boodler.StopAfterStart | components/boodler.py:87-93 | stopping what was just started kills exactly that process |
| Boodler.Stop | components/boodler.py:90-93 | the soundscape in the tree becomes the one `Stopped` describes, and the killed process is reported |
| Boodler.Play | components/boodler.py:87-88 | the soundscape keeps the new process and the command run is `Command` |
| Boodler.FromRecord | components/boodler.py:54-65 | a record with text under name, comment, package and agent becomes a soundscape, whatever its type; otherwise KeyError escapes |
| Boodler.FromRecordOk | components/boodler.py:54-65 | the Boodler loader only builds detached operai |
| Boodler.RecordRoundTrip | components/boodler.py:103-111 | the record of a soundscape has its six keys and type `soundscape`, and loads back as the same soundscape, stopped |
| Boodler.FavoritesRoundTrip | components/boodler.py:54-65 | saving stopped soundscapes by their records and loading them back rebuilds the same list |
| Boodler.SaveAsWritten | components/boodler.py:44-52 | as written only an empty Favorites list is saved; any other raises AttributeError and leaves the file as it was |
| Boodler.SaveAsWrittenLosesFavorite | components/boodler.py:44-52 | with one favorite, saving as written raises and leaves the file missing, while saving its records brings it back on load |
| Boodler.AvailableTree | components/boodler.py:26-39 | the Available list holds the Crows and Thunderstorms soundscapes |
| Boodler.NewComponent | components/boodler.py:12-39 | an always-met audio component tagged `boodler`, with `Boodler Favorites` loaded from its file, then the Available list; a load error stops it after the Favorites |
| MenuLayout.IsVertical | test_clients/simple_client.py:159-164 | the menu turns vertical exactly when some item's name is longer than 10 characters |
| MenuLayout.ItemString | test_clients/simple_client.py:173-178 | an item's string is its name plus three marker characters |
| MenuLayout.ItemStringShape | test_clients/simple_client.py:173-178 | the name sits after one marker, and the string opens with `>` exactly when the item is selected |
| MenuLayout.Rendered | test_clients/simple_client.py:173-182 | one string per item, the one at the selected index marked as selected |
| MenuLayout.SpanOf | test_clients/simple_client.py:180-182 | the boundary pair noted for a part cuts exactly that part out of the joined string |
| MenuLayout.SpansCover | test_clients/simple_client.py:180-182 | the boundary pairs cut the joined string into consecutive pieces from its first character to its last |
| MenuLayout.Bounds | test_clients/simple_client.py:180-182 | one boundary pair per item |
| MenuLayout.BoundsSpan | test_clients/simple_client.py:173-182 | the boundary map cuts the menu string into consecutive spans, each exactly its item's string |
| MenuLayout.Window | test_clients/simple_client.py:186-203 | the window lies inside the strip; a span wider than the display is cut to the display width from its start, a narrower one is kept whole in a window as wide as the display or the strip |
| MenuLayout.WindowLineShows | test_clients/simple_client.py:186-205 | the windowed line is a piece of the strip as wide as the display or the strip, showing the whole selected span when it fits and its first `cols` characters otherwise |
| MenuLayout.HorizontalLineShows | test_clients/simple_client.py:166-205 | line one of a horizontal menu shows the whole selected item string when it fits the display, and its first `cols` characters otherwise |
| MenuLayout.Ordinal | test_clients/simple_client.py:209-214 | the ordinal opens with `(` and closes with `) `, at least six characters long |
| MenuLayout.Scrollbar | test_clients/tui_client.py:235-240 | the scrollbar points back exactly when the first item is not selected, and on unless the last one is, with the first item of a one-item menu still pointing on |
| MenuLayout.ScrollbarAligned | test_clients/tui_client.py:242-245 | the scrollbar and its padding are exactly as wide as the ordinal |
| MenuLayout.IndChar | test_clients/simple_client.py:129-133 | a filled square for a lit indicator and an empty one otherwise, each followed by the text-presentation selector |
| MenuLayout.CrumbsAppend | test_clients/simple_client.py:258-259 | the trail of a joined path is the two trails joined |
| MenuLayout.CrumbsOne | test_clients/simple_client.py:259 | one name gives the name followed by ` > ` |
| MenuLayout.Breadcrumbs | test_clients/simple_client.py:251-263 | a selected index past the list raises IndexError; otherwise the path's names, each followed by ` > `, then the selected item's name |
| MenuLayout.BuildStrip | test_clients/simple_client.py:173-182 | the loop builds exactly the menu string and boundary map, and the help text is the selected item's comment, or empty when no item is selected |
| MenuLayout.CutWindow | test_clients/simple_client.py:186-205 | the cut line is the strip seen through `Window` around the selected span |
| Broadcast.WideMenuLinesShape | test_clients/simple_client.py:152-219 | the menu lines exist exactly when the index selects an item, else IndexError; a vertical menu puts name and comment in the same column after the ordinal; a horizontal one shows the selected item whole within 80 columns over the first 39 characters of its comment (all of a shorter one) |
| Broadcast.MenuTextsByClient | test_clients/simple_client.py:74-77 | both clients show the composed lines, except that the simple client keeps the old help text when a horizontal menu's selected item has no comment |
| Broadcast.ReplayAppend | test_clients/cli_client.py:160-187 | replaying two runs of updates is replaying the first, then the second |
| Broadcast.ReplaySnoc | test_clients/cli_client.py:35-36 | one more update changes the text as that update alone would |
| Broadcast.ReplayOthers | test_clients/cli_client.py:160-187 | updates addressed to other lines leave a line as it was |
| Broadcast.ComponentFault | test_clients/cli_client.py:162-180 | a component's updates raise nothing exactly when every field it reads is present, and what they raise is KeyError |
| Broadcast.PlaystateLast | test_clients/cli_client.py:182-187 | whatever a line held, `stopped` leaves `Nothing Playing.` over a blank and `paused` leaves `(Paused)` on line 3; other play states write nothing |
| Broadcast.NowPlayingOutcome | test_clients/cli_client.py:160-187 | a missing field raises KeyError, and then only; a stopped state leaves `Nothing Playing.` over a blank whatever the component wrote, a paused one `(Paused)` on line 3 |
| Broadcast.NowPlayingReadsFields | test_clients/cli_client.py:160-180 | the updates depend on the now-playing state only through the fields the component reads |
| TuiClient.Truncated | test_clients/tui_client.py:117-123 | text that fits is shown whole; longer text keeps `width - 2` characters and gains an ellipsis, and under two columns the negative slice bound counts from the end |
| TuiClient.PhasesInOrder | test_clients/tui_client.py:65-107 | as the sequence count grows the phases come in order (lead pause, sliding, tail pause, blank, over), and only text that fits is in no phase |
| TuiClient.SlidingLasts | test_clients/tui_client.py:71-92 | the window slides for exactly as many steps as the text is wider than the display |
| TuiClient.FrameWidth | test_clients/tui_client.py:77-98 | every pause and sliding frame is the gloss text followed by exactly a display's width of the text |
| TuiClient.TickInStep | test_clients/tui_client.py:499-507 | with a pause of at least one step, one scroll event per redraw keeps the window offset in step with the sequence count, so each tick shows its step's frame |
| TuiClient.TextLine.constructor | test_clients/tui_client.py:36-52 | a blank line `cols` wide with both counts at zero, no gloss text, and the given raw flag, overflow mode and pause and blank step counts |
| TuiClient.TextLine.Scroll | test_clients/tui_client.py:65-107 | one step of the scroll sequence, as `ScrollStep` describes it |
| TuiClient.TextLine.Truncate | test_clients/tui_client.py:117-123 | the rendered text is the raw text truncated as `Truncated` describes |
| TuiClient.TextLine.Show | test_clients/tui_client.py:54-63 | raw text in raw mode; truncated in truncate mode or while scrolling is suppressed; one scroll step in scroll mode; otherwise the last rendering; and that rendering is returned |
| TuiClient.TextLine.AdvanceScroll | test_clients/tui_client.py:109-111 | the sequence count moves `n` steps on |
| TuiClient.TextLine.ResetScroll | test_clients/tui_client.py:113-115 | both the sequence and the scroll count restart at zero |
| TuiClient.TextLine.UpdateText | test_clients/tui_client.py:125-127 | the raw text and its stored length are replaced; the scroll counts carry on |
| TuiClient.TextLine.UpdateGlossText | test_clients/tui_client.py:129-130 | the gloss text is replaced |
| TuiClient.TextLine.HandleScrollEvent | test_clients/tui_client.py:132-134 | a scroll event advances the sequence of a line in scroll mode and leaves any other line alone |
| TuiClient.MenuLinesShape | test_clients/tui_client.py:170-247 | the menu lines exist exactly when the index selects an item, else IndexError; a vertical menu starts name and comment in the same column after the ordinal and the scrollbar; a horizontal one shows the selected item whole when it fits, over the first `cols - 1` characters of its comment (all of a shorter one) |
| TuiClient.ComposeMenuLines | test_clients/tui_client.py:170-247 | the loop computes exactly the lines `MenuLines` describes |
| TuiClient.ReplayPair | test_clients/tui_client.py:255-277 | a write to line 3 then one to line 4 leaves each line with its own text |
| TuiClient.NowPlayingLinesAgree | test_clients/tui_client.py:255-277 | the lines fail with KeyError exactly when a field the component reads is missing, and for a library, stream or soundscape that is neither stopped nor paused they equal what the command-line client leaves on lines 3 and 4 |
| SimpleClient.Cut | test_clients/simple_client.py:67-72 | text that fits is shown whole; longer text keeps all but one of the line's columns and ends in `_`, and on a zero-width line only the last character is replaced |
| SimpleClient.ScrollMissesTail | test_clients/simple_client.py:42-58 | as written, a text more than twice as wide as the line never shows its last character |
| SimpleClient.ScrollNeverShowsC | test_clients/simple_client.py:42-58 | as written, `abc` on a one-column line only ever shows `a` and `b` |
| SimpleClient.IntendedScrollShowsAll | test_clients/simple_client.py:42-58 | with the reset bound at the text's overhang, every frame is a full line of text and every character is shown by some frame |
| SimpleClient.TextLine.constructor | test_clients/simple_client.py:20-27 | the given text, width and mode, with the count at zero and nothing shown yet |
| SimpleClient.TextLine.Show | test_clients/simple_client.py:29-40 | the text cut to width in truncate mode and the raw text in every other mode, and that is returned |
| SimpleClient.TextLine.Scroll | test_clients/simple_client.py:42-58 | one frame of scrolling as `ScrollStep` describes it |
| SimpleClient.TextLine.AdvanceScroll | test_clients/simple_client.py:60-62 | the scroll count moves `n` steps on |
| SimpleClient.TextLine.ResetScroll | test_clients/simple_client.py:64-65 | the scroll count restarts at zero |
| SimpleClient.TextLine.Truncate | test_clients/simple_client.py:67-72 | the shown text is the raw text as `Cut` describes |
| SimpleClient.TextLine.UpdateText | test_clients/simple_client.py:74-77 | a non-empty update replaces the text and its length; an empty one is ignored |
| SimpleClient.TextLine.UpdateMode | test_clients/simple_client.py:79-81 | the mode changes only to one of `scroll`, `truncate` and `raw` |
| SimpleClient.TestDisplay.constructor | test_clients/simple_client.py:89-100 | four distinct blank raw lines 80 columns wide and no state yet |
| SimpleClient.TestDisplay.ComposeMenu | test_clients/simple_client.py:152-219 | lines 1 and 2 take the lines `WideMenuLines` composes, empty updates ignored; an index past the list raises IndexError after a vertical menu has switched line 1 to truncate |
| SimpleClient.TestDisplay.Emit | test_clients/simple_client.py:74-77 | lines 3 and 4 hold the replay of the updates so far extended by this one |
| SimpleClient.TestDisplay.ComposeComponent | test_clients/simple_client.py:226-241 | lines 3 and 4 hold the replay of the component's updates, and the KeyError they raise, if any, is returned |
| SimpleClient.TestDisplay.ComposeNowPlaying | test_clients/simple_client.py:221-248 | lines 3 and 4 hold the replay of all of `compose_now_playing`'s updates, and the fault they raise, if any, is returned |
| SimpleClient.TestDisplay.UpdateState | test_clients/simple_client.py:102-105 | the state is kept, the menu lines become `MenuTexts` of it, and the now-playing lines change only when the menu did not raise |
| SimpleClient.TestDisplay.ComposeNavBreadcrumbs | test_clients/simple_client.py:251-263 | the path's names, each followed by ` > `, then the selected item's name; an index past the list raises IndexError |
| CliClient.TextLine.constructor | test_clients/cli_client.py:29-30 | a line holding the given text |
| CliClient.TextLine.Show | test_clients/cli_client.py:32-33 | the text as it is |
| CliClient.TextLine.UpdateText | test_clients/cli_client.py:35-36 | every update, empty or not, replaces the text |
| CliClient.TestDisplay.constructor | test_clients/cli_client.py:44-55 | four distinct blank lines and no state yet |
| CliClient.TestDisplay.ComposeMenu | test_clients/cli_client.py:93-158 | lines 1 and 2 take the lines `WideMenuLines` composes; an index past the list raises IndexError and leaves both lines alone |
| CliClient.TestDisplay.Emit | test_clients/cli_client.py:35-36 | lines 3 and 4 hold the replay of the updates so far extended by this one |
| CliClient.TestDisplay.ComposeComponent | test_clients/cli_client.py:165-180 | lines 3 and 4 hold the replay of the component's updates, and the KeyError they raise, if any, is returned |
| CliClient.TestDisplay.ComposeNowPlaying | test_clients/cli_client.py:160-187 | lines 3 and 4 hold the replay of all of `compose_now_playing`'s updates, and the fault they raise, if any, is returned |
| CliClient.TestDisplay.UpdateState | test_clients/cli_client.py:57-60 | the state is kept, the menu lines become `MenuTexts` of it, and the now-playing lines change only when the menu did not raise |
| CliClient.TestDisplay.ComposeNavBreadcrumbs | test_clients/cli_client.py:189-201 | the path's names, each followed by ` > `, then the selected item's name; an index past the list raises IndexError |
| Text.Slice | test_clients/tui_client.py:123 | Python's slice: bounds inside the sequence select that piece, a bound past the end is clamped to it, and the result is never longer than the sequence |
| Text.Spaces | test_clients/tui_client.py:242 | `" " * n` is `n` spaces, and empty for a negative `n` |
| Text.NatToString | test_clients/simple_client.py:211 | `str(n)` of a natural number is a non-empty run of decimal digits |
| Text.ParseInt | components/library.py:315-316 | an optional `+` or `-` followed by at least one decimal digit gives the digits' value, negated after `-`; all other text is rejected |
| Text.ParseIntOfNatToString | components/library.py:315-316 | `int(str(n)) == n` |
| Text.BeforeFirst | components/library.py:315 | `s.split(sep)[0]` is the longest prefix of `s` without `sep`, stopped by a `sep` when one follows |
| Text.BeforeFirstOfJoin | components/library.py:315 | splitting `a + sep + b` gives back `a` when `a` holds no `sep` |
| Text.StrLtIrreflexive | base_classes.py:54 | no name sorts before itself |
| Text.StrLtTransitive | base_classes.py:54 | the order names are sorted in is transitive |
| Text.StrLtTotal | base_classes.py:54 | of two different names, one sorts before the other |

## Left out

- The network side of `opuscule.py` is not modelled: `OpusculeProtocol`, `send_state`, the MPD client and its monitor, the radio-state monitor, `startup` and `shutdown`. `handle` returns the response that would be sent, and the state broadcast is the value `RadioState` composes.
- JSON encoding and file I/O are not modelled. A favorites file is a value: missing, corrupt, or a sequence of flat records.
- Asyncio and threads are not modelled. `set_playing` hands its stop, load and play to the event loop; here they run at once, right after the state change, and are recorded in the backend call log.
- Playback backends are not modelled: MPD, `rtl_fm` and Boodler processes, and the ALSA mixer. Each call the core makes to them is a logged value, and each answer it reads is a parameter (MPD's status, catalogue lists and Shoutcast answers, a process handle).
- Logging is not modelled, and neither are the `print`-based displays of the clients (`display_lines`, `display_indicators`) or the urwid widgets and key handling of the terminal client.
- `components/podcasts.py`, `components/shoutcast.py` and `components/aioshoutcast.py` are not part of this model. The Shoutcast directory is a parameter of the streaming component.
- The FM radio's `load_favorites` and its custom-station list (`components/sdr.py`) are not modelled. The FM radio starts with an empty Favorites list.
- `jump`, which the source leaves commented out, is not modelled.
- `do_refresh` and `handle_internal` are not modelled beyond returning OK, which is all they do.
- Messages are not wired to any state: nothing in the core queues a message, so the queue is modelled on its own.
- The client models assume the top-level keys of the broadcast state (`menu`, `component`, `now_playing`, `playstate`) are present. The server always sends them.
- `unidecode` is taken as the identity: the model has no transliteration.
- The display lines 5 and 6, for messages, are never written by the clients and are left out.
- `TuiClient.TextLine.constructor`: the pause and blank step counts are given as whole numbers. The source computes them as `3 // step_duration` and `1 // step_duration` from a float duration.
- Now-playing values are taken as already-formatted strings. The source formats the FM radio's frequency, which may be a number.
- The menu cursor is a natural number: no path in the source makes it negative.
- `MenuTree.GetPathBelowRoot`: a parent chain that never reaches a node named `root` raises RecursionError here after a bounded number of steps. This stands in for Python's recursion limit.
- `Text.ParseInt` rejects text that Python's `int` accepts with surrounding blanks or `_` separators. MPD's elapsed time is plain digits.
- Records.TextField: a value of another JSON type under the key is treated as missing and raises KeyError. Python would return it and fail later, or carry it into the node.
- Records.ListField: a value that is not a list of text is treated as missing and raises KeyError. Python would return it as it is.
- Radio.RadioState.Update: `play` runs the corrected `set_playing`, which loads and plays the selected opus. The code as written stops the old opus and loads nothing (see Findings).
- Radio.RadioState.ResetPlaying: starts the selected opus through the corrected `set_playing`, not the one as written.
- Opuscule.Controller.DoSelect: a selected opus is played through the corrected `set_playing`, not the one as written.
- Opuscule.Controller.DoUpdate: `play` runs the corrected `set_playing`, not the one as written.
- Opuscule.Controller.Run: `play` and `select` run the corrected `set_playing`, and `add_favorite` saves a Boodler home with the corrected save; neither is the code as written.
- Opuscule.Controller.Handle: runs commands through `Run`, so it has the same two corrections.
- Opuscule.SavedFiles: Boodler favorites are saved as records, as its `save_favorites` intends. As written that method raises AttributeError on a non-empty list and keeps the old file (see Findings).
- Opuscule.Controller.SaveFavorites: saves a Boodler component with the corrected save, not the one as written.
- Opuscule.Controller.AddAndSave: saves a Boodler home with the corrected save, not the one as written.
- Opuscule.Controller.AddToHome: saves a Boodler home with the corrected save, not the one as written.
- Opuscule.Controller.AddCurrentFavorite: saves a Boodler home with the corrected save, not the one as written.
- Opuscule.Controller.DoAddFavorite: saves a Boodler home with the corrected save, not the one as written.

## Findings

| source | as written | input that shows it | evidently intended | confidence | as-written member | corrected member |
|---|---|---|---|---|---|---|
| base_classes.py:51-54 | the sort key reads `.labels`, but every node keeps its labels in `menu_labels`, so the key raises AttributeError | any list with at least one child | a stable in-place sort of the children by `menu_labels['name']` | high, not executed | MenuTree.SortAsWrittenFails | MenuTree.Arena.SortChildren |
| base_classes.py:46-49 | the new short name is stored under `short_name` | relabelling a node to short name `X`; its `shortname` keeps the old value | the short name overwrites `shortname` | high, not executed | MenuTree.RelabelAsWrittenMissesShortName | MenuTree.Relabel |
| radiostate.py:87-90 | `revert` takes `play_history[1]`, the second-oldest entry | history `[a, b]` after loading `c`; revert goes to `b`, not to the opus played last; a one-entry history raises IndexError | revert to the most recent entry | medium, not executed | RadioParts.RevertAsWrittenMissesLast | RadioParts.NowPlaying.Revert |
| radiostate.py:346-352 | `_set_playing` awaits `opus_stop()`, `load()` and `opus_play()`, which are plain methods returning None | `play` with an opus selected; awaiting None raises TypeError after the stop, so nothing is loaded or played | stop the old opus, load the selected one, play it | high, not executed | Radio.RadioState.SetPlayingAsWritten | Radio.RadioState.SetPlaying |
| components/boodler.py:44-52 | `save_favorites` calls `get_metadata`, which no opus has | one Boodler favorite; saving raises AttributeError before the file is written, so the favorite is gone after a restart | save each favorite's `opus_get_metadata` record | high, not executed | Boodler.SaveAsWrittenLosesFavorite | Boodler.FavoritesRoundTrip |
| test_clients/simple_client.py:42-58 | `scroll` resets once `scroll_count > maxlen`, the line's width | `abc` on a one-column line shows only `a` and `b`, never `c` | reset once the window has passed the text's overhang, `rawlen - maxlen` | medium, not executed | SimpleClient.ScrollNeverShowsC | SimpleClient.IntendedScrollShowsAll |

Four behaviours of the code that the model keeps:

- `get_path` includes the node itself.
- `play` from `stopped` with a non-opus selected still sets the state to `playing`.
- `reset_children` keeps the cursor.
- `do_add_favorite` refreshes every mirror list.
