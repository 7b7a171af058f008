/**
 * The state the server broadcasts, as the test clients read it, and what
 * the command-line and simple clients write to their menu and now-playing
 * lines from it. Both clients compose their lines with the same code. They
 * differ in how a line takes an update, and the simple client also switches
 * its menu lines to truncate mode when the menu is vertical.
 */
module Broadcast {

  import opened Wrappers
  import opened Text
  import opened MenuLayout

  /** The menu part of the state: the items on show, the selected index and the names on the path to them. */
  datatype MenuState = MenuState(list: seq<Item>, index: nat, path: seq<string>)

  /** The parts of the broadcast state the clients compose their lines from. */
  datatype OpState = OpState(menu: MenuState, component: string, nowPlaying: map<string, string>, playstate: string)

  /** Both clients' display width. */
  const Width: nat := 80

  /** The now-playing fields each component tag reads, in the order they are read. */
  function Fields(component: string): seq<string> {
    if component == "library" then ["title", "album", "artist"]
    else if component == "streaming" then ["title", "name"]
    else if component == "boodler" then ["agent", "package"]
    else if component == "fmradio" then ["callsign", "freq", "mode"]
    else []
  }

  /** Every field the component tag reads is there. */
  predicate HasFields(component: string, np: map<string, string>) {
    forall k :: 0 <= k < |Fields(component)| ==> Fields(component)[k] in np
  }

  /**
   * The two menu lines of `compose_menu`: the window of the horizontal strip
   * and the first 39 characters of the selected item's comment, or for a
   * vertical menu the ordinal and name over the comment indented to line up
   * with the name. A selected index past the list raises `IndexError`.
   */
  function WideMenuLines(m: MenuState): Outcome<(string, string)> {
    if m.index >= |m.list| then Raised(IndexError)
    else if Vertical(m.list) then
      var ordinal := Ordinal(m.index, |m.list|);
      Done((ordinal + m.list[m.index].name, Spaces(|ordinal|) + m.list[m.index].comment))
    else
      Done((HorizontalLine(m.list, m.index, Width), Slice(m.list[m.index].comment, 0, 39)))
  }

  /**
   * The menu lines exist exactly when the index selects an item. A vertical
   * menu puts the name and the comment in the same column, after the
   * ordinal; a horizontal one shows the selected item whole, within the
   * display width, over the first 39 characters of its comment (all of a
   * shorter one).
   */
  lemma WideMenuLinesShape(m: MenuState)
    ensures WideMenuLines(m).Done? <==> m.index < |m.list|
    ensures WideMenuLines(m).Raised? ==> WideMenuLines(m).fault == IndexError
    ensures m.index < |m.list| && Vertical(m.list) ==>
              var lines, col := WideMenuLines(m).value, |Ordinal(m.index, |m.list|)|;
              && lines.0[..col] == Ordinal(m.index, |m.list|) && lines.0[col..] == m.list[m.index].name
              && lines.1[..col] == Spaces(col) && lines.1[col..] == m.list[m.index].comment
    ensures m.index < |m.list| && !Vertical(m.list) ==>
              var lines := WideMenuLines(m).value;
              && |lines.0| <= Width && Shows(lines.0, ItemString(m.list[m.index], true))
              && |lines.1| == Min(39, |m.list[m.index].comment|) && lines.1 == m.list[m.index].comment[..|lines.1|]
  {
    if m.index < |m.list| {
      var item := m.list[m.index];
      if Vertical(m.list) {
        var ordinal := Ordinal(m.index, |m.list|);
        assert (ordinal + item.name)[..|ordinal|] == ordinal;
        assert (ordinal + item.name)[|ordinal|..] == item.name;
        assert (Spaces(|ordinal|) + item.comment)[..|ordinal|] == Spaces(|ordinal|);
        assert (Spaces(|ordinal|) + item.comment)[|ordinal|..] == item.comment;
      } else {
        HorizontalLineShows(m.list, m.index, Width);
        SlicePrefix(item.comment, 39);
        assert |ItemString(item, true)| <= Width by {
          assert |item.name| <= NameCutoff;
        }
      }
    }
  }

  /**
   * The texts of menu lines 1 and 2 after `compose_menu`, from the texts
   * they held: both stay when the selection raises `IndexError`.
   */
  function MenuTexts(m: MenuState, text1: string, text2: string, keepOnEmpty: bool): (string, string) {
    match WideMenuLines(m)
    case Done(lines) => (Updated(text1, lines.0, keepOnEmpty), Updated(text2, lines.1, keepOnEmpty))
    case Raised(_) => (text1, text2)
  }

  /**
   * Both clients show the composed menu lines, except that the simple
   * client, whose lines ignore an empty update, keeps the previous help
   * text under a horizontal menu whose selected item has no comment. Line 1
   * is never empty, so it always takes the update.
   */
  lemma MenuTextsByClient(m: MenuState, text1: string, text2: string)
    ensures m.index >= |m.list| ==> MenuTexts(m, text1, text2, false) == (text1, text2) == MenuTexts(m, text1, text2, true)
    ensures m.index < |m.list| ==> MenuTexts(m, text1, text2, false) == WideMenuLines(m).value
    ensures m.index < |m.list| ==> MenuTexts(m, text1, text2, true).0 == WideMenuLines(m).value.0
    ensures m.index < |m.list| ==>
              MenuTexts(m, text1, text2, true).1
                == if !Vertical(m.list) && m.list[m.index].comment == "" then text2 else WideMenuLines(m).value.1
  {
    if m.index < |m.list| {
      var item := m.list[m.index];
      if Vertical(m.list) {
        assert |Ordinal(m.index, |m.list|) + item.name| > 0;
        assert |Spaces(|Ordinal(m.index, |m.list|)|) + item.comment| > 0;
      } else {
        BoundsSpan(m.list, m.index);
        HorizontalLineShows(m.list, m.index, Width);
        assert |HorizontalLine(m.list, m.index, Width)| > 0;
        SlicePrefix(item.comment, 39);
        assert Slice(item.comment, 0, 39) == "" <==> item.comment == "";
      }
    }
  }

  /** The now-playing lines of the clients: line 3 over line 4. */
  datatype NowLine = Line3 | Line4

  /** One `update_text` call on a now-playing line. */
  datatype Write = Write(line: NowLine, text: string)

  /** The updates `compose_now_playing` issues, in order, and the exception that cut them short, if one did. */
  datatype Writes = Writes(issued: seq<Write>, fault: Option<Fault>)

  /**
   * The updates for the component's own fields: each line is written as soon
   * as the fields it shows have been read, so a missing field of line 4
   * raises `KeyError` after line 3 was written. The `fmradio` line 3 keeps
   * the twelve spaces of the source's continued string literal; `wxradio`
   * writes two empty lines; other tags write nothing.
   */
  function ComponentWrites(component: string, np: map<string, string>): Writes {
    if component == "library" then
      if "title" !in np then Writes([], Some(KeyError))
      else if "album" !in np || "artist" !in np then Writes([Write(Line3, np["title"])], Some(KeyError))
      else Writes([Write(Line3, np["title"]), Write(Line4, np["album"] + "/" + np["artist"])], None)
    else if component == "streaming" then
      if "title" !in np then Writes([], Some(KeyError))
      else if "name" !in np then Writes([Write(Line3, np["title"])], Some(KeyError))
      else Writes([Write(Line3, np["title"]), Write(Line4, np["name"])], None)
    else if component == "boodler" then
      if "agent" !in np then Writes([], Some(KeyError))
      else if "package" !in np then Writes([Write(Line3, np["agent"])], Some(KeyError))
      else Writes([Write(Line3, np["agent"]), Write(Line4, np["package"])], None)
    else if component == "fmradio" then
      if "callsign" !in np || "freq" !in np || "mode" !in np then Writes([], Some(KeyError))
      else Writes([Write(Line3, np["callsign"] + " - " + Spaces(12) + np["freq"] + np["mode"]), Write(Line4, "")], None)
    else if component == "wxradio" then
      Writes([Write(Line3, ""), Write(Line4, "")], None)
    else
      Writes([], None)
  }

  /** The updates for the play state: `stopped` blanks both lines with a notice, `paused` marks line 3. */
  function PlaystateWrites(playstate: string): seq<Write> {
    (if playstate == "stopped" then [Write(Line3, "Nothing Playing."), Write(Line4, " ")] else [])
    + (if playstate == "paused" then [Write(Line3, "(Paused)")] else [])
  }

  /** All the updates of `compose_now_playing`: the play state's follow the component's unless a field was missing. */
  function NowPlayingWrites(op: OpState): Writes {
    var own := ComponentWrites(op.component, op.nowPlaying);
    if own.fault.Some? then own else Writes(own.issued + PlaystateWrites(op.playstate), None)
  }

  /**
   * A line's text after `update_text(update)`. With `keepOnEmpty` an empty
   * update is ignored, as the simple client's lines do; without it every
   * update replaces the text, as the command-line client's lines do.
   */
  function Updated(text: string, update: string, keepOnEmpty: bool): string {
    if keepOnEmpty && update == "" then text else update
  }

  /** The text a line holds after the updates addressed to it, in order. */
  function Replay(text: string, issued: seq<Write>, line: NowLine, keepOnEmpty: bool): string
    decreases |issued|
  {
    if issued == [] then text
    else
      var w := issued[0];
      Replay(if w.line == line then Updated(text, w.text, keepOnEmpty) else text, issued[1..], line, keepOnEmpty)
  }

  /** Replaying two runs of updates is replaying the first, then the second. */
  lemma {:induction false} ReplayAppend(text: string, a: seq<Write>, b: seq<Write>, line: NowLine, keepOnEmpty: bool)
    ensures Replay(text, a + b, line, keepOnEmpty) == Replay(Replay(text, a, line, keepOnEmpty), b, line, keepOnEmpty)
    decreases |a|
  {
    if a == [] {
      assert a + b == b;
    } else {
      var w := a[0];
      assert (a + b)[0] == w && (a + b)[1..] == a[1..] + b;
      ReplayAppend(if w.line == line then Updated(text, w.text, keepOnEmpty) else text, a[1..], b, line, keepOnEmpty);
    }
  }

  /** One more update changes the replayed text as that update alone would. */
  lemma ReplaySnoc(text: string, issued: seq<Write>, w: Write, line: NowLine, keepOnEmpty: bool)
    ensures Replay(text, issued + [w], line, keepOnEmpty)
            == (var before := Replay(text, issued, line, keepOnEmpty);
                if w.line == line then Updated(before, w.text, keepOnEmpty) else before)
  {
    ReplayAppend(text, issued, [w], line, keepOnEmpty);
    assert [w][1..] == [];
  }

  /** Updates addressed only to other lines leave a line as it was. */
  lemma {:induction false} ReplayOthers(text: string, issued: seq<Write>, line: NowLine, keepOnEmpty: bool)
    requires forall k :: 0 <= k < |issued| ==> issued[k].line != line
    ensures Replay(text, issued, line, keepOnEmpty) == text
    decreases |issued|
  {
    if issued != [] {
      ReplayOthers(text, issued[1..], line, keepOnEmpty);
    }
  }

  /** A component tag's fields are all there exactly when its updates raise nothing; what they raise is `KeyError`. */
  lemma ComponentFault(component: string, np: map<string, string>)
    ensures ComponentWrites(component, np).fault.None? <==> HasFields(component, np)
    ensures ComponentWrites(component, np).fault.Some? ==> ComponentWrites(component, np).fault == Some(KeyError)
  {
    var fs := Fields(component);
    if component == "library" {
      assert fs == ["title", "album", "artist"];
      assert HasFields(component, np) <==> fs[0] in np && fs[1] in np && fs[2] in np;
    } else if component == "streaming" {
      assert fs == ["title", "name"];
      assert HasFields(component, np) <==> fs[0] in np && fs[1] in np;
    } else if component == "boodler" {
      assert fs == ["agent", "package"];
      assert HasFields(component, np) <==> fs[0] in np && fs[1] in np;
    } else if component == "fmradio" {
      assert fs == ["callsign", "freq", "mode"];
      assert HasFields(component, np) <==> fs[0] in np && fs[1] in np && fs[2] in np;
    } else {
      assert fs == [];
    }
  }

  /** Whatever a line held, the play state's updates leave their own text on it. */
  lemma PlaystateLast(text: string, playstate: string, keepOnEmpty: bool)
    ensures playstate == "stopped" ==>
              && Replay(text, PlaystateWrites(playstate), Line3, keepOnEmpty) == "Nothing Playing."
              && Replay(text, PlaystateWrites(playstate), Line4, keepOnEmpty) == " "
    ensures playstate == "paused" ==> Replay(text, PlaystateWrites(playstate), Line3, keepOnEmpty) == "(Paused)"
    ensures playstate != "stopped" && playstate != "paused" ==> PlaystateWrites(playstate) == []
  {
    var pw := PlaystateWrites(playstate);
    if playstate == "stopped" {
      assert pw == [Write(Line3, "Nothing Playing."), Write(Line4, " ")];
      assert pw[1..][1..] == [];
      assert Replay(text, pw, Line3, keepOnEmpty) == Replay("Nothing Playing.", pw[1..], Line3, keepOnEmpty);
      assert Replay(text, pw, Line4, keepOnEmpty) == Replay(text, pw[1..], Line4, keepOnEmpty);
    } else if playstate == "paused" {
      assert pw == [Write(Line3, "(Paused)")];
      assert pw[1..] == [];
    }
  }

  /**
   * A missing field raises `KeyError`, and then only; a stopped play state
   * leaves `Nothing Playing.` over a blank whatever the component wrote, and
   * a paused one leaves `(Paused)` on line 3.
   */
  lemma NowPlayingOutcome(op: OpState, text3: string, text4: string, keepOnEmpty: bool)
    ensures NowPlayingWrites(op).fault.None? <==> HasFields(op.component, op.nowPlaying)
    ensures NowPlayingWrites(op).fault.Some? ==> NowPlayingWrites(op).fault == Some(KeyError)
    ensures HasFields(op.component, op.nowPlaying) && op.playstate == "stopped" ==>
              && Replay(text3, NowPlayingWrites(op).issued, Line3, keepOnEmpty) == "Nothing Playing."
              && Replay(text4, NowPlayingWrites(op).issued, Line4, keepOnEmpty) == " "
    ensures HasFields(op.component, op.nowPlaying) && op.playstate == "paused" ==>
              Replay(text3, NowPlayingWrites(op).issued, Line3, keepOnEmpty) == "(Paused)"
  {
    var own := ComponentWrites(op.component, op.nowPlaying);
    ComponentFault(op.component, op.nowPlaying);
    if own.fault.None? {
      var pw := PlaystateWrites(op.playstate);
      ReplayAppend(text3, own.issued, pw, Line3, keepOnEmpty);
      ReplayAppend(text4, own.issued, pw, Line4, keepOnEmpty);
      PlaystateLast(Replay(text3, own.issued, Line3, keepOnEmpty), op.playstate, keepOnEmpty);
      PlaystateLast(Replay(text4, own.issued, Line4, keepOnEmpty), op.playstate, keepOnEmpty);
    }
  }

  /** The updates depend on the now-playing state only through the fields the component tag reads. */
  lemma NowPlayingReadsFields(op: OpState, np: map<string, string>)
    requires forall k :: 0 <= k < |Fields(op.component)| ==>
               var f := Fields(op.component)[k];
               (f in np <==> f in op.nowPlaying) && (f in np ==> np[f] == op.nowPlaying[f])
    ensures NowPlayingWrites(op.(nowPlaying := np)) == NowPlayingWrites(op)
  {
    var c, fs := op.component, Fields(op.component);
    if c == "library" {
      assert fs == ["title", "album", "artist"];
      assert fs[0] == "title" && fs[1] == "album" && fs[2] == "artist";
    } else if c == "streaming" {
      assert fs == ["title", "name"];
      assert fs[0] == "title" && fs[1] == "name";
    } else if c == "boodler" {
      assert fs == ["agent", "package"];
      assert fs[0] == "agent" && fs[1] == "package";
    } else if c == "fmradio" {
      assert fs == ["callsign", "freq", "mode"];
      assert fs[0] == "callsign" && fs[1] == "freq" && fs[2] == "mode";
    }
  }
}
