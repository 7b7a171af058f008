/**
 * The command-line client: display lines that take every update as it
 * comes, and a display that composes its menu and now-playing lines from
 * each broadcast state it receives, with the same code as the simple
 * client.
 */
module CliClient {

  import opened Wrappers
  import opened Text
  import opened MenuLayout
  import opened Broadcast

  /** A display line of the command-line client: it shows its text as it is. */
  class TextLine {
    var rawtext: string

    constructor (initial: string)
      ensures rawtext == initial
    {
      rawtext := initial;
    }

    /** `show`: the text. */
    method Show() returns (r: string)
      ensures r == rawtext
    {
      r := rawtext;
    }

    /** `update_text`: every update, empty or not, replaces the text. */
    method UpdateText(update: string)
      modifies this`rawtext
      ensures rawtext == Updated(old(rawtext), update, false)
    {
      rawtext := update;
    }
  }

  /**
   * The command-line client's display: two menu lines and two now-playing lines
   * (the two message lines are never written), and the last state received.
   */
  class TestDisplay {
    var line1: TextLine
    var line2: TextLine
    var line3: TextLine
    var line4: TextLine
    var opstate: Option<OpState>

    /** The four lines are distinct objects. */
    predicate Valid()
      reads this
    {
      && line1 != line2 && line1 != line3 && line1 != line4
      && line2 != line3 && line2 != line4 && line3 != line4
    }

    /** Blank raw lines as wide as the display, and no state yet. */
    constructor ()
      ensures Valid() && fresh(line1) && fresh(line2) && fresh(line3) && fresh(line4)
      ensures line1.rawtext == line2.rawtext == line3.rawtext == line4.rawtext == ""
      ensures opstate == None
    {
      line1 := new TextLine("");
      line2 := new TextLine("");
      line3 := new TextLine("");
      line4 := new TextLine("");
      opstate := None;
    }

    /** `compose_menu`: the window of a horizontal menu and its help text, or the ordinal and name over the comment. */
    method ComposeMenu() returns (fault: Option<Fault>)
      requires Valid() && opstate.Some?
      modifies line1`rawtext, line2`rawtext
      ensures Valid()
      ensures var m := opstate.value.menu;
              && fault == (if m.index < |m.list| then None else Some(IndexError))
              && (line1.rawtext, line2.rawtext) == MenuTexts(m, old(line1.rawtext), old(line2.rawtext), false)
    {
      var m := opstate.value.menu;
      var vertical := IsVertical(m.list);
      if !vertical {
        var strip, bounds, help := BuildStrip(m.list, m.index);
        if m.index >= |bounds| {
          return Some(IndexError);
        }
        var one := CutWindow(strip, bounds, m.index, Width);
        line1.UpdateText(one);
        line2.UpdateText(Slice(help, 0, 39));
      } else {
        var ordinal := Ordinal(m.index, |m.list|);
        if m.index >= |m.list| {
          return Some(IndexError);
        }
        line1.UpdateText(ordinal + m.list[m.index].name);
        line2.UpdateText(Spaces(|ordinal|) + m.list[m.index].comment);
      }
      fault := None;
    }

    /** One now-playing update, as the replay of the updates so far extended by it. */
    method Emit(w: Write, ghost text3: string, ghost text4: string, ghost issued: seq<Write>)
      requires Valid()
      requires line3.rawtext == Replay(text3, issued, Line3, false) && line4.rawtext == Replay(text4, issued, Line4, false)
      modifies line3`rawtext, line4`rawtext
      ensures Valid()
      ensures line3.rawtext == Replay(text3, issued + [w], Line3, false) && line4.rawtext == Replay(text4, issued + [w], Line4, false)
    {
      ReplaySnoc(text3, issued, w, Line3, false);
      ReplaySnoc(text4, issued, w, Line4, false);
      if w.line == Line3 {
        line3.UpdateText(w.text);
      } else {
        line4.UpdateText(w.text);
      }
    }

    /** The component's own lines of `compose_now_playing`, each written as soon as its fields are read. */
    method ComposeComponent(op: OpState) returns (fault: Option<Fault>)
      requires Valid()
      modifies line3`rawtext, line4`rawtext
      ensures Valid()
      ensures var writes := ComponentWrites(op.component, op.nowPlaying);
              && fault == writes.fault
              && line3.rawtext == Replay(old(line3.rawtext), writes.issued, Line3, false)
              && line4.rawtext == Replay(old(line4.rawtext), writes.issued, Line4, false)
    {
      var np := op.nowPlaying;
      ghost var text3, text4 := line3.rawtext, line4.rawtext;
      ghost var issued: seq<Write> := [];
      var w: Write;
      if op.component == "library" {
        if "title" !in np {
          assert issued == ComponentWrites(op.component, np).issued;
          return Some(KeyError);
        }
        w := Write(Line3, np["title"]);
        Emit(w, text3, text4, issued);
        issued := issued + [w];
        if "album" !in np || "artist" !in np {
          assert issued == ComponentWrites(op.component, np).issued;
          return Some(KeyError);
        }
        w := Write(Line4, np["album"] + "/" + np["artist"]);
        Emit(w, text3, text4, issued);
        issued := issued + [w];
      } else if op.component == "streaming" {
        if "title" !in np {
          assert issued == ComponentWrites(op.component, np).issued;
          return Some(KeyError);
        }
        w := Write(Line3, np["title"]);
        Emit(w, text3, text4, issued);
        issued := issued + [w];
        if "name" !in np {
          assert issued == ComponentWrites(op.component, np).issued;
          return Some(KeyError);
        }
        w := Write(Line4, np["name"]);
        Emit(w, text3, text4, issued);
        issued := issued + [w];
      } else if op.component == "boodler" {
        if "agent" !in np {
          assert issued == ComponentWrites(op.component, np).issued;
          return Some(KeyError);
        }
        w := Write(Line3, np["agent"]);
        Emit(w, text3, text4, issued);
        issued := issued + [w];
        if "package" !in np {
          assert issued == ComponentWrites(op.component, np).issued;
          return Some(KeyError);
        }
        w := Write(Line4, np["package"]);
        Emit(w, text3, text4, issued);
        issued := issued + [w];
      } else if op.component == "fmradio" {
        if "callsign" !in np || "freq" !in np || "mode" !in np {
          assert issued == ComponentWrites(op.component, np).issued;
          return Some(KeyError);
        }
        w := Write(Line3, np["callsign"] + " - " + Spaces(12) + np["freq"] + np["mode"]);
        Emit(w, text3, text4, issued);
        issued := issued + [w];
        w := Write(Line4, "");
        Emit(w, text3, text4, issued);
        issued := issued + [w];
      } else if op.component == "wxradio" {
        w := Write(Line3, "");
        Emit(w, text3, text4, issued);
        issued := issued + [w];
        w := Write(Line4, "");
        Emit(w, text3, text4, issued);
        issued := issued + [w];
      }
      assert issued == ComponentWrites(op.component, np).issued;
      fault := None;
    }

    /**
     * `compose_now_playing`: the component's lines, then, unless a field
     * was missing, the play state's notices.
     */
    method ComposeNowPlaying() returns (fault: Option<Fault>)
      requires Valid() && opstate.Some?
      modifies line3`rawtext, line4`rawtext
      ensures Valid()
      ensures var writes := NowPlayingWrites(opstate.value);
              && fault == writes.fault
              && line3.rawtext == Replay(old(line3.rawtext), writes.issued, Line3, false)
              && line4.rawtext == Replay(old(line4.rawtext), writes.issued, Line4, false)
    {
      var op := opstate.value;
      ghost var text3, text4 := line3.rawtext, line4.rawtext;
      fault := ComposeComponent(op);
      if fault.Some? {
        return;
      }
      ghost var issued := ComponentWrites(op.component, op.nowPlaying).issued;
      var w: Write;
      if op.playstate == "stopped" {
        w := Write(Line3, "Nothing Playing.");
        Emit(w, text3, text4, issued);
        issued := issued + [w];
        w := Write(Line4, " ");
        Emit(w, text3, text4, issued);
        issued := issued + [w];
      }
      if op.playstate == "paused" {
        w := Write(Line3, "(Paused)");
        Emit(w, text3, text4, issued);
        issued := issued + [w];
      }
      assert issued == NowPlayingWrites(op).issued;
    }

    /**
     * `update_state`: the new state is kept, then the menu is composed and,
     * unless that raised, the now-playing lines.
     */
    method UpdateState(op: OpState) returns (fault: Option<Fault>)
      requires Valid()
      modifies this`opstate, line1`rawtext, line2`rawtext
      modifies line3`rawtext, line4`rawtext
      ensures Valid() && opstate == Some(op)
      ensures (line1.rawtext, line2.rawtext) == MenuTexts(op.menu, old(line1.rawtext), old(line2.rawtext), false)
      ensures op.menu.index >= |op.menu.list| ==>
                fault == Some(IndexError) && line3.rawtext == old(line3.rawtext) && line4.rawtext == old(line4.rawtext)
      ensures op.menu.index < |op.menu.list| ==>
                && fault == NowPlayingWrites(op).fault
                && line3.rawtext == Replay(old(line3.rawtext), NowPlayingWrites(op).issued, Line3, false)
                && line4.rawtext == Replay(old(line4.rawtext), NowPlayingWrites(op).issued, Line4, false)
    {
      opstate := Some(op);
      fault := ComposeMenu();
      if fault.None? {
        fault := ComposeNowPlaying();
      }
    }

    /** `compose_nav_breadcrumbs`: the path's trail followed by the selected item's name. */
    method ComposeNavBreadcrumbs() returns (r: Outcome<string>)
      requires opstate.Some?
      ensures var m := opstate.value.menu;
              r == if m.index < |m.list| then Done(Crumbs(m.path) + m.list[m.index].name) else Raised(IndexError)
    {
      var m := opstate.value.menu;
      r := Breadcrumbs(m.path, m.list, m.index);
    }
  }
}
