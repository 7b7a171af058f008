/**
 * The simple text client: display lines that ignore empty updates and can
 * truncate with an underscore, and a display that composes its menu and
 * now-playing lines from each broadcast state it receives.
 */
module SimpleClient {

  import opened Wrappers
  import opened Text
  import opened MenuLayout
  import opened Broadcast

  /** The overflow modes a line accepts. */
  const ValidModes: seq<string> := ["scroll", "truncate", "raw"]

  /**
   * `truncate`: text that fits is shown whole; longer text keeps all but
   * one of the display's columns and ends in `_`. On a zero-width line the
   * slice bound is -1, so only the last character is replaced.
   */
  function Cut(text: string, maxlen: nat): (r: string)
    ensures |text| <= maxlen ==> r == text
    ensures |text| > maxlen >= 1 ==> |r| == maxlen && r[..maxlen - 1] == text[..maxlen - 1] && r[maxlen - 1] == '_'
    ensures |text| > maxlen == 0 ==> r == text[..|text| - 1] + "_"
  {
    if |text| <= maxlen then text else Slice(text, 0, maxlen - 1) + "_"
  }

  /**
   * One `scroll` as written: the text is shown from the scroll count on;
   * once the count passes the line's width it restarts and the shown text
   * stays. The reset bound is the width, not how far the text overhangs it.
   */
  function ScrollStep(rawtext: string, shown: string, count: nat, maxlen: nat): (string, nat) {
    if |rawtext| <= maxlen then (rawtext, count)
    else if count > maxlen then (shown, 0)
    else (Slice(rawtext, count, count + maxlen), count + 1)
  }

  /**
   * As written, a new frame of a text longer than the line always lies
   * within the first two widths of it, so a text more than twice as wide as
   * the line never shows its end: `abc` on a one-column line only ever shows
   * `a` and `b`.
   */
  lemma ScrollMissesTail(rawtext: string, shown: string, count: nat, maxlen: nat)
    requires |rawtext| > 2 * maxlen
    ensures var next := ScrollStep(rawtext, shown, count, maxlen);
            next.0 == shown || (count <= maxlen && next.0 == rawtext[count..count + maxlen] && count + maxlen <= 2 * maxlen)
  {
  }

  /** `abc` scrolled through a one-column line: the frames are `a` and `b`, then the count restarts. */
  lemma ScrollNeverShowsC(n: nat)
    ensures ScrollStep("abc", "", n, 1).0 in {"", "a", "b"}
  {
    if n == 0 {
      assert ScrollStep("abc", "", n, 1).0 == "abc"[0..1] == "a";
    } else if n == 1 {
      assert ScrollStep("abc", "", n, 1).0 == "abc"[1..2] == "b";
    }
  }

  /** One scroll step with the reset bound the scrolling evidently intends: the text's overhang. */
  function IntendedScrollStep(rawtext: string, shown: string, count: nat, maxlen: nat): (string, nat) {
    if |rawtext| <= maxlen then (rawtext, count)
    else if count > |rawtext| - maxlen then (shown, 0)
    else (Slice(rawtext, count, count + maxlen), count + 1)
  }

  /**
   * With the intended bound every frame is a full line of the text and
   * every character of it is shown: character `i` is in the frame of step
   * `Min(i, overhang)`.
   */
  lemma IntendedScrollShowsAll(rawtext: string, shown: string, maxlen: nat, i: nat)
    requires |rawtext| > maxlen && i < |rawtext|
    ensures var count := Min(i, |rawtext| - maxlen);
            var next := IntendedScrollStep(rawtext, shown, count, maxlen);
            && next.0 == rawtext[count..count + maxlen] && next.1 == count + 1
            && (maxlen >= 1 ==> count <= i < count + maxlen && next.0[i - count] == rawtext[i])
  {
  }

  /**
   * A display line of the simple client. An empty update leaves its text
   * as it was; in truncate mode it shows the text cut to its width.
   */
  class TextLine {
    var rawtext: string
    var rawlen: nat
    var maxlen: nat
    var scrollCount: nat
    var mode: string
    var text: string

    /** The stored length is the text's length. */
    predicate Valid()
      reads this
    {
      rawlen == |rawtext|
    }

    constructor (initial: string, maxLength: nat, overflow: string)
      ensures Valid() && rawtext == initial && maxlen == maxLength
      ensures scrollCount == 0 && mode == overflow && text == ""
    {
      rawtext := initial;
      rawlen := |initial|;
      maxlen := maxLength;
      scrollCount := 0;
      mode := overflow;
      text := "";
    }

    /** `show`: the text cut to width in truncate mode, the raw text in every other mode. */
    method Show() returns (r: string)
      requires Valid()
      modifies this`text
      ensures text == if mode == "truncate" then Cut(rawtext, maxlen) else rawtext
      ensures r == text
    {
      if mode == "truncate" {
        Truncate();
      } else {
        text := rawtext;
      }
      r := text;
    }

    /** `scroll`: one frame of scrolling text. */
    method Scroll()
      requires Valid()
      modifies this`text, this`scrollCount
      ensures (text, scrollCount) == ScrollStep(rawtext, old(text), old(scrollCount), maxlen)
    {
      if rawlen <= maxlen {
        text := rawtext;
      } else if scrollCount > maxlen {
        ResetScroll();
      } else {
        var left, right := scrollCount, scrollCount + maxlen;
        text := Slice(rawtext, left, right);
        AdvanceScroll(1);
      }
    }

    /** `advance_scroll`. */
    method AdvanceScroll(n: nat)
      modifies this`scrollCount
      ensures scrollCount == old(scrollCount) + n
    {
      scrollCount := scrollCount + n;
    }

    /** `reset_scroll`. */
    method ResetScroll()
      modifies this`scrollCount
      ensures scrollCount == 0
    {
      scrollCount := 0;
    }

    /** `truncate`. */
    method Truncate()
      requires Valid()
      modifies this`text
      ensures text == Cut(rawtext, maxlen)
    {
      if rawlen <= maxlen {
        text := rawtext;
      } else {
        text := Slice(rawtext, 0, maxlen - 1) + "_";
      }
    }

    /** `update_text`: an empty text is ignored. */
    method UpdateText(update: string)
      requires Valid()
      modifies this`rawtext, this`rawlen
      ensures Valid() && rawtext == Updated(old(rawtext), update, true)
    {
      if update != "" {
        rawtext := update;
        rawlen := |update|;
      }
    }

    /** `update_mode`: a mode other than the valid ones is ignored. */
    method UpdateMode(newMode: string)
      modifies this`mode
      ensures mode == if newMode in ValidModes then newMode else old(mode)
    {
      if newMode in ValidModes {
        mode := newMode;
      }
    }
  }

  /**
   * The simple client's display: two menu lines and two now-playing lines
   * (the two message lines are never written), and the last state received.
   */
  class TestDisplay {
    var line1: TextLine
    var line2: TextLine
    var line3: TextLine
    var line4: TextLine
    var opstate: Option<OpState>

    /** The four lines are distinct objects, each with its length in step. */
    predicate Valid()
      reads this, line1, line2, line3, line4
    {
      && line1 != line2 && line1 != line3 && line1 != line4
      && line2 != line3 && line2 != line4 && line3 != line4
      && line1.Valid() && line2.Valid() && line3.Valid() && line4.Valid()
    }

    /** Blank raw lines as wide as the display, and no state yet. */
    constructor ()
      ensures Valid() && fresh(line1) && fresh(line2) && fresh(line3) && fresh(line4)
      ensures line1.rawtext == line2.rawtext == line3.rawtext == line4.rawtext == ""
      ensures line1.mode == line2.mode == line3.mode == line4.mode == "raw"
      ensures line1.maxlen == line2.maxlen == line3.maxlen == line4.maxlen == Width
      ensures opstate == None
    {
      line1 := new TextLine("", Width, "raw");
      line2 := new TextLine("", Width, "raw");
      line3 := new TextLine("", Width, "raw");
      line4 := new TextLine("", Width, "raw");
      opstate := None;
    }

    /**
     * `compose_menu`. A vertical menu switches line 1 to truncate mode
     * before the selected item is looked up, and line 2 only after line 1
     * took the item.
     */
    method ComposeMenu() returns (fault: Option<Fault>)
      requires Valid() && opstate.Some?
      modifies line1`rawtext, line1`rawlen, line1`mode, line2`rawtext, line2`rawlen, line2`mode
      ensures Valid()
      ensures var m := opstate.value.menu;
              && fault == (if m.index < |m.list| then None else Some(IndexError))
              && (line1.rawtext, line2.rawtext) == MenuTexts(m, old(line1.rawtext), old(line2.rawtext), true)
              && line1.mode == (if Vertical(m.list) then "truncate" else old(line1.mode))
              && line2.mode == (if Vertical(m.list) && m.index < |m.list| then "truncate" else old(line2.mode))
    {
      var m := opstate.value.menu;
      var vertical := IsVertical(m.list);
      if !vertical {
        var strip, bounds, help := BuildStrip(m.list, m.index);
        if m.index >= |bounds| {
          return Some(IndexError);
        }
        var one := CutWindow(strip, bounds, m.index, Width);
        line1.UpdateText(one);
        line2.UpdateText(Slice(help, 0, 39));
      } else {
        var ordinal := Ordinal(m.index, |m.list|);
        line1.UpdateMode("truncate");
        if m.index >= |m.list| {
          return Some(IndexError);
        }
        line1.UpdateText(ordinal + m.list[m.index].name);
        line2.UpdateMode("truncate");
        line2.UpdateText(Spaces(|ordinal|) + m.list[m.index].comment);
      }
      fault := None;
    }

    /** One now-playing update, as the replay of the updates so far extended by it. */
    method Emit(w: Write, ghost text3: string, ghost text4: string, ghost issued: seq<Write>)
      requires Valid()
      requires line3.rawtext == Replay(text3, issued, Line3, true) && line4.rawtext == Replay(text4, issued, Line4, true)
      modifies line3`rawtext, line3`rawlen, line4`rawtext, line4`rawlen
      ensures Valid()
      ensures line3.rawtext == Replay(text3, issued + [w], Line3, true) && line4.rawtext == Replay(text4, issued + [w], Line4, true)
    {
      ReplaySnoc(text3, issued, w, Line3, true);
      ReplaySnoc(text4, issued, w, Line4, true);
      if w.line == Line3 {
        line3.UpdateText(w.text);
      } else {
        line4.UpdateText(w.text);
      }
    }

    /** The component's own lines of `compose_now_playing`, each written as soon as its fields are read. */
    method ComposeComponent(op: OpState) returns (fault: Option<Fault>)
      requires Valid()
      modifies line3`rawtext, line3`rawlen, line4`rawtext, line4`rawlen
      ensures Valid()
      ensures var writes := ComponentWrites(op.component, op.nowPlaying);
              && fault == writes.fault
              && line3.rawtext == Replay(old(line3.rawtext), writes.issued, Line3, true)
              && line4.rawtext == Replay(old(line4.rawtext), writes.issued, Line4, true)
    {
      var np := op.nowPlaying;
      ghost var text3, text4 := line3.rawtext, line4.rawtext;
      ghost var issued: seq<Write> := [];
      var w: Write;
      if op.component == "library" {
        if "title" !in np {
          assert issued == ComponentWrites(op.component, np).issued;
          return Some(KeyError);
        }
        w := Write(Line3, np["title"]);
        Emit(w, text3, text4, issued);
        issued := issued + [w];
        if "album" !in np || "artist" !in np {
          assert issued == ComponentWrites(op.component, np).issued;
          return Some(KeyError);
        }
        w := Write(Line4, np["album"] + "/" + np["artist"]);
        Emit(w, text3, text4, issued);
        issued := issued + [w];
      } else if op.component == "streaming" {
        if "title" !in np {
          assert issued == ComponentWrites(op.component, np).issued;
          return Some(KeyError);
        }
        w := Write(Line3, np["title"]);
        Emit(w, text3, text4, issued);
        issued := issued + [w];
        if "name" !in np {
          assert issued == ComponentWrites(op.component, np).issued;
          return Some(KeyError);
        }
        w := Write(Line4, np["name"]);
        Emit(w, text3, text4, issued);
        issued := issued + [w];
      } else if op.component == "boodler" {
        if "agent" !in np {
          assert issued == ComponentWrites(op.component, np).issued;
          return Some(KeyError);
        }
        w := Write(Line3, np["agent"]);
        Emit(w, text3, text4, issued);
        issued := issued + [w];
        if "package" !in np {
          assert issued == ComponentWrites(op.component, np).issued;
          return Some(KeyError);
        }
        w := Write(Line4, np["package"]);
        Emit(w, text3, text4, issued);
        issued := issued + [w];
      } else if op.component == "fmradio" {
        if "callsign" !in np || "freq" !in np || "mode" !in np {
          assert issued == ComponentWrites(op.component, np).issued;
          return Some(KeyError);
        }
        w := Write(Line3, np["callsign"] + " - " + Spaces(12) + np["freq"] + np["mode"]);
        Emit(w, text3, text4, issued);
        issued := issued + [w];
        w := Write(Line4, "");
        Emit(w, text3, text4, issued);
        issued := issued + [w];
      } else if op.component == "wxradio" {
        w := Write(Line3, "");
        Emit(w, text3, text4, issued);
        issued := issued + [w];
        w := Write(Line4, "");
        Emit(w, text3, text4, issued);
        issued := issued + [w];
      }
      assert issued == ComponentWrites(op.component, np).issued;
      fault := None;
    }

    /**
     * `compose_now_playing`: the component's lines, then, unless a field
     * was missing, the play state's notices.
     */
    method ComposeNowPlaying() returns (fault: Option<Fault>)
      requires Valid() && opstate.Some?
      modifies line3`rawtext, line3`rawlen, line4`rawtext, line4`rawlen
      ensures Valid()
      ensures var writes := NowPlayingWrites(opstate.value);
              && fault == writes.fault
              && line3.rawtext == Replay(old(line3.rawtext), writes.issued, Line3, true)
              && line4.rawtext == Replay(old(line4.rawtext), writes.issued, Line4, true)
    {
      var op := opstate.value;
      ghost var text3, text4 := line3.rawtext, line4.rawtext;
      fault := ComposeComponent(op);
      if fault.Some? {
        return;
      }
      ghost var issued := ComponentWrites(op.component, op.nowPlaying).issued;
      var w: Write;
      if op.playstate == "stopped" {
        w := Write(Line3, "Nothing Playing.");
        Emit(w, text3, text4, issued);
        issued := issued + [w];
        w := Write(Line4, " ");
        Emit(w, text3, text4, issued);
        issued := issued + [w];
      }
      if op.playstate == "paused" {
        w := Write(Line3, "(Paused)");
        Emit(w, text3, text4, issued);
        issued := issued + [w];
      }
      assert issued == NowPlayingWrites(op).issued;
    }

    /**
     * `update_state`: the new state is kept, then the menu is composed and,
     * unless that raised, the now-playing lines.
     */
    method UpdateState(op: OpState) returns (fault: Option<Fault>)
      requires Valid()
      modifies this`opstate, line1`rawtext, line1`rawlen, line1`mode, line2`rawtext, line2`rawlen, line2`mode
      modifies line3`rawtext, line3`rawlen, line4`rawtext, line4`rawlen
      ensures Valid() && opstate == Some(op)
      ensures (line1.rawtext, line2.rawtext) == MenuTexts(op.menu, old(line1.rawtext), old(line2.rawtext), true)
      ensures line1.mode == (if Vertical(op.menu.list) then "truncate" else old(line1.mode))
      ensures line2.mode == (if Vertical(op.menu.list) && op.menu.index < |op.menu.list| then "truncate" else old(line2.mode))
      ensures op.menu.index >= |op.menu.list| ==>
                fault == Some(IndexError) && line3.rawtext == old(line3.rawtext) && line4.rawtext == old(line4.rawtext)
      ensures op.menu.index < |op.menu.list| ==>
                && fault == NowPlayingWrites(op).fault
                && line3.rawtext == Replay(old(line3.rawtext), NowPlayingWrites(op).issued, Line3, true)
                && line4.rawtext == Replay(old(line4.rawtext), NowPlayingWrites(op).issued, Line4, true)
    {
      opstate := Some(op);
      fault := ComposeMenu();
      if fault.None? {
        fault := ComposeNowPlaying();
      }
    }

    /** `compose_nav_breadcrumbs`: the path's trail followed by the selected item's name. */
    method ComposeNavBreadcrumbs() returns (r: Outcome<string>)
      requires opstate.Some?
      ensures var m := opstate.value.menu;
              r == if m.index < |m.list| then Done(Crumbs(m.path) + m.list[m.index].name) else Raised(IndexError)
    {
      var m := opstate.value.menu;
      r := Breadcrumbs(m.path, m.list, m.index);
    }
  }
}
