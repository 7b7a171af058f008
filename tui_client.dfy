/**
 * The terminal client's display lines: a `TextLine` that either shows its
 * text raw, truncates it with an ellipsis, or scrolls it in phases driven
 * by a periodic scroll event; and the two pure composers that turn the
 * broadcast state into the menu and now-playing lines.
 */
module TuiClient {

  import opened Wrappers
  import opened Text
  import opened MenuLayout
  import opened Broadcast

  /**
   * `truncate`: text that fits is shown whole; longer text loses its tail
   * and gains an ellipsis. For a display under two columns the source's
   * slice bound is negative, so Python counts it from the end of the text.
   */
  function Truncated(text: string, width: nat): (r: string)
    ensures |text| <= width ==> r == text
    ensures |text| > width >= 2 ==> |r| == width - 1 && r[..width - 2] == text[..width - 2] && r[width - 2] == '…'
    ensures |text| > width && width < 2 ==> |r| == Max(|text| - 2 + width, 0) + 1 && r[|r| - 1] == '…'
  {
    if |text| <= width then text else Slice(text, 0, width - 2) + "…"
  }

  /** Where a scroll sequence stands. */
  datatype Phase =
    | Fits      // the text fits: it is shown as it is
    | Lead      // the opening pause on the head of the text
    | Sliding   // the window moves one character per step
    | Tail      // the closing pause on the end of the text
    | Blank     // the line is blanked
    | Hold      // the last step: nothing changes
    | Over      // past the end: the sequence restarts

  /** The order the phases come in. */
  function Rank(p: Phase): nat {
    match p
    case Fits => 0
    case Lead => 1
    case Sliding => 2
    case Tail => 3
    case Blank => 4
    case Hold => 5
    case Over => 6
  }

  /** The phase of step `count` for a text of `len` characters on a `width`-column display. */
  function PhaseOf(count: nat, len: nat, width: nat, pause: nat, blank: nat): Phase {
    var toScroll := pause;
    var toPause := toScroll + len - width;
    var toBlank := toPause + pause;
    var maxCount := toBlank + blank;
    if len <= width then Fits
    else if count < toScroll then Lead
    else if count < toPause then Sliding
    else if count < toBlank then Tail
    else if count < maxCount then Blank
    else if count > maxCount then Over
    else Hold
  }

  /** The phases of a text that does not fit come in order as the step count grows. */
  lemma PhasesInOrder(a: nat, b: nat, len: nat, width: nat, pause: nat, blank: nat)
    requires a <= b
    ensures Rank(PhaseOf(a, len, width, pause, blank)) <= Rank(PhaseOf(b, len, width, pause, blank))
    ensures PhaseOf(a, len, width, pause, blank) == Fits <==> len <= width
  {
  }

  /** The window slides for exactly as many steps as the text is wider than the display. */
  lemma SlidingLasts(j: nat, len: nat, width: nat, pause: nat, blank: nat)
    requires len > width
    ensures PhaseOf(pause + j, len, width, pause, blank) == Sliding <==> j < len - width
  {
  }

  /** The part of a `TextLine` that scrolling changes. */
  datatype Scroller = Scroller(rendered: string, scrollCount: nat, sequenceCount: nat)

  /**
   * One `scroll`: the text shown in the current phase, behind the gloss
   * text; the sliding phase moves the window on; past the last step both
   * counts restart and the shown text stays.
   */
  function ScrollStep(s: Scroller, text: string, gloss: string, width: nat, pause: nat, blank: nat): Scroller {
    match PhaseOf(s.sequenceCount, |text|, width, pause, blank)
    case Fits => s.(rendered := text)
    case Lead => s.(rendered := gloss + Slice(text, 0, width))
    case Sliding => Scroller(gloss + Slice(text, s.scrollCount, s.scrollCount + width), s.scrollCount + 1, s.sequenceCount)
    case Tail => s.(rendered := gloss + Slice(text, |text| - width, |text|))
    case Blank => s.(rendered := " ")
    case Hold => s
    case Over => s.(scrollCount := 0, sequenceCount := 0)
  }

  /** One scroll event followed by a redraw, as the client's event generator drives a line. */
  function Tick(s: Scroller, text: string, gloss: string, width: nat, pause: nat, blank: nat): Scroller {
    ScrollStep(s.(sequenceCount := s.sequenceCount + 1), text, gloss, width, pause, blank)
  }

  /**
   * The window offset agrees with the step count: none before the window
   * starts to slide, one more per sliding step, the full overhang after.
   */
  predicate InStep(s: Scroller, len: nat, width: nat, pause: nat) {
    var k := s.sequenceCount + 1 - pause;
    s.scrollCount == if k <= 0 then 0 else if k >= len - width then len - width else k
  }

  /** What a line driven one tick per step shows at step `n`. */
  function Frame(n: nat, text: string, gloss: string, width: nat, pause: nat, blank: nat): string
    requires |text| > width
  {
    match PhaseOf(n, |text|, width, pause, blank)
    case Lead => gloss + text[..width]
    case Sliding => gloss + text[n - pause..n - pause + width]
    case Tail => gloss + text[|text| - width..]
    case Blank => " "
    case _ => ""
  }

  /** Every frame but the blank one is the gloss text and exactly a display's width of the text. */
  lemma FrameWidth(n: nat, text: string, gloss: string, width: nat, pause: nat, blank: nat)
    requires |text| > width
    ensures PhaseOf(n, |text|, width, pause, blank) in {Lead, Sliding, Tail} ==>
              |Frame(n, text, gloss, width, pause, blank)| == |gloss| + width
  {
  }

  /**
   * With a pause of at least one step, a line that takes one scroll event
   * per redraw keeps its window offset in step: each tick shows the frame
   * of its step, so the sliding window advances one character per tick
   * and always shows a full display's width of the text.
   */
  lemma TickInStep(s: Scroller, text: string, gloss: string, width: nat, pause: nat, blank: nat)
    requires |text| > width && pause >= 1
    requires InStep(s, |text|, width, pause)
    ensures InStep(Tick(s, text, gloss, width, pause, blank), |text|, width, pause)
    ensures var n := s.sequenceCount + 1;
            PhaseOf(n, |text|, width, pause, blank) in {Lead, Sliding, Tail, Blank} ==>
              Tick(s, text, gloss, width, pause, blank).rendered == Frame(n, text, gloss, width, pause, blank)
    ensures PhaseOf(s.sequenceCount + 1, |text|, width, pause, blank) == Over ==>
              Tick(s, text, gloss, width, pause, blank) == Scroller(s.rendered, 0, 0)
  {
    var n := s.sequenceCount + 1;
    var p := PhaseOf(n, |text|, width, pause, blank);
    if p == Sliding {
      assert s.scrollCount == n - pause;
      assert Slice(text, n - pause, n - pause + width) == text[n - pause..n - pause + width];
    } else if p == Lead {
      assert Slice(text, 0, width) == text[..width];
    } else if p == Tail {
      assert Slice(text, |text| - width, |text|) == text[|text| - width..];
    }
  }

  /**
   * A line of the terminal display. It keeps the raw text and what was last
   * rendered from it; in raw mode it shows the text as it is, otherwise it
   * truncates or scrolls it according to its overflow mode.
   */
  class TextLine {
    var rawmode: bool
    var suppressScrolling: bool
    var rawtext: string
    var rawlen: nat
    var dispWidth: nat
    var renderedText: string
    var scrollCount: nat
    var sequenceCount: nat
    var pauseSteps: nat
    var blankSteps: nat
    var mode: string
    var glossText: string

    /** The stored length is the text's length. */
    predicate Valid()
      reads this
    {
      rawlen == |rawtext|
    }

    function Scrolling(): Scroller
      reads this
    {
      Scroller(renderedText, scrollCount, sequenceCount)
    }

    /**
     * A blank line `cols` wide; the pause and blank step counts are the
     * three- and one-second phases divided by the scroll step duration.
     */
    constructor (cols: nat, pause: nat, blank: nat, raw: bool, overflow: string)
      ensures Valid()
      ensures rawmode == raw && !suppressScrolling && rawtext == "" && dispWidth == cols
      ensures Scrolling() == Scroller("", 0, 0) && pauseSteps == pause && blankSteps == blank
      ensures mode == overflow && glossText == ""
    {
      rawmode := raw;
      suppressScrolling := false;
      rawtext := "";
      rawlen := 0;
      dispWidth := cols;
      renderedText := "";
      scrollCount := 0;
      sequenceCount := 0;
      pauseSteps := pause;
      blankSteps := blank;
      mode := overflow;
      glossText := "";
    }

    /** `scroll`: one step of the scroll sequence. */
    method Scroll()
      requires Valid()
      modifies this`renderedText, this`scrollCount, this`sequenceCount
      ensures Scrolling() == ScrollStep(old(Scrolling()), rawtext, glossText, dispWidth, pauseSteps, blankSteps)
    {
      if |rawtext| <= dispWidth {
        renderedText := rawtext;
      } else {
        var toScroll := pauseSteps;
        var toPause := toScroll + |rawtext| - dispWidth;
        var toBlank := toPause + pauseSteps;
        var maxCount := toBlank + blankSteps;
        if sequenceCount < toScroll {
          renderedText := glossText + Slice(rawtext, 0, dispWidth);
        } else if sequenceCount < toPause {
          var left, right := scrollCount, scrollCount + dispWidth;
          scrollCount := scrollCount + 1;
          renderedText := glossText + Slice(rawtext, left, right);
        } else if sequenceCount < toBlank {
          renderedText := glossText + Slice(rawtext, rawlen - dispWidth, rawlen);
        } else if sequenceCount < maxCount {
          renderedText := " ";
        } else if sequenceCount > maxCount {
          ResetScroll();
        }
      }
    }

    /** `truncate`: the text, shortened with an ellipsis when it does not fit. */
    method Truncate()
      requires Valid()
      modifies this`renderedText
      ensures renderedText == Truncated(rawtext, dispWidth)
    {
      if rawlen <= dispWidth {
        renderedText := rawtext;
      } else {
        renderedText := Slice(rawtext, 0, dispWidth - 2) + "…";
      }
    }

    /**
     * `show`: raw text in raw mode; otherwise truncated in truncate mode or
     * while scrolling is suppressed, one scroll step in scroll mode, and
     * the last rendering in any other mode.
     */
    method Show() returns (r: string)
      requires Valid()
      modifies this`renderedText, this`scrollCount, this`sequenceCount
      ensures rawmode ==> Scrolling() == old(Scrolling()).(rendered := rawtext)
      ensures !rawmode && (mode == "truncate" || suppressScrolling) ==>
                Scrolling() == old(Scrolling()).(rendered := Truncated(rawtext, dispWidth))
      ensures !rawmode && mode != "truncate" && !suppressScrolling && mode == "scroll" ==>
                Scrolling() == ScrollStep(old(Scrolling()), rawtext, glossText, dispWidth, pauseSteps, blankSteps)
      ensures !rawmode && mode != "truncate" && !suppressScrolling && mode != "scroll" ==>
                Scrolling() == old(Scrolling())
      ensures r == renderedText
    {
      if rawmode {
        renderedText := rawtext;
      } else if mode == "truncate" || suppressScrolling {
        Truncate();
      } else if mode == "scroll" {
        Scroll();
      }
      r := renderedText;
    }

    /** `advance_scroll`: the sequence moves `n` steps on. */
    method AdvanceScroll(n: nat)
      modifies this`sequenceCount
      ensures sequenceCount == old(sequenceCount) + n
    {
      sequenceCount := sequenceCount + n;
    }

    /** `reset_scroll`: both counts restart. */
    method ResetScroll()
      modifies this`scrollCount, this`sequenceCount
      ensures scrollCount == 0 && sequenceCount == 0
    {
      sequenceCount := 0;
      scrollCount := 0;
    }

    /** `update_text`: a new raw text; the scroll sequence carries on where it was. */
    method UpdateText(text: string)
      modifies this`rawtext, this`rawlen
      ensures Valid() && rawtext == text
    {
      rawtext := text;
      rawlen := |text|;
    }

    /** `update_gloss_text`: the prefix put before scrolled text. */
    method UpdateGlossText(text: string)
      modifies this`glossText
      ensures glossText == text
    {
      glossText := text;
    }

    /** `handle_scroll_event`: a scroll event advances the sequence of a scrolling line only. */
    method HandleScrollEvent()
      modifies this`sequenceCount
      ensures sequenceCount == if mode == "scroll" then old(sequenceCount) + 1 else old(sequenceCount)
    {
      if mode == "scroll" {
        AdvanceScroll(1);
      }
    }
  }

  /**
   * The lines of `compose_menu_lines` on a `cols`-wide display: a window of
   * the horizontal strip over at most `cols - 1` characters of the help
   * text, or for a vertical menu the ordinal and name over the scrollbar,
   * padded to the ordinal's width, and the comment.
   */
  function MenuLines(cols: nat, items: seq<Item>, index: nat): Outcome<(string, string)> {
    if index >= |items| then Raised(IndexError)
    else if Vertical(items) then
      var ordinal, scrollbar := Ordinal(index, |items|), Scrollbar(index, |items|);
      Done((ordinal + items[index].name, scrollbar + Spaces(|ordinal| - |scrollbar|) + items[index].comment))
    else
      Done((HorizontalLine(items, index, cols), Slice(items[index].comment, 0, cols - 1)))
  }

  /**
   * The menu lines exist exactly when the index selects an item. In a
   * vertical menu the name and the comment start in the same column, after
   * the ordinal and after the scrollbar; a horizontal menu shows the
   * selected item whole when it fits the display, over the first `cols - 1`
   * characters of its comment (all of a shorter one; with no columns at
   * all, Python's `[0:-1]` drops the last character).
   */
  lemma MenuLinesShape(cols: nat, items: seq<Item>, index: nat)
    ensures MenuLines(cols, items, index).Done? <==> index < |items|
    ensures MenuLines(cols, items, index).Raised? ==> MenuLines(cols, items, index).fault == IndexError
    ensures index < |items| && Vertical(items) ==>
              var lines, col := MenuLines(cols, items, index).value, |Ordinal(index, |items|)|;
              && lines.0[..col] == Ordinal(index, |items|) && lines.0[col..] == items[index].name
              && lines.1[..4] == Scrollbar(index, |items|) && lines.1[col..] == items[index].comment
              && (forall k :: 4 <= k < col ==> lines.1[k] == ' ')
    ensures index < |items| && !Vertical(items) ==>
              var lines, sel := MenuLines(cols, items, index).value, ItemString(items[index], true);
              && |lines.0| == Min(cols, |Strip(items, index)|)
              && (|sel| <= cols ==> Shows(lines.0, sel))
              && (cols >= 1 ==> |lines.1| == Min(cols - 1, |items[index].comment|) && lines.1 == items[index].comment[..|lines.1|])
              && (cols == 0 && items[index].comment != [] ==> lines.1 == items[index].comment[..|items[index].comment| - 1])
  {
    if index < |items| {
      var item := items[index];
      if Vertical(items) {
        var ordinal, scrollbar := Ordinal(index, |items|), Scrollbar(index, |items|);
        var pad := Spaces(|ordinal| - |scrollbar|);
        var two := scrollbar + pad + item.comment;
        assert (ordinal + item.name)[..|ordinal|] == ordinal;
        assert (ordinal + item.name)[|ordinal|..] == item.name;
        assert two[..4] == scrollbar;
        assert two[|ordinal|..] == item.comment;
        assert forall k :: 4 <= k < |ordinal| ==> two[k] == pad[k - 4];
      } else {
        HorizontalLineShows(items, index, cols);
        if cols >= 1 {
          SlicePrefix(item.comment, cols - 1);
        }
      }
    }
  }

  /**
   * `compose_menu_lines`: decides the layout, builds the strip and its
   * boundary map in one pass and cuts the window around the selected item.
   */
  method ComposeMenuLines(cols: nat, items: seq<Item>, index: nat) returns (r: Outcome<(string, string)>)
    ensures r == MenuLines(cols, items, index)
  {
    var vertical := IsVertical(items);
    if !vertical {
      var strip, bounds, help := BuildStrip(items, index);
      if index >= |bounds| {
        return Raised(IndexError);
      }
      var one := CutWindow(strip, bounds, index, cols);
      r := Done((one, Slice(help, 0, cols - 1)));
    } else {
      if index >= |items| {
        return Raised(IndexError);
      }
      var ordinal := Ordinal(index, |items|);
      var scrollbar := Scrollbar(index, |items|);
      var padding := Spaces(|ordinal| - |scrollbar|);
      r := Done((ordinal + items[index].name, scrollbar + padding + items[index].comment));
    }
  }

  /**
   * `compose_now_playing_lines`: the two lines for the component now
   * playing; a single space for each line of a weather radio or an
   * unknown component.
   */
  function NowPlayingLines(component: string, np: map<string, string>): Outcome<(string, string)> {
    if component == "library" then
      if "title" in np && "album" in np && "artist" in np then Done((np["title"], np["album"] + "/" + np["artist"]))
      else Raised(KeyError)
    else if component == "streaming" then
      if "title" in np && "name" in np then Done((np["title"], np["name"])) else Raised(KeyError)
    else if component == "boodler" then
      if "agent" in np && "package" in np then Done((np["agent"], np["package"])) else Raised(KeyError)
    else if component == "fmradio" then
      if "callsign" in np && "freq" in np && "mode" in np then
        Done((np["callsign"] + " - " + np["freq"] + np["mode"], " "))
      else Raised(KeyError)
    else Done((" ", " "))
  }

  /** A write to line 3 and then one to line 4 leave each line with its own text. */
  lemma ReplayPair(text3: string, text4: string, one: string, two: string)
    ensures var issued := [Write(Line3, one), Write(Line4, two)];
            Replay(text3, issued, Line3, false) == one && Replay(text4, issued, Line4, false) == two
  {
    var issued := [Write(Line3, one), Write(Line4, two)];
    assert issued[1..] == [Write(Line4, two)] && issued[1..][1..] == [];
    assert Replay(text3, issued, Line3, false) == Replay(one, issued[1..], Line3, false);
    assert Replay(one, issued[1..], Line3, false) == Replay(one, [], Line3, false);
    assert Replay(text4, issued, Line4, false) == Replay(text4, issued[1..], Line4, false);
    assert Replay(text4, issued[1..], Line4, false) == Replay(two, [], Line4, false);
  }

  /**
   * The lines fail, with `KeyError`, exactly when a field the component
   * reads is missing, and then the line is the same as the one the
   * command-line client leaves on its now-playing lines for a library,
   * stream or soundscape that is neither stopped nor paused.
   */
  lemma NowPlayingLinesAgree(op: OpState, text3: string, text4: string)
    ensures NowPlayingLines(op.component, op.nowPlaying).Raised? <==> !HasFields(op.component, op.nowPlaying)
    ensures NowPlayingLines(op.component, op.nowPlaying).Raised? ==> NowPlayingLines(op.component, op.nowPlaying).fault == KeyError
    ensures HasFields(op.component, op.nowPlaying) && op.component in {"library", "streaming", "boodler"}
            && op.playstate != "stopped" && op.playstate != "paused" ==>
              var issued := NowPlayingWrites(op).issued;
              NowPlayingLines(op.component, op.nowPlaying).value
                == (Replay(text3, issued, Line3, false), Replay(text4, issued, Line4, false))
  {
    ComponentFault(op.component, op.nowPlaying);
    var own := ComponentWrites(op.component, op.nowPlaying);
    var c, np := op.component, op.nowPlaying;
    if c == "library" {
      assert NowPlayingLines(c, np).Raised? <==> own.fault.Some?;
    } else if c == "streaming" {
      assert NowPlayingLines(c, np).Raised? <==> own.fault.Some?;
    } else if c == "boodler" {
      assert NowPlayingLines(c, np).Raised? <==> own.fault.Some?;
    } else if c == "fmradio" {
      assert NowPlayingLines(c, np).Raised? <==> own.fault.Some?;
    } else {
      assert NowPlayingLines(c, np).Done? && own.fault.None?;
    }
    if HasFields(op.component, op.nowPlaying) && op.component in {"library", "streaming", "boodler"}
       && op.playstate != "stopped" && op.playstate != "paused" {
      PlaystateLast(text3, op.playstate, false);
      assert NowPlayingWrites(op).issued == own.issued;
      var w3, w4 := own.issued[0], own.issued[1];
      assert own.issued == [w3, w4];
      ReplayPair(text3, text4, w3.text, w4.text);
    }
  }
}
