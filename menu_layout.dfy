/**
 * The menu layout that the test clients share: the switch to a vertical
 * layout, the horizontal strip of items with its boundary map, the display
 * window over that strip, the vertical ordinal and scrollbar, the
 * breadcrumbs and the indicator glyphs.
 */
module MenuLayout {

  import opened Wrappers
  import opened Text

  /** One entry of the `list` of a menu state, as the clients read it. */
  datatype Item = Item(name: string, comment: string)

  /** A name longer than this turns the whole menu vertical. */
  const NameCutoff := 10

  function Min(a: int, b: int): int { if a <= b then a else b }

  function Max(a: int, b: int): int { if a <= b then b else a }

  predicate Vertical(items: seq<Item>) {
    exists k :: 0 <= k < |items| && |items[k].name| > NameCutoff
  }

  /** The loop that picks `menu_type`: vertical once any name is over the cutoff. */
  method IsVertical(items: seq<Item>) returns (vertical: bool)
    ensures vertical <==> exists k :: 0 <= k < |items| && |items[k].name| > NameCutoff
  {
    vertical := false;
    for k := 0 to |items|
      invariant vertical <==> exists j :: 0 <= j < k && |items[j].name| > NameCutoff
    {
      if |items[k].name| > NameCutoff {
        vertical := true;
      }
    }
  }

  /** An item of the horizontal strip: `>name< ` when selected, ` name  ` otherwise. */
  function ItemString(item: Item, selected: bool): (r: string)
    ensures |r| == |item.name| + 3
  {
    if selected then ">" + item.name + "< " else " " + item.name + "  "
  }

  /** An item's string carries its name after one marker character, and opens with `>` exactly when selected. */
  lemma ItemStringShape(item: Item, selected: bool)
    ensures ItemString(item, selected)[1..|item.name| + 1] == item.name
    ensures (ItemString(item, selected)[0] == '>') <==> selected
  {
  }

  /** The strings of the horizontal strip, one per item, the one at `index` selected. */
  function Rendered(items: seq<Item>, index: nat): (r: seq<string>)
    ensures |r| == |items|
    ensures forall k :: 0 <= k < |items| ==> r[k] == ItemString(items[k], k == index)
  {
    if items == [] then [] else Rendered(items[..|items| - 1], index) + [ItemString(items[|items| - 1], |items| - 1 == index)]
  }

  /** The first `k` parts joined in order. */
  function JoinTo<T>(parts: seq<seq<T>>, k: nat): seq<T>
    requires k <= |parts|
  {
    if k == 0 then [] else JoinTo(parts, k - 1) + parts[k - 1]
  }

  /** Where each of the first `k` parts starts and ends in their join. */
  function SpansTo<T>(parts: seq<seq<T>>, k: nat): (r: seq<(int, int)>)
    requires k <= |parts|
    ensures |r| == k
  {
    if k == 0 then [] else SpansTo(parts, k - 1) + [(|JoinTo(parts, k - 1)|, |JoinTo(parts, k)|)]
  }

  /** Where each part starts and ends once all of them are joined. */
  function Spans<T>(parts: seq<seq<T>>): (r: seq<(int, int)>)
    ensures |r| == |parts|
  {
    SpansTo(parts, |parts|)
  }

  /** One more part extends the join by that part, and the spans by its span. */
  lemma JoinToNext<T>(parts: seq<seq<T>>, k: nat)
    requires k < |parts|
    ensures JoinTo(parts, k + 1) == JoinTo(parts, k) + parts[k]
    ensures SpansTo(parts, k + 1) == SpansTo(parts, k) + [(|JoinTo(parts, k)|, |JoinTo(parts, k)| + |parts[k]|)]
  {
  }

  /** Part `k`'s span runs from the end of the join before it to the end of the join through it. */
  lemma {:induction false} SpansToAt<T>(parts: seq<seq<T>>, k: nat, n: nat)
    requires k < n <= |parts|
    ensures SpansTo(parts, n)[k] == (|JoinTo(parts, k)|, |JoinTo(parts, k + 1)|)
    decreases n
  {
    if k < n - 1 {
      SpansToAt(parts, k, n - 1);
      assert SpansTo(parts, n)[k] == SpansTo(parts, n - 1)[k];
    }
  }

  /** A shorter join is the front of a longer one. */
  lemma {:induction false} JoinToPrefix<T>(parts: seq<seq<T>>, k: nat, n: nat)
    requires k <= n <= |parts|
    ensures |JoinTo(parts, k)| <= |JoinTo(parts, n)|
    ensures JoinTo(parts, n)[..|JoinTo(parts, k)|] == JoinTo(parts, k)
    decreases n
  {
    if k < n {
      JoinToPrefix(parts, k, n - 1);
      var front, short := JoinTo(parts, n - 1), JoinTo(parts, k);
      assert (front + parts[n - 1])[..|short|] == front[..|short|];
    }
  }

  /** Part `k`'s span in the whole join holds exactly that part. */
  lemma SpanOf<T>(parts: seq<seq<T>>, k: nat)
    requires k < |parts|
    ensures Spans(parts)[k] == (|JoinTo(parts, k)|, |JoinTo(parts, k + 1)|)
    ensures 0 <= Spans(parts)[k].0 <= Spans(parts)[k].1 <= |JoinTo(parts, |parts|)|
    ensures JoinTo(parts, |parts|)[Spans(parts)[k].0..Spans(parts)[k].1] == parts[k]
  {
    SpansToAt(parts, k, |parts|);
    JoinToPrefix(parts, k + 1, |parts|);
    var whole, through, before := JoinTo(parts, |parts|), JoinTo(parts, k + 1), JoinTo(parts, k);
    assert whole[..|through|] == through;
    assert whole[|before|..|through|] == through[|before|..];
  }

  /**
   * The spans cut the joined sequence into consecutive pieces, from its
   * first element to its last, and each piece is exactly its part.
   */
  lemma SpansCover<T>(parts: seq<seq<T>>)
    ensures forall k :: 0 <= k < |parts| ==>
              && 0 <= Spans(parts)[k].0 <= Spans(parts)[k].1 <= |JoinTo(parts, |parts|)|
              && JoinTo(parts, |parts|)[Spans(parts)[k].0..Spans(parts)[k].1] == parts[k]
    ensures |parts| > 0 ==> Spans(parts)[0].0 == 0 && Spans(parts)[|parts| - 1].1 == |JoinTo(parts, |parts|)|
    ensures forall k :: 0 <= k < |parts| - 1 ==> Spans(parts)[k].1 == Spans(parts)[k + 1].0
  {
    forall k | 0 <= k < |parts| {
      SpanOf(parts, k);
    }
    forall k | 0 <= k < |parts| - 1
      ensures Spans(parts)[k].1 == Spans(parts)[k + 1].0
    {
      SpanOf(parts, k);
      SpanOf(parts, k + 1);
    }
    if |parts| > 0 {
      SpanOf(parts, 0);
      SpanOf(parts, |parts| - 1);
    }
  }

  /** The horizontal strip: every item's string, in order. */
  function Strip(items: seq<Item>, index: nat): string {
    JoinTo(Rendered(items, index), |items|)
  }

  /**
   * The boundary map: item `k`'s string starts where the strip of the items
   * before it ends, and ends where the strip through it ends.
   */
  function Bounds(items: seq<Item>, index: nat): (r: seq<(int, int)>)
    ensures |r| == |items|
  {
    Spans(Rendered(items, index))
  }

  /**
   * The boundary map cuts the strip into consecutive spans, from its first
   * character to its last, and each span is exactly its item's string.
   */
  lemma BoundsSpan(items: seq<Item>, index: nat)
    ensures forall k :: 0 <= k < |items| ==>
              && 0 <= Bounds(items, index)[k].0 <= Bounds(items, index)[k].1 <= |Strip(items, index)|
              && Strip(items, index)[Bounds(items, index)[k].0..Bounds(items, index)[k].1] == ItemString(items[k], k == index)
    ensures |items| > 0 ==> Bounds(items, index)[0].0 == 0 && Bounds(items, index)[|items| - 1].1 == |Strip(items, index)|
    ensures forall k :: 0 <= k < |items| - 1 ==> Bounds(items, index)[k].1 == Bounds(items, index)[k + 1].0
  {
    SpansCover(Rendered(items, index));
  }

  /**
   * The display window over a strip of length `len` for a selected span
   * `[s, e)`: a span wider than `cols` is cut to `cols` from its start; a
   * narrower one is centred, with the window slid back inside the strip at
   * either end.
   */
  function Window(s: int, e: int, cols: int, len: int): (w: (int, int))
    ensures 0 <= s <= e <= len && 0 <= cols ==>
              && 0 <= w.0 <= w.1 <= len && w.1 - w.0 == Min(cols, len)
              && (e - s <= cols ==> w.0 <= s && e <= w.1)
              && (e - s > cols ==> w.0 == s && w.1 == s + cols)
  {
    if e - s > cols then (s, s + cols)
    else
      var remaining := cols - (e - s);
      var first := remaining / 2;
      var l := s - first;
      var l1 := if l < 0 then 0 else l;
      var r1 := if l < 0 then e - l else e;
      var r2 := r1 + remaining - first;
      if r2 > len then (Max(0, l1 - (r2 - len)), len) else (l1, r2)
  }

  /** The `n` elements of `s` from offset `k` on. */
  function Sub<T>(s: seq<T>, k: int, n: nat): seq<T>
    requires 0 <= k && k + n <= |s|
  {
    s[k..k + n]
  }

  /** `part` appears in `line` at some offset. */
  predicate Shows(line: string, part: string) {
    exists k :: 0 <= k && k + |part| <= |line| && Sub(line, k, |part|) == part
  }

  /** The strip seen through the display window around the span `[s, e)`. */
  function WindowLine(strip: string, span: (int, int), cols: nat): string {
    var w := Window(span.0, span.1, cols, |strip|);
    Slice(strip, w.0, w.1)
  }

  /**
   * The windowed line is a piece of the strip as wide as the display or the
   * strip, whichever is narrower; it shows the whole span when that fits,
   * and otherwise the span's first `cols` elements.
   */
  lemma WindowLineShows(strip: string, s: nat, e: nat, cols: nat)
    requires s <= e <= |strip|
    ensures var line := WindowLine(strip, (s, e), cols);
            && |line| == Min(cols, |strip|)
            && Shows(strip, line)
            && (e - s <= cols ==> Shows(line, strip[s..e]))
            && (e - s > cols ==> line == strip[s..e][..cols])
  {
    var w := Window(s, e, cols, |strip|);
    var line := strip[w.0..w.1];
    assert WindowLine(strip, (s, e), cols) == line;
    assert Sub(strip, w.0, |line|) == line;
    if e - s <= cols {
      assert Sub(line, s - w.0, e - s) == strip[s..e];
    } else {
      assert line == strip[s..e][..cols];
    }
  }

  /** Line one of a horizontal menu: the window of the strip around the selected item. */
  function HorizontalLine(items: seq<Item>, index: nat, cols: nat): string
    requires index < |items|
  {
    WindowLine(Strip(items, index), Bounds(items, index)[index], cols)
  }

  /**
   * The horizontal line is a piece of the strip as wide as the display or
   * the strip, whichever is narrower; it shows the whole selected item when
   * that fits, and otherwise the selected item's first `cols` characters.
   */
  lemma HorizontalLineShows(items: seq<Item>, index: nat, cols: nat)
    requires index < |items|
    ensures var line := HorizontalLine(items, index, cols);
            var strip := Strip(items, index);
            var sel := ItemString(items[index], true);
            && |line| == Min(cols, |strip|)
            && Shows(strip, line)
            && (|sel| <= cols ==> Shows(line, sel))
            && (|sel| > cols ==> line == sel[..cols])
  {
    BoundsSpan(items, index);
    var strip, b := Strip(items, index), Bounds(items, index)[index];
    assert strip[b.0..b.1] == ItemString(items[index], true);
    WindowLineShows(strip, b.0, b.1, cols);
  }

  /** `(i+1/n) `: the position of the selected item in a vertical menu. */
  function Ordinal(index: nat, count: nat): (r: string)
    ensures |r| >= 6 && r[0] == '(' && r[|r| - 2..] == ") "
  {
    "(" + NatToString(index + 1) + "/" + NatToString(count) + ") "
  }

  /**
   * The vertical scrollbar: an arrow back unless the first item is
   * selected, an arrow on unless the last one is (the first item of a
   * one-item menu still gets an arrow on).
   */
  function Scrollbar(index: nat, count: nat): (r: string)
    ensures |r| == 4 && r[0] == ' ' && r[2] == '-'
    ensures r[1] == '<' <==> index > 0
    ensures r[3] == '>' <==> index == 0 || index + 1 != count
  {
    if index == 0 then " -->"
    else if index == count - 1 then " <--"
    else " <->"
  }

  /** The scrollbar and its padding are as wide as the ordinal, so the comment lines up under the name. */
  lemma ScrollbarAligned(index: nat, count: nat)
    ensures |Scrollbar(index, count) + Spaces(|Ordinal(index, count)| - |Scrollbar(index, count)|)| == |Ordinal(index, count)|
  {
  }

  /** `ind_char`: a filled square for a lit lamp, an empty one otherwise, each in text presentation. */
  function IndChar(lit: bool): (r: string)
    ensures |r| == 2 && r[1] == '\U{FE0E}'
    ensures r[0] == '\U{25FC}' <==> lit
    ensures r[0] == '\U{25FB}' <==> !lit
  {
    if lit then "\U{25FC}\U{FE0E}" else "\U{25FB}\U{FE0E}"
  }

  /** The breadcrumb trail of a path: each name followed by ` > `. */
  function Crumbs(path: seq<string>): string
    decreases |path|
  {
    if path == [] then "" else Crumbs(path[..|path| - 1]) + path[|path| - 1] + " > "
  }

  /** The trail of a joined path is the two trails joined. */
  lemma {:induction false} CrumbsAppend(a: seq<string>, b: seq<string>)
    ensures Crumbs(a + b) == Crumbs(a) + Crumbs(b)
    decreases |b|
  {
    if b == [] {
      assert a + b == a;
    } else {
      var front := b[..|b| - 1];
      assert (a + b)[..|a + b| - 1] == a + front;
      assert (a + b)[|a + b| - 1] == b[|b| - 1];
      CrumbsAppend(a, front);
    }
  }

  /** One name gives its own crumb. */
  lemma CrumbsOne(name: string)
    ensures Crumbs([name]) == name + " > "
  {
    assert [name][..0] == [];
  }

  /**
   * `compose_nav_breadcrumbs`: the selected item is looked up first, then
   * the path names are appended one crumb at a time, then the item's name.
   */
  method Breadcrumbs(path: seq<string>, items: seq<Item>, index: nat) returns (r: Outcome<string>)
    ensures index >= |items| ==> r == Raised(IndexError)
    ensures index < |items| ==> r == Done(Crumbs(path) + items[index].name)
  {
    if index >= |items| {
      return Raised(IndexError);
    }
    var crumbs := "";
    for k := 0 to |path|
      invariant crumbs == Crumbs(path[..k])
    {
      assert path[..k + 1][..k] == path[..k];
      crumbs := crumbs + path[k] + " > ";
    }
    assert path[..|path|] == path;
    r := Done(crumbs + items[index].name);
  }

  /**
   * The loop of `compose_menu` that builds the strip and its boundary map
   * and notes the selected item's comment as the help text.
   */
  method BuildStrip(items: seq<Item>, index: nat) returns (strip: string, bounds: seq<(int, int)>, help: string)
    ensures strip == Strip(items, index) && bounds == Bounds(items, index)
    ensures help == if index < |items| then items[index].comment else ""
  {
    ghost var parts := Rendered(items, index);
    strip, bounds, help := "", [], "";
    for k := 0 to |items|
      invariant strip == JoinTo(parts, k) && bounds == SpansTo(parts, k)
      invariant help == if index < k then items[index].comment else ""
    {
      JoinToNext(parts, k);
      var itemString := ItemString(items[k], k == index);
      if k == index {
        help := items[k].comment;
      }
      var start := |strip|;
      strip := strip + itemString;
      bounds := bounds + [(start, |strip|)];
    }
  }

  /** The window that `compose_menu` cuts around the selected item's span in the boundary map. */
  method CutWindow(strip: string, bounds: seq<(int, int)>, index: nat, cols: nat) returns (line: string)
    requires index < |bounds|
    ensures line == WindowLine(strip, bounds[index], cols)
  {
    var s, e := bounds[index].0, bounds[index].1;
    var left, right := s, e;
    if right - left > cols {
      right := left + cols;
    } else {
      var remaining := cols - (right - left);
      var first := remaining / 2;
      left := left - first;
      if left < 0 {
        right := right - left;
        left := 0;
      }
      right := right + remaining - first;
      if right > |strip| {
        left := Max(0, left - (right - |strip|));
        right := |strip|;
      }
    }
    assert (left, right) == Window(s, e, cols, |strip|);
    line := Slice(strip, left, right);
  }
}
