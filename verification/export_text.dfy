/**
 * The plain-text rendering of a show (`getSlidesText` in src/electron/data/export.ts): the
 * active layout's slides, each followed by its children, rendered as `[group]` headers and
 * the text of their lines, with blank lines between items, then cleaned up.
 */
module SlidesText {
  import opened Wrappers

  // ---------------------------------------------------------------------------------------
  // Data model
  // ---------------------------------------------------------------------------------------

  /** A text line; `text` holds the values of its text runs, None when the line has no text. */
  datatype Line = Line(text: Option<seq<string>>)

  /** A slide item; None when it has no `lines`. */
  datatype Item = Item(lines: Option<seq<Line>>)

  /** A slide: its group name ("" for none), its items and the ids of its child slides. */
  datatype Slide = Slide(group: string, items: seq<Item>, children: seq<string>)

  /**
   * A show: its layouts (each the sequence of its slide ids; None when the show has no
   * layouts), the active layout's id and the slides by id.
   */
  datatype Show = Show(layouts: Option<map<string, seq<string>>>, activeLayout: string, slides: map<string, Slide>)

  // ---------------------------------------------------------------------------------------
  // Slide order
  // ---------------------------------------------------------------------------------------

  /** `show.slides[id]`, None when undefined. */
  function Lookup(slides: map<string, Slide>, id: string): Option<Slide>
  {
    if id in slides then Some(slides[id]) else None
  }

  /** The child slides, in order; a missing child stays in the list as None. */
  function ChildSlides(children: seq<string>, slides: map<string, Slide>): (r: seq<Option<Slide>>)
    ensures |r| == |children|
    ensures forall k :: 0 <= k < |r| ==> r[k] == Lookup(slides, children[k])
  {
    if |children| == 0 then []
    else ChildSlides(children[..|children| - 1], slides) + [Lookup(slides, children[|children| - 1])]
  }

  /** The slide list built from the layout: each present slide followed by its children. */
  function Expand(ids: seq<string>, slides: map<string, Slide>): seq<Option<Slide>>
  {
    if |ids| == 0 then []
    else
      var id := ids[|ids| - 1];
      Expand(ids[..|ids| - 1], slides)
      + (if id in slides then [Some(slides[id])] + ChildSlides(slides[id].children, slides) else [])
  }

  /**
   * Every slide of the layout is listed, and everything listed is a slide of the show or a
   * missing child.
   */
  lemma {:induction false} ExpandMembers(ids: seq<string>, slides: map<string, Slide>)
    ensures forall id :: id in ids && id in slides ==> Some(slides[id]) in Expand(ids, slides)
    ensures forall x :: x in Expand(ids, slides) && x.Some? ==> x.value in slides.Values
  {
    if |ids| > 0 {
      var init := ids[..|ids| - 1];
      var id := ids[|ids| - 1];
      ExpandMembers(init, slides);
      assert ids == init + [id];
      if id in slides {
        var children := ChildSlides(slides[id].children, slides);
        forall x | x in children && x.Some?
          ensures x.value in slides.Values
        {
          var k :| 0 <= k < |children| && children[k] == x;
          assert slides[id].children[k] in slides;
        }
      }
    }
  }

  /** The layout walks its slide ids in order: the list of a concatenation is the concatenation of the lists. */
  lemma {:induction false} ExpandAppend(a: seq<string>, b: seq<string>, slides: map<string, Slide>)
    ensures Expand(a + b, slides) == Expand(a, slides) + Expand(b, slides)
  {
    if |b| == 0 {
      assert a + b == a;
    } else {
      assert (a + b)[..|a + b| - 1] == a + b[..|b| - 1];
      ExpandAppend(a, b[..|b| - 1], slides);
    }
  }

  /** A present slide is immediately followed by its children; a missing one contributes nothing. */
  lemma ExpandOne(id: string, slides: map<string, Slide>)
    ensures id in slides ==> Expand([id], slides) == [Some(slides[id])] + ChildSlides(slides[id].children, slides)
    ensures id !in slides ==> Expand([id], slides) == []
  {
    assert [id][..0] == [];
  }

  /** A layout entry whose slide is missing is skipped together with its children. */
  lemma ExpandSkipsMissing(a: seq<string>, id: string, b: seq<string>, slides: map<string, Slide>)
    requires id !in slides
    ensures Expand(a + [id] + b, slides) == Expand(a + b, slides)
  {
    ExpandAppend(a + [id], b, slides);
    ExpandAppend(a, [id], slides);
    ExpandAppend(a, b, slides);
    ExpandOne(id, slides);
  }

  /**
   * The slide ids of the active layout; None when the show has layouts but not the active
   * one (reading `.slides` of undefined throws).
   */
  function LayoutIds(show: Show): Option<seq<string>>
  {
    if show.layouts.None? then Some([])
    else if show.activeLayout in show.layouts.value then Some(show.layouts.value[show.activeLayout])
    else None
  }

  // ---------------------------------------------------------------------------------------
  // Text of lines, items and slides
  // ---------------------------------------------------------------------------------------

  /** The values of the text runs, concatenated. */
  function Concat(values: seq<string>): string
  {
    if |values| == 0 then "" else Concat(values[..|values| - 1]) + values[|values| - 1]
  }

  /** A line with text contributes its runs and a newline; a line without text contributes nothing. */
  function LineText(l: Line): (r: string)
    ensures l.text.None? <==> |r| == 0
    ensures |r| > 0 ==> r[|r| - 1] == '\n'
  {
    if l.text.None? then "" else Concat(l.text.value) + "\n"
  }

  function LinesText(lines: seq<Line>): string
  {
    if |lines| == 0 then "" else LinesText(lines[..|lines| - 1]) + LineText(lines[|lines| - 1])
  }

  /** An item with lines contributes their text and a blank line; an item without lines nothing. */
  function ItemText(item: Item): (r: string)
  {
    if item.lines.None? then "" else LinesText(item.lines.value) + "\n"
  }

  /** The items' text, in order. */
  function ItemsText(items: seq<Item>): string
  {
    if |items| == 0 then "" else ItemsText(items[..|items| - 1]) + ItemText(items[|items| - 1])
  }

  /** The items contribute no text exactly when none of them has lines. */
  lemma {:induction false} ItemsTextEmpty(items: seq<Item>)
    ensures ItemsText(items) == "" <==> forall k :: 0 <= k < |items| ==> items[k].lines.None?
  {
    if |items| > 0 {
      var init := items[..|items| - 1];
      ItemsTextEmpty(init);
      assert forall k :: 0 <= k < |init| ==> init[k] == items[k];
    }
  }

  /** The group header of a slide. */
  function Header(s: Slide): string
  {
    if s.group != "" then "[" + s.group + "]\n" else ""
  }

  /** `text.slice(text.length - 2) === "]\n"`. */
  predicate EndsWithHeader(t: string)
  {
    |t| >= 2 && t[|t| - 2] == ']' && t[|t| - 1] == '\n'
  }

  /**
   * The check after each slide: text that ends with a header gets an extra newline, so the
   * result never ends with one; nothing else changes.
   */
  function AfterSlide(t: string): (r: string)
    ensures !EndsWithHeader(r)
    ensures t <= r && |r| <= |t| + 1
  {
    if EndsWithHeader(t) then
      var u := t + "\n";
      assert u[|u| - 2] == t[|t| - 1];
      u
    else t
  }

  /**
   * The text of one slide appended to the text before it: the earlier text is kept, and the
   * result does not end with a header.
   */
  function SlideText(before: string, s: Slide): (r: string)
    ensures before <= r && !EndsWithHeader(r)
  {
    AfterSlide(before + Header(s) + ItemsText(s.items))
  }

  /**
   * The text accumulated over the slide list, before the clean-up; None when an entry is not
   * a slide (reading its `group` throws).
   */
  function Accumulated(xs: seq<Option<Slide>>): Option<string>
  {
    if |xs| == 0 then Some("")
    else
      match Accumulated(xs[..|xs| - 1])
      case None => None
      case Some(t) => if xs[|xs| - 1].None? then None else Some(SlideText(t, xs[|xs| - 1].value))
  }

  /**
   * After a slide the text never ends with a header: the check adds exactly one newline when
   * the text ends with "]\n" and leaves it as it is otherwise.
   */
  lemma AfterSlideBreaksHeader(t: string)
    ensures !EndsWithHeader(AfterSlide(t))
    ensures EndsWithHeader(t) ==> AfterSlide(t) == t + "\n"
    ensures !EndsWithHeader(t) ==> AfterSlide(t) == t
  {
  }

  /**
   * The text of each slide extends the text before it: it starts with the slide's
   * `[group]` header, followed by its items' text, and gets one more newline exactly when
   * that ends with "]\n". A group whose items have no text is therefore followed by a blank
   * line.
   */
  lemma SlideTextExtends(before: string, s: Slide)
    ensures var t := before + Header(s) + ItemsText(s.items);
      && (EndsWithHeader(t) ==> SlideText(before, s) == t + "\n")
      && (!EndsWithHeader(t) ==> SlideText(before, s) == t)
    ensures s.group != "" ==> before + "[" + s.group + "]\n" <= SlideText(before, s)
    ensures s.group != "" && (forall k :: 0 <= k < |s.items| ==> s.items[k].lines.None?) ==>
              SlideText(before, s) == before + "[" + s.group + "]\n\n"
  {
    ItemsTextEmpty(s.items);
    var t := before + Header(s) + ItemsText(s.items);
    if s.group != "" {
      assert before + "[" + s.group + "]\n" <= t;
      var h := before + "[" + s.group + "]\n";
      assert h[|h| - 2] == ']';
    }
  }

  /** Every entry of the list is a slide. */
  predicate AllSlides(xs: seq<Option<Slide>>)
  {
    forall k :: 0 <= k < |xs| ==> xs[k].Some?
  }

  /** Accumulation fails exactly when some entry of the list is not a slide. */
  lemma {:induction false} AccumulatedFails(xs: seq<Option<Slide>>)
    ensures Accumulated(xs).None? <==> !AllSlides(xs)
  {
    if |xs| > 0 {
      var init := xs[..|xs| - 1];
      AccumulatedFails(init);
      if !AllSlides(init) {
        var k :| 0 <= k < |init| && !init[k].Some?;
        assert !xs[k].Some?;
      }
      if !AllSlides(xs) {
        var k :| 0 <= k < |xs| && !xs[k].Some?;
        if k < |init| {
          assert !init[k].Some?;
        }
      }
    }
  }

  /** Item text of a concatenation is the concatenation of item texts. */
  lemma {:induction false} ItemsTextAppend(a: seq<Item>, b: seq<Item>)
    ensures ItemsText(a + b) == ItemsText(a) + ItemsText(b)
  {
    if |b| == 0 {
      assert a + b == a;
    } else {
      var init := b[..|b| - 1];
      assert (a + b)[..|a + b| - 1] == a + init;
      assert (a + b)[|a + b| - 1] == b[|b| - 1];
      ItemsTextAppend(a, init);
      calc {
        ItemsText(a + b);
        ItemsText(a + init) + ItemText(b[|b| - 1]);
        (ItemsText(a) + ItemsText(init)) + ItemText(b[|b| - 1]);
        ItemsText(a) + (ItemsText(init) + ItemText(b[|b| - 1]));
      }
    }
  }

  // ---------------------------------------------------------------------------------------
  // Clean-up: replaceAll("\n\n\n", "\n\n") and trim()
  // ---------------------------------------------------------------------------------------

  /** The text holds three newlines in a row starting at `i`. */
  predicate TripleAt(s: string, i: int)
  {
    0 <= i && i + 3 <= |s| && s[i] == '\n' && s[i + 1] == '\n' && s[i + 2] == '\n'
  }

  /** `s.replaceAll("\n\n\n", "\n\n")`: one left-to-right pass over non-overlapping occurrences. */
  function ReplaceTriple(s: string): (r: string)
    ensures |r| <= |s|
  {
    if |s| < 3 then s
    else if TripleAt(s, 0) then "\n\n" + ReplaceTriple(s[3..])
    else [s[0]] + ReplaceTriple(s[1..])
  }

  /** The characters of a text that are not newlines, in order. */
  function NonNewlines(s: string): string
  {
    if |s| == 0 then "" else (if s[0] == '\n' then "" else [s[0]]) + NonNewlines(s[1..])
  }

  lemma {:induction false} NonNewlinesAppend(a: string, b: string)
    ensures NonNewlines(a + b) == NonNewlines(a) + NonNewlines(b)
  {
    if |a| > 0 {
      assert (a + b)[1..] == a[1..] + b;
      NonNewlinesAppend(a[1..], b);
    } else {
      assert a + b == b;
    }
  }

  /** The replacement only removes newlines: every other character stays, in order. */
  lemma {:induction false} ReplaceTripleKeepsText(s: string)
    ensures NonNewlines(ReplaceTriple(s)) == NonNewlines(s)
  {
    if |s| >= 3 {
      if TripleAt(s, 0) {
        ReplaceTripleKeepsText(s[3..]);
        NonNewlinesAppend("\n\n", ReplaceTriple(s[3..]));
        assert s == "\n\n\n" + s[3..];
        NonNewlinesAppend("\n\n\n", s[3..]);
      } else {
        ReplaceTripleKeepsText(s[1..]);
        NonNewlinesAppend([s[0]], ReplaceTriple(s[1..]));
        assert s == [s[0]] + s[1..];
        NonNewlinesAppend([s[0]], s[1..]);
      }
    }
  }

  /** A text without three newlines in a row is left as it is. */
  lemma {:induction false} ReplaceTripleNoTriple(s: string)
    requires forall i :: 0 <= i ==> !TripleAt(s, i)
    ensures ReplaceTriple(s) == s
  {
    if |s| >= 3 {
      assert !TripleAt(s, 0);
      forall i | 0 <= i
        ensures !TripleAt(s[1..], i)
      {
        assert !TripleAt(s, i + 1);
      }
      ReplaceTripleNoTriple(s[1..]);
    }
  }

  /** The text shrinks exactly when it holds three newlines in a row. */
  lemma {:induction false} ReplaceTripleShrinks(s: string)
    ensures |ReplaceTriple(s)| < |s| <==> exists i :: TripleAt(s, i)
  {
    if exists i :: TripleAt(s, i) {
      var i :| TripleAt(s, i);
      ShrinksAt(s, i);
    } else {
      ReplaceTripleNoTriple(s);
    }
  }

  lemma {:induction false} ShrinksAt(s: string, i: int)
    requires TripleAt(s, i)
    ensures |ReplaceTriple(s)| < |s|
    decreases i
  {
    if !TripleAt(s, 0) {
      assert TripleAt(s[1..], i - 1);
      ShrinksAt(s[1..], i - 1);
    }
  }

  /** One pass is not enough for a run of four newlines: it leaves three. */
  lemma FourNewlinesLeaveThree()
    ensures ReplaceTriple("a\n\n\n\nb") == "a\n\n\nb"
  {
    assert TripleAt("a\n\n\n\nb"[1..], 0);
    assert "a\n\n\n\nb"[1..][3..] == "\nb";
    assert !TripleAt("a\n\n\n\nb", 0);
  }

  /** The characters `trim()` removes: ECMAScript white space and line terminators. */
  predicate IsWhitespace(c: char)
  {
    var k := c as int;
    k == 0x09 || k == 0x0A || k == 0x0B || k == 0x0C || k == 0x0D || k == 0x20 || k == 0xA0
    || k == 0x1680 || (0x2000 <= k <= 0x200A) || k == 0x2028 || k == 0x2029 || k == 0x202F
    || k == 0x205F || k == 0x3000 || k == 0xFEFF
  }

  /** The number of white-space characters at the start of the text. */
  function LeadCount(s: string): (n: nat)
    ensures n <= |s|
    ensures forall k :: 0 <= k < n ==> IsWhitespace(s[k])
    ensures n < |s| ==> !IsWhitespace(s[n])
  {
    if |s| > 0 && IsWhitespace(s[0]) then 1 + LeadCount(s[1..]) else 0
  }

  /** The number of white-space characters at the end of the text. */
  function TrailCount(s: string): (n: nat)
    ensures n <= |s|
    ensures forall k :: |s| - n <= k < |s| ==> IsWhitespace(s[k])
    ensures n < |s| ==> !IsWhitespace(s[|s| - n - 1])
  {
    if |s| > 0 && IsWhitespace(s[|s| - 1]) then 1 + TrailCount(s[..|s| - 1]) else 0
  }

  /**
   * `s.trim()`: the text between the leading and the trailing white space, which itself
   * neither starts nor ends with white space.
   */
  function Trim(s: string): (r: string)
    ensures exists i, j ::
              && 0 <= i <= j <= |s| && r == s[i..j]
              && (forall k :: 0 <= k < i ==> IsWhitespace(s[k]))
              && (forall k :: j <= k < |s| ==> IsWhitespace(s[k]))
    ensures |r| > 0 ==> !IsWhitespace(r[0]) && !IsWhitespace(r[|r| - 1])
  {
    var i := LeadCount(s);
    var j := |s| - TrailCount(s);
    if i >= j then
      assert s[i..i] == "";
      ""
    else
      s[i..j]
  }

  // ---------------------------------------------------------------------------------------
  // getSlidesText
  // ---------------------------------------------------------------------------------------

  /**
   * The text of a show, or None when rendering throws: the show has layouts but not the
   * active one, or a child id names no slide. The text never starts or ends with white space.
   */
  function ShowText(show: Show): (r: Option<string>)
    ensures r.Some? && |r.value| > 0 ==> !IsWhitespace(r.value[0]) && !IsWhitespace(r.value[|r.value| - 1])
  {
    match LayoutIds(show)
    case None => None
    case Some(ids) =>
      match Accumulated(Expand(ids, show.slides))
      case None => None
      case Some(raw) => Some(Trim(ReplaceTriple(raw)))
  }

  /** Rendering fails exactly on a missing active layout or a missing child slide. */
  lemma ShowTextFails(show: Show)
    ensures ShowText(show).None? <==>
      LayoutIds(show).None? || !AllSlides(Expand(LayoutIds(show).value, show.slides))
  {
    if LayoutIds(show).Some? {
      AccumulatedFails(Expand(LayoutIds(show).value, show.slides));
    }
  }

  /** The slide list of the layout: each present slide, then its children. */
  method CollectSlides(ids: seq<string>, slides: map<string, Slide>) returns (list: seq<Option<Slide>>)
    ensures list == Expand(ids, slides)
  {
    list := [];
    for i := 0 to |ids|
      invariant list == Expand(ids[..i], slides)
    {
      assert ids[..i + 1][..i] == ids[..i];
      if ids[i] in slides {
        var slide := slides[ids[i]];
        list := list + [Some(slide)];
        for j := 0 to |slide.children|
          invariant list == Expand(ids[..i], slides) + [Some(slide)] + ChildSlides(slide.children[..j], slides)
        {
          assert slide.children[..j + 1][..j] == slide.children[..j];
          var child := slide.children[j];
          list := list + [if child in slides then Some(slides[child]) else None];
        }
        assert slide.children[..|slide.children|] == slide.children;
      }
    }
    assert ids[..|ids|] == ids;
  }

  /** Append the text of one line: its runs and a newline, or nothing when it has no text. */
  method AppendLine(text: string, line: Line) returns (t: string)
    ensures t == text + LineText(line)
  {
    t := text;
    if line.text.None? {
      return;
    }
    var values := line.text.value;
    for m := 0 to |values|
      invariant t == text + Concat(values[..m])
    {
      assert values[..m + 1][..m] == values[..m];
      t := t + values[m];
    }
    assert values[..|values|] == values;
    t := t + "\n";
  }

  /** Append the text of one item: its lines and a blank line, or nothing when it has no lines. */
  method AppendItem(text: string, item: Item) returns (t: string)
    ensures t == text + ItemText(item)
  {
    t := text;
    if item.lines.None? {
      return;
    }
    var lines := item.lines.value;
    for k := 0 to |lines|
      invariant t == text + LinesText(lines[..k])
    {
      assert lines[..k + 1][..k] == lines[..k];
      t := AppendLine(t, lines[k]);
    }
    assert lines[..|lines|] == lines;
    t := t + "\n";
  }

  /** Append the text of a slide's items, in order. */
  method AppendItems(text: string, items: seq<Item>) returns (t: string)
    ensures t == text + ItemsText(items)
  {
    t := text;
    for j := 0 to |items|
      invariant t == text + ItemsText(items[..j])
    {
      assert items[..j + 1][..j] == items[..j];
      assert ItemsText(items[..j + 1]) == ItemsText(items[..j]) + ItemText(items[j]);
      t := AppendItem(t, items[j]);
    }
    assert items[..|items|] == items;
  }

  /** Append the text of one slide: its header, its items, and the newline after a bare header. */
  method AppendSlide(text: string, slide: Slide) returns (t: string)
    ensures t == SlideText(text, slide)
  {
    t := text;
    if slide.group != "" {
      t := t + "[" + slide.group + "]\n";
    }
    assert t == text + Header(slide);
    t := AppendItems(t, slide.items);
    ghost var body := t;
    if EndsWithHeader(t) {
      t := t + "\n";
    }
    assert t == AfterSlide(body);
  }

  /**
   * The second walk of `getSlidesText`: accumulate the text of the slides in order; None when
   * an entry is not a slide.
   */
  method AccumulateText(slides: seq<Option<Slide>>) returns (r: Option<string>)
    ensures r == Accumulated(slides)
  {
    var text := "";
    for i := 0 to |slides|
      invariant Accumulated(slides[..i]) == Some(text)
    {
      assert slides[..i + 1][..i] == slides[..i];
      if slides[i].None? {
        AccumulatedFails(slides);
        return None;
      }
      text := AppendSlide(text, slides[i].value);
    }
    assert slides[..|slides|] == slides;
    return Some(text);
  }

  /** `getSlidesText`: collect the slide list, accumulate the text, then clean it up. */
  method GetSlidesText(show: Show) returns (r: Option<string>)
    ensures r == ShowText(show)
  {
    if show.layouts.Some? && show.activeLayout !in show.layouts.value {
      return None;
    }
    var ids := if show.layouts.Some? then show.layouts.value[show.activeLayout] else [];
    assert LayoutIds(show) == Some(ids);
    var slides := CollectSlides(ids, show.slides);
    var text := AccumulateText(slides);
    if text.None? {
      return None;
    }
    var cleaned := ReplaceTriple(text.value);
    r := Some(Trim(cleaned));
  }
}
