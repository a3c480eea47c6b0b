/**
 * The chat bubble's text layout. A reply is cut into lines; blank lines are
 * dropped; a line starting with a `- ` or `• ` marker becomes an item of a
 * bullet list, consecutive items sharing one list; any other line becomes a
 * paragraph, a heading when it ends with a colon. The markup (class names,
 * React keys, the bullet glyph) is presentation and is left out: a block is
 * its kind and its text.
 */
module TextFormatter {
  import opened Wrappers
  import opened Strings
  import opened Sequences

  datatype Block =
    | Paragraph(text: string, heading: bool)
    | BulletList(items: seq<string>)

  /** One content line, classified. */
  datatype Line =
    | Item(text: string)
    | Text(text: string, heading: bool)

  const Dash: string := "- "
  const Dot: string := "\U{2022} "

  predicate IsBullet(trimmed: string) {
    StartsWith(trimmed, Dash) || StartsWith(trimmed, Dot)
  }

  /** The lines of `text` that hold more than whitespace, in order. */
  function ContentLines(text: string): (r: seq<string>)
    ensures forall k :: 0 <= k < |r| ==> Trim(r[k]) != ""
  {
    KeepContent(Split(text, '\n'))
  }

  function KeepContent(lines: seq<string>): (r: seq<string>)
    ensures |r| <= |lines|
    ensures forall k :: 0 <= k < |r| ==> Trim(r[k]) != ""
    decreases |lines|
  {
    if lines == [] then []
    else
      var rest := KeepContent(lines[..|lines| - 1]);
      var last := lines[|lines| - 1];
      if Trim(last) != "" then rest + [last] else rest
  }

  /** A line keeps its content exactly when it is not all whitespace. */
  lemma {:induction false} KeepContentExact(lines: seq<string>)
    ensures (forall k :: 0 <= k < |lines| ==> !AllWhitespace(lines[k])) <==> KeepContent(lines) == lines
    decreases |lines|
  {
    if lines != [] {
      var init, last := lines[..|lines| - 1], lines[|lines| - 1];
      KeepContentExact(init);
      TrimSpec(last);
      SplitLast(lines);
      if KeepContent(lines) == lines {
        assert KeepContent(init) + [last] == init + [last];
        assert KeepContent(init) == init;
        forall k | 0 <= k < |lines| ensures !AllWhitespace(lines[k]) {
          if k < |init| {
            assert lines[k] == init[k];
          }
        }
      }
      if forall k :: 0 <= k < |lines| ==> !AllWhitespace(lines[k]) {
        forall k | 0 <= k < |init| ensures !AllWhitespace(init[k]) {
          assert init[k] == lines[k];
        }
      }
    }
  }

  /** The filter on one line: kept exactly when it has content. */
  lemma KeepContentOne(line: string)
    ensures KeepContent([line]) == if AllWhitespace(line) then [] else [line]
  {
    assert [line][..0] == [];
    TrimSpec(line);
  }

  /** The filter keeps order: the content lines of a concatenation are the concatenation of their content lines. */
  lemma {:induction false} KeepContentAppend(a: seq<string>, b: seq<string>)
    ensures KeepContent(a + b) == KeepContent(a) + KeepContent(b)
    decreases |b|
  {
    if b == [] {
      assert a + b == a;
    } else {
      var b' := b[..|b| - 1];
      DropLastConcat(a, b);
      KeepContentAppend(a, b');
      ConcatAssoc(KeepContent(a), KeepContent(b'), [b[|b| - 1]]);
    }
  }

  /** How one content line is rendered. */
  function ClassifyLine(line: string): Line {
    var t := Trim(line);
    if IsBullet(t) then Item(Trim(t[2..])) else Text(t, EndsWith(t, ":"))
  }

  /** A content line never yields an empty item or an empty paragraph. */
  lemma ClassifiedTextNonEmpty(line: string)
    requires Trim(line) != ""
    ensures ClassifyLine(line).text != ""
  {
    var t := Trim(line);
    TrimSpec(line);
    if IsBullet(t) {
      assert t[..2] == Dash || t[..2] == Dot;
      assert IsWhitespace(t[1]);
      assert |t| > 2;
      var rest := t[2..];
      assert rest[|rest| - 1] == t[|t| - 1];
      assert !AllWhitespace(rest);
      TrimSpec(rest);
    }
  }

  function ClassifyAll(lines: seq<string>): (r: seq<Line>)
    ensures |r| == |lines|
    ensures forall k :: 0 <= k < |r| ==> r[k] == ClassifyLine(lines[k])
  {
    seq(|lines|, k requires 0 <= k < |lines| => ClassifyLine(lines[k]))
  }

  function ItemLines(items: seq<string>): (r: seq<Line>)
    ensures |r| == |items|
    ensures forall k :: 0 <= k < |r| ==> r[k] == Item(items[k])
  {
    seq(|items|, k requires 0 <= k < |items| => Item(items[k]))
  }

  function LinesOf(b: Block): seq<Line> {
    match b
    case Paragraph(t, h) => [Text(t, h)]
    case BulletList(items) => ItemLines(items)
  }

  /** The classified lines a layout was built from, read back in order. */
  function Flatten(blocks: seq<Block>): seq<Line>
    decreases |blocks|
  {
    if blocks == [] then []
    else Flatten(blocks[..|blocks| - 1]) + LinesOf(blocks[|blocks| - 1])
  }

  /** No list is empty and no two lists are adjacent: every run of items is one list. */
  predicate WellGrouped(blocks: seq<Block>) {
    && (forall k :: 0 <= k < |blocks| ==> blocks[k].BulletList? ==> blocks[k].items != [])
    && (forall k :: 0 < k < |blocks| ==> blocks[k].BulletList? ==> blocks[k - 1].Paragraph?)
  }

  /** The layout after one more line: a paragraph, or an item joining a list that ends the layout. */
  function AddLine(g: seq<Block>, l: Line): seq<Block> {
    match l
    case Text(t, h) => g + [Paragraph(t, h)]
    case Item(t) =>
      if g != [] && g[|g| - 1].BulletList? then g[..|g| - 1] + [BulletList(g[|g| - 1].items + [t])]
      else g + [BulletList([t])]
  }

  /**
   * Reference layout: each text line is a paragraph, and each item joins the
   * list just before it or opens a new one.
   */
  function Group(lines: seq<Line>): seq<Block>
    decreases |lines|
  {
    if lines == [] then [] else AddLine(Group(lines[..|lines| - 1]), lines[|lines| - 1])
  }

  lemma GroupSnoc(lines: seq<Line>, l: Line)
    ensures Group(lines + [l]) == AddLine(Group(lines), l)
  {
    assert (lines + [l])[..|lines|] == lines;
  }

  lemma GroupPrefix(lines: seq<Line>, i: nat)
    requires i < |lines|
    ensures Group(lines[..i + 1]) == AddLine(Group(lines[..i]), lines[i])
  {
    assert lines[..i + 1] == lines[..i] + [lines[i]];
    GroupSnoc(lines[..i], lines[i]);
  }

  /** What the layout is once a pending list is flushed. */
  function Emit(content: seq<Block>, current: seq<string>): seq<Block> {
    if current == [] then content else content + [BulletList(current)]
  }

  /** An item extends the pending list, or opens one after a paragraph. */
  lemma EmitItem(content: seq<Block>, current: seq<string>, t: string)
    requires content == [] || content[|content| - 1].Paragraph?
    ensures AddLine(Emit(content, current), Item(t)) == Emit(content, current + [t])
  {
    if current != [] {
      var g := content + [BulletList(current)];
      assert g[..|g| - 1] == content;
    } else {
      assert current + [t] == [t];
    }
  }

  /** The reference layout is well grouped. */
  lemma {:induction false} GroupWellGrouped(lines: seq<Line>)
    ensures WellGrouped(Group(lines))
    decreases |lines|
  {
    if lines != [] {
      GroupWellGrouped(lines[..|lines| - 1]);
      AddLineWellGrouped(Group(lines[..|lines| - 1]), lines[|lines| - 1]);
    }
  }

  /** Adding a line keeps a layout well grouped. */
  lemma AddLineWellGrouped(g: seq<Block>, l: Line)
    requires WellGrouped(g)
    ensures WellGrouped(AddLine(g, l))
  {
    var r := AddLine(g, l);
    forall k | 0 <= k < |r| - 1 ensures r[k] == g[k] {
    }
  }

  lemma FlattenAppend(blocks: seq<Block>, b: Block)
    ensures Flatten(blocks + [b]) == Flatten(blocks) + LinesOf(b)
  {
    assert (blocks + [b])[..|blocks|] == blocks;
  }

  /** Adding a line to a layout adds exactly that line to what it flattens to. */
  lemma FlattenAddLine(g: seq<Block>, l: Line)
    ensures Flatten(AddLine(g, l)) == Flatten(g) + [l]
  {
    match l
    case Text(t, h) =>
      FlattenAppend(g, Paragraph(t, h));
    case Item(t) =>
      if g != [] && g[|g| - 1].BulletList? {
        var last := g[|g| - 1];
        assert g == g[..|g| - 1] + [last];
        FlattenAppend(g[..|g| - 1], last);
        FlattenAppend(g[..|g| - 1], BulletList(last.items + [t]));
        assert ItemLines(last.items + [t]) == ItemLines(last.items) + [Item(t)];
      } else {
        FlattenAppend(g, BulletList([t]));
        assert ItemLines([t]) == [Item(t)];
      }
  }

  /** The reference layout loses, adds and reorders no line. */
  lemma {:induction false} FlattenGroup(lines: seq<Line>)
    ensures Flatten(Group(lines)) == lines
    decreases |lines|
  {
    if lines != [] {
      var init := lines[..|lines| - 1];
      assert lines == init + [lines[|lines| - 1]];
      FlattenGroup(init);
      FlattenAddLine(Group(init), lines[|lines| - 1]);
    }
  }

  /** A run of items after a paragraph (or at the start) forms exactly one new list. */
  lemma {:induction false} GroupItemRun(lines: seq<Line>, items: seq<string>)
    requires items != []
    requires Group(lines) == [] || Group(lines)[|Group(lines)| - 1].Paragraph?
    ensures Group(lines + ItemLines(items)) == Group(lines) + [BulletList(items)]
    decreases |items|
  {
    var init := items[..|items| - 1];
    var t := items[|items| - 1];
    assert ItemLines(items) == ItemLines(init) + [Item(t)];
    assert lines + ItemLines(items) == (lines + ItemLines(init)) + [Item(t)];
    GroupSnoc(lines + ItemLines(init), Item(t));
    if init == [] {
      assert lines + ItemLines(init) == lines;
      assert items == [t];
    } else {
      GroupItemRun(lines, init);
      assert init + [t] == items;
    }
  }

  /** A well-grouped layout is the reference layout of its own lines: the grouping is unique. */
  lemma {:induction false} GroupFlatten(blocks: seq<Block>)
    requires WellGrouped(blocks)
    ensures Group(Flatten(blocks)) == blocks
    decreases |blocks|
  {
    if blocks != [] {
      var init := blocks[..|blocks| - 1];
      var b := blocks[|blocks| - 1];
      SplitLast(blocks);
      assert WellGrouped(init);
      GroupFlatten(init);
      FlattenAppend(init, b);
      match b
      case Paragraph(t, h) =>
        GroupSnoc(Flatten(init), Text(t, h));
      case BulletList(items) =>
        GroupItemRun(Flatten(init), items);
    }
  }

  /**
   * The `forEach` callback of `formatResponseText` for one content line: a
   * bullet item joins the pending list; any other line first flushes the
   * pending list, then becomes a paragraph unless it is blank.
   */
  method FormatLine(content: seq<Block>, current: seq<string>, line: string)
    returns (content': seq<Block>, current': seq<string>)
    requires content == [] || content[|content| - 1].Paragraph?
    ensures Trim(line) != "" ==> content' == [] || content'[|content'| - 1].Paragraph?
    ensures Trim(line) != "" ==> Emit(content', current') == AddLine(Emit(content, current), ClassifyLine(line))
    ensures Trim(line) == "" ==> Emit(content', current') == Emit(content, current)
  {
    content', current' := content, current;
    var trimmed := Trim(line);
    if StartsWith(trimmed, Dash) || StartsWith(trimmed, Dot) {
      var item := Trim(trimmed[2..]);
      EmitItem(content, current, item);
      current' := current' + [item];
    } else {
      if current' != [] {
        content' := content' + [BulletList(current')];
        current' := [];
      }
      if trimmed != "" {
        var heading := EndsWith(trimmed, ":");
        content' := content' + [Paragraph(trimmed, heading)];
      }
    }
  }

  /**
   * `formatResponseText`: `None` for the empty string; otherwise the layout
   * built by one pass over the content lines, flushing the pending list at
   * the end.
   */
  method FormatResponseText(text: string) returns (r: Option<seq<Block>>)
    ensures r.None? <==> text == ""
    ensures r.Some? ==> r.value == Group(ClassifyAll(ContentLines(text)))
  {
    if text == "" {
      return None;
    }
    var lines := ContentLines(text);
    ghost var expected := ClassifyAll(lines);
    var content: seq<Block> := [];
    var current: seq<string> := [];
    var i := 0;
    while i < |lines|
      invariant 0 <= i <= |lines|
      invariant content == [] || content[|content| - 1].Paragraph?
      invariant Emit(content, current) == Group(expected[..i])
    {
      GroupPrefix(expected, i);
      content, current := FormatLine(content, current, lines[i]);
      i := i + 1;
    }
    if current != [] {
      content := content + [BulletList(current)];
    }
    assert expected[..|lines|] == expected;
    return Some(content);
  }

  /** The layout is well grouped and reads back as the classified content lines. */
  lemma FormatResponseTextShape(text: string)
    ensures WellGrouped(Group(ClassifyAll(ContentLines(text))))
    ensures Flatten(Group(ClassifyAll(ContentLines(text)))) == ClassifyAll(ContentLines(text))
  {
    GroupWellGrouped(ClassifyAll(ContentLines(text)));
    FlattenGroup(ClassifyAll(ContentLines(text)));
  }

  /** What a classified content line looks like: nothing empty, and a heading exactly when it ends with a colon. */
  predicate GoodLine(l: Line) {
    match l
    case Item(t) => t != ""
    case Text(t, h) => t != "" && (h <==> EndsWith(t, ":"))
  }

  predicate GoodBlock(b: Block) {
    match b
    case Paragraph(t, h) => t != "" && (h <==> EndsWith(t, ":"))
    case BulletList(items) => forall j :: 0 <= j < |items| ==> items[j] != ""
  }

  lemma ContentLinesGood(text: string)
    ensures forall k :: 0 <= k < |ClassifyAll(ContentLines(text))| ==> GoodLine(ClassifyAll(ContentLines(text))[k])
  {
    var lines := ContentLines(text);
    forall k | 0 <= k < |lines|
      ensures GoodLine(ClassifyAll(lines)[k])
    {
      ClassifiedTextNonEmpty(lines[k]);
    }
  }

  lemma GoodBlockOfLines(b: Block)
    requires forall j :: 0 <= j < |LinesOf(b)| ==> GoodLine(LinesOf(b)[j])
    ensures GoodBlock(b)
  {
    match b
    case Paragraph(t, h) =>
      assert GoodLine(LinesOf(b)[0]);
    case BulletList(items) =>
      forall j | 0 <= j < |items|
        ensures items[j] != ""
      {
        assert GoodLine(LinesOf(b)[j]);
      }
  }

  /** A layout built from good lines has good blocks. */
  lemma {:induction false} GoodBlocks(blocks: seq<Block>)
    requires forall k :: 0 <= k < |Flatten(blocks)| ==> GoodLine(Flatten(blocks)[k])
    ensures forall k :: 0 <= k < |blocks| ==> GoodBlock(blocks[k])
    decreases |blocks|
  {
    if blocks != [] {
      var init, last := blocks[..|blocks| - 1], blocks[|blocks| - 1];
      var f, g := Flatten(init), LinesOf(last);
      SplitLast(blocks);
      FlattenAppend(init, last);
      assert Flatten(blocks) == f + g;
      assert forall k :: 0 <= k < |f| ==> GoodLine(f[k]) by {
        forall k | 0 <= k < |f| ensures GoodLine(f[k]) {
          assert (f + g)[k] == f[k];
        }
      }
      assert forall j :: 0 <= j < |g| ==> GoodLine(g[j]) by {
        forall j | 0 <= j < |g| ensures GoodLine(g[j]) {
          assert (f + g)[|f| + j] == g[j];
        }
      }
      GoodBlocks(init);
      GoodBlockOfLines(last);
      forall k | 0 <= k < |blocks| ensures GoodBlock(blocks[k]) {
        if k < |init| {
          assert blocks[k] == init[k];
        }
      }
    }
  }

  /**
   * No paragraph and no list item of the layout is empty, and a paragraph
   * is a heading exactly when its text ends with a colon.
   */
  lemma FormatResponseTextBlocks(text: string)
    ensures var blocks := Group(ClassifyAll(ContentLines(text)));
      forall k :: 0 <= k < |blocks| ==> GoodBlock(blocks[k])
  {
    ContentLinesGood(text);
    FlattenGroup(ClassifyAll(ContentLines(text)));
    GoodBlocks(Group(ClassifyAll(ContentLines(text))));
  }

  /** Number of list items in a layout. */
  function ItemCount(blocks: seq<Block>): nat
    decreases |blocks|
  {
    if blocks == [] then 0
    else
      var last := blocks[|blocks| - 1];
      ItemCount(blocks[..|blocks| - 1]) + (if last.BulletList? then |last.items| else 0)
  }

  /** Number of paragraphs in a layout. */
  function ParagraphCount(blocks: seq<Block>): nat
    decreases |blocks|
  {
    if blocks == [] then 0
    else ParagraphCount(blocks[..|blocks| - 1]) + (if blocks[|blocks| - 1].Paragraph? then 1 else 0)
  }

  /** Number of item lines among classified lines. */
  function LineItemCount(lines: seq<Line>): (r: nat)
    ensures r <= |lines|
    decreases |lines|
  {
    if lines == [] then 0
    else LineItemCount(lines[..|lines| - 1]) + (if lines[|lines| - 1].Item? then 1 else 0)
  }

  /** Number of lines whose trimmed text starts with a bullet marker. */
  function BulletLineCount(lines: seq<string>): nat
    decreases |lines|
  {
    if lines == [] then 0
    else BulletLineCount(lines[..|lines| - 1]) + (if IsBullet(Trim(lines[|lines| - 1])) then 1 else 0)
  }

  lemma {:induction false} LineItemCountAppend(a: seq<Line>, b: seq<Line>)
    ensures LineItemCount(a + b) == LineItemCount(a) + LineItemCount(b)
    decreases |b|
  {
    if b == [] {
      assert a + b == a;
    } else {
      assert (a + b)[..|a + b| - 1] == a + b[..|b| - 1];
      LineItemCountAppend(a, b[..|b| - 1]);
    }
  }

  lemma {:induction false} ItemLinesCount(items: seq<string>)
    ensures LineItemCount(ItemLines(items)) == |items|
    decreases |items|
  {
    if items != [] {
      assert ItemLines(items)[..|items| - 1] == ItemLines(items[..|items| - 1]);
      ItemLinesCount(items[..|items| - 1]);
    }
  }

  /** Counting items and paragraphs of a layout is counting item and text lines of what it flattens to. */
  lemma {:induction false} CountsOfFlatten(blocks: seq<Block>)
    ensures ItemCount(blocks) == LineItemCount(Flatten(blocks))
    ensures ParagraphCount(blocks) == |Flatten(blocks)| - LineItemCount(Flatten(blocks))
    decreases |blocks|
  {
    if blocks != [] {
      var init := blocks[..|blocks| - 1];
      var last := blocks[|blocks| - 1];
      CountsOfFlatten(init);
      LineItemCountAppend(Flatten(init), LinesOf(last));
      match last
      case Paragraph(t, h) =>
        assert [Text(t, h)][..0] == [];
      case BulletList(items) =>
        ItemLinesCount(items);
    }
  }

  lemma {:induction false} ClassifiedBulletCount(lines: seq<string>)
    ensures LineItemCount(ClassifyAll(lines)) == BulletLineCount(lines)
    decreases |lines|
  {
    if lines != [] {
      assert ClassifyAll(lines)[..|lines| - 1] == ClassifyAll(lines[..|lines| - 1]);
      ClassifiedBulletCount(lines[..|lines| - 1]);
    }
  }

  /**
   * The layout holds one list item per bullet line and one paragraph per
   * other content line.
   */
  lemma FormatResponseTextCounts(text: string)
    ensures var lines := ContentLines(text);
      var blocks := Group(ClassifyAll(lines));
      && ItemCount(blocks) == BulletLineCount(lines)
      && ParagraphCount(blocks) == |lines| - BulletLineCount(lines)
  {
    var lines := ContentLines(text);
    CountsOfFlatten(Group(ClassifyAll(lines)));
    FlattenGroup(ClassifyAll(lines));
    ClassifiedBulletCount(lines);
  }

  /** One piece of `formatSimpleText`'s output: a line and whether a line break follows it. */
  datatype Fragment = Fragment(line: string, br: bool)

  function Fragments(lines: seq<string>): (r: seq<Fragment>)
    ensures |r| == |lines|
    ensures forall k :: 0 <= k < |r| ==> r[k] == Fragment(lines[k], k < |lines| - 1)
  {
    seq(|lines|, k requires 0 <= k < |lines| => Fragment(lines[k], k < |lines| - 1))
  }

  /** `formatSimpleText`: `None` for the empty string, else each line with a break after all but the last. */
  function FormatSimpleText(text: string): (r: Option<seq<Fragment>>)
    ensures r.None? <==> text == ""
    ensures r.Some? ==> |r.value| >= 1 && !r.value[|r.value| - 1].br
    ensures r.Some? ==> forall k :: 0 <= k < |r.value| ==> '\n' !in r.value[k].line
  {
    if text == "" then None else Some(Fragments(Split(text, '\n')))
  }

  /** The text the fragments display: each line followed by a newline where a break is drawn. */
  function Render(fragments: seq<Fragment>): string
    decreases |fragments|
  {
    if fragments == [] then ""
    else fragments[0].line + (if fragments[0].br then "\n" else "") + Render(fragments[1..])
  }

  lemma {:induction false} RenderFragments(lines: seq<string>)
    requires lines != []
    ensures Render(Fragments(lines)) == Join(lines, "\n")
    decreases |lines|
  {
    var fs := Fragments(lines);
    if |lines| == 1 {
      assert fs[1..] == [];
      assert lines[0] + "" + "" == lines[0];
    } else {
      assert fs[1..] == Fragments(lines[1..]);
      RenderFragments(lines[1..]);
    }
  }

  /** The simple layout displays exactly the original text, one fragment per line. */
  lemma SimpleTextRoundTrip(text: string)
    requires text != ""
    ensures Render(FormatSimpleText(text).value) == text
    ensures |FormatSimpleText(text).value| == Count(text, '\n') + 1
  {
    RenderFragments(Split(text, '\n'));
    JoinSplit(text, '\n');
    SplitCount(text, '\n');
  }
}
