/** The shape of what `convertTextToHtml` produces, and what happens when
    that output is fed to the converter again: it never contains a blank
    line and it opens with a tag, so it comes back as one paragraph. */
module FormatterOutput {
  import opened Text
  import opened Formatter
  import opened FormatterProperties

  /** Opens with `<`, closes with `>` and holds no blank line: the shape of
      every converted text. */
  predicate Tagged(s: string) {
    |s| >= 2 && s[0] == '<' && s[|s| - 1] == '>' && !HasBlankLine(s)
  }

  /** Two texts without a blank line make none when joined, unless the
      first ends and the second starts with a line break. */
  lemma {:induction false} BlankLineJoin(x: string, y: string)
    requires !HasBlankLine(x) && !HasBlankLine(y)
    requires x == [] || y == [] || x[|x| - 1] != '\n' || y[0] != '\n'
    ensures !HasBlankLine(x + y)
  {
    var s := x + y;
    forall i | 0 <= i < |s| - 1
      ensures !(s[i] == '\n' && s[i + 1] == '\n')
    {
      if i + 1 < |x| {
        assert s[i] == x[i] && s[i + 1] == x[i + 1];
      } else if i >= |x| {
        assert s[i] == y[i - |x|] && s[i + 1] == y[i + 1 - |x|];
      } else {
        assert s[i] == x[|x| - 1] && s[i + 1] == y[0];
      }
    }
  }

  /** A suffix of a text without a blank line has none. */
  lemma {:induction false} SuffixNoBlankLine(s: string, k: nat)
    requires k <= |s| && !HasBlankLine(s)
    ensures !HasBlankLine(s[k..])
  {
    var t := s[k..];
    forall i | 0 <= i < |t| - 1
      ensures !(t[i] == '\n' && t[i + 1] == '\n')
    {
      assert t[i] == s[k + i] && t[i + 1] == s[k + i + 1];
    }
  }

  lemma {:induction false} SuffixNoNewline(s: string, k: nat)
    requires k <= |s| && '\n' !in s
    ensures '\n' !in s[k..]
  {
    var t := s[k..];
    forall i | 0 <= i < |t|
      ensures t[i] != '\n'
    {
      assert t[i] == s[k + i];
      assert s[k + i] in s;
    }
  }

  /** Two converted texts side by side still have the shape. */
  lemma {:induction false} TaggedAppend(x: string, y: string)
    requires Tagged(x) && Tagged(y)
    ensures Tagged(x + y)
  {
    BlankLineJoin(x, y);
    assert (x + y)[0] == x[0] && (x + y)[|x + y| - 1] == y[|y| - 1];
  }

  /** A body without a blank line between an opening and a closing tag
      that hold no line break has the shape. */
  lemma {:induction false} WrapTagged(open: string, body: string, close: string)
    requires open != [] && open[0] == '<' && '\n' !in open
    requires close != [] && close[|close| - 1] == '>' && '\n' !in close
    requires !HasBlankLine(body)
    ensures Tagged(open + body + close)
  {
    NoNewlineNoBlankLine(open);
    NoNewlineNoBlankLine(close);
    assert open[|open| - 1] in open && close[0] in close;
    BlankLineJoin(open, body);
    BlankLineJoin(open + body, close);
    var s := open + body + close;
    assert s[0] == open[0] && s[|s| - 1] == close[|close| - 1];
  }

  /** The items of a list chunk hold no line break, so neither does their markup. */
  lemma {:induction false} ListItemsNoNewline(items: seq<string>)
    requires forall i :: 0 <= i < |items| ==> '\n' !in items[i]
    ensures '\n' !in ListItems(items)
    decreases |items|
  {
    if items != [] {
      assert forall i :: 0 <= i < |items| - 1 ==> items[1..][i] == items[i + 1];
      ListItemsNoNewline(items[1..]);
      assert '\n' !in items[0];
    }
  }

  /** Each item is the end of its line, and lines hold no line break. */
  lemma {:induction false} ItemsNoNewline(chunk: string, items: seq<string>)
    requires items == BulletItems(SplitLines(chunk)) || items == NumberItems(SplitLines(chunk))
    ensures forall i :: 0 <= i < |items| ==> '\n' !in items[i]
  {
    var lines := SplitLines(chunk);
    ItemsAreLineSuffixes(lines, items);
    forall i | 0 <= i < |items|
      ensures '\n' !in items[i]
    {
      SuffixNoNewline(lines[i], |lines[i]| - |items[i]|);
    }
  }

  /**
   * Quote stripping never makes a blank line: after a marker the greedy
   * `\s*` stops at a visible character, so a kept line break is never
   * followed by another. The first character kept is the first of `s` or a
   * visible one.
   */
  lemma {:induction false} QuoteNoBlankLine(s: string, atLineStart: bool)
    requires !HasBlankLine(s)
    ensures !HasBlankLine(StripQuoteMarks(s, atLineStart))
    ensures var r := StripQuoteMarks(s, atLineStart);
            r != [] ==> r[0] == s[0] || !IsWs(r[0])
    decreases |s|
  {
    if s == [] {
    } else if atLineStart && s[0] == '>' {
      var j := WsRunFrom(s, 1);
      SuffixNoBlankLine(s, j);
      QuoteNoBlankLine(s[j..], IsLineTerminator(s[j - 1]));
    } else {
      var rest := s[1..];
      SuffixNoBlankLine(s, 1);
      QuoteNoBlankLine(rest, IsLineTerminator(s[0]));
      var r := StripQuoteMarks(rest, IsLineTerminator(s[0]));
      if s[0] == '\n' && r != [] {
        assert rest[0] == s[1];
        LineTerminatorIsWs('\n');
      }
      assert [s[0]] + r == StripQuoteMarks(s, atLineStart);
      assert !HasBlankLine([s[0]]);
      BlankLineJoin([s[0]], r);
    }
  }

  lemma {:induction false} HeadingTagged(level: nat, text: string)
    requires !HasBlankLine(text)
    ensures Tagged(Render(Heading(level, text)))
  {
    var n := NatToString(level);
    assert '\n' !in n by {
      forall i | 0 <= i < |n|
        ensures n[i] != '\n'
      {
        assert IsDigit(n[i]);
      }
    }
    var open, close := "<h" + n + ">", "</h" + n + ">";
    assert open[0] == '<' && close[|close| - 1] == '>';
    WrapTagged(open, text, close);
  }

  lemma {:induction false} ListTagged(open: string, items: seq<string>, close: string)
    requires open in {"<ul>", "<ol>"} && close in {"</ul>", "</ol>"}
    requires forall i :: 0 <= i < |items| ==> '\n' !in items[i]
    ensures Tagged(open + ListItems(items) + close)
  {
    ListItemsNoNewline(items);
    NoNewlineNoBlankLine(ListItems(items));
    WrapTagged(open, ListItems(items), close);
  }

  lemma {:induction false} QuoteTagged(chunk: string)
    requires !HasBlankLine(chunk)
    ensures Tagged(Render(Quote(StripQuoteMarks(chunk, true))))
  {
    QuoteNoBlankLine(chunk, true);
    WrapTagged("<blockquote>", StripQuoteMarks(chunk, true), "</blockquote>");
  }

  lemma {:induction false} ParagraphTagged(chunk: string)
    ensures Tagged(Render(Paragraph(chunk)))
  {
    NoNewlineNoBlankLine(ReplaceNewlines(chunk));
    WrapTagged("<p>", ReplaceNewlines(chunk), "</p>");
  }

  /** A chunk without a blank line renders to a text of the shape. */
  lemma {:induction false} RenderTagged(chunk: string, b: Block)
    requires !HasBlankLine(chunk) && Classify(chunk) == Ok(b)
    ensures Tagged(Render(b))
  {
    var t := Trim(chunk);
    if StartsWithChar(t, '#') {
      assert HeadingBlock(chunk) == Ok(b);
      SuffixNoBlankLine(chunk, |chunk| - |b.text|);
      HeadingTagged(b.level, b.text);
    } else if t != [] && t[0] in BulletMarkers {
      assert b == BulletList(BulletItems(SplitLines(chunk)));
      ItemsNoNewline(chunk, b.items);
      ListTagged("<ul>", b.items, "</ul>");
    } else if StartsWithNumberDot(t) {
      assert b == OrderedList(NumberItems(SplitLines(chunk)));
      ItemsNoNewline(chunk, b.items);
      ListTagged("<ol>", b.items, "</ol>");
    } else if StartsWithChar(t, '>') {
      assert b == Quote(StripQuoteMarks(chunk, true));
      QuoteTagged(chunk);
    } else {
      assert b == Paragraph(chunk);
      ParagraphTagged(chunk);
    }
  }

  /** Chunks without a blank line that all convert give a text of the shape. */
  lemma {:induction false} RenderChunksTagged(chunks: seq<string>)
    requires chunks != [] && RenderChunks(chunks).Ok?
    requires forall i :: 0 <= i < |chunks| ==> !HasBlankLine(chunks[i])
    ensures Tagged(RenderChunks(chunks).value)
    decreases |chunks|
  {
    var first, rest := RenderChunk(chunks[0]), RenderChunks(chunks[1..]);
    assert RenderChunks(chunks) == Then(first, rest);
    ChunkTagged(chunks[0]);
    if |chunks| == 1 {
      assert rest == Ok("");
      assert first.value + "" == first.value;
    } else {
      assert forall i :: 0 <= i < |chunks| - 1 ==> chunks[1..][i] == chunks[i + 1];
      RenderChunksTagged(chunks[1..]);
      TaggedAppend(first.value, rest.value);
    }
  }

  lemma {:induction false} ChunkTagged(chunk: string)
    requires !HasBlankLine(chunk) && RenderChunk(chunk).Ok?
    ensures Tagged(RenderChunk(chunk).value)
  {
    var b := Classify(chunk).value;
    RenderTagged(chunk, b);
  }

  lemma PlaceholderTagged()
    ensures Tagged(Placeholder)
  {
    var open, body, close := "<p class=\"placeholder-text\">", "No content yet...", "</p>";
    assert Placeholder == open + body + close;
    NoNewlineNoBlankLine(body);
    WrapTagged(open, body, close);
  }

  /** Every successful conversion has the shape. */
  lemma {:induction false} ConvertTagged(text: string)
    requires ConvertTextToHtml(text).Ok?
    ensures Tagged(ConvertTextToHtml(text).value)
  {
    if text == "" {
      PlaceholderTagged();
    } else {
      SplitParagraphsNoBlankLine(text);
      RenderChunksTagged(SplitParagraphs(text));
    }
  }

  /** A text of the shape converts to a single paragraph around itself. */
  lemma {:induction false} TaggedIsParagraph(h: string)
    requires Tagged(h)
    ensures ConvertTextToHtml(h) == Ok(Render(Paragraph(h)))
  {
    VisibleNotWs('<');
    assert WsRunFrom(h, 0) == 0;
    TrimShape(h);
    var t := Trim(h);
    assert t != [] && t[0] == '<';
    assert DigitRun(t) == 0;
    assert Classify(h) == Ok(Paragraph(h));
    ConvertOneChunk(h, Paragraph(h));
  }

  /** Converting the converter's own output again never fails: the output
      comes back as one paragraph, its line breaks turned into `<br>`. */
  lemma {:induction false} ReformatOutput(text: string, html: string)
    requires ConvertTextToHtml(text) == Ok(html)
    ensures ConvertTextToHtml(html) == Ok(Render(Paragraph(html)))
  {
    ConvertTagged(text);
    TaggedIsParagraph(html);
  }
}
