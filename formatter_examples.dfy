/** Worked conversions of small documents, one per kind of chunk. */
module FormatterExamples {
  import opened Text
  import opened Formatter
  import opened FormatterProperties

  lemma ClassifyHello()
    ensures Classify("# Hello") == Ok(Heading(1, "Hello"))
  {
    var h := "# Hello";
    VisibleNotWs('#');
    VisibleNotWs('H');
    VisibleNotWs('o');
    assert HashRun(h) == 1 by {
      assert h[1..] == " Hello";
    }
    assert WsRunFrom(h, 1) == 2 by {
      assert IsWs(' ');
    }
    assert h[2..] == "Hello";
  }

  lemma ClassifyWorld()
    ensures Classify("World") == Ok(Paragraph("World"))
  {
    VisibleNotWs('W');
    VisibleNotWs('d');
  }

  lemma {:induction false} ReplaceNewlinesNone(s: string)
    requires '\n' !in s
    ensures ReplaceNewlines(s) == s
  {
    if s != [] {
      ReplaceNewlinesNone(s[1..]);
      assert s == [s[0]] + s[1..];
    }
  }

  /** A paragraph without line breaks is wrapped in `<p>` as it is. */
  lemma {:induction false} RenderPlainParagraph(w: string)
    requires '\n' !in w
    ensures Render(Paragraph(w)) == "<p>" + w + "</p>"
  {
    ReplaceNewlinesNone(w);
  }

  lemma {:induction false} RenderHeading(level: nat, text: string)
    requires 1 <= level <= 9
    ensures Render(Heading(level, text)) == "<h" + [DigitChar(level)] + ">" + text + "</h" + [DigitChar(level)] + ">"
  {
  }

  lemma {:induction false} ChunkWorld(w: string)
    requires w == "World"
    ensures ConvertTextToHtml(w) == Ok(Render(Paragraph(w)))
  {
    ClassifyWorld();
    assert !HasBlankLine(w);
    ConvertOneChunk(w, Paragraph(w));
  }

  lemma {:induction false} RenderWorld(w: string)
    requires w == "World"
    ensures Render(Paragraph(w)) == "<p>World</p>"
  {
    RenderPlainParagraph(w);
    assert "<p>" + w + "</p>" == "<p>World</p>";
  }

  lemma {:induction false} ConvertWorld(w: string)
    requires w == "World"
    ensures ConvertTextToHtml(w) == Ok("<p>World</p>")
  {
    ChunkWorld(w);
    RenderWorld(w);
  }

  lemma {:induction false} ChunkHello(h: string)
    requires h == "# Hello"
    ensures ConvertTextToHtml(h) == Ok(Render(Heading(1, "Hello")))
  {
    ClassifyHello();
    assert Classify(h) == Ok(Heading(1, "Hello"));
    NoNewlineNoBlankLine(h);
    ConvertOneChunk(h, Heading(1, "Hello"));
  }

  lemma RenderHello()
    ensures Render(Heading(1, "Hello")) == "<h1>Hello</h1>"
  {
    RenderHeading(1, "Hello");
    assert [DigitChar(1)] == "1";
    assert "<h1>" + "Hello" + "</h1>" == "<h1>Hello</h1>";
  }

  lemma {:induction false} ConvertHello(h: string)
    requires h == "# Hello"
    ensures ConvertTextToHtml(h) == Ok("<h1>Hello</h1>")
  {
    ChunkHello(h);
    RenderHello();
  }

  lemma {:induction false} HeadingThenParagraphParts(text: string)
    requires text == "# Hello\n\nWorld"
    ensures ConvertTextToHtml(text) == Ok("<h1>Hello</h1>" + "<p>World</p>")
  {
    var h, w := "# Hello", "World";
    assert h + "\n\n" + w == text;
    ConvertAppend(h, w);
    ConvertHello(h);
    ConvertWorld(w);
  }

  /** The two rendered blocks side by side. Proved apart from
      HeadingThenParagraph, whose context makes this literal step too costly. */
  lemma HelloWorldHtml()
    ensures "<h1>Hello</h1>" + "<p>World</p>" == "<h1>Hello</h1><p>World</p>"
  {
  }

  /** A heading chunk and a paragraph chunk separated by a blank line. */
  lemma {:induction false} HeadingThenParagraph(text: string)
    requires text == "# Hello\n\nWorld"
    ensures ConvertTextToHtml(text) == Ok("<h1>Hello</h1><p>World</p>")
  {
    HeadingThenParagraphParts(text);
    HelloWorldHtml();
  }

  lemma {:induction false} StripBulletItem(line: string, item: char)
    requires |line| == 3 && line[0] == '-' && line[1] == ' ' && Visible(item) && line[2] == item
    ensures StripBullet(line) == [item]
  {
    VisibleNotWs(item);
    assert IsWs(' ');
    assert WsRunFrom(line, 1) == 2;
  }

  /** Two lines without line breaks, joined by one, split back into those lines. */
  lemma {:induction false} TwoLines(x: string, y: string)
    requires '\n' !in x && '\n' !in y
    ensures SplitLines(x + "\n" + y) == [x, y]
  {
    SplitLinesCons(x, y);
    SplitLinesOne(y);
  }

  /** Each line of a bullet chunk becomes one list item, marker removed. */
  lemma {:induction false} ClassifyBulletList(chunk: string)
    requires chunk == "- a\n- b"
    ensures Classify(chunk) == Ok(BulletList(["a", "b"]))
  {
    TwoLines("- a", "- b");
    assert "- a" + "\n" + "- b" == chunk;
    StripBulletItem("- a", 'a');
    StripBulletItem("- b", 'b');
    VisibleNotWs('-');
    VisibleNotWs('b');
    assert WsRunFrom(chunk, 0) == 0;
    var items := BulletItems(SplitLines(chunk));
    assert items == ["a", "b"];
  }

  lemma {:induction false} StripNumberItem(line: string, item: char)
    requires |line| == 4 && IsDigit(line[0]) && line[1] == '.' && line[2] == ' '
    requires Visible(item) && line[3] == item
    ensures StripNumber(line) == [item]
  {
    VisibleNotWs(item);
    assert IsWs(' ');
    assert DigitRun(line[1..]) == 0;
    assert DigitRun(line) == 1;
    assert WsRunFrom(line, 2) == 3;
  }

  /** Each line of a numbered chunk becomes one list item, number and dot removed. */
  lemma {:induction false} ClassifyOrderedList(chunk: string)
    requires chunk == "1. x\n2. y"
    ensures Classify(chunk) == Ok(OrderedList(["x", "y"]))
  {
    NumberedXYStart(chunk);
    NumberedXYItems(chunk);
  }

  /** The trimmed numbered chunk starts with its first number and a dot. */
  lemma {:induction false} NumberedXYStart(chunk: string)
    requires chunk == "1. x\n2. y"
    ensures Trim(chunk) != [] && Trim(chunk)[0] == '1' && StartsWithNumberDot(Trim(chunk))
  {
    VisibleNotWs('1');
    VisibleNotWs('y');
    assert WsRunFrom(chunk, 0) == 0;
    assert TrimStart(chunk) == chunk;
    NumberDotTrim(chunk);
    TrimOfTrimStart(chunk);
    assert StartsWithNumberDot(chunk);
  }

  /** The numbered chunk's lines, number and dot removed. */
  lemma {:induction false} NumberedXYItems(chunk: string)
    requires chunk == "1. x\n2. y"
    ensures NumberItems(SplitLines(chunk)) == ["x", "y"]
  {
    TwoLines("1. x", "2. y");
    assert "1. x" + "\n" + "2. y" == chunk;
    StripNumberItem("1. x", 'x');
    StripNumberItem("2. y", 'y');
    var items := NumberItems(SplitLines(chunk));
    assert items == ["x", "y"];
  }

  /** The example text as a join. Proved apart from ChunksOfIntroTitle,
      whose context makes this literal step too costly. */
  lemma IntroTitleText()
    ensures "Intro" + "\n\n" + "\n# Title" == "Intro\n\n\n# Title"
  {
  }

  lemma {:induction false} TitleChunkOne(c: string)
    requires c == "\n# Title"
    ensures SplitParagraphs(c) == [c]
  {
    assert !HasBlankLine(c);
    SplitParagraphsOne(c);
  }

  lemma {:induction false} ChunksOfIntroTitle(text: string)
    requires text == "Intro\n\n\n# Title"
    ensures SplitParagraphs(text) == ["Intro", "\n# Title"]
  {
    IntroTitleText();
    SplitParagraphsAppend("Intro", "\n# Title");
    SplitParagraphsOne("Intro");
    TitleChunkOne("\n# Title");
  }

  /** Three line breaks before a heading leave a line break at the front of
      the heading's chunk: the chunk passes the trimmed `#` test, the
      untrimmed match fails, and the conversion throws. */
  lemma {:induction false} HeadingAfterTwoBlankLinesFails(text: string)
    requires text == "Intro\n\n\n# Title"
    ensures ConvertTextToHtml(text) == Err(HeadingMatchFailed("\n# Title"))
  {
    ChunksOfIntroTitle(text);
    var chunks := SplitParagraphs(text);
    var bad := "\n# Title";
    LineTerminatorIsWs('\n');
    VisibleNotWs('#');
    assert WsRunFrom(bad, 0) == 1;
    assert MisplacedHeading(chunks[1]);
    VisibleNotWs('I');
    assert !MisplacedHeading(chunks[0]);
    RenderChunksFirstError(chunks, 1);
  }
}
