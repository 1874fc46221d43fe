/** What `convertTextToHtml` guarantees, stated over the whole input: how a
    chunk is classified by its first visible character, how conversion
    distributes over blank-line separated text, when it fails, and what list,
    quote and paragraph chunks become. */
module FormatterProperties {
  import opened Text
  import opened Formatter

  /** The leading digit run is determined by where it stops. */
  lemma {:induction false} DigitRunIs(s: string, j: nat)
    requires j <= |s|
    requires forall i :: 0 <= i < j ==> IsDigit(s[i])
    requires j < |s| ==> !IsDigit(s[j])
    ensures DigitRun(s) == j
    decreases j
  {
    if j > 0 {
      assert forall i :: 0 <= i < j - 1 ==> s[1..][i] == s[i + 1];
      DigitRunIs(s[1..], j - 1);
    }
  }

  /** A digit run that ends inside a prefix is the digit run of the prefix. */
  lemma {:induction false} DigitRunPrefix(x: string, k: nat)
    requires k <= |x| && DigitRun(x) < k
    ensures DigitRun(x[..k]) == DigitRun(x)
  {
    var n := DigitRun(x);
    assert x[..k][n] == x[n];
    DigitRunIs(x[..k], n);
  }

  /** A digit run that ends inside a prefix is the digit run of the whole. */
  lemma {:induction false} DigitRunOfPrefix(x: string, k: nat)
    requires k <= |x| && DigitRun(x[..k]) < k
    ensures DigitRun(x) == DigitRun(x[..k])
  {
    var m := DigitRun(x[..k]);
    assert x[..k][m] == x[m];
    DigitRunIs(x, m);
  }

  /** Cutting whitespace off the end does not change the ordered-list test. */
  lemma {:induction false} NumberDotPrefix(u: string, k: nat)
    requires k <= |u|
    requires forall j :: k <= j < |u| ==> IsWs(u[j])
    ensures StartsWithNumberDot(u[..k]) <==> StartsWithNumberDot(u)
  {
    if StartsWithNumberDot(u) {
      var n := DigitRun(u);
      VisibleNotWs('.');
      assert n < k;
      DigitRunPrefix(u, k);
    }
    if StartsWithNumberDot(u[..k]) {
      DigitRunOfPrefix(u, k);
    }
  }

  /** The ordered-list test on the trimmed chunk only looks at its first
      visible characters. */
  lemma {:induction false} NumberDotTrim(chunk: string)
    ensures StartsWithNumberDot(Trim(chunk)) <==> StartsWithNumberDot(TrimStart(chunk))
  {
    TrimOfTrimStart(chunk);
    NumberDotPrefix(TrimStart(chunk), |Trim(chunk)|);
  }

  /** How a chunk is classified, by the untrimmed chunk's first character and
      by the first visible character: a `#` first is a heading, a `#` after
      leading whitespace is the conversion failure, and otherwise the first
      visible character picks a bullet list, an ordered list, a quote or a
      paragraph, in that order of precedence. */
  lemma {:induction false} ClassifyByLeadingChar(chunk: string)
    ensures var u := TrimStart(chunk);
      && (Classify(chunk).Err? <==> MisplacedHeading(chunk))
      && (Classify(chunk).Ok? && Classify(chunk).value.Heading? <==> StartsWithChar(chunk, '#'))
      && (Classify(chunk).Ok? && Classify(chunk).value.BulletList? <==> u != [] && u[0] in BulletMarkers)
      && (Classify(chunk).Ok? && Classify(chunk).value.OrderedList? <==> StartsWithNumberDot(u))
      && (Classify(chunk).Ok? && Classify(chunk).value.Quote? <==> StartsWithChar(u, '>'))
      && (Classify(chunk).Ok? && Classify(chunk).value.Paragraph? <==>
            !StartsWithChar(u, '#') && !(u != [] && u[0] in BulletMarkers)
            && !StartsWithNumberDot(u) && !StartsWithChar(u, '>'))
  {
    TrimShape(chunk);
    TrimStartEmpty(chunk);
    NumberDotTrim(chunk);
    var t := Trim(chunk);
    var u := TrimStart(chunk);
    assert t != [] <==> u != [];
    if chunk != [] && chunk[0] == '#' {
      VisibleNotWs('#');
      assert WsRunFrom(chunk, 0) == 0;
    }
    if StartsWithNumberDot(u) {
      assert IsDigit(u[0]);
    }
  }

  /** Rendering a concatenation of chunk lists is rendering each in turn;
      the first failure wins. */
  lemma {:induction false} RenderChunksAppend(c1: seq<string>, c2: seq<string>)
    ensures RenderChunks(c1 + c2) == Then(RenderChunks(c1), RenderChunks(c2))
  {
    if c1 == [] {
      assert c1 + c2 == c2;
      var y := RenderChunks(c2);
      if y.Ok? {
        assert "" + y.value == y.value;
      }
    } else {
      assert (c1 + c2)[0] == c1[0];
      assert (c1 + c2)[1..] == c1[1..] + c2;
      RenderChunksAppend(c1[1..], c2);
      ThenAssociative(RenderChunk(c1[0]), RenderChunks(c1[1..]), RenderChunks(c2));
    }
  }

  lemma {:induction false} ThenAssociative(x: Result<string>, y: Result<string>, z: Result<string>)
    ensures Then(Then(x, y), z) == Then(x, Then(y, z))
  {
    if x.Ok? && y.Ok? && z.Ok? {
      assert (x.value + y.value) + z.value == x.value + (y.value + z.value);
    }
  }

  /** Two non-empty texts separated by a blank line convert to the two
      conversions one after the other, provided the first text does not end
      with a line break. */
  lemma {:induction false} ConvertAppend(a: string, b: string)
    requires a != [] && b != []
    requires a[|a| - 1] != '\n'
    ensures ConvertTextToHtml(a + "\n\n" + b) == Then(ConvertTextToHtml(a), ConvertTextToHtml(b))
  {
    SplitParagraphsAppend(a, b);
    RenderChunksAppend(SplitParagraphs(a), SplitParagraphs(b));
  }

  /** Some chunk has whitespace before a `#`. */
  predicate SomeMisplaced(chunks: seq<string>) {
    exists i :: 0 <= i < |chunks| && MisplacedHeading(chunks[i])
  }

  /** One chunk fails, reporting itself, exactly when it has whitespace before a `#`. */
  lemma {:induction false} RenderChunkResult(chunk: string)
    ensures MisplacedHeading(chunk) ==> RenderChunk(chunk) == Err(HeadingMatchFailed(chunk))
    ensures !MisplacedHeading(chunk) ==> RenderChunk(chunk).Ok?
  {
    ClassifyByLeadingChar(chunk);
  }

  /** Rendering fails exactly when some chunk fails. */
  lemma {:induction false} RenderChunksErr(chunks: seq<string>)
    ensures RenderChunks(chunks).Err? <==> SomeMisplaced(chunks)
  {
    if chunks != [] {
      RenderChunkResult(chunks[0]);
      RenderChunksErr(chunks[1..]);
      if SomeMisplaced(chunks[1..]) {
        var i :| 0 <= i < |chunks[1..]| && MisplacedHeading(chunks[1..][i]);
        assert chunks[i + 1] == chunks[1..][i];
      }
      if SomeMisplaced(chunks) && !MisplacedHeading(chunks[0]) {
        var i :| 0 <= i < |chunks| && MisplacedHeading(chunks[i]);
        assert chunks[1..][i - 1] == chunks[i];
      }
    }
  }

  /** A failed rendering reports the first chunk with whitespace before a `#`. */
  lemma {:induction false} RenderChunksFirstError(chunks: seq<string>, i: nat)
    requires i < |chunks| && MisplacedHeading(chunks[i])
    requires forall j :: 0 <= j < i ==> !MisplacedHeading(chunks[j])
    ensures RenderChunks(chunks) == Err(HeadingMatchFailed(chunks[i]))
  {
    if i == 0 {
      FirstChunkFails(chunks);
    } else {
      var rest := chunks[1..];
      assert rest[i - 1] == chunks[i];
      assert forall j :: 0 <= j < i - 1 ==> rest[j] == chunks[j + 1];
      RenderChunksFirstError(rest, i - 1);
      FirstChunkPasses(chunks);
    }
  }

  /** A failing first chunk is the error of the whole rendering. */
  lemma {:induction false} FirstChunkFails(chunks: seq<string>)
    requires chunks != [] && MisplacedHeading(chunks[0])
    ensures RenderChunks(chunks) == Err(HeadingMatchFailed(chunks[0]))
  {
    RenderChunkResult(chunks[0]);
  }

  /** After a first chunk that renders, an error of the rest is the error
      of the whole rendering. */
  lemma {:induction false} FirstChunkPasses(chunks: seq<string>)
    requires chunks != [] && !MisplacedHeading(chunks[0])
    ensures RenderChunks(chunks[1..]).Err? ==> RenderChunks(chunks) == RenderChunks(chunks[1..])
  {
    RenderChunkResult(chunks[0]);
  }

  /** `convertTextToHtml` throws exactly when one of the blank-line separated
      chunks has whitespace before a `#`. */
  lemma {:induction false} ConvertFails(text: string)
    ensures ConvertTextToHtml(text).Err? <==> text != "" && SomeMisplaced(SplitParagraphs(text))
  {
    if text != "" {
      RenderChunksErr(SplitParagraphs(text));
    }
  }

  /** Every rendered chunk opens with a tag whose first three characters
      differ from the placeholder's. */
  lemma {:induction false} RenderNotPlaceholder(b: Block)
    ensures |Render(b)| >= 3 && Render(b)[..3] != Placeholder[..3]
  {
    var r, p := Render(b), Placeholder;
    assert p[1] == 'p' && p[2] == ' ';
    match b
    case Heading(level, text) =>
      PrefixDiffers(r, p, 1);
    case BulletList(items) =>
      PrefixDiffers(r, p, 1);
    case OrderedList(items) =>
      PrefixDiffers(r, p, 1);
    case Quote(text) =>
      PrefixDiffers(r, p, 1);
    case Paragraph(text) =>
      PrefixDiffers(r, p, 2);
  }

  /** Strings that differ at one of their first three characters differ in
      their first three characters. */
  lemma {:induction false} PrefixDiffers(x: string, y: string, k: nat)
    requires 3 <= |x| && 3 <= |y| && k < 3 && x[k] != y[k]
    ensures x[..3] != y[..3]
  {
    assert x[..3][k] == x[k];
  }

  /** The placeholder is shown exactly for the empty text. */
  lemma {:induction false} ConvertPlaceholderIffEmpty(text: string)
    ensures ConvertTextToHtml(text) == Ok(Placeholder) <==> text == ""
  {
    if text != "" {
      var chunks := SplitParagraphs(text);
      var first := RenderChunk(chunks[0]);
      var rest := RenderChunks(chunks[1..]);
      if first.Ok? && rest.Ok? {
        var b := Classify(chunks[0]).value;
        RenderNotPlaceholder(b);
        var out := Render(b) + rest.value;
        assert out[..3] == Render(b)[..3];
        assert out != Placeholder;
      }
    }
  }

  /** A paragraph's line breaks become `<br>`: the paragraph's lines joined
      with `<br>`. */
  lemma {:induction false} ReplaceNewlinesJoin(s: string)
    ensures ReplaceNewlines(s) == Join(SplitLines(s), "<br>")
  {
    if s != [] {
      ReplaceNewlinesJoin(s[1..]);
      if s[0] != '\n' {
        JoinConsFirst(s[0], SplitLines(s[1..]), "<br>");
      }
    }
  }

  /** A list chunk has one item per line, and each item is what is left of its
      line once the marker and the whitespace after it are cut off: a suffix of
      the line, the whole line when it carries no marker. */
  lemma {:induction false} ListItemsShape(chunk: string)
    requires Classify(chunk).Ok?
    requires Classify(chunk).value.BulletList? || Classify(chunk).value.OrderedList?
    ensures var items := Classify(chunk).value.items;
      var lines := SplitLines(chunk);
      && |items| == |lines| == CountChar(chunk, '\n') + 1
      && forall i :: 0 <= i < |items| ==>
           |items[i]| <= |lines[i]| && items[i] == lines[i][|lines[i]| - |items[i]|..]
  {
    SplitLinesJoin(chunk);
    var lines := SplitLines(chunk);
    var items := Classify(chunk).value.items;
    ListItemsOfLines(chunk);
    ItemsAreLineSuffixes(lines, items);
  }

  /** A list chunk's items come from its lines, by the marker of its kind. */
  lemma {:induction false} ListItemsOfLines(chunk: string)
    ensures Classify(chunk).Ok? && Classify(chunk).value.BulletList? ==>
      Classify(chunk).value.items == BulletItems(SplitLines(chunk))
    ensures Classify(chunk).Ok? && Classify(chunk).value.OrderedList? ==>
      Classify(chunk).value.items == NumberItems(SplitLines(chunk))
  {
    var t := Trim(chunk);
    if StartsWithChar(t, '#') {
      var r := HeadingBlock(chunk);
      assert Classify(chunk) == r;
      assert r.Ok? ==> r.value.Heading?;
    }
  }

  lemma {:induction false} ItemsAreLineSuffixes(lines: seq<string>, items: seq<string>)
    requires items == BulletItems(lines) || items == NumberItems(lines)
    ensures |items| == |lines|
    ensures forall i :: 0 <= i < |items| ==>
      |items[i]| <= |lines[i]| && items[i] == lines[i][|lines[i]| - |items[i]|..]
  {
    forall i | 0 <= i < |items|
      ensures |items[i]| <= |lines[i]| && items[i] == lines[i][|lines[i]| - |items[i]|..]
    {
      if items == BulletItems(lines) {
        assert items[i] == StripBullet(lines[i]);
      } else {
        assert items[i] == StripNumber(lines[i]);
      }
    }
  }

  /** No line terminator of any kind in `s`. */
  predicate NoTerminators(s: string) {
    forall i :: 0 <= i < |s| ==> !IsLineTerminator(s[i])
  }

  /** One quote line with the marker and the whitespace after it removed. */
  function StripQuoteLine(line: string): string
  {
    if line != [] && line[0] == '>' then line[WsRunFrom(line, 1)..] else line
  }

  function StripQuoteLines(lines: seq<string>): (r: seq<string>)
    ensures |r| == |lines|
  {
    if lines == [] then [] else [StripQuoteLine(lines[0])] + StripQuoteLines(lines[1..])
  }

  /** A line holding only the marker and whitespace: there `\s*` runs on
      past the line break. */
  predicate BareMarker(line: string) {
    line != [] && line[0] == '>' && WsRunFrom(line, 1) == |line|
  }

  /** Text without line terminators passes through the scan unchanged. */
  lemma {:induction false} QuotePlain(x: string, y: string)
    requires NoTerminators(x)
    ensures StripQuoteMarks(x + y, false) == x + StripQuoteMarks(y, false)
  {
    if x != [] {
      var s := x + y;
      assert s[0] == x[0] && s[1..] == x[1..] + y;
      QuotePlain(x[1..], y);
    } else {
      assert x + y == y;
    }
  }

  /** A whitespace run that ends inside `x` is not changed by appending. */
  lemma {:induction false} WsRunExtend(x: string, y: string, i: nat)
    requires i <= |x| && WsRunFrom(x, i) < |x|
    ensures WsRunFrom(x + y, i) == WsRunFrom(x, i)
  {
    var j, k := WsRunFrom(x, i), WsRunFrom(x + y, i);
    assert (x + y)[j] == x[j];
  }

  /** The scan over one line followed by `tail` (empty, or starting with a
      line break) strips that line as the per-line rule does, unless the line
      is a bare marker with more text after it. */
  lemma {:induction false} QuoteLine(line: string, tail: string)
    requires NoTerminators(line)
    requires tail == [] || (tail[0] == '\n' && !BareMarker(line))
    ensures StripQuoteMarks(line + tail, true) == StripQuoteLine(line) + StripQuoteMarks(tail, false)
  {
    if line == [] {
      QuoteEmptyLine(tail);
    } else if line[0] == '>' {
      QuoteMarkedLine(line, tail);
    } else {
      QuoteUnmarkedLine(line, tail);
    }
  }

  lemma {:induction false} QuoteEmptyLine(tail: string)
    requires tail == [] || tail[0] == '\n'
    ensures StripQuoteMarks([] + tail, true) == StripQuoteLine([]) + StripQuoteMarks(tail, false)
  {
    assert [] + tail == tail;
    if tail != [] {
      assert StripQuoteMarks(tail, true) == [tail[0]] + StripQuoteMarks(tail[1..], true);
    }
  }

  lemma {:induction false} QuoteMarkedLine(line: string, tail: string)
    requires line != [] && line[0] == '>' && NoTerminators(line)
    requires tail == [] || (tail[0] == '\n' && !BareMarker(line))
    ensures StripQuoteMarks(line + tail, true) == StripQuoteLine(line) + StripQuoteMarks(tail, false)
  {
    var s := line + tail;
    var j := WsRunFrom(line, 1);
    if tail == [] {
      assert s == line;
    } else {
      WsRunExtend(line, tail, 1);
    }
    assert s[j - 1] == line[j - 1];
    assert s[j..] == line[j..] + tail;
    QuotePlain(line[j..], tail);
  }

  lemma {:induction false} QuoteUnmarkedLine(line: string, tail: string)
    requires line != [] && line[0] != '>' && NoTerminators(line)
    ensures StripQuoteMarks(line + tail, true) == StripQuoteLine(line) + StripQuoteMarks(tail, false)
  {
    var s := line + tail;
    assert s[0] == line[0] && s[1..] == line[1..] + tail;
    QuotePlain(line[1..], tail);
  }

  // The quote rule `/^>\s*/gm` works line by line: for a quote written as
  // lines without line terminators, none of them but the last a bare
  // marker, the chunk splits back into those lines and the scan strips
  // each of them on its own.
  lemma {:induction false} QuoteByLines(lines: seq<string>)
    requires |lines| >= 1
    requires forall i :: 0 <= i < |lines| ==> NoTerminators(lines[i])
    requires forall i :: 0 <= i < |lines| - 1 ==> !BareMarker(lines[i])
    ensures SplitLines(Join(lines, "\n")) == lines
    ensures StripQuoteMarks(Join(lines, "\n"), true) == Join(StripQuoteLines(lines), "\n")
  {
    forall i | 0 <= i < |lines|
      ensures '\n' !in lines[i]
    {
      NoTerminatorsNoNewline(lines[i]);
    }
    SplitLinesOfJoin(lines);
    QuoteStripLines(lines);
  }

  lemma {:induction false} NoTerminatorsNoNewline(s: string)
    requires NoTerminators(s)
    ensures '\n' !in s
  {
  }

  lemma {:induction false} QuoteStripLines(lines: seq<string>)
    requires |lines| >= 1
    requires forall i :: 0 <= i < |lines| ==> NoTerminators(lines[i])
    requires forall i :: 0 <= i < |lines| - 1 ==> !BareMarker(lines[i])
    ensures StripQuoteMarks(Join(lines, "\n"), true) == Join(StripQuoteLines(lines), "\n")
  {
    if |lines| == 1 {
      QuoteLine(lines[0], []);
      assert lines[0] + [] == lines[0];
      assert StripQuoteLine(lines[0]) + [] == StripQuoteLine(lines[0]);
    } else {
      QuoteStripLines(lines[1..]);
      QuoteStripStep(lines[0], Join(lines[1..], "\n"));
      var stripped := StripQuoteLines(lines);
      assert stripped[1..] == StripQuoteLines(lines[1..]);
    }
  }

  /** A line break is copied, and the scan is at a line start after it. */
  lemma {:induction false} QuoteNewline(rest: string)
    ensures StripQuoteMarks("\n" + rest, false) == "\n" + StripQuoteMarks(rest, true)
  {
    var t := "\n" + rest;
    assert t[0] == '\n' && t[1..] == rest;
  }

  lemma {:induction false} QuoteStripStep(line: string, rest: string)
    requires NoTerminators(line) && !BareMarker(line)
    ensures StripQuoteMarks(line + "\n" + rest, true) == StripQuoteLine(line) + "\n" + StripQuoteMarks(rest, true)
  {
    var t := "\n" + rest;
    QuoteLine(line, t);
    QuoteNewline(rest);
    AppendAssoc(line, "\n", rest);
    AppendAssoc(StripQuoteLine(line), "\n", StripQuoteMarks(rest, true));
  }

  /** The edge case the per-line rule misses: after a bare marker the `\s*`
      swallows the line break, so the next line is joined to it. */
  lemma {:induction false} QuoteBareMarkerJoinsLines(line: string, rest: string)
    requires BareMarker(line) && NoTerminators(line)
    requires rest != [] && !IsWs(rest[0])
    ensures StripQuoteMarks(line + "\n" + rest, true) == StripQuoteMarks(rest, true)
  {
    var s := line + "\n" + rest;
    var n := |line|;
    assert s[0] == '>' && s[n] == '\n' && s[n + 1] == rest[0];
    LineTerminatorIsWs('\n');
    forall k | 1 <= k < n
      ensures IsWs(s[k])
    {
      assert s[k] == line[k];
    }
    assert WsRunFrom(s, 1) == n + 1;
    assert s[n + 1..] == rest;
  }

  /** `">\nfoo"` quotes as `"foo"`. */
  lemma QuoteBareMarkerExample()
    ensures StripQuoteMarks(">\nfoo", true) == "foo"
  {
    VisibleNotWs('f');
    QuoteBareMarkerJoinsLines(">", "foo");
    assert ">" + "\n" + "foo" == ">\nfoo";
    var s := "foo";
    VisibleNotWs('o');
    QuotePlain(s, []);
    assert s + [] == s;
  }

  /** A single chunk converts to its own rendering. */
  lemma {:induction false} ConvertOneChunk(chunk: string, b: Block)
    requires chunk != [] && !HasBlankLine(chunk)
    requires Classify(chunk) == Ok(b)
    ensures ConvertTextToHtml(chunk) == Ok(Render(b))
  {
    SplitParagraphsOne(chunk);
    assert [chunk][1..] == [];
    assert RenderChunk(chunk) == Ok(Render(b));
    assert RenderChunks([chunk][1..]) == Ok("");
    assert RenderChunks([chunk]) == Then(Ok(Render(b)), Ok(""));
    assert Render(b) + "" == Render(b);
  }
}
