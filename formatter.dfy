/** `convertTextToHtml`: the plain-text to HTML converter used by the live
    preview, by draft restore, by block insertion and by the HTML export. */
module Formatter {
  import opened Text

  // The bullet glyphs accepted both by the list test and by the per-item
  // strip `/^[•-]\s*/`: U+2022 BULLET and the hyphen-minus.
  const BulletMarkers: set<char> := {'\U{2022}', '-'}

  /** What an empty text renders to. */
  const Placeholder: string := "<p class=\"placeholder-text\">" + "No content yet...</p>"

  /** `Math.min(level, 6)`: HTML has no heading below h6. */
  const MaxHeadingLevel: nat := 6

  /** How one blank-line separated chunk is rendered, with its text already
      stripped of the markers the source removes. */
  datatype Block =
    | Heading(level: nat, text: string)
    | BulletList(items: seq<string>)
    | OrderedList(items: seq<string>)
    | Quote(text: string)
    | Paragraph(text: string)

  /** The chunk passes the trimmed `#` test but `chunk.match(/^#+/)` on the
      untrimmed chunk is null, so reading `[0]` of it throws a TypeError. */
  datatype FormatError = HeadingMatchFailed(chunk: string)

  datatype Result<+T> = Ok(value: T) | Err(error: FormatError)

  predicate StartsWithChar(t: string, c: char) {
    t != [] && t[0] == c
  }

  /** Length of the leading `#` run, what `/^#+/` matches. */
  function HashRun(s: string): (n: nat)
    ensures n <= |s|
    ensures forall i :: 0 <= i < n ==> s[i] == '#'
    ensures n < |s| ==> s[n] != '#'
  {
    if s != [] && s[0] == '#' then 1 + HashRun(s[1..]) else 0
  }

  /** Length of the leading run of ASCII digits, what `/^\d+/` matches. */
  function DigitRun(s: string): (n: nat)
    ensures n <= |s|
    ensures forall i :: 0 <= i < n ==> IsDigit(s[i])
    ensures n < |s| ==> !IsDigit(s[n])
  {
    if s != [] && IsDigit(s[0]) then 1 + DigitRun(s[1..]) else 0
  }

  /** `/^\d+\./.test(t)`. */
  predicate StartsWithNumberDot(t: string) {
    var n := DigitRun(t);
    0 < n < |t| && t[n] == '.'
  }

  /** The chunk is taken for a heading but cannot be converted. */
  predicate MisplacedHeading(chunk: string) {
    StartsWithChar(TrimStart(chunk), '#') && !StartsWithChar(chunk, '#')
  }

  // `item.replace(/^[•-]\s*/, '')`: a line that starts with a bullet glyph
  // loses it and the whitespace after it; any other line is kept whole.
  function StripBullet(line: string): (r: string)
    ensures |r| <= |line| && r == line[|line| - |r|..]
    ensures line != [] && line[0] in BulletMarkers ==>
      && |r| < |line|
      && (forall i :: 1 <= i < |line| - |r| ==> IsWs(line[i]))
      && (r == [] || !IsWs(r[0]))
    ensures !(line != [] && line[0] in BulletMarkers) ==> r == line
  {
    if line != [] && line[0] in BulletMarkers then line[WsRunFrom(line, 1)..] else line
  }

  // `item.replace(/^\d+\.\s*/, '')`: a line that starts with digits and a
  // dot loses them and the whitespace after them; any other line is kept whole.
  function StripNumber(line: string): (r: string)
    ensures |r| <= |line| && r == line[|line| - |r|..]
    ensures StartsWithNumberDot(line) ==>
      && DigitRun(line) < |line| - |r|
      && (forall i :: DigitRun(line) < i < |line| - |r| ==> IsWs(line[i]))
      && (r == [] || !IsWs(r[0]))
    ensures !StartsWithNumberDot(line) ==> r == line
  {
    if StartsWithNumberDot(line) then line[WsRunFrom(line, DigitRun(line) + 1)..] else line
  }

  // `text.replace(/^>\s*/gm, '')`, scanned left to right as the global
  // replace does. `atLineStart` tells whether the input character just
  // before `s` is a line terminator (or `s` starts the input): that is
  // where the multiline `^` matches. The `\s*` after a `>` is greedy and
  // may run across a line break.
  function StripQuoteMarks(s: string, atLineStart: bool): string
    decreases |s|
  {
    if s == [] then []
    else if atLineStart && s[0] == '>' then
      var j := WsRunFrom(s, 1);
      StripQuoteMarks(s[j..], IsLineTerminator(s[j - 1]))
    else [s[0]] + StripQuoteMarks(s[1..], IsLineTerminator(s[0]))
  }

  /** `text.replace(/\n/g, '<br>')`. */
  function ReplaceNewlines(s: string): (r: string)
    ensures '\n' !in r
  {
    if s == [] then []
    else (if s[0] == '\n' then "<br>" else [s[0]]) + ReplaceNewlines(s[1..])
  }

  // The heading branch: `chunk.match(/^#+/)[0].length` on the untrimmed
  // chunk, and the text after `/^#+\s*/`.
  // A heading's level is the length of the leading `#` run capped at 6; its
  // text is the suffix left once that run and the whitespace after it are
  // cut off the front.
  function HeadingBlock(chunk: string): (r: Result<Block>)
    ensures r.Err? <==> !StartsWithChar(chunk, '#')
    ensures r.Ok? ==>
      && r.value.Heading?
      && 1 <= r.value.level <= MaxHeadingLevel
      && r.value.level == (if HashRun(chunk) < MaxHeadingLevel then HashRun(chunk) else MaxHeadingLevel)
      && HashRun(chunk) <= |chunk| - |r.value.text|
      && r.value.text == chunk[|chunk| - |r.value.text|..]
      && (forall i :: HashRun(chunk) <= i < |chunk| - |r.value.text| ==> IsWs(chunk[i]))
      && (r.value.text == [] || !IsWs(r.value.text[0]))
  {
    var n := HashRun(chunk);
    if n == 0 then Err(HeadingMatchFailed(chunk))
    else Ok(Heading(if n < MaxHeadingLevel then n else MaxHeadingLevel, chunk[WsRunFrom(chunk, n)..]))
  }

  function BulletItems(lines: seq<string>): (items: seq<string>)
    ensures |items| == |lines|
  {
    seq(|lines|, i requires 0 <= i < |lines| => StripBullet(lines[i]))
  }

  function NumberItems(lines: seq<string>): (items: seq<string>)
    ensures |items| == |lines|
  {
    seq(|lines|, i requires 0 <= i < |lines| => StripNumber(lines[i]))
  }

  /** The classification of one chunk, tests in the source's order: heading,
      bullet list, ordered list, quote, paragraph. */
  function Classify(chunk: string): Result<Block>
  {
    var t := Trim(chunk);
    if StartsWithChar(t, '#') then HeadingBlock(chunk)
    else if t != [] && t[0] in BulletMarkers then
      Ok(BulletList(BulletItems(SplitLines(chunk))))
    else if StartsWithNumberDot(t) then
      Ok(OrderedList(NumberItems(SplitLines(chunk))))
    else if StartsWithChar(t, '>') then
      Ok(Quote(StripQuoteMarks(chunk, true)))
    else
      Ok(Paragraph(chunk))
  }

  function ListItems(items: seq<string>): string
  {
    if items == [] then "" else "<li>" + items[0] + "</li>" + ListItems(items[1..])
  }

  /** The HTML of one classified chunk. */
  function Render(b: Block): string
  {
    match b
    case Heading(level, text) =>
      "<h" + NatToString(level) + ">" + text + "</h" + NatToString(level) + ">"
    case BulletList(items) => "<ul>" + ListItems(items) + "</ul>"
    case OrderedList(items) => "<ol>" + ListItems(items) + "</ol>"
    case Quote(text) => "<blockquote>" + text + "</blockquote>"
    case Paragraph(text) => "<p>" + ReplaceNewlines(text) + "</p>"
  }

  /** Sequencing of two conversions, as the left-to-right `map` does it. */
  function Then(x: Result<string>, y: Result<string>): Result<string>
  {
    if x.Err? then x else if y.Err? then y else Ok(x.value + y.value)
  }

  /** One chunk's HTML, or the error its conversion throws. */
  function RenderChunk(chunk: string): Result<string>
  {
    match Classify(chunk)
    case Err(e) => Err(e)
    case Ok(b) => Ok(Render(b))
  }

  /** `chunks.map(...).join('')`: the chunks are converted left to right and
      the first one that throws aborts the whole conversion. */
  function RenderChunks(chunks: seq<string>): Result<string>
  {
    if chunks == [] then Ok("") else Then(RenderChunk(chunks[0]), RenderChunks(chunks[1..]))
  }

  /** `convertTextToHtml(text)`. */
  function ConvertTextToHtml(text: string): Result<string>
  {
    if text == "" then Ok(Placeholder) else RenderChunks(SplitParagraphs(text))
  }

}
