// Exporting the document as an HTML page, a Markdown file or a plain text
// file. The download itself (a blob handed to the browser) is left out: an
// export here is the file body, its name and its media type.
module Export {
  import opened Text
  import opened Formatter
  import opened Documents

  /** The three export buttons. */
  datatype Format = Html | Markdown | PlainText

  datatype ExportFile = ExportFile(body: string, fileName: string, mimeType: string)

  datatype ExportError =
    | NothingToExport
    | FormatterFailed(error: FormatError)

  datatype Exported = Exported(file: ExportFile) | Rejected(reason: ExportError)

  predicate StartsWith(s: string, head: string) {
    |head| <= |s| && s[..|head|] == head
  }

  predicate EndsWith(s: string, tail: string) {
    |tail| <= |s| && s[|s| - |tail|..] == tail
  }

  lemma {:induction false} SuffixOfConcat(front: string, tail: string)
    ensures EndsWith(front + tail, tail)
  {
    assert (front + tail)[|front|..] == tail;
  }

  lemma {:induction false} EndsWithExtend(head: string, s: string, tail: string)
    requires EndsWith(s, tail)
    ensures EndsWith(head + s, tail)
  {
    assert (head + s)[|head + s| - |tail|..] == s[|s| - |tail|..];
  }

  lemma {:induction false} PrefixOfConcat(head: string, rest: string)
    ensures StartsWith(head + rest, head)
  {
    assert (head + rest)[..|head|] == head;
  }

  /** `'-'.repeat(n)`. */
  function Dashes(n: nat): (r: string)
    ensures |r| == n
    ensures forall i :: 0 <= i < n ==> r[i] == '-'
  {
    if n == 0 then "" else Dashes(n - 1) + "-"
  }

  /** The rule between the metadata and the content of a text export. */
  const Rule: string := Dashes(50)

  function Extension(f: Format): string {
    match f
    case Html => ".html"
    case Markdown => ".md"
    case PlainText => ".txt"
  }

  function MimeType(f: Format): string {
    match f
    case Html => "text/html"
    case Markdown => "text/markdown"
    case PlainText => "text/plain"
  }

  /** `(title || 'document') + extension`: only the empty title falls back. */
  function FileName(title: string, f: Format): (name: string)
    ensures title != "" ==> name == title + Extension(f)
    ensures title == "" ==> name == "document" + Extension(f)
  {
    (if title == "" then "document" else title) + Extension(f)
  }

  /** The format a file name was made for, read from its last character. */
  function FormatOfFileName(name: string): Option<Format> {
    if name == [] then None
    else if name[|name| - 1] == 'l' then Some(Html)
    else if name[|name| - 1] == 'd' then Some(Markdown)
    else if name[|name| - 1] == 't' then Some(PlainText)
    else None
  }

  /** Each format's file name tells the format back, whatever the title. */
  lemma {:induction false} FileNameNamesFormat(title: string, f: Format)
    ensures FormatOfFileName(FileName(title, f)) == Some(f)
  {
    var name := FileName(title, f);
    var ext := Extension(f);
    assert name[|name| - 1] == ext[|ext| - 1];
  }

  /** The metadata lines of the plain text export. */
  function TextMeta(d: DocState): string {
    "Character: " + d.character + "\n" +
    "Brand Voice: " + d.brandVoice + "\n" +
    "Template Type: " + d.templateType + "\n" +
    "Status: " + d.status + "\n" +
    "Word Count: " + NatToString(d.wordCount) + " words\n" +
    "Reading Time: " + NatToString(d.readingTime) + " minutes"
  }

  /**
   * The plain text export: the title, a blank line, the metadata, a blank
   * line, a rule of 50 dashes, a blank line and the content.
   */
  function TextExport(d: DocState): (r: string)
    ensures StartsWith(r, d.title + "\n\n")
    ensures EndsWith(r, "\n\n" + Rule + "\n\n" + d.content)
  {
    var head := d.title + "\n\n";
    var tail := "\n\n" + Rule + "\n\n" + d.content;
    PrefixOfConcat(head, TextMeta(d) + tail);
    SuffixOfConcat(TextMeta(d), tail);
    EndsWithExtend(head, TextMeta(d) + tail, tail);
    head + (TextMeta(d) + tail)
  }

  /** The metadata lines of the Markdown export; each ends in a hard line break. */
  function MarkdownMeta(d: DocState): string {
    "**Character:** " + d.character + "  \n" +
    "**Brand Voice:** " + d.brandVoice + "  \n" +
    "**Template Type:** " + d.templateType + "  \n" +
    "**Status:** " + d.status + "  \n" +
    "**Word Count:** " + NatToString(d.wordCount) + " words  \n" +
    "**Reading Time:** " + NatToString(d.readingTime) + " minutes  \n"
  }

  /**
   * The Markdown export: the title as a level-one heading, the metadata, a
   * horizontal rule and the content.
   */
  function MarkdownExport(d: DocState): (r: string)
    ensures StartsWith(r, "# " + d.title + "\n\n")
    ensures EndsWith(r, "\n---\n\n" + d.content)
  {
    var head := "# " + d.title + "\n\n";
    var tail := "\n---\n\n" + d.content;
    PrefixOfConcat(head, MarkdownMeta(d) + tail);
    SuffixOfConcat(MarkdownMeta(d), tail);
    EndsWithExtend(head, MarkdownMeta(d) + tail, tail);
    head + (MarkdownMeta(d) + tail)
  }

  /** The page head: character set, viewport, title and the fixed style sheet. */
  function HtmlHead(title: string): string {
    "<!DOCTYPE html>\n<html lang=\"en\">\n<head>\n" +
    "    <meta charset=\"UTF-8\">\n" +
    "    <meta name=\"viewport\" content=\"width=device-width, initial-scale=1.0\">\n" +
    "    <title>" + title + "</title>\n" +
    "    <style>\n" +
    "        body { font-family: -apple-system, BlinkMacSystemFont, sans-serif; line-height: 1.6; " +
    "max-width: 800px; margin: 0 auto; padding: 40px 20px; }\n" +
    "        .meta { background: #f5f5f5; padding: 20px; border-radius: 8px; margin-bottom: 30px; }\n" +
    "        .meta p { margin: 5px 0; }\n" +
    "        h1, h2, h3, h4, h5, h6 { margin-top: 30px; margin-bottom: 15px; }\n" +
    "        p { margin-bottom: 15px; }\n" +
    "        ul, ol { margin-bottom: 15px; padding-left: 30px; }\n" +
    "        blockquote { border-left: 4px solid #667eea; margin: 20px 0; padding: 10px 20px; " +
    "background: #f8f9fa; }\n" +
    "    </style>\n</head>\n"
  }

  function MetaLine(name: string, value: string): string {
    "        <p><strong>" + name + ":</strong> " + value + "</p>\n"
  }

  /** The metadata box of the HTML export. */
  function HtmlMeta(d: DocState): string {
    "    <div class=\"meta\">\n" +
    MetaLine("Character", d.character) +
    MetaLine("Brand Voice", d.brandVoice) +
    MetaLine("Template Type", d.templateType) +
    MetaLine("Status", d.status) +
    MetaLine("Word Count", NatToString(d.wordCount) + " words") +
    MetaLine("Reading Time", NatToString(d.readingTime) + " minutes") +
    "    </div>\n"
  }

  /** The page end: the title heading, the rendered content and the closing tags. */
  function HtmlTail(title: string, body: string): string {
    "    <h1>" + title + "</h1>\n    " + body + "\n</body>\n</html>"
  }

  /** Everything before the title heading: the head, the body tag and the metadata box. */
  function PageFront(d: DocState): string {
    HtmlHead(d.title) + "<body>\n" + HtmlMeta(d)
  }

  /** The page around a rendered body: it ends with the title heading, the body and the closing tags. */
  function Page(d: DocState, body: string): (page: string)
    ensures EndsWith(page, HtmlTail(d.title, body))
  {
    SuffixOfConcat(PageFront(d), HtmlTail(d.title, body));
    PageFront(d) + HtmlTail(d.title, body)
  }

  /**
   * The HTML export: a complete page whose body is the content rendered by
   * the formatter. A content the formatter rejects makes the export fail.
   */
  function HtmlExport(d: DocState): (r: Result<string>)
    ensures match ConvertTextToHtml(d.content)
            case Err(e) => r == Err(e)
            case Ok(body) => r.Ok? && EndsWith(r.value, HtmlTail(d.title, body))
  {
    var html := ConvertTextToHtml(d.content);
    if html.Err? then Err(html.error) else Ok(Page(d, html.value))
  }

  /** The file body a format produces, or the formatter's error. */
  function Body(d: DocState, f: Format): Result<string> {
    match f
    case Html => HtmlExport(d)
    case Markdown => Ok(MarkdownExport(d))
    case PlainText => Ok(TextExport(d))
  }

  /**
   * An export button: a content that is only whitespace is refused; the HTML
   * export also fails when the formatter rejects the content.
   */
  function ExportDocument(d: DocState, f: Format): (r: Exported)
    ensures r == Rejected(NothingToExport) <==> AllWs(d.content)
    ensures r.Rejected? && r.reason.FormatterFailed? <==>
              !AllWs(d.content) && f == Html && ConvertTextToHtml(d.content).Err?
    ensures r.Exported? ==>
              Body(d, f).Ok? && r.file == ExportFile(Body(d, f).value, FileName(d.title, f), MimeType(f))
  {
    TrimShape(d.content);
    if Trim(d.content) == [] then Rejected(NothingToExport)
    else
      var body := Body(d, f);
      if body.Err? then Rejected(FormatterFailed(body.error))
      else Exported(ExportFile(body.value, FileName(d.title, f), MimeType(f)))
  }

  /**
   * What the window error handler stores after an export button: the throw
   * of the formatter inside the HTML export reaches it, and it saves the
   * record at once. No other export outcome stores anything.
   */
  function ExportErrorSave(d: DocState, f: Format): (stored: Option<Draft>)
    ensures stored.Some? <==> !AllWs(d.content) && f == Html && ConvertTextToHtml(d.content).Err?
    ensures stored.Some? ==> stored.value == ToDraft(d)
  {
    var r := ExportDocument(d, f);
    if r.Rejected? && r.reason.FormatterFailed? then Some(ToDraft(d)) else None
  }
}
