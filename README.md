# Content editor core, modelled in Dafny

`script.js` drives a browser editor in which a user writes a document, adds
template blocks per content category, sees a word count and a reading time,
has drafts saved automatically, and exports the result as HTML, Markdown or
plain text. This project models the parts of it that decide what the document
holds and what is produced from it:

- `text.dfy` (module `Text`): the JavaScript string primitives the editor
  relies on. This covers ECMAScript whitespace (`\s`, `trim`), the
  `split('\n\n')` and `split('\n')` behaviour, `join`, and decimal rendering of
  numbers.
- `formatter.dfy` (module `Formatter`): `convertTextToHtml`. The text is split
  into chunks at blank lines. Each chunk is classified as a heading, a bullet
  list, an ordered list, a quote or a paragraph, then rendered, and the results
  are concatenated. A chunk whose trimmed form starts with `#` but whose raw
  form does not makes the source throw. The model returns this as
  `Err(HeadingMatchFailed(chunk))`.
- `formatter_properties.dfy` and `formatter_examples.dfy`: what the converter
  guarantees for every input, and worked conversions.
- `formatter_output.dfy` (module `FormatterOutput`): the shape of every
  converted text. It has no blank line and is wrapped in tags, so converting
  it again gives one paragraph and never fails.
- `stats.dfy` (module `Stats`): `updateStats`. The word count is the number of
  pieces of `content.trim().split(/\s+/)`. The reading time is `ceil(words / 200)`.
- `autosave.dfy` (module `AutoSave`): the 2-second debounce timer behind
  `triggerAutoSave`, a replay of that timer over a series of edits, and the
  24-hour freshness test for stored drafts.
- `documents.dfy` and `documents_properties.dfy` (modules `Documents`,
  `DocumentProperties`): the `currentDocument` record. It is a class whose
  fields the handlers update in place. A `DocState` value is a snapshot of all
  eleven fields. A `Draft` is a stored record in which any key may be missing.
  The source key `label` is the field `contentLabel`, because `label` is a
  reserved word in Dafny.
- `export.dfy` (module `Export`): the three exports, the file name, the media
  type, and the refusal to export blank content.

Values the source reads from the page, the storage, the clock or a
confirmation dialog are parameters of the model:

- the editor text for block insertion;
- the stored draft;
- the current time in milliseconds;
- the save stamp;
- the user's answer to a confirmation.

The debounce replay fires a pending deadline before an edit that arrives at
the same millisecond.

An exception that escapes a handler reaches the window `error` listener
(script.js:211-217), which stores the whole record at once. Three of the modelled
operations can throw this way, and each returns the record so stored:

- the content handler, when the live preview's conversion fails;
- block insertion, for an unknown template type or a text the formatter rejects;
- the HTML export, when the formatter rejects the content.

The code behaves as follows in these cases:

- Text is split at every exact `"\n\n"`. `"a\n\n\nb"` gives `"a"` and `"\nb"`.
- A heading is recognised on the trimmed chunk, but its `#` run is matched on the raw chunk. A chunk with whitespace before its `#` therefore fails.
- `/^>\s*/gm` may consume a line break after a bare `>`, which joins the quote's lines.
- Validation does not check the brand voice, and it checks the character and the template type for emptiness only.
- Restoring a draft merges it first and renders it afterwards. When rendering fails, the merge stays and the statistics are not recomputed.
- Choosing a template type recomputes the statistics but does not arm the save timer.

## Model

| member | source | states |
|---|---|---|
| Text.IsWs | script.js:649 | the character set of `\s` and `trim()`: the ECMAScript white space and line terminators, which every trim, split and word count in the model uses |
| Text.Trim | script.js:649 | `trim()`: the text between its leading and trailing whitespace runs, with whitespace as ECMAScript defines it |
| Text.TrimStart | script.js:687 | the text after its leading whitespace run, whose first character is the first character of `trim()` |
| Text.SplitParagraphs | script.js:685 | `split('\n\n')`: occurrences of the separator are cut out from left to right, and the text yields at least one piece |
| Text.TrimShape | script.js:649 | `trim()` is empty exactly for whitespace-only text; otherwise it begins and ends with a non-whitespace character, the first visible one of the text |
| Text.SplitParagraphsJoin | script.js:685 | joining the pieces of `split('\n\n')` with the separator gives the text back |
| Text.SplitParagraphsNoBlankLine | script.js:685 | no piece of `split('\n\n')` contains a blank line, and the first piece is a prefix of the text |
| Text.SplitParagraphsOne | script.js:685 | a text without a blank line is a single chunk |
| Text.SplitParagraphsAppend | script.js:685 | two texts joined by a blank line split into the chunks of each, unless the first ends with a line break |
| Text.SplitLines | script.js:693 | `split('\n')` yields at least one line and no line contains a line break |
| Text.SplitLinesJoin | script.js:693 | there is one line more than there are line breaks, and joining the lines with `"\n"` restores the text |
| Text.SplitLinesOfJoin | script.js:693 | splitting lines joined by `"\n"` gives those lines back |
| Text.NatToString | script.js:31 | a number in a template literal is written as non-empty decimal digits without a leading zero |
| Text.ParseNatToString | script.js:31 | reading back the decimal form of a count gives the count |
| Formatter.ConvertTextToHtml | script.js:681-711 | the empty text gives the placeholder; any other text is split at blank lines and its chunks are rendered and concatenated |
| Formatter.Classify | script.js:687-708 | a chunk's block kind, from the first character of its trimmed form, checked in the source's order: heading, bullet list, ordered list, quote, paragraph |
| Formatter.Render | script.js:689-708 | the HTML of each block kind: `<hN>`, `<ul>` or `<ol>` with one `<li>` per item, `<blockquote>`, and `<p>` with line breaks as `<br>` |
| Formatter.RenderChunk | script.js:686-709 | one chunk's HTML, or the error its heading match throws |
| Formatter.RenderChunks | script.js:684-710 | the chunks rendered left to right and concatenated, the first failure ending the conversion as the throw inside `map` does |
| Formatter.StripQuoteMarks | script.js:705 | `replace(/^>\s*/gm, '')`: a `>` at a line start is removed with the greedy whitespace run after it, which may cross line breaks |
| Formatter.HashRun | script.js:688 | the length of the leading `#` run: all `#` up to it, no `#` right after it |
| Formatter.HeadingBlock | script.js:687-691 | fails exactly when the raw chunk does not start with `#`; otherwise the level is the `#` run capped at 6, and the text is the rest of the chunk after the run and the whitespace that follows it |
| Formatter.StripBullet | script.js:694 | a line starting with a bullet glyph or `-` loses it and the whitespace after it; the result is a suffix of the line beginning with a visible character or empty; other lines are kept |
| Formatter.StripNumber | script.js:700 | a line starting with digits and a dot loses them and the whitespace after them; other lines are kept |
| Formatter.ReplaceNewlines | script.js:708 | the paragraph body holds no line break |
| FormatterProperties.ClassifyByLeadingChar | script.js:687-708 | the block kind is decided by the first visible character of the chunk, in the source's order; failure happens exactly for a `#` preceded by whitespace |
| FormatterProperties.NumberDotTrim | script.js:698 | the ordered-list test on the trimmed chunk agrees with the test on the chunk with leading whitespace removed |
| FormatterProperties.RenderChunksAppend | script.js:685-710 | rendering a concatenation of chunk lists is rendering each and concatenating, the first failure winning |
| FormatterProperties.ConvertAppend | script.js:681-711 | converting two texts joined by a blank line is converting each and concatenating, when both are non-empty and the first does not end in a line break |
| FormatterProperties.RenderChunksErr | script.js:687-691 | rendering fails exactly when some chunk has whitespace before its `#` |
| FormatterProperties.RenderChunksFirstError | script.js:685-691 | the failure reports the first such chunk |
| FormatterProperties.ConvertFails | script.js:681-691 | conversion fails exactly for a non-empty text with such a chunk |
| FormatterProperties.RenderNotPlaceholder | script.js:682 | no rendered chunk can be mistaken for the placeholder paragraph |
| FormatterProperties.ConvertPlaceholderIffEmpty | script.js:682 | the placeholder is produced exactly for the empty text |
| FormatterProperties.ReplaceNewlinesJoin | script.js:708 | a paragraph body is its lines joined by `<br>` |
| FormatterProperties.ListItemsShape | script.js:692-703 | a list has one item per line of its chunk, marker or not, and each item is the end of its line |
| FormatterProperties.QuotePlain | script.js:705 | text without line terminators passes through the quote stripping unchanged when it does not start a line |
| FormatterProperties.QuoteLine | script.js:705 | a quote line that is not a bare marker loses exactly its `>` and the whitespace after it |
| FormatterProperties.QuoteByLines | script.js:704-707 | when no line is a bare `>`, the quote body is each line with its `>` marker and following whitespace removed |
| FormatterProperties.QuoteBareMarkerJoinsLines | script.js:705 | a line holding only `>` and whitespace, followed by a line break and a line that starts with a visible character, vanishes together with the line break, so the next line is stripped as if it came first |
| FormatterProperties.QuoteBareMarkerExample | script.js:705 | `">\nfoo"` quotes as `"foo"` |
| FormatterProperties.ConvertOneChunk | script.js:681-711 | a non-empty text without a blank line converts to the rendering of its classification |
| FormatterExamples.ClassifyHello | script.js:687-691 | `"# Hello"` is a level-1 heading "Hello" |
| FormatterExamples.HeadingThenParagraph | script.js:681-711 | `"# Hello\n\nWorld"` converts to `<h1>Hello</h1><p>World</p>` |
| FormatterExamples.ClassifyBulletList | script.js:692-697 | `"- a\n- b"` is a bullet list with items "a" and "b" |
| FormatterExamples.ClassifyOrderedList | script.js:698-703 | `"1. x\n2. y"` is an ordered list with items "x" and "y" |
| FormatterExamples.HeadingAfterTwoBlankLinesFails | script.js:685-691 | `"Intro\n\n\n# Title"` fails on the chunk `"\n# Title"` |
| FormatterOutput.QuoteNoBlankLine | script.js:705 | quote stripping never creates a blank line in a chunk that has none, because the whitespace run after a marker always ends at a visible character |
| FormatterOutput.RenderTagged | script.js:686-709 | every block rendered from a chunk without a blank line opens with `<`, closes with `>` and has no blank line |
| FormatterOutput.ConvertTagged | script.js:681-711 | every successful conversion opens with `<`, closes with `>` and has no blank line |
| FormatterOutput.TaggedIsParagraph | script.js:681-711 | such a text converts to a single paragraph around itself |
| FormatterOutput.ReformatOutput | script.js:681-711 | converting the converter's own output again never fails: it gives one paragraph, with the output's line breaks turned into `<br>` |
| Stats.SplitWs | script.js:649 | `split(/\s+/)`: the pieces between maximal whitespace runs, with at least one piece |
| Stats.WordCount | script.js:649 | zero for whitespace-only content, otherwise the number of pieces of the trimmed content split at whitespace runs |
| Stats.Words | script.js:649 | the maximal runs of non-whitespace characters, in order: the reference the word count is proved against |
| Stats.WordEnd | script.js:649 | the end of the non-whitespace run starting at a position |
| Stats.WordsAreRuns | script.js:649 | every word is non-empty and free of whitespace |
| Stats.SplitWsFromWords | script.js:649 | on trimmed text, `split(/\s+/)` yields exactly the maximal non-whitespace runs |
| Stats.WordCountIsWords | script.js:649 | the word count is the number of maximal non-whitespace runs of the content |
| Stats.WordCountZeroIffBlank | script.js:649 | the word count is zero exactly for whitespace-only content |
| Stats.ReadingTime | script.js:650 | the reading time is the least number of minutes at 200 words a minute that covers the words |
| AutoSave.IsFresh | script.js:94 | a draft is offered when it was saved less than 24 hours before now |
| AutoSave.DebounceTimer.constructor | script.js:409 | no save is pending at start |
| AutoSave.DebounceTimer.Trigger | script.js:61-63 | any pending save is dropped and one is scheduled 2000 ms after now |
| AutoSave.DebounceTimer.Tick | script.js:63-67 | a pending save whose time has come fires once and is cleared; otherwise nothing changes |
| AutoSave.DebounceFires | script.js:61-68 | the saves a series of edits fires: one for each gap of at least 2000 ms, 2000 ms after the edit before it, and one 2000 ms after the last edit |
| AutoSave.QuietFiresSnoc | script.js:61-68 | one more edit adds exactly the save fired in the gap before it |
| AutoSave.ReplayEdits | script.js:61-68 | replaying the timer over edit times yields exactly the saves of the debounce specification |
| AutoSave.BurstFiresOnce | script.js:61-68 | edits each less than 2000 ms after the previous produce one save, 2000 ms after the last |
| AutoSave.QuietFiresAreGaps | script.js:61-68 | a save fires during the series exactly 2000 ms after an edit that is followed by a gap of at least 2000 ms |
| Documents.ToDraft | script.js:72 | `JSON.stringify(currentDocument)`: an automatic save stores every key of the record |
| Documents.WithStats | script.js:647-653 | the record with its word count and reading time recomputed from its content, every other field unchanged |
| Documents.Merge | script.js:107 | `{ ...currentDocument, ...data }` behaves as the key-by-key overlay of the stored record on the document |
| Documents.HasContent | script.js:134-136 | the title or the content holds a visible character |
| Documents.HasUnsavedChanges | script.js:138-141 | with no stored draft, unsaved changes mean having content |
| Documents.Flag | script.js:817-820 | a check contributes its failure exactly when it fails, and nothing else |
| Documents.Failures | script.js:814-820 | title and content missing exactly when whitespace-only; character and template type missing exactly when empty; each failure once, in check order |
| Documents.FailuresInOrder | script.js:814-820 | the failures come in the order of the checks, none twice |
| Documents.WithStatsAgree | script.js:647-655 | recomputed statistics count the maximal non-whitespace runs and cover them at 200 words a minute; the count is zero exactly for blank content |
| Documents.Appended | script.js:575 | an inserted block follows the current text after a blank line, or stands alone when there is no text |
| Documents.Document.constructor | script.js:395-407 | the initial record: empty fields, status "Not started", no save stamp, zero statistics |
| Documents.Document.UpdateStats | script.js:647-655 | only the word count and the reading time change, and they agree with the content |
| Documents.Document.SetTitle | script.js:602-605 | only the title changes, and the save timer is re-armed |
| Documents.Document.SetContent | script.js:607-613 | the content changes and the statistics are recomputed. When the preview element is on the page (whether or not the panel is shown) and converting the content throws, the error handler stores the record and the save timer keeps its old deadline; otherwise nothing is stored and the timer is re-armed |
| Documents.Document.SetCharacter | script.js:615-618 | only the character changes, and the save timer is re-armed |
| Documents.Document.SetBrandVoice | script.js:620-623 | only the brand voice changes, and the save timer is re-armed |
| Documents.Document.SetLabel | script.js:625-628 | only the label changes, and the save timer is re-armed |
| Documents.Document.SetPrompt | script.js:630-633 | only the prompt changes, and the save timer is re-armed |
| Documents.Document.SetStatus | script.js:635-638 | only the status changes, and the save timer is re-armed |
| Documents.Document.SetTemplateType | script.js:530-541 | the template type changes and the statistics are recomputed; the save timer is untouched |
| Documents.Document.InsertBlock | script.js:565-581 | an unknown category or block index changes nothing; otherwise the block is appended after a blank line and rendered first; a rejected text changes nothing, and an accepted one is stored with fresh statistics and re-arms the timer. An unknown category and a rejected text throw, and the unchanged record is stored by the error handler |
| Documents.Document.Validate | script.js:814-828 | the failures reported are exactly those of the document, in check order |
| Documents.Document.Save | script.js:781-791 | a document with a failure is left unchanged; a valid one only gets its save stamp |
| Documents.Document.CreateNewDocument | script.js:740-760 | the document is reset to the initial record exactly when there are no unsaved changes or the user confirms; otherwise nothing changes |
| Documents.Document.Restore | script.js:106-131 | the stored record is merged in; a non-empty content that the formatter rejects leaves the merge without recomputed statistics |
| Documents.Document.LoadDraft | script.js:87-104 | a stored draft is restored only when it exists, was saved within 24 hours and the user accepts; otherwise nothing changes |
| Documents.Document.AutoSaveTick | script.js:61-78 | when the debounce deadline has passed and there is content, the whole record is stored; a passed deadline is cleared, and any other deadline stays as it was |
| Documents.Document.PeriodicSave | script.js:53-59 | the whole record is stored exactly when there is content that differs from the stored draft; the page-unload handler (script.js:221-228) runs the same guarded save |
| DocumentProperties.RestoreStoredRecord | script.js:107 | restoring an automatically saved record gives it back over any document, and leaves nothing unsaved |
| DocumentProperties.MergeNoKeys | script.js:107 | a stored record without keys changes nothing |
| DocumentProperties.MergeIdempotent | script.js:107 | merging the same record twice is merging it once |
| DocumentProperties.MergeOverlay | script.js:107 | merging one record after another is merging their overlay |
| DocumentProperties.SaveableIffComplete | script.js:814-828 | validation passes exactly when title and content hold a visible character and a character and a template type are chosen |
| DocumentProperties.OnlyTitleMissing | script.js:817-820 | a document missing only its title fails with that one reason |
| DocumentProperties.BlankDocument | script.js:748-760 | a new document fails all four checks in order, has nothing unsaved, and its statistics agree with its content |
| Documents.FailureMessage | script.js:823 | `errors.join('. ')`: the failure messages in order, separated by `". "` |
| DocumentProperties.SingleFailureMessage | script.js:823 | a single failure is reported by its own message |
| DocumentProperties.AppendedRendersBoth | script.js:575-578 | after text not ending in a line break, the inserted block renders after the existing text |
| DocumentProperties.BreakThenHeadingMisplaced | script.js:687-688 | a chunk made of a line break and a heading line is rejected |
| DocumentProperties.HeadingAfterLineBreakFails | script.js:575-578 | a heading block inserted after text ending in one line break makes the formatter fail |
| DocumentProperties.CustomHeaderAfterLineBreakFails | script.js:388 | the block "Custom Header" cannot follow text ending in one line break |
| Export.Dashes | script.js:34 | `'-'.repeat(n)` has n characters, all `-` |
| Export.FileName | script.js:896-906 | the title followed by the extension, or "document" and the extension when the title is empty |
| Export.FileNameNamesFormat | script.js:893-908 | the file name tells its format back, whatever the title |
| Export.TextExport | script.js:24-37 | the text export opens with the title and a blank line, and closes with a blank line, a rule of 50 dashes, a blank line and the content |
| Export.MarkdownExport | script.js:9-21 | the Markdown export opens with the title as a level-one heading, and closes with a horizontal rule and the content |
| Export.Page | script.js:915-944 | the page ends with the title heading, the rendered body and the closing tags |
| Export.HtmlExport | script.js:915-944 | fails exactly when the formatter rejects the content; otherwise it is a page ending in the rendered content |
| Export.Body | script.js:893-909 | the file body of each format: the HTML page, the Markdown export or the text export |
| Export.ExportErrorSave | script.js:211-217 | the error handler stores the record after an export exactly when the HTML export's formatter throws, that is for non-blank content the formatter rejects |
| Export.ExportDocument | script.js:885-912 | blank content is refused; the HTML export is refused exactly when the formatter fails; otherwise the file carries the format's body, file name and media type |

## Left out

- The page itself is not modelled. This covers element updates, focus and selection, notifications, the sidebar of template blocks, the preview's markup, dark mode, keyboard shortcuts, the stats animation wrapper and the console banner. These are display effects. The preview's conversion is modelled, because a throw there skips the timer and triggers a save. Whether the preview is on the page is a parameter of `SetContent`.
- Showing the preview (`togglePreview`, script.js:726-737) is not modelled. With a content the formatter rejects it throws, and the error handler stores the record.
- The editor text given to block insertion is a parameter. Reading `innerText` back from rendered HTML is a browser behaviour.
- Local storage and JSON are not modelled; stored records are `Draft` values. Several consequences follow:
  - A stored value that fails to parse is not modelled (`hasUnsavedChanges` then answers true, and `loadDraft` logs the failure).
  - Key order in the string comparison is not modelled.
  - Stored values of the wrong type are not modelled, such as a non-string content or `content || ''` on a missing content.
- Dates are not parsed. The freshness test takes milliseconds, and the save stamp is an opaque string.
- Timers are not real. `setTimeout`, `clearTimeout` and `setInterval` are the explicit steps `Trigger`, `Tick` and `PeriodicSave`, driven by a time the caller supplies. The 30-second period of the periodic save is left to the caller.
- The `beforeunload` handler (script.js:221-228) is not a separate operation. Its save has the same guard as `PeriodicSave`, and its leave-page prompt is a display effect.
- The floating-point reading time is not modelled: `Math.ceil(words / 200)` is integer ceiling division, which is exact for every count below 2^53.
- The network is not modelled: saving to Notion, the dashboard chat and the user preferences. `Save` stops at the validation gate and the save stamp.
- The database identifier table is left out, and the content block table is reduced to a few sample entries.
- The bullet glyph is U+2022. `script.js` spells it as the mis-decoded three-character sequence `â€¢`, and the model reads it as the bullet that sequence encodes.
- The download itself is not modelled: `downloadFile`, the blob and the object URL.
- The export format is a three-valued datatype, so a format string outside the `switch` cannot be expressed.
- Pasting as plain text (`handlePaste`) is a browser command.
- Export.TextExport: the contract fixes the title line, the closing rule and the content; the metadata lines in between are given by the definition only.
- Export.MarkdownExport: the contract fixes the heading and the closing rule with the content; the metadata lines are given by the definition only.
- Export.HtmlExport: the contract fixes the end of the page; the head, the style sheet and the metadata box are given by the definition only.
- Export.Page: the contract fixes the page's tail, meaning the title heading, the rendered body and the closing tags. The head, the style sheet and the metadata box before it are given by the definition only.
- Reading the metadata back from a text export is not proved. The fields are free text, and a field containing a line break makes the lines ambiguous.
