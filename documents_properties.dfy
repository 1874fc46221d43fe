/** What the document operations guarantee across calls: restoring an
    automatically saved record gives it back, merging behaves like object
    spread, validation accepts exactly the complete documents, and how an
    inserted block renders. */
module DocumentProperties {
  import opened Text
  import opened Formatter
  import opened FormatterProperties
  import opened Stats
  import opened Documents

  /** Restoring what an automatic save stored gives that record back over any
      document, and right after such a save nothing counts as unsaved. */
  lemma {:induction false} RestoreStoredRecord(saved: DocState, current: DocState)
    ensures Merge(current, ToDraft(saved)) == saved
    ensures !HasUnsavedChanges(saved, Some(ToDraft(saved)))
  {
  }

  /** A record with no keys changes nothing. */
  lemma {:induction false} MergeNoKeys(d: DocState)
    ensures Merge(d, NoKeys) == d
  {
  }

  /** Spreading the same record twice is spreading it once. */
  lemma {:induction false} MergeIdempotent(d: DocState, draft: Draft)
    ensures Merge(Merge(d, draft), draft) == Merge(d, draft)
  {
  }

  /** Spreading one record after another is spreading their overlay. */
  lemma {:induction false} MergeOverlay(d: DocState, x: Draft, y: Draft)
    ensures Merge(Merge(d, x), y) == Merge(d, Overlay(x, y))
  {
  }

  /** A document passes validation exactly when its title and content hold a
      visible character and a character and a template type are chosen. */
  lemma {:induction false} SaveableIffComplete(d: DocState)
    ensures Failures(d) == [] <==>
            !AllWs(d.title) && d.character != "" && d.templateType != "" && !AllWs(d.content)
  {
    if Failures(d) != [] {
      assert Failures(d)[0] in Failures(d);
    }
  }

  /** A document whose only gap is its title is refused for that reason alone. */
  lemma {:induction false} OnlyTitleMissing(d: DocState)
    requires AllWs(d.title) && d.character != "" && d.templateType != "" && !AllWs(d.content)
    ensures Failures(d) == [TitleMissing]
  {
    var f := Failures(d);
    FailuresInOrder(d);
    assert forall g :: g in f ==> g == TitleMissing;
  }

  /** A new document fails every check, in order, and has nothing unsaved. */
  lemma BlankDocument()
    ensures Failures(Blank) == [TitleMissing, CharacterMissing, TemplateTypeMissing, ContentEmpty]
    ensures !HasUnsavedChanges(Blank, None)
    ensures StatsAgree(Blank)
  {
    var f := Failures(Blank);
    FailuresInOrder(Blank);
    assert |f| <= 4 && TitleMissing in f && ContentEmpty in f;
    assert CharacterMissing in f && TemplateTypeMissing in f;
    WithStatsAgree(Blank);
    assert WordCount("") == 0;
  }

  /** A single failure is reported by its own message. */
  lemma {:induction false} SingleFailureMessage(f: Failure)
    ensures FailureMessage([f]) == Message(f)
  {
    assert seq(1, i requires 0 <= i < 1 => Message([f][i])) == [Message(f)];
  }

  /** Appending a block after text that does not end with a line break
      renders the two parts one after the other. */
  lemma {:induction false} AppendedRendersBoth(current: string, template: string)
    requires current != [] && current[|current| - 1] != '\n'
    requires template != []
    ensures ConvertTextToHtml(Appended(current, template)) ==
            Then(ConvertTextToHtml(current), ConvertTextToHtml(template))
  {
    ConvertAppend(current, template);
  }

  /** A chunk that is a line break followed by a heading line is rejected. */
  lemma {:induction false} BreakThenHeadingMisplaced(head: string)
    requires head != [] && head[0] == '#'
    ensures MisplacedHeading("\n" + head)
  {
    var b := "\n" + head;
    LineTerminatorIsWs('\n');
    VisibleNotWs('#');
    assert WsRunFrom(b, 1) == 1;
    assert WsRunFrom(b, 0) == 1;
  }

  /**
   * A heading block inserted after text that ends in a single line break
   * makes the formatter fail: the line break and the separator leave a chunk
   * whose `#` is preceded by a line break.
   */
  lemma {:induction false} HeadingAfterLineBreakFails(text: string, head: string)
    requires text != [] && text[|text| - 1] != '\n'
    requires head != [] && head[0] == '#' && head[|head| - 1] != '\n' && !HasBlankLine(head)
    ensures ConvertTextToHtml(Appended(text + "\n", head + "\n\n")).Err?
  {
    var b := "\n" + head;
    var joined := Appended(text + "\n", head + "\n\n");
    assert joined == text + "\n\n" + (b + "\n\n" + "");
    SplitParagraphsAppend(text, b + "\n\n" + "");
    assert b[|b| - 1] == head[|head| - 1];
    SplitParagraphsAppend(b, "");
    assert !HasBlankLine(b);
    SplitParagraphsOne(b);
    var chunks := SplitParagraphs(joined);
    assert chunks[|SplitParagraphs(text)|] == b;
    BreakThenHeadingMisplaced(head);
    ConvertFails(joined);
  }

  /** The sample block "Custom Header" cannot follow text ending in one line break. */
  lemma {:induction false} CustomHeaderAfterLineBreakFails(text: string)
    requires text != [] && text[|text| - 1] != '\n'
    ensures ConvertTextToHtml(Appended(text + "\n",
              ContentBlocks["Custom Templates"][0].template)).Err?
  {
    var head := "# [Your Custom Header]";
    assert ContentBlocks["Custom Templates"][0].template == head + "\n\n";
    assert !HasBlankLine(head);
    HeadingAfterLineBreakFails(text, head);
  }
}
