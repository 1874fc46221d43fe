// The document being edited (`currentDocument`) and the operations that
// change it: the field handlers, block insertion, statistics, validation,
// saving, starting over and restoring a stored draft. Values read from the
// page, the storage and the confirmation dialogs are parameters.
module Documents {
  import opened Text
  import opened Formatter
  import opened Stats
  import opened AutoSave

  /** The status a new document starts with. */
  const NotStarted: string := "Not started"

  /** A snapshot of every field of the document record, in its key order. */
  datatype DocState = DocState(
    title: string,
    content: string,
    character: string,
    brandVoice: string,
    templateType: string,
    contentLabel: string,
    prompt: string,
    status: string,
    lastModified: Option<string>,
    wordCount: nat,
    readingTime: nat)

  /** The record of a new document. */
  const Blank: DocState := DocState("", "", "", "", "", "", "", NotStarted, None, 0, 0)

  /** A record read back from storage: each key may be missing. */
  datatype Draft = Draft(
    title: Option<string>,
    content: Option<string>,
    character: Option<string>,
    brandVoice: Option<string>,
    templateType: Option<string>,
    contentLabel: Option<string>,
    prompt: Option<string>,
    status: Option<string>,
    lastModified: Option<Option<string>>,
    wordCount: Option<nat>,
    readingTime: Option<nat>)

  const NoKeys: Draft := Draft(None, None, None, None, None, None, None, None, None, None, None)

  /** What an automatic save stores: every key of the record. */
  function ToDraft(d: DocState): Draft {
    Draft(Some(d.title), Some(d.content), Some(d.character), Some(d.brandVoice),
          Some(d.templateType), Some(d.contentLabel), Some(d.prompt), Some(d.status),
          Some(d.lastModified), Some(d.wordCount), Some(d.readingTime))
  }

  function Over<T>(base: Option<T>, top: Option<T>): Option<T> {
    if top.Some? then top else base
  }

  /** `{ ...x, ...y }` on two stored records: the keys of `y` win. */
  function Overlay(x: Draft, y: Draft): Draft {
    Draft(Over(x.title, y.title), Over(x.content, y.content), Over(x.character, y.character),
          Over(x.brandVoice, y.brandVoice), Over(x.templateType, y.templateType),
          Over(x.contentLabel, y.contentLabel), Over(x.prompt, y.prompt), Over(x.status, y.status),
          Over(x.lastModified, y.lastModified), Over(x.wordCount, y.wordCount),
          Over(x.readingTime, y.readingTime))
  }

  function Pick<T>(base: T, top: Option<T>): T {
    if top.Some? then top.value else base
  }

  /** `{ ...d, ...draft }`: every key present in the draft replaces the document's value. */
  function Merge(d: DocState, draft: Draft): (r: DocState)
    ensures ToDraft(r) == Overlay(ToDraft(d), draft)
  {
    DocState(Pick(d.title, draft.title), Pick(d.content, draft.content),
             Pick(d.character, draft.character), Pick(d.brandVoice, draft.brandVoice),
             Pick(d.templateType, draft.templateType), Pick(d.contentLabel, draft.contentLabel),
             Pick(d.prompt, draft.prompt), Pick(d.status, draft.status),
             Pick(d.lastModified, draft.lastModified), Pick(d.wordCount, draft.wordCount),
             Pick(d.readingTime, draft.readingTime))
  }

  /** A title or a content that is not only whitespace. */
  function HasContent(d: DocState): (r: bool)
    ensures r <==> !AllWs(d.title) || !AllWs(d.content)
  {
    TrimShape(d.title);
    TrimShape(d.content);
    Trim(d.title) != [] || Trim(d.content) != []
  }

  /**
   * With no stored draft, any content counts as unsaved; otherwise the
   * document differs from the stored record (compared as serialised
   * records, so a stored record missing a key always differs).
   */
  function HasUnsavedChanges(d: DocState, stored: Option<Draft>): (r: bool)
    ensures stored.None? ==> (r <==> HasContent(d))
  {
    if stored.None? then HasContent(d) else ToDraft(d) != stored.value
  }

  /** The record with its word count and reading time recomputed from its content. */
  function WithStats(d: DocState): DocState {
    var words := WordCount(d.content);
    d.(wordCount := words, readingTime := ReadingTime(words))
  }

  /** The statistics agree with the content: one word per whitespace-free run. */
  predicate StatsAgree(d: DocState) {
    d.wordCount == |Words(d.content)| &&
    d.wordCount <= WordsPerMinute * d.readingTime &&
    (d.readingTime == 0 || WordsPerMinute * (d.readingTime - 1) < d.wordCount)
  }

  lemma {:induction false} WithStatsAgree(d: DocState)
    ensures StatsAgree(WithStats(d))
    ensures WithStats(d).wordCount == 0 <==> AllWs(d.content)
  {
    WordCountIsWords(d.content);
    WordCountZeroIffBlank(d.content);
  }

  /** The reasons a document cannot be saved, in the order they are reported. */
  datatype Failure = TitleMissing | CharacterMissing | TemplateTypeMissing | ContentEmpty

  function Rank(f: Failure): nat {
    match f
    case TitleMissing => 0
    case CharacterMissing => 1
    case TemplateTypeMissing => 2
    case ContentEmpty => 3
  }

  function Message(f: Failure): string {
    match f
    case TitleMissing => "Document title is required"
    case CharacterMissing => "Character profile must be selected"
    case TemplateTypeMissing => "Template type must be selected"
    case ContentEmpty => "Content cannot be empty"
  }

  /** The one-element report of `f` when `failed` holds. */
  function Flag(failed: bool, f: Failure): (r: seq<Failure>)
    ensures failed <==> f in r
    ensures forall g :: g in r ==> g == f
    ensures |r| <= 1
  {
    if failed then [f] else []
  }

  /**
   * Every failure the document has, each once and in report order. The
   * title and the content must hold a visible character; the character and
   * the template type need only be non-empty.
   */
  function Failures(d: DocState): (errors: seq<Failure>)
    ensures TitleMissing in errors <==> AllWs(d.title)
    ensures CharacterMissing in errors <==> d.character == ""
    ensures TemplateTypeMissing in errors <==> d.templateType == ""
    ensures ContentEmpty in errors <==> AllWs(d.content)
  {
    TrimShape(d.title);
    TrimShape(d.content);
    var a := Flag(Trim(d.title) == [], TitleMissing);
    var b := Flag(d.character == "", CharacterMissing);
    var c := Flag(d.templateType == "", TemplateTypeMissing);
    var e := Flag(Trim(d.content) == [], ContentEmpty);
    a + b + c + e
  }

  /** No failure is reported twice, and earlier checks are reported first. */
  predicate Ascending(errors: seq<Failure>) {
    forall i, j :: 0 <= i < j < |errors| ==> Rank(errors[i]) < Rank(errors[j])
  }

  lemma {:induction false} AscendingAppend(x: seq<Failure>, y: seq<Failure>)
    requires Ascending(x) && Ascending(y)
    requires forall f, g :: f in x && g in y ==> Rank(f) < Rank(g)
    ensures Ascending(x + y)
  {
    forall i, j | 0 <= i < j < |x + y|
      ensures Rank((x + y)[i]) < Rank((x + y)[j])
    {
      if j < |x| {
        assert (x + y)[i] == x[i] && (x + y)[j] == x[j];
      } else if i >= |x| {
        assert (x + y)[i] == y[i - |x|] && (x + y)[j] == y[j - |x|];
      } else {
        assert (x + y)[i] in x && (x + y)[j] in y;
      }
    }
  }

  /** Whichever checks fail, their flags concatenate in check order. */
  lemma {:induction false} FlagsAscending(p: bool, q: bool, r: bool, u: bool)
    ensures Ascending(Flag(p, TitleMissing) + Flag(q, CharacterMissing)
                      + Flag(r, TemplateTypeMissing) + Flag(u, ContentEmpty))
  {
    var a := Flag(p, TitleMissing);
    var b := Flag(q, CharacterMissing);
    var c := Flag(r, TemplateTypeMissing);
    var e := Flag(u, ContentEmpty);
    AscendingAppend(a, b);
    AscendingAppend(a + b, c);
    AscendingAppend(a + b + c, e);
  }

  /** The failures come in the order the checks are made. */
  lemma {:induction false} FailuresInOrder(d: DocState)
    ensures Ascending(Failures(d))
  {
    FlagsAscending(Trim(d.title) == [], d.character == "", d.templateType == "", Trim(d.content) == []);
  }

  /** The notification text: the messages joined by ". ". */
  function FailureMessage(errors: seq<Failure>): string {
    Join(seq(|errors|, i requires 0 <= i < |errors| => Message(errors[i])), ". ")
  }

  /** A block the sidebar offers for a template type. */
  datatype ContentBlock = ContentBlock(name: string, template: string)

  /** Sample entries of the block table. */
  const ContentBlocks: map<string, seq<ContentBlock>> := map[
    "Blog Posts" := [
      ContentBlock("SEO Title", "# [SEO-Optimized Title" + " with Primary Keyword]\n\n")],
    "Custom Templates" := [
      ContentBlock("Custom Header", "# [Your Custom Header]\n\n"),
      ContentBlock("Custom Content Block", "[Your custom content goes here]\n\n"),
      ContentBlock("Custom CTA", "[Your custom call-to-action]\n\n")]
  ]

  /** The editor text after a block is added: a blank line separates it from earlier text. */
  function Appended(current: string, template: string): (r: string)
    ensures current == [] ==> r == template
    ensures current != [] ==>
              |r| == |current| + 2 + |template| &&
              r[..|current|] == current && r[|current|..|current| + 2] == "\n\n" &&
              r[|current| + 2..] == template
  {
    current + (if current == "" then "" else "\n\n") + template
  }

  /** The result of a click on a template block. */
  datatype InsertOutcome =
    | Inserted
    | UnknownTemplateType
    | NoSuchBlock
    | FormatFailed(error: FormatError)

  /** The result of looking for a stored draft at start-up. */
  datatype LoadOutcome =
    | NoDraft
    | NotRecent
    | Declined
    | Restored(rendered: bool)

  /** The document record, changed in place by the editor's handlers. */
  class Document {
    var title: string
    var content: string
    var character: string
    var brandVoice: string
    var templateType: string
    var contentLabel: string
    var prompt: string
    var status: string
    var lastModified: Option<string>
    var wordCount: nat
    var readingTime: nat

    function State(): DocState
      reads this
    {
      DocState(title, content, character, brandVoice, templateType, contentLabel, prompt, status,
               lastModified, wordCount, readingTime)
    }

    method Assign(d: DocState)
      modifies this
      ensures State() == d
    {
      title, content, character, brandVoice := d.title, d.content, d.character, d.brandVoice;
      templateType, contentLabel, prompt, status := d.templateType, d.contentLabel, d.prompt, d.status;
      lastModified, wordCount, readingTime := d.lastModified, d.wordCount, d.readingTime;
    }

    constructor()
      ensures State() == Blank
    {
      title, content, character, brandVoice := "", "", "", "";
      templateType, contentLabel, prompt, status := "", "", "", NotStarted;
      lastModified, wordCount, readingTime := None, 0, 0;
    }

    /** Recompute the word count and the reading time; nothing else changes. */
    method UpdateStats()
      modifies this
      ensures State() == WithStats(old(State()))
      ensures StatsAgree(State())
    {
      WithStatsAgree(State());
      wordCount := WordCount(content);
      readingTime := ReadingTime(wordCount);
    }

    method SetTitle(value: string, timer: DebounceTimer, now: int)
      modifies this, timer
      ensures State() == old(State()).(title := value)
      ensures timer.deadline == Some(now + DebounceMs)
    {
      title := value;
      timer.Trigger(now);
    }

    /**
     * The content handler: store the text, recompute the statistics, refresh
     * the preview when its element is on the page (`previewOnPage`), whether
     * or not the panel is shown, then re-arm the save timer. When the
     * conversion throws, the timer is not re-armed; the window error handler
     * stores the whole record at once.
     */
    method SetContent(value: string, previewOnPage: bool, timer: DebounceTimer, now: int)
      returns (stored: Option<Draft>)
      modifies this, timer
      ensures State() == WithStats(old(State()).(content := value))
      ensures StatsAgree(State())
      ensures stored.Some? <==> previewOnPage && ConvertTextToHtml(value).Err?
      ensures stored.Some? ==> stored.value == ToDraft(State()) && timer.deadline == old(timer.deadline)
      ensures stored.None? ==> timer.deadline == Some(now + DebounceMs)
    {
      content := value;
      UpdateStats();
      if previewOnPage && ConvertTextToHtml(content).Err? {
        stored := Some(ToDraft(State()));
      } else {
        timer.Trigger(now);
        stored := None;
      }
    }

    method SetCharacter(value: string, timer: DebounceTimer, now: int)
      modifies this, timer
      ensures State() == old(State()).(character := value)
      ensures timer.deadline == Some(now + DebounceMs)
    {
      character := value;
      timer.Trigger(now);
    }

    method SetBrandVoice(value: string, timer: DebounceTimer, now: int)
      modifies this, timer
      ensures State() == old(State()).(brandVoice := value)
      ensures timer.deadline == Some(now + DebounceMs)
    {
      brandVoice := value;
      timer.Trigger(now);
    }

    method SetLabel(value: string, timer: DebounceTimer, now: int)
      modifies this, timer
      ensures State() == old(State()).(contentLabel := value)
      ensures timer.deadline == Some(now + DebounceMs)
    {
      contentLabel := value;
      timer.Trigger(now);
    }

    method SetPrompt(value: string, timer: DebounceTimer, now: int)
      modifies this, timer
      ensures State() == old(State()).(prompt := value)
      ensures timer.deadline == Some(now + DebounceMs)
    {
      prompt := value;
      timer.Trigger(now);
    }

    method SetStatus(value: string, timer: DebounceTimer, now: int)
      modifies this, timer
      ensures State() == old(State()).(status := value)
      ensures timer.deadline == Some(now + DebounceMs)
    {
      status := value;
      timer.Trigger(now);
    }

    /** Choosing a template type recomputes the statistics but does not arm the save timer. */
    method SetTemplateType(value: string)
      modifies this
      ensures State() == WithStats(old(State()).(templateType := value))
      ensures StatsAgree(State())
    {
      templateType := value;
      UpdateStats();
    }

    /**
     * Add block `index` of `blockType` after `current`, the text the editor
     * shows (empty while it shows its placeholder). The new text is rendered
     * before it is stored, so a text the formatter rejects changes nothing.
     * An unknown template type (indexing an undefined table entry) and a
     * rejected text both throw, and the window error handler then stores
     * the unchanged record at once.
     */
    method InsertBlock(blockType: string, index: int, current: string, timer: DebounceTimer, now: int)
      returns (outcome: InsertOutcome, stored: Option<Draft>)
      modifies this, timer
      ensures outcome == UnknownTemplateType <==> blockType !in ContentBlocks
      ensures outcome == NoSuchBlock <==>
                blockType in ContentBlocks && !(0 <= index < |ContentBlocks[blockType]|)
      ensures outcome.Inserted? || outcome.FormatFailed? ==>
                blockType in ContentBlocks && 0 <= index < |ContentBlocks[blockType]|
      ensures outcome.Inserted? ==>
                var text := Appended(current, ContentBlocks[blockType][index].template);
                ConvertTextToHtml(text).Ok? &&
                State() == WithStats(old(State()).(content := text)) &&
                timer.deadline == Some(now + DebounceMs)
      ensures outcome.FormatFailed? ==>
                ConvertTextToHtml(Appended(current, ContentBlocks[blockType][index].template)) ==
                Err(outcome.error)
      ensures !outcome.Inserted? ==> State() == old(State()) && timer.deadline == old(timer.deadline)
      ensures stored.Some? <==> outcome.UnknownTemplateType? || outcome.FormatFailed?
      ensures stored.Some? ==> stored.value == ToDraft(old(State()))
    {
      if blockType !in ContentBlocks {
        return UnknownTemplateType, Some(ToDraft(State()));
      }
      var blocks := ContentBlocks[blockType];
      if !(0 <= index < |blocks|) {
        return NoSuchBlock, None;
      }
      var text := Appended(current, blocks[index].template);
      var html := ConvertTextToHtml(text);
      if html.Err? {
        return FormatFailed(html.error), Some(ToDraft(State()));
      }
      content := text;
      UpdateStats();
      timer.Trigger(now);
      outcome, stored := Inserted, None;
    }

    /** Report every failure; the document can be saved exactly when there is none. */
    method Validate() returns (errors: seq<Failure>)
      ensures errors == Failures(State())
    {
      errors := [];
      if Trim(title) == [] {
        errors := errors + [TitleMissing];
      }
      assert errors == Flag(Trim(title) == [], TitleMissing);
      if character == "" {
        errors := errors + [CharacterMissing];
      }
      assert errors == Flag(Trim(title) == [], TitleMissing) + Flag(character == "", CharacterMissing);
      if templateType == "" {
        errors := errors + [TemplateTypeMissing];
      }
      if Trim(content) == [] {
        errors := errors + [ContentEmpty];
      }
    }

    /** Stamp a valid document with the save time; an invalid one is left as it is. */
    method Save(stamp: string) returns (saved: bool)
      modifies this
      ensures saved <==> Failures(old(State())) == []
      ensures saved ==> State() == old(State()).(lastModified := Some(stamp))
      ensures !saved ==> State() == old(State())
    {
      var errors := Validate();
      if errors != [] {
        return false;
      }
      lastModified := Some(stamp);
      saved := true;
    }

    /** Start over, unless there are unsaved changes and the user does not confirm. */
    method CreateNewDocument(stored: Option<Draft>, confirmed: bool) returns (reset: bool)
      modifies this
      ensures reset <==> !HasUnsavedChanges(old(State()), stored) || confirmed
      ensures reset ==> State() == Blank
      ensures !reset ==> State() == old(State())
    {
      if HasUnsavedChanges(State(), stored) && !confirmed {
        return false;
      }
      Assign(Blank);
      assert WordCount("") == 0;
      UpdateStats();
      reset := true;
    }

    /**
     * Merge a stored record into the document. A non-empty content is then
     * rendered; when the formatter rejects it the merge stays but the
     * statistics are not recomputed.
     */
    method Restore(draft: Draft) returns (rendered: bool)
      modifies this
      ensures rendered <==> var c := Merge(old(State()), draft).content;
                            c == "" || ConvertTextToHtml(c).Ok?
      ensures rendered ==> State() == WithStats(Merge(old(State()), draft))
      ensures !rendered ==> State() == Merge(old(State()), draft)
    {
      Assign(Merge(State(), draft));
      if content != "" && ConvertTextToHtml(content).Err? {
        return false;
      }
      UpdateStats();
      rendered := true;
    }

    /**
     * At start-up, offer a stored draft saved less than a day before `now`
     * and restore it if the user accepts.
     */
    method LoadDraft(draft: Option<Draft>, lastSave: Option<int>, now: int, confirmed: bool)
      returns (outcome: LoadOutcome)
      modifies this
      ensures outcome == NoDraft <==> draft.None?
      ensures outcome == NotRecent <==>
                draft.Some? && !(lastSave.Some? && IsFresh(lastSave.value, now))
      ensures outcome == Declined <==>
                draft.Some? && lastSave.Some? && IsFresh(lastSave.value, now) && !confirmed
      ensures outcome.Restored? ==>
                draft.Some? &&
                var merged := Merge(old(State()), draft.value);
                (outcome.rendered <==> merged.content == "" || ConvertTextToHtml(merged.content).Ok?) &&
                State() == if outcome.rendered then WithStats(merged) else merged
      ensures !outcome.Restored? ==> State() == old(State())
    {
      if draft.None? {
        return NoDraft;
      }
      if !(lastSave.Some? && IsFresh(lastSave.value, now)) {
        return NotRecent;
      }
      if !confirmed {
        return Declined;
      }
      var rendered := Restore(draft.value);
      outcome := Restored(rendered);
    }

    /** The debounced save: when the timer fires and there is content, the whole record is stored. */
    method AutoSaveTick(timer: DebounceTimer, now: int) returns (stored: Option<Draft>)
      modifies timer
      ensures stored.Some? <==>
                old(timer.deadline).Some? && old(timer.deadline).value <= now && HasContent(State())
      ensures stored.Some? ==> stored.value == ToDraft(State())
      ensures old(timer.deadline).Some? && old(timer.deadline).value <= now ==> timer.deadline == None
      ensures !(old(timer.deadline).Some? && old(timer.deadline).value <= now) ==>
                timer.deadline == old(timer.deadline)
    {
      var fired := timer.Tick(now);
      if fired.Some? && HasContent(State()) {
        stored := Some(ToDraft(State()));
      } else {
        stored := None;
      }
    }

    /** The periodic save: content that differs from the stored record is stored. */
    method PeriodicSave(previous: Option<Draft>) returns (stored: Option<Draft>)
      ensures stored.Some? <==> HasContent(State()) && HasUnsavedChanges(State(), previous)
      ensures stored.Some? ==> stored.value == ToDraft(State())
    {
      if HasContent(State()) && HasUnsavedChanges(State(), previous) {
        stored := Some(ToDraft(State()));
      } else {
        stored := None;
      }
    }
  }
}
