/**
 * The older "Select Context" modal: it shows one knowledge document, fetching
 * its content when the file has none, lets the user highlight a passage of it,
 * and hands the trimmed passage back as a seed example's context.
 *
 * The browser selection is modelled by what the handlers read from it: the
 * selected text and whether its anchor and focus lie inside the document
 * element. A range the modal places itself is a pair of offsets into the
 * file's content. `getWordCount` and `MAX_CONTEXT_WORDS` come from a module
 * that is not part of this model and are supplied to the constructor.
 */
module SelectContextModal {
  import opened Wrappers
  import opened Text

  /** A selection range the modal places: offsets `[start, end)` into the file's content. */
  datatype Range = Range(start: nat, end: nat)

  /** `setWindowSelection`'s choice of range: the first occurrence of the text in the content, when
      the document element is mounted and both the text and the content are non-empty. */
  function RestoreRange(content: Option<string>, text: Option<string>, mounted: bool): (r: Option<Range>)
    ensures r.Some? ==> mounted && Truthy(text) && Truthy(content)
    ensures r.Some? ==> (r.value.start <= r.value.end <= |content.value|
                         && content.value[r.value.start..r.value.end] == text.value)
    ensures r.Some? ==> forall j :: 0 <= j < r.value.start ==> !OccursAt(content.value, text.value, j)
    ensures r.None? <==> (!mounted || !Truthy(text) || !Truthy(content)
                          || forall j :: !OccursAt(content.value, text.value, j))
  {
    if mounted && Truthy(text) && Truthy(content) then
      var index := IndexOf(content.value, text.value);
      if index >= 0 then Some(Range(index, index + |text.value|)) else None
    else None
  }

  /** Restoring a passage that is in the content selects exactly that passage. */
  lemma {:induction false} RestoreRoundTrip(content: string, pre: string, text: string, post: string)
    requires content == pre + text + post && text != ""
    ensures RestoreRange(Some(content), Some(text), true).Some?
    ensures var r := RestoreRange(Some(content), Some(text), true).value;
      content[r.start..r.end] == text && r.start <= |pre|
  {
    assert content[|pre|..|pre| + |text|] == text;
    assert OccursAt(content, text, |pre|);
  }

  /** What the modal's content area shows. */
  datatype DocumentView = DocumentView(fileContent: Option<string>, loading: bool, markdownContent: Option<string>, errorText: Option<string>)

  /** The end of the content request: the file's content (`result.file?.content`), an error
      response with its message, or an exception with its message. */
  datatype FetchOutcome = Loaded(content: Option<string>) | Failed(error: string) | Threw(message: string)

  /** The spinner shows while loading; the error alert shows only once loading is over. */
  predicate ShowsError(v: DocumentView) {
    !v.loading && Truthy(v.errorText)
  }

  /** The fetch as written: a thrown request records its message even after cancellation and
      leaves `loading` set. */
  function AfterFetchAsWritten(v: DocumentView, canceled: bool, outcome: FetchOutcome): (r: DocumentView)
    ensures outcome.Threw? ==> r == v.(errorText := Some(outcome.message))
    ensures !outcome.Threw? && canceled ==> r == v
  {
    match outcome
    case Threw(message) => v.(errorText := Some(message))
    case _ =>
      if canceled then v
      else match outcome
        case Failed(error) => v.(loading := false, errorText := Some(error))
        case Loaded(content) => v.(fileContent := content, loading := false, markdownContent := content)
  }

  /** A request that throws while the spinner is up never shows its error: the spinner stays.
      A cancelled one still changes the state. */
  lemma {:induction false} ThrownFetchKeepsSpinner(v: DocumentView, message: string)
    requires v.loading && message != ""
    ensures AfterFetchAsWritten(v, false, Threw(message)).loading
    ensures !ShowsError(AfterFetchAsWritten(v, false, Threw(message)))
    ensures AfterFetchAsWritten(v, true, Threw(message)).errorText == Some(message)
  {
  }

  /** The fetch with the exception handled like an error response: after cancellation nothing
      changes, and otherwise loading ends with either the content or the message. */
  function AfterFetch(v: DocumentView, canceled: bool, outcome: FetchOutcome): (r: DocumentView)
    ensures canceled ==> r == v
    ensures !canceled ==> !r.loading
    ensures !canceled && outcome.Loaded? ==>
      r == v.(fileContent := outcome.content, loading := false, markdownContent := outcome.content)
    ensures !canceled && outcome.Failed? ==> r == v.(loading := false, errorText := Some(outcome.error))
    ensures !canceled && outcome.Threw? ==> r == v.(loading := false, errorText := Some(outcome.message))
  {
    if canceled then v
    else match outcome
      case Loaded(content) => v.(fileContent := content, loading := false, markdownContent := content)
      case Failed(error) => v.(loading := false, errorText := Some(error))
      case Threw(message) => v.(loading := false, errorText := Some(message))
  }

  /** With the correction, every failure that carries a message is shown. */
  lemma {:induction false} FailureIsShown(v: DocumentView, outcome: FetchOutcome)
    requires !outcome.Loaded?
    requires (outcome.Failed? && outcome.error != "") || (outcome.Threw? && outcome.message != "")
    ensures ShowsError(AfterFetch(v, false, outcome))
  {
  }

  /** What the "Create context" button hands back: the trimmed passage, then a close. */
  datatype ModalCall = ContextInputChange(contextValue: string) | CloseModal | AlertPopup(message: string)

  const SELECT_TEXT_ALERT := "Please select the text you want to use as context."

  class KnowledgeFileSelectModal {
    const initialSelection: Option<string>
    const getWordCount: string -> int
    const maxContextWords: int
    var fileContent: Option<string>
    var loading: bool
    var markdownContent: Option<string>
    var errorText: Option<string>
    var selectedText: string
    var preMounted: bool
    var windowSelection: Option<Range>

    function View(): DocumentView
      reads this
    {
      DocumentView(fileContent, loading, markdownContent, errorText)
    }

    /** The initial state: loading exactly when the file has no content, nothing selected. */
    constructor(content: Option<string>, initialSelection: Option<string>, getWordCount: string -> int, maxContextWords: int)
      ensures fileContent == content && markdownContent == content
      ensures loading <==> !Truthy(content)
      ensures errorText.None? && selectedText == "" && !preMounted && windowSelection.None?
      ensures this.initialSelection == initialSelection
      ensures this.getWordCount == getWordCount && this.maxContextWords == maxContextWords
    {
      fileContent := content;
      loading := !Truthy(content);
      markdownContent := content;
      errorText := None;
      selectedText := "";
      preMounted := false;
      windowSelection := None;
      this.initialSelection := initialSelection;
      this.getWordCount := getWordCount;
      this.maxContextWords := maxContextWords;
    }

    /** The mount effect requests the content only when the file has none. */
    method NeedsFetch() returns (fetches: bool)
      ensures fetches <==> !Truthy(fileContent)
    {
      fetches := !Truthy(fileContent);
    }

    /** The end of the content request, with the exception handled like an error response. */
    method OnFetchResult(canceled: bool, outcome: FetchOutcome)
      modifies this
      ensures View() == AfterFetch(old(View()), canceled, outcome)
      ensures selectedText == old(selectedText) && preMounted == old(preMounted)
      ensures windowSelection == old(windowSelection)
    {
      var v := AfterFetch(View(), canceled, outcome);
      fileContent, loading, markdownContent, errorText := v.fileContent, v.loading, v.markdownContent, v.errorText;
    }

    /** `setWindowSelection`: select the first occurrence of `text`, if any; otherwise leave the selection. */
    method SetWindowSelection(text: Option<string>)
      modifies this
      ensures RestoreRange(fileContent, text, preMounted).Some? ==> windowSelection == RestoreRange(fileContent, text, preMounted)
      ensures RestoreRange(fileContent, text, preMounted).None? ==> windowSelection == old(windowSelection)
      ensures View() == old(View()) && selectedText == old(selectedText) && preMounted == old(preMounted)
    {
      var r := RestoreRange(fileContent, text, preMounted);
      if r.Some? {
        windowSelection := r;
      }
    }

    /** `setPreRef`: record whether the document element is mounted and restore the initial selection. */
    method SetPreRef(mounted: bool)
      modifies this
      ensures preMounted == mounted
      ensures RestoreRange(fileContent, initialSelection, mounted).Some? ==>
        windowSelection == RestoreRange(fileContent, initialSelection, mounted)
      ensures RestoreRange(fileContent, initialSelection, mounted).None? ==> windowSelection == old(windowSelection)
      ensures View() == old(View()) && selectedText == old(selectedText)
    {
      preMounted := mounted;
      SetWindowSelection(initialSelection);
    }

    /** The `selectionchange` listener, attached once loading is over. A non-empty selection lying
        inside the document becomes `selectedText`; any other selection is replaced by the previous one. */
    method HandleSelectionChange(newSelectedText: string, anchorInside: bool, focusInside: bool)
      modifies this
      ensures var accepted := !old(loading) && old(preMounted) && newSelectedText != "" && anchorInside && focusInside;
        && (accepted ==> selectedText == newSelectedText && windowSelection == old(windowSelection))
        && (!accepted ==> selectedText == old(selectedText))
      ensures var restores := !old(loading) && old(preMounted) && !(newSelectedText != "" && anchorInside && focusInside);
        && (restores && RestoreRange(fileContent, Some(selectedText), true).Some? ==>
              windowSelection == RestoreRange(fileContent, Some(selectedText), true))
        && (!(restores && RestoreRange(fileContent, Some(selectedText), true).Some?) ==>
              windowSelection == old(windowSelection))
      ensures View() == old(View()) && preMounted == old(preMounted)
    {
      if loading || !preMounted {
        return;
      }
      if newSelectedText != "" && anchorInside && focusInside {
        selectedText := newSelectedText;
        return;
      }
      SetWindowSelection(Some(selectedText));
    }

    /** `handleSelectionStart`: a mouse-down without shift clears the selected text. */
    method HandleSelectionStart(shiftKey: bool)
      modifies this
      ensures shiftKey ==> selectedText == old(selectedText)
      ensures !shiftKey ==> selectedText == ""
      ensures View() == old(View()) && preMounted == old(preMounted) && windowSelection == old(windowSelection)
    {
      if !shiftKey {
        selectedText := "";
      }
    }

    /** `handleUseSelectedText`: without a selection only the alert pops up; otherwise the trimmed
        text goes to the context input once, and then the modal closes. */
    method HandleUseSelectedText() returns (calls: seq<ModalCall>)
      ensures selectedText == "" ==> calls == [AlertPopup(SELECT_TEXT_ALERT)]
      ensures selectedText != "" ==> calls == [ContextInputChange(Trim(selectedText)), CloseModal]
      ensures forall c :: c in calls && c.ContextInputChange? ==> |c.contextValue| <= |selectedText|
    {
      if selectedText == "" {
        return [AlertPopup(SELECT_TEXT_ALERT)];
      }
      calls := [ContextInputChange(Trim(selectedText)), CloseModal];
    }

    /** `selectedWordCount`: the count is taken of the trimmed selection, so a selection of whitespace
        alone counts as the empty text. */
    function SelectedWordCount(): (n: int)
      reads this
      ensures Blank(selectedText) ==> n == getWordCount("")
    {
      getWordCount(Trim(selectedText))
    }

    /** "Create context" is disabled iff the count is 0; above the limit there is only a warning,
        which reports how many words are over. */
    function Footer(): (f: FooterState)
      reads this
      ensures f.createDisabled <==> SelectedWordCount() == 0
      ensures f.warning <==> SelectedWordCount() > maxContextWords
      ensures f.overBy.Some? <==> f.warning
      ensures f.overBy.Some? ==> f.overBy.value == SelectedWordCount() - maxContextWords && f.overBy.value > 0
    {
      var count := SelectedWordCount();
      FooterState(count == 0, count > maxContextWords, if count > maxContextWords then Some(count - maxContextWords) else None)
    }
  }

  /** The footer: whether "Create context" is disabled, whether the count is flagged, and by how many words. */
  datatype FooterState = FooterState(createDisabled: bool, warning: bool, overBy: Option<int>)
}
