/**
 * The context and question-and-answer editor of one knowledge seed example:
 * the context area with its word count, the question and answer inputs with
 * their 250-character caps, the error texts with their fallbacks, and the
 * modal that picks the context from a knowledge file.
 *
 * The seed example belongs to the wizard; the editor forwards every edit to it
 * through the wizard's handlers, returned here as the calls made.
 */
module QuestionAnswerPairs {
  import opened Wrappers
  import opened Text
  import opened Validators
  import opened KnowledgeForm

  /** The word count shown next to the context; it is a display only. */
  const MAX_WORDS := 500
  /** The question and answer inputs' `maxLength`. */
  const MAX_PAIR_INPUT := 250
  const CONTEXT_ERROR_FALLBACK := "Required field. It must be non-empty and less than 500 words."
  const PAIR_ERROR_FALLBACK := "Required field. Total length of all Q&A pairs should be less than 250 words."

  /** The calls the editor makes to the wizard. */
  datatype SeedCall =
    | ContextInputChange(seedExampleIndex: int, contextValue: string)
    | QuestionInputChange(seedExampleIndex: int, questionAndAnswerIndex: int, questionValue: string)
    | AnswerInputChange(seedExampleIndex: int, questionAndAnswerIndex: int, answerValue: string)

  /** A pair's inputs are marked required exactly when the pair is immutable. */
  function PairRequired(qa: QuestionAndAnswerPair): (r: bool)
    ensures r <==> qa.immutable == Some(true)
  {
    qa.immutable.GetOr(false)
  }

  /** The error shown under an input: none unless its validity is Error, and then the stored message,
      or the fallback when that message is absent or empty. */
  function ErrorText(validity: Option<Validated>, message: Option<string>, fallback: string): (t: Option<string>)
    ensures t.Some? <==> validity == Some(Error)
    ensures t.Some? && Truthy(message) ==> t.value == message.value
    ensures t.Some? && !Truthy(message) ==> t.value == fallback
  {
    if validity == Some(Error) then Some(OrElse(message, fallback)) else None
  }

  function ContextErrorText(seed: KnowledgeSeedExample): (t: Option<string>)
    ensures t.Some? <==> seed.isContextValid == Some(Error)
    ensures t.Some? ==> t.value == OrElse(seed.validationError, CONTEXT_ERROR_FALLBACK)
  {
    ErrorText(seed.isContextValid, seed.validationError, CONTEXT_ERROR_FALLBACK)
  }

  function QuestionErrorText(qa: QuestionAndAnswerPair): (t: Option<string>)
    ensures t.Some? <==> qa.isQuestionValid == Some(Error)
    ensures t.Some? ==> t.value == OrElse(qa.questionValidationError, PAIR_ERROR_FALLBACK)
  {
    ErrorText(qa.isQuestionValid, qa.questionValidationError, PAIR_ERROR_FALLBACK)
  }

  function AnswerErrorText(qa: QuestionAndAnswerPair): (t: Option<string>)
    ensures t.Some? <==> qa.isAnswerValid == Some(Error)
    ensures t.Some? ==> t.value == OrElse(qa.answerValidationError, PAIR_ERROR_FALLBACK)
  {
    ErrorText(qa.isAnswerValid, qa.answerValidationError, PAIR_ERROR_FALLBACK)
  }

  /** After the edit back-fill, a failed field always shows a non-empty text: the stored message or
      the fallback. */
  lemma {:induction false} BackFilledErrorsAreReadable(seed: KnowledgeSeedExample)
    requires seed.isContextValid == Some(Error)
    ensures ContextErrorText(BackFillSeed(seed)).Some?
    ensures ContextErrorText(BackFillSeed(seed)).value != ""
  {
  }

  class SeedExampleEditor {
    const seedExampleIndex: int
    /** The wizard's seed example. */
    var seedExample: KnowledgeSeedExample
    var isModalOpen: bool
    var contextWordCount: nat
    /** Whether the window holds a selection range. */
    var windowHasSelection: bool

    constructor(seedExampleIndex: int, seedExample: KnowledgeSeedExample, windowHasSelection: bool)
      ensures this.seedExampleIndex == seedExampleIndex && this.seedExample == seedExample
      ensures !isModalOpen && contextWordCount == 0 && this.windowHasSelection == windowHasSelection
    {
      this.seedExampleIndex := seedExampleIndex;
      this.seedExample := seedExample;
      isModalOpen := false;
      contextWordCount := 0;
      this.windowHasSelection := windowHasSelection;
    }

    /** The word-count effect, run whenever the context changes: the count of the context's words. */
    method RecountContext()
      modifies this
      ensures contextWordCount == |Words(seedExample.context)|
      ensures seedExample == old(seedExample) && isModalOpen == old(isModalOpen) && windowHasSelection == old(windowHasSelection)
    {
      var context := seedExample.context;
      var n := CountWords(context);
      contextWordCount := n;
    }

    /** The wizard hands down a new seed example; the word-count effect follows. */
    method OnSeedExampleChange(seed: KnowledgeSeedExample)
      modifies this
      ensures seedExample == seed
      ensures contextWordCount == |Words(seed.context)|
      ensures isModalOpen == old(isModalOpen) && windowHasSelection == old(windowHasSelection)
    {
      seedExample := seed;
      RecountContext();
    }

    /** `onContextChange`: the typed context goes to the wizard unchanged, whatever its length. */
    method OnContextChange(contextValue: string) returns (calls: seq<SeedCall>)
      ensures calls == [ContextInputChange(seedExampleIndex, contextValue)]
    {
      calls := [ContextInputChange(seedExampleIndex, contextValue)];
    }

    /** Typing in question `qaIndex`: the input lets at most 250 characters through. */
    method OnQuestionChange(qaIndex: int, typed: string) returns (calls: seq<SeedCall>)
      ensures |calls| == 1 && calls[0].QuestionInputChange?
      ensures calls[0].seedExampleIndex == seedExampleIndex && calls[0].questionAndAnswerIndex == qaIndex
      ensures |calls[0].questionValue| <= MAX_PAIR_INPUT && calls[0].questionValue <= typed
      ensures |typed| <= MAX_PAIR_INPUT ==> calls[0].questionValue == typed
    {
      calls := [QuestionInputChange(seedExampleIndex, qaIndex, CapInput(typed, MAX_PAIR_INPUT))];
    }

    /** Typing in answer `qaIndex`: the input lets at most 250 characters through. */
    method OnAnswerChange(qaIndex: int, typed: string) returns (calls: seq<SeedCall>)
      ensures |calls| == 1 && calls[0].AnswerInputChange?
      ensures calls[0].seedExampleIndex == seedExampleIndex && calls[0].questionAndAnswerIndex == qaIndex
      ensures |calls[0].answerValue| <= MAX_PAIR_INPUT && calls[0].answerValue <= typed
      ensures |typed| <= MAX_PAIR_INPUT ==> calls[0].answerValue == typed
    {
      calls := [AnswerInputChange(seedExampleIndex, qaIndex, CapInput(typed, MAX_PAIR_INPUT))];
    }

    /** `handleOpenModal`. */
    method OpenModal()
      modifies this
      ensures isModalOpen
      ensures seedExample == old(seedExample) && contextWordCount == old(contextWordCount)
      ensures windowHasSelection == old(windowHasSelection)
    {
      isModalOpen := true;
    }

    /** `handleCloseModal`: the modal closes and every selection range is removed. */
    method CloseModal()
      modifies this
      ensures !isModalOpen && !windowHasSelection
      ensures seedExample == old(seedExample) && contextWordCount == old(contextWordCount)
    {
      isModalOpen := false;
      windowHasSelection := false;
    }
  }
}
