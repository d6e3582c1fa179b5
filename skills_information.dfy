/**
 * The skill information fields (submission summary and document outline)
 * and their two validity flags. The values belong to the wizard; the flags
 * start undefined and are written by the reset and edit-form effects and by
 * each field's blur check. Both checks count untrimmed characters, while the
 * hints under the fields count trimmed ones.
 */
module SkillsInformation {
  import opened Wrappers
  import opened Text
  import opened Validators

  /** The summary input's `maxLength`. */
  const SUMMARY_MAX_LENGTH := 60
  const OUTLINE_MIN_LENGTH := 40

  /** The count in the outline's error hint: the characters still missing from 40, counted on the
      trimmed outline, shown only when positive. */
  function OutlineCharactersToGo(outline: string): (n: Option<int>)
    ensures n.Some? <==> |Trim(outline)| < OUTLINE_MIN_LENGTH
    ensures n.Some? ==> n.value == OUTLINE_MIN_LENGTH - |Trim(outline)| && n.value > 0
  {
    var toGo := OUTLINE_MIN_LENGTH - |Trim(outline)|;
    if toGo > 0 then Some(toGo) else None
  }

  /** A capped summary that fills the input is refused: with the 60-character cap the longest summary
      that passes has 59 characters. */
  lemma {:induction false} FullSummaryFails(typed: string)
    requires |typed| >= SUMMARY_MAX_LENGTH
    ensures SkillSummaryValidity(CapInput(typed, SUMMARY_MAX_LENGTH)) == Error
  {
  }

  /** An outline of exactly 40 characters is refused, and when none of them is whitespace the hint
      gives no count to go. */
  lemma {:induction false} FortyCharacterOutline(outline: string)
    requires |outline| == OUTLINE_MIN_LENGTH
    requires forall k :: 0 <= k < |outline| ==> !IsSpace(outline[k])
    ensures OutlineValidity(outline) == Error
    ensures OutlineCharactersToGo(outline).None?
  {
    assert TrimStart(outline) == outline;
    assert TrimEnd(outline) == outline;
  }

  class SkillFields {
    const isEditForm: bool
    /** The wizard's values. */
    var submissionSummary: string
    var documentOutline: string
    var validDescription: Option<Validated>
    var validOutline: Option<Validated>

    constructor(isEditForm: bool, submissionSummary: string, documentOutline: string)
      ensures this.isEditForm == isEditForm
      ensures this.submissionSummary == submissionSummary && this.documentOutline == documentOutline
      ensures validDescription.None? && validOutline.None?
    {
      this.isEditForm := isEditForm;
      this.submissionSummary := submissionSummary;
      this.documentOutline := documentOutline;
      validDescription := None;
      validOutline := None;
    }

    /** The effect on `reset` (also run on mount): both flags back to Default. */
    method OnReset()
      modifies this
      ensures validDescription == Some(Default) && validOutline == Some(Default)
      ensures submissionSummary == old(submissionSummary) && documentOutline == old(documentOutline)
    {
      validDescription := Some(Default);
      validOutline := Some(Default);
    }

    /** The edit-form effect: an edited contribution starts with both fields valid. */
    method OnEditForm()
      modifies this
      ensures isEditForm ==> validDescription == Some(Success) && validOutline == Some(Success)
      ensures !isEditForm ==> validDescription == old(validDescription) && validOutline == old(validOutline)
      ensures submissionSummary == old(submissionSummary) && documentOutline == old(documentOutline)
    {
      if isEditForm {
        validDescription := Some(Success);
        validOutline := Some(Success);
      }
    }

    /** Typing in the summary: the input lets at most 60 characters through. */
    method SetSubmissionSummary(typed: string)
      modifies this
      ensures submissionSummary <= typed && |submissionSummary| <= SUMMARY_MAX_LENGTH
      ensures |typed| <= SUMMARY_MAX_LENGTH ==> submissionSummary == typed
      ensures documentOutline == old(documentOutline)
      ensures validDescription == old(validDescription) && validOutline == old(validOutline)
    {
      submissionSummary := CapInput(typed, SUMMARY_MAX_LENGTH);
    }

    /** Typing in the outline (no cap). */
    method SetDocumentOutline(value: string)
      modifies this
      ensures documentOutline == value
      ensures submissionSummary == old(submissionSummary)
      ensures validDescription == old(validDescription) && validOutline == old(validOutline)
    {
      documentOutline := value;
    }

    /** `validateDescription(submissionSummary)`: success iff 1 to 59 characters, untrimmed. */
    method ValidateDescription()
      modifies this
      ensures validDescription == Some(Success) <==> 0 < |submissionSummary| < SUMMARY_MAX_LENGTH
      ensures validDescription == Some(Error) <==> !(0 < |submissionSummary| < SUMMARY_MAX_LENGTH)
      ensures validOutline == old(validOutline)
      ensures submissionSummary == old(submissionSummary) && documentOutline == old(documentOutline)
    {
      validDescription := Some(SkillSummaryValidity(submissionSummary));
    }

    /** `validateOutline(documentOutline)`: success iff more than 40 characters, untrimmed. */
    method ValidateOutline()
      modifies this
      ensures validOutline == Some(Success) <==> |documentOutline| > OUTLINE_MIN_LENGTH
      ensures validOutline == Some(Error) <==> |documentOutline| <= OUTLINE_MIN_LENGTH
      ensures validDescription == old(validDescription)
      ensures submissionSummary == old(submissionSummary) && documentOutline == old(documentOutline)
    {
      validOutline := Some(OutlineValidity(documentOutline));
    }

    /** The summary's error hint counts 60 minus the trimmed length; it is shown only on Error. */
    function SummaryHint(): (n: Option<int>)
      reads this
      ensures n.Some? <==> validDescription == Some(Error)
      ensures n.Some? ==> n.value == 60 - |Trim(submissionSummary)|
    {
      if validDescription == Some(Error) then Some(SummaryCharactersRemaining(submissionSummary)) else None
    }

    /** The outline's error hint: shown only on Error, with a count only while characters are missing. */
    function OutlineHint(): (n: Option<Option<int>>)
      reads this
      ensures n.Some? <==> validOutline == Some(Error)
      ensures n.Some? ==> n.value == OutlineCharactersToGo(documentOutline)
    {
      if validOutline == Some(Error) then Some(OutlineCharactersToGo(documentOutline)) else None
    }
  }
}
