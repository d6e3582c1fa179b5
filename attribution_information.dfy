/**
 * The attribution fields of a skill contribution (title of the work, its
 * license, its creators) and their three validity flags. The values belong to
 * the wizard; the flags start undefined and are written by the reset and
 * edit-form effects and by each field's blur check.
 */
module AttributionInformation {
  import opened Wrappers
  import opened Text
  import opened Validators

  class AttributionFields {
    const isEditForm: bool
    var validTitle: Option<Validated>
    var validLicense: Option<Validated>
    var validCreators: Option<Validated>

    constructor(isEditForm: bool)
      ensures this.isEditForm == isEditForm
      ensures validTitle.None? && validLicense.None? && validCreators.None?
    {
      this.isEditForm := isEditForm;
      validTitle := None;
      validLicense := None;
      validCreators := None;
    }

    /** The effect on `reset` (also run on mount): all three flags back to Default. */
    method OnReset()
      modifies this
      ensures validTitle == Some(Default) && validLicense == Some(Default) && validCreators == Some(Default)
    {
      validTitle := Some(Default);
      validLicense := Some(Default);
      validCreators := Some(Default);
    }

    /** The edit-form effect: an edited contribution starts with all three fields valid. */
    method OnEditForm()
      modifies this
      ensures isEditForm ==> validTitle == Some(Success) && validLicense == Some(Success) && validCreators == Some(Success)
      ensures !isEditForm ==> validTitle == old(validTitle) && validLicense == old(validLicense) && validCreators == old(validCreators)
    {
      if isEditForm {
        validTitle := Some(Success);
        validLicense := Some(Success);
        validCreators := Some(Success);
      }
    }

    /** `validateTitle`: success iff the title is not blank; the other flags stay. */
    method ValidateTitle(titleStr: string)
      modifies this
      ensures validTitle == Some(Success) <==> !Blank(titleStr)
      ensures validTitle == Some(Error) <==> Blank(titleStr)
      ensures validLicense == old(validLicense) && validCreators == old(validCreators)
    {
      validTitle := Some(RequiredValidity(titleStr));
    }

    /** `validateLicense`: success iff the license is not blank; the other flags stay. */
    method ValidateLicense(licenseStr: string)
      modifies this
      ensures validLicense == Some(Success) <==> !Blank(licenseStr)
      ensures validLicense == Some(Error) <==> Blank(licenseStr)
      ensures validTitle == old(validTitle) && validCreators == old(validCreators)
    {
      validLicense := Some(RequiredValidity(licenseStr));
    }

    /** `validateCreators`: success iff the creators are not blank; the other flags stay. */
    method ValidateCreators(creatorsStr: string)
      modifies this
      ensures validCreators == Some(Success) <==> !Blank(creatorsStr)
      ensures validCreators == Some(Error) <==> Blank(creatorsStr)
      ensures validTitle == old(validTitle) && validLicense == old(validLicense)
    {
      validCreators := Some(RequiredValidity(creatorsStr));
    }
  }
}
