/**
 * The details step of the knowledge wizard: the contributor editor (name and
 * email, opened with the pencil and closed with Accept or Cancel), the
 * submission summary with its character counter, and the taxonomy path.
 *
 * Name, email, summary and path belong to the wizard and reach the page as
 * values with setters; the class holds them as fields, and a setter followed
 * by the page's own synchronising effect is one method.
 */
module KnowledgeDetails {
  import opened Text
  import opened Validators

  /** The email error text before the first check (note the capital F). */
  const INITIAL_EMAIL_ERROR := "Required Field"
  const NAME_HELP := "Please provide your full name."

  /** The helper text under the path field. */
  function PathHelperText(isGithubMode: bool): (t: string)
    ensures isGithubMode ==> t == "Specify the file path for the QnA and Attribution files."
    ensures !isGithubMode ==> t == "Specify the file path for the QnA files."
  {
    "Specify the file path for the QnA" + (if isGithubMode then " and Attribution" else "") + " files."
  }

  class KnowledgeDetailsPage {
    const isGithubMode: bool
    const isEditForm: bool
    /** The wizard's values. */
    var email: string
    var name: string
    var submissionSummary: string
    var filePath: string
    /** The page's own state. */
    var editContributorOpen: bool
    var updatedEmail: string
    var updatedName: string
    var validEmail: Validated
    var validName: Validated
    var validEmailError: string
    var validDescription: Validated

    /** The local copies of name and email follow the wizard's values: the editor's inputs write the
        wizard's values directly and the page's effects copy them back. */
    predicate Synced()
      reads this
    {
      updatedEmail == email && updatedName == name
    }

    constructor(isGithubMode: bool, isEditForm: bool, email: string, name: string, submissionSummary: string, filePath: string)
      ensures Synced()
      ensures this.isGithubMode == isGithubMode && this.isEditForm == isEditForm
      ensures this.email == email && this.name == name
      ensures this.submissionSummary == submissionSummary && this.filePath == filePath
      ensures !editContributorOpen
      ensures validEmail == Default && validName == Default && validDescription == Default
      ensures validEmailError == INITIAL_EMAIL_ERROR
    {
      this.isGithubMode := isGithubMode;
      this.isEditForm := isEditForm;
      this.email := email;
      this.name := name;
      this.submissionSummary := submissionSummary;
      this.filePath := filePath;
      editContributorOpen := false;
      updatedEmail := email;
      updatedName := name;
      validEmail := Default;
      validName := Default;
      validEmailError := INITIAL_EMAIL_ERROR;
      validDescription := Default;
    }

    /** The edit-form effect: an edited contribution starts with a valid summary. */
    method OnEditForm()
      modifies this
      ensures isEditForm ==> validDescription == Success
      ensures !isEditForm ==> validDescription == old(validDescription)
      ensures email == old(email) && name == old(name) && submissionSummary == old(submissionSummary)
      ensures filePath == old(filePath) && editContributorOpen == old(editContributorOpen)
      ensures updatedEmail == old(updatedEmail) && updatedName == old(updatedName)
      ensures validEmail == old(validEmail) && validName == old(validName) && validEmailError == old(validEmailError)
    {
      if isEditForm {
        validDescription := Success;
      }
    }

    /** Typing in the email input (or any other change of the wizard's email): the wizard's value
        changes and the local copy follows it. */
    method SetEmail(value: string)
      requires Synced()
      modifies this
      ensures Synced()
      ensures email == value && updatedEmail == value
      ensures name == old(name) && submissionSummary == old(submissionSummary) && filePath == old(filePath)
      ensures editContributorOpen == old(editContributorOpen)
      ensures validEmail == old(validEmail) && validName == old(validName)
      ensures validEmailError == old(validEmailError) && validDescription == old(validDescription)
    {
      email := value;
      updatedEmail := email;
    }

    /** Typing in the name input (or any other change of the wizard's name). */
    method SetName(value: string)
      requires Synced()
      modifies this
      ensures Synced()
      ensures name == value && updatedName == value
      ensures email == old(email) && submissionSummary == old(submissionSummary) && filePath == old(filePath)
      ensures editContributorOpen == old(editContributorOpen)
      ensures validEmail == old(validEmail) && validName == old(validName)
      ensures validEmailError == old(validEmailError) && validDescription == old(validDescription)
    {
      name := value;
      updatedName := name;
    }

    /** `validateEmail`, on blur of the email input. */
    method ValidateEmail()
      modifies this
      ensures validEmail == CheckEmail(old(updatedEmail)).validity
      ensures validEmailError == CheckEmail(old(updatedEmail)).message
      ensures email == old(email) && name == old(name) && submissionSummary == old(submissionSummary)
      ensures filePath == old(filePath) && editContributorOpen == old(editContributorOpen)
      ensures updatedEmail == old(updatedEmail) && updatedName == old(updatedName)
      ensures validName == old(validName) && validDescription == old(validDescription)
    {
      var check := CheckEmail(updatedEmail);
      validEmail, validEmailError := check.validity, check.message;
    }

    /** `validateName`, on blur of the name input. */
    method ValidateName()
      modifies this
      ensures validName == Success <==> !Blank(updatedName)
      ensures validName == Error <==> Blank(updatedName)
      ensures email == old(email) && name == old(name) && submissionSummary == old(submissionSummary)
      ensures filePath == old(filePath) && editContributorOpen == old(editContributorOpen)
      ensures updatedEmail == old(updatedEmail) && updatedName == old(updatedName)
      ensures validEmail == old(validEmail) && validEmailError == old(validEmailError) && validDescription == old(validDescription)
    {
      validName := RequiredValidity(updatedName);
    }

    /** Typing in the summary input. */
    method SetSubmissionSummary(value: string)
      modifies this
      ensures submissionSummary == value
      ensures email == old(email) && name == old(name) && filePath == old(filePath)
      ensures editContributorOpen == old(editContributorOpen)
      ensures updatedEmail == old(updatedEmail) && updatedName == old(updatedName)
      ensures validEmail == old(validEmail) && validName == old(validName)
      ensures validEmailError == old(validEmailError) && validDescription == old(validDescription)
    {
      submissionSummary := value;
    }

    /** `validateDescription(submissionSummary)`, on blur of the summary input. */
    method ValidateDescription()
      modifies this
      ensures validDescription == Success <==> 0 < |Trim(submissionSummary)| <= 60
      ensures validDescription == Error <==> !(0 < |Trim(submissionSummary)| <= 60)
      ensures email == old(email) && name == old(name) && submissionSummary == old(submissionSummary)
      ensures filePath == old(filePath) && editContributorOpen == old(editContributorOpen)
      ensures updatedEmail == old(updatedEmail) && updatedName == old(updatedName)
      ensures validEmail == old(validEmail) && validName == old(validName) && validEmailError == old(validEmailError)
    {
      validDescription := KnowledgeSummaryValidity(submissionSummary);
    }

    /** The counter under the summary: 60 minus the trimmed length. */
    function CharactersRemaining(): (n: int)
      reads this
      ensures n == 60 - |Trim(submissionSummary)|
      ensures n >= 0 <==> |Trim(submissionSummary)| <= 60
    {
      SummaryCharactersRemaining(submissionSummary)
    }

    /** The email error is displayed only when the email check failed. */
    function EmailErrorShown(): (r: bool)
      reads this
      ensures r <==> validEmail == Error
    {
      validEmail == Error
    }

    /** The name helper shows "Required field" when the name check failed, the hint otherwise. */
    function NameHelper(): (t: string)
      reads this
      ensures validName == Error ==> t == REQUIRED_FIELD
      ensures validName != Error ==> t == NAME_HELP
    {
      if validName == Error then REQUIRED_FIELD else NAME_HELP
    }

    /** The pencil opens the contributor editor. */
    method OpenEditor()
      modifies this
      ensures editContributorOpen
      ensures email == old(email) && name == old(name) && submissionSummary == old(submissionSummary)
      ensures filePath == old(filePath) && updatedEmail == old(updatedEmail) && updatedName == old(updatedName)
      ensures validEmail == old(validEmail) && validName == old(validName)
      ensures validEmailError == old(validEmailError) && validDescription == old(validDescription)
    {
      editContributorOpen := true;
    }

    /** Accept is disabled while the name or the email check has failed. */
    function AcceptDisabled(): (r: bool)
      reads this
      ensures r <==> validName == Error || validEmail == Error
      ensures validName == Success && validEmail == Success ==> !r
    {
      validName == Error || validEmail == Error
    }

    /** Accept, when enabled: the local copies are committed and the editor closes. */
    method Accept() returns (accepted: bool)
      requires Synced()
      modifies this
      ensures Synced()
      ensures accepted <==> !old(AcceptDisabled())
      ensures accepted ==> email == old(updatedEmail) && name == old(updatedName) && !editContributorOpen
      ensures !accepted ==> email == old(email) && name == old(name) && editContributorOpen == old(editContributorOpen)
      ensures submissionSummary == old(submissionSummary) && filePath == old(filePath)
      ensures validEmail == old(validEmail) && validName == old(validName)
      ensures validEmailError == old(validEmailError) && validDescription == old(validDescription)
    {
      accepted := !AcceptDisabled();
      if accepted {
        email := updatedEmail;
        name := updatedName;
        editContributorOpen := false;
      }
    }

    /** Cancel: the local copies are reset from the wizard's values and the editor closes. Since typing
        already wrote the wizard's values, Cancel leaves name and email as typed. */
    method Cancel()
      requires Synced()
      modifies this
      ensures Synced()
      ensures updatedEmail == old(email) && updatedName == old(name) && !editContributorOpen
      ensures email == old(email) && name == old(name) && updatedEmail == old(updatedEmail) && updatedName == old(updatedName)
      ensures submissionSummary == old(submissionSummary) && filePath == old(filePath)
      ensures validEmail == old(validEmail) && validName == old(validName)
      ensures validEmailError == old(validEmailError) && validDescription == old(validDescription)
    {
      updatedEmail := email;
      updatedName := name;
      editContributorOpen := false;
    }

    /** The path field hands its value to the wizard. */
    method SetFilePath(value: string)
      modifies this
      ensures filePath == value
      ensures email == old(email) && name == old(name) && submissionSummary == old(submissionSummary)
      ensures editContributorOpen == old(editContributorOpen)
      ensures updatedEmail == old(updatedEmail) && updatedName == old(updatedName)
      ensures validEmail == old(validEmail) && validName == old(validName)
      ensures validEmailError == old(validEmailError) && validDescription == old(validDescription)
    {
      filePath := value;
    }
  }
}
