/**
 * The knowledge contribution wizard: its fixed step order, the step tree it
 * builds from the form data (GitHub mode nests the document step under
 * "resource-documentation" with an attribution step beside it; native mode
 * shows the document step at the top level), the two display rules for step
 * statuses, and the wizard state its handlers and effects update.
 *
 * The three step validity checks live in a module that is not part of this
 * model; they are passed in as `FormChecks`. So are `addDocumentInfoToKnowledgeFormData`,
 * `addYamlUploadKnowledge`, `createEmptySeedExample` and the auto-fill form.
 */
module KnowledgeWizard {
  import opened Wrappers
  import opened WizardSteps
  import opened KnowledgeForm
  import SessionIdentity

  /** `STEP_IDS`. */
  const STEP_IDS: seq<string> := [
    "details", "resource-documentation", "uploaded-documents", "attributions",
    "seed-data", "seed-context", "question-answer-pairs", "review"]

  /** `getStepIndex`: the position of `stepId` in `STEP_IDS`, -1 for an unknown id. */
  function GetStepIndex(stepId: string): (r: int)
    ensures -1 <= r < |STEP_IDS|
    ensures r == -1 <==> stepId !in STEP_IDS
    ensures r >= 0 ==> STEP_IDS[r] == stepId
  {
    IndexOfElem(STEP_IDS, stepId)
  }

  /** Each known id maps back to its own position. */
  lemma {:induction false} GetStepIndexOfEachId()
    ensures forall k :: 0 <= k < |STEP_IDS| ==> GetStepIndex(STEP_IDS[k]) == k
  {
    StepIdsDistinct();
    forall k | 0 <= k < |STEP_IDS| ensures GetStepIndex(STEP_IDS[k]) == k {
      var r := GetStepIndex(STEP_IDS[k]);
      assert STEP_IDS[r] == STEP_IDS[k];
    }
  }

  /** No id occurs twice in `STEP_IDS`: the lengths differ, except for two ids that differ in their first letter. */
  lemma {:induction false} StepIdsDistinct()
    ensures forall i, j :: 0 <= i < j < |STEP_IDS| ==> STEP_IDS[i] != STEP_IDS[j]
  {
    var lengths := [7, 22, 18, 12, 9, 12, 21, 6];
    assert forall i :: 0 <= i < |STEP_IDS| ==> |STEP_IDS[i]| == lengths[i];
    assert STEP_IDS[3][0] != STEP_IDS[5][0];
  }

  /** `isKnowledgeDetailsValid`, `isDocumentInfoValid` and `isSeedExamplesValid`. */
  datatype FormChecks = FormChecks(
    isKnowledgeDetailsValid: KnowledgeFormData -> bool,
    isDocumentInfoValid: KnowledgeFormData -> bool,
    isSeedExamplesValid: KnowledgeFormData -> bool)

  function Verdict(ok: bool): StepStatus {
    if ok then Success else Error
  }

  /** The `steps` memo: details, the document step (nested in GitHub mode), seed data with its
      two sub-steps, review. The resource-documentation parent and the attribution step carry no status. */
  function BuildSteps(form: KnowledgeFormData, isGithubMode: bool, checks: FormChecks): (steps: seq<Step>)
    ensures |steps| == 4
  {
    var documentStatus := Some(Verdict(checks.isDocumentInfoValid(form)));
    var seedStatus := Some(Verdict(checks.isSeedExamplesValid(form)));
    [Step(STEP_IDS[0], Some(Verdict(checks.isKnowledgeDetailsValid(form))), None)]
    + (if isGithubMode
       then [Step(STEP_IDS[1], None, Some([SubStep(STEP_IDS[2], documentStatus), SubStep(STEP_IDS[3], None)]))]
       else [Step(STEP_IDS[2], documentStatus, None)])
    + [Step(STEP_IDS[4], seedStatus, Some([SubStep(STEP_IDS[5], seedStatus), SubStep(STEP_IDS[6], seedStatus)])),
       Step(STEP_IDS[7], Some(Default), None)]
  }

  /** Which steps exist in GitHub mode: the step ids flatten to exactly `STEP_IDS`. */
  lemma {:induction false} GithubStepTree(form: KnowledgeFormData, checks: FormChecks)
    ensures FlatIds(BuildSteps(form, true, checks)) == STEP_IDS
  {
    var steps := BuildSteps(form, true, checks);
    FlatIdsOfFour(steps);
    assert Block(steps[1]) == STEP_IDS[1..4];
    assert Block(steps[2]) == STEP_IDS[4..7];
  }

  /** Which steps exist in native mode: uploaded-documents is a top-level step, and the
      resource-documentation and attribution steps are missing. */
  lemma {:induction false} NativeStepTree(form: KnowledgeFormData, checks: FormChecks)
    ensures FlatIds(BuildSteps(form, false, checks))
         == ["details", "uploaded-documents", "seed-data", "seed-context", "question-answer-pairs", "review"]
    ensures BuildSteps(form, false, checks)[1].subSteps.None?
  {
    var steps := BuildSteps(form, false, checks);
    FlatIdsOfFour(steps);
    assert Block(steps[1]) == ["uploaded-documents"];
    assert Block(steps[2]) == STEP_IDS[4..7];
  }

  /** Seed data and both of its sub-steps carry the same status, Success iff the seed examples are
      valid; review is always Default. */
  lemma {:induction false} SeedStatusesAgree(form: KnowledgeFormData, isGithubMode: bool, checks: FormChecks)
    ensures var steps := BuildSteps(form, isGithubMode, checks);
      && steps[2].id == "seed-data" && steps[3].id == "review"
      && steps[2].status == Some(if checks.isSeedExamplesValid(form) then Success else Error)
      && |Children(steps[2])| == 2
      && Children(steps[2])[0].status == steps[2].status
      && Children(steps[2])[1].status == steps[2].status
      && steps[3].status == Some(Default)
  {
  }

  /** The submit gate over this tree: details and seed examples must be valid, and the documents
      only in native mode, because in GitHub mode the document step is a sub-step. */
  lemma {:induction false} SubmitGateByMode(form: KnowledgeFormData, isGithubMode: bool, checks: FormChecks)
    ensures SubmitEnabled(BuildSteps(form, isGithubMode, checks)) <==>
      && checks.isKnowledgeDetailsValid(form)
      && checks.isSeedExamplesValid(form)
      && (isGithubMode || checks.isDocumentInfoValid(form))
  {
    var steps := BuildSteps(form, isGithubMode, checks);
    if !checks.isKnowledgeDetailsValid(form) {
      assert steps[0].status == Some(Error);
    }
    if !checks.isSeedExamplesValid(form) {
      assert steps[2].status == Some(Error);
    }
    if !isGithubMode && !checks.isDocumentInfoValid(form) {
      assert steps[1].status == Some(Error);
    }
  }

  /** In GitHub mode invalid documents do not block submission, although their sub-step is in error. */
  lemma {:induction false} GithubDocumentErrorDoesNotBlockSubmit(form: KnowledgeFormData, checks: FormChecks)
    requires checks.isKnowledgeDetailsValid(form) && checks.isSeedExamplesValid(form)
    requires !checks.isDocumentInfoValid(form)
    ensures Children(BuildSteps(form, true, checks)[1])[0].status == Some(Error)
    ensures SubmitEnabled(BuildSteps(form, true, checks))
  {
    SubmitGateByMode(form, true, checks);
  }

  /** The status a top-level step shows: its computed status once the wizard is past it,
      Default while it is current or ahead, whatever it computed. */
  function TopDisplayStatus(step: Step, activeStepIndex: int): (d: Option<StepStatus>)
    ensures d == Some(Error) <==> step.status == Some(Error) && GetStepIndex(step.id) < activeStepIndex
    ensures d == Some(Success) <==> step.status == Some(Success) && GetStepIndex(step.id) < activeStepIndex
    ensures d.None? <==> step.status.None? && GetStepIndex(step.id) < activeStepIndex
  {
    if GetStepIndex(step.id) < activeStepIndex then step.status else Some(Default)
  }

  /** The status a sub-step shows: an error is hidden while the sub-step is current or ahead;
      any other computed status shows wherever the sub-step is. */
  function SubDisplayStatus(subStep: SubStep, activeStepIndex: int): (d: Option<StepStatus>)
    ensures d == Some(Error) <==> subStep.status == Some(Error) && GetStepIndex(subStep.id) < activeStepIndex
    ensures d == Some(Success) <==> subStep.status == Some(Success)
    ensures d == subStep.status || (subStep.status == Some(Error) && d == Some(Default))
  {
    if subStep.status == Some(Error) && GetStepIndex(subStep.id) >= activeStepIndex then Some(Default)
    else subStep.status
  }

  /** The two rules disagree on success ahead of the active step: with valid seed examples and the
      wizard on its first step, the seed-data step shows Default while its sub-steps show Success. */
  lemma {:induction false} DisplayRulesDisagreeAhead(form: KnowledgeFormData, isGithubMode: bool, checks: FormChecks)
    requires checks.isSeedExamplesValid(form)
    ensures var seed := BuildSteps(form, isGithubMode, checks)[2];
      && TopDisplayStatus(seed, 0) == Some(Default)
      && SubDisplayStatus(Children(seed)[0], 0) == Some(Success)
      && SubDisplayStatus(Children(seed)[1], 0) == Some(Success)
  {
    SeedDataIndex();
  }

  /** The seed-data step is the fifth. */
  lemma {:induction false} SeedDataIndex()
    ensures GetStepIndex("seed-data") == 4
  {
    GetStepIndexOfEachId();
    assert STEP_IDS[4] == "seed-data";
  }

  /** An alert raised by the wizard. */
  datatype AlertContent = AlertContent(title: string, message: string, success: bool)

  const INVALID_SELECTION_ALERT := AlertContent("Invalid Selection", "All documents must be from the same commit SHA.", false)
  const YAML_UPLOADED_ALERT :=
    AlertContent("YAML Uploaded Successfully", "Your knowledge form has been populated based on the uploaded YAML file.", true)
  const AUTO_FILL_REPOSITORY := "~/.instructlab-ui/taxonomy-knowledge-docs"

  /** The guard of `addDocumentInfoHandler`: while no commit is recorded every document is accepted;
      once one is, the guard lets through documents of that commit and of no other. */
  predicate AcceptsCommit(recordedCommit: string, commitSha: string): (r: bool)
    ensures recordedCommit == "" ==> r
    ensures commitSha == recordedCommit ==> r
    ensures recordedCommit != "" && commitSha != recordedCommit ==> !r
  {
    recordedCommit == "" || commitSha == recordedCommit
  }

  /** The data of a contribution being edited. */
  datatype KnowledgeEditFormData = KnowledgeEditFormData(isEditForm: bool, knowledgeFormData: KnowledgeFormData)

  class KnowledgeWizardState {
    const isGithubMode: bool
    const knowledgeEditFormData: Option<KnowledgeEditFormData>
    const defaultFormData: KnowledgeFormData
    var knowledgeFormData: KnowledgeFormData
    var githubUsername: string
    var actionGroupAlertContent: Option<AlertContent>
    var submitEnabled: bool
    var activeStepIndex: int

    /** The initial state: the edit data as given, else the default form; no alert, submit closed,
        active index 0. `emptySeed` is what `createEmptySeedExample()` returns. */
    constructor(isGithubMode: bool, knowledgeEditFormData: Option<KnowledgeEditFormData>, emptySeed: KnowledgeSeedExample)
      ensures this.isGithubMode == isGithubMode && this.knowledgeEditFormData == knowledgeEditFormData
      ensures defaultFormData == DefaultKnowledgeFormData(emptySeed)
      ensures knowledgeFormData == (if knowledgeEditFormData.Some? then knowledgeEditFormData.value.knowledgeFormData else defaultFormData)
      ensures githubUsername == "" && actionGroupAlertContent.None?
      ensures !submitEnabled && activeStepIndex == 0
    {
      this.isGithubMode := isGithubMode;
      this.knowledgeEditFormData := knowledgeEditFormData;
      defaultFormData := DefaultKnowledgeFormData(emptySeed);
      knowledgeFormData :=
        if knowledgeEditFormData.Some? then knowledgeEditFormData.value.knowledgeFormData else DefaultKnowledgeFormData(emptySeed);
      githubUsername := "";
      actionGroupAlertContent := None;
      submitEnabled := false;
      activeStepIndex := 0;
    }

    function Identity(): SessionIdentity.Identity
      reads this
    {
      SessionIdentity.Identity(knowledgeFormData.name, knowledgeFormData.email)
    }

    /** The session effect. GitHub mode only starts the user-info request (when there is an access
        token); native mode fills name and email from the session. */
    method OnSessionChange(session: SessionIdentity.Session) returns (fetchStarted: bool)
      modifies this
      ensures fetchStarted == SessionIdentity.FetchesUserInfo(isGithubMode, session)
      ensures isGithubMode ==> knowledgeFormData == old(knowledgeFormData)
      ensures !isGithubMode ==> Identity() == SessionIdentity.NativeIdentity(old(Identity()), session)
      ensures knowledgeFormData == old(knowledgeFormData).(name := knowledgeFormData.name, email := knowledgeFormData.email)
      ensures githubUsername == old(githubUsername) && actionGroupAlertContent == old(actionGroupAlertContent)
      ensures submitEnabled == old(submitEnabled) && activeStepIndex == old(activeStepIndex)
    {
      fetchStarted := SessionIdentity.FetchesUserInfo(isGithubMode, session);
      if !isGithubMode {
        var filled := SessionIdentity.NativeIdentity(Identity(), session);
        knowledgeFormData := knowledgeFormData.(name := filled.name, email := filled.email);
      }
    }

    /** The end of the user-info request: `response` is `None` when it failed. A response that
        arrives before cancellation records the login and overwrites name and email. */
    method OnUserInfo(canceled: bool, response: Option<SessionIdentity.UserInfo>)
      modifies this
      ensures Identity() == SessionIdentity.GithubIdentity(old(Identity()), canceled, response)
      ensures githubUsername == (if !canceled && response.Some? then response.value.login else old(githubUsername))
      ensures knowledgeFormData == old(knowledgeFormData).(name := knowledgeFormData.name, email := knowledgeFormData.email)
      ensures actionGroupAlertContent == old(actionGroupAlertContent)
      ensures submitEnabled == old(submitEnabled) && activeStepIndex == old(activeStepIndex)
    {
      if !canceled && response.Some? {
        githubUsername := response.value.login;
        knowledgeFormData := knowledgeFormData.(name := response.value.name, email := response.value.email);
      }
    }

    /** The edit-data effect: the edit form's data, back-filled. */
    method LoadEditData()
      modifies this
      ensures knowledgeEditFormData.Some? ==> knowledgeFormData == BackFillForm(knowledgeEditFormData.value.knowledgeFormData)
      ensures knowledgeEditFormData.None? ==> knowledgeFormData == old(knowledgeFormData)
      ensures FormComplete(knowledgeFormData) || knowledgeEditFormData.None?
      ensures githubUsername == old(githubUsername) && actionGroupAlertContent == old(actionGroupAlertContent)
      ensures submitEnabled == old(submitEnabled) && activeStepIndex == old(activeStepIndex)
    {
      if knowledgeEditFormData.Some? {
        knowledgeFormData := BackFillForm(knowledgeEditFormData.value.knowledgeFormData);
        BackFillCompletes(knowledgeEditFormData.value.knowledgeFormData);
      }
    }

    /** `addDocumentInfoHandler`: a document from another commit than the recorded one raises the
        "Invalid Selection" alert and changes no form data; otherwise the document is added once. */
    method AddDocumentInfo(repoUrl: string, commitSha: string, docName: string,
                           addDocumentInfoToKnowledgeFormData: (KnowledgeFormData, string, string, string) -> KnowledgeFormData)
      returns (accepted: bool)
      modifies this
      ensures accepted == AcceptsCommit(old(knowledgeFormData.knowledgeDocumentCommit), commitSha)
      ensures accepted ==> knowledgeFormData == addDocumentInfoToKnowledgeFormData(old(knowledgeFormData), repoUrl, commitSha, docName)
      ensures accepted ==> actionGroupAlertContent == old(actionGroupAlertContent)
      ensures !accepted ==> knowledgeFormData == old(knowledgeFormData) && actionGroupAlertContent == Some(INVALID_SELECTION_ALERT)
      ensures githubUsername == old(githubUsername)
      ensures submitEnabled == old(submitEnabled) && activeStepIndex == old(activeStepIndex)
    {
      if knowledgeFormData.knowledgeDocumentCommit != "" && commitSha != knowledgeFormData.knowledgeDocumentCommit {
        actionGroupAlertContent := Some(INVALID_SELECTION_ALERT);
        return false;
      }
      knowledgeFormData := addDocumentInfoToKnowledgeFormData(knowledgeFormData, repoUrl, commitSha, docName);
      return true;
    }

    method CloseAlert()
      modifies this
      ensures actionGroupAlertContent.None?
      ensures knowledgeFormData == old(knowledgeFormData) && githubUsername == old(githubUsername)
      ensures submitEnabled == old(submitEnabled) && activeStepIndex == old(activeStepIndex)
    {
      actionGroupAlertContent := None;
    }

    /** `autoFillForm`: the auto-fill form with its repository pointed at the local documents directory. */
    method AutoFill(autoFillKnowledgeFields: KnowledgeFormData)
      modifies this
      ensures knowledgeFormData == autoFillKnowledgeFields.(knowledgeDocumentRepositoryUrl := AUTO_FILL_REPOSITORY)
      ensures githubUsername == old(githubUsername) && actionGroupAlertContent == old(actionGroupAlertContent)
      ensures submitEnabled == old(submitEnabled) && activeStepIndex == old(activeStepIndex)
    {
      knowledgeFormData := autoFillKnowledgeFields.(knowledgeDocumentRepositoryUrl := AUTO_FILL_REPOSITORY);
    }

    /** `onYamlUploadKnowledgeFillForm`: merge the uploaded YAML and announce it. */
    method OnYamlUpload<Y>(data: Y, addYamlUploadKnowledge: (KnowledgeFormData, Y) -> KnowledgeFormData)
      modifies this
      ensures knowledgeFormData == addYamlUploadKnowledge(old(knowledgeFormData), data)
      ensures actionGroupAlertContent == Some(YAML_UPLOADED_ALERT)
      ensures githubUsername == old(githubUsername)
      ensures submitEnabled == old(submitEnabled) && activeStepIndex == old(activeStepIndex)
    {
      knowledgeFormData := addYamlUploadKnowledge(knowledgeFormData, data);
      actionGroupAlertContent := Some(YAML_UPLOADED_ALERT);
    }

    /** The effect on `steps`: submission opens iff no top-level step is in error. */
    method RefreshSubmitEnabled(checks: FormChecks)
      modifies this
      ensures submitEnabled <==>
        && checks.isKnowledgeDetailsValid(knowledgeFormData)
        && checks.isSeedExamplesValid(knowledgeFormData)
        && (isGithubMode || checks.isDocumentInfoValid(knowledgeFormData))
      ensures knowledgeFormData == old(knowledgeFormData) && githubUsername == old(githubUsername)
      ensures actionGroupAlertContent == old(actionGroupAlertContent) && activeStepIndex == old(activeStepIndex)
    {
      submitEnabled := SubmitEnabled(BuildSteps(knowledgeFormData, isGithubMode, checks));
      SubmitGateByMode(knowledgeFormData, isGithubMode, checks);
    }

    /** `onStepChange`: the new step's position in `STEP_IDS`. */
    method OnStepChange(stepId: string)
      modifies this
      ensures activeStepIndex == GetStepIndex(stepId)
      ensures knowledgeFormData == old(knowledgeFormData) && githubUsername == old(githubUsername)
      ensures actionGroupAlertContent == old(actionGroupAlertContent) && submitEnabled == old(submitEnabled)
    {
      activeStepIndex := GetStepIndex(stepId);
    }

    /** `handleSubmit`, given whether the submit or update request succeeded and the last alert the
        request helper raised through `setActionGroupAlertContent` (`None` when it raised none). An edit
        returns false and keeps the form; a successful new contribution resets the form to the default. */
    method HandleSubmit(succeeded: bool, helperAlert: Option<AlertContent>) returns (result: bool)
      modifies this
      ensures knowledgeEditFormData.Some? ==> !result && knowledgeFormData == old(knowledgeFormData)
      ensures knowledgeEditFormData.None? ==> result == succeeded
      ensures knowledgeEditFormData.None? && succeeded ==> knowledgeFormData == defaultFormData
      ensures knowledgeEditFormData.None? && !succeeded ==> knowledgeFormData == old(knowledgeFormData)
      ensures helperAlert.Some? ==> actionGroupAlertContent == helperAlert
      ensures helperAlert.None? ==> actionGroupAlertContent == old(actionGroupAlertContent)
      ensures githubUsername == old(githubUsername)
      ensures submitEnabled == old(submitEnabled) && activeStepIndex == old(activeStepIndex)
    {
      if helperAlert.Some? {
        actionGroupAlertContent := helperAlert;
      }
      if knowledgeEditFormData.Some? {
        return false;
      }
      if succeeded {
        knowledgeFormData := defaultFormData;
      }
      return succeeded;
    }
  }
}
