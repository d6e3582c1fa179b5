/**
 * The generic contribution wizard that hosts a skill or knowledge form given
 * as a list of steps: the flattened `stepIds` memo, the active step index it
 * derives from it, the submit gate, the identity fill, the auto-fill choice,
 * and the rule deciding which status each top-level step shows.
 */
module ContributionWizard {
  import opened Wrappers
  import opened WizardSteps
  import SessionIdentity

  /** The form data the wizard reads and writes: name and email, and the other fields by name. */
  datatype ContributionFormData = ContributionFormData(email: string, name: string, otherFields: map<string, string>)

  /** The status rule as written: `index` is the step's position in the top-level list, while
      `activeStepIndex` is a position in the flattened `stepIds`. */
  function DisplayStatusAsWritten(step: Step, index: int, activeStepIndex: int): (d: Option<StepStatus>)
    ensures index == activeStepIndex ==> d == Some(Default)
    ensures index < activeStepIndex ==> d == step.status
    ensures d == Some(Error) <==> step.status == Some(Error) && index < activeStepIndex
    ensures d == step.status || d == Some(Default)
    ensures d != step.status ==>
      d == Some(Default) && (index == activeStepIndex || (step.status == Some(Error) && index > activeStepIndex))
  {
    if index == activeStepIndex || (step.status == Some(Error) && index > activeStepIndex) then Some(Default)
    else step.status
  }

  /** No id occurs twice. */
  predicate Distinct(ids: seq<string>) {
    forall i, j :: 0 <= i < j < |ids| ==> ids[i] != ids[j]
  }

  /** A tree whose second step has two sub-steps: moving to the third step makes the active index 4
      in `stepIds`, while that step's top-level position is 2, so the step being edited shows its
      Error, which the rule meant to hide. */
  lemma {:induction false} CurrentStepShowsErrorAsWritten()
    ensures var steps := [Step("details", Some(Success), None),
                          Step("resource", Some(Success), Some([SubStep("documents", None), SubStep("attribution", None)])),
                          Step("seed-data", Some(Error), None),
                          Step("review", Some(Default), None)];
      && FlatIds(steps) == ["details", "resource", "documents", "attribution", "seed-data", "review"]
      && IndexOfElem(FlatIds(steps), "seed-data") == 4
      && DisplayStatusAsWritten(steps[2], 2, 4) == Some(Error)
  {
    var steps := [Step("details", Some(Success), None),
                  Step("resource", Some(Success), Some([SubStep("documents", None), SubStep("attribution", None)])),
                  Step("seed-data", Some(Error), None),
                  Step("review", Some(Default), None)];
    FlatIdsOfFour(steps);
    assert Block(steps[1]) == ["resource", "documents", "attribution"];
    var ids := FlatIds(steps);
    assert ids[4] == "seed-data";
    assert "seed-data" !in ids[..4];
  }

  /** The rule with both sides in `stepIds` positions: step `index` is compared through its flattened position. */
  function DisplayStatus(steps: seq<Step>, index: nat, activeStepIndex: int): (d: Option<StepStatus>)
    requires index < |steps|
    ensures FlatIndex(steps, index) == activeStepIndex ==> d == Some(Default)
    ensures FlatIndex(steps, index) < activeStepIndex ==> d == steps[index].status
    ensures d == Some(Error) <==> steps[index].status == Some(Error) && FlatIndex(steps, index) < activeStepIndex
    ensures d == steps[index].status || d == Some(Default)
    ensures d != steps[index].status ==>
      d == Some(Default)
      && (FlatIndex(steps, index) == activeStepIndex
          || (steps[index].status == Some(Error) && FlatIndex(steps, index) > activeStepIndex))
  {
    DisplayStatusAsWritten(steps[index], FlatIndex(steps, index), activeStepIndex)
  }

  lemma {:induction false} FlatIndexMonotone(steps: seq<Step>, j: nat, k: nat)
    requires j < k <= |steps|
    ensures FlatIndex(steps, j) < FlatIndex(steps, k)
  {
    assert steps[..k] == steps[..j] + steps[j..k];
    TotalSubStepsAppend(steps[..j], steps[j..k]);
  }

  /** With distinct ids, moving to step `k` makes that step show Default, every earlier step show
      its computed status, and every later step hide its error. */
  lemma {:induction false} CorrectedRuleFollowsActiveStep(steps: seq<Step>, k: nat)
    requires k < |steps|
    requires Distinct(FlatIds(steps))
    ensures var active := IndexOfElem(FlatIds(steps), steps[k].id);
      && DisplayStatus(steps, k, active) == Some(Default)
      && (forall j :: 0 <= j < k ==> DisplayStatus(steps, j, active) == steps[j].status)
      && (forall j :: k < j < |steps| ==> DisplayStatus(steps, j, active) != Some(Error))
  {
    var ids := FlatIds(steps);
    StepIdPosition(steps, k);
    var active := IndexOfElem(ids, steps[k].id);
    assert active == FlatIndex(steps, k);
    forall j | 0 <= j < k ensures DisplayStatus(steps, j, active) == steps[j].status {
      FlatIndexMonotone(steps, j, k);
    }
    forall j | k < j < |steps| ensures DisplayStatus(steps, j, active) != Some(Error) {
      FlatIndexMonotone(steps, k, j);
    }
  }

  class ContributionWizardState {
    const isGithubMode: bool
    const isSkillContribution: bool
    var steps: seq<Step>
    var stepIds: seq<string>
    var formData: ContributionFormData
    var githubUsername: string
    var submitEnabled: bool
    var activeStepIndex: int

    /** The `stepIds` memo follows `steps`. */
    predicate Valid()
      reads this
    {
      stepIds == FlatIds(steps)
    }

    constructor(steps: seq<Step>, formData: ContributionFormData, isGithubMode: bool, isSkillContribution: bool)
      ensures Valid()
      ensures this.steps == steps && this.formData == formData
      ensures this.isGithubMode == isGithubMode && this.isSkillContribution == isSkillContribution
      ensures githubUsername == "" && !submitEnabled && activeStepIndex == 0
    {
      var ids := FlattenStepIds(steps);
      this.isGithubMode := isGithubMode;
      this.isSkillContribution := isSkillContribution;
      this.steps := steps;
      stepIds := ids;
      this.formData := formData;
      githubUsername := "";
      submitEnabled := false;
      activeStepIndex := 0;
    }

    /** New steps from the hosting form: the memo is rebuilt and the submit effect runs. */
    method SetSteps(newSteps: seq<Step>)
      modifies this
      ensures Valid()
      ensures steps == newSteps
      ensures |stepIds| == |newSteps| + TotalSubSteps(newSteps)
      ensures submitEnabled <==> forall k :: 0 <= k < |newSteps| ==> newSteps[k].status != Some(Error)
      ensures formData == old(formData) && githubUsername == old(githubUsername)
      ensures activeStepIndex == old(activeStepIndex)
    {
      steps := newSteps;
      stepIds := FlattenStepIds(newSteps);
      submitEnabled := SubmitEnabled(newSteps);
    }

    /** `onStepChange`: the position of the new step's id in the flattened `stepIds`. */
    method OnStepChange(stepId: string)
      requires Valid()
      modifies this
      ensures Valid()
      ensures activeStepIndex == IndexOfElem(stepIds, stepId)
      ensures stepId in stepIds ==> stepIds[activeStepIndex] == stepId
      ensures stepId !in stepIds ==> activeStepIndex == -1
      ensures steps == old(steps) && stepIds == old(stepIds)
      ensures formData == old(formData) && githubUsername == old(githubUsername) && submitEnabled == old(submitEnabled)
    {
      activeStepIndex := IndexOfElem(stepIds, stepId);
    }

    function Identity(): SessionIdentity.Identity
      reads this
    {
      SessionIdentity.Identity(formData.name, formData.email)
    }

    /** The session effect: GitHub mode starts the user-info request when there is an access token;
        native mode fills name and email from the session. */
    method OnSessionChange(session: SessionIdentity.Session) returns (fetchStarted: bool)
      modifies this
      ensures fetchStarted == SessionIdentity.FetchesUserInfo(isGithubMode, session)
      ensures isGithubMode ==> formData == old(formData)
      ensures !isGithubMode ==> Identity() == SessionIdentity.NativeIdentity(old(Identity()), session)
      ensures formData.otherFields == old(formData.otherFields)
      ensures steps == old(steps) && stepIds == old(stepIds) && githubUsername == old(githubUsername)
      ensures submitEnabled == old(submitEnabled) && activeStepIndex == old(activeStepIndex)
    {
      fetchStarted := SessionIdentity.FetchesUserInfo(isGithubMode, session);
      if !isGithubMode {
        var filled := SessionIdentity.NativeIdentity(Identity(), session);
        formData := formData.(name := filled.name, email := filled.email);
      }
    }

    /** The end of the user-info request (`None` when it failed): unless cancelled, the login is
        recorded and name and email are overwritten. */
    method OnUserInfo(canceled: bool, response: Option<SessionIdentity.UserInfo>)
      modifies this
      ensures Identity() == SessionIdentity.GithubIdentity(old(Identity()), canceled, response)
      ensures githubUsername == (if !canceled && response.Some? then response.value.login else old(githubUsername))
      ensures formData.otherFields == old(formData.otherFields)
      ensures steps == old(steps) && stepIds == old(stepIds)
      ensures submitEnabled == old(submitEnabled) && activeStepIndex == old(activeStepIndex)
    {
      if !canceled && response.Some? {
        githubUsername := response.value.login;
        formData := formData.(name := response.value.name, email := response.value.email);
      }
    }

    /** `autoFillForm`: the skill auto-fill form for a skill contribution, the knowledge one otherwise. */
    method AutoFill(autoFillSkillsFields: ContributionFormData, autoFillKnowledgeFields: ContributionFormData)
      modifies this
      ensures isSkillContribution ==> formData == autoFillSkillsFields
      ensures !isSkillContribution ==> formData == autoFillKnowledgeFields
      ensures steps == old(steps) && stepIds == old(stepIds) && githubUsername == old(githubUsername)
      ensures submitEnabled == old(submitEnabled) && activeStepIndex == old(activeStepIndex)
    {
      formData := if isSkillContribution then autoFillSkillsFields else autoFillKnowledgeFields;
    }
  }
}
