# Contribution wizard state

This project is a Dafny model of the state logic behind the contribution wizards of the InstructLab UI.
That UI is a React front end in which contributors assemble a knowledge or a skill submission step by step.

The model covers:

- **The step engine.** This is the fixed step order of the knowledge wizard and the step tree it builds in GitHub and native mode. It includes the flattened `stepIds` order of the generic wizard and the two rules deciding which status a step shows. It also includes the submit gate, the single-commit guard on added documents, the back-fill of defaults when edit data is loaded, and how name and email come from the login session.
- **The field validators.** These are the email pattern, the non-blank checks, the two summary-length checks, the outline check and the three-way repository check. Each component's handlers and reset and edit-form effects write the outcomes into validity fields.
- **The two "select context" modals.** The model covers recording a highlighted passage only when it lies inside the document, re-applying the previous one otherwise, and clearing on a plain mouse-down. It covers restoring a passage at its first occurrence and counting words. It also covers grouping knowledge files by commit, the first commit date per commit, which commits can be selected, and the calls that hand a passage back to the seed-example editor.

Components that update state through React hooks are classes:

- every `useState` value is a field;
- the constructor gives the initial values;
- every handler or effect is a method that states the whole new state.

Values owned by a parent component and passed down with a setter are fields of the child's class too. A setter that the child follows with its own synchronising effect is one method. Pure expressions are functions on datatypes.

Loops stay loops:

- the `stepIds` reduce: `WizardSteps.FlattenStepIds`;
- the `groupedFiles` reduce: `FilePickerModal.GroupFiles`;
- the `commitDateMap` `forEach`: `FilePickerModal.CommitDateMap`;
- the `selectionchange` visit over expanded files: `FilePickerModal.KnowledgeFilePicker.HandleSelectionChange`;
- the file-read loop of the upload: `DocumentInformation.DocumentInformationStep.ReadFiles`.

Each of these is proved against a recursive reference definition, and that definition's properties are proved as lemmas.

The helpers the components import from modules that are not part of this model have no behaviour here. They are passed in as parameters:

- `isKnowledgeDetailsValid`, `isDocumentInfoValid` and `isSeedExamplesValid` (`KnowledgeWizard.FormChecks`);
- `addDocumentInfoToKnowledgeFormData`, `addYamlUploadKnowledge`, `createEmptySeedExample` and the auto-fill field sets;
- `getWordCount` and `MAX_CONTEXT_WORDS`;
- the outcome of `new URL(...)` (`parsesAsUrl`).

Network answers, file reads and browser selections are inputs too.

JavaScript semantics are written out where they matter:

- truthiness of optional strings and `||` (`Wrappers.Truthy`, `Wrappers.OrElse`);
- `trim` with the full JavaScript whitespace set;
- `split(/\s+/)` followed by a filter of empty fields;
- `indexOf`;
- the `maxLength` cap of a text input;
- the rendering of an unset environment variable inside a template literal, which gives "undefined".

The model follows the code in these places, where its behaviour differs from what its help texts, log messages or names suggest:

- In GitHub mode the knowledge wizard's submit gate ignores an invalid document step, because that step is a sub-step there.
- The GitHub identity fill overwrites name and email whatever the user typed.
- The knowledge summary help text says "less than 60 characters", but the check accepts exactly 60.
- Cancel in the contributor editor of the details page cannot undo typing. The inputs write the wizard's values directly, and the page's effects copy them back into the local copies that Cancel restores from.
- In the document step, Continue in the data-loss modal clears the provenance fields when leaving manual entry. When leaving file upload it drops only the chosen files, whatever its log message says. Nothing in the component ever opens that modal: `isModalOpen` is only ever set to false.
- Both wizards render with `startIndex={1}` while `activeStepIndex` starts at 0. The model keeps the state's 0.

Three defects are listed under "## Findings". Each has a definition of the code as written and a corrected one. The component classes use the corrected definitions; "## Left out" names the two class members where this differs from the code.

## Model

| member | source | states |
|---|---|---|
| Wrappers.OrElse | src/components/Contribute/Knowledge/SeedExamples/KnowledgeFileSelectModal.tsx:82 | `a \|\| b` on an optional string gives the first operand exactly when it is defined and non-empty, and the fallback otherwise |
| Wrappers.IndexOfElem | src/components/Contribute/ContributionWizard/ContributionWizard.tsx:186 | `indexOf` on a list is -1 exactly when the element is absent, and otherwise the first position holding it |
| Text.TrimStartSplits | src/components/Contribute/AuthorInformation.tsx:23 | removes a blank prefix, and what remains is a suffix that does not start with whitespace |
| Text.TrimEndSplits | src/components/Contribute/AuthorInformation.tsx:23 | removes a blank suffix, and what remains is a prefix that does not end with whitespace |
| Text.Trim | src/components/Contribute/AuthorInformation.tsx:23 | `trim()` is no longer than its input, has no whitespace at either end, and is empty exactly when the input is blank |
| Text.SplitWs | src/components/Contribute/Knowledge/SeedExamples/QuestionAnswerPairs.tsx:64 | `split(/\s+/)` always yields at least one field |
| Text.NonEmptyKeepsFields | src/components/Contribute/Knowledge/SeedExamples/QuestionAnswerPairs.tsx:64 | `filter(Boolean)` keeps only non-empty fields of the list and never adds any |
| Text.WordsAreRuns | src/components/Contribute/Knowledge/SeedExamples/QuestionAnswerPairs.tsx:64 | every word is a non-empty run of non-whitespace characters |
| Text.WordsSkipSpaces | src/components/Contribute/Knowledge/SeedExamples/QuestionAnswerPairs.tsx:64 | leading whitespace does not change the words |
| Text.WordsAppendBlank | src/components/Contribute/Knowledge/SeedExamples/QuestionAnswerPairs.tsx:64 | trailing whitespace does not change the words |
| Text.WordsOfTrim | src/components/Contribute/Knowledge/SeedExamples/QuestionAnswerPairs.tsx:64 | trimming does not change the words |
| Text.SplitFilterIsWords | src/components/Contribute/Knowledge/SeedExamples/QuestionAnswerPairs.tsx:64 | splitting on whitespace runs and dropping empty fields yields exactly the words, in order |
| Text.WordsEmptyIffBlank | src/components/Contribute/Knowledge/SeedExamples/QuestionAnswerPairs.tsx:64 | a text has no words exactly when it is blank |
| Text.CountWords | src/components/Contribute/Knowledge/SeedExamples/QuestionAnswerPairs.tsx:63-65 | `countWords` (trim, split on whitespace runs, drop empty fields, take the length) is the number of words of the text |
| Text.CountWordsZeroIffBlank | src/components/Contribute/Knowledge/SeedExamples/QuestionAnswerPairs.tsx:63-65 | `countWords` is 0 exactly when the text is empty or blank |
| Text.IndexOfFrom | src/components/Contribute/Knowledge/KnowledgeSeedExamples/KnowledgeFileSelectModal.tsx:89 | `indexOf(t, i)` is the first offset at or after `i` where `t` stands, or -1 when there is none |
| Text.IndexOf | src/components/Contribute/Knowledge/KnowledgeSeedExamples/KnowledgeFileSelectModal.tsx:89 | `indexOf(t)` is -1 exactly when `t` stands nowhere, and otherwise the first offset where it stands |
| Text.CapInput | src/components/Contribute/Knowledge/SeedExamples/QuestionAnswerPairs.tsx:130 | the value a `maxLength` input ends with when text is appended at the end of a value within the cap: a prefix of the value with the text appended, at most the cap long, and all of it when it fits |
| Text.InsertCapped | src/components/Contribute/Knowledge/SeedExamples/QuestionAnswerPairs.tsx:130 | the input's own rule for an insertion at any offset: the value never grows past the cap, a value at or over the cap is kept, the text around the insertion point is kept, and what goes in is a prefix of the inserted text, all of it when it fits |
| Text.AppendAtEndIsCapInput | src/components/Contribute/Knowledge/SeedExamples/QuestionAnswerPairs.tsx:130 | for a value within the cap, inserting at the end equals `CapInput` of the value with the text appended |
| Text.InsertCappedDiffersElsewhere | src/components/Contribute/Knowledge/SeedExamples/QuestionAnswerPairs.tsx:130 | inserting at the start, or into a value already over the cap, differs from `CapInput` of the attempted value |
| EmailPattern.Matches | src/components/Contribute/AuthorInformation.tsx:24-25 | the scan `/\S+@\S+\.\S+/.test` succeeds only on strings of at least five characters, one for each run, the '@' and the '.' |
| EmailPattern.MatchesIffShaped | src/components/Contribute/AuthorInformation.tsx:24-25 | the scan succeeds exactly when `/\S+@\S+\.\S+/` has a match somewhere in the string |
| EmailPattern.MatchHasAtThenDot | src/components/Contribute/AuthorInformation.tsx:24-25 | a matching string has an '@' that is not first, followed later by a '.' that is not last |
| EmailPattern.MatchesInContext | src/components/Contribute/AuthorInformation.tsx:24-25 | the pattern is unanchored: any text around a matching string still matches |
| EmailPattern.ExampleMatches | src/components/Contribute/AuthorInformation.tsx:24-25 | "a@b.c" matches; "a@b", "a @b.c" and "@b.c" do not |
| Validators.RequiredValidity | src/components/Contribute/AuthorInformation.tsx:36-44 | Success exactly when the value is non-blank, Error exactly when it is blank |
| Validators.CheckEmail | src/components/Contribute/AuthorInformation.tsx:22-34 | the outcome is Success or Error, and the message is empty exactly on Success |
| Validators.CheckEmailMeaning | src/components/Contribute/AuthorInformation.tsx:22-34 | Success exactly when the trimmed value matches the pattern. Otherwise Error, with "Required field" for a blank value and "Please enter a valid email address." for any other |
| Validators.BlankEmailIsRequired | src/components/Contribute/AuthorInformation.tsx:30 | a blank email always fails with "Required field" |
| Validators.RepoValidity | src/components/Contribute/Knowledge/DocumentInformation/DocumentInformation.tsx:80-94 | Error exactly when blank; Success exactly when non-blank and the trimmed value parses as a URL; Warning exactly when non-blank and it does not; never Default |
| Validators.KnowledgeSummaryValidity | src/components/Contribute/Knowledge/KnowledgeDetailsPage/KnowledgeDetailsPage.tsx:85-88 | Success exactly when the trimmed summary has 1 to 60 characters |
| Validators.SummaryCharactersRemaining | src/components/Contribute/Knowledge/KnowledgeDetailsPage/KnowledgeDetailsPage.tsx:229 | the counter is at most 60 and is non-negative exactly when the trimmed summary fits in 60 characters |
| Validators.SkillSummaryValidity | src/components/Contribute/Skill/SkillsInformation/SkillsInformation.tsx:30-37 | Success exactly when the untrimmed summary has 1 to 59 characters |
| Validators.OutlineValidity | src/components/Contribute/Skill/SkillsInformation/SkillsInformation.tsx:39-46 | Success exactly when the untrimmed outline has more than 40 characters |
| Validators.SummaryChecksDisagree | src/components/Contribute/Skill/SkillsInformation/SkillsInformation.tsx:30-37 | a 60-character summary without surrounding whitespace passes the knowledge check and fails the skill check |
| Validators.BlankSkillSummaryPasses | src/components/Contribute/Skill/SkillsInformation/SkillsInformation.tsx:31 | a single space passes the skill summary check and fails the knowledge one |
| WizardSteps.SubIds | src/components/Contribute/ContributionWizard/ContributionWizard.tsx:82 | the sub-step ids, one per sub-step, in order |
| WizardSteps.FlattenStepIds | src/components/Contribute/ContributionWizard/ContributionWizard.tsx:77-87 | the reduce builds exactly the reference flattening, whose length is the number of steps plus the number of sub-steps |
| WizardSteps.FlatIdsLength | src/components/Contribute/ContributionWizard/ContributionWizard.tsx:77-87 | the flattened ids number the steps plus their sub-steps |
| WizardSteps.StepIdPosition | src/components/Contribute/ContributionWizard/ContributionWizard.tsx:79-85 | in `stepIds`, top-level step `k` stands at position `k` plus the number of sub-steps before it |
| WizardSteps.SubStepIdPositions | src/components/Contribute/ContributionWizard/ContributionWizard.tsx:79-85 | in `stepIds`, the entries right after step `k`'s id are exactly its sub-steps' ids, in order |
| WizardSteps.FindError | src/components/Contribute/ContributionWizard/ContributionWizard.tsx:148 | `find` returns a listed step whose status is Error, and nothing exactly when no top-level step is in error |
| WizardSteps.FindErrorIsFirst | src/components/Contribute/ContributionWizard/ContributionWizard.tsx:148 | the step `find` returns is the first one in error: it stands at some position, and no step before that position is in error |
| WizardSteps.SubmitEnabled | src/components/Contribute/ContributionWizard/ContributionWizard.tsx:147-149 | the gate is open exactly when no top-level step has status Error |
| WizardSteps.SubmitIgnoresSubSteps | src/components/Contribute/ContributionWizard/ContributionWizard.tsx:147-149 | replacing the sub-steps of any step never changes the gate |
| SessionIdentity.NativeIdentity | src/components/Contribute/ContributionWizard/ContributionWizard.tsx:126-131 | a truthy session name or email replaces the field; an absent or empty one keeps the previous value |
| SessionIdentity.NativeIdentityIdempotent | src/components/Contribute/ContributionWizard/ContributionWizard.tsx:127-131 | running the native fill twice gives what running it once gives |
| SessionIdentity.NativeIdentityKeepsUserValues | src/components/Contribute/ContributionWizard/ContributionWizard.tsx:129-130 | a session without name and email, or with empty ones, leaves the identity as it was |
| SessionIdentity.FetchesUserInfo | src/components/Contribute/Knowledge/KnowledgeWizard/KnowledgeWizard.tsx:131-134 | the user-info request starts only in GitHub mode, and there exactly when the session carries a non-empty access token |
| SessionIdentity.GithubIdentity | src/components/Contribute/ContributionWizard/ContributionWizard.tsx:111-122 | a response arriving before cancellation sets name and email to the response's; a cancelled or failed request changes nothing |
| SessionIdentity.GithubIdentityOverwrites | src/components/Contribute/ContributionWizard/ContributionWizard.tsx:114-118 | the GitHub fill's result does not depend on what the user had entered |
| KnowledgeForm.DefaultKnowledgeFormData | src/components/Contribute/Knowledge/KnowledgeWizard/KnowledgeWizard.tsx:51-67 | exactly five seed examples, all equal to the empty seed example, and every string field empty |
| KnowledgeForm.FillImmutable | src/components/Contribute/Knowledge/KnowledgeWizard/KnowledgeWizard.tsx:177 | a present `immutable` is kept and a missing one becomes true |
| KnowledgeForm.FillValidity | src/components/Contribute/Knowledge/KnowledgeWizard/KnowledgeWizard.tsx:178 | a present validity is kept and a missing one becomes Default |
| KnowledgeForm.FillMessage | src/components/Contribute/Knowledge/KnowledgeWizard/KnowledgeWizard.tsx:179 | a non-empty message is kept and a missing or empty one becomes `''` |
| KnowledgeForm.BackFillPair | src/components/Contribute/Knowledge/KnowledgeWizard/KnowledgeWizard.tsx:180-187 | question and answer are kept and each flag and message is back-filled |
| KnowledgeForm.BackFillPairs | src/components/Contribute/Knowledge/KnowledgeWizard/KnowledgeWizard.tsx:180-187 | same length, with each pair back-filled in place |
| KnowledgeForm.BackFillSeed | src/components/Contribute/Knowledge/KnowledgeWizard/KnowledgeWizard.tsx:175-188 | the context is kept, its flags are back-filled, and each of its pairs is back-filled in place |
| KnowledgeForm.BackFillSeeds | src/components/Contribute/Knowledge/KnowledgeWizard/KnowledgeWizard.tsx:175-188 | same length, with each seed example back-filled in place |
| KnowledgeForm.BackFillForm | src/components/Contribute/Knowledge/KnowledgeWizard/KnowledgeWizard.tsx:172-189 | only the seed examples change; every other field is kept and each seed example is back-filled |
| KnowledgeForm.BackFillCompletes | src/components/Contribute/Knowledge/KnowledgeWizard/KnowledgeWizard.tsx:172-189 | after the back-fill no flag or message is missing anywhere in the form |
| KnowledgeForm.BackFillPairFixedIffComplete | src/components/Contribute/Knowledge/KnowledgeWizard/KnowledgeWizard.tsx:180-187 | a pair is left unchanged exactly when none of its flags and messages is missing |
| KnowledgeForm.BackFillKeepsCompleteForm | src/components/Contribute/Knowledge/KnowledgeWizard/KnowledgeWizard.tsx:172-189 | data that already carries every flag and message comes back unchanged |
| KnowledgeForm.BackFillIdempotent | src/components/Contribute/Knowledge/KnowledgeWizard/KnowledgeWizard.tsx:172-189 | back-filling twice gives what back-filling once gives |
| KnowledgeWizard.GetStepIndex | src/components/Contribute/Knowledge/KnowledgeWizard/KnowledgeWizard.tsx:85 | -1 exactly for an id not in `STEP_IDS`, otherwise a position of `STEP_IDS` holding that id |
| KnowledgeWizard.GetStepIndexOfEachId | src/components/Contribute/Knowledge/KnowledgeWizard/KnowledgeWizard.tsx:74-85 | each of the eight ids maps to its own position |
| KnowledgeWizard.StepIdsDistinct | src/components/Contribute/Knowledge/KnowledgeWizard/KnowledgeWizard.tsx:74-83 | the eight step ids are pairwise distinct, so a position identifies one step |
| KnowledgeWizard.BuildSteps | src/components/Contribute/Knowledge/KnowledgeWizard/KnowledgeWizard.tsx:241-408 | the step tree has four top-level steps; its shape and statuses are stated by the lemmas below |
| KnowledgeWizard.GithubStepTree | src/components/Contribute/Knowledge/KnowledgeWizard/KnowledgeWizard.tsx:272-407 | in GitHub mode the step ids flatten to exactly `STEP_IDS`: details, resource-documentation{uploaded-documents, attributions}, seed-data{seed-context, question-answer-pairs}, review |
| KnowledgeWizard.NativeStepTree | src/components/Contribute/Knowledge/KnowledgeWizard/KnowledgeWizard.tsx:272-407 | in native mode uploaded-documents is a top-level step without sub-steps, and resource-documentation and attributions are absent |
| KnowledgeWizard.SeedStatusesAgree | src/components/Contribute/Knowledge/KnowledgeWizard/KnowledgeWizard.tsx:354-406 | seed-data and both of its sub-steps carry the same status, Success exactly when the seed examples are valid; review is always Default |
| KnowledgeWizard.SubmitGateByMode | src/components/Contribute/Knowledge/KnowledgeWizard/KnowledgeWizard.tsx:410-412 | submission opens exactly when details and seed examples are valid and, in native mode only, the documents too |
| KnowledgeWizard.GithubDocumentErrorDoesNotBlockSubmit | src/components/Contribute/Knowledge/KnowledgeWizard/KnowledgeWizard.tsx:410-412 | in GitHub mode an uploaded-documents sub-step in error does not close the gate |
| KnowledgeWizard.TopDisplayStatus | src/components/Contribute/Knowledge/KnowledgeWizard/KnowledgeWizard.tsx:495 | a top-level step shows its Error, its Success or no status only when it is before the active step; otherwise it shows Default |
| KnowledgeWizard.SubDisplayStatus | src/components/Contribute/Knowledge/KnowledgeWizard/KnowledgeWizard.tsx:504 | a sub-step hides only an Error, and only when it is at or after the active step; a Success always shows |
| KnowledgeWizard.DisplayRulesDisagreeAhead | src/components/Contribute/Knowledge/KnowledgeWizard/KnowledgeWizard.tsx:495-504 | with valid seed examples on the first step, seed-data shows Default while its sub-steps show Success |
| KnowledgeWizard.AcceptsCommit | src/components/Contribute/Knowledge/KnowledgeWizard/KnowledgeWizard.tsx:200 | while no commit is recorded every document is accepted; once one is, exactly the documents of that commit pass the guard |
| KnowledgeWizard.KnowledgeWizardState.constructor | src/components/Contribute/Knowledge/KnowledgeWizard/KnowledgeWizard.tsx:109-116 | the form starts as the edit data when there is some, else as the default form; no alert, submit closed, active index 0 |
| KnowledgeWizard.KnowledgeWizardState.OnSessionChange | src/components/Contribute/Knowledge/KnowledgeWizard/KnowledgeWizard.tsx:129-168 | GitHub mode only starts the request, and only with a truthy token; native mode applies the native fill; nothing but name and email changes |
| KnowledgeWizard.KnowledgeWizardState.OnUserInfo | src/components/Contribute/Knowledge/KnowledgeWizard/KnowledgeWizard.tsx:142-150 | a response arriving before cancellation records the login and overwrites name and email; nothing else changes |
| KnowledgeWizard.KnowledgeWizardState.LoadEditData | src/components/Contribute/Knowledge/KnowledgeWizard/KnowledgeWizard.tsx:170-193 | with edit data the form becomes its back-fill, complete in every flag and message; without edit data nothing changes |
| KnowledgeWizard.KnowledgeWizardState.AddDocumentInfo | src/components/Contribute/Knowledge/KnowledgeWizard/KnowledgeWizard.tsx:197-212 | a document from a commit other than the recorded one raises "Invalid Selection" and leaves the form; otherwise the document is added once and the alert is kept |
| KnowledgeWizard.KnowledgeWizardState.CloseAlert | src/components/Contribute/Knowledge/KnowledgeWizard/KnowledgeWizard.tsx:214-216 | the alert is cleared and nothing else changes |
| KnowledgeWizard.KnowledgeWizardState.AutoFill | src/components/Contribute/Knowledge/KnowledgeWizard/KnowledgeWizard.tsx:218-223 | the form becomes the auto-fill form with the repository set to the local documents directory |
| KnowledgeWizard.KnowledgeWizardState.OnYamlUpload | src/components/Contribute/Knowledge/KnowledgeWizard/KnowledgeWizard.tsx:224-231 | the uploaded YAML is merged into the form and the success alert is raised |
| KnowledgeWizard.KnowledgeWizardState.RefreshSubmitEnabled | src/components/Contribute/Knowledge/KnowledgeWizard/KnowledgeWizard.tsx:410-412 | submission opens exactly when details and seed examples are valid and, in native mode only, the documents too |
| KnowledgeWizard.KnowledgeWizardState.OnStepChange | src/components/Contribute/Knowledge/KnowledgeWizard/KnowledgeWizard.tsx:475 | the active index becomes the new step's position in `STEP_IDS` |
| KnowledgeWizard.KnowledgeWizardState.HandleSubmit | src/components/Contribute/Knowledge/KnowledgeWizard/KnowledgeWizard.tsx:414-431 | an edit returns false and keeps the form; a new contribution returns the request's outcome and resets the form to the default only on success; an alert raised by the request helper becomes the action-group alert |
| ContributionWizard.DisplayStatusAsWritten | src/components/Contribute/ContributionWizard/ContributionWizard.tsx:201-208 | Default at the active index and for an Error after it; every other step, before or after the active index, shows its computed status, so an Error shows exactly when the step is before the active index |
| ContributionWizard.CurrentStepShowsErrorAsWritten | src/components/Contribute/ContributionWizard/ContributionWizard.tsx:186-208 | with a two-sub-step second step, the current third step shows its Error, because its position 2 is compared with the flattened index 4 |
| ContributionWizard.DisplayStatus | src/components/Contribute/ContributionWizard/ContributionWizard.tsx:206-208 | the same rule with the step's flattened position: Default at the active step and for an Error after it; the computed status for every other step; an Error shows exactly before it |
| ContributionWizard.CorrectedRuleFollowsActiveStep | src/components/Contribute/ContributionWizard/ContributionWizard.tsx:186-208 | after moving to any step with distinct ids, that step shows Default, every earlier step its computed status, and no later step an Error |
| ContributionWizard.ContributionWizardState.constructor | src/components/Contribute/ContributionWizard/ContributionWizard.tsx:71-87 | `stepIds` is the flattening of the steps; empty login, submit closed, active index 0 |
| ContributionWizard.ContributionWizardState.SetSteps | src/components/Contribute/ContributionWizard/ContributionWizard.tsx:147-149 | new steps rebuild `stepIds` and set the gate open exactly when no top-level step is in error |
| ContributionWizard.ContributionWizardState.OnStepChange | src/components/Contribute/ContributionWizard/ContributionWizard.tsx:186 | the active index becomes the new step's position in the flattened `stepIds`, -1 for an unknown id |
| ContributionWizard.ContributionWizardState.OnSessionChange | src/components/Contribute/ContributionWizard/ContributionWizard.tsx:98-137 | GitHub mode only starts the request, and only with a truthy token; native mode applies the native fill to name and email and keeps the other fields |
| ContributionWizard.ContributionWizardState.OnUserInfo | src/components/Contribute/ContributionWizard/ContributionWizard.tsx:111-119 | a response arriving before cancellation records the login and overwrites name and email |
| ContributionWizard.ContributionWizardState.AutoFill | src/components/Contribute/ContributionWizard/ContributionWizard.tsx:139-141 | the skill auto-fill form for a skill contribution, the knowledge one otherwise |
| SelectContextModal.RestoreRange | src/components/Contribute/Knowledge/KnowledgeSeedExamples/KnowledgeFileSelectModal.tsx:85-101 | a range exists exactly when the element is mounted, text and content are non-empty and the text occurs; it covers the text exactly, at its first occurrence |
| SelectContextModal.RestoreRoundTrip | src/components/Contribute/Knowledge/KnowledgeSeedExamples/KnowledgeFileSelectModal.tsx:89-96 | restoring a non-empty passage taken from the content selects exactly that passage, no later than where it was taken |
| SelectContextModal.AfterFetchAsWritten | src/components/Contribute/Knowledge/KnowledgeSeedExamples/KnowledgeFileSelectModal.tsx:48-72 | a thrown request only records its message, even after cancellation; any other outcome after cancellation changes nothing |
| SelectContextModal.ThrownFetchKeepsSpinner | src/components/Contribute/Knowledge/KnowledgeSeedExamples/KnowledgeFileSelectModal.tsx:68-71 | after a thrown request the spinner stays and the error is never shown; a cancelled one still records its message |
| SelectContextModal.AfterFetch | src/components/Contribute/Knowledge/KnowledgeSeedExamples/KnowledgeFileSelectModal.tsx:45-80 | after cancellation nothing changes; otherwise loading ends with the content or with the message |
| SelectContextModal.FailureIsShown | src/components/Contribute/Knowledge/KnowledgeSeedExamples/KnowledgeFileSelectModal.tsx:54-71 | every failure that carries a message ends with the error shown |
| SelectContextModal.KnowledgeFileSelectModal.constructor | src/components/Contribute/Knowledge/KnowledgeSeedExamples/KnowledgeFileSelectModal.tsx:39-42 | loading starts exactly when the file has no content; nothing is selected |
| SelectContextModal.KnowledgeFileSelectModal.NeedsFetch | src/components/Contribute/Knowledge/KnowledgeSeedExamples/KnowledgeFileSelectModal.tsx:74-76 | the content is requested exactly when the file has none |
| SelectContextModal.KnowledgeFileSelectModal.OnFetchResult | src/components/Contribute/Knowledge/KnowledgeSeedExamples/KnowledgeFileSelectModal.tsx:48-72 | the view becomes the corrected fetch outcome (`AfterFetch`, not `AfterFetchAsWritten`); the selection is untouched |
| SelectContextModal.KnowledgeFileSelectModal.SetWindowSelection | src/components/Contribute/Knowledge/KnowledgeSeedExamples/KnowledgeFileSelectModal.tsx:85-101 | the window selection becomes the restore range when there is one and is left alone otherwise |
| SelectContextModal.KnowledgeFileSelectModal.SetPreRef | src/components/Contribute/Knowledge/KnowledgeSeedExamples/KnowledgeFileSelectModal.tsx:103-109 | records whether the element is mounted and restores the initial selection |
| SelectContextModal.KnowledgeFileSelectModal.HandleSelectionChange | src/components/Contribute/Knowledge/KnowledgeSeedExamples/KnowledgeFileSelectModal.tsx:112-136 | once loaded and mounted, a non-empty selection inside the element becomes the selected text; any other selection keeps it and re-applies it |
| SelectContextModal.KnowledgeFileSelectModal.HandleSelectionStart | src/components/Contribute/Knowledge/KnowledgeSeedExamples/KnowledgeFileSelectModal.tsx:148-153 | a mouse-down without shift clears the selected text; with shift nothing changes |
| SelectContextModal.KnowledgeFileSelectModal.HandleUseSelectedText | src/components/Contribute/Knowledge/KnowledgeSeedExamples/KnowledgeFileSelectModal.tsx:138-146 | with no selection only the alert; otherwise the trimmed text is passed exactly once, then the modal closes |
| SelectContextModal.KnowledgeFileSelectModal.SelectedWordCount | src/components/Contribute/Knowledge/KnowledgeSeedExamples/KnowledgeFileSelectModal.tsx:43 | the count is taken of the trimmed selection, so a selection of whitespace alone counts as the empty text |
| SelectContextModal.KnowledgeFileSelectModal.Footer | src/components/Contribute/Knowledge/KnowledgeSeedExamples/KnowledgeFileSelectModal.tsx:198-209 | "Create context" is disabled exactly at count 0; above the limit there is only a warning, reporting how many words are over |
| FilePickerModal.FilesOf | src/components/Contribute/Knowledge/SeedExamples/KnowledgeFileSelectModal.tsx:167-173 | a commit's group holds only files of the input, all of that commit |
| FilePickerModal.GroupedSnoc | src/components/Contribute/Knowledge/SeedExamples/KnowledgeFileSelectModal.tsx:168-171 | adding a file appends it to its commit's group, creating the group when missing, and changes no other group |
| FilePickerModal.GroupFiles | src/components/Contribute/Knowledge/SeedExamples/KnowledgeFileSelectModal.tsx:167-173 | the reduce builds exactly one group per commit holding that commit's files in input order |
| FilePickerModal.FileInExactlyOneGroup | src/components/Contribute/Knowledge/SeedExamples/KnowledgeFileSelectModal.tsx:167-173 | each file is in its commit's group and in no other group |
| FilePickerModal.GroupsNonEmpty | src/components/Contribute/Knowledge/SeedExamples/KnowledgeFileSelectModal.tsx:167-173 | no group is empty |
| FilePickerModal.CommitDateMap | src/components/Contribute/Knowledge/SeedExamples/KnowledgeFileSelectModal.tsx:177-185 | the loop builds exactly the reference date map |
| FilePickerModal.FirstDatesAreFirst | src/components/Contribute/Knowledge/SeedExamples/KnowledgeFileSelectModal.tsx:177-185 | a commit has a date exactly when one of its files has one, and it is the date of its first dated file; later files never overwrite |
| FilePickerModal.IsSameCommit | src/components/Contribute/Knowledge/SeedExamples/KnowledgeFileSelectModal.tsx:188-193 | every commit is selectable while none is chosen, and then only the chosen one |
| FilePickerModal.OneSelectableCommit | src/components/Contribute/Knowledge/SeedExamples/KnowledgeFileSelectModal.tsx:188-193 | once a commit is chosen, two selectable commits are the same |
| FilePickerModal.CommitsToDisplay | src/components/Contribute/Knowledge/SeedExamples/KnowledgeFileSelectModal.tsx:196-205 | a prefix of the sorted commits: all of them with "show all", otherwise only the first one, if any |
| FilePickerModal.DisplayedCommitsHaveFiles | src/components/Contribute/Knowledge/SeedExamples/KnowledgeFileSelectModal.tsx:196-205 | every displayed commit has at least one file to show |
| FilePickerModal.EnvText | src/components/Contribute/Knowledge/SeedExamples/KnowledgeFileSelectModal.tsx:100 | a set variable renders as its value and an unset one as "undefined", so the rendering is empty only for a variable set to the empty string |
| FilePickerModal.DocsRootAsWritten | src/components/Contribute/Knowledge/SeedExamples/KnowledgeFileSelectModal.tsx:99-100 | the root is always the variable's rendering plus "/taxonomy-knowledge-docs"; the fallback is dead |
| FilePickerModal.UnsetRootIsUndefined | src/components/Contribute/Knowledge/SeedExamples/KnowledgeFileSelectModal.tsx:99-100 | with the variable unset the root is "undefined/taxonomy-knowledge-docs", whatever the home directory |
| FilePickerModal.DocsRoot | src/components/Contribute/Knowledge/SeedExamples/KnowledgeFileSelectModal.tsx:99-100 | a set variable gives its own root; an unset or empty one falls back to the home directory |
| FilePickerModal.UnsetRootFallsBackToHome | src/components/Contribute/Knowledge/SeedExamples/KnowledgeFileSelectModal.tsx:99-100 | with the variable unset the root lies in the home directory, and differs from the root as written |
| FilePickerModal.CountFor | src/components/Contribute/Knowledge/SeedExamples/KnowledgeFileSelectModal.tsx:125-140 | with the file's element mounted, the count is the number of words of the selection inside it and 0 outside; otherwise the count is unchanged |
| FilePickerModal.NoMountedFileKeepsCount | src/components/Contribute/Knowledge/SeedExamples/KnowledgeFileSelectModal.tsx:143-151 | when no expanded file's element is mounted the listener leaves the count alone |
| FilePickerModal.LastMountedFileDecides | src/components/Contribute/Knowledge/SeedExamples/KnowledgeFileSelectModal.tsx:143-151 | otherwise the last expanded file with a mounted element, in key order, decides the count alone |
| FilePickerModal.KnowledgeFilePicker.constructor | src/components/Contribute/Knowledge/SeedExamples/KnowledgeFileSelectModal.tsx:60-65 | loading, no files, no error, nothing expanded, count 0, one commit shown; the documents root is the corrected `DocsRoot` of the environment's value, not the code's as-written root |
| FilePickerModal.KnowledgeFilePicker.StartFetch | src/components/Contribute/Knowledge/SeedExamples/KnowledgeFileSelectModal.tsx:68-70 | loading starts and the error is cleared |
| FilePickerModal.KnowledgeFilePicker.FinishFetch | src/components/Contribute/Knowledge/SeedExamples/KnowledgeFileSelectModal.tsx:71-90 | loading always ends; a listing replaces the files; a refusal records its message or the fixed one; an exception records the fixed one |
| FilePickerModal.KnowledgeFilePicker.ToggleFileContent | src/components/Contribute/Knowledge/SeedExamples/KnowledgeFileSelectModal.tsx:158-164 | the file's flag is negated, with absent read as false, and every other file's flag is unchanged |
| FilePickerModal.KnowledgeFilePicker.ToggleTwice | src/components/Contribute/Knowledge/SeedExamples/KnowledgeFileSelectModal.tsx:158-162 | toggling the same file twice restores its flag |
| FilePickerModal.KnowledgeFilePicker.ToggleShowAllCommits | src/components/Contribute/Knowledge/SeedExamples/KnowledgeFileSelectModal.tsx:243 | the show-all switch flips and nothing else changes |
| FilePickerModal.KnowledgeFilePicker.UpdateSelectedWordCount | src/components/Contribute/Knowledge/SeedExamples/KnowledgeFileSelectModal.tsx:125-140 | with the file's document unmounted the count is left as it was; with it mounted, the count becomes the number of words of the selection when the selection lies inside the document and 0 otherwise |
| FilePickerModal.KnowledgeFilePicker.HandleSelectionChange | src/components/Contribute/Knowledge/SeedExamples/KnowledgeFileSelectModal.tsx:143-156 | the listener's loop visits the expanded files in key order, giving the count of the reference visit |
| FilePickerModal.KnowledgeFilePicker.ExpandDisabled | src/components/Contribute/Knowledge/SeedExamples/KnowledgeFileSelectModal.tsx:298 | a file's expand button is disabled exactly when a commit is chosen and the file is of another commit |
| FilePickerModal.KnowledgeFilePicker.UseButtonDisabled | src/components/Contribute/Knowledge/SeedExamples/KnowledgeFileSelectModal.tsx:335 | the use button is enabled exactly for 1 to 500 words |
| FilePickerModal.KnowledgeFilePicker.HandleUseSelectedText | src/components/Contribute/Knowledge/SeedExamples/KnowledgeFileSelectModal.tsx:102-123 | a blank selection raises only the alert; otherwise it makes, in order, the context change with the trimmed text, the blur, the document record (root + '/' + filename, commit, filename) and the close |
| KnowledgeDetails.PathHelperText | src/components/Contribute/Knowledge/KnowledgeDetailsPage/KnowledgeDetailsPage.tsx:238 | the helper names the attribution file only in GitHub mode |
| KnowledgeDetails.KnowledgeDetailsPage.constructor | src/components/Contribute/Knowledge/KnowledgeDetailsPage/KnowledgeDetailsPage.tsx:47-53 | editor closed, local copies equal to the wizard's values, flags Default, email error "Required Field" |
| KnowledgeDetails.KnowledgeDetailsPage.OnEditForm | src/components/Contribute/Knowledge/KnowledgeDetailsPage/KnowledgeDetailsPage.tsx:55-59 | an edit form starts with the description Success; nothing else changes |
| KnowledgeDetails.KnowledgeDetailsPage.SetEmail | src/components/Contribute/Knowledge/KnowledgeDetailsPage/KnowledgeDetailsPage.tsx:61-63 | the wizard's email changes and the local copy follows it |
| KnowledgeDetails.KnowledgeDetailsPage.SetName | src/components/Contribute/Knowledge/KnowledgeDetailsPage/KnowledgeDetailsPage.tsx:77-79 | the wizard's name changes and the local copy follows it |
| KnowledgeDetails.KnowledgeDetailsPage.ValidateEmail | src/components/Contribute/Knowledge/KnowledgeDetailsPage/KnowledgeDetailsPage.tsx:65-75 | validity and error text become the email check of the local email; nothing else changes |
| KnowledgeDetails.KnowledgeDetailsPage.ValidateName | src/components/Contribute/Knowledge/KnowledgeDetailsPage/KnowledgeDetailsPage.tsx:81-83 | Success exactly when the local name is non-blank; nothing else changes |
| KnowledgeDetails.KnowledgeDetailsPage.SetSubmissionSummary | src/components/Contribute/Knowledge/KnowledgeDetailsPage/KnowledgeDetailsPage.tsx:224 | the summary changes and nothing else |
| KnowledgeDetails.KnowledgeDetailsPage.ValidateDescription | src/components/Contribute/Knowledge/KnowledgeDetailsPage/KnowledgeDetailsPage.tsx:85-88 | Success exactly when the trimmed summary has 1 to 60 characters |
| KnowledgeDetails.KnowledgeDetailsPage.CharactersRemaining | src/components/Contribute/Knowledge/KnowledgeDetailsPage/KnowledgeDetailsPage.tsx:229 | 60 minus the trimmed length, non-negative exactly when the summary fits |
| KnowledgeDetails.KnowledgeDetailsPage.EmailErrorShown | src/components/Contribute/Knowledge/KnowledgeDetailsPage/KnowledgeDetailsPage.tsx:149-157 | the email error shows exactly when the email check failed |
| KnowledgeDetails.KnowledgeDetailsPage.NameHelper | src/components/Contribute/Knowledge/KnowledgeDetailsPage/KnowledgeDetailsPage.tsx:118-132 | "Required field" when the name check failed, the hint otherwise |
| KnowledgeDetails.KnowledgeDetailsPage.OpenEditor | src/components/Contribute/Knowledge/KnowledgeDetailsPage/KnowledgeDetailsPage.tsx:198 | the pencil opens the editor and changes nothing else |
| KnowledgeDetails.KnowledgeDetailsPage.AcceptDisabled | src/components/Contribute/Knowledge/KnowledgeDetailsPage/KnowledgeDetailsPage.tsx:169 | Accept is disabled exactly when the name or the email check failed |
| KnowledgeDetails.KnowledgeDetailsPage.Accept | src/components/Contribute/Knowledge/KnowledgeDetailsPage/KnowledgeDetailsPage.tsx:164-175 | when enabled, the local email and name are committed and the editor closes; when disabled nothing changes |
| KnowledgeDetails.KnowledgeDetailsPage.Cancel | src/components/Contribute/Knowledge/KnowledgeDetailsPage/KnowledgeDetailsPage.tsx:178-188 | the local copies are reset from the wizard's values and the editor closes; typed values stay, since they already reached the wizard |
| KnowledgeDetails.KnowledgeDetailsPage.SetFilePath | src/components/Contribute/Knowledge/KnowledgeDetailsPage/KnowledgeDetailsPage.tsx:237 | the path changes and nothing else |
| DocumentInformation.ReadContents | src/components/Contribute/Knowledge/DocumentInformation/DocumentInformation.tsx:119-135 | the read contents never outnumber the files |
| DocumentInformation.ReadContentsComplete | src/components/Contribute/Knowledge/DocumentInformation/DocumentInformation.tsx:119-137 | there is one entry per file exactly when every read succeeded, and then entry `i` holds file `i`'s name and content |
| DocumentInformation.JoinNames | src/components/Contribute/Knowledge/DocumentInformation/DocumentInformation.tsx:152 | `join(', ')` of no names is empty and of one name is that name |
| DocumentInformation.JoinNamesEnds | src/components/Contribute/Knowledge/DocumentInformation/DocumentInformation.tsx:152 | the joined text starts with the first name and ends with the last |
| DocumentInformation.OutcomeAlert | src/components/Contribute/Knowledge/DocumentInformation/DocumentInformation.tsx:147-180 | success alert with a link exactly when a PR URL is given; a failed response or an exception gives the danger alert with its text |
| DocumentInformation.DocumentInformationStep.constructor | src/components/Contribute/Knowledge/DocumentInformation/DocumentInformation.tsx:60-70 | file upload mode, no files, modal closed, no alert, every flag Default |
| DocumentInformation.DocumentInformationStep.OnEditForm | src/components/Contribute/Knowledge/DocumentInformation/DocumentInformation.tsx:72-78 | an edit form sets all three flags to Success; nothing else changes |
| DocumentInformation.DocumentInformationStep.ValidateRepo | src/components/Contribute/Knowledge/DocumentInformation/DocumentInformation.tsx:80-94 | the three-way repository check, writing only its own flag |
| DocumentInformation.DocumentInformationStep.ValidateCommit | src/components/Contribute/Knowledge/DocumentInformation/DocumentInformation.tsx:96-99 | Success exactly when non-blank, writing only its own flag |
| DocumentInformation.DocumentInformationStep.ValidateDocumentName | src/components/Contribute/Knowledge/DocumentInformation/DocumentInformation.tsx:101-104 | Success exactly when non-blank, writing only its own flag |
| DocumentInformation.DocumentInformationStep.HandleFilesChange | src/components/Contribute/Knowledge/DocumentInformation/DocumentInformation.tsx:106-108 | the chosen files are recorded and nothing else changes |
| DocumentInformation.DocumentInformationStep.SubmitFilesDisabled | src/components/Contribute/Knowledge/DocumentInformation/DocumentInformation.tsx:229 | "Submit Files" is disabled exactly with no file chosen |
| DocumentInformation.DocumentInformationStep.ReadFiles | src/components/Contribute/Knowledge/DocumentInformation/DocumentInformation.tsx:119-135 | the loop pushes the contents of exactly the files read, in file order |
| DocumentInformation.DocumentInformationStep.HandleDocumentUpload | src/components/Contribute/Knowledge/DocumentInformation/DocumentInformation.tsx:110-183 | with no file nothing happens; the server is contacted exactly when every file was read, with one entry per file; success sets repository, commit and joined names; otherwise only the alert changes |
| DocumentInformation.DocumentInformationStep.CloseAlert | src/components/Contribute/Knowledge/DocumentInformation/DocumentInformation.tsx:239 | the alert is cleared and nothing else changes |
| DocumentInformation.DocumentInformationStep.HandleModalContinue | src/components/Contribute/Knowledge/DocumentInformation/DocumentInformation.tsx:185-199 | the mode flips and the modal closes; leaving file upload drops the files; leaving manual entry clears the three fields and resets their flags |
| DocumentInformation.DocumentInformationStep.CancelModal | src/components/Contribute/Knowledge/DocumentInformation/DocumentInformation.tsx:258 | the modal closes and nothing else changes |
| QuestionAnswerPairs.PairRequired | src/components/Contribute/Knowledge/SeedExamples/QuestionAnswerPairs.tsx:119 | a pair is marked required exactly when it is immutable |
| QuestionAnswerPairs.ErrorText | src/components/Contribute/Knowledge/SeedExamples/QuestionAnswerPairs.tsx:105-110 | an error text shows exactly on Error: the stored message, or the fallback when it is absent or empty |
| QuestionAnswerPairs.ContextErrorText | src/components/Contribute/Knowledge/SeedExamples/QuestionAnswerPairs.tsx:105-110 | the context error shows exactly when the context is in error, with the 500-word fallback |
| QuestionAnswerPairs.QuestionErrorText | src/components/Contribute/Knowledge/SeedExamples/QuestionAnswerPairs.tsx:135-143 | the question error shows exactly when the question is in error, with the Q&A fallback |
| QuestionAnswerPairs.AnswerErrorText | src/components/Contribute/Knowledge/SeedExamples/QuestionAnswerPairs.tsx:158-166 | the answer error shows exactly when the answer is in error, with the Q&A fallback |
| QuestionAnswerPairs.BackFilledErrorsAreReadable | src/components/Contribute/Knowledge/SeedExamples/QuestionAnswerPairs.tsx:105-110 | after the edit back-fill, a context in error always shows a non-empty text |
| QuestionAnswerPairs.SeedExampleEditor.constructor | src/components/Contribute/Knowledge/SeedExamples/QuestionAnswerPairs.tsx:49-51 | modal closed and word count 0 |
| QuestionAnswerPairs.SeedExampleEditor.RecountContext | src/components/Contribute/Knowledge/SeedExamples/QuestionAnswerPairs.tsx:63-70 | the word count becomes the number of words of the context |
| QuestionAnswerPairs.SeedExampleEditor.OnSeedExampleChange | src/components/Contribute/Knowledge/SeedExamples/QuestionAnswerPairs.tsx:68-70 | a new seed example comes with the word count of its context |
| QuestionAnswerPairs.SeedExampleEditor.OnContextChange | src/components/Contribute/Knowledge/SeedExamples/QuestionAnswerPairs.tsx:73-75 | the typed context is forwarded unchanged, whatever its length |
| QuestionAnswerPairs.SeedExampleEditor.OnQuestionChange | src/components/Contribute/Knowledge/SeedExamples/QuestionAnswerPairs.tsx:130-132 | one call with `CapInput` of the value typed, at most 250 characters, all of it when it fits; this is the input's value for text appended at the end of a value within the cap |
| QuestionAnswerPairs.SeedExampleEditor.OnAnswerChange | src/components/Contribute/Knowledge/SeedExamples/QuestionAnswerPairs.tsx:153-155 | one call with `CapInput` of the value typed, at most 250 characters, all of it when it fits; this is the input's value for text appended at the end of a value within the cap |
| QuestionAnswerPairs.SeedExampleEditor.OpenModal | src/components/Contribute/Knowledge/SeedExamples/QuestionAnswerPairs.tsx:53-55 | the modal opens and nothing else changes |
| QuestionAnswerPairs.SeedExampleEditor.CloseModal | src/components/Contribute/Knowledge/SeedExamples/QuestionAnswerPairs.tsx:57-60 | the modal closes and no selection range remains |
| AttributionInformation.AttributionFields.constructor | src/components/Contribute/Skill/AttributionInformation/AttributionInformation.tsx:26-28 | all three flags start undefined |
| AttributionInformation.AttributionFields.OnReset | src/components/Contribute/Skill/AttributionInformation/AttributionInformation.tsx:30-34 | all three flags become Default |
| AttributionInformation.AttributionFields.OnEditForm | src/components/Contribute/Skill/AttributionInformation/AttributionInformation.tsx:36-42 | an edit form sets all three flags to Success; otherwise nothing changes |
| AttributionInformation.AttributionFields.ValidateTitle | src/components/Contribute/Skill/AttributionInformation/AttributionInformation.tsx:44-52 | Success exactly when the title is non-blank, Error otherwise; the other flags stay |
| AttributionInformation.AttributionFields.ValidateLicense | src/components/Contribute/Skill/AttributionInformation/AttributionInformation.tsx:54-62 | Success exactly when the license is non-blank, Error otherwise; the other flags stay |
| AttributionInformation.AttributionFields.ValidateCreators | src/components/Contribute/Skill/AttributionInformation/AttributionInformation.tsx:64-72 | Success exactly when the creators are non-blank, Error otherwise; the other flags stay |
| SkillsInformation.OutlineCharactersToGo | src/components/Contribute/Skill/SkillsInformation/SkillsInformation.tsx:91 | a count appears exactly when the trimmed outline is shorter than 40, and it is the positive shortfall |
| SkillsInformation.FullSummaryFails | src/components/Contribute/Skill/SkillsInformation/SkillsInformation.tsx:30-37 | a summary that fills the 60-character input always fails the check |
| SkillsInformation.FortyCharacterOutline | src/components/Contribute/Skill/SkillsInformation/SkillsInformation.tsx:39-46 | an outline of exactly 40 non-space characters fails, and its hint gives no count |
| SkillsInformation.SkillFields.constructor | src/components/Contribute/Skill/SkillsInformation/SkillsInformation.tsx:15-16 | both flags start undefined |
| SkillsInformation.SkillFields.OnReset | src/components/Contribute/Skill/SkillsInformation/SkillsInformation.tsx:18-21 | both flags become Default |
| SkillsInformation.SkillFields.OnEditForm | src/components/Contribute/Skill/SkillsInformation/SkillsInformation.tsx:23-28 | an edit form sets both flags to Success; otherwise nothing changes |
| SkillsInformation.SkillFields.SetSubmissionSummary | src/components/Contribute/Skill/SkillsInformation/SkillsInformation.tsx:63-65 | the summary becomes `CapInput` of the value typed, at most 60 characters, all of it when it fits; this is the input's value for text appended at the end of a value within the cap |
| SkillsInformation.SkillFields.SetDocumentOutline | src/components/Contribute/Skill/SkillsInformation/SkillsInformation.tsx:83 | the outline changes, uncapped, and nothing else |
| SkillsInformation.SkillFields.ValidateDescription | src/components/Contribute/Skill/SkillsInformation/SkillsInformation.tsx:30-37 | Success exactly for 1 to 59 untrimmed characters; the outline flag stays |
| SkillsInformation.SkillFields.ValidateOutline | src/components/Contribute/Skill/SkillsInformation/SkillsInformation.tsx:39-46 | Success exactly for more than 40 untrimmed characters; the summary flag stays |
| SkillsInformation.SkillFields.SummaryHint | src/components/Contribute/Skill/SkillsInformation/SkillsInformation.tsx:67-73 | the hint shows exactly on Error, counting 60 minus the trimmed length |
| SkillsInformation.SkillFields.OutlineHint | src/components/Contribute/Skill/SkillsInformation/SkillsInformation.tsx:87-94 | the hint shows exactly on Error, with the shortfall count when there is one |
| AuthorInformation.AuthorFields.constructor | src/components/Contribute/AuthorInformation.tsx:18-20 | both flags start undefined and the error text is "Required Field" |
| AuthorInformation.AuthorFields.SetEmail | src/components/Contribute/AuthorInformation.tsx:66 | the email changes and nothing else |
| AuthorInformation.AuthorFields.SetName | src/components/Contribute/AuthorInformation.tsx:87 | the name changes and nothing else |
| AuthorInformation.AuthorFields.ValidateEmail | src/components/Contribute/AuthorInformation.tsx:22-34 | flag and error text become the email check of the email; the name flag stays |
| AuthorInformation.AuthorFields.ValidateName | src/components/Contribute/AuthorInformation.tsx:36-44 | Success exactly when the name is non-blank; the email flag and text stay |
| AuthorInformation.AuthorFields.OnReset | src/components/Contribute/AuthorInformation.tsx:46-49 | both flags become Default; the error text stays |
| AuthorInformation.AuthorFields.EmailErrorText | src/components/Contribute/AuthorInformation.tsx:69-77 | the error text shows exactly when the email check failed |
| UploadFromGit.UploadFromGitModal.constructor | src/components/Contribute/Knowledge/UploadFromGitModal.tsx:18-23 | every field empty and every flag Default |
| UploadFromGit.UploadFromGitModal.SetRepositoryUrl | src/components/Contribute/Knowledge/UploadFromGitModal.tsx:96 | the URL changes and nothing else |
| UploadFromGit.UploadFromGitModal.SetCommitSha | src/components/Contribute/Knowledge/UploadFromGitModal.tsx:107 | the commit changes and nothing else |
| UploadFromGit.UploadFromGitModal.SetDocumentName | src/components/Contribute/Knowledge/UploadFromGitModal.tsx:84 | the document name changes and nothing else |
| UploadFromGit.UploadFromGitModal.ValidateRepo | src/components/Contribute/Knowledge/UploadFromGitModal.tsx:25-39 | the three-way repository check of the URL, writing only its own flag |
| UploadFromGit.UploadFromGitModal.ValidateCommit | src/components/Contribute/Knowledge/UploadFromGitModal.tsx:41-44 | Success exactly when the commit is non-blank, writing only its own flag |
| UploadFromGit.UploadFromGitModal.ValidateDocumentName | src/components/Contribute/Knowledge/UploadFromGitModal.tsx:46-49 | Success exactly when the document name is non-blank, writing only its own flag |
| UploadFromGit.UploadFromGitModal.OnSave | src/components/Contribute/Knowledge/UploadFromGitModal.tsx:51-58 | no state changes; the only call asks the host to close |

## Left out

- Network requests are not modelled: `fetch`, `getGitHubUserInfo`, the submit and update helpers, and the environment lookup that enables the auto-fill button. Their outcomes are inputs: a user-info response or `None`, a `FetchOutcome`, a `FilesOutcome`, an `UploadOutcome`, and the `succeeded` flag and the raised alert of `HandleSubmit`.
- The DOM is not modelled: `window.getSelection`, `Range`, `Node.contains` and element refs. A selection is its text plus "mounted" and "inside" booleans, and a restored range is a pair of offsets. A `null` selection is not modelled.
- Rendering, PatternFly layout, router navigation, `console`/`devLog` output and the `alert()` popups are left out. A popup appears only as a returned call.
- React's scheduling is not modelled. The order in which mount effects run, batching of state updates and re-renders are left out. Each handler and effect is a method applied to the current state.
- KnowledgeWizard.KnowledgeWizardState.AddDocumentInfo: the guard reads the current commit. The source's `useCallback` reads the commit captured at the last render, and that staleness is not modelled.
- DocumentInformation.DocumentInformationStep.ReadFiles: the contents are pushed in file order. `FileReader` completions may arrive in any order, and `Promise.all` rejects on the first failed read. A failed read is modelled as "the server is not contacted".
- The date sort of commits is not modelled: `new Date(...)`, NaN comparisons and locale formatting. The sorted commit list is an input of `FilePickerModal.CommitsToDisplay`.
- FilePickerModal.KnowledgeFilePicker.HandleSelectionChange: keys are visited in insertion order. `Object.keys` lists integer-like keys first, and filenames that look like integers are not modelled.
- These helpers are uninterpreted parameters and `getWordCount` has no behaviour:
  - `new URL(...)`;
  - `isKnowledgeDetailsValid`, `isDocumentInfoValid`, `isSeedExamplesValid`;
  - `addDocumentInfoToKnowledgeFormData`, `addYamlUploadKnowledge`, `createEmptySeedExample`;
  - the auto-fill field sets;
  - `getWordCount` and `MAX_CONTEXT_WORDS`.
- The older modal's write of the fetched content into the shared `knowledgeFile` object is modelled as the modal's own `fileContent` field. Aliasing with the caller's object is not modelled.
- KnowledgeWizard.BuildSteps: its own contract states only the number of steps. The tree's ids, nesting and statuses are stated by `GithubStepTree`, `NativeStepTree`, `SeedStatusesAgree` and `SubmitGateByMode`.
- The YAML-upload modal flag, the "upload from git" modal flag and the data-loss modal text carry no logic and are left out.
- The edit-form `name` and `email` props of the skill wizard's components are not modelled. Those components do not validate them beyond what `AuthorInformation` models.
- Text.CapInput, SkillsInformation.SkillFields.SetSubmissionSummary, QuestionAnswerPairs.SeedExampleEditor.OnQuestionChange and QuestionAnswerPairs.SeedExampleEditor.OnAnswerChange: the `maxLength` cap is modelled only for text appended at the end of a value within the cap. The input's rule for every other edit is `InsertCapped`: an insertion elsewhere keeps the text after the insertion point, and a value already over the cap, such as a 70-character summary loaded for editing, is not cut. The methods take the value after the edit, not the edit itself, so they do not apply that rule.
- SelectContextModal.KnowledgeFileSelectModal.OnFetchResult: applies the corrected `AfterFetch`. On a thrown request, the code as written (`AfterFetchAsWritten`) keeps `loading` set, so the error never shows. It also records the message after cancellation. The class reproduces neither.
- FilePickerModal.KnowledgeFilePicker.constructor: stores the corrected `DocsRoot`. As written (`DocsRootAsWritten`), an unset root variable gives "undefined/taxonomy-knowledge-docs" and an empty one gives "/taxonomy-knowledge-docs". In those two cases `HandleUseSelectedText` records a different path from the code's.
- Strings are sequences of Unicode scalar values. JavaScript's `.length`, `maxLength` and `indexOf` count UTF-16 code units instead, so a character outside the Basic Multilingual Plane, such as an emoji, counts 2 there and 1 here. Text made only of such characters therefore gets lengths, caps and offsets that differ from the code's in these members:
  - Text.CapInput and Text.InsertCapped: the cap counts characters, not UTF-16 code units.
  - Text.IndexOf and Text.IndexOfFrom: offsets count characters, not UTF-16 code units.
  - SelectContextModal.RestoreRange: the range's offsets count characters, not UTF-16 code units.
  - Validators.KnowledgeSummaryValidity and Validators.SummaryCharactersRemaining: the 60 limit counts characters, not UTF-16 code units.
  - Validators.SkillSummaryValidity: the 60 limit counts characters, not UTF-16 code units. A summary of 30 emoji passes here and fails in the code.
  - Validators.OutlineValidity: the 40 minimum counts characters, not UTF-16 code units.
  - SkillsInformation.OutlineCharactersToGo, SkillsInformation.SkillFields.SummaryHint and KnowledgeDetails.KnowledgeDetailsPage.CharactersRemaining: the counts shown are in characters, not UTF-16 code units.
  - SkillsInformation.SkillFields.SetSubmissionSummary and QuestionAnswerPairs.SeedExampleEditor.OnQuestionChange and OnAnswerChange: the `maxLength` caps count characters, not UTF-16 code units.

## Findings

| source | as written | input that shows it | evidently intended | confidence | as-written member | corrected member |
|---|---|---|---|---|---|---|
| src/components/Contribute/Knowledge/SeedExamples/KnowledgeFileSelectModal.tsx:99-100 | the left operand of `\|\|` is a template literal that is never empty, so the home-directory fallback never applies | `NEXT_PUBLIC_LOCAL_TAXONOMY_ROOT_DIR` unset: the documents root becomes "undefined/taxonomy-knowledge-docs" | fall back to `$HOME/.instructlab-ui/taxonomy-knowledge-docs` when the variable is unset | high, not executed | FilePickerModal.UnsetRootIsUndefined | FilePickerModal.UnsetRootFallsBackToHome |
| src/components/Contribute/ContributionWizard/ContributionWizard.tsx:186-208 | the display rule compares a step's position in the top-level list with `activeStepIndex`, which is a position in the flattened `stepIds` | steps details, resource{documents, attribution}, seed-data (Error), review; moving to seed-data sets the active index to 4, so seed-data (position 2) shows its Error while being edited | compare the step's own flattened position, so the current step shows Default and later errors stay hidden | high, not executed | ContributionWizard.CurrentStepShowsErrorAsWritten | ContributionWizard.CorrectedRuleFollowsActiveStep |
| src/components/Contribute/Knowledge/KnowledgeSeedExamples/KnowledgeFileSelectModal.tsx:68-71 | the `catch` branch sets the error text but not `loading`, and ignores cancellation | a content request that throws while the spinner is up: the spinner stays and the error text is never shown | end loading and show the message, as the error-response branch does, and change nothing after cancellation | high, not executed | SelectContextModal.ThrownFetchKeepsSpinner | SelectContextModal.FailureIsShown |
