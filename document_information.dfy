/**
 * The document step of the native knowledge wizard: the provenance fields
 * (repository URL, commit, document names) with their validators, the file
 * upload that sends the chosen files to the documents repository, and the
 * switch between uploading files and entering the provenance by hand.
 *
 * The provenance fields belong to the wizard and are held here as fields.
 * Reading a file is an input (`readFile`, `None` when the read fails); the
 * server's answer is an `UploadOutcome`.
 */
module DocumentInformation {
  import opened Wrappers
  import opened Text
  import opened Validators

  datatype AlertType = SuccessAlert | DangerAlert | InfoAlert

  datatype AlertInfo = AlertInfo(alertType: AlertType, title: string, message: string, link: Option<string>)

  const UPLOAD_IN_PROGRESS := AlertInfo(InfoAlert, "Document upload(s) in progress!",
    "Document upload(s) is in progress. You will be notified once the upload successfully completes.", None)
  const UPLOAD_SUCCEEDED_TITLE := "Document uploaded successfully!"
  const UPLOAD_SUCCEEDED_MESSAGE :=
    "Documents have been submitted to local taxonomy knowledge docs repo to be referenced in the knowledge submission."
  const UPLOAD_FAILED_TITLE := "Failed to upload document!"
  const UPLOAD_FAILED_PREFIX := "This upload failed. "

  /** A file chosen in the upload field. */
  datatype UploadedFile = UploadedFile(name: string)

  /** One entry of the request body. */
  datatype FileContent = FileContent(fileName: string, fileContent: string)

  /** The server's answer: a created or OK response with its body, a failed response with its
      status text, or an exception with its message. */
  datatype UploadOutcome =
    | Uploaded(repoUrl: string, commitSha: string, documentNames: seq<string>, prUrl: string)
    | Rejected(statusText: string)
    | Unreachable(message: string)

  /** The contents of the files whose read succeeded, in file order. */
  function ReadContents(files: seq<UploadedFile>, readFile: UploadedFile -> Option<string>): (r: seq<FileContent>)
    ensures |r| <= |files|
  {
    if files == [] then []
    else
      var last := files[|files| - 1];
      ReadContents(files[..|files| - 1], readFile)
        + (if readFile(last).Some? then [FileContent(last.name, readFile(last).value)] else [])
  }

  /** Every file was read. */
  predicate AllRead(files: seq<UploadedFile>, readFile: UploadedFile -> Option<string>) {
    forall i :: 0 <= i < |files| ==> readFile(files[i]).Some?
  }

  /** The request body has one entry per file exactly when every file was read, and then entry `i`
      carries the name and content of file `i`. */
  lemma {:induction false} ReadContentsComplete(files: seq<UploadedFile>, readFile: UploadedFile -> Option<string>)
    ensures |ReadContents(files, readFile)| == |files| <==> AllRead(files, readFile)
    ensures AllRead(files, readFile) ==> forall i :: 0 <= i < |files| ==>
      ReadContents(files, readFile)[i] == FileContent(files[i].name, readFile(files[i]).value)
  {
    if files != [] {
      var init := files[..|files| - 1];
      ReadContentsComplete(init, readFile);
      assert forall i :: 0 <= i < |init| ==> init[i] == files[i];
      if !AllRead(init, readFile) {
        assert |ReadContents(init, readFile)| < |init|;
      }
    }
  }

  /** `names.join(', ')`. */
  function JoinNames(names: seq<string>): (r: string)
    ensures names == [] ==> r == ""
    ensures |names| == 1 ==> r == names[0]
  {
    if names == [] then ""
    else if |names| == 1 then names[0]
    else JoinNames(names[..|names| - 1]) + ", " + names[|names| - 1]
  }

  /** The joined text starts with the first name and ends with the last. */
  lemma {:induction false} JoinNamesEnds(names: seq<string>)
    requires names != []
    ensures names[0] <= JoinNames(names)
    ensures var r := JoinNames(names); var last := names[|names| - 1];
      |last| <= |r| && r[|r| - |last|..] == last
  {
    if |names| > 1 {
      var init := names[..|names| - 1];
      JoinNamesEnds(init);
      assert init[0] == names[0];
      var r := JoinNames(names);
      assert r == JoinNames(init) + ", " + names[|names| - 1];
    }
  }

  /** The alert that reports the server's answer. */
  function OutcomeAlert(outcome: UploadOutcome): (a: AlertInfo)
    ensures outcome.Uploaded? ==> a.alertType == SuccessAlert && a.title == UPLOAD_SUCCEEDED_TITLE
    ensures outcome.Uploaded? ==> (a.link.Some? <==> outcome.prUrl != "")
    ensures outcome.Uploaded? && outcome.prUrl != "" ==> a.link == Some(outcome.prUrl)
    ensures outcome.Rejected? ==> a == AlertInfo(DangerAlert, UPLOAD_FAILED_TITLE, UPLOAD_FAILED_PREFIX + outcome.statusText, None)
    ensures outcome.Unreachable? ==> a == AlertInfo(DangerAlert, UPLOAD_FAILED_TITLE, UPLOAD_FAILED_PREFIX + outcome.message, None)
  {
    match outcome
    case Uploaded(_, _, _, prUrl) =>
      AlertInfo(SuccessAlert, UPLOAD_SUCCEEDED_TITLE, UPLOAD_SUCCEEDED_MESSAGE, if prUrl != "" then Some(prUrl) else None)
    case Rejected(statusText) => AlertInfo(DangerAlert, UPLOAD_FAILED_TITLE, UPLOAD_FAILED_PREFIX + statusText, None)
    case Unreachable(message) => AlertInfo(DangerAlert, UPLOAD_FAILED_TITLE, UPLOAD_FAILED_PREFIX + message, None)
  }

  class DocumentInformationStep {
    const isGithubMode: bool
    const isEditForm: bool
    /** The wizard's values. */
    var knowledgeDocumentRepositoryUrl: string
    var knowledgeDocumentCommit: string
    var documentName: string
    /** The step's own state. */
    var useFileUpload: bool
    var uploadedFiles: seq<UploadedFile>
    var isModalOpen: bool
    var alertInfo: Option<AlertInfo>
    var validRepo: Validated
    var validCommit: Validated
    var validDocumentName: Validated

    constructor(isGithubMode: bool, isEditForm: bool, repositoryUrl: string, commit: string, documentName: string)
      ensures this.isGithubMode == isGithubMode && this.isEditForm == isEditForm
      ensures knowledgeDocumentRepositoryUrl == repositoryUrl && knowledgeDocumentCommit == commit
      ensures this.documentName == documentName
      ensures useFileUpload && uploadedFiles == [] && !isModalOpen && alertInfo.None?
      ensures validRepo == Default && validCommit == Default && validDocumentName == Default
    {
      this.isGithubMode := isGithubMode;
      this.isEditForm := isEditForm;
      knowledgeDocumentRepositoryUrl := repositoryUrl;
      knowledgeDocumentCommit := commit;
      this.documentName := documentName;
      useFileUpload := true;
      uploadedFiles := [];
      isModalOpen := false;
      alertInfo := None;
      validRepo := Default;
      validCommit := Default;
      validDocumentName := Default;
    }

    /** The edit-form effect: an edited contribution starts with all three fields valid. */
    method OnEditForm()
      modifies this
      ensures isEditForm ==> validRepo == Success && validCommit == Success && validDocumentName == Success
      ensures !isEditForm ==> validRepo == old(validRepo) && validCommit == old(validCommit) && validDocumentName == old(validDocumentName)
      ensures knowledgeDocumentRepositoryUrl == old(knowledgeDocumentRepositoryUrl) && knowledgeDocumentCommit == old(knowledgeDocumentCommit)
      ensures documentName == old(documentName) && useFileUpload == old(useFileUpload) && uploadedFiles == old(uploadedFiles)
      ensures isModalOpen == old(isModalOpen) && alertInfo == old(alertInfo)
    {
      if isEditForm {
        validRepo := Success;
        validCommit := Success;
        validDocumentName := Success;
      }
    }

    /** `validateRepo`: only the repository validity changes. */
    method ValidateRepo(repoStr: string, parsesAsUrl: string -> bool)
      modifies this
      ensures validRepo == Error <==> Blank(repoStr)
      ensures validRepo == Success <==> !Blank(repoStr) && parsesAsUrl(Trim(repoStr))
      ensures validRepo == Warning <==> !Blank(repoStr) && !parsesAsUrl(Trim(repoStr))
      ensures validCommit == old(validCommit) && validDocumentName == old(validDocumentName)
      ensures knowledgeDocumentRepositoryUrl == old(knowledgeDocumentRepositoryUrl) && knowledgeDocumentCommit == old(knowledgeDocumentCommit)
      ensures documentName == old(documentName) && useFileUpload == old(useFileUpload) && uploadedFiles == old(uploadedFiles)
      ensures isModalOpen == old(isModalOpen) && alertInfo == old(alertInfo)
    {
      validRepo := RepoValidity(repoStr, parsesAsUrl);
    }

    /** `validateCommit`: only the commit validity changes. */
    method ValidateCommit(commitStr: string)
      modifies this
      ensures validCommit == Success <==> !Blank(commitStr)
      ensures validCommit == Error <==> Blank(commitStr)
      ensures validRepo == old(validRepo) && validDocumentName == old(validDocumentName)
      ensures knowledgeDocumentRepositoryUrl == old(knowledgeDocumentRepositoryUrl) && knowledgeDocumentCommit == old(knowledgeDocumentCommit)
      ensures documentName == old(documentName) && useFileUpload == old(useFileUpload) && uploadedFiles == old(uploadedFiles)
      ensures isModalOpen == old(isModalOpen) && alertInfo == old(alertInfo)
    {
      validCommit := RequiredValidity(commitStr);
    }

    /** `validateDocumentName`: only the document-name validity changes. */
    method ValidateDocumentName(document: string)
      modifies this
      ensures validDocumentName == Success <==> !Blank(document)
      ensures validDocumentName == Error <==> Blank(document)
      ensures validRepo == old(validRepo) && validCommit == old(validCommit)
      ensures knowledgeDocumentRepositoryUrl == old(knowledgeDocumentRepositoryUrl) && knowledgeDocumentCommit == old(knowledgeDocumentCommit)
      ensures documentName == old(documentName) && useFileUpload == old(useFileUpload) && uploadedFiles == old(uploadedFiles)
      ensures isModalOpen == old(isModalOpen) && alertInfo == old(alertInfo)
    {
      validDocumentName := RequiredValidity(document);
    }

    /** `handleFilesChange`. */
    method HandleFilesChange(files: seq<UploadedFile>)
      modifies this
      ensures uploadedFiles == files
      ensures knowledgeDocumentRepositoryUrl == old(knowledgeDocumentRepositoryUrl) && knowledgeDocumentCommit == old(knowledgeDocumentCommit)
      ensures documentName == old(documentName) && useFileUpload == old(useFileUpload)
      ensures isModalOpen == old(isModalOpen) && alertInfo == old(alertInfo)
      ensures validRepo == old(validRepo) && validCommit == old(validCommit) && validDocumentName == old(validDocumentName)
    {
      uploadedFiles := files;
    }

    /** "Submit Files" is disabled with no file chosen. */
    function SubmitFilesDisabled(): (r: bool)
      reads this
      ensures r <==> |uploadedFiles| == 0
    {
      |uploadedFiles| == 0
    }

    /** The read loop of `handleDocumentUpload`: each file read pushes its name and content. */
    method ReadFiles(readFile: UploadedFile -> Option<string>) returns (fileContents: seq<FileContent>)
      ensures fileContents == ReadContents(uploadedFiles, readFile)
    {
      fileContents := [];
      var i := 0;
      while i < |uploadedFiles|
        invariant 0 <= i <= |uploadedFiles|
        invariant fileContents == ReadContents(uploadedFiles[..i], readFile)
      {
        var file := uploadedFiles[i];
        var read := readFile(file);
        if read.Some? {
          fileContents := fileContents + [FileContent(file.name, read.value)];
        }
        assert uploadedFiles[..i + 1][..i] == uploadedFiles[..i];
        i := i + 1;
      }
      assert uploadedFiles[..|uploadedFiles|] == uploadedFiles;
    }

    /** `handleDocumentUpload`. With no file nothing happens. Otherwise the in-progress alert shows, the
        files are read, and only when every read succeeded is the server contacted (`sent` is the request
        body). Success fills the three provenance fields; failure changes only the alert. */
    method HandleDocumentUpload(readFile: UploadedFile -> Option<string>, outcome: UploadOutcome) returns (sent: Option<seq<FileContent>>)
      modifies this
      ensures |uploadedFiles| == 0 ==> sent.None? && alertInfo == old(alertInfo)
      ensures sent.Some? <==> |uploadedFiles| > 0 && AllRead(uploadedFiles, readFile)
      ensures sent.Some? ==> (|sent.value| == |uploadedFiles|
        && forall i :: 0 <= i < |uploadedFiles| ==> sent.value[i] == FileContent(uploadedFiles[i].name, readFile(uploadedFiles[i]).value))
      ensures |uploadedFiles| > 0 && sent.None? ==> alertInfo == Some(UPLOAD_IN_PROGRESS)
      ensures sent.Some? ==> alertInfo == Some(OutcomeAlert(outcome))
      ensures sent.Some? && outcome.Uploaded? ==>
        && knowledgeDocumentRepositoryUrl == outcome.repoUrl
        && knowledgeDocumentCommit == outcome.commitSha
        && documentName == JoinNames(outcome.documentNames)
      ensures !(sent.Some? && outcome.Uploaded?) ==>
        && knowledgeDocumentRepositoryUrl == old(knowledgeDocumentRepositoryUrl)
        && knowledgeDocumentCommit == old(knowledgeDocumentCommit)
        && documentName == old(documentName)
      ensures uploadedFiles == old(uploadedFiles) && useFileUpload == old(useFileUpload) && isModalOpen == old(isModalOpen)
      ensures validRepo == old(validRepo) && validCommit == old(validCommit) && validDocumentName == old(validDocumentName)
    {
      sent := None;
      if |uploadedFiles| > 0 {
        alertInfo := Some(UPLOAD_IN_PROGRESS);
        var fileContents := ReadFiles(readFile);
        ReadContentsComplete(uploadedFiles, readFile);
        if |fileContents| == |uploadedFiles| {
          sent := Some(fileContents);
          if outcome.Uploaded? {
            knowledgeDocumentRepositoryUrl := outcome.repoUrl;
            knowledgeDocumentCommit := outcome.commitSha;
            documentName := JoinNames(outcome.documentNames);
          }
          alertInfo := Some(OutcomeAlert(outcome));
        }
      }
    }

    /** The alert's close button. */
    method CloseAlert()
      modifies this
      ensures alertInfo.None?
      ensures knowledgeDocumentRepositoryUrl == old(knowledgeDocumentRepositoryUrl) && knowledgeDocumentCommit == old(knowledgeDocumentCommit)
      ensures documentName == old(documentName) && useFileUpload == old(useFileUpload) && uploadedFiles == old(uploadedFiles)
      ensures isModalOpen == old(isModalOpen)
      ensures validRepo == old(validRepo) && validCommit == old(validCommit) && validDocumentName == old(validDocumentName)
    {
      alertInfo := None;
    }

    /** `handleModalContinue`: the mode always flips and the modal closes. Leaving file upload only
        drops the chosen files; leaving manual entry clears the three provenance fields and their validity. */
    method HandleModalContinue()
      modifies this
      ensures useFileUpload == !old(useFileUpload) && !isModalOpen
      ensures old(useFileUpload) ==> (uploadedFiles == []
        && knowledgeDocumentRepositoryUrl == old(knowledgeDocumentRepositoryUrl) && knowledgeDocumentCommit == old(knowledgeDocumentCommit)
        && documentName == old(documentName)
        && validRepo == old(validRepo) && validCommit == old(validCommit) && validDocumentName == old(validDocumentName))
      ensures !old(useFileUpload) ==> (uploadedFiles == old(uploadedFiles)
        && knowledgeDocumentRepositoryUrl == "" && knowledgeDocumentCommit == "" && documentName == ""
        && validRepo == Default && validCommit == Default && validDocumentName == Default)
      ensures alertInfo == old(alertInfo)
    {
      if useFileUpload {
        uploadedFiles := [];
      } else {
        knowledgeDocumentRepositoryUrl := "";
        validRepo := Default;
        knowledgeDocumentCommit := "";
        validCommit := Default;
        documentName := "";
        validDocumentName := Default;
      }
      useFileUpload := !useFileUpload;
      isModalOpen := false;
    }

    /** The modal's Cancel button. */
    method CancelModal()
      modifies this
      ensures !isModalOpen
      ensures knowledgeDocumentRepositoryUrl == old(knowledgeDocumentRepositoryUrl) && knowledgeDocumentCommit == old(knowledgeDocumentCommit)
      ensures documentName == old(documentName) && useFileUpload == old(useFileUpload) && uploadedFiles == old(uploadedFiles)
      ensures alertInfo == old(alertInfo)
      ensures validRepo == old(validRepo) && validCommit == old(validCommit) && validDocumentName == old(validDocumentName)
    {
      isModalOpen := false;
    }
  }
}
