/**
 * The modal that takes a document's details (name, repository URL, commit)
 * by hand. It validates each field on blur; Save does not yet fetch anything
 * and only closes the modal.
 */
module UploadFromGit {
  import opened Text
  import opened Validators

  /** The calls the modal makes to its host. */
  datatype HostCall = OnClose

  class UploadFromGitModal {
    var repositoryUrl: string
    var commitSha: string
    var documentName: string
    var validRepo: Validated
    var validCommit: Validated
    var validDocumentName: Validated

    /** Every field starts empty and every flag at Default. */
    constructor()
      ensures repositoryUrl == "" && commitSha == "" && documentName == ""
      ensures validRepo == Default && validCommit == Default && validDocumentName == Default
    {
      repositoryUrl := "";
      commitSha := "";
      documentName := "";
      validRepo := Default;
      validCommit := Default;
      validDocumentName := Default;
    }

    method SetRepositoryUrl(value: string)
      modifies this
      ensures repositoryUrl == value
      ensures commitSha == old(commitSha) && documentName == old(documentName)
      ensures validRepo == old(validRepo) && validCommit == old(validCommit) && validDocumentName == old(validDocumentName)
    {
      repositoryUrl := value;
    }

    method SetCommitSha(value: string)
      modifies this
      ensures commitSha == value
      ensures repositoryUrl == old(repositoryUrl) && documentName == old(documentName)
      ensures validRepo == old(validRepo) && validCommit == old(validCommit) && validDocumentName == old(validDocumentName)
    {
      commitSha := value;
    }

    method SetDocumentName(value: string)
      modifies this
      ensures documentName == value
      ensures repositoryUrl == old(repositoryUrl) && commitSha == old(commitSha)
      ensures validRepo == old(validRepo) && validCommit == old(validCommit) && validDocumentName == old(validDocumentName)
    {
      documentName := value;
    }

    /** `validateRepo(repositoryURL)`: Error when blank, otherwise Success or Warning as the trimmed
        value parses as a URL. */
    method ValidateRepo(parsesAsUrl: string -> bool)
      modifies this
      ensures validRepo == Error <==> Blank(repositoryUrl)
      ensures validRepo == Success <==> !Blank(repositoryUrl) && parsesAsUrl(Trim(repositoryUrl))
      ensures validRepo == Warning <==> !Blank(repositoryUrl) && !parsesAsUrl(Trim(repositoryUrl))
      ensures repositoryUrl == old(repositoryUrl) && commitSha == old(commitSha) && documentName == old(documentName)
      ensures validCommit == old(validCommit) && validDocumentName == old(validDocumentName)
    {
      validRepo := RepoValidity(repositoryUrl, parsesAsUrl);
    }

    /** `validateCommit(commitSHA)`. */
    method ValidateCommit()
      modifies this
      ensures validCommit == Success <==> !Blank(commitSha)
      ensures validCommit == Error <==> Blank(commitSha)
      ensures repositoryUrl == old(repositoryUrl) && commitSha == old(commitSha) && documentName == old(documentName)
      ensures validRepo == old(validRepo) && validDocumentName == old(validDocumentName)
    {
      validCommit := RequiredValidity(commitSha);
    }

    /** `validateDocumentName(documentName)`. */
    method ValidateDocumentName()
      modifies this
      ensures validDocumentName == Success <==> !Blank(documentName)
      ensures validDocumentName == Error <==> Blank(documentName)
      ensures repositoryUrl == old(repositoryUrl) && commitSha == old(commitSha) && documentName == old(documentName)
      ensures validRepo == old(validRepo) && validCommit == old(validCommit)
    {
      validDocumentName := RequiredValidity(documentName);
    }

    /** `onSave`: no state changes; the host is asked to close the modal. */
    method OnSave() returns (calls: seq<HostCall>)
      ensures calls == [OnClose]
    {
      calls := [OnClose];
    }
  }
}
