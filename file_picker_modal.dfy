/**
 * The newer knowledge-file modal of the seed-example editor. It lists the
 * knowledge files of the taxonomy documents repository grouped by commit,
 * newest commit first, lets the user expand a file of the selectable commit
 * and highlight a passage in it, counts the words of the highlighted passage,
 * and hands the passage back as the seed example's context together with the
 * document it came from.
 *
 * As in the older modal, the browser selection is modelled by what the
 * handlers read from it (`SelectionProbe`). Sorting commits by date parses
 * dates, which this model does not do: the sorted commit list is an input.
 */
module FilePickerModal {
  import opened Wrappers
  import opened Text

  datatype KnowledgeFile = KnowledgeFile(filename: string, content: string, commitSha: string, commitDate: Option<string>)

  /** The commits that occur among the files. */
  function Shas(files: seq<KnowledgeFile>): set<string> {
    set i | 0 <= i < |files| :: files[i].commitSha
  }

  /** The files of one commit, in input order. */
  function FilesOf(files: seq<KnowledgeFile>, sha: string): (r: seq<KnowledgeFile>)
    ensures |r| <= |files|
    ensures forall f :: f in r ==> f in files && f.commitSha == sha
  {
    if files == [] then []
    else
      var last := files[|files| - 1];
      FilesOf(files[..|files| - 1], sha) + (if last.commitSha == sha then [last] else [])
  }

  /** Reference definition of `groupedFiles`: one group per commit, holding that commit's files in order. */
  function Grouped(files: seq<KnowledgeFile>): map<string, seq<KnowledgeFile>> {
    map sha | sha in Shas(files) :: FilesOf(files, sha)
  }

  lemma {:induction false} FilesOfAbsent(files: seq<KnowledgeFile>, sha: string)
    requires sha !in Shas(files)
    ensures FilesOf(files, sha) == []
  {
    if files != [] {
      var init := files[..|files| - 1];
      assert Shas(init) <= Shas(files) by {
        forall s | s in Shas(init) ensures s in Shas(files) {
          var i :| 0 <= i < |init| && init[i].commitSha == s;
          assert files[i].commitSha == s;
        }
      }
      FilesOfAbsent(init, sha);
      assert files[|files| - 1].commitSha in Shas(files);
    }
  }

  lemma {:induction false} ShasSnoc(files: seq<KnowledgeFile>, file: KnowledgeFile)
    ensures Shas(files + [file]) == Shas(files) + {file.commitSha}
  {
    var all := files + [file];
    forall s | s in Shas(all) ensures s in Shas(files) + {file.commitSha} {
      var i :| 0 <= i < |all| && all[i].commitSha == s;
      if i < |files| { assert files[i].commitSha == s; }
    }
    forall s | s in Shas(files) ensures s in Shas(all) {
      var i :| 0 <= i < |files| && files[i].commitSha == s;
      assert all[i].commitSha == s;
    }
    assert all[|files|].commitSha == file.commitSha;
  }

  lemma {:induction false} FilesOfSnoc(files: seq<KnowledgeFile>, file: KnowledgeFile, sha: string)
    ensures FilesOf(files + [file], sha) == FilesOf(files, sha) + (if file.commitSha == sha then [file] else [])
  {
    var all := files + [file];
    assert all[..|all| - 1] == files;
  }

  /** Adding a file extends its commit's group, creating the group if needed, and nothing else. */
  lemma {:induction false} GroupedSnoc(files: seq<KnowledgeFile>, file: KnowledgeFile)
    ensures var g := Grouped(files);
      Grouped(files + [file])
        == g[file.commitSha := (if file.commitSha in g then g[file.commitSha] else []) + [file]]
  {
    var g := Grouped(files);
    var h := Grouped(files + [file]);
    var expected := g[file.commitSha := (if file.commitSha in g then g[file.commitSha] else []) + [file]];
    ShasSnoc(files, file);
    if file.commitSha !in Shas(files) {
      FilesOfAbsent(files, file.commitSha);
    }
    assert h.Keys == expected.Keys;
    forall s | s in h.Keys ensures h[s] == expected[s] {
      FilesOfSnoc(files, file, s);
    }
  }

  /** The reduce that builds `groupedFiles`: create the commit's array when missing, then push the file. */
  method GroupFiles(files: seq<KnowledgeFile>) returns (groups: map<string, seq<KnowledgeFile>>)
    ensures groups == Grouped(files)
  {
    groups := map[];
    var i := 0;
    while i < |files|
      invariant 0 <= i <= |files|
      invariant groups == Grouped(files[..i])
    {
      var file := files[i];
      var group: seq<KnowledgeFile> := [];
      if file.commitSha in groups {
        group := groups[file.commitSha];
      }
      groups := groups[file.commitSha := group + [file]];
      GroupedSnoc(files[..i], file);
      assert files[..i + 1] == files[..i] + [file];
      i := i + 1;
    }
    assert files[..|files|] == files;
  }

  lemma {:induction false} FilesOfHas(files: seq<KnowledgeFile>, i: nat)
    requires i < |files|
    ensures files[i] in FilesOf(files, files[i].commitSha)
  {
    var init := files[..|files| - 1];
    if i < |files| - 1 {
      assert init[i] == files[i];
      FilesOfHas(init, i);
    }
  }

  /** `groupedFiles` partitions the files: each file is in the group of its commit and in no other group. */
  lemma {:induction false} FileInExactlyOneGroup(files: seq<KnowledgeFile>, i: nat)
    requires i < |files|
    ensures files[i].commitSha in Grouped(files)
    ensures files[i] in Grouped(files)[files[i].commitSha]
    ensures forall sha :: sha in Grouped(files) && files[i] in Grouped(files)[sha] ==> sha == files[i].commitSha
  {
    FilesOfHas(files, i);
  }

  /** Every group is non-empty, so every commit card shows at least one file. */
  lemma {:induction false} GroupsNonEmpty(files: seq<KnowledgeFile>, sha: string)
    requires sha in Grouped(files)
    ensures |Grouped(files)[sha]| > 0
  {
    var i :| 0 <= i < |files| && files[i].commitSha == sha;
    FilesOfHas(files, i);
  }

  /** Reference definition of `commitDateMap`, file by file: a file with a date records it for its
      commit unless the commit already has a date. */
  function FirstDates(files: seq<KnowledgeFile>): map<string, string> {
    if files == [] then map[]
    else
      var m := FirstDates(files[..|files| - 1]);
      var file := files[|files| - 1];
      if Truthy(file.commitDate) && !(file.commitSha in m && m[file.commitSha] != "") then m[file.commitSha := file.commitDate.value]
      else m
  }

  /** The `forEach` that fills `commitDateMap`. */
  method CommitDateMap(files: seq<KnowledgeFile>) returns (dates: map<string, string>)
    ensures dates == FirstDates(files)
  {
    dates := map[];
    var i := 0;
    while i < |files|
      invariant 0 <= i <= |files|
      invariant dates == FirstDates(files[..i])
    {
      var file := files[i];
      if file.commitDate.Some? && file.commitDate.value != "" && !(file.commitSha in dates && dates[file.commitSha] != "") {
        dates := dates[file.commitSha := file.commitDate.value];
      }
      assert files[..i + 1][..i] == files[..i];
      i := i + 1;
    }
    assert files[..|files|] == files;
  }

  /** File `i` is the first one of its commit with a date. */
  predicate FirstDated(files: seq<KnowledgeFile>, i: int) {
    && 0 <= i < |files| && Truthy(files[i].commitDate)
    && forall j :: 0 <= j < i && files[j].commitSha == files[i].commitSha ==> !Truthy(files[j].commitDate)
  }

  /** `commitDateMap` holds, for each commit that has a dated file, the date of its first dated
      file, and nothing for the other commits: later files never overwrite. */
  lemma {:induction false} FirstDatesAreFirst(files: seq<KnowledgeFile>, sha: string)
    ensures sha in FirstDates(files) <==> exists i :: 0 <= i < |files| && files[i].commitSha == sha && Truthy(files[i].commitDate)
    ensures sha in FirstDates(files) ==> (FirstDates(files)[sha] != ""
      && exists i :: FirstDated(files, i) && files[i].commitSha == sha && FirstDates(files)[sha] == files[i].commitDate.value)
  {
    if files != [] {
      var init := files[..|files| - 1];
      var last := files[|files| - 1];
      FirstDatesAreFirst(init, sha);
      var m := FirstDates(init);
      if sha in m {
        var i :| FirstDated(init, i) && init[i].commitSha == sha && m[sha] == init[i].commitDate.value;
        assert FirstDated(files, i);
        assert files[i].commitSha == sha && Truthy(files[i].commitDate);
      } else {
        if last.commitSha == sha && Truthy(last.commitDate) {
          assert FirstDated(files, |files| - 1);
        } else {
          forall i | 0 <= i < |files| && files[i].commitSha == sha ensures !Truthy(files[i].commitDate) {
            if i < |init| { assert files[i] == init[i]; }
          }
        }
      }
    }
  }

  /** `isSameCommit`: with no commit chosen every commit is selectable, otherwise only the chosen one. */
  function IsSameCommit(fileCommitSha: string, commitSha: string): (r: bool)
    ensures commitSha == "" ==> r
    ensures commitSha != "" ==> (r <==> fileCommitSha == commitSha)
  {
    if commitSha == "" then true else fileCommitSha == commitSha
  }

  /** Once a commit is chosen, at most one commit is selectable. */
  lemma {:induction false} OneSelectableCommit(commitSha: string, a: string, b: string)
    requires commitSha != ""
    requires IsSameCommit(a, commitSha) && IsSameCommit(b, commitSha)
    ensures a == b
  {
  }

  /** `commitsToDisplay`: the whole sorted list, or only its first commit (none when there is none). */
  function CommitsToDisplay(sortedCommitShas: seq<string>, showAllCommits: bool): (r: seq<string>)
    ensures r <= sortedCommitShas
    ensures showAllCommits ==> r == sortedCommitShas
    ensures !showAllCommits ==> |r| == (if sortedCommitShas == [] then 0 else 1)
  {
    if showAllCommits then sortedCommitShas else sortedCommitShas[..if |sortedCommitShas| < 1 then |sortedCommitShas| else 1]
  }

  /** When the sorted list holds commits of the files, every displayed commit has files to show. */
  lemma {:induction false} DisplayedCommitsHaveFiles(files: seq<KnowledgeFile>, sortedCommitShas: seq<string>, showAllCommits: bool)
    requires forall s :: s in sortedCommitShas ==> s in Grouped(files)
    ensures forall s :: s in CommitsToDisplay(sortedCommitShas, showAllCommits) ==> |Grouped(files)[s]| > 0
  {
    forall s | s in CommitsToDisplay(sortedCommitShas, showAllCommits) ensures |Grouped(files)[s]| > 0 {
      GroupsNonEmpty(files, s);
    }
  }

  /** A template literal's rendering of an environment variable: an unset one reads "undefined", so
      the rendering is empty only for a variable set to the empty string. */
  function EnvText(v: Option<string>): (r: string)
    ensures v.Some? ==> r == v.value
    ensures r == "" <==> v == Some("")
  {
    if v.Some? then v.value else "undefined"
  }

  const DOCS_DIR := "/taxonomy-knowledge-docs"
  const HOME_DOCS_DIR := "/.instructlab-ui/taxonomy-knowledge-docs"

  /** `LOCAL_TAXONOMY_DOCS_ROOT_DIR` as written: the left operand of `||` is a non-empty template
      literal, so the home-directory fallback is never taken. */
  function DocsRootAsWritten(localRootDir: Option<string>, home: Option<string>): (r: string)
    ensures r == EnvText(localRootDir) + DOCS_DIR
  {
    var primary := EnvText(localRootDir) + DOCS_DIR;
    if primary != "" then primary else EnvText(home) + HOME_DOCS_DIR
  }

  /** With the variable unset the documents root is the relative path "undefined/taxonomy-knowledge-docs",
      whatever the home directory. */
  lemma {:induction false} UnsetRootIsUndefined(home: Option<string>)
    ensures DocsRootAsWritten(None, home) == "undefined/taxonomy-knowledge-docs"
  {
  }

  /** The documents root with the fallback taking effect when the variable is unset or empty. */
  function DocsRoot(localRootDir: Option<string>, home: Option<string>): (r: string)
    ensures Truthy(localRootDir) ==> r == localRootDir.value + DOCS_DIR
    ensures !Truthy(localRootDir) ==> r == EnvText(home) + HOME_DOCS_DIR
  {
    if Truthy(localRootDir) then localRootDir.value + DOCS_DIR else EnvText(home) + HOME_DOCS_DIR
  }

  /** With the correction an unset root variable falls back to the home directory. */
  lemma {:induction false} UnsetRootFallsBackToHome(home: string)
    ensures DocsRoot(None, Some(home)) == home + "/.instructlab-ui/taxonomy-knowledge-docs"
    ensures DocsRoot(None, Some(home)) != DocsRootAsWritten(None, Some(home))
  {
    assert |DocsRoot(None, Some(home))| == |home| + 40;
    assert |DocsRootAsWritten(None, Some(home))| == 33;
  }

  /** What the browser selection looks like to the handlers: its text, whether the document element
      of a file is mounted, and whether the selection's anchor and focus both lie inside it. */
  datatype SelectionProbe = SelectionProbe(text: string, mounted: string -> bool, inside: string -> bool)

  /** `updateSelectedWordCount(filename)` as a function of the previous count. */
  function CountFor(filename: string, probe: SelectionProbe, previous: nat): (n: nat)
    ensures !probe.mounted(filename) ==> n == previous
    ensures probe.mounted(filename) && probe.inside(filename) ==> n == |Words(probe.text)|
    ensures probe.mounted(filename) && !probe.inside(filename) ==> n == 0
  {
    if probe.mounted(filename) then (if probe.inside(filename) then CountWords(probe.text) else 0) else previous
  }

  /** The count after the `selectionchange` listener visits the expanded files in key order. */
  function CountAfterVisit(keys: seq<string>, expanded: map<string, bool>, probe: SelectionProbe, previous: nat): nat {
    if keys == [] then previous
    else
      var n := CountAfterVisit(keys[..|keys| - 1], expanded, probe, previous);
      var filename := keys[|keys| - 1];
      if filename in expanded && expanded[filename] then CountFor(filename, probe, n) else n
  }

  /** One more key visited: the count of the longer prefix in terms of the shorter one. */
  lemma {:induction false} CountAfterVisitStep(keys: seq<string>, i: nat, expanded: map<string, bool>, probe: SelectionProbe, previous: nat)
    requires i < |keys|
    ensures var n := CountAfterVisit(keys[..i], expanded, probe, previous);
      CountAfterVisit(keys[..i + 1], expanded, probe, previous)
        == if keys[i] in expanded && expanded[keys[i]] then CountFor(keys[i], probe, n) else n
  {
    assert keys[..i + 1][..i] == keys[..i];
  }

  /** With no expanded file whose element is mounted, the visit leaves the count as it was. */
  lemma {:induction false} NoMountedFileKeepsCount(keys: seq<string>, expanded: map<string, bool>, probe: SelectionProbe, previous: nat)
    requires forall k :: 0 <= k < |keys| && keys[k] in expanded && expanded[keys[k]] ==> !probe.mounted(keys[k])
    ensures CountAfterVisit(keys, expanded, probe, previous) == previous
  {
    if keys != [] {
      var init := keys[..|keys| - 1];
      assert forall k :: 0 <= k < |init| ==> init[k] == keys[k];
      NoMountedFileKeepsCount(init, expanded, probe, previous);
    }
  }

  /** Otherwise the last expanded file whose element is mounted decides the count alone. */
  lemma {:induction false} LastMountedFileDecides(keys: seq<string>, expanded: map<string, bool>, probe: SelectionProbe, previous: nat, k: nat)
    requires k < |keys| && keys[k] in expanded && expanded[keys[k]] && probe.mounted(keys[k])
    requires forall l :: k < l < |keys| && keys[l] in expanded && expanded[keys[l]] ==> !probe.mounted(keys[l])
    ensures CountAfterVisit(keys, expanded, probe, previous) == CountFor(keys[k], probe, 0)
  {
    var init := keys[..|keys| - 1];
    if k < |keys| - 1 {
      assert forall l :: 0 <= l < |init| ==> init[l] == keys[l];
      LastMountedFileDecides(init, expanded, probe, previous, k);
    }
  }

  /** The end of the file-list request. */
  datatype FilesOutcome = Listed(files: seq<KnowledgeFile>) | Refused(error: Option<string>) | Unreachable

  const FETCH_FAILED := "Failed to fetch knowledge files."
  const FETCH_ERROR := "An error occurred while fetching knowledge files."
  const SELECT_TEXT_ALERT := "Please select the text you want to use as context."
  const MAX_SELECTED_WORDS := 500

  /** The calls `handleUseSelectedText` makes to the seed-example editor. */
  datatype EditorCall =
    | ContextInputChange(seedExampleIndex: int, contextValue: string)
    | ContextBlur(seedExampleIndex: int)
    | AddDocumentInfo(repositoryUrl: string, commitSha: string, docName: string)
    | CloseModal
    | AlertPopup(message: string)

  class KnowledgeFilePicker {
    const isGithubMode: bool
    const seedExampleIndex: int
    const commitSha: string
    const docsRoot: string
    var knowledgeFiles: seq<KnowledgeFile>
    var isLoading: bool
    var error: string
    /** `expandedFiles`, with its keys in insertion order, as `Object.keys` lists them. */
    var expandedKeys: seq<string>
    var expandedFiles: map<string, bool>
    var selectedWordCount: nat
    var showAllCommits: bool

    predicate Valid()
      reads this
    {
      && (forall k :: 0 <= k < |expandedKeys| ==> expandedKeys[k] in expandedFiles)
      && (forall f :: f in expandedFiles ==> f in expandedKeys)
      && (forall i, j :: 0 <= i < j < |expandedKeys| ==> expandedKeys[i] != expandedKeys[j])
    }

    /** The initial state; `docsRoot` is the documents root computed from the environment. */
    constructor(isGithubMode: bool, seedExampleIndex: int, commitSha: string, localRootDir: Option<string>, home: Option<string>)
      ensures Valid()
      ensures this.isGithubMode == isGithubMode && this.seedExampleIndex == seedExampleIndex && this.commitSha == commitSha
      ensures docsRoot == DocsRoot(localRootDir, home)
      ensures knowledgeFiles == [] && isLoading && error == ""
      ensures expandedKeys == [] && expandedFiles == map[] && selectedWordCount == 0 && !showAllCommits
    {
      this.isGithubMode := isGithubMode;
      this.seedExampleIndex := seedExampleIndex;
      this.commitSha := commitSha;
      docsRoot := DocsRoot(localRootDir, home);
      knowledgeFiles := [];
      isLoading := true;
      error := "";
      expandedKeys := [];
      expandedFiles := map[];
      selectedWordCount := 0;
      showAllCommits := false;
    }

    /** The start of `fetchKnowledgeFiles`. */
    method StartFetch()
      modifies this
      ensures isLoading && error == ""
      ensures knowledgeFiles == old(knowledgeFiles) && expandedKeys == old(expandedKeys) && expandedFiles == old(expandedFiles)
      ensures selectedWordCount == old(selectedWordCount) && showAllCommits == old(showAllCommits)
    {
      isLoading := true;
      error := "";
    }

    /** The end of `fetchKnowledgeFiles`: loading always ends; a listing replaces the files, a refusal
        records its message or a fixed one, an exception records a fixed one. */
    method FinishFetch(outcome: FilesOutcome)
      modifies this
      ensures !isLoading
      ensures outcome.Listed? ==> knowledgeFiles == outcome.files && error == old(error)
      ensures outcome.Refused? ==> knowledgeFiles == old(knowledgeFiles) && error == OrElse(outcome.error, FETCH_FAILED)
      ensures outcome.Unreachable? ==> knowledgeFiles == old(knowledgeFiles) && error == FETCH_ERROR
      ensures expandedKeys == old(expandedKeys) && expandedFiles == old(expandedFiles)
      ensures selectedWordCount == old(selectedWordCount) && showAllCommits == old(showAllCommits)
    {
      match outcome {
        case Listed(files) => knowledgeFiles := files;
        case Refused(message) => error := OrElse(message, FETCH_FAILED);
        case Unreachable => error := FETCH_ERROR;
      }
      isLoading := false;
    }

    /** `toggleFileContent`: flip one file's flag (absent counts as false) and leave the others. */
    method ToggleFileContent(filename: string)
      requires Valid()
      modifies this
      ensures Valid()
      ensures filename in expandedFiles
      ensures expandedFiles[filename] == !(filename in old(expandedFiles) && old(expandedFiles)[filename])
      ensures forall f :: f != filename ==> (f in expandedFiles <==> f in old(expandedFiles))
      ensures forall f :: f != filename && f in expandedFiles ==> expandedFiles[f] == old(expandedFiles)[f]
      ensures knowledgeFiles == old(knowledgeFiles) && isLoading == old(isLoading) && error == old(error)
      ensures selectedWordCount == old(selectedWordCount) && showAllCommits == old(showAllCommits)
    {
      var wasExpanded := filename in expandedFiles && expandedFiles[filename];
      if filename !in expandedFiles {
        expandedKeys := expandedKeys + [filename];
      }
      expandedFiles := expandedFiles[filename := !wasExpanded];
    }

    /** Toggling the same file twice restores its flag. */
    lemma {:induction false} ToggleTwice(filename: string, flags: map<string, bool>)
      ensures var once := flags[filename := !(filename in flags && flags[filename])];
        var twice := once[filename := !(filename in once && once[filename])];
        twice[filename] == (filename in flags && flags[filename])
    {
    }

    method ToggleShowAllCommits()
      modifies this
      ensures showAllCommits == !old(showAllCommits)
      ensures knowledgeFiles == old(knowledgeFiles) && isLoading == old(isLoading) && error == old(error)
      ensures expandedKeys == old(expandedKeys) && expandedFiles == old(expandedFiles)
      ensures selectedWordCount == old(selectedWordCount)
    {
      showAllCommits := !showAllCommits;
    }

    /** `updateSelectedWordCount(filename)`. */
    method UpdateSelectedWordCount(filename: string, probe: SelectionProbe)
      modifies this
      ensures !probe.mounted(filename) ==> selectedWordCount == old(selectedWordCount)
      ensures probe.mounted(filename) && probe.inside(filename) ==> selectedWordCount == |Words(probe.text)|
      ensures probe.mounted(filename) && !probe.inside(filename) ==> selectedWordCount == 0
      ensures knowledgeFiles == old(knowledgeFiles) && isLoading == old(isLoading) && error == old(error)
      ensures expandedKeys == old(expandedKeys) && expandedFiles == old(expandedFiles)
      ensures showAllCommits == old(showAllCommits)
    {
      if probe.mounted(filename) {
        if probe.inside(filename) {
          selectedWordCount := CountWords(probe.text);
        } else {
          selectedWordCount := 0;
        }
      }
    }

    /** The `selectionchange` listener: every expanded file, in key order, updates the count. */
    method HandleSelectionChange(probe: SelectionProbe)
      modifies this
      ensures selectedWordCount == CountAfterVisit(expandedKeys, expandedFiles, probe, old(selectedWordCount))
      ensures knowledgeFiles == old(knowledgeFiles) && isLoading == old(isLoading) && error == old(error)
      ensures expandedKeys == old(expandedKeys) && expandedFiles == old(expandedFiles)
      ensures showAllCommits == old(showAllCommits)
    {
      var keys := expandedKeys;
      var i := 0;
      while i < |keys|
        invariant 0 <= i <= |keys|
        invariant selectedWordCount == CountAfterVisit(keys[..i], expandedFiles, probe, old(selectedWordCount))
        invariant knowledgeFiles == old(knowledgeFiles) && isLoading == old(isLoading) && error == old(error)
        invariant expandedKeys == old(expandedKeys) && expandedFiles == old(expandedFiles)
        invariant showAllCommits == old(showAllCommits)
      {
        var filename := keys[i];
        CountAfterVisitStep(keys, i, expandedFiles, probe, old(selectedWordCount));
        if filename in expandedFiles && expandedFiles[filename] {
          UpdateSelectedWordCount(filename, probe);
        }
        i := i + 1;
      }
      assert keys[..|keys|] == keys;
    }

    /** A file's expand button is disabled unless its commit is selectable. */
    function ExpandDisabled(file: KnowledgeFile): (r: bool)
      reads this
      ensures r <==> commitSha != "" && file.commitSha != commitSha
    {
      !IsSameCommit(file.commitSha, commitSha)
    }

    /** "Use Selected Text For Context" is disabled with no words or more than 500. */
    function UseButtonDisabled(): (r: bool)
      reads this
      ensures !r <==> 0 < selectedWordCount <= MAX_SELECTED_WORDS
    {
      selectedWordCount == 0 || selectedWordCount > MAX_SELECTED_WORDS
    }

    /** `handleUseSelectedText(file)`: a blank selection only raises the alert; otherwise the trimmed text
        becomes the context, the context is blurred, the document is recorded, and the modal closes. */
    method HandleUseSelectedText(file: KnowledgeFile, selectionText: string) returns (calls: seq<EditorCall>)
      ensures Blank(selectionText) ==> calls == [AlertPopup(SELECT_TEXT_ALERT)]
      ensures !Blank(selectionText) ==> calls == [
        ContextInputChange(seedExampleIndex, Trim(selectionText)),
        ContextBlur(seedExampleIndex),
        AddDocumentInfo(docsRoot + "/" + file.filename, file.commitSha, file.filename),
        CloseModal]
    {
      var selectedText := Trim(selectionText);
      if selectedText == "" {
        return [AlertPopup(SELECT_TEXT_ALERT)];
      }
      var repositoryUrl := docsRoot + "/" + file.filename;
      calls := [ContextInputChange(seedExampleIndex, selectedText), ContextBlur(seedExampleIndex),
                AddDocumentInfo(repositoryUrl, file.commitSha, file.filename), CloseModal];
    }
  }
}
