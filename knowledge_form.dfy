/**
 * The knowledge contribution's form data: seed examples with their
 * question-and-answer pairs, the document provenance and the attribution
 * fields; the default (empty) form; and the back-fill the wizard applies when
 * it loads the data of a contribution being edited, which supplies missing
 * immutability flags, validity flags and error messages and keeps everything else.
 */
module KnowledgeForm {
  import opened Wrappers
  import opened Validators

  /** A question-and-answer pair; flags and messages absent from stored data are `None`. */
  datatype QuestionAndAnswerPair = QuestionAndAnswerPair(
    immutable: Option<bool>,
    question: string,
    isQuestionValid: Option<Validated>,
    questionValidationError: Option<string>,
    answer: string,
    isAnswerValid: Option<Validated>,
    answerValidationError: Option<string>)

  /** A seed example: a context passage and its question-and-answer pairs. */
  datatype KnowledgeSeedExample = KnowledgeSeedExample(
    immutable: Option<bool>,
    context: string,
    isContextValid: Option<Validated>,
    validationError: Option<string>,
    questionAndAnswers: seq<QuestionAndAnswerPair>)

  datatype KnowledgeFormData = KnowledgeFormData(
    email: string,
    name: string,
    submissionSummary: string,
    domain: string,
    documentOutline: string,
    filePath: string,
    seedExamples: seq<KnowledgeSeedExample>,
    knowledgeDocumentRepositoryUrl: string,
    knowledgeDocumentCommit: string,
    documentName: string,
    titleWork: string,
    linkWork: string,
    revision: string,
    licenseWork: string,
    creators: string)

  /** The fourteen string fields of the form, in declaration order. */
  function StringFields(f: KnowledgeFormData): (fs: seq<string>)
    ensures |fs| == 14
  {
    [f.email, f.name, f.submissionSummary, f.domain, f.documentOutline, f.filePath,
     f.knowledgeDocumentRepositoryUrl, f.knowledgeDocumentCommit, f.documentName,
     f.titleWork, f.linkWork, f.revision, f.licenseWork, f.creators]
  }

  /** `DefaultKnowledgeFormData`; `emptySeed` is what `createEmptySeedExample()` returns. */
  function DefaultKnowledgeFormData(emptySeed: KnowledgeSeedExample): (d: KnowledgeFormData)
    ensures |d.seedExamples| == 5
    ensures forall i :: 0 <= i < |d.seedExamples| ==> d.seedExamples[i] == emptySeed
    ensures forall i :: 0 <= i < |StringFields(d)| ==> StringFields(d)[i] == ""
  {
    KnowledgeFormData("", "", "", "", "", "", [emptySeed, emptySeed, emptySeed, emptySeed, emptySeed],
                      "", "", "", "", "", "", "", "")
  }

  /** The back-fill of one flag: an absent `immutable` becomes `true` (`!== undefined ? … : true`). */
  function FillImmutable(b: Option<bool>): (r: Option<bool>)
    ensures r.Some?
    ensures b.Some? ==> r == b
    ensures b.None? ==> r == Some(true)
  {
    Some(b.GetOr(true))
  }

  /** The back-fill of a validity flag: every defined `ValidatedOptions` value is truthy, so only
      an absent flag is replaced, by Default (`|| ValidatedOptions.default`). */
  function FillValidity(v: Option<Validated>): (r: Option<Validated>)
    ensures r.Some?
    ensures v.Some? ==> r == v
    ensures v.None? ==> r == Some(Default)
  {
    Some(v.GetOr(Default))
  }

  /** The back-fill of an error message: a falsy message (absent or empty) becomes `''`. */
  function FillMessage(m: Option<string>): (r: Option<string>)
    ensures r.Some?
    ensures Truthy(m) ==> r == m
    ensures !Truthy(m) ==> r == Some("")
  {
    Some(OrElse(m, ""))
  }

  function BackFillPair(qa: QuestionAndAnswerPair): (r: QuestionAndAnswerPair)
    ensures r.question == qa.question && r.answer == qa.answer
    ensures r.immutable == FillImmutable(qa.immutable)
    ensures r.isQuestionValid == FillValidity(qa.isQuestionValid)
    ensures r.questionValidationError == FillMessage(qa.questionValidationError)
    ensures r.isAnswerValid == FillValidity(qa.isAnswerValid)
    ensures r.answerValidationError == FillMessage(qa.answerValidationError)
  {
    qa.(immutable := FillImmutable(qa.immutable),
        isQuestionValid := FillValidity(qa.isQuestionValid),
        questionValidationError := FillMessage(qa.questionValidationError),
        isAnswerValid := FillValidity(qa.isAnswerValid),
        answerValidationError := FillMessage(qa.answerValidationError))
  }

  function BackFillPairs(qas: seq<QuestionAndAnswerPair>): (r: seq<QuestionAndAnswerPair>)
    ensures |r| == |qas|
    ensures forall j :: 0 <= j < |qas| ==> r[j] == BackFillPair(qas[j])
  {
    if qas == [] then [] else [BackFillPair(qas[0])] + BackFillPairs(qas[1..])
  }

  function BackFillSeed(example: KnowledgeSeedExample): (r: KnowledgeSeedExample)
    ensures r.context == example.context
    ensures r.immutable == FillImmutable(example.immutable)
    ensures r.isContextValid == FillValidity(example.isContextValid)
    ensures r.validationError == FillMessage(example.validationError)
    ensures |r.questionAndAnswers| == |example.questionAndAnswers|
    ensures forall j :: 0 <= j < |r.questionAndAnswers| ==>
      r.questionAndAnswers[j] == BackFillPair(example.questionAndAnswers[j])
  {
    example.(immutable := FillImmutable(example.immutable),
             isContextValid := FillValidity(example.isContextValid),
             validationError := FillMessage(example.validationError),
             questionAndAnswers := BackFillPairs(example.questionAndAnswers))
  }

  function BackFillSeeds(seeds: seq<KnowledgeSeedExample>): (r: seq<KnowledgeSeedExample>)
    ensures |r| == |seeds|
    ensures forall i :: 0 <= i < |seeds| ==> r[i] == BackFillSeed(seeds[i])
  {
    if seeds == [] then [] else [BackFillSeed(seeds[0])] + BackFillSeeds(seeds[1..])
  }

  /** The edit back-fill: only the seed examples change, each one back-filled, pairs included. */
  function BackFillForm(f: KnowledgeFormData): (r: KnowledgeFormData)
    ensures r == f.(seedExamples := r.seedExamples)
    ensures StringFields(r) == StringFields(f)
    ensures |r.seedExamples| == |f.seedExamples|
    ensures forall i :: 0 <= i < |f.seedExamples| ==> r.seedExamples[i] == BackFillSeed(f.seedExamples[i])
  {
    f.(seedExamples := BackFillSeeds(f.seedExamples))
  }

  /** Every flag and message of a pair is present. */
  predicate PairComplete(qa: QuestionAndAnswerPair) {
    && qa.immutable.Some?
    && qa.isQuestionValid.Some? && qa.questionValidationError.Some?
    && qa.isAnswerValid.Some? && qa.answerValidationError.Some?
  }

  /** Every flag and message of a seed example and of its pairs is present. */
  predicate SeedComplete(example: KnowledgeSeedExample) {
    && example.immutable.Some? && example.isContextValid.Some? && example.validationError.Some?
    && forall j :: 0 <= j < |example.questionAndAnswers| ==> PairComplete(example.questionAndAnswers[j])
  }

  predicate FormComplete(f: KnowledgeFormData) {
    forall i :: 0 <= i < |f.seedExamples| ==> SeedComplete(f.seedExamples[i])
  }

  /** After the back-fill nothing is missing. */
  lemma {:induction false} BackFillCompletes(f: KnowledgeFormData)
    ensures FormComplete(BackFillForm(f))
  {
    forall i | 0 <= i < |f.seedExamples| ensures SeedComplete(BackFillForm(f).seedExamples[i]) {
      var s := BackFillSeed(f.seedExamples[i]);
      forall j | 0 <= j < |s.questionAndAnswers| ensures PairComplete(s.questionAndAnswers[j]) {
        assert s.questionAndAnswers[j] == BackFillPair(f.seedExamples[i].questionAndAnswers[j]);
      }
    }
  }

  /** A pair is left as it is exactly when nothing in it is missing. */
  lemma {:induction false} BackFillPairFixedIffComplete(qa: QuestionAndAnswerPair)
    ensures BackFillPair(qa) == qa <==> PairComplete(qa)
  {
  }

  /** Data that already carries every flag and message is left exactly as it was. */
  lemma {:induction false} BackFillKeepsCompleteForm(f: KnowledgeFormData)
    requires FormComplete(f)
    ensures BackFillForm(f) == f
  {
    var r := BackFillForm(f);
    forall i | 0 <= i < |f.seedExamples| ensures r.seedExamples[i] == f.seedExamples[i] {
      var e := f.seedExamples[i];
      assert SeedComplete(e);
      var qas := BackFillSeed(e).questionAndAnswers;
      forall j | 0 <= j < |e.questionAndAnswers| ensures qas[j] == e.questionAndAnswers[j] {
        assert PairComplete(e.questionAndAnswers[j]);
      }
      assert qas == e.questionAndAnswers;
    }
    assert r.seedExamples == f.seedExamples;
  }

  /** Loading the same edit data twice gives the same form as loading it once. */
  lemma {:induction false} BackFillIdempotent(f: KnowledgeFormData)
    ensures BackFillForm(BackFillForm(f)) == BackFillForm(f)
  {
    BackFillCompletes(f);
    BackFillKeepsCompleteForm(BackFillForm(f));
  }
}
