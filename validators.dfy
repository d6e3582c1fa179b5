/**
 * The field validators of the contribution forms. Each one maps the value of
 * one input to a `ValidatedOptions` outcome, the tri-state (plus warning)
 * flag PatternFly inputs display. Several components carry their own copy of
 * the same check (email and name in the author and details forms; repository,
 * commit and document name in the document form and the git modal); each check
 * is stated once here and the components' handlers write its outcome.
 */
module Validators {
  import opened Text
  import EmailPattern

  /** PatternFly `ValidatedOptions`. */
  datatype Validated = Default | Success | Warning | Error

  const REQUIRED_FIELD := "Required field"
  const INVALID_EMAIL := "Please enter a valid email address."

  /** The "non-empty after trim" check: success iff the value holds a non-whitespace character. */
  function RequiredValidity(value: string): (v: Validated)
    ensures v == Success <==> !Blank(value)
    ensures v == Error <==> Blank(value)
  {
    if |Trim(value)| > 0 then Success else Error
  }

  /** Outcome of the email check: the validity and the error text that goes with it. */
  datatype EmailCheck = EmailCheck(validity: Validated, message: string)

  /** The email check on the trimmed value: Success with no message, or Error with one. */
  function CheckEmail(value: string): (r: EmailCheck)
    ensures r.validity == Success || r.validity == Error
    ensures r.validity == Success <==> r.message == ""
  {
    var email := Trim(value);
    if EmailPattern.Matches(email) then EmailCheck(Success, "")
    else EmailCheck(Error, if email != "" then INVALID_EMAIL else REQUIRED_FIELD)
  }

  /** What the email check decides: success exactly when the trimmed value has the shape of an
      address; failure says "Required field" for a blank value and asks for a valid address otherwise. */
  lemma {:induction false} CheckEmailMeaning(value: string)
    ensures CheckEmail(value).validity == Success <==> EmailPattern.Shaped(Trim(value))
    ensures CheckEmail(value).validity == Error <==> !EmailPattern.Shaped(Trim(value))
    ensures CheckEmail(value).validity == Error && Blank(value) ==> CheckEmail(value).message == REQUIRED_FIELD
    ensures CheckEmail(value).validity == Error && !Blank(value) ==> CheckEmail(value).message == INVALID_EMAIL
  {
    EmailPattern.MatchesIffShaped(Trim(value));
  }

  /** A blank value never passes the email check, and it gets "Required field". */
  lemma {:induction false} BlankEmailIsRequired(value: string)
    requires Blank(value)
    ensures CheckEmail(value) == EmailCheck(Error, REQUIRED_FIELD)
  {
    assert Trim(value) == "";
    EmailPattern.MatchesIffShaped("");
  }

  /** The repository check: blank is an error; otherwise success when the trimmed value
      parses as a URL (`new URL(...)`, supplied as `parsesAsUrl`) and a warning when it does not. */
  function RepoValidity(value: string, parsesAsUrl: string -> bool): (v: Validated)
    ensures v != Default
    ensures v == Error <==> Blank(value)
    ensures v == Success <==> !Blank(value) && parsesAsUrl(Trim(value))
    ensures v == Warning <==> !Blank(value) && !parsesAsUrl(Trim(value))
  {
    var repo := Trim(value);
    if |repo| == 0 then Error
    else if parsesAsUrl(repo) then Success
    else Warning
  }

  /** The knowledge submission summary: success iff 1 to 60 characters remain after trimming. */
  function KnowledgeSummaryValidity(desc: string): (v: Validated)
    ensures v == Success <==> 0 < |Trim(desc)| <= 60
    ensures v == Error <==> !(0 < |Trim(desc)| <= 60)
  {
    var description := Trim(desc);
    if |description| > 0 && |description| <= 60 then Success else Error
  }

  /** The characters-remaining counter under the knowledge summary: 60 minus the trimmed length
      (negative once the summary is too long). */
  function SummaryCharactersRemaining(summary: string): (n: int)
    ensures n <= 60
    ensures n >= 0 <==> |Trim(summary)| <= 60
  {
    60 - |Trim(summary)|
  }

  /** The skill submission summary: the untrimmed length must be strictly between 0 and 60. */
  function SkillSummaryValidity(description: string): (v: Validated)
    ensures v == Success <==> 0 < |description| < 60
    ensures v == Error <==> !(0 < |description| < 60)
  {
    if |description| > 0 && |description| < 60 then Success else Error
  }

  /** The skill document outline: the untrimmed length must exceed 40. */
  function OutlineValidity(outline: string): (v: Validated)
    ensures v == Success <==> |outline| > 40
    ensures v == Error <==> |outline| <= 40
  {
    if |outline| > 40 then Success else Error
  }

  /** The two summary checks differ: the skill check counts untrimmed characters and
      rejects exactly 60, while the knowledge check trims and accepts 60. */
  lemma {:induction false} SummaryChecksDisagree(s: string)
    requires |s| == 60 && !IsSpace(s[0]) && !IsSpace(s[59])
    ensures KnowledgeSummaryValidity(s) == Success
    ensures SkillSummaryValidity(s) == Error
  {
    assert TrimStart(s) == s;
    assert TrimEnd(s) == s;
  }

  /** A whitespace-only skill summary passes the skill check although it is blank. */
  lemma {:induction false} BlankSkillSummaryPasses()
    ensures SkillSummaryValidity(" ") == Success
    ensures KnowledgeSummaryValidity(" ") == Error
  {
    assert Blank(" ");
  }
}
