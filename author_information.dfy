/**
 * The author fields of a contribution (email and name, owned by the wizard)
 * with their validity flags and the email error text. The flags start
 * undefined; the effect on `reset` sets them to Default and the blur checks
 * write them.
 */
module AuthorInformation {
  import opened Wrappers
  import opened Text
  import opened Validators

  /** The email error text before the first check (note the capital F). */
  const INITIAL_EMAIL_ERROR := "Required Field"

  class AuthorFields {
    /** The wizard's values. */
    var email: string
    var name: string
    var validEmail: Option<Validated>
    var validName: Option<Validated>
    var validEmailError: string

    constructor(email: string, name: string)
      ensures this.email == email && this.name == name
      ensures validEmail.None? && validName.None? && validEmailError == INITIAL_EMAIL_ERROR
    {
      this.email := email;
      this.name := name;
      validEmail := None;
      validName := None;
      validEmailError := INITIAL_EMAIL_ERROR;
    }

    method SetEmail(value: string)
      modifies this
      ensures email == value
      ensures name == old(name) && validEmail == old(validEmail) && validName == old(validName)
      ensures validEmailError == old(validEmailError)
    {
      email := value;
    }

    method SetName(value: string)
      modifies this
      ensures name == value
      ensures email == old(email) && validEmail == old(validEmail) && validName == old(validName)
      ensures validEmailError == old(validEmailError)
    {
      name := value;
    }

    /** `validateEmail(email)`: the email check's outcome and message; the name flag stays. */
    method ValidateEmail()
      modifies this
      ensures validEmail == Some(CheckEmail(old(email)).validity)
      ensures validEmailError == CheckEmail(old(email)).message
      ensures validName == old(validName) && email == old(email) && name == old(name)
    {
      var check := CheckEmail(email);
      validEmail, validEmailError := Some(check.validity), check.message;
    }

    /** `validateName(name)`: success iff the name is not blank; the email flag stays. */
    method ValidateName()
      modifies this
      ensures validName == Some(Success) <==> !Blank(name)
      ensures validName == Some(Error) <==> Blank(name)
      ensures validEmail == old(validEmail) && validEmailError == old(validEmailError)
      ensures email == old(email) && name == old(name)
    {
      validName := Some(RequiredValidity(name));
    }

    /** The effect on `reset` (also run on mount): both flags back to Default; the error text stays. */
    method OnReset()
      modifies this
      ensures validEmail == Some(Default) && validName == Some(Default)
      ensures validEmailError == old(validEmailError) && email == old(email) && name == old(name)
    {
      validEmail := Some(Default);
      validName := Some(Default);
    }

    /** The email error is displayed only when the email check failed. */
    function EmailErrorText(): (t: Option<string>)
      reads this
      ensures t.Some? <==> validEmail == Some(Error)
      ensures t.Some? ==> t.value == validEmailError
    {
      if validEmail == Some(Error) then Some(validEmailError) else None
    }
  }
}
