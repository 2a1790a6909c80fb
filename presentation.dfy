/** How each input field of the form presents the saved flags: whether it shows
    an error, and which message it shows. */
module Presentation {
  import opened Rules
  import opened Validation

  const NameError := "Please input a valid name"
  const SurnameError := "Please input a valid surname"
  const EmailError := "Please input a valid email"
  const PhoneError := "Please input a valid phone number"
  const PasswordError := "Must be minimum length of 8"
  /** The message meant for two passwords that differ; its text is the length
      message's. */
  const EqualPasswordError := "Must be minimum length of 8"

  /** The `showError` argument of each field: the negation of its flag, and for
      the confirmation field the negation of its length flag and the equality
      flag together. An error shown anywhere means the form did not pass. */
  function ShowError(f: Field, v: Validity): (r: bool)
    ensures r ==> !v.AllValid()
  {
    match f
    case Name => !v.name
    case Surname => !v.surname
    case Email => !v.email
    case Phone => !v.phone
    case Password => !v.password
    case ConfirmPassword => !v.confirmPassword || !v.passwordsEqual
  }

  /** The `errorMessage` argument of each field. The confirmation field picks the
      equality message when its length flag holds (and the length message
      otherwise); since the two texts are the same, it always shows the length
      message's text, so a mismatch of two well-formed passwords is reported as
      a length problem. */
  function ErrorMessage(f: Field, v: Validity): (m: string)
    ensures f == ConfirmPassword ==> m == PasswordError
    ensures f == ConfirmPassword && v.confirmPassword ==> m == EqualPasswordError
  {
    match f
    case Name => NameError
    case Surname => SurnameError
    case Email => EmailError
    case Phone => PhoneError
    case Password => PasswordError
    case ConfirmPassword => if !v.confirmPassword then PasswordError else EqualPasswordError
  }

  /** No field shows an error exactly when `validateData` would return true for
      these flags. */
  lemma NoErrorShownIffAllValid(v: Validity)
    ensures (forall f :: !ShowError(f, v)) <==> v.AllValid()
  {
    if forall f :: !ShowError(f, v) {
      assert !ShowError(Name, v) && !ShowError(Surname, v) && !ShowError(Email, v);
      assert !ShowError(Phone, v) && !ShowError(Password, v) && !ShowError(ConfirmPassword, v);
    }
  }

  /** Before any submit no field shows an error. */
  lemma InitialShowsNoError(f: Field)
    ensures !ShowError(f, Initial)
  {
  }

  /** Which message a field shows never depends on the flags. */
  lemma MessageIndependentOfFlags(f: Field, v: Validity, w: Validity)
    ensures ErrorMessage(f, v) == ErrorMessage(f, w)
  {
  }

  /** After a submit, each field shows an error exactly when its own text breaks
      its rule; the confirmation field also when it differs from the password. */
  lemma ErrorShownIffRuleBroken(
    patterns: Patterns, name: string, surname: string, email: string,
    phone: string, password: string, confirmPassword: string)
    ensures var v := ValidityOf(patterns, name, surname, email, phone, password, confirmPassword);
      (ShowError(Name, v) <==> forall i :: 0 <= i < |name| ==> IsWhitespace(name[i])) &&
      (ShowError(Surname, v) <==> forall i :: 0 <= i < |surname| ==> IsWhitespace(surname[i])) &&
      (ShowError(Email, v) <==> !patterns.emailAddress(email)) &&
      (ShowError(Phone, v) <==> !patterns.phone(phone)) &&
      (ShowError(Password, v) <==> |password| != 8 || !NoLineTerminator(password)) &&
      (ShowError(ConfirmPassword, v) <==>
        |confirmPassword| != 8 || !NoLineTerminator(confirmPassword) || password != confirmPassword)
  {
  }
}
