/** What `validateData` computes: the seven validity flags of the registration
    form, as a function of the six texts alone, and their conjunction. */
module Validation {
  import opened Rules

  /** The six text inputs of the form. */
  datatype Field = Name | Surname | Email | Phone | Password | ConfirmPassword

  /** The six texts, one per input. */
  datatype Entries = Entries(
    name: string, surname: string, email: string, phone: string,
    password: string, confirmPassword: string)
  {
    /** The text of input `f`. */
    function Of(f: Field): string {
      match f
      case Name => name
      case Surname => surname
      case Email => email
      case Phone => phone
      case Password => password
      case ConfirmPassword => confirmPassword
    }

    /** These texts with input `f` replaced by `text` and every other input kept. */
    function With(f: Field, text: string): (e: Entries)
      ensures e.Of(f) == text
      ensures forall g :: g != f ==> e.Of(g) == Of(g)
    {
      match f
      case Name => this.(name := text)
      case Surname => this.(surname := text)
      case Email => this.(email := text)
      case Phone => this.(phone := text)
      case Password => this.(password := text)
      case ConfirmPassword => this.(confirmPassword := text)
    }
  }

  /** The seven saved flags: one per input, and whether the two passwords agree. */
  datatype Validity = Validity(
    name: bool, surname: bool, email: bool, phone: bool,
    password: bool, confirmPassword: bool, passwordsEqual: bool)
  {
    /** What `validateData` returns: all seven flags hold. */
    predicate AllValid() {
      name && surname && email && phone && password && confirmPassword && passwordsEqual
    }
  }

  /** Every flag starts out true, before the first submit. */
  const Initial := Validity(true, true, true, true, true, true, true)

  /** The flags `validateData` assigns from its six arguments. Each depends on
      its own argument only, except that the equality flag compares the two
      passwords; none depends on any earlier flag. */
  function ValidityOf(
    patterns: Patterns, name: string, surname: string, email: string,
    phone: string, password: string, confirmPassword: string): (v: Validity)
    ensures v.name <==> exists i :: 0 <= i < |name| && !IsWhitespace(name[i])
    ensures v.surname <==> exists i :: 0 <= i < |surname| && !IsWhitespace(surname[i])
    ensures v.email == patterns.emailAddress(email)
    ensures v.phone == patterns.phone(phone)
    ensures v.password <==> |password| == 8 && NoLineTerminator(password)
    ensures v.confirmPassword <==> |confirmPassword| == 8 && NoLineTerminator(confirmPassword)
    ensures v.passwordsEqual <==> password == confirmPassword
  {
    Validity(
      IsNotBlank(name),
      IsNotBlank(surname),
      patterns.emailAddress(email),
      patterns.phone(phone),
      MatchesPasswordRegex(password),
      MatchesPasswordRegex(confirmPassword),
      password == confirmPassword)
  }

  /** `ValidityOf` applied to a set of entries. */
  function ValidityOfEntries(patterns: Patterns, e: Entries): Validity {
    ValidityOf(patterns, e.name, e.surname, e.email, e.phone, e.password, e.confirmPassword)
  }

  /** The form passes exactly when both names hold a non-whitespace character,
      both Android patterns match, the password is 8 characters without a line
      terminator and the confirmation equals it. The separate length check of the
      confirmation never decides the outcome: equality already implies it. */
  lemma AllValidIff(
    patterns: Patterns, name: string, surname: string, email: string,
    phone: string, password: string, confirmPassword: string)
    ensures ValidityOf(patterns, name, surname, email, phone, password, confirmPassword).AllValid()
      <==> IsNotBlank(name) && IsNotBlank(surname) &&
           patterns.emailAddress(email) && patterns.phone(phone) &&
           |password| == 8 && NoLineTerminator(password) &&
           password == confirmPassword
  {
  }

  /** Editing one input changes no flag that does not read it: only the flag of
      that input and, for either password, the equality flag can change. */
  lemma EditChangesOnlyItsFlags(patterns: Patterns, e: Entries, f: Field, text: string)
    ensures var v, w := ValidityOfEntries(patterns, e), ValidityOfEntries(patterns, e.With(f, text));
      (f != Name ==> w.name == v.name) &&
      (f != Surname ==> w.surname == v.surname) &&
      (f != Email ==> w.email == v.email) &&
      (f != Phone ==> w.phone == v.phone) &&
      (f != Password ==> w.password == v.password) &&
      (f != ConfirmPassword ==> w.confirmPassword == v.confirmPassword) &&
      (f != Password && f != ConfirmPassword ==> w.passwordsEqual == v.passwordsEqual)
  {
  }

  /** A text that breaks its own rule blocks the whole form, whatever the other
      five texts are. */
  lemma BrokenRuleBlocksForm(patterns: Patterns, e: Entries, f: Field)
    requires f == Name ==> !IsNotBlank(e.name)
    requires f == Surname ==> !IsNotBlank(e.surname)
    requires f == Email ==> !patterns.emailAddress(e.email)
    requires f == Phone ==> !patterns.phone(e.phone)
    requires f == Password ==> !MatchesPasswordRegex(e.password)
    requires f == ConfirmPassword ==>
      !MatchesPasswordRegex(e.confirmPassword) || e.confirmPassword != e.password
    ensures !ValidityOfEntries(patterns, e).AllValid()
  {
  }

  /** The end-to-end example: with patterns that accept its e-mail address and
      phone number, the form below passes. */
  lemma AcceptedExample(patterns: Patterns)
    requires patterns.emailAddress("ann@x.com") && patterns.phone("+15551234567")
    ensures ValidityOf(patterns, "Ann", "Lee", "ann@x.com", "+15551234567", "abcdefgh", "abcdefgh").AllValid()
  {
  }
}
