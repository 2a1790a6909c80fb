/** The state of the registration screen: the six texts, the seven saved
    validity flags, and the records the submit action has logged. */
module ShowForm {
  import opened Rules
  import opened Validation

  /** What a successful registration logs: the e-mail address and the
      confirmation are not part of it. */
  datatype Record = Record(name: string, surname: string, phone: string, password: string)

  class FormState {
    /** The e-mail and phone matchers of the platform. */
    const patterns: Patterns

    var name: string
    var surname: string
    var email: string
    var phone: string
    var password: string
    var confirmPassword: string

    var validateName: bool
    var validateSurname: bool
    var validateEmail: bool
    var validatePhone: bool
    var validatePassword: bool
    var validateConfirmPassword: bool
    var validatePasswordsEqual: bool

    /** The debug log, as the sequence of records written to it. */
    ghost var log: seq<Record>

    /** The six texts. */
    function Values(): Entries
      reads this
    {
      Entries(name, surname, email, phone, password, confirmPassword)
    }

    /** The seven saved flags. */
    function Flags(): Validity
      reads this
    {
      Validity(validateName, validateSurname, validateEmail, validatePhone,
               validatePassword, validateConfirmPassword, validatePasswordsEqual)
    }

    /** A fresh screen: every text empty, every flag true, nothing logged. */
    constructor (patterns: Patterns)
      ensures this.patterns == patterns
      ensures Values() == Entries("", "", "", "", "", "")
      ensures Flags() == Initial && Flags().AllValid()
      ensures log == []
    {
      this.patterns := patterns;
      name, surname, email, phone, password, confirmPassword := "", "", "", "", "", "";
      validateName, validateSurname, validateEmail, validatePhone := true, true, true, true;
      validatePassword, validateConfirmPassword, validatePasswordsEqual := true, true, true;
      log := [];
    }

    /** The `onValueChange` of input `f`: it replaces that text and nothing else;
        the flags keep what the last submit set. */
    method Edit(f: Field, text: string)
      modifies this
      ensures Values() == old(Values()).With(f, text)
      ensures Flags() == old(Flags()) && log == old(log)
    {
      match f
      case Name => name := text;
      case Surname => surname := text;
      case Email => email := text;
      case Phone => phone := text;
      case Password => password := text;
      case ConfirmPassword => confirmPassword := text;
    }

    /** `validateData`: reassigns all seven flags from the arguments alone, and
        returns whether all of them hold. The texts and the log are unchanged. */
    method ValidateData(
      name: string, surname: string, email: string,
      phone: string, password: string, confirmPassword: string) returns (ok: bool)
      modifies this
      ensures Flags() == ValidityOf(patterns, name, surname, email, phone, password, confirmPassword)
      ensures ok <==> Flags().AllValid()
      ensures unchanged(this`name, this`surname, this`email, this`phone, this`password, this`confirmPassword)
      ensures log == old(log)
    {
      validateName := IsNotBlank(name);
      validateSurname := IsNotBlank(surname);
      validateEmail := patterns.emailAddress(email);
      validatePhone := patterns.phone(phone);
      validatePassword := MatchesPasswordRegex(password);
      validateConfirmPassword := MatchesPasswordRegex(confirmPassword);
      validatePasswordsEqual := password == confirmPassword;

      ok := validateName && validateSurname && validateEmail && validatePhone &&
            validatePassword && validateConfirmPassword && validatePasswordsEqual;
    }

    /** `register`: validates, and logs one record of name, surname, phone and
        password exactly when the form passed; otherwise it logs nothing. In
        both cases the flags are left as the validation set them. */
    method Register(
      name: string, surname: string, email: string,
      phone: string, password: string, confirmPassword: string)
      modifies this
      ensures Flags() == ValidityOf(patterns, name, surname, email, phone, password, confirmPassword)
      ensures log == old(log) + (if Flags().AllValid() then [Record(name, surname, phone, password)] else [])
      ensures Values() == old(Values())
    {
      var ok := ValidateData(name, surname, email, phone, password, confirmPassword);
      if ok {
        log := log + [Record(name, surname, phone, password)];
      }
    }

    /** The button's `onClick`: registers the texts currently in the form. */
    method Submit()
      modifies this
      ensures Flags() == ValidityOfEntries(patterns, old(Values()))
      ensures log == old(log) +
        (if Flags().AllValid() then [Record(old(name), old(surname), old(phone), old(password))] else [])
      ensures Values() == old(Values())
    {
      Register(name, surname, email, phone, password, confirmPassword);
    }
  }

  /** Validating the same texts twice gives the same flags and the same answer:
      no flag depends on what it was before. */
  method RevalidateIsIdempotent(
    form: FormState, name: string, surname: string, email: string,
    phone: string, password: string, confirmPassword: string)
    returns (first: bool, second: bool, ghost flagsAfterFirst: Validity)
    modifies form
    ensures first == second
    ensures form.Flags() == flagsAfterFirst
    ensures form.Flags() == ValidityOf(form.patterns, name, surname, email, phone, password, confirmPassword)
  {
    first := form.ValidateData(name, surname, email, phone, password, confirmPassword);
    flagsAfterFirst := form.Flags();
    second := form.ValidateData(name, surname, email, phone, password, confirmPassword);
  }

  /** The end-to-end run: fill in a fresh form and press the button. */
  method RegisterExample(patterns: Patterns) returns (form: FormState)
    requires patterns.emailAddress("ann@x.com") && patterns.phone("+15551234567")
    ensures form.Flags().AllValid()
    ensures form.log == [Record("Ann", "Lee", "+15551234567", "abcdefgh")]
  {
    form := new FormState(patterns);
    form.Edit(Name, "Ann");
    form.Edit(Surname, "Lee");
    form.Edit(Email, "ann@x.com");
    form.Edit(Phone, "+15551234567");
    form.Edit(Password, "abcdefgh");
    form.Edit(ConfirmPassword, "abcdefgh");
    AcceptedExample(patterns);
    form.Submit();
  }

  /** A form whose passwords differ logs nothing, and its confirmation field is
      the one that reports it. */
  method MismatchExample(patterns: Patterns) returns (form: FormState)
    requires patterns.emailAddress("ann@x.com") && patterns.phone("+15551234567")
    ensures !form.Flags().AllValid() && form.log == []
    ensures form.Flags().password && form.Flags().confirmPassword && !form.Flags().passwordsEqual
  {
    var pw, confirm := "secret12", "secret13";
    assert pw != confirm by { assert pw[7] != confirm[7]; }
    assert MatchesPasswordRegex(pw) && MatchesPasswordRegex(confirm) by {
      assert NoLineTerminator(pw) && NoLineTerminator(confirm);
    }
    form := new FormState(patterns);
    form.Register("Ann", "Lee", "ann@x.com", "+15551234567", pw, confirm);
  }
}
