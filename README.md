# Registration form validation (ValidationTutorial)

A model of the registration screen's logic in `MainActivity.kt`. The `ShowForm`
composable holds six text inputs: name, surname, e-mail, phone, password and a
password confirmation. It also holds seven saved validity flags, all true at the
start. Pressing the button calls `register`. `register` runs `validateData`, which
reassigns the seven flags from the six texts and returns their conjunction. Only
when that returns true does `register` write one debug-log line. The line holds
the name, surname, phone and password. Each input field shows an error exactly
when its flag is false. The confirmation field also shows one when the two
passwords differ.

Files:

- `rules.dfy` (module `Rules`): the per-text rules. Kotlin's `isNotBlank` uses the
  JVM whitespace set, written out character by character. The password regex
  `.{8}` is matched against the whole input, as `Regex.matches` does. A `.`
  refuses the line terminators of Android's ICU-based regex engine: LF, VT, FF,
  CR, NEL, U+2028 and U+2029. The two Android patterns are given as
  predicates.
- `validation.dfy` (module `Validation`): the seven flags as a value
  (`Validity`), the function `ValidityOf` that `validateData` computes, and
  lemmas about the verdict.
- `presentation.dfy` (module `Presentation`): the error messages and each
  field's `showError` and `errorMessage` expressions.
- `show_form.dfy` (module `ShowForm`): the class `FormState` with the six texts,
  the seven flags and the debug log. Its methods are the text edits,
  `validateData`, `register` and the button's click. Three client methods
  follow it.

The password rule is exactly 8 characters, none of them a line terminator. The
form's message says "Must be minimum length of 8", but `".{8}".toRegex().matches`
matches the whole input. So a 9-character password is rejected, and the model
follows the code. `Rules.PasswordRuleExamples` shows `"123456789"` rejected. A
description of the form as "length at least 8" disagrees with the code on every
password longer than 8 characters.

The confirmation field picks between a length message and an equality message.
Both have the same text, so a mismatch of two well-formed passwords is reported
as "Must be minimum length of 8". The model keeps that
(`Presentation.ErrorMessage`).

Characters are Unicode scalar values. A `.` of a Java regex steps over one code
point, so `|s| == 8` is the regex's count.

`android.util.Patterns.EMAIL_ADDRESS` and `Patterns.PHONE` belong to the Android
platform. The model takes them as a value `Patterns(emailAddress, phone)` of two
total predicates on text, which the form object holds.

## Model

| member | source | states |
|---|---|---|
| `Rules.IsNotBlank` | app/src/main/java/com/stasst/statetask/MainActivity.kt:90-91 | `isNotBlank` holds iff some character of the text is not whitespace; so the empty text fails |
| `Rules.MatchesDotRepeat` | app/src/main/java/com/stasst/statetask/MainActivity.kt:88 | a whole-input match of `.{n}` holds iff the text has exactly n characters and none is a line terminator |
| `Rules.MatchesPasswordRegex` | app/src/main/java/com/stasst/statetask/MainActivity.kt:94-95 | the password rule holds iff the text is exactly 8 characters without a line terminator; shorter or longer texts fail |
| `Rules.PasswordRuleExamples` | app/src/main/java/com/stasst/statetask/MainActivity.kt:88 | "12345678" and "abcdefgh" pass; "1234567", "123456789" and 8-character texts holding a newline, vertical tab or form feed fail, despite the "minimum length" message |
| `Rules.BlankExamples` | app/src/main/java/com/stasst/statetask/MainActivity.kt:90 | the empty text and a text of spaces, tab, newline and non-breaking spaces are blank; "Ann" and "  x " are not |
| `Validation.ValidityOf` | app/src/main/java/com/stasst/statetask/MainActivity.kt:90-96 | each of the seven flags in terms of the arguments: names non-blank, the two pattern results, both password texts exactly 8 non-terminator characters, passwords equal |
| `Validation.AllValidIff` | app/src/main/java/com/stasst/statetask/MainActivity.kt:98 | the form passes iff both names are non-blank, both patterns match, the password is 8 non-terminator characters and the confirmation equals it |
| `Validation.EditChangesOnlyItsFlags` | app/src/main/java/com/stasst/statetask/MainActivity.kt:90-96 | the next validation after changing one text differs only in that text's flag, and in the equality flag for a password text |
| `Validation.BrokenRuleBlocksForm` | app/src/main/java/com/stasst/statetask/MainActivity.kt:98 | any single text that breaks its rule makes the verdict false, whatever the others are |
| `Validation.AcceptedExample` | app/src/main/java/com/stasst/statetask/MainActivity.kt:80-98 | Ann / Lee / ann@x.com / +15551234567 / abcdefgh twice passes when the patterns accept that e-mail address and phone |
| `Presentation.ShowError` | app/src/main/java/com/stasst/statetask/MainActivity.kt:135-218 | a field that shows an error implies the form did not pass |
| `Presentation.ErrorMessage` | app/src/main/java/com/stasst/statetask/MainActivity.kt:219 | the confirmation field shows the equality message when its length flag holds; its message is always the length message text, also when only the equality flag fails |
| `Presentation.NoErrorShownIffAllValid` | app/src/main/java/com/stasst/statetask/MainActivity.kt:135-218 | no field shows an error iff all seven flags hold |
| `Presentation.InitialShowsNoError` | app/src/main/java/com/stasst/statetask/MainActivity.kt:63-69 | with the initial all-true flags no field shows an error |
| `Presentation.MessageIndependentOfFlags` | app/src/main/java/com/stasst/statetask/MainActivity.kt:77-78 | the message of every field is the same for all flag values |
| `Presentation.ErrorShownIffRuleBroken` | app/src/main/java/com/stasst/statetask/MainActivity.kt:135-218 | after validation each field shows an error iff its text breaks its rule; the confirmation field also iff it differs from the password |
| `ShowForm.FormState.constructor` | app/src/main/java/com/stasst/statetask/MainActivity.kt:54-69 | a new form has six empty texts, all seven flags true and an empty log |
| `ShowForm.FormState.Edit` | app/src/main/java/com/stasst/statetask/MainActivity.kt:133 | editing one input replaces only that text; flags and log are unchanged |
| `ShowForm.FormState.ValidateData` | app/src/main/java/com/stasst/statetask/MainActivity.kt:80-99 | all seven flags become `ValidityOf` of the arguments, independent of their old values; returns true iff all hold; texts and log unchanged |
| `ShowForm.FormState.Register` | app/src/main/java/com/stasst/statetask/MainActivity.kt:101-115 | flags as `ValidateData` sets them; exactly one record (name, surname, phone, password) is appended iff the form passed, none otherwise |
| `ShowForm.FormState.Submit` | app/src/main/java/com/stasst/statetask/MainActivity.kt:234-236 | registers the form's current texts; texts unchanged |
| `ShowForm.RevalidateIsIdempotent` | app/src/main/java/com/stasst/statetask/MainActivity.kt:90-98 | validating the same texts twice gives the same verdict and identical flags, those `ValidityOf` gives |
| `ShowForm.RegisterExample` | app/src/main/java/com/stasst/statetask/MainActivity.kt:109-111 | filling in the example and pressing the button logs exactly the record (Ann, Lee, +15551234567, abcdefgh) |
| `ShowForm.MismatchExample` | app/src/main/java/com/stasst/statetask/MainActivity.kt:109-114 | passwords "secret12" and "secret13" log nothing; both length flags hold and only the equality flag fails |

## Left out

- Compose layout and rendering (`Column`, `Text`, `Button`, theme, colours, scrolling, icons, keyboard options): presentation with no logic to state.
- Focus movement and clearing on the keyboard actions: behaviour of the UI framework.
- The password visibility toggles `isPasswordVisible` and `isConfirmPasswordVisible`: presentation state that takes no part in validation.
- The regular expressions behind `Patterns.EMAIL_ADDRESS` and `Patterns.PHONE`: they are Android platform code, so the model takes them as given predicates.
- The text format of the `Log.d` line and its tag: I/O. The log is a ghost sequence of the records written.
- Saving and restoring the state across configuration changes (`rememberSaveable`): framework persistence.
- `MainActivity.onCreate`: Android lifecycle. `CustomOutlinedTextField` is not part of this model; only the `showError` and `errorMessage` values passed to it are.
- Texts holding unpaired UTF-16 surrogates: Dafny characters are Unicode scalar values, so such texts cannot be written.
- `Rules.IsWhitespace` follows the current Unicode space-separator set; older Unicode versions on some devices differ in single characters.
