/** The per-field rules that `validateData` applies to the text of each input:
    Kotlin's `isNotBlank`, a whole-input match of the regular expression `.{8}`,
    and the two Android patterns for e-mail addresses and phone numbers.

    Characters are Unicode scalar values, which is what a Java regular expression
    steps over (a surrogate pair is one `.`). */
module Rules {

  /** Kotlin's `Char.isWhitespace()` on the JVM: `Character.isWhitespace` or
      `Character.isSpaceChar`, i.e. the ASCII controls TAB, LF, VT, FF, CR and the
      four information separators U+001C..U+001F, together with every character of
      the Unicode categories Zs (space separator, non-breaking spaces included),
      Zl (line separator) and Zp (paragraph separator). */
  predicate IsWhitespace(c: char) {
    ('\t' <= c <= '\r') ||
    ('\U{1C}' <= c <= '\U{1F}') ||
    c == ' ' || c == '\U{A0}' || c == '\U{1680}' ||
    ('\U{2000}' <= c <= '\U{200A}') ||
    c == '\U{2028}' || c == '\U{2029}' ||
    c == '\U{202F}' || c == '\U{205F}' || c == '\U{3000}'
  }

  /** The characters a `.` of a regular expression compiled without flags does
      not match on Android, whose `java.util.regex` is built on ICU: the line
      terminators LF, VT, FF, CR, NEL, LINE SEPARATOR and PARAGRAPH SEPARATOR.
      (The standard JVM's set lacks VT and FF.) */
  predicate IsLineTerminator(c: char) {
    ('\n' <= c <= '\r') || c == '\U{85}' || c == '\U{2028}' || c == '\U{2029}'
  }

  predicate NoLineTerminator(s: string) {
    forall i :: 0 <= i < |s| ==> !IsLineTerminator(s[i])
  }

  /** Kotlin's `CharSequence.isNotBlank()`: the negation of `isBlank`, which holds
      of the empty text and of every text made of whitespace only. */
  function IsNotBlank(s: string): (r: bool)
    ensures r <==> exists i :: 0 <= i < |s| && !IsWhitespace(s[i])
    ensures |s| == 0 ==> !r
  {
    if |s| == 0 then false
    else
      var rest := IsNotBlank(s[1..]);
      assert rest <==> exists i :: 1 <= i < |s| && !IsWhitespace(s[i]) by {
        if rest {
          var j :| 0 <= j < |s[1..]| && !IsWhitespace(s[1..][j]);
          assert s[j + 1] == s[1..][j];
        }
        if exists i :: 1 <= i < |s| && !IsWhitespace(s[i]) {
          var j :| 1 <= j < |s| && !IsWhitespace(s[j]);
          assert s[1..][j - 1] == s[j];
        }
      }
      !IsWhitespace(s[0]) || rest
  }

  /** Whether `s` matches the regular expression `.{n}` as a WHOLE input
      (Kotlin's `Regex.matches`, i.e. `Matcher.matches`): exactly `n`
      characters, none of which is a line terminator. */
  function MatchesDotRepeat(s: string, n: nat): (r: bool)
    ensures r <==> |s| == n && NoLineTerminator(s)
  {
    if n == 0 then |s| == 0
    else if |s| == 0 then false
    else
      var rest := MatchesDotRepeat(s[1..], n - 1);
      assert NoLineTerminator(s) <==> !IsLineTerminator(s[0]) && NoLineTerminator(s[1..]) by {
        if !IsLineTerminator(s[0]) && NoLineTerminator(s[1..]) {
          forall i | 0 <= i < |s| ensures !IsLineTerminator(s[i]) {
            if i > 0 { assert s[i] == s[1..][i - 1]; }
          }
        }
      }
      !IsLineTerminator(s[0]) && rest
  }

  /** The repetition count of the password pattern `.{8}`. */
  const PasswordLength: nat := 8

  /** `".{8}".toRegex().matches(s)`, the rule both password fields are held to:
      exactly 8 characters without a line terminator, so a 7- or a 9-character
      text fails whatever it holds. */
  predicate MatchesPasswordRegex(s: string)
    ensures MatchesPasswordRegex(s) <==> |s| == 8 && NoLineTerminator(s)
    ensures |s| < 8 || |s| > 8 ==> !MatchesPasswordRegex(s)
  {
    MatchesDotRepeat(s, PasswordLength)
  }

  /** The two matchers of `android.util.Patterns` the form uses. Their regular
      expressions belong to the Android platform, so the model takes them as
      given total predicates on text. */
  datatype Patterns = Patterns(emailAddress: string -> bool, phone: string -> bool)

  /** Texts at and beyond the "minimum length of 8" that the rule nevertheless
      rejects, texts holding a line terminator (vertical tab and form feed
      included), and texts it accepts. */
  lemma PasswordRuleExamples()
    ensures MatchesPasswordRegex("12345678")
    ensures MatchesPasswordRegex("abcdefgh")
    ensures !MatchesPasswordRegex("1234567")
    ensures !MatchesPasswordRegex("123456789")
    ensures !MatchesPasswordRegex("abcd\nfgh")
    ensures !MatchesPasswordRegex("abcdefg\U{0B}")
    ensures !MatchesPasswordRegex("abcdefg\U{0C}")
  {
  }

  /** Blank texts: the empty text and whitespace-only texts fail, and a single
      character that is not whitespace anywhere in the text is enough to pass. */
  lemma BlankExamples()
    ensures !IsNotBlank("")
    ensures !IsNotBlank(" \t\n\U{A0}\U{3000}")
    ensures IsNotBlank("Ann")
    ensures IsNotBlank("  x ")
  {
  }
}
