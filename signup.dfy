/** The zod `schema` of the signup form, in both copies:
    `Frontend/src/component/Signup.jsx` (name field `firstName`) and the older
    `Frontend/Leetcode-Project/src/component/Signup.jsx` (name field `fullName`). zod runs
    every check of a field and reports each failing one, so a field's outcome is the list
    of its failure messages and the form is accepted when no field reports any. The
    library's email-format check is not part of this model and is a parameter. */
module Signup {
  import opened Text

  predicate HasUpper(s: string) { exists i :: 0 <= i < |s| && 'A' <= s[i] <= 'Z' }
  predicate HasLower(s: string) { exists i :: 0 <= i < |s| && 'a' <= s[i] <= 'z' }
  predicate HasDigit(s: string) { exists i :: 0 <= i < |s| && '0' <= s[i] <= '9' }

  /** The class `[@$!%*?&]`. */
  predicate IsSpecial(c: char) { c in "@$!%*?&" }
  predicate HasSpecial(s: string) { exists i :: 0 <= i < |s| && IsSpecial(s[i]) }

  /** The class `[A-Za-z\s]`. */
  predicate IsNameChar(c: char) { 'A' <= c <= 'Z' || 'a' <= c <= 'z' || IsSpace(c) }

  const PasswordLength := "Password must be length of 8"
  const PasswordUpper := "Password must include at least one uppercase letter"
  const PasswordLower := "Password must include at least one lowercase letter"
  const PasswordDigit := "Password must include at least one number"
  const PasswordSpecial := "Password must include at least one special character"
  const NameLength := "Name must be at least 3 characters long"
  const NameChars := "Name should contain only letters and spaces"

  /** The password checks: at least 8 characters, then the four character classes. */
  function PasswordIssues(password: string): (issues: seq<string>)
    ensures issues == [] <==> |password| >= 8 && HasUpper(password) && HasLower(password)
                              && HasDigit(password) && HasSpecial(password)
    ensures PasswordLength in issues <==> |password| < 8
    ensures PasswordUpper in issues <==> !HasUpper(password)
    ensures PasswordLower in issues <==> !HasLower(password)
    ensures PasswordDigit in issues <==> !HasDigit(password)
    ensures PasswordSpecial in issues <==> !HasSpecial(password)
    ensures forall m :: m in issues ==>
              m in {PasswordLength, PasswordUpper, PasswordLower, PasswordDigit, PasswordSpecial}
  {
    (if |password| < 8 then [PasswordLength] else [])
    + (if !HasUpper(password) then [PasswordUpper] else [])
    + (if !HasLower(password) then [PasswordLower] else [])
    + (if !HasDigit(password) then [PasswordDigit] else [])
    + (if !HasSpecial(password) then [PasswordSpecial] else [])
  }

  /** The name checks: at least 3 characters, and `^[A-Za-z\s]+$`. */
  function NameIssues(name: string): (issues: seq<string>)
    ensures issues == [] <==> |name| >= 3 && forall i :: 0 <= i < |name| ==> IsNameChar(name[i])
    ensures NameLength in issues <==> |name| < 3
    ensures NameChars in issues <==> !(|name| >= 1 && forall i :: 0 <= i < |name| ==> IsNameChar(name[i]))
    ensures forall m :: m in issues ==> m == NameLength || m == NameChars
  {
    (if |name| < 3 then [NameLength] else [])
    + (if !(|name| >= 1 && forall i :: 0 <= i < |name| ==> IsNameChar(name[i])) then [NameChars] else [])
  }

  /** "Password1!" meets every password rule, and a seven-character password never does. */
  lemma PasswordExamples(short: string)
    requires |short| < 8
    ensures PasswordIssues("Password1!") == []
    ensures PasswordIssues(short) != []
  {
    var p := "Password1!";
    assert 'A' <= p[0] <= 'Z' && 'a' <= p[1] <= 'z' && '0' <= p[8] <= '9' && IsSpecial(p[9]);
  }

  datatype SignupForm = SignupForm(email: string, password: string, firstName: string)

  /** The issues zod reports for the form of `Frontend/src/component/Signup.jsx`, by field. */
  datatype Issue = EmailIssue | PasswordIssue(message: string) | NameIssue(message: string)

  function Tag(messages: seq<string>, password: bool): (r: seq<Issue>)
    ensures |r| == |messages|
  {
    seq(|messages|, i requires 0 <= i < |messages| =>
      if password then PasswordIssue(messages[i]) else NameIssue(messages[i]))
  }

  /** Every issue of the signup form; the form is submitted only when there is none. */
  function SignupIssues(form: SignupForm, isEmail: string -> bool): (issues: seq<Issue>)
    ensures issues == [] <==> isEmail(form.email) && PasswordIssues(form.password) == []
                              && NameIssues(form.firstName) == []
  {
    (if isEmail(form.email) then [] else [EmailIssue])
    + Tag(PasswordIssues(form.password), true) + Tag(NameIssues(form.firstName), false)
  }

  /** The older form of `Frontend/Leetcode-Project/src/component/Signup.jsx`, whose name
      field is `fullName`. */
  datatype LegacySignupForm = LegacySignupForm(email: string, password: string, fullName: string)

  /** Every issue of the older form: the same rules applied to `fullName`. */
  function LegacySignupIssues(form: LegacySignupForm, isEmail: string -> bool): (issues: seq<Issue>)
    ensures issues == [] <==> isEmail(form.email) && PasswordIssues(form.password) == []
                              && NameIssues(form.fullName) == []
  {
    (if isEmail(form.email) then [] else [EmailIssue])
    + Tag(PasswordIssues(form.password), true) + Tag(NameIssues(form.fullName), false)
  }

  /** The two copies of the schema accept the same forms, name field for name field. */
  lemma SchemasAgree(email: string, password: string, name: string, isEmail: string -> bool)
    ensures SignupIssues(SignupForm(email, password, name), isEmail)
         == LegacySignupIssues(LegacySignupForm(email, password, name), isEmail)
  {
  }
}
