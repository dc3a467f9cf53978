/** Client-side validation rules of the login/register form.

    Each field is registered with a `required` message and, for username and
    password, a `validate` callback. The value reaches the callback only when it
    is non-empty; an empty value gets the required message instead. */
module FormValidation {

  datatype Option<T> = None | Some(value: T)

  /** The two values of the form's `type` property that the code recognises. */
  const RegisterMode: string := "register"
  const LoginMode: string := "login"

  const UsernameRequired: string := "Username is required"
  const UsernameTooShort: string := "Username must be at least 3 characters"
  const EmailRequired: string := "Email is required"
  const PasswordRequired: string := "Password is required"
  const PasswordWeak: string :=
    "Password must be at least 5 characters and contain at least one special character"

  /** The characters of the class `[!@#$%^&*()_+{}\[\]:;<>,.?~\\/-]`; the final `-` is a literal. */
  const SpecialChars: set<char> :=
    {'!', '@', '#', '$', '%', '^', '&', '*', '(', ')', '_', '+', '{', '}', '[', ']',
     ':', ';', '<', '>', ',', '.', '?', '~', '\\', '/', '-'}

  /** The values the form holds; `username` is None while its input is not rendered. */
  datatype FormValues = FormValues(username: Option<string>, email: string, password: string)

  /** The message each field shows, None when the field passes. */
  datatype FormErrors = FormErrors(username: Option<string>, email: Option<string>, password: Option<string>)

  /** The username input (and so its rule) exists only in register mode. */
  predicate ShowsUsername(mode: string)
  {
    mode == RegisterMode
  }

  /** What the form holds before any typing and after `reset()`: every rendered input at its default "". */
  function DefaultValues(mode: string): (v: FormValues)
    ensures v.username.Some? <==> ShowsUsername(mode)
    ensures FieldValue(v.username) == "" && v.email == "" && v.password == ""
  {
    FormValues(if ShowsUsername(mode) then Some("") else None, "", "")
  }

  /** The value a rule sees: a missing value is treated like the empty string by `required`. */
  function FieldValue(v: Option<string>): string
  {
    match v
    case Some(s) => s
    case None => ""
  }

  /** The order in which a field's rules run: `required` first, then `validate`. */
  function ApplyRule(requiredMessage: string, validate: string -> Option<string>, value: string): Option<string>
  {
    if value == "" then Some(requiredMessage) else validate(value)
  }

  /** Whether `value.match(/[...]/)` finds a special character, scanning from the left. */
  predicate HasSpecial(s: string)
  {
    s != [] && (s[0] in SpecialChars || HasSpecial(s[1..]))
  }

  lemma {:induction false} HasSpecialIff(s: string)
    ensures HasSpecial(s) <==> exists i :: 0 <= i < |s| && s[i] in SpecialChars
  {
    if s != [] {
      HasSpecialIff(s[1..]);
      if HasSpecial(s[1..]) {
        var j :| 0 <= j < |s[1..]| && s[1..][j] in SpecialChars;
        assert s[j + 1] in SpecialChars;
      }
      if exists i :: 0 <= i < |s| && s[i] in SpecialChars {
        var i :| 0 <= i < |s| && s[i] in SpecialChars;
        if i > 0 {
          assert s[1..][i - 1] == s[i];
        }
      }
    }
  }

  /** The username `validate` callback. */
  function UsernameCheck(value: string): Option<string>
  {
    if |value| < 3 then Some(UsernameTooShort) else None
  }

  /** The password `validate` callback. */
  function PasswordCheck(value: string): Option<string>
  {
    if |value| < 5 || !HasSpecial(value) then Some(PasswordWeak) else None
  }

  /** The function that never reports: a field with `required` and no `validate`. */
  function NoCheck(value: string): Option<string>
  {
    None
  }

  function UsernameError(value: string): (r: Option<string>)
    ensures r == Some(UsernameRequired) <==> value == ""
    ensures r == Some(UsernameTooShort) <==> 0 < |value| < 3
    ensures r == None <==> |value| >= 3
  {
    ApplyRule(UsernameRequired, UsernameCheck, value)
  }

  function EmailError(value: string): (r: Option<string>)
    ensures r == None <==> value != ""
    ensures r != None ==> r == Some(EmailRequired)
  {
    ApplyRule(EmailRequired, NoCheck, value)
  }

  function PasswordError(value: string): (r: Option<string>)
    ensures r == Some(PasswordRequired) <==> value == ""
    ensures r == None <==> |value| >= 5 && exists i :: 0 <= i < |value| && value[i] in SpecialChars
    ensures value != "" && r != None ==> r == Some(PasswordWeak)
  {
    HasSpecialIff(value);
    ApplyRule(PasswordRequired, PasswordCheck, value)
  }

  /** The errors one validation pass produces for the fields rendered in `mode`. */
  function Validate(mode: string, values: FormValues): (e: FormErrors)
    ensures e.username != None ==> mode == RegisterMode
    ensures mode == RegisterMode ==> e.username == UsernameError(FieldValue(values.username))
    ensures e.email == EmailError(values.email)
    ensures e.password == PasswordError(values.password)
  {
    FormErrors(
      if ShowsUsername(mode) then UsernameError(FieldValue(values.username)) else None,
      EmailError(values.email),
      PasswordError(values.password))
  }

  predicate NoErrors(e: FormErrors)
  {
    e.username == None && e.email == None && e.password == None
  }

  /** A submission gets past validation exactly when every rendered field meets its rule. */
  lemma AcceptedIff(mode: string, values: FormValues)
    ensures NoErrors(Validate(mode, values)) <==>
      (mode == RegisterMode ==> |FieldValue(values.username)| >= 3) &&
      values.email != "" &&
      |values.password| >= 5 &&
      exists i :: 0 <= i < |values.password| && values.password[i] in SpecialChars
  {
  }

  /** Outside register mode the username input is not rendered: it holds no value and reports no error. */
  lemma UsernameFieldOnlyInRegister(mode: string, values: FormValues)
    ensures ShowsUsername(mode) <==> mode == RegisterMode
    ensures !ShowsUsername(mode) ==>
      Validate(mode, values).username == None && DefaultValues(mode).username == None
    ensures ShowsUsername(mode) ==>
      Validate(mode, values).username == UsernameError(FieldValue(values.username)) &&
      DefaultValues(mode).username == Some("")
  {
  }

  /** After `reset()` the form cannot be submitted again until the user types. */
  lemma DefaultValuesRejected(mode: string)
    ensures Validate(mode, DefaultValues(mode)).email == Some(EmailRequired)
    ensures Validate(mode, DefaultValues(mode)).password == Some(PasswordRequired)
    ensures mode == RegisterMode ==> Validate(mode, DefaultValues(mode)).username == Some(UsernameRequired)
    ensures !NoErrors(Validate(mode, DefaultValues(mode)))
  {
  }
}
