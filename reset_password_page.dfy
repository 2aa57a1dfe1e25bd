/**
 * app/auth/reset-password/page.tsx: the new-password form. `resetPasswordSchema` is a zod
 * object schema with a `refine` step, read through `zodResolver` into per-field messages.
 *
 * zod runs the refinement even when a length check has already failed (those checks mark the
 * result dirty, not aborted), so all failing rules are reported, in schema order, and the form
 * shows the first reported message of each field.
 */
module ResetPasswordPage {
  import opened Wrappers
  import opened Strings

  const MinLength := 6
  const TooShort := "Password must be at least 6 characters"
  const Mismatch := "Passwords don't match"

  /** One zod issue: the field it is attached to and its message. */
  datatype Issue = Issue(path: string, message: string)

  /** The issues `resetPasswordSchema` reports for a (password, confirmPassword) pair, in order. */
  function Issues(password: string, confirmPassword: string): (r: seq<Issue>)
    ensures r == [] <==> Utf16Length(password) >= MinLength && Utf16Length(confirmPassword) >= MinLength && password == confirmPassword
    ensures Issue("password", TooShort) in r <==> Utf16Length(password) < MinLength
    ensures Issue("confirmPassword", TooShort) in r <==> Utf16Length(confirmPassword) < MinLength
    ensures Issue("confirmPassword", Mismatch) in r <==> password != confirmPassword
    ensures forall i :: 0 <= i < |r| ==> r[i].path in {"password", "confirmPassword"}
  {
    (if Utf16Length(password) < MinLength then [Issue("password", TooShort)] else []) +
    (if Utf16Length(confirmPassword) < MinLength then [Issue("confirmPassword", TooShort)] else []) +
    (if password != confirmPassword then [Issue("confirmPassword", Mismatch)] else [])
  }

  /** `zodResolver`: the message shown under a field is that of the first issue on its path. */
  function FieldError(issues: seq<Issue>, path: string): (m: Option<string>)
    ensures m.None? <==> forall i :: 0 <= i < |issues| ==> issues[i].path != path
    ensures m.Some? ==> Issue(path, m.value) in issues
  {
    if issues == [] then None
    else if issues[0].path == path then Some(issues[0].message)
    else
      var m := FieldError(issues[1..], path);
      m
  }

  /**
   * What the two fields show: a short password its length message; a short confirmation its
   * length message, which hides a mismatch; otherwise a mismatch is shown on the confirmation.
   */
  lemma {:induction false} ShownErrors(password: string, confirmPassword: string)
    ensures FieldError(Issues(password, confirmPassword), "password") ==
      if Utf16Length(password) < MinLength then Some(TooShort) else None
    ensures FieldError(Issues(password, confirmPassword), "confirmPassword") ==
      if Utf16Length(confirmPassword) < MinLength then Some(TooShort)
      else if password != confirmPassword then Some(Mismatch)
      else None
  {
    var r := Issues(password, confirmPassword);
    if Utf16Length(password) < MinLength {
      assert r[0] == Issue("password", TooShort);
    }
    var rest := if Utf16Length(password) < MinLength then r[1..] else r;
    assert rest ==
      (if Utf16Length(confirmPassword) < MinLength then [Issue("confirmPassword", TooShort)] else []) +
      (if password != confirmPassword then [Issue("confirmPassword", Mismatch)] else []);
    if Utf16Length(confirmPassword) < MinLength {
      assert rest[0] == Issue("confirmPassword", TooShort);
    }
  }

  datatype Navigation = StayOnPage | GoToLogin

  /** `handleSubmit(onSubmit)`: a form without issues goes to /auth/login; any issue keeps the page. */
  function Submit(password: string, confirmPassword: string): (n: Navigation)
    ensures n == GoToLogin <==> Utf16Length(password) >= MinLength && password == confirmPassword
  {
    if Issues(password, confirmPassword) == [] then GoToLogin else StayOnPage
  }

  /**
   * Three emoji are six UTF-16 units, so zod's `min(6)` accepts them: the form goes to
   * /auth/login although the password has three characters.
   */
  lemma AstralPasswordAccepted()
    ensures Utf16Length("\U{1F600}\U{1F600}\U{1F600}") == 6
    ensures Submit("\U{1F600}\U{1F600}\U{1F600}", "\U{1F600}\U{1F600}\U{1F600}") == GoToLogin
  {
  }
}
