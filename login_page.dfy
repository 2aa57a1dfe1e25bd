/**
 * app/auth/login/page.tsx: the admin sign-in form (e-mail and password, or Google). The page's
 * effects are returned as an outcome value: store these credentials and go to /dashboard,
 * show an error toast, or attach messages to the form fields.
 */
module LoginPage {
  import opened Wrappers
  import opened AuthSlice
  import opened Thunks
  import opened Strings

  const MinPasswordLength := 6
  const PasswordTooShort := "Password must be at least 6 characters"
  const AdminRole := "Admin"
  const OnlyAdmins := "Only admin users can access the dashboard."
  const LoginSucceeded := "Logged in successfully!"
  const GoogleLoginSucceeded := "Logged in successfully with Google!"
  const LoginFailed := "Invalid email or password. Please check your credentials and try again."
  const GoogleLoginFailed := "Google login failed. Please try again."

  /**
   * `loginSchema`: the fields that fail and their messages. zod's e-mail check is not modelled;
   * its verdict is the `emailValid` parameter.
   */
  function SchemaErrors(emailValid: bool, password: string): (errors: map<string, string>)
    ensures "password" in errors <==> Utf16Length(password) < MinPasswordLength
    ensures "password" in errors ==> errors["password"] == PasswordTooShort
    ensures "email" in errors <==> !emailValid
    ensures errors.Keys <= {"email", "password"}
  {
    var e: map<string, string> := if emailValid then map[] else map["email" := "Please enter a valid email"];
    if Utf16Length(password) < MinPasswordLength then e["password" := PasswordTooShort] else e
  }

  /** types/auth.types.ts `LoginResponse`; a missing `message` is `None`. */
  datatype LoginResponse = LoginResponse(message: Option<string>, accessToken: string, refreshToken: string, user: Option<AuthUser>)

  /**
   * types/auth.types.ts `ApiError.data`: per-field message lists and a message. The whole
   * `data` may be missing (a network failure), hence `Option<ApiErrorData>` below.
   */
  datatype ApiErrorData = ApiErrorData(errors: Option<map<string, seq<string>>>, message: Option<string>)

  /** What `login(...).unwrap()` produced. */
  datatype LoginResult = Succeeded(response: LoginResponse) | Failed(data: Option<ApiErrorData>)

  /**
   * A message a field receives from `setError(name, { message: list[0] })`. The list may be
   * empty, and then the message is `undefined` (`None`).
   */
  datatype FieldMessage = FieldMessage(message: Option<string>)

  /**
   * What a submission ends in. `NotAdmin` shows `OnlyAdmins` and stores nothing; `FieldErrors`
   * also toasts each field message it sets.
   */
  datatype LoginOutcome =
    | NotAdmin
    | SignedIn(credentials: Credentials, toast: string)
    | FieldErrors(email: Option<FieldMessage>, password: Option<FieldMessage>)
    | ErrorToast(message: string)

  function FirstMessage(errors: map<string, seq<string>>, field: string): (f: Option<FieldMessage>)
    ensures f.Some? <==> field in errors
    ensures f.Some? ==> f.value.message == if errors[field] == [] then None else Some(errors[field][0])
  {
    if field !in errors then None
    else Some(FieldMessage(if errors[field] == [] then None else Some(errors[field][0])))
  }

  /**
   * A successful response signs in unless it carries a user whose role is not "Admin"; without
   * a user, the fallback user `{ email, "Admin", "Admin" }` is stored. The e-mail form and the
   * Google button differ only in the fallback e-mail and the success text.
   */
  function SignInOrDeny(r: LoginResponse, fallbackEmail: string, successText: string): (o: LoginOutcome)
    ensures o.NotAdmin? <==> r.user.Some? && r.user.value.role != AdminRole
    ensures o.SignedIn? <==> !o.NotAdmin?
    ensures o.SignedIn? ==>
      o.credentials.accessToken == r.accessToken && o.credentials.refreshToken == r.refreshToken &&
      o.credentials.user == Some(if r.user.Some? then r.user.value else AuthUser(fallbackEmail, "Admin", AdminRole)) &&
      o.toast == MessageOr(r.message, successText)
  {
    if r.user.Some? && r.user.value.role != AdminRole then NotAdmin
    else
      var u := if r.user.Some? then r.user.value else AuthUser(fallbackEmail, "Admin", AdminRole);
      SignedIn(Credentials(r.accessToken, r.refreshToken, Some(u)), MessageOr(r.message, successText))
  }

  /**
   * `onSubmit` of the e-mail form. On failure: if the error has an `errors` object (even an
   * empty one, which is truthy), each present field list gives its field its first message,
   * which is also toasted; otherwise the server's message, or the fixed default text, is toasted.
   */
  function Submit(email: string, result: LoginResult): (o: LoginOutcome)
    ensures result.Succeeded? ==> o == SignInOrDeny(result.response, email, LoginSucceeded)
    ensures result.Failed? && result.data.Some? && result.data.value.errors.Some? ==>
      o == FieldErrors(FirstMessage(result.data.value.errors.value, "email"), FirstMessage(result.data.value.errors.value, "password"))
    ensures result.Failed? && (result.data.None? || result.data.value.errors.None?) ==>
      o == ErrorToast(MessageOr(if result.data.Some? then result.data.value.message else None, LoginFailed))
  {
    match result
    case Succeeded(r) => SignInOrDeny(r, email, LoginSucceeded)
    case Failed(data) =>
      if data.Some? && data.value.errors.Some? then
        var errors := data.value.errors.value;
        FieldErrors(FirstMessage(errors, "email"), FirstMessage(errors, "password"))
      else
        ErrorToast(MessageOr(if data.Some? then data.value.message else None, LoginFailed))
  }

  /** The Google `onSuccess`: the fallback user has an empty e-mail, and failures are always a toast. */
  function GoogleSubmit(result: LoginResult): (o: LoginOutcome)
    ensures result.Succeeded? ==> o == SignInOrDeny(result.response, "", GoogleLoginSucceeded)
    ensures result.Failed? ==> o == ErrorToast(MessageOr(if result.data.Some? then result.data.value.message else None, GoogleLoginFailed))
  {
    match result
    case Succeeded(r) => SignInOrDeny(r, "", GoogleLoginSucceeded)
    case Failed(data) => ErrorToast(MessageOr(if data.Some? then data.value.message else None, GoogleLoginFailed))
  }

  /** Whatever the server answers, only an "Admin" user is ever handed to `setCredentials`. */
  lemma OnlyAdminsAreStored(email: string, result: LoginResult)
    ensures Submit(email, result).SignedIn? ==> Submit(email, result).credentials.user.value.role == AdminRole
    ensures GoogleSubmit(result).SignedIn? ==> GoogleSubmit(result).credentials.user.value.role == AdminRole
  {
  }

  /** The Login button: disabled while the request runs and until the terms are accepted. */
  function LoginDisabled(isLoading: bool, agreedToTerms: bool): (d: bool)
    ensures !d <==> !isLoading && agreedToTerms
  {
    isLoading || !agreedToTerms
  }
}
