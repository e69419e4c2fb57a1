/** The sign-in / sign-up dialog: local validation of a sign-up, the calls
    it makes to the auth service, and the forgot-password request. */
module AuthModal {
  import opened Common

  datatype AuthForm = AuthForm(name: string, email: string, password: string, confirmPassword: string)

  datatype AuthField = NameField | EmailField | PasswordField | ConfirmPasswordField

  const BlankAuthForm: AuthForm := AuthForm("", "", "", "")

  const MinPasswordLength: nat := 6

  /** A call into the auth service. */
  datatype AuthCall =
    | SignIn(email: string, password: string)
    | SignUp(email: string, password: string, fullName: string)
    | ResetPassword(email: string, redirectTo: string)

  function FieldOf(f: AuthForm, field: AuthField): string
  {
    match field
    case NameField => f.name
    case EmailField => f.email
    case PasswordField => f.password
    case ConfirmPasswordField => f.confirmPassword
  }

  /** `{ ...prev, [field]: value }`: only the named field changes. */
  function SetField(f: AuthForm, field: AuthField, value: string): (r: AuthForm)
    ensures FieldOf(r, field) == value
    ensures forall other :: other != field ==> FieldOf(r, other) == FieldOf(f, other)
  {
    match field
    case NameField => f.(name := value)
    case EmailField => f.(email := value)
    case PasswordField => f.(password := value)
    case ConfirmPasswordField => f.(confirmPassword := value)
  }

  const MismatchNotice: Notice := Notice("Password mismatch", "Passwords do not match. Please try again.", true)
  const TooShortNotice: Notice := Notice("Password too short", "Password must be at least 6 characters long.", true)

  /** The sign-up checks, in the order the handler makes them. Lengths are
      counted in characters. */
  function SignUpProblem(f: AuthForm): (r: Option<Notice>)
    ensures r.None? <==> f.password == f.confirmPassword && |f.password| >= MinPasswordLength
    ensures f.password != f.confirmPassword ==> r == Some(MismatchNotice)
    ensures f.password == f.confirmPassword && |f.password| < MinPasswordLength ==> r == Some(TooShortNotice)
  {
    if f.password != f.confirmPassword then Some(MismatchNotice)
    else if |f.password| < MinPasswordLength then Some(TooShortNotice)
    else None
  }

  /** A mismatch is reported even when the password is also too short. */
  lemma MismatchCheckedFirst(f: AuthForm)
    requires f.password != f.confirmPassword && |f.password| < MinPasswordLength
    ensures SignUpProblem(f) == Some(MismatchNotice)
  {
  }

  const AuthFailedTitle: string := "Authentication failed"
  const AuthFailedFallback: string := "An error occurred during authentication."

  class AuthDialog {
    var isLogin: bool
    var isLoading: bool
    var showPassword: bool
    var formData: AuthForm

    constructor()
      ensures isLogin && !isLoading && !showPassword && formData == BlankAuthForm
    {
      isLogin := true;
      isLoading := false;
      showPassword := false;
      formData := BlankAuthForm;
    }

    /** `handleSubmit`. `outcome` is what the auth call resolves to; it is not
        consulted when no call is made. `succeeded` says whether `onSuccess`
        ran, `loadingDuring` is `isLoading` while the handler is at work. */
    method Submit(outcome: Outcome) returns (call: Option<AuthCall>, notice: Notice, succeeded: bool, loadingDuring: bool)
      modifies this
      ensures loadingDuring && !isLoading
      ensures formData == old(formData) && showPassword == old(showPassword)
      ensures old(isLogin) ==> call == Some(SignIn(formData.email, formData.password))
      ensures !old(isLogin) && SignUpProblem(formData).Some? ==>
                call.None? && notice == SignUpProblem(formData).value
      ensures !old(isLogin) && SignUpProblem(formData).None? ==>
                call == Some(SignUp(formData.email, formData.password, formData.name))
      ensures succeeded <==> call.Some? && outcome.Ok?
      ensures call.Some? && outcome.Err? ==> notice == FailureNotice(AuthFailedTitle, outcome, AuthFailedFallback)
      ensures succeeded && old(isLogin) ==>
                notice == Notice("Welcome back!", "Successfully signed in to your account.", false)
      ensures succeeded && !old(isLogin) ==>
                notice == Notice("Account created!", "You can now sign in to your account.", false)
      ensures isLogin == (old(isLogin) || succeeded)
    {
      isLoading := true;
      loadingDuring := isLoading;
      succeeded := false;
      if isLogin {
        call := Some(SignIn(formData.email, formData.password));
        if outcome.Err? {
          notice := FailureNotice(AuthFailedTitle, outcome, AuthFailedFallback);
        } else {
          notice := Notice("Welcome back!", "Successfully signed in to your account.", false);
          succeeded := true;
        }
      } else {
        var problem := SignUpProblem(formData);
        if problem.Some? {
          call := None;
          notice := problem.value;
          isLoading := false;
          return;
        }
        call := Some(SignUp(formData.email, formData.password, formData.name));
        if outcome.Err? {
          notice := FailureNotice(AuthFailedTitle, outcome, AuthFailedFallback);
        } else {
          notice := Notice("Account created!", "You can now sign in to your account.", false);
          isLogin := true;
          succeeded := true;
        }
      }
      isLoading := false;
    }

    /** `handleForgotPassword`: an empty email is refused without a call;
        otherwise a reset link to `<origin>/reset-password` is requested. */
    method ForgotPassword(origin: string, outcome: Outcome) returns (call: Option<AuthCall>, notice: Notice)
      ensures formData.email == "" ==>
                call.None? && notice == Notice("Email required", "Please enter your email address first.", true)
      ensures formData.email != "" ==> call == Some(ResetPassword(formData.email, origin + "/reset-password"))
      ensures formData.email != "" && outcome.Ok? ==>
                notice == Notice("Password reset sent", "Check your email for password reset instructions.", false)
      ensures formData.email != "" && outcome.Err? ==>
                notice == FailureNotice("Reset failed", outcome, "Failed to send password reset email.")
    {
      if formData.email == "" {
        call := None;
        notice := Notice("Email required", "Please enter your email address first.", true);
        return;
      }
      call := Some(ResetPassword(formData.email, origin + "/reset-password"));
      if outcome.Err? {
        notice := FailureNotice("Reset failed", outcome, "Failed to send password reset email.");
      } else {
        notice := Notice("Password reset sent", "Check your email for password reset instructions.", false);
      }
    }

    /** `handleInputChange`. */
    method InputChange(field: AuthField, value: string)
      modifies this
      ensures formData == SetField(old(formData), field, value)
      ensures isLogin == old(isLogin) && isLoading == old(isLoading) && showPassword == old(showPassword)
    {
      formData := SetField(formData, field, value);
    }

    /** The "Sign Up" / "Sign In" link under the form. */
    method ToggleMode()
      modifies this
      ensures isLogin == !old(isLogin)
      ensures formData == old(formData) && isLoading == old(isLoading) && showPassword == old(showPassword)
    {
      isLogin := !isLogin;
    }

    /** The eye button on the password field. */
    method TogglePasswordVisibility()
      modifies this
      ensures showPassword == !old(showPassword)
      ensures formData == old(formData) && isLoading == old(isLoading) && isLogin == old(isLogin)
    {
      showPassword := !showPassword;
    }
  }
}
