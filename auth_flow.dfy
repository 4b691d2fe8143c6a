// app/navigation-example/auth-flow.tsx: an `authScreen` selector that
// renders the login, sign-up or forgot-password screen and hands each child
// callbacks that switch the selector or raise a success alert.

module AuthFlow {
  import opened Options
  import opened EmailPattern
  import opened Text
  import SignupScreen
  import ForgotPasswordScreen

  datatype AuthScreen = Login | Signup | Forgot

  /** The navigation links the children offer: Sign Up and Forgot Password
      on the login screen, Log In on the sign-up screen, Back to Login on
      the forgot-password screen. */
  datatype Link = SignupLink | ForgotPasswordLink | LoginLink | BackToLoginLink

  /** The three success alerts of the parent's handlers, each with one
      button: "Go to App", "Go to Login" and "Return to Login". */
  datatype Alert = LoginSuccessAlert | RegistrationSuccessAlert | PasswordResetAlert

  /** Where an alert button leaves the flow, if it does. */
  datatype Exit =
    | Stay
    | ToApp   // `router.push("/navigation-example")`

  /** The screen a link press switches to, as `renderAuthScreen` wires the
      children. The forgot-password child reads its back button's callback
      from a prop named `onBackToLoginPress`, while the parent passes
      `onBackToLogin`; the button's handler is therefore undefined and the
      press does nothing. A link that is not on the rendered screen cannot
      be pressed. */
  function LinkTargetAsWritten(s: AuthScreen, l: Link): Option<AuthScreen> {
    match (s, l)
    case (Login, SignupLink) => Some(Signup)
    case (Login, ForgotPasswordLink) => Some(Forgot)
    case (Signup, LoginLink) => Some(Login)
    case (Forgot, BackToLoginLink) => None
    case _ => None
  }

  /** As wired, no link leads away from the forgot-password screen. */
  lemma AsWrittenForgotHasNoWayBack(l: Link)
    ensures LinkTargetAsWritten(Forgot, l) == None
  {
  }

  /** The wiring with the back button's callback reaching the parent. */
  function LinkTarget(s: AuthScreen, l: Link): (r: Option<AuthScreen>)
    ensures r.Some? ==> r.value != s
  {
    match (s, l)
    case (Login, SignupLink) => Some(Signup)
    case (Login, ForgotPasswordLink) => Some(Forgot)
    case (Signup, LoginLink) => Some(Login)
    case (Forgot, BackToLoginLink) => Some(Login)
    case _ => None
  }

  /** The corrected wiring changes only the forgot-password back button. */
  lemma LinkTargetDiffersOnlyOnBack(s: AuthScreen, l: Link)
    ensures LinkTarget(s, l) != LinkTargetAsWritten(s, l) <==> s == Forgot && l == BackToLoginLink
  {
  }

  /** With the corrected wiring the login screen reaches the other two, and
      each of them has a link straight back to login. */
  lemma LinksConnectLogin(s: AuthScreen)
    ensures LinkTarget(Login, SignupLink) == Some(Signup)
    ensures LinkTarget(Login, ForgotPasswordLink) == Some(Forgot)
    ensures s != Login ==> exists l :: LinkTarget(s, l) == Some(Login)
  {
    if s == Signup {
      assert LinkTarget(s, LoginLink) == Some(Login);
    } else if s == Forgot {
      assert LinkTarget(s, BackToLoginLink) == Some(Login);
    }
  }

  class AuthFlowState {
    var authScreen: AuthScreen

    constructor ()
      ensures authScreen == Login
    {
      authScreen := Login;
    }

    /** A press on a link of the rendered screen, as the links are wired:
        on the forgot-password screen no press changes the selector. */
    method PressLink(l: Link)
      modifies this`authScreen
      ensures authScreen ==
        (if LinkTargetAsWritten(old(authScreen), l).Some? then LinkTargetAsWritten(old(authScreen), l).value else old(authScreen))
      ensures old(authScreen) == Forgot ==> authScreen == Forgot
      ensures old(authScreen) != Forgot ==>
        authScreen == (if LinkTarget(old(authScreen), l).Some? then LinkTarget(old(authScreen), l).value else old(authScreen))
    {
      LinkTargetDiffersOnlyOnBack(authScreen, l);
      var target := LinkTargetAsWritten(authScreen, l);
      if target.Some? {
        authScreen := target.value;
      }
    }

    /** `handleLogin`: a success alert; the selector is not touched. */
    method HandleLogin() returns (alert: Alert)
      ensures alert == LoginSuccessAlert
    {
      alert := LoginSuccessAlert;
    }

    /** `handleSignup`: the registration alert. */
    method HandleSignup() returns (alert: Alert)
      ensures alert == RegistrationSuccessAlert
    {
      alert := RegistrationSuccessAlert;
    }

    /** `handleForgotPassword`: the password-reset alert. */
    method HandleForgotPassword() returns (alert: Alert)
      ensures alert == PasswordResetAlert
    {
      alert := PasswordResetAlert;
    }

    /** The one button of a success alert: "Go to App" leaves for the
        examples route with the selector unchanged; "Go to Login" and
        "Return to Login" select the login screen. */
    method PressAlertButton(alert: Alert) returns (exit: Exit)
      modifies this`authScreen
      ensures alert == LoginSuccessAlert ==> authScreen == old(authScreen) && exit == ToApp
      ensures alert != LoginSuccessAlert ==> authScreen == Login && exit == Stay
    {
      if alert == LoginSuccessAlert {
        exit := ToApp;
      } else {
        authScreen := Login;
        exit := Stay;
      }
    }
  }

  /** A login, followed by the alert's "Go to App", leaves the flow with
      the login screen still selected. */
  method LogIn(flow: AuthFlowState) returns (exit: Exit)
    requires flow.authScreen == Login
    modifies flow
    ensures flow.authScreen == Login && exit == ToApp
  {
    var alert := flow.HandleLogin();
    exit := flow.PressAlertButton(alert);
  }

  /** Sign Up on the sign-up screen, followed by "Go to Login" when the
      alert appears: the flow returns to login exactly when the sign-up
      form's checks all pass. */
  method SignUp(flow: AuthFlowState, form: SignupScreen.SignupForm) returns (signedUp: bool)
    requires flow.authScreen == Signup
    modifies flow, form
    ensures signedUp <==>
      form.name != "" && MatchesEmailRegex(form.email) && Utf16Length(form.password) >= 6
      && form.password == form.confirmPassword
    ensures flow.authScreen == (if signedUp then Login else Signup)
  {
    signedUp := form.HandleSignup();
    if signedUp {
      var alert := flow.HandleSignup();
      var _ := flow.PressAlertButton(alert);
    }
  }

  /** Send Reset Link on the forgot-password screen, then OK on its alert
      (which calls `onSubmit`), then "Return to Login" on the parent's
      alert: the flow returns to login exactly when the e-mail matches the
      pattern. */
  method ResetPassword(flow: AuthFlowState, form: ForgotPasswordScreen.ForgotPasswordForm) returns (reset: bool)
    requires flow.authScreen == Forgot
    modifies flow, form
    ensures reset <==> MatchesEmailRegex(form.email)
    ensures flow.authScreen == (if reset then Login else Forgot)
  {
    var effect := form.HandleSubmit();
    reset := effect == ForgotPasswordScreen.ResetAlert;
    if reset {
      var next := form.PressAlertOk();
      assert next == ForgotPasswordScreen.CallOnSubmit;
      var alert := flow.HandleForgotPassword();
      var _ := flow.PressAlertButton(alert);
    }
  }
}
