// app/navigation-example/screens/auth/ForgotPasswordScreen.tsx: one e-mail
// field, its error message, and `handleSubmit`, which shows a success
// alert whose OK button is the only path to the `onSubmit` callback.

module ForgotPasswordScreen {
  import opened Text
  import opened EmailPattern

  const EmailRequired := "Email is required"
  const EmailInvalid := "Please enter a valid email address"

  /** What a handler hands on beyond the screen's own state. */
  datatype Effect =
    | NoEffect
    | ResetAlert     // "Password Reset Email Sent", with an OK button
    | CallOnSubmit   // the parent's `onSubmit` is called

  class ForgotPasswordForm {
    var email: string
    var emailError: string

    constructor ()
      ensures email == "" && emailError == ""
    {
      email, emailError := "", "";
    }

    /** `onChangeText={setEmail}`. */
    method ChangeEmail(text: string)
      modifies this`email
      ensures email == text
    {
      email := text;
    }

    /** `handleSubmit`: the message is overwritten from the current e-mail,
        and only a valid e-mail shows the alert; the parent is never called
        from here. */
    method HandleSubmit() returns (effect: Effect)
      modifies this`emailError
      ensures emailError ==
        if email == "" then EmailRequired
        else if !MatchesEmailRegex(email) then EmailInvalid
        else ""
      ensures effect == (if MatchesEmailRegex(email) then ResetAlert else NoEffect)
      ensures effect != CallOnSubmit
    {
      var isValid := true;
      if email == "" {
        emailError := EmailRequired;
        isValid := false;
      } else if !ValidateEmail(email) {
        emailError := EmailInvalid;
        isValid := false;
      } else {
        emailError := "";
      }
      ValidEmailMatchesRegex(email);
      effect := if isValid then ResetAlert else NoEffect;
    }

    /** The alert's OK button, `onPress: onSubmit`. */
    method PressAlertOk() returns (effect: Effect)
      ensures effect == CallOnSubmit
    {
      effect := CallOnSubmit;
    }
  }

  /** Submitting twice with the same e-mail gives the same message and the
      same effect the second time. */
  method SubmitTwice(form: ForgotPasswordForm) returns (first: Effect, second: Effect, firstMessage: string)
    modifies form
    ensures first == second
    ensures form.emailError == firstMessage
    ensures form.email == old(form.email)
  {
    first := form.HandleSubmit();
    firstMessage := form.emailError;
    second := form.HandleSubmit();
  }
}
