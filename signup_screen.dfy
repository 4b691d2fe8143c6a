// app/navigation-example/screens/auth/SignupScreen.tsx: four text fields,
// four error messages, and `handleSignup`, which re-derives every message
// on each press and calls `onSignup` only when all four are empty.

module SignupScreen {
  import opened Text
  import opened EmailPattern

  const NameRequired := "Name is required"
  const EmailRequired := "Email is required"
  const EmailInvalid := "Please enter a valid email address"
  const PasswordRequired := "Password is required"
  const PasswordTooShort := "Password must be at least 6 characters"
  const PasswordsDiffer := "Passwords do not match"

  /** The four inputs, each bound to its own `useState` setter. */
  datatype Field = Name | Email | Password | ConfirmPassword

  class SignupForm {
    var name: string
    var email: string
    var password: string
    var confirmPassword: string
    var nameError: string
    var emailError: string
    var passwordError: string
    var confirmPasswordError: string

    constructor ()
      ensures name == "" && email == "" && password == "" && confirmPassword == ""
      ensures nameError == "" && emailError == "" && passwordError == "" && confirmPasswordError == ""
    {
      name, email, password, confirmPassword := "", "", "", "";
      nameError, emailError, passwordError, confirmPasswordError := "", "", "", "";
    }

    /** `onChangeText={setName}` and its three siblings: typing changes one
        field and leaves the messages as they are. */
    method ChangeText(field: Field, text: string)
      modifies this`name, this`email, this`password, this`confirmPassword
      ensures name == (if field == Name then text else old(name))
      ensures email == (if field == Email then text else old(email))
      ensures password == (if field == Password then text else old(password))
      ensures confirmPassword == (if field == ConfirmPassword then text else old(confirmPassword))
    {
      match field
      case Name => name := text;
      case Email => email := text;
      case Password => password := text;
      case ConfirmPassword => confirmPassword := text;
    }

    predicate NoErrors()
      reads this
    {
      nameError == "" && emailError == "" && passwordError == "" && confirmPasswordError == ""
    }

    /** `handleSignup`: every message is overwritten from the current
        fields (the name is tested for emptiness only, without trimming),
        and `onSignup` is called, with no arguments, exactly when all four
        are empty. */
    method HandleSignup() returns (signedUp: bool)
      modifies this`nameError, this`emailError, this`passwordError, this`confirmPasswordError
      ensures nameError == (if name == "" then NameRequired else "")
      ensures emailError ==
        if email == "" then EmailRequired
        else if !MatchesEmailRegex(email) then EmailInvalid
        else ""
      ensures passwordError ==
        if password == "" then PasswordRequired
        else if Utf16Length(password) < 6 then PasswordTooShort
        else ""
      ensures confirmPasswordError == (if password != confirmPassword then PasswordsDiffer else "")
      ensures signedUp <==> NoErrors()
      ensures signedUp <==>
        name != "" && MatchesEmailRegex(email) && Utf16Length(password) >= 6 && password == confirmPassword
    {
      var isValid := true;

      if name == "" {
        nameError := NameRequired;
        isValid := false;
      } else {
        nameError := "";
      }

      if email == "" {
        emailError := EmailRequired;
        isValid := false;
      } else if !ValidateEmail(email) {
        emailError := EmailInvalid;
        isValid := false;
      } else {
        emailError := "";
      }

      if password == "" {
        passwordError := PasswordRequired;
        isValid := false;
      } else if Utf16Length(password) < 6 {
        passwordError := PasswordTooShort;
        isValid := false;
      } else {
        passwordError := "";
      }

      if password != confirmPassword {
        confirmPasswordError := PasswordsDiffer;
        isValid := false;
      } else {
        confirmPasswordError := "";
      }

      signedUp := isValid;
      ValidEmailMatchesRegex(email);
    }
  }

  /** Pressing Sign Up twice on unchanged fields shows the same messages
      and gives the same outcome both times. */
  method SignupTwice(form: SignupForm) returns (first: bool, second: bool, firstErrors: (string, string, string, string))
    modifies form
    ensures first == second
    ensures (form.nameError, form.emailError, form.passwordError, form.confirmPasswordError) == firstErrors
    ensures form.name == old(form.name) && form.email == old(form.email)
    ensures form.password == old(form.password) && form.confirmPassword == old(form.confirmPassword)
  {
    first := form.HandleSignup();
    firstErrors := (form.nameError, form.emailError, form.passwordError, form.confirmPasswordError);
    second := form.HandleSignup();
  }
}
