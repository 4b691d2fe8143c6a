// navigation-example/screens/auth/RegisterScreen.tsx: a five-field form
// whose `handleRegister` runs three checks in a fixed order, alerts the
// first failure and stops, and otherwise starts a simulated request.

module RegisterScreen {
  import opened Options
  import opened Text

  const FillAllFields := "Please fill in all fields"
  const PasswordsDiffer := "Passwords do not match"
  const PasswordTooShort := "Password must be at least 6 characters long"

  datatype RegisterForm = RegisterForm(
    firstName: string,
    lastName: string,
    email: string,
    password: string,
    confirmPassword: string)

  /** `keyof typeof formData`. */
  datatype FormKey = FirstName | LastName | Email | Password | ConfirmPassword

  const EmptyForm := RegisterForm("", "", "", "", "")

  /** `formData[key]`. */
  function Field(f: RegisterForm, key: FormKey): string {
    match key
    case FirstName => f.firstName
    case LastName => f.lastName
    case Email => f.email
    case Password => f.password
    case ConfirmPassword => f.confirmPassword
  }

  /** `{ ...prev, [key]: value }`: only `key` changes. */
  function WithField(f: RegisterForm, key: FormKey, value: string): (r: RegisterForm)
    ensures Field(r, key) == value
    ensures forall k :: k != key ==> Field(r, k) == Field(f, k)
  {
    match key
    case FirstName => f.(firstName := value)
    case LastName => f.(lastName := value)
    case Email => f.(email := value)
    case Password => f.(password := value)
    case ConfirmPassword => f.(confirmPassword := value)
  }

  /** Every field is non-empty; a field of blanks counts as filled. */
  predicate AllFilled(f: RegisterForm) {
    f.firstName != "" && f.lastName != "" && f.email != "" && f.password != "" && f.confirmPassword != ""
  }

  /** The decision `handleRegister` makes: the message of the alert it
      raises, or `None` when every check passes. */
  function RegisterError(f: RegisterForm): Option<string> {
    if !AllFilled(f) then Some(FillAllFields)
    else if f.password != f.confirmPassword then Some(PasswordsDiffer)
    else if Utf16Length(f.password) < 6 then Some(PasswordTooShort)
    else None
  }

  /** One validation step: whether it passes, and the message it alerts. */
  datatype Check = Check(passes: bool, message: string)

  /** The checks in the order the handler runs them: fill, match, length. */
  function Checks(f: RegisterForm): seq<Check> {
    [ Check(AllFilled(f), FillAllFields),
      Check(f.password == f.confirmPassword, PasswordsDiffer),
      Check(Utf16Length(f.password) >= 6, PasswordTooShort) ]
  }

  /** The message of the first failing check of `cs`, if any. */
  function FirstFailure(cs: seq<Check>): (r: Option<string>)
    ensures r.None? <==> forall i :: 0 <= i < |cs| ==> cs[i].passes
    ensures r.Some? ==> exists i :: 0 <= i < |cs| && !cs[i].passes && cs[i].message == r.value
                                    && forall j :: 0 <= j < i ==> cs[j].passes
  {
    if cs == [] then None
    else if !cs[0].passes then Some(cs[0].message)
    else
      var r := FirstFailure(cs[1..]);
      assert r.Some? ==> exists i :: 1 <= i < |cs| && !cs[i].passes && cs[i].message == r.value
                                     && forall j :: 0 <= j < i ==> cs[j].passes by {
        if r.Some? {
          var i :| 0 <= i < |cs[1..]| && !cs[1..][i].passes && cs[1..][i].message == r.value
                   && forall j :: 0 <= j < i ==> cs[1..][j].passes;
          assert forall j :: 1 <= j < i + 1 ==> cs[j] == cs[1..][j - 1];
        }
      }
      r
  }

  /** The guard chain raises at most one alert, the one of the first check
      that fails in the order fill, match, length. */
  lemma RegisterErrorIsFirstFailure(f: RegisterForm)
    ensures RegisterError(f) == FirstFailure(Checks(f))
  {
    var cs := Checks(f);
    assert cs[1..] == Checks(f)[1..];
    assert cs[1..][1..] == [cs[2]];
    assert cs[1..][1..][1..] == [];
  }

  /** Registration proceeds exactly when all five fields are non-empty, the
      passwords agree and the password has at least six UTF-16 code units. */
  lemma RegisterAcceptsIff(f: RegisterForm)
    ensures RegisterError(f).None? <==>
      AllFilled(f) && f.password == f.confirmPassword && Utf16Length(f.password) >= 6
  {
    RegisterErrorIsFirstFailure(f);
    var cs := Checks(f);
    assert cs[0].passes && cs[1].passes && cs[2].passes <==>
      AllFilled(f) && f.password == f.confirmPassword && Utf16Length(f.password) >= 6;
  }

  /** With every field filled, a mismatch is what is reported, even for a
      password that is also too short. */
  lemma MismatchReportedBeforeLength(f: RegisterForm)
    requires AllFilled(f) && f.password != f.confirmPassword && Utf16Length(f.password) < 6
    ensures RegisterError(f) == Some(PasswordsDiffer)
  {
  }

  class RegisterScreenState {
    var formData: RegisterForm
    var isLoading: bool

    constructor ()
      ensures formData == EmptyForm && !isLoading
    {
      formData := EmptyForm;
      isLoading := false;
    }

    /** `handleRegister`: an alert and an early return for the first failing
        check; only when all pass does `isLoading` become true. */
    method HandleRegister() returns (alert: Option<string>)
      modifies this`isLoading
      ensures alert == RegisterError(formData)
      ensures isLoading == (old(isLoading) || alert.None?)
    {
      var f := formData;
      if f.firstName == "" || f.lastName == "" || f.email == "" || f.password == "" || f.confirmPassword == "" {
        return Some(FillAllFields);
      }
      if f.password != f.confirmPassword {
        return Some(PasswordsDiffer);
      }
      if Utf16Length(f.password) < 6 {
        return Some(PasswordTooShort);
      }
      isLoading := true;
      alert := None;
    }

    /** `updateFormData`. */
    method UpdateFormData(key: FormKey, value: string)
      modifies this`formData
      ensures formData == WithField(old(formData), key, value)
    {
      formData := WithField(formData, key, value);
    }

    /** The Create Account button's `disabled` condition. */
    predicate ButtonDisabled()
      reads this
    {
      isLoading
    }

    /** A press on Create Account, which is ignored while it is disabled. */
    method PressCreateAccount() returns (handled: bool, alert: Option<string>)
      modifies this`isLoading
      ensures handled == !old(ButtonDisabled())
      ensures !handled ==> alert.None? && isLoading == old(isLoading)
      ensures handled ==> alert == RegisterError(formData) && isLoading == alert.None?
    {
      handled := !ButtonDisabled();
      alert := None;
      if handled {
        alert := HandleRegister();
      }
    }

    /** The timer the successful handler starts: loading ends (and the root
        navigator is asked for the main app, which is not modelled). */
    method LoadingTimerFires()
      modifies this`isLoading
      ensures !isLoading
    {
      isLoading := false;
    }
  }
}
