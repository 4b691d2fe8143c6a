// The user-input form of app/UserInput.tsx: the form record, the error
// record, the submitting flag and the handlers that update them. The
// handlers of app/user-input.tsx (lines 83-132) are the same code and are
// modelled by the same members; that file's submission summary is in
// module UserInputSummary.

module UserInput {
  import opened Options
  import opened Text
  import opened EmailPattern

  datatype FormData = FormData(
    name: string,
    email: string,
    password: string,
    description: string,
    agreeToTerms: bool,
    selectedLanguage: string,
    selectedGender: string)

  /** The message shown under each validated field; "" shows none. */
  datatype FormErrors = FormErrors(name: string, email: string, password: string)

  /** `keyof FormData`. */
  datatype FormKey =
    | Name | Email | Password | Description
    | AgreeToTerms | SelectedLanguage | SelectedGender

  /** `string | boolean`, the type of the value `updateFormData` takes. */
  datatype FieldValue = Str(s: string) | Bool(b: bool)

  const NameRequired := "Name is required"
  const EmailRequired := "Valid email is required"
  const PasswordTooShort := "Password must be at least 6 characters"

  /** The form as the screen first renders it. */
  const InitialForm := FormData("", "", "", "", false, "javascript", "")
  const NoErrors := FormErrors("", "", "")

  /** The value has the kind the field holds, as every caller passes it. */
  predicate Fits(key: FormKey, value: FieldValue) {
    if key == AgreeToTerms then value.Bool? else value.Str?
  }

  /** `formData[key]`. */
  function Field(f: FormData, key: FormKey): FieldValue {
    match key
    case Name => Str(f.name)
    case Email => Str(f.email)
    case Password => Str(f.password)
    case Description => Str(f.description)
    case AgreeToTerms => Bool(f.agreeToTerms)
    case SelectedLanguage => Str(f.selectedLanguage)
    case SelectedGender => Str(f.selectedGender)
  }

  /** `{ ...formData, [key]: value }`: `key` takes `value` and every other
      field keeps its value. */
  function WithField(f: FormData, key: FormKey, value: FieldValue): (r: FormData)
    requires Fits(key, value)
    ensures Field(r, key) == value
    ensures forall k :: k != key ==> Field(r, k) == Field(f, k)
  {
    match key
    case Name => f.(name := value.s)
    case Email => f.(email := value.s)
    case Password => f.(password := value.s)
    case Description => f.(description := value.s)
    case AgreeToTerms => f.(agreeToTerms := value.b)
    case SelectedLanguage => f.(selectedLanguage := value.s)
    case SelectedGender => f.(selectedGender := value.s)
  }

  /** `errors[key]`: only name, email and password have an entry; for the
      other keys the lookup is `undefined`. */
  function ErrorEntry(e: FormErrors, key: FormKey): Option<string> {
    match key
    case Name => Some(e.name)
    case Email => Some(e.email)
    case Password => Some(e.password)
    case _ => None
  }

  /** `if (errors[key])`: the entry exists and is a non-empty string. */
  predicate HasError(e: FormErrors, key: FormKey) {
    ErrorEntry(e, key).Some? && ErrorEntry(e, key).value != ""
  }

  /** `{ ...errors, [key]: "" }` for a key that has an entry. */
  function ClearedError(e: FormErrors, key: FormKey): (r: FormErrors)
    requires ErrorEntry(e, key).Some?
    ensures ErrorEntry(r, key) == Some("")
    ensures forall k :: k != key ==> ErrorEntry(r, k) == ErrorEntry(e, k)
  {
    match key
    case Name => e.(name := "")
    case Email => e.(email := "")
    case Password => e.(password := "")
  }

  /** What typing into field `key` leaves in `errors`. */
  function ErrorsAfterEdit(e: FormErrors, key: FormKey): (r: FormErrors)
    ensures ErrorEntry(e, key).Some? ==> ErrorEntry(r, key) == Some("")
    ensures forall k :: k != key ==> ErrorEntry(r, k) == ErrorEntry(e, k)
    ensures ErrorEntry(e, key).None? ==> r == e
  {
    if HasError(e, key) then ClearedError(e, key) else e
  }

  predicate NamePasses(f: FormData) {
    Trim(f.name) != ""
  }

  predicate EmailPasses(f: FormData) {
    !(Trim(f.email) == "" || !IsValidEmail(f.email))
  }

  predicate PasswordPasses(f: FormData) {
    !(Utf16Length(f.password) < 6)
  }

  /** The value `validateForm` returns. */
  predicate FormValid(f: FormData) {
    NamePasses(f) && EmailPasses(f) && PasswordPasses(f)
  }

  /** What `validateForm` stores in `errors`: it starts from a copy of the
      current errors, so a failing field gets its message and a passing
      field keeps whatever entry it had. */
  function Validated(e: FormErrors, f: FormData): FormErrors {
    FormErrors(
      if NamePasses(f) then e.name else NameRequired,
      if EmailPasses(f) then e.email else EmailRequired,
      if PasswordPasses(f) then e.password else PasswordTooShort)
  }

  /** The validator accepts exactly a name with a non-whitespace character,
      an e-mail the pattern matches, and a password of at least six UTF-16
      code units. */
  lemma FormValidIff(f: FormData)
    ensures FormValid(f) <==>
      !AllWhitespace(f.name) && MatchesEmailRegex(f.email) && Utf16Length(f.password) >= 6
  {
    TrimEmptyIff(f.name);
    ValidEmailMatchesRegex(f.email);
    if IsValidEmail(f.email) { ValidEmailIsNotBlank(f.email); }
  }

  /** Validation only writes the three fixed messages, never clears an
      entry, and shows a message under every failing field. */
  lemma ValidatedOnlyAdds(e: FormErrors, f: FormData)
    ensures var r := Validated(e, f);
      && (r.name == e.name || r.name == NameRequired)
      && (r.email == e.email || r.email == EmailRequired)
      && (r.password == e.password || r.password == PasswordTooShort)
      && (e.name != "" ==> r.name != "")
      && (e.email != "" ==> r.email != "")
      && (e.password != "" ==> r.password != "")
      && (!NamePasses(f) ==> r.name != "")
      && (!EmailPasses(f) ==> r.email != "")
      && (!PasswordPasses(f) ==> r.password != "")
  {
  }

  /** Validating the same form twice leaves the errors of the first pass. */
  lemma ValidatedIdempotent(e: FormErrors, f: FormData)
    ensures Validated(Validated(e, f), f) == Validated(e, f)
  {
  }

  /** The body of `validateForm`: starting from a copy of `errors`, each
      failing check writes its message and clears the `isValid` flag. */
  method CheckForm(f: FormData, errors: FormErrors) returns (isValid: bool, newErrors: FormErrors)
    ensures isValid == FormValid(f)
    ensures newErrors == Validated(errors, f)
  {
    isValid := true;
    newErrors := errors;
    if !NamePasses(f) {
      newErrors := newErrors.(name := NameRequired);
      isValid := false;
    }
    if !EmailPasses(f) {
      newErrors := newErrors.(email := EmailRequired);
      isValid := false;
    }
    if !PasswordPasses(f) {
      newErrors := newErrors.(password := PasswordTooShort);
      isValid := false;
    }
  }

  class UserInputScreen {
    var formData: FormData
    var errors: FormErrors
    var isSubmitting: bool

    constructor ()
      ensures formData == InitialForm && errors == NoErrors && !isSubmitting
    {
      formData := InitialForm;
      errors := NoErrors;
      isSubmitting := false;
    }

    /** `updateFormData`: sets one field and clears that field's message if
        it shows one. */
    method UpdateFormData(key: FormKey, value: FieldValue)
      requires Fits(key, value)
      modifies this`formData, this`errors
      ensures formData == WithField(old(formData), key, value)
      ensures errors == ErrorsAfterEdit(old(errors), key)
      ensures isSubmitting == old(isSubmitting)
    {
      formData := WithField(formData, key, value);
      if HasError(errors, key) {
        errors := ClearedError(errors, key);
      }
    }

    /** `validateForm`. */
    method ValidateForm() returns (isValid: bool)
      modifies this`errors
      ensures formData == old(formData) && isSubmitting == old(isSubmitting)
      ensures isValid == FormValid(formData)
      ensures errors == Validated(old(errors), formData)
    {
      var newErrors;
      isValid, newErrors := CheckForm(formData, errors);
      errors := newErrors;
    }

    /** `handleSubmit`: validates, and only a valid form starts the
        simulated submission. */
    method HandleSubmit() returns (started: bool)
      modifies this`errors, this`isSubmitting
      ensures formData == old(formData)
      ensures started == FormValid(formData)
      ensures errors == Validated(old(errors), formData)
      ensures isSubmitting == (old(isSubmitting) || started)
    {
      started := ValidateForm();
      if started {
        isSubmitting := true;
      }
    }

    /** The Submit button's `disabled` condition. */
    predicate SubmitDisabled()
      reads this
    {
      !formData.agreeToTerms || isSubmitting
    }

    /** A press on the Submit button, which ignores presses while disabled. */
    method PressSubmit() returns (started: bool)
      modifies this`errors, this`isSubmitting
      ensures old(SubmitDisabled()) ==>
        !started && formData == old(formData) && errors == old(errors) && isSubmitting == old(isSubmitting)
      ensures formData == old(formData)
      ensures !old(SubmitDisabled()) ==>
        started == FormValid(formData) && errors == Validated(old(errors), formData) && isSubmitting == started
    {
      started := false;
      if !SubmitDisabled() {
        started := HandleSubmit();
      }
    }

    /** The timer `handleSubmit` starts: it ends the submission. */
    method SubmissionTimerFires()
      modifies this`isSubmitting
      ensures !isSubmitting && formData == old(formData) && errors == old(errors)
    {
      isSubmitting := false;
    }
  }

  /** Once a submission has started, a second press on Submit does nothing
      until the timer fires. */
  method SubmitTwice(screen: UserInputScreen) returns (first: bool, second: bool)
    modifies screen
    ensures first ==> FormValid(old(screen.formData)) && old(screen.formData).agreeToTerms
    ensures first ==> !second && screen.isSubmitting
    ensures first ==> screen.errors == Validated(old(screen.errors), old(screen.formData))
    ensures screen.formData == old(screen.formData)
  {
    first := screen.PressSubmit();
    second := screen.PressSubmit();
  }
}
