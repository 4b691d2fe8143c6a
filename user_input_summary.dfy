// app/user-input.tsx: the same form as app/UserInput.tsx (module
// UserInput), whose `handleSubmit` also builds the text of the
// "Form Submitted" alert from the submitted form.

module UserInputSummary {
  import opened Options
  import opened UserInput

  const Header := "Thank you for your submission!\n\n"
  const NoDescription := "Not provided"
  const NoGender := "Not selected"

  /** JavaScript's `s || fallback` for a string `s`: only "" is falsy. */
  function Or(s: string, fallback: string): string {
    if s == "" then fallback else s
  }

  /** The body of the alert shown when the simulated submission ends. */
  function SubmissionMessage(f: FormData): string {
    Header
    + "Name: " + f.name + "\n"
    + "Email: " + f.email + "\n"
    + "Description: " + Or(f.description, NoDescription) + "\n"
    + "Gender: " + Or(f.selectedGender, NoGender) + "\n"
    + "Programming Language: " + f.selectedLanguage + "\n"
    + "Agreed to Terms: " + (if f.agreeToTerms then "Yes" else "No")
  }

  /** `part` occurs in `whole` starting at position `k`. */
  predicate OccursAt(part: string, whole: string, k: int) {
    0 <= k <= |whole| - |part| && whole[k..k + |part|] == part
  }

  /** `part` occurs in `whole` as a contiguous substring. */
  ghost predicate Occurs(part: string, whole: string) {
    exists k :: OccursAt(part, whole, k)
  }

  predicate EndsWith(whole: string, tail: string) {
    |tail| <= |whole| && whole[|whole| - |tail|..] == tail
  }

  /** `part` occurs in `before + part + after`, right after `before`. */
  lemma OccursAfter(before: string, part: string, after: string)
    ensures OccursAt(part, before + part + after, |before|)
  {
    var whole := before + part + after;
    assert whole[|before|..|before| + |part|] == part;
  }

  /** A field's value is shown as typed when it is non-empty; the
      placeholder is shown exactly when the value is empty or happens to
      be the placeholder text itself. */
  lemma PlaceholderShownIff(s: string, fallback: string)
    requires fallback != ""
    ensures s != "" ==> Or(s, fallback) == s
    ensures Or(s, fallback) == fallback <==> s == "" || s == fallback
    ensures Or(s, fallback) != ""
  {
  }

  /** The alert shows the name verbatim. */
  lemma SummaryShowsName(f: FormData)
    ensures Occurs(f.name, SubmissionMessage(f))
  {
    var before := Header + "Name: ";
    var after := SubmissionMessage(f)[|before| + |f.name|..];
    assert SubmissionMessage(f) == before + f.name + after;
    OccursAfter(before, f.name, after);
  }

  /** The alert shows the e-mail address verbatim. */
  lemma SummaryShowsEmail(f: FormData)
    ensures Occurs(f.email, SubmissionMessage(f))
  {
    var before := Header + "Name: " + f.name + "\n" + "Email: ";
    var after := SubmissionMessage(f)[|before| + |f.email|..];
    assert SubmissionMessage(f) == before + f.email + after;
    OccursAfter(before, f.email, after);
  }

  /** The alert shows the programming language verbatim. */
  lemma SummaryShowsLanguage(f: FormData)
    ensures Occurs(f.selectedLanguage, SubmissionMessage(f))
  {
    var m := SubmissionMessage(f);
    var after := "\n" + "Agreed to Terms: " + (if f.agreeToTerms then "Yes" else "No");
    var before := m[..|m| - |f.selectedLanguage| - |after|];
    assert m == before + f.selectedLanguage + after;
    OccursAfter(before, f.selectedLanguage, after);
  }

  /** The last line reads "Agreed to Terms: Yes" if and only if the terms
      were accepted. */
  lemma SummaryTermsLine(f: FormData)
    ensures EndsWith(SubmissionMessage(f), "Agreed to Terms: Yes") <==> f.agreeToTerms
  {
    var m := SubmissionMessage(f);
    var terms := if f.agreeToTerms then "Yes" else "No";
    var line := "Agreed to Terms: " + terms;
    assert m == m[..|m| - |line|] + line;
    if !f.agreeToTerms {
      assert m[|m| - 1] == 'o';
    }
  }

  /** The password never reaches the alert: two forms that differ only in
      their password give the same text. */
  lemma SummaryIgnoresPassword(f: FormData, password: string)
    ensures SubmissionMessage(f.(password := password)) == SubmissionMessage(f)
  {
  }

  /** `handleSubmit` of app/user-input.tsx: validation as in UserInput; a
      valid form starts the submission and schedules the alert, whose text
      is built from the form as it was when Submit was pressed. */
  method HandleSubmit(screen: UserInputScreen) returns (alert: Option<string>)
    modifies screen`errors, screen`isSubmitting
    ensures screen.formData == old(screen.formData)
    ensures alert.Some? == FormValid(screen.formData)
    ensures screen.errors == Validated(old(screen.errors), screen.formData)
    ensures screen.isSubmitting == (old(screen.isSubmitting) || alert.Some?)
    ensures alert.Some? ==> alert.value == SubmissionMessage(screen.formData)
  {
    var started := screen.HandleSubmit();
    alert := if started then Some(SubmissionMessage(screen.formData)) else None;
  }
}
