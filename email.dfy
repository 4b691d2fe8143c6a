// The e-mail pattern /^[^\s@]+@[^\s@]+\.[^\s@]+$/ that four of the form
// screens test, once as the language the regular expression denotes and
// once as a direct check, with a proof that the two agree.
//
// Without the `u` flag a JavaScript regular expression reads UTF-16 code
// units; a code point above U+FFFF becomes two surrogates, both of which
// `[^\s@]` accepts, so reading the string by code points accepts the
// same strings.

module EmailPattern {
  import opened Text

  /** A character the class `[^\s@]` accepts. */
  predicate IsAddressChar(c: char) {
    !IsWhitespace(c) && c != '@'
  }

  /** `s` is local + "@" + host + "." + tail, three non-empty runs of
      `[^\s@]`, with the '@' at `at` and the separating '.' at `dot`. */
  ghost predicate SplitsAt(s: string, at: int, dot: int) {
    && 0 < at && at + 1 < dot && dot + 1 < |s|
    && s[at] == '@' && s[dot] == '.'
    && (forall k :: 0 <= k < at ==> IsAddressChar(s[k]))
    && (forall k :: at < k < dot ==> IsAddressChar(s[k]))
    && (forall k :: dot < k < |s| ==> IsAddressChar(s[k]))
  }

  /** `emailRegex.test(s)`: some split of `s` fits the pattern. */
  ghost predicate MatchesEmailRegex(s: string) {
    exists at, dot :: SplitsAt(s, at, dot)
  }

  /** The domain (the text after the '@') has a '.' that is neither its
      first nor its last character. */
  predicate HasInnerDot(domain: string) {
    exists k :: 0 < k < |domain| - 1 && domain[k] == '.'
  }

  /** The pattern checked directly: no whitespace, exactly one '@', a
      non-empty local part, and an inner '.' in the domain. */
  predicate IsValidEmail(s: string) {
    && NoWhitespace(s)
    && Count(s, '@') == 1
    && var at := IndexOf(s, '@');
       0 < at && HasInnerDot(s[at + 1..])
  }

  /** The direct check accepts exactly the strings the regular expression
      matches. */
  lemma ValidEmailMatchesRegex(s: string)
    ensures IsValidEmail(s) <==> MatchesEmailRegex(s)
  {
    if IsValidEmail(s) {
      var at := IndexOf(s, '@');
      var domain := s[at + 1..];
      var k :| 0 < k < |domain| - 1 && domain[k] == '.';
      CountOnce(s, '@', at);
      var dot := at + 1 + k;
      assert s[dot] == '.';
      assert SplitsAt(s, at, dot);
    }
    if MatchesEmailRegex(s) {
      var at, dot :| SplitsAt(s, at, dot);
      assert NoWhitespace(s) by {
        forall i | 0 <= i < |s| ensures !IsWhitespace(s[i]) {
          if i != at && i != dot { assert IsAddressChar(s[i]); }
        }
      }
      assert forall j :: 0 <= j < |s| && j != at ==> s[j] != '@' by {
        forall j | 0 <= j < |s| && j != at ensures s[j] != '@' {
          if j != dot { assert IsAddressChar(s[j]); }
        }
      }
      CountOnce(s, '@', at);
      var i := IndexOf(s, '@');
      assert i == at;
      var domain := s[at + 1..];
      assert domain[dot - at - 1] == '.';
    }
  }

  /** `validateEmail` of the sign-up and forgot-password screens:
      `emailRegex.test(email)`, computed by the direct check. */
  function ValidateEmail(email: string): (r: bool)
    ensures r <==> MatchesEmailRegex(email)
  {
    ValidEmailMatchesRegex(email);
    IsValidEmail(email)
  }

  /** A matching address is never blank, so in a check of the form
      `!s.trim() || !emailRegex.test(s)` the first test adds nothing. */
  lemma ValidEmailIsNotBlank(s: string)
    requires IsValidEmail(s)
    ensures s != [] && Trim(s) == s
  {
    TrimNoWhitespace(s);
  }
}
