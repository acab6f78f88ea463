/**
 * Waitlist form validation (src/scripts/form-handler.ts): the e-mail pattern
 * and the field-by-field check of the form data.  Submission to the form
 * service is not part of this model.
 */
module WaitlistForm {
  import opened Wrappers
  import opened Text

  // ---------------------------------------------------------------------------
  // validateEmail

  /** A character of the class `[^\s@]`. */
  predicate Plain(c: char) {
    !IsWhitespace(c) && c != '@'
  }

  predicate AllPlain(s: string) {
    forall k :: 0 <= k < |s| ==> Plain(s[k])
  }

  /** The strings `/^[^\s@]+@[^\s@]+\.[^\s@]+$/` matches, read off the pattern:
      a non-empty run, `@` at `at`, a non-empty run, `.` at `dot`, a non-empty run. */
  ghost predicate MatchesEmailPattern(s: string) {
    exists at, dot :: 0 < at && at + 1 < dot && dot + 1 < |s| && s[at] == '@' && s[dot] == '.' &&
      AllPlain(s[..at]) && AllPlain(s[at + 1..dot]) && AllPlain(s[dot + 1..])
  }

  /** Position of the first `c` in `s`. */
  function IndexOf(s: string, c: char): (i: nat)
    requires c in s
    ensures i < |s| && s[i] == c && c !in s[..i]
  {
    if s[0] == c then 0 else 1 + IndexOf(s[1..], c)
  }

  /** The domain has a `.` with at least one character on each side. */
  predicate HasInnerDot(domain: string) {
    |domain| >= 3 && '.' in domain[1..|domain| - 1]
  }

  /** `validateEmail`: one `@`, a non-empty local part, a domain with an inner
      dot, and no white space anywhere. */
  function ValidateEmail(email: string): (ok: bool) {
    '@' in email &&
    var at := IndexOf(email, '@');
    at > 0 && AllPlain(email[..at]) && AllPlain(email[at + 1..]) && HasInnerDot(email[at + 1..])
  }

  /** A slice of a run of plain characters is plain. */
  lemma AllPlainSlice(s: string, lo: nat, hi: nat)
    requires AllPlain(s) && lo <= hi <= |s|
    ensures AllPlain(s[lo..hi])
  {
    forall k | 0 <= k < hi - lo ensures Plain(s[lo..hi][k]) {
      assert s[lo..hi][k] == s[lo + k];
    }
  }

  /** Every string the check accepts matches the pattern. */
  lemma ValidatedEmailMatches(email: string)
    requires ValidateEmail(email)
    ensures MatchesEmailPattern(email)
  {
    var at := IndexOf(email, '@');
    var domain := email[at + 1..];
    var k := IndexOf(domain[1..|domain| - 1], '.') + 1;
    assert domain[k] == '.';
    var dot := at + 1 + k;
    assert email[dot] == '.';
    AllPlainSlice(domain, 0, k);
    AllPlainSlice(domain, k + 1, |domain|);
    assert email[at + 1..dot] == domain[0..k];
    assert email[dot + 1..] == domain[k + 1..|domain|];
  }

  /** Every string the pattern matches is accepted. */
  lemma MatchingEmailValidated(email: string, at: nat, dot: nat)
    requires 0 < at && at + 1 < dot && dot + 1 < |email| && email[at] == '@' && email[dot] == '.'
    requires AllPlain(email[..at]) && AllPlain(email[at + 1..dot]) && AllPlain(email[dot + 1..])
    ensures ValidateEmail(email)
  {
    assert IndexOf(email, '@') == at;
    var domain := email[at + 1..];
    var left := email[at + 1..dot];
    var right := email[dot + 1..];
    forall k | 0 <= k < |domain| ensures Plain(domain[k]) {
      if k < |left| {
        assert domain[k] == left[k];
      } else if k > |left| {
        assert domain[k] == right[k - |left| - 1];
      }
    }
    assert domain[1..|domain| - 1][|left| - 1] == '.';
  }

  /** The check accepts exactly the strings the regular expression matches. */
  lemma ValidateEmailMatchesPattern(email: string)
    ensures ValidateEmail(email) <==> MatchesEmailPattern(email)
  {
    if ValidateEmail(email) {
      ValidatedEmailMatches(email);
    }
    if MatchesEmailPattern(email) {
      var at, dot :| 0 < at && at + 1 < dot && dot + 1 < |email| && email[at] == '@' && email[dot] == '.' &&
        AllPlain(email[..at]) && AllPlain(email[at + 1..dot]) && AllPlain(email[dot + 1..]);
      MatchingEmailValidated(email, at, dot);
    }
  }

  /** A string with white space, without `@`, or with two `@` is rejected. */
  lemma EmailRejections(email: string)
    ensures (exists k :: 0 <= k < |email| && IsWhitespace(email[k])) ==> !ValidateEmail(email)
    ensures '@' !in email ==> !ValidateEmail(email)
    ensures (exists i, j :: 0 <= i < j < |email| && email[i] == '@' && email[j] == '@') ==> !ValidateEmail(email)
  {
    if ValidateEmail(email) {
      var at := IndexOf(email, '@');
      forall k | 0 <= k < |email| ensures Plain(email[k]) || k == at {
        if k < at {
          assert email[..at][k] == email[k];
        } else if k > at {
          assert email[at + 1..][k - at - 1] == email[k];
        }
      }
    }
  }

  // ---------------------------------------------------------------------------
  // validateForm

  /** The form data; the message is optional. */
  datatype FormData = FormData(name: string, email: string, role: string, message: Option<string>)

  /** The error record: a field is present exactly when that check failed. */
  datatype FormErrors = FormErrors(name: Option<string>, email: Option<string>,
                                   role: Option<string>, message: Option<string>)

  const NameError: string := "Name must be at least 2 characters"
  const EmailError: string := "Please enter a valid email address"
  const RoleError: string := "Please select your role"
  const MessageError: string := "Message must be 500 characters or less"
  const MaxMessageLength: nat := 500

  /** `!data.name || data.name.trim().length < 2`. */
  predicate NameInvalid(name: string) {
    name == "" || |Trim(name)| < 2
  }

  /** `!data.email || !validateEmail(data.email)`. */
  predicate EmailInvalid(email: string) {
    email == "" || !ValidateEmail(email)
  }

  /** `!data.role`. */
  predicate RoleInvalid(role: string) {
    role == ""
  }

  /** `data.message && data.message.length > 500`. */
  predicate MessageInvalid(message: Option<string>) {
    message.Some? && message.value != "" && |message.value| > MaxMessageLength
  }

  function ErrorIf(failed: bool, text: string): Option<string> {
    if failed then Some(text) else None
  }

  /** Each field's error depends on that field alone. */
  function ExpectedErrors(data: FormData): FormErrors {
    FormErrors(ErrorIf(NameInvalid(data.name), NameError),
               ErrorIf(EmailInvalid(data.email), EmailError),
               ErrorIf(RoleInvalid(data.role), RoleError),
               ErrorIf(MessageInvalid(data.message), MessageError))
  }

  /** `validateForm`: fills the error record check by check; the form is valid
      when no error was recorded. */
  method ValidateForm(data: FormData) returns (valid: bool, errors: FormErrors)
    ensures errors == ExpectedErrors(data)
    ensures valid <==> !NameInvalid(data.name) && !EmailInvalid(data.email) &&
                       !RoleInvalid(data.role) && !MessageInvalid(data.message)
  {
    errors := FormErrors(None, None, None, None);
    if data.name == "" || |Trim(data.name)| < 2 {
      errors := errors.(name := Some(NameError));
    }
    if data.email == "" || !ValidateEmail(data.email) {
      errors := errors.(email := Some(EmailError));
    }
    if data.role == "" {
      errors := errors.(role := Some(RoleError));
    }
    if data.message.Some? && data.message.value != "" && |data.message.value| > 500 {
      errors := errors.(message := Some(MessageError));
    }
    valid := errors.name.None? && errors.email.None? && errors.role.None? && errors.message.None?;
  }

  /** A name with two non-white-space characters passes; one made only of white
      space fails. */
  lemma NameCheck(name: string, i: nat, j: nat)
    requires i < j < |name| && !IsWhitespace(name[i]) && !IsWhitespace(name[j])
    ensures !NameInvalid(name)
  {
    var t := TrimStart(name);
    var off := |name| - |t|;
    assert off <= i;
    assert t[j - off] == name[j];
    var r := TrimEnd(t);
    assert |r| > j - off;
  }

  /** A white-space-only name fails. */
  lemma BlankNameInvalid(name: string)
    requires forall k :: 0 <= k < |name| ==> IsWhitespace(name[k])
    ensures NameInvalid(name)
  {
  }

  /** The e-mail check fails exactly for strings the pattern does not match (the
      empty string does not match). */
  lemma EmailInvalidIff(email: string)
    ensures EmailInvalid(email) <==> !MatchesEmailPattern(email)
  {
    ValidateEmailMatchesPattern(email);
  }

  /** The message limit is inclusive, and an empty message is no message. */
  lemma MessageLimit(m: string)
    ensures MessageInvalid(Some(m)) <==> |m| > 500
    ensures !MessageInvalid(None)
  {
  }
}
