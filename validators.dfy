/** The two visitor-contact checks of the runtime component: a loose
    `local@domain.tld` shape for the e-mail address and the E.164 shape
    (ITU-T Recommendation E.164, clause 6: at most 15 digits, no leading zero)
    for the phone number. Both are regular-expression tests in the source;
    here each is a scan with a declarative reference predicate beside it. */
module Validators {
  import opened Common

  /** The characters JavaScript's `\s` class matches: the white-space and
      line-terminator code points of ECMAScript. */
  predicate IsWhitespace(c: char)
  {
    c == '\t' || c == '\n' || c == '\U{000B}' || c == '\U{000C}' || c == '\r' || c == ' '
    || c == '\U{00A0}' || c == '\U{1680}' || ('\U{2000}' <= c <= '\U{200A}')
    || c == '\U{2028}' || c == '\U{2029}' || c == '\U{202F}' || c == '\U{205F}'
    || c == '\U{3000}' || c == '\U{FEFF}'
  }

  /** JavaScript's `\d`: an ASCII digit. */
  predicate IsDigit(c: char)
  {
    '0' <= c <= '9'
  }

  /** Position of the first `c` in `s`, if any. */
  function IndexOfChar(s: string, c: char): (r: Option<nat>)
    ensures r.Some? ==> r.value < |s| && s[r.value] == c
    ensures r.Some? ==> forall j :: 0 <= j < r.value ==> s[j] != c
    ensures r.None? ==> forall j :: 0 <= j < |s| ==> s[j] != c
  {
    if s == [] then None
    else if s[0] == c then Some(0)
    else match IndexOfChar(s[1..], c)
      case None => None
      case Some(k) => Some(k + 1)
  }

  function NoWhitespace(s: string): (b: bool)
    ensures b <==> forall k :: 0 <= k < |s| ==> !IsWhitespace(s[k])
  {
    if s == [] then true else !IsWhitespace(s[0]) && NoWhitespace(s[1..])
  }

  function AllDigits(s: string): (b: bool)
    ensures b <==> forall k :: 0 <= k < |s| ==> IsDigit(s[k])
  {
    if s == [] then true else IsDigit(s[0]) && AllDigits(s[1..])
  }

  /** What `/^[^\s@]+@[^\s@]+\.[^\s@]+$/` accepts, stated by positions: a
      single `@` that is not the first character, a `.` after it that is
      neither right after the `@` nor the last character, and no white space. */
  ghost predicate EmailPattern(s: string)
  {
    exists at, dot ::
      0 < at && at + 1 < dot < |s| - 1 && s[at] == '@' && s[dot] == '.'
      && (forall k :: 0 <= k < |s| ==> !IsWhitespace(s[k]))
      && (forall k :: 0 <= k < |s| && s[k] == '@' ==> k == at)
  }

  /** `validateEmail`: split at the first `@`, then check the two halves. */
  function ValidateEmail(email: string): (ok: bool)
  {
    match IndexOfChar(email, '@')
    case None => false
    case Some(at) =>
      var domain := email[at + 1..];
      0 < at && NoWhitespace(email) && IndexOfChar(domain, '@').None?
      && |domain| >= 3 && IndexOfChar(domain[1..|domain| - 1], '.').Some?
  }

  /** The scan accepts exactly the strings the regular expression accepts. */
  lemma ValidateEmailMatchesPattern(s: string)
    ensures ValidateEmail(s) <==> EmailPattern(s)
  {
    if ValidateEmail(s) {
      var at := IndexOfChar(s, '@').value;
      var domain := s[at + 1..];
      var k := IndexOfChar(domain[1..|domain| - 1], '.').value;
      var dot := at + 2 + k;
      assert s[dot] == domain[1..|domain| - 1][k];
      forall j | at < j < |s| ensures s[j] != '@' {
        assert s[j] == domain[j - at - 1];
      }
      assert 0 < at && at + 1 < dot < |s| - 1 && s[at] == '@' && s[dot] == '.';
    }
    if EmailPattern(s) {
      var at, dot :| 0 < at && at + 1 < dot < |s| - 1 && s[at] == '@' && s[dot] == '.'
        && (forall k :: 0 <= k < |s| ==> !IsWhitespace(s[k]))
        && (forall k :: 0 <= k < |s| && s[k] == '@' ==> k == at);
      var found := IndexOfChar(s, '@');
      assert found == Some(at);
      var domain := s[at + 1..];
      forall j | 0 <= j < |domain| ensures domain[j] != '@' {
        assert domain[j] == s[at + 1 + j];
      }
      var inner := domain[1..|domain| - 1];
      assert inner[dot - at - 2] == '.';
    }
  }

  /** The local part and the domain part of an accepted address: a non-empty,
      white-space-free local part, exactly one `@`, and a domain with an inner dot. */
  lemma ValidEmailParts(s: string)
    requires ValidateEmail(s)
    ensures exists at :: (0 < at < |s| && s[at] == '@'
      && (forall k :: 0 <= k < |s| && k != at ==> s[k] != '@')
      && (exists dot :: at + 1 < dot < |s| - 1 && s[dot] == '.'))
  {
    ValidateEmailMatchesPattern(s);
  }

  /** The digits after the `+` form an E.164 number: 2 to 15 digits (the
      expression asks for a non-zero digit and then 1 to 14 more), the first
      one not zero. */
  predicate E164Digits(d: string)
  {
    2 <= |d| <= 15 && d[0] != '0' && forall k :: 0 <= k < |d| ==> IsDigit(d[k])
  }

  /** `validatePhone`: `/^\+[1-9]\d{1,14}$/`. */
  function ValidatePhone(phone: string): (ok: bool)
  {
    3 <= |phone| <= 16 && phone[0] == '+' && '1' <= phone[1] <= '9' && AllDigits(phone[2..])
  }

  /** A phone number is accepted exactly when it is `+` followed by an E.164 digit string. */
  lemma ValidatePhoneIsE164(phone: string)
    ensures ValidatePhone(phone) <==> |phone| > 0 && phone[0] == '+' && E164Digits(phone[1..])
  {
    if |phone| > 0 && phone[0] == '+' && E164Digits(phone[1..]) {
      assert IsDigit(phone[1..][0]);
      forall k | 0 <= k < |phone[2..]| ensures IsDigit(phone[2..][k]) {
        assert phone[2..][k] == phone[1..][k + 1];
      }
    }
    if ValidatePhone(phone) {
      forall k | 0 <= k < |phone[1..]| ensures IsDigit(phone[1..][k]) {
        if k > 0 { assert phone[1..][k] == phone[2..][k - 1]; }
      }
    }
  }

  /** The e-mail examples: a dotted domain passes, a bare host does not. */
  lemma EmailExamples()
    ensures ValidateEmail("a@b.com")
    ensures !ValidateEmail("a@b")
  {
    assert IndexOfChar("a@b.com", '@') == Some(1) by {
      assert IndexOfChar("@b.com", '@') == Some(0);
    }
    assert "a@b.com"[2..] == "b.com";
    assert IndexOfChar("b.com", '@').None? by {
      assert IndexOfChar("m", '@').None?;
      assert IndexOfChar("om", '@').None?;
      assert IndexOfChar("com", '@').None?;
      assert IndexOfChar(".com", '@').None?;
    }
    assert "b.com"[1..4] == ".co";
    assert IndexOfChar(".co", '.') == Some(0);
    assert IndexOfChar("a@b", '@') == Some(1) by {
      assert IndexOfChar("@b", '@') == Some(0);
    }
    assert |"a@b"[2..]| == 1;
  }

  /** The phone examples: the hint's own number passes; a `00` international
      prefix and a single digit do not. */
  lemma PhoneExamples()
    ensures ValidatePhone("+34666111222")
    ensures !ValidatePhone("0034666111222")
    ensures !ValidatePhone("+1")
  {
    var rest := "+34666111222"[2..];
    assert rest == "4666111222";
    assert forall k :: 0 <= k < |rest| ==> IsDigit(rest[k]);
  }

  /** `isSubmitDisabled`: either value empty or failing its check. */
  function IsSubmitDisabled(email: string, phone: string): (disabled: bool)
  {
    email == "" || phone == "" || !ValidateEmail(email) || !ValidatePhone(phone)
  }

  /** The emptiness tests are subsumed by the shape checks: submission is
      enabled exactly when both values pass. */
  lemma SubmitEnabledIffBothValid(email: string, phone: string)
    ensures !IsSubmitDisabled(email, phone) <==> ValidateEmail(email) && ValidatePhone(phone)
  {
    if ValidateEmail(email) {
      ValidateEmailMatchesPattern(email);
    }
  }
}
