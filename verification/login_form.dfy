/** The login form: the email pattern and password rules checked before `loginUser` is
    dispatched, and the navigation after it settles. */
module LoginForm {
  import opened Seqs
  import opened Text
  import opened FormRules

  /** A letter of either case: the `[A-Z]` class under the `i` flag. */
  predicate Letter(c: char)
  {
    'a' <= c <= 'z' || 'A' <= c <= 'Z'
  }

  predicate Digit(c: char)
  {
    '0' <= c <= '9'
  }

  /** `[A-Z0-9._%+-]` under the `i` flag: the characters allowed before the `@`. */
  predicate LocalChar(c: char)
  {
    Letter(c) || Digit(c) || c == '.' || c == '_' || c == '%' || c == '+' || c == '-'
  }

  /** `[A-Z0-9.-]` under the `i` flag: the characters allowed between the `@` and the last dot. */
  predicate DomainChar(c: char)
  {
    Letter(c) || Digit(c) || c == '.' || c == '-'
  }

  /** `s` splits as local part, `@` at `at`, domain, `.` at `dot`, and a suffix of two or
      more letters. */
  predicate EmailSplit(s: string, at: int, dot: int)
  {
    0 < at && at + 1 < dot && dot + 2 < |s| && s[at] == '@' && s[dot] == '.' &&
    (forall k :: 0 <= k < at ==> LocalChar(s[k])) &&
    (forall k :: at < k < dot ==> DomainChar(s[k])) &&
    (forall k :: dot < k < |s| ==> Letter(s[k]))
  }

  /** The email pattern `^[A-Z0-9._%+-]+@[A-Z0-9.-]+\.[A-Z]{2,}$` with the `i` flag: some
      split of the whole string matches. */
  ghost predicate EmailPattern(s: string)
  {
    exists at, dot :: EmailSplit(s, at, dot)
  }

  /** The first position of `c` in `s`. */
  function IndexOf(s: string, c: char): (r: Option<nat>)
    ensures r.Some? ==> r.value < |s| && s[r.value] == c && forall k :: 0 <= k < r.value ==> s[k] != c
    ensures r.None? ==> forall k :: 0 <= k < |s| ==> s[k] != c
  {
    if s == [] then None
    else if s[0] == c then Some(0)
    else
      match IndexOf(s[1..], c)
      case None => None
      case Some(k) => Some(k + 1)
  }

  /** The last position of `c` in `s`. */
  function LastIndexOf(s: string, c: char): (r: Option<nat>)
    ensures r.Some? ==> r.value < |s| && s[r.value] == c && forall k :: r.value < k < |s| ==> s[k] != c
    ensures r.None? ==> forall k :: 0 <= k < |s| ==> s[k] != c
  {
    if s == [] then None
    else if s[|s| - 1] == c then Some(|s| - 1)
    else LastIndexOf(s[..|s| - 1], c)
  }

  /** Every character of `s` satisfies `p`, checked left to right. */
  function Every(s: string, p: char -> bool): (b: bool)
    ensures b <==> forall k :: 0 <= k < |s| ==> p(s[k])
  {
    if s == [] then true else p(s[0]) && Every(s[1..], p)
  }

  /** A direct check of the pattern: the first `@` and the last `.` are the only places the
      split can be, so test those two. */
  function CheckEmail(s: string): (ok: bool)
    ensures ok <==> (IndexOf(s, '@').Some? && LastIndexOf(s, '.').Some? &&
                     EmailSplit(s, IndexOf(s, '@').value, LastIndexOf(s, '.').value))
  {
    match IndexOf(s, '@')
    case None => false
    case Some(at) =>
      match LastIndexOf(s, '.')
      case None => false
      case Some(dot) =>
        if 0 < at && at + 1 < dot && dot + 2 < |s| then
          PartsMatchSplit(s, at, dot);
          Every(s[..at], LocalChar) && Every(s[at + 1..dot], DomainChar) && Every(s[dot + 1..], Letter)
        else false
  }

  /** Checking the three slices is checking the three ranges of the split. */
  lemma PartsMatchSplit(s: string, at: int, dot: int)
    requires 0 < at && at + 1 < dot && dot + 2 < |s|
    ensures Every(s[..at], LocalChar) <==> forall k :: 0 <= k < at ==> LocalChar(s[k])
    ensures Every(s[at + 1..dot], DomainChar) <==> forall k :: at < k < dot ==> DomainChar(s[k])
    ensures Every(s[dot + 1..], Letter) <==> forall k :: dot < k < |s| ==> Letter(s[k])
  {
    assert forall k :: 0 <= k < at ==> s[..at][k] == s[k];
    assert forall k :: at < k < dot ==> s[at + 1..dot][k - at - 1] == s[k];
    assert forall k :: dot < k < |s| ==> s[dot + 1..][k - dot - 1] == s[k];
  }

  /** A matching split sits at the first `@` and the last `.`: the local part has no `@`
      and the suffix has no `.`. */
  lemma SplitIsUnique(s: string, at: int, dot: int)
    requires EmailSplit(s, at, dot)
    ensures IndexOf(s, '@') == Some(at) && LastIndexOf(s, '.') == Some(dot)
  {
    assert !LocalChar('@') && !Letter('.');
  }

  /** The direct check accepts exactly the strings the pattern matches. */
  lemma CheckEmailMatchesPattern(s: string)
    ensures CheckEmail(s) <==> EmailPattern(s)
  {
    if CheckEmail(s) {
      assert EmailSplit(s, IndexOf(s, '@').value, LastIndexOf(s, '.').value);
    }
    if EmailPattern(s) {
      var at, dot :| EmailSplit(s, at, dot);
      SplitIsUnique(s, at, dot);
    }
  }

  /** `at` is the one and only position of `@` in `s`. */
  predicate OnlyAtSign(s: string, at: int)
  {
    0 <= at < |s| && s[at] == '@' && forall k :: 0 <= k < |s| && s[k] == '@' ==> k == at
  }

  /** An accepted email has exactly one `@`, and everything after its last `.` is a letter. */
  lemma AcceptedEmailShape(s: string)
    requires EmailPattern(s)
    ensures exists at :: OnlyAtSign(s, at)
    ensures LastIndexOf(s, '.').Some? && |s| - LastIndexOf(s, '.').value > 2
    ensures forall k :: LastIndexOf(s, '.').value < k < |s| ==> Letter(s[k])
  {
    var at, dot :| EmailSplit(s, at, dot);
    AtSignIsUnique(s, at, dot);
    SplitIsUnique(s, at, dot);
    assert LastIndexOf(s, '.').value == dot;
  }

  /** In a matching split the `@` at `at` is the only one: none of the three character
      classes admits `@`. */
  lemma AtSignIsUnique(s: string, at: int, dot: int)
    requires EmailSplit(s, at, dot)
    ensures OnlyAtSign(s, at)
  {
    assert !LocalChar('@') && !DomainChar('@') && !Letter('@');
  }

  /** The `i` flag: an email is accepted exactly when its lower-cased form is. */
  lemma EmailIgnoresCase(s: string)
    ensures EmailPattern(s) <==> EmailPattern(Lower(s))
  {
    var t := Lower(s);
    forall at, dot | EmailSplit(s, at, dot)
      ensures EmailSplit(t, at, dot)
    {
    }
    forall at, dot | EmailSplit(t, at, dot)
      ensures EmailSplit(s, at, dot)
    {
      forall k | 0 <= k < |s|
        ensures LocalChar(t[k]) ==> LocalChar(s[k])
        ensures DomainChar(t[k]) ==> DomainChar(s[k])
        ensures Letter(t[k]) ==> Letter(s[k])
        ensures t[k] == '@' ==> s[k] == '@'
        ensures t[k] == '.' ==> s[k] == '.'
      {
      }
    }
  }

  const EmailRequired: string := "Email is required"
  const EmailInvalid: string := "Invalid email address"
  const PasswordRequired: string := "Password is required"
  const PasswordShort: string := "Password must be at least 6 characters"

  /** The email field's first failing rule: required, then the pattern. */
  function EmailError(email: string): (e: Option<string>)
    ensures e.None? <==> EmailPattern(email)
    ensures email == "" ==> e == Some(EmailRequired)
    ensures email != "" && !EmailPattern(email) ==> e == Some(EmailInvalid)
  {
    CheckEmailMatchesPattern(email);
    if email == "" then Some(EmailRequired)
    else if !CheckEmail(email) then Some(EmailInvalid)
    else None
  }

  /** The password field's first failing rule: required, then at least six characters. */
  function PasswordError(password: string): (e: Option<string>)
    ensures e.None? <==> JsLength(password) >= 6
    ensures password == "" ==> e == Some(PasswordRequired)
    ensures password != "" && JsLength(password) < 6 ==> e == Some(PasswordShort)
  {
    RequiredMinLength(password, 6, PasswordRequired, PasswordShort)
  }

  /** The length rule counts UTF-16 code units: three emoji make a six-unit password,
      while five letters stay too short. */
  lemma PasswordLengthInCodeUnits()
    ensures PasswordError(['\U{1F600}', '\U{1F600}', '\U{1F600}']) == None
    ensures PasswordError("abcde") == Some(PasswordShort)
  {
    var p := ['\U{1F600}', '\U{1F600}', '\U{1F600}'];
    assert JsLength(p[2..]) == 2;
    assert JsLength(p[1..]) == 4;
    assert "abcde"[1..] == "bcde" && "bcde"[1..] == "cde" && "cde"[1..] == "de" && "de"[1..] == "e";
  }

  /** `handleSubmit(onSubmit)`: `loginUser` is dispatched with the two fields only when both
      pass their rules. */
  function LoginAttempt(email: string, password: string): (credentials: Option<map<string, string>>)
    ensures credentials.Some? <==> EmailPattern(email) && JsLength(password) >= 6
    ensures credentials.Some? ==> credentials.value == map["email" := email, "password" := password]
  {
    if EmailError(email).None? && PasswordError(password).None? then
      Some(map["email" := email, "password" := password])
    else None
  }

  /** Sample inputs: a plain address passes, one without a suffix of two letters or with
      a second `@` does not. */
  lemma EmailSamples()
    ensures EmailPattern("a.b@x-y.io")
    ensures !EmailPattern("a@b.c")
    ensures !EmailPattern("a@b@c.io")
  {
    assert EmailSplit("a.b@x-y.io", 3, 7);
    CheckEmailMatchesPattern("a@b.c");
    CheckEmailMatchesPattern("a@b@c.io");
    assert IndexOf("a@b@c.io", '@') == Some(1);
  }

  /** A doubled dot before the suffix still matches the pattern, so such an address with a
      long enough password is submitted. */
  lemma DoubledDotSubmitted()
    ensures EmailPattern("a@b..io") && LoginAttempt("a@b..io", "secret").Some?
  {
    assert EmailSplit("a@b..io", 1, 4);
  }
}
