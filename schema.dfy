/**
 * The form schema of lib/types.ts: `registerSchema` (and `loginSchema`, the same schema) as
 * Zod evaluates it: an e-mail check, then three password checks, every failing check adding
 * an issue in that order.
 */
module Schema {
  import opened Wrappers

  const EmailMessage := "Введите корректный Email"
  const MinLengthMessage := "Пароль должен содержать не менее 6 символов"
  const UppercaseMessage := "Пароль должен содержать как минимум одну заглавную букву"
  const SpecialMessage := "Пароль должен содержать не менее 2 спецсимволов"

  /** `min(6, …)` */
  const MinPasswordLength := 6

  predicate Upper(c: char) { 'A' <= c <= 'Z' }
  predicate Letter(c: char) { Upper(c) || 'a' <= c <= 'z' }
  predicate AlphaNum(c: char) { Letter(c) || '0' <= c <= '9' }

  /** The first position of `c` in `s` at or after `from`, or -1. */
  function IndexFrom(s: string, c: char, from: nat): (r: int)
    requires from <= |s|
    ensures r == -1 || from <= r < |s|
    ensures r >= 0 ==> s[r] == c && forall i | from <= i < r :: s[i] != c
    ensures r < 0 ==> forall i | from <= i < |s| :: s[i] != c
    decreases |s| - from
  {
    if from == |s| then -1
    else if s[from] == c then from
    else IndexFrom(s, c, from + 1)
  }

  /** The first position of `c` in `s`, or -1. */
  function IndexOf(s: string, c: char): (r: int)
    ensures -1 <= r < |s|
    ensures r >= 0 ==> s[r] == c && forall i | 0 <= i < r :: s[i] != c
    ensures r < 0 ==> forall i | 0 <= i < |s| :: s[i] != c
  {
    IndexFrom(s, c, 0)
  }

  /** The last position of `c` among the first `n` characters of `s`, or -1. */
  function LastBefore(s: string, c: char, n: nat): (r: int)
    requires n <= |s|
    ensures -1 <= r < n
    ensures r >= 0 ==> s[r] == c && forall i | r < i < n :: s[i] != c
    ensures r < 0 ==> forall i | 0 <= i < n :: s[i] != c
  {
    if n == 0 then -1
    else if s[n - 1] == c then n - 1
    else LastBefore(s, c, n - 1)
  }

  /** The last position of `c` in `s`, or -1. */
  function LastIndexOf(s: string, c: char): (r: int)
    ensures -1 <= r < |s|
    ensures r >= 0 ==> s[r] == c && forall i | r < i < |s| :: s[i] != c
    ensures r < 0 ==> forall i | 0 <= i < |s| :: s[i] != c
  {
    LastBefore(s, c, |s|)
  }

  lemma LastIndexOfIs(s: string, c: char, k: nat)
    requires k < |s| && s[k] == c
    requires forall i | k < i < |s| :: s[i] != c
    ensures LastIndexOf(s, c) == k
  {
  }

  // Zod's e-mail pattern, which is matched case-insensitively:
  //   local part  [A-Z0-9_'+\-.]* [A-Z0-9_+-], not starting with '.', no ".." anywhere;
  //   domain      ([A-Z0-9][A-Z0-9\-]*\.)+ [A-Z]{2,}

  predicate LocalChar(c: char) { AlphaNum(c) || c == '_' || c == '\'' || c == '+' || c == '-' || c == '.' }
  predicate LocalLastChar(c: char) { AlphaNum(c) || c == '_' || c == '+' || c == '-' }

  predicate LocalPart(l: string) {
    && |l| > 0
    && l[0] != '.'
    && LocalLastChar(l[|l| - 1])
    && (forall i | 0 <= i < |l| :: LocalChar(l[i]))
    && (forall i | 0 <= i < |l| - 1 :: !(l[i] == '.' && l[i + 1] == '.'))
  }

  /** One or more labels, each ending in '.', each starting with a letter or digit. */
  predicate Labels(p: string) {
    && |p| > 0
    && AlphaNum(p[0])
    && p[|p| - 1] == '.'
    && (forall i | 0 <= i < |p| :: AlphaNum(p[i]) || p[i] == '-' || p[i] == '.')
    && (forall i | 0 <= i < |p| - 1 :: p[i] == '.' ==> AlphaNum(p[i + 1]))
  }

  /** The top-level domain: two or more letters. */
  predicate TopLevel(t: string) {
    |t| >= 2 && forall i | 0 <= i < |t| :: Letter(t[i])
  }

  predicate DomainPart(d: string) {
    var dot := LastIndexOf(d, '.');
    dot >= 0 && Labels(d[..dot + 1]) && TopLevel(d[dot + 1..])
  }

  /** `z.string().email()` */
  predicate IsEmail(s: string) {
    var at := IndexOf(s, '@');
    at >= 0 && LocalPart(s[..at]) && DomainPart(s[at + 1..])
  }

  /** A domain part holds no '@', no "..", and ends in a letter. */
  lemma DomainShape(d: string)
    requires DomainPart(d)
    ensures forall k | 0 <= k < |d| :: d[k] != '@'
    ensures forall k | 0 <= k < |d| - 1 :: !(d[k] == '.' && d[k + 1] == '.')
    ensures |d| > 0 && Letter(d[|d| - 1])
  {
    var dot := LastIndexOf(d, '.');
    var p, t := d[..dot + 1], d[dot + 1..];
    forall k | 0 <= k < |d| ensures d[k] != '@' {
      if k <= dot {
        assert p[k] == d[k];
      } else {
        assert t[k - dot - 1] == d[k];
      }
    }
    forall k | 0 <= k < |d| - 1 ensures !(d[k] == '.' && d[k + 1] == '.') {
      if k < dot {
        assert p[k] == d[k] && p[k + 1] == d[k + 1];
      } else {
        assert t[k + 1 - dot - 1] == d[k + 1];
      }
    }
    assert d[|d| - 1] == t[|t| - 1];
  }

  /** An accepted address has exactly one '@', a dot after it, and no ".." anywhere. */
  lemma EmailShape(s: string)
    requires IsEmail(s)
    ensures exists at | 0 <= at < |s| :: s[at] == '@' && (forall j | 0 <= j < |s| && j != at :: s[j] != '@')
    ensures forall i | 0 <= i < |s| - 1 :: !(s[i] == '.' && s[i + 1] == '.')
    ensures s[0] != '.' && s[|s| - 1] != '.'
  {
    var at := IndexOf(s, '@');
    var l, d := s[..at], s[at + 1..];
    DomainShape(d);
    forall j | at < j < |s| ensures s[j] != '@' {
      assert s[j] == d[j - at - 1];
    }
    forall i | 0 <= i < |s| - 1 ensures !(s[i] == '.' && s[i + 1] == '.') {
      if i < at - 1 {
        assert s[i] == l[i] && s[i + 1] == l[i + 1];
      } else if i > at {
        assert s[i] == d[i - at - 1] && s[i + 1] == d[i - at];
      }
    }
    assert s[|s| - 1] == d[|d| - 1];
  }


  predicate HasUpper(p: string) { exists i | 0 <= i < |p| :: Upper(p[i]) }
  /** `/[^A-Za-z0-9]/`: a single such character is enough. */
  predicate HasSpecial(p: string) { exists i | 0 <= i < |p| :: !AlphaNum(p[i]) }

  datatype Issue = Issue(path: string, message: string)

  /** The issues for the outcomes of the four checks, in Zod's check order. */
  function IssuesOf(emailOk: bool, longEnough: bool, upperOk: bool, specialOk: bool): (issues: seq<Issue>)
    ensures Issue("email", EmailMessage) in issues <==> !emailOk
    ensures Issue("password", MinLengthMessage) in issues <==> !longEnough
    ensures Issue("password", UppercaseMessage) in issues <==> !upperOk
    ensures Issue("password", SpecialMessage) in issues <==> !specialOk
    ensures !emailOk ==> issues[0] == Issue("email", EmailMessage)
    ensures issues == [] <==> emailOk && longEnough && upperOk && specialOk
    ensures |issues| <= 4
  {
    var a := if emailOk then [] else [Issue("email", EmailMessage)];
    var b := if longEnough then [] else [Issue("password", MinLengthMessage)];
    var c := if upperOk then [] else [Issue("password", UppercaseMessage)];
    var d := if specialOk then [] else [Issue("password", SpecialMessage)];
    assert forall x :: x in a + b + c + d <==> x in a || x in b || x in c || x in d;
    a + b + c + d
  }

  /** The issues `safeParse` reports. */
  function Issues(email: string, password: string): seq<Issue> {
    IssuesOf(IsEmail(email), |password| >= MinPasswordLength, HasUpper(password), HasSpecial(password))
  }

  datatype FormData = FormData(email: string, password: string)

  /** `registerSchema.safeParse({email, password})`. */
  function SafeParse(email: string, password: string): (r: Result<FormData, seq<Issue>>)
    ensures r.Ok? <==> IsEmail(email) && |password| >= MinPasswordLength && HasUpper(password) && HasSpecial(password)
    ensures r.Ok? ==> r.value == FormData(email, password)
    ensures r.Err? ==> r.error == Issues(email, password)
    ensures !IsEmail(email) ==> r.Err? && r.error[0] == Issue("email", EmailMessage)
  {
    var issues := Issues(email, password);
    if issues == [] then Ok(FormData(email, password)) else Err(issues)
  }

  lemma IndexOfIs(s: string, c: char, k: nat)
    requires k < |s| && s[k] == c
    requires forall i | 0 <= i < k :: s[i] != c
    ensures IndexOf(s, c) == k
  {
  }

  lemma IsEmailOf(s: string, at: nat, dot: nat)
    requires IndexOf(s, '@') == at
    requires LastIndexOf(s[at + 1..], '.') == dot
    requires LocalPart(s[..at]) && Labels(s[at + 1..][..dot + 1]) && TopLevel(s[at + 1..][dot + 1..])
    ensures IsEmail(s)
  {
  }

  lemma SampleLocalPart()
    ensures LocalPart("test")
  {
    var l := "test";
    assert l[0] == 't' && l[1] == 'e' && l[2] == 's' && l[3] == 't';
  }

  lemma SampleLabels()
    ensures Labels("example.")
  {
    var p := "example.";
    assert p[0] == 'e' && p[1] == 'x' && p[2] == 'a' && p[3] == 'm';
    assert p[4] == 'p' && p[5] == 'l' && p[6] == 'e' && p[7] == '.';
  }

  lemma SampleTopLevel()
    ensures TopLevel("com")
  {
    var t := "com";
    assert t[0] == 'c' && t[1] == 'o' && t[2] == 'm';
  }

  lemma SampleAt()
    ensures IndexOf("test@example.com", '@') == 4
    ensures "test@example.com"[..4] == "test" && "test@example.com"[5..] == "example.com"
  {
    var e := "test@example.com";
    assert e[0] == 't' && e[1] == 'e' && e[2] == 's' && e[3] == 't' && e[4] == '@';
    IndexOfIs(e, '@', 4);
  }

  lemma SampleDot()
    ensures LastIndexOf("example.com", '.') == 7
    ensures "example.com"[..8] == "example." && "example.com"[8..] == "com"
  {
    var d := "example.com";
    assert d[7] == '.' && d[8] == 'c' && d[9] == 'o' && d[10] == 'm';
    LastIndexOfIs(d, '.', 7);
  }

  /** The sample address the test suite uses is accepted. */
  lemma SampleEmail()
    ensures IsEmail("test@example.com")
  {
    SampleAt();
    SampleDot();
    SampleLocalPart();
    SampleLabels();
    SampleTopLevel();
    IsEmailOf("test@example.com", 4, 7);
  }

  /** Neither the empty string nor a string without '@' is an address. */
  lemma NotEmails()
    ensures !IsEmail("")
    ensures !IsEmail("invalid-email")
  {
    assert IndexOf("invalid-email", '@') == -1;
  }

  lemma SamplePassword()
    ensures |"Password123!!"| >= MinPasswordLength
    ensures HasUpper("Password123!!") && HasSpecial("Password123!!")
  {
    assert "Password123!!"[0] == 'P' && "Password123!!"[11] == '!';
  }

  /** The schema on the sample inputs of its test suite. */
  lemma SampleInputs()
    ensures SafeParse("test@example.com", "Password123!!").Ok?
  {
    SampleEmail();
    SamplePassword();
  }

  /** "Pass1" is too short and has no special character, but has an uppercase letter. */
  lemma ShortPassword()
    ensures |"Pass1"| < MinPasswordLength && HasUpper("Pass1") && !HasSpecial("Pass1")
  {
    assert "Pass1"[0] == 'P';
    forall i | 0 <= i < 5 ensures AlphaNum("Pass1"[i]) {}
  }

  /** "password123!!" lacks only an uppercase letter. */
  lemma LowercasePassword()
    ensures |"password123!!"| >= MinPasswordLength && !HasUpper("password123!!") && HasSpecial("password123!!")
  {
    assert "password123!!"[11] == '!';
    forall i | 0 <= i < 13 ensures !Upper("password123!!"[i]) {}
  }

  /** The issue lists of the two weak sample passwords. */
  lemma WeakIssueLists()
    ensures IssuesOf(true, false, true, false) == [Issue("password", MinLengthMessage), Issue("password", SpecialMessage)]
    ensures IssuesOf(true, true, false, true) == [Issue("password", UppercaseMessage)]
    ensures IssuesOf(false, true, true, true) == [Issue("email", EmailMessage)]
  {
  }

  /** A too-short password without a special character gets both issues, in check order. */
  lemma ShortPasswordIssues()
    ensures SafeParse("test@example.com", "Pass1") == Err([Issue("password", MinLengthMessage), Issue("password", SpecialMessage)])
  {
    assert SafeParse("test@example.com", "Pass1") == Err(IssuesOf(true, false, true, false)) by {
      SampleEmail();
      ShortPassword();
    }
    WeakIssueLists();
  }

  /** A password without an uppercase letter gets only the uppercase issue. */
  lemma LowercasePasswordIssues()
    ensures SafeParse("test@example.com", "password123!!") == Err([Issue("password", UppercaseMessage)])
  {
    assert SafeParse("test@example.com", "password123!!") == Err(IssuesOf(true, true, false, true)) by {
      SampleEmail();
      LowercasePassword();
    }
    WeakIssueLists();
  }

  /** The empty address gets only the address issue. */
  lemma EmptyAddress()
    ensures SafeParse("", "Password123!!") == Err([Issue("email", EmailMessage)])
  {
    assert SafeParse("", "Password123!!") == Err(IssuesOf(false, true, true, true)) by {
      NotEmails();
      SamplePassword();
    }
    WeakIssueLists();
  }

  /** The empty password is refused whatever the address. */
  lemma EmptyPassword(email: string)
    ensures SafeParse(email, "") == Err(Issues(email, "")) && |Issues(email, "")| >= 1
  {
  }

  /** "Password1!" has exactly one special character. */
  lemma OneSpecialPassword()
    ensures |"Password1!"| >= MinPasswordLength && HasUpper("Password1!") && HasSpecial("Password1!")
    ensures SpecialCount("Password1!") == 1
  {
    var p := "Password1!";
    assert p[0] == 'P' && p[9] == '!';
    assert SpecialsIn(p, 9) == 0 by {
      forall i | 0 <= i < 9 ensures AlphaNum(p[i]) {}
    }
    assert SpecialsIn(p, 10) == 1;
  }

  /**
   * As written, the special-character check accepts a single special character although its
   * message asks for two.
   */
  lemma OneSpecialAccepted()
    ensures SafeParse("test@example.com", "Password1!").Ok?
    ensures !IntendedSafeParse("test@example.com", "Password1!").Ok?
  {
    SampleEmail();
    OneSpecialPassword();
  }

  /** The number of characters outside `[A-Za-z0-9]` among the first `n` of `p`. */
  function SpecialsIn(p: string, n: nat): (k: nat)
    requires n <= |p|
    ensures k <= n
    ensures k == 0 <==> forall i | 0 <= i < n :: AlphaNum(p[i])
  {
    if n == 0 then 0
    else SpecialsIn(p, n - 1) + if AlphaNum(p[n - 1]) then 0 else 1
  }

  /** The number of characters outside `[A-Za-z0-9]`. */
  function SpecialCount(p: string): (n: nat)
    ensures n <= |p|
    ensures n == 0 <==> !HasSpecial(p)
  {
    SpecialsIn(p, |p|)
  }

  /** The password check the message describes: at least two special characters. */
  function IntendedIssues(email: string, password: string): seq<Issue> {
    IssuesOf(IsEmail(email), |password| >= MinPasswordLength, HasUpper(password), SpecialCount(password) >= 2)
  }

  function IntendedSafeParse(email: string, password: string): (r: Result<FormData, seq<Issue>>)
    ensures r.Ok? <==>
      IsEmail(email) && |password| >= MinPasswordLength && HasUpper(password) && SpecialCount(password) >= 2
    ensures r.Ok? ==> r.value == FormData(email, password)
  {
    var issues := IntendedIssues(email, password);
    if issues == [] then Ok(FormData(email, password)) else Err(issues)
  }

  /** The intended schema is stricter: it accepts only what the written one accepts. */
  lemma IntendedIsStricter(email: string, password: string)
    requires IntendedSafeParse(email, password).Ok?
    ensures SafeParse(email, password).Ok?
  {
  }

  /** It still accepts the sample input with two special characters. */
  lemma IntendedSampleAccepted()
    ensures IntendedSafeParse("test@example.com", "Password123!!").Ok?
  {
    SampleEmail();
    SamplePassword();
    TwoSpecials();
  }

  lemma TwoSpecials()
    ensures SpecialCount("Password123!!") == 2
  {
    assert SpecialsIn("Password123!!", 13) == 2;
  }
}
