/** The shared field-rule table and `createValidation`. Each of the three
    regular expressions is stated declaratively, as the language it denotes,
    and is decided by a left-to-right scanner proved equivalent to it. */
module Validation {

  import opened Text

  datatype PatternKind = EmailPattern | PhonePattern | PidPattern

  /** One form-library rule: `required`, `pattern` or `minLength`, each with
      the message shown when it fails. */
  datatype Rule =
    | Required(message: string)
    | Pattern(kind: PatternKind, message: string)
    | MinLength(length: nat, message: string)

  /** A rule object: rule name to rule. */
  type Rules = map<string, Rule>

  /** `validationRules.required(message)`, whose message defaults to
      "This field is required". */
  function RequiredRule(message: string, given: bool): (r: Rules)
    ensures r.Keys == {"required"}
    ensures r["required"].Required?
    ensures given ==> r["required"].message == message
    ensures !given ==> r["required"].message == "This field is required"
  {
    map["required" := Required(if given then message else "This field is required")]
  }

  /** The entry of `validationRules` that `createValidation` adds for a field
      name; other names add nothing. */
  function FieldRule(fieldName: string): Rules {
    if fieldName == "email" then map["pattern" := Pattern(EmailPattern, "Invalid email address")]
    else if fieldName == "phoneNumber" then map["pattern" := Pattern(PhonePattern, "Invalid phone number")]
    else if fieldName == "pid" then map["pattern" := Pattern(PidPattern, "Personal ID must be 11 digits")]
    else if fieldName == "password" then map["minLength" := MinLength(6, "Password must be at least 6 characters")]
    else map[]
  }

  /** `createValidation(fieldName, isRequired)`: `{...rules, ...validationRules.X}`. */
  function CreateValidation(fieldName: string, isRequired: bool): (r: Rules)
    ensures "required" in r <==> isRequired
    ensures isRequired ==> r["required"] == Required(fieldName + " is required")
    ensures fieldName == "email" ==>
      "pattern" in r && r["pattern"] == Pattern(EmailPattern, "Invalid email address")
    ensures fieldName == "phoneNumber" ==>
      "pattern" in r && r["pattern"] == Pattern(PhonePattern, "Invalid phone number")
    ensures fieldName == "pid" ==>
      "pattern" in r && r["pattern"] == Pattern(PidPattern, "Personal ID must be 11 digits")
    ensures fieldName == "password" ==>
      "minLength" in r && r["minLength"] == MinLength(6, "Password must be at least 6 characters")
    ensures fieldName in {"email", "phoneNumber", "pid"} ==> r.Keys == r.Keys * {"required"} + {"pattern"}
    ensures fieldName == "password" ==> r.Keys == r.Keys * {"required"} + {"minLength"}
    ensures fieldName !in {"email", "phoneNumber", "pid", "password"} ==> r.Keys <= {"required"}
  {
    var rules: Rules := if isRequired then map["required" := Required(fieldName + " is required")] else map[];
    rules + FieldRule(fieldName)
  }

  /** The role, email and password fields of the login form are all required,
      and the latter two carry their format rules. */
  lemma LoginFieldRules()
    ensures CreateValidation("role", true) == map["required" := Required("role is required")]
    ensures CreateValidation("email", true)["required"] == Required("email is required")
    ensures CreateValidation("email", true)["pattern"].kind == EmailPattern
    ensures CreateValidation("password", true)["required"] == Required("password is required")
    ensures CreateValidation("password", true)["minLength"].length == 6
  {
    RoleRules();
    assert "email" + " is required" == "email is required";
    assert "password" + " is required" == "password is required";
  }

  lemma RoleRules()
    ensures CreateValidation("role", true) == map["required" := Required("role is required")]
  {
    var role := CreateValidation("role", true);
    assert |"role"| == 4 && |"email"| == 5 && |"phoneNumber"| == 11 && |"pid"| == 3 && |"password"| == 8;
    assert "role" !in {"email", "phoneNumber", "pid", "password"};
    assert "role" + " is required" == "role is required";
    assert role.Keys == {"required"};
  }

  // ---------------------------------------------------------------------------
  // The personal-ID pattern /^[0-9]{11}$/
  // ---------------------------------------------------------------------------

  predicate PidShape(s: string) {
    |s| == 11 && AllDigits(s)
  }

  method MatchPid(s: string) returns (ok: bool)
    ensures ok <==> PidShape(s)
  {
    if |s| != 11 {
      return false;
    }
    var i := 0;
    while i < |s|
      invariant 0 <= i <= |s|
      invariant forall k :: 0 <= k < i ==> IsDigit(s[k])
    {
      if !IsDigit(s[i]) {
        return false;
      }
      i := i + 1;
    }
    return true;
  }

  // ---------------------------------------------------------------------------
  // The phone pattern /^\+?[1-9]\d{6,14}$/
  // ---------------------------------------------------------------------------

  /** `[1-9]\d{6,14}`: 7 to 15 digits, the first not zero. */
  predicate PhoneDigits(d: string) {
    7 <= |d| <= 15 && AllDigits(d) && d[0] != '0'
  }

  /** `\+?` followed by the digits, and nothing else. */
  predicate PhoneShape(s: string) {
    PhoneDigits(s) || (|s| > 0 && s[0] == '+' && PhoneDigits(s[1..]))
  }

  method MatchPhone(s: string) returns (ok: bool)
    ensures ok <==> PhoneShape(s)
  {
    var start := if |s| > 0 && s[0] == '+' then 1 else 0;
    if start == 1 {
      assert !PhoneDigits(s) by { assert !IsDigit(s[0]); }
    }
    var n := |s| - start;
    if n < 7 || n > 15 || !('1' <= s[start] <= '9') {
      return false;
    }
    var i := start + 1;
    while i < |s|
      invariant start < i <= |s|
      invariant forall k :: start <= k < i ==> IsDigit(s[k])
    {
      if !IsDigit(s[i]) {
        assert !AllDigits(s[start..]) by { assert s[start..][i - start] == s[i]; }
        return false;
      }
      i := i + 1;
    }
    assert AllDigits(s[start..]) by {
      forall k | 0 <= k < |s[start..]| ensures IsDigit(s[start..][k]) {
        assert s[start..][k] == s[start + k];
      }
    }
    assert s[start..] == if start == 1 then s[1..] else s;
    return true;
  }

  // ---------------------------------------------------------------------------
  // The email pattern /^[A-Z0-9._%+-]+@[A-Z0-9.-]+\.[A-Z]{2,}$/i
  // ---------------------------------------------------------------------------

  /** A letter under the case-insensitive flag. */
  predicate IsLetter(c: char) {
    'A' <= c <= 'Z' || 'a' <= c <= 'z'
  }

  predicate IsLocalChar(c: char) {
    IsLetter(c) || IsDigit(c) || c == '.' || c == '_' || c == '%' || c == '+' || c == '-'
  }

  predicate IsDomainChar(c: char) {
    IsLetter(c) || IsDigit(c) || c == '.' || c == '-'
  }

  predicate LocalPart(s: string) {
    |s| > 0 && forall i :: 0 <= i < |s| ==> IsLocalChar(s[i])
  }

  predicate DomainPart(s: string) {
    |s| > 0 && forall i :: 0 <= i < |s| ==> IsDomainChar(s[i])
  }

  predicate TopLevel(s: string) {
    |s| >= 2 && forall i :: 0 <= i < |s| ==> IsLetter(s[i])
  }

  /** The string reads local part, '@' at `at`, domain, '.' at `dot`, and a
      top-level name. */
  predicate EmailSplit(s: string, at: nat, dot: nat) {
    at < dot < |s| && s[at] == '@' && s[dot] == '.'
    && LocalPart(s[..at]) && DomainPart(s[at + 1..dot]) && TopLevel(s[dot + 1..])
  }

  /** The language of the email pattern: some way of cutting the string into
      its parts. */
  predicate EmailShape(s: string) {
    exists at: nat, dot: nat | at < dot < |s| :: EmailSplit(s, at, dot)
  }

  /** Position of the first `c` in `s`, or `|s|`. */
  function FirstIndex(s: string, c: char): (i: nat)
    ensures i <= |s|
    ensures i < |s| ==> s[i] == c
    ensures forall k :: 0 <= k < i ==> s[k] != c
  {
    if |s| == 0 then 0
    else if s[0] == c then 0
    else 1 + FirstIndex(s[1..], c)
  }

  /** Position of the last `c` in `s`, or `|s|` when there is none. */
  function LastIndex(s: string, c: char): (i: nat)
    ensures i <= |s|
    ensures i < |s| ==> s[i] == c && forall k :: i < k < |s| ==> s[k] != c
    ensures i == |s| ==> forall k :: 0 <= k < |s| ==> s[k] != c
  {
    if |s| == 0 then 0
    else if s[|s| - 1] == c then |s| - 1
    else
      var j := LastIndex(s[..|s| - 1], c);
      if j == |s| - 1 then |s| else j
  }

  /** The scanner: cut at the first '@' and at the last '.', then check the
      three parts. */
  function MatchEmail(s: string): bool {
    var at := FirstIndex(s, '@');
    var dot := LastIndex(s, '.');
    at < dot < |s| && EmailSplit(s, at, dot)
  }

  /** Neither the local part nor the domain contains '@', and the top-level
      name contains no '.', so any cut is the scanner's cut. */
  lemma EmailCutIsUnique(s: string, at: nat, dot: nat)
    requires EmailSplit(s, at, dot)
    ensures at == FirstIndex(s, '@') && dot == LastIndex(s, '.')
  {
    forall k | 0 <= k < at ensures s[k] != '@' {
      assert s[..at][k] == s[k];
      assert IsLocalChar(s[..at][k]);
    }
    forall k | dot < k < |s| ensures s[k] != '.' {
      assert s[dot + 1..][k - dot - 1] == s[k];
      assert IsLetter(s[dot + 1..][k - dot - 1]);
    }
  }

  lemma MatchEmailIff(s: string)
    ensures MatchEmail(s) <==> EmailShape(s)
  {
    if EmailShape(s) {
      var at, dot :| EmailSplit(s, at, dot);
      EmailCutIsUnique(s, at, dot);
    }
  }

  /** What a pattern rule accepts. */
  predicate Accepts(kind: PatternKind, s: string) {
    match kind
    case EmailPattern => EmailShape(s)
    case PhonePattern => PhoneShape(s)
    case PidPattern => PidShape(s)
  }

  /** A few strings on each side of the patterns. */
  lemma PatternExamples()
    ensures Accepts(PidPattern, "12345678901") && !Accepts(PidPattern, "1234567890")
    ensures Accepts(PhonePattern, "+995555123") && !Accepts(PhonePattern, "0555123456")
    ensures Accepts(EmailPattern, "a@b.ge") && !Accepts(EmailPattern, "a@b.c")
  {
    assert EmailSplit("a@b.ge", 1, 3);
    MatchEmailIff("a@b.c");
  }
}
