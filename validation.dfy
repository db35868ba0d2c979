/** The field rules of src/utils/validation/validation.ts. Each regular
    expression is written out as a predicate over the characters of the
    value (JavaScript regular expressions without flags: `$` is the end of
    the input, `.` is any UTF-16 code unit but a line terminator, `\d` is
    0-9). A string here is a sequence of Unicode scalar values; where a
    pattern counts what `.` matches, the count is in UTF-16 code units. */
module Validation {
  import opened Wrappers

  datatype Rule = FirstName | SecondName | Login | Email | Password | Phone | Message

  predicate IsUpperLatin(c: char) { 'A' <= c <= 'Z' }
  predicate IsLowerLatin(c: char) { 'a' <= c <= 'z' }
  predicate IsLatin(c: char) { IsUpperLatin(c) || IsLowerLatin(c) }
  predicate IsDigit(c: char) { '0' <= c <= '9' }

  /** `[А-ЯЁ]`: U+0410 to U+042F, and U+0401. */
  predicate IsUpperCyrillic(c: char) { '\U{0410}' <= c <= '\U{042F}' || c == '\U{0401}' }

  /** `[а-яё]`: U+0430 to U+044F, and U+0451. */
  predicate IsLowerCyrillic(c: char) { '\U{0430}' <= c <= '\U{044F}' || c == '\U{0451}' }

  /** The characters `.` does not match. */
  predicate IsLineTerminator(c: char)
  {
    c == '\n' || c == '\r' || c == '\U{2028}' || c == '\U{2029}'
  }

  /** What `String.prototype.trim` strips: white space (including the
      space separators of Unicode category Zs) and line terminators. */
  predicate IsJsWhitespace(c: char)
  {
    || c == '\t' || c == '\U{000B}' || c == '\U{000C}' || c == ' ' || c == '\U{00A0}' || c == '\U{FEFF}'
    || c == '\U{1680}' || ('\U{2000}' <= c <= '\U{200A}') || c == '\U{202F}' || c == '\U{205F}' || c == '\U{3000}'
    || IsLineTerminator(c)
  }

  /** `^[А-ЯЁA-Z][а-яёa-z-]+$`, shared by first and second names. */
  predicate NameRule(s: string)
  {
    && |s| >= 2
    && (IsUpperCyrillic(s[0]) || IsUpperLatin(s[0]))
    && forall i :: 1 <= i < |s| ==> IsLowerCyrillic(s[i]) || IsLowerLatin(s[i]) || s[i] == '-'
  }

  predicate LoginChar(c: char) { IsLatin(c) || IsDigit(c) || c == '_' || c == '-' }

  /** `^(?=.*[a-zA-Z])[a-zA-Z0-9_-]{3,20}$`. */
  predicate LoginRule(s: string)
  {
    && 3 <= |s| <= 20
    && (forall i :: 0 <= i < |s| ==> LoginChar(s[i]))
    && exists i :: 0 <= i < |s| && IsLatin(s[i])
  }

  /** A character above U+FFFF is a surrogate pair in UTF-16. */
  predicate IsAstral(c: char) { c as int > 0xFFFF }

  /** The length of `s` as a JavaScript string: its UTF-16 code units. */
  function Utf16Length(s: string): (n: nat)
    ensures |s| <= n <= 2 * |s|
    ensures n == |s| <==> forall i :: 0 <= i < |s| ==> !IsAstral(s[i])
    ensures n == 2 * |s| <==> forall i :: 0 <= i < |s| ==> IsAstral(s[i])
  {
    if |s| == 0 then 0
    else
      var rest := Utf16Length(s[1..]);
      assert forall i :: 1 <= i < |s| ==> s[i] == s[1..][i - 1];
      (if IsAstral(s[0]) then 2 else 1) + rest
  }

  /** Code units add up over concatenation. */
  lemma {:induction false} Utf16Append(a: string, b: string)
    ensures Utf16Length(a + b) == Utf16Length(a) + Utf16Length(b)
    decreases |a|
  {
    if |a| > 0 {
      assert (a + b)[1..] == a[1..] + b;
      Utf16Append(a[1..], b);
    } else {
      assert a + b == b;
    }
  }

  /** `^(?=.*[A-Z])(?=.*\d).{8,40}$`: `.` matches each code unit of a
      surrogate pair, so the length bound is on code units. */
  predicate PasswordRule(s: string)
  {
    && 8 <= Utf16Length(s) <= 40
    && (forall i :: 0 <= i < |s| ==> !IsLineTerminator(s[i]))
    && (exists i :: 0 <= i < |s| && IsUpperLatin(s[i]))
    && exists i :: 0 <= i < |s| && IsDigit(s[i])
  }

  predicate AllDigits(s: string) { forall i :: 0 <= i < |s| ==> IsDigit(s[i]) }

  /** `^\+?\d{10,15}$`. */
  predicate PhoneRule(s: string)
  {
    var digits := if |s| > 0 && s[0] == '+' then s[1..] else s;
    10 <= |digits| <= 15 && AllDigits(digits)
  }

  /** A phone number is 10 to 15 digits, optionally behind one '+'. */
  lemma PhoneShape(s: string)
    ensures PhoneRule(s) <==>
      exists digits :: 10 <= |digits| <= 15 && AllDigits(digits) && (s == digits || s == "+" + digits)
  {
    if |s| > 0 && s[0] == '+' {
      assert s == "+" + s[1..];
      if exists digits :: 10 <= |digits| <= 15 && AllDigits(digits) && (s == digits || s == "+" + digits) {
        var digits :| 10 <= |digits| <= 15 && AllDigits(digits) && (s == digits || s == "+" + digits);
        assert s != digits by {
          assert IsDigit(digits[0]);
        }
        assert s[1..] == digits;
      }
    }
  }

  predicate LocalChar(c: char) { IsLatin(c) || IsDigit(c) || c == '.' || c == '_' || c == '%' || c == '+' || c == '-' }
  predicate DomainChar(c: char) { IsLatin(c) || IsDigit(c) || c == '.' || c == '-' }

  /** The three pieces of `[a-zA-Z0-9._%+-]+@[a-zA-Z0-9.-]+\.[a-zA-Z]{2,}`. */
  predicate EmailParts(local: string, domain: string, tld: string)
  {
    && |local| > 0 && (forall i :: 0 <= i < |local| ==> LocalChar(local[i]))
    && |domain| > 0 && (forall i :: 0 <= i < |domain| ==> DomainChar(domain[i]))
    && |tld| >= 2 && (forall i :: 0 <= i < |tld| ==> IsLatin(tld[i]))
  }

  /** The '@' at `at` and the '.' at `dot` cut the value into a local
      part, a domain and a top-level domain. */
  predicate EmailCutAt(s: string, at: int, dot: int)
  {
    0 <= at < dot < |s| && s[at] == '@' && s[dot] == '.'
    && EmailParts(s[..at], s[at + 1..dot], s[dot + 1..])
  }

  /** The language of the e-mail pattern: some '@' and some later '.' cut
      the value as the pattern requires. */
  ghost predicate EmailPattern(s: string)
  {
    exists at, dot :: EmailCutAt(s, at, dot)
  }

  function IndexOf(s: string, c: char): (r: Option<nat>)
    ensures r.None? <==> c !in s
    ensures r.Some? ==> r.value < |s| && s[r.value] == c && forall i :: 0 <= i < r.value ==> s[i] != c
  {
    if |s| == 0 then None
    else if s[0] == c then Some(0)
    else match IndexOf(s[1..], c)
      case None => None
      case Some(k) => Some(k + 1)
  }

  function LastIndexOf(s: string, c: char): (r: Option<nat>)
    ensures r.None? <==> c !in s
    ensures r.Some? ==> r.value < |s| && s[r.value] == c && forall i :: r.value < i < |s| ==> s[i] != c
  {
    if |s| == 0 then None
    else if s[|s| - 1] == c then Some(|s| - 1)
    else
      var r := LastIndexOf(s[..|s| - 1], c);
      assert forall i :: 0 <= i < |s| - 1 ==> s[..|s| - 1][i] == s[i];
      r
  }

  /** The e-mail test without search: the only possible '@' is the first
      one, and the only possible '.' the last one. */
  predicate EmailRule(s: string)
  {
    match IndexOf(s, '@')
    case None => false
    case Some(at) =>
      match LastIndexOf(s, '.')
      case None => false
      case Some(dot) => EmailCutAt(s, at, dot)
  }

  /** Where the pattern cuts a value, the '@' is the first one and the
      '.' the last one. */
  lemma EmailCuts(s: string, at: nat, dot: nat)
    requires EmailCutAt(s, at, dot)
    ensures IndexOf(s, '@') == Some(at) && LastIndexOf(s, '.') == Some(dot)
  {
    var local, tld := s[..at], s[dot + 1..];
    assert forall i :: 0 <= i < at ==> s[i] == local[i];
    assert forall i :: 0 <= i < at ==> s[i] != '@';
    assert forall i :: dot < i < |s| ==> s[i] == tld[i - dot - 1];
    assert forall i :: dot < i < |s| ==> s[i] != '.';
  }

  /** A value the direct test accepts is cut by the pattern at its first
      '@' and its last '.'. */
  lemma EmailRuleCuts(s: string)
    requires EmailRule(s)
    ensures EmailPattern(s)
  {
    var at, dot := IndexOf(s, '@').value, LastIndexOf(s, '.').value;
    assert EmailCutAt(s, at, dot);
  }

  /** A value the pattern matches passes the direct test. */
  lemma EmailPatternRule(s: string)
    requires EmailPattern(s)
    ensures EmailRule(s)
  {
    var at, dot :| EmailCutAt(s, at, dot);
    EmailCuts(s, at, dot);
  }

  /** The direct test accepts exactly the language of the pattern. */
  lemma EmailRuleMatchesPattern(s: string)
    ensures EmailPattern(s) ==> EmailRule(s)
    ensures EmailRule(s) ==> EmailPattern(s)
  {
    if EmailPattern(s) {
      EmailPatternRule(s);
    }
    if EmailRule(s) {
      EmailRuleCuts(s);
    }
  }

  function TrimStart(s: string): string
  {
    if |s| > 0 && IsJsWhitespace(s[0]) then TrimStart(s[1..]) else s
  }

  function TrimEnd(s: string): string
  {
    if |s| > 0 && IsJsWhitespace(s[|s| - 1]) then TrimEnd(s[..|s| - 1]) else s
  }

  /** `s.trim()`. */
  function Trim(s: string): string
  {
    TrimEnd(TrimStart(s))
  }

  predicate HasContent(s: string)
  {
    exists i :: 0 <= i < |s| && !IsJsWhitespace(s[i])
  }

  lemma {:induction false} TrimStartContent(s: string)
    ensures |TrimStart(s)| > 0 <==> HasContent(s)
    ensures HasContent(TrimStart(s)) <==> HasContent(s)
    decreases |s|
  {
    if |s| > 0 && IsJsWhitespace(s[0]) {
      TrimStartContent(s[1..]);
      assert forall i :: 1 <= i < |s| ==> s[i] == s[1..][i - 1];
      assert HasContent(s) ==> HasContent(s[1..]);
    } else if |s| > 0 {
      assert !IsJsWhitespace(s[0]);
    }
  }

  lemma {:induction false} TrimEndContent(s: string)
    ensures |TrimEnd(s)| > 0 <==> HasContent(s)
    decreases |s|
  {
    if |s| > 0 && IsJsWhitespace(s[|s| - 1]) {
      var init := s[..|s| - 1];
      TrimEndContent(init);
      assert forall i :: 0 <= i < |init| ==> init[i] == s[i];
      assert HasContent(s) ==> HasContent(init);
    } else if |s| > 0 {
      assert !IsJsWhitespace(s[|s| - 1]);
    }
  }

  /** The message rule: `trim()` leaves something exactly when some
      character is not white space. */
  lemma TrimNonEmpty(s: string)
    ensures |Trim(s)| > 0 <==> HasContent(s)
  {
    TrimStartContent(s);
    TrimEndContent(TrimStart(s));
  }

  /** `validate(rule, value)`: the message rule is the trim test, every other
      rule its pattern. */
  predicate Validate(rule: Rule, value: string)
  {
    match rule
    case Message => |Trim(value)| > 0
    case FirstName => NameRule(value)
    case SecondName => NameRule(value)
    case Login => LoginRule(value)
    case Email => EmailRule(value)
    case Password => PasswordRule(value)
    case Phone => PhoneRule(value)
  }

  /** First and second names accept the same values, and a message is
      accepted exactly when it has a character other than white space. */
  lemma ValidateRules(value: string)
    ensures Validate(FirstName, value) == Validate(SecondName, value)
    ensures Validate(Message, value) <==> HasContent(value)
    ensures Validate(Email, value) <==> EmailPattern(value)
  {
    TrimNonEmpty(value);
    EmailRuleMatchesPattern(value);
  }

  /** Examples: a capitalised Cyrillic name passes; a one-letter name fails. */
  lemma NameExamples()
    ensures Validate(FirstName, "Иван")
    ensures !Validate(FirstName, "И")
  {
  }

  /** Examples: a login with a letter passes; an all-digit login fails. */
  lemma LoginExamples()
    ensures Validate(Login, "user_1")
    ensures !Validate(Login, "12345")
  {
    assert IsLatin("user_1"[0]);
  }

  /** "A1" followed by characters above U+FFFF is a valid password exactly
      when there are 3 to 19 of them: each counts twice, so 20 of them
      make a password of 22 characters that is too long. */
  lemma PasswordCountsCodeUnits(astral: string)
    requires forall i :: 0 <= i < |astral| ==> IsAstral(astral[i])
    ensures Validate(Password, "A1" + astral) <==> 3 <= |astral| <= 19
  {
    var s := "A1" + astral;
    Utf16Append("A1", astral);
    assert IsUpperLatin(s[0]) && IsDigit(s[1]);
    assert forall i :: 2 <= i < |s| ==> s[i] == astral[i - 2];
  }

  /** Examples: a '+' and eleven digits make a phone number; a message of
      white space alone fails. */
  lemma PhoneMessageExamples()
    ensures Validate(Phone, "+79991234567")
    ensures !Validate(Message, " \t\n")
  {
    assert !HasContent(" \t\n");
    TrimNonEmpty(" \t\n");
  }
}
