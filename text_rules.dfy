/** Character classes and string tests shared by the login and profile forms:
    the JavaScript whitespace class, `String.prototype.trim`, and the two
    regular expressions the validators use, each spelled out as a predicate. */
module TextRules {

  /** The two email messages, shared by the login and profile forms. */
  const EmailRequired := "Email is required"
  const EmailInvalid := "Email is invalid"

  /** The ECMAScript WhiteSpace and LineTerminator code points: the class
      `\s` matches (so `\S` is its complement) and the set `trim` removes. */
  predicate IsWs(c: char) {
    || c == '\t' || c == '\n' || c == '\U{000B}' || c == '\U{000C}' || c == '\r'
    || c == ' ' || c == '\U{00A0}' || c == '\U{1680}'
    || '\U{2000}' <= c <= '\U{200A}'
    || c == '\U{2028}' || c == '\U{2029}' || c == '\U{202F}' || c == '\U{205F}'
    || c == '\U{3000}' || c == '\U{FEFF}'
  }

  /** Every character is whitespace; the empty string is blank too. */
  predicate Blank(s: string) {
    forall i | 0 <= i < |s| :: IsWs(s[i])
  }

  /** Drops leading whitespace. */
  function TrimStart(s: string): string {
    if s != [] && IsWs(s[0]) then TrimStart(s[1..]) else s
  }

  /** Drops trailing whitespace. */
  function TrimEnd(s: string): string {
    if s != [] && IsWs(s[|s| - 1]) then TrimEnd(s[..|s| - 1]) else s
  }

  /** `s.trim()`: whitespace cut from both ends. */
  function Trim(s: string): string {
    TrimEnd(TrimStart(s))
  }

  /** TrimStart leaves a suffix of `s` that is empty or starts with a
      non-whitespace character, and only whitespace was dropped. */
  lemma {:induction false} TrimStartSpec(s: string)
    ensures |TrimStart(s)| <= |s| && TrimStart(s) == s[|s| - |TrimStart(s)|..]
    ensures Blank(s[..|s| - |TrimStart(s)|])
    ensures TrimStart(s) != [] ==> !IsWs(TrimStart(s)[0])
  {
    if s != [] && IsWs(s[0]) {
      TrimStartSpec(s[1..]);
      var k := |s| - |TrimStart(s)|;
      assert s[..k] == [s[0]] + s[1..][..k - 1];
    }
  }

  /** TrimEnd leaves a prefix of `s` that is empty or ends with a
      non-whitespace character, and only whitespace was dropped. */
  lemma {:induction false} TrimEndSpec(s: string)
    ensures |TrimEnd(s)| <= |s| && TrimEnd(s) == s[..|TrimEnd(s)|]
    ensures Blank(s[|TrimEnd(s)|..])
    ensures TrimEnd(s) != [] ==> !IsWs(TrimEnd(s)[|TrimEnd(s)| - 1])
  {
    if s != [] && IsWs(s[|s| - 1]) {
      var t := s[..|s| - 1];
      TrimEndSpec(t);
      var k := |TrimEnd(s)|;
      assert s[k..] == t[k..] + [s[|s| - 1]];
    }
  }

  /** `s.trim()` is the piece of `s` left once whitespace is cut from both
      ends: only whitespace lies outside it, and it neither starts nor ends
      with whitespace. */
  lemma TrimSpec(s: string)
    ensures exists a | 0 <= a <= |s| - |Trim(s)| ::
      Trim(s) == s[a..a + |Trim(s)|] && Blank(s[..a]) && Blank(s[a + |Trim(s)|..])
    ensures Trim(s) != [] ==> !IsWs(Trim(s)[0]) && !IsWs(Trim(s)[|Trim(s)| - 1])
  {
    var t := TrimStart(s);
    TrimStartSpec(s);
    TrimEndSpec(t);
    var r := TrimEnd(t);
    var a := |s| - |t|;
    assert r == s[a..a + |r|];
    assert s[a + |r|..] == t[|r|..];
  }

  /** `!s.trim()` holds exactly when `s` is blank. */
  lemma TrimEmptyIffBlank(s: string)
    ensures Trim(s) == [] <==> Blank(s)
  {
    var t := TrimStart(s);
    TrimStartSpec(s);
    TrimEndSpec(t);
    var a := |s| - |t|;
    if Trim(s) == [] {
      assert Blank(t[..0]) && t == [];
      assert s[..a] == s;
    } else {
      var r := Trim(s);
      TrimSpec(s);
      assert r[0] in s;
    }
  }

  /** No whitespace in s[lo..hi]: the text `\S*` can match there. */
  predicate NonWsRun(s: string, lo: int, hi: int)
    requires 0 <= lo <= hi <= |s|
  {
    forall k | lo <= k < hi :: !IsWs(s[k])
  }

  /** The pattern `\S+@\S+\.\S+` matches exactly s[a..e], with its "@" at i
      and its "." at j: each `\S+` is a non-empty run of non-whitespace. */
  ghost predicate EmailMatchAt(s: string, a: int, i: int, j: int, e: int) {
    && 0 <= a < i && i + 1 < j && j + 1 < e <= |s|
    && s[i] == '@' && s[j] == '.'
    && NonWsRun(s, a, i) && NonWsRun(s, i + 1, j) && NonWsRun(s, j + 1, e)
  }

  /** The literal reading of the unanchored search `/\S+@\S+\.\S+/.test(s)`:
      the pattern matches some stretch of `s`. */
  ghost predicate EmailRegexFinds(s: string) {
    exists a, i, j, e :: EmailMatchAt(s, a, i, j, e)
  }

  /** An "@" at i with a non-whitespace character before it, then a "."
      at j with only non-whitespace (at least one character) in between
      and a non-whitespace character after it. */
  predicate AtDotPair(s: string, i: int, j: int) {
    && 0 < i && i + 1 < j && j + 1 < |s|
    && s[i] == '@' && s[j] == '.'
    && !IsWs(s[i - 1]) && NonWsRun(s, i + 1, j) && !IsWs(s[j + 1])
  }

  /** The same search decided from the two positions only. */
  predicate EmailTest(s: string) {
    exists i, j | 0 <= i < j < |s| :: AtDotPair(s, i, j)
  }

  /** The two-position test is exactly the regular expression's search. */
  lemma EmailTestIsRegexSearch(s: string)
    ensures EmailTest(s) <==> EmailRegexFinds(s)
  {
    if EmailTest(s) {
      var i, j :| 0 <= i < j < |s| && AtDotPair(s, i, j);
      assert EmailMatchAt(s, i - 1, i, j, j + 2);
    }
    if EmailRegexFinds(s) {
      var a, i, j, e :| EmailMatchAt(s, a, i, j, e);
      assert !IsWs(s[i - 1]) && !IsWs(s[j + 1]);
      assert AtDotPair(s, i, j);
    }
  }

  /** Every string the search accepts holds an "@". */
  lemma EmailTestHasAt(s: string)
    requires EmailTest(s)
    ensures '@' in s
  {
    var i, j :| 0 <= i < j < |s| && AtDotPair(s, i, j);
    assert s[i] in s;
  }

  /** `\d` without the `u` flag: the ASCII digits only. */
  predicate IsAsciiDigit(c: char) { '0' <= c <= '9' }

  /** The bracket class `[\d\s\-\+\(\)]`. */
  predicate IsPhoneChar(c: char) {
    IsAsciiDigit(c) || IsWs(c) || c == '-' || c == '+' || c == '(' || c == ')'
  }

  /** The anchored test `/^[\d\s\-\+\(\)]+$/.test(s)`: one or more
      characters, every one in the class. */
  predicate PhoneTest(s: string) {
    |s| > 0 && forall i | 0 <= i < |s| :: IsPhoneChar(s[i])
  }

  /** A non-empty string fails the phone test exactly when one of its
      characters lies outside the class. */
  lemma PhoneTestFailsIffStrayChar(s: string)
    requires s != ""
    ensures !PhoneTest(s) <==> exists i | 0 <= i < |s| :: !IsPhoneChar(s[i])
  {
  }

  /** The addresses the forms' tests use: three well-formed ones, and one
      with no "@" at all. */
  lemma EmailExamples()
    ensures EmailTest("john@example.com") && EmailTest("jane@example.com") && EmailTest("test@example.com")
    ensures !EmailTest("invalid-email")
  {
    assert AtDotPair("john@example.com", 4, 12);
    assert AtDotPair("test@example.com", 4, 12);
    assert AtDotPair("jane@example.com", 4, 12);
    var bad := "invalid-email";
    assert forall i | 0 <= i < |bad| :: bad[i] != '@';
  }

  /** A dashed number passes the phone test; letters make it fail. */
  lemma PhoneExamples()
    ensures PhoneTest("123-456-7890")
    ensures !PhoneTest("invalid-phone-123abc")
  {
    var bad := "invalid-phone-123abc";
    assert !IsPhoneChar(bad[0]);
  }
}
