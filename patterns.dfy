/**
 * The two regular expressions the lead forms test: the email pattern
 * `/^[^\s@]+@[^\s@]+\.[^\s@]+$/` (custom-package form and coming-soon
 * subscription) and the phone pattern `/^[0-9+\-\s()]*$/` (custom-package
 * form). Each is given twice: as the language the regular expression denotes,
 * and as the direct check the model uses, with a lemma that they agree.
 */
module Patterns {
  import opened JsString

  /** A character of the class `[^\s@]`. */
  predicate IsEmailAtom(c: char) {
    !IsWhitespace(c) && c != '@'
  }

  predicate AllAtoms(s: string) {
    forall k :: 0 <= k < |s| ==> IsEmailAtom(s[k])
  }

  /** The `@` at `i` and the `.` at `j` cut `s` into three non-empty runs of `[^\s@]`. */
  predicate SplitsEmail(s: string, i: int, j: int) {
    0 < i && i + 1 < j && j + 1 < |s| && s[i] == '@' && s[j] == '.' &&
    AllAtoms(s[..i]) && AllAtoms(s[i + 1..j]) && AllAtoms(s[j + 1..])
  }

  /** `s` is in the language of `/^[^\s@]+@[^\s@]+\.[^\s@]+$/`. */
  ghost predicate EmailRegexMatches(s: string) {
    exists i, j :: SplitsEmail(s, i, j)
  }

  /** `s.indexOf(c)`, with `|s|` for "not found". */
  function IndexOf(s: string, c: char): (r: nat)
    ensures r <= |s|
    ensures forall k :: 0 <= k < r ==> s[k] != c
    ensures r < |s| ==> s[r] == c
  {
    if s == [] then 0 else if s[0] == c then 0 else 1 + IndexOf(s[1..], c)
  }

  /**
   * The email check in plain terms: no whitespace, exactly one `@` with
   * something before it, and after it a `.` with a character on either side.
   */
  predicate EmailValid(s: string) {
    var at := IndexOf(s, '@');
    (forall k :: 0 <= k < |s| ==> !IsWhitespace(s[k])) &&
    0 < at < |s| && (forall k :: at < k < |s| ==> s[k] != '@') &&
    exists j :: at + 1 < j < |s| - 1 && s[j] == '.'
  }

  lemma EmailValidMatches(s: string)
    requires EmailValid(s)
    ensures EmailRegexMatches(s)
  {
    var at := IndexOf(s, '@');
    var j :| at + 1 < j < |s| - 1 && s[j] == '.';
    assert AllAtoms(s[..at]) by {
      forall k | 0 <= k < at ensures IsEmailAtom(s[..at][k]) { assert s[..at][k] == s[k]; }
    }
    var middle, last := s[at + 1..j], s[j + 1..];
    forall k | 0 <= k < |middle| ensures IsEmailAtom(middle[k]) { assert middle[k] == s[at + 1 + k]; }
    forall k | 0 <= k < |last| ensures IsEmailAtom(last[k]) { assert last[k] == s[j + 1 + k]; }
    assert SplitsEmail(s, at, j);
  }

  lemma MatchesEmailValid(s: string)
    requires EmailRegexMatches(s)
    ensures EmailValid(s)
  {
    var i, j :| SplitsEmail(s, i, j);
    forall k | 0 <= k < i ensures IsEmailAtom(s[k]) { assert s[..i][k] == s[k]; }
    forall k | i < k < j ensures IsEmailAtom(s[k]) { assert s[i + 1..j][k - i - 1] == s[k]; }
    forall k | j < k < |s| ensures IsEmailAtom(s[k]) { assert s[j + 1..][k - j - 1] == s[k]; }
    var at := IndexOf(s, '@');
    assert at == i;
    assert !IsWhitespace('@') && !IsWhitespace('.');
  }

  /** The direct check accepts exactly the strings the regular expression matches. */
  lemma EmailValidIffRegex(s: string)
    ensures EmailValid(s) <==> EmailRegexMatches(s)
  {
    if EmailValid(s) { EmailValidMatches(s); }
    if EmailRegexMatches(s) { MatchesEmailValid(s); }
  }

  /** A character of the class `[0-9+\-\s()]`. */
  predicate IsPhoneChar(c: char) {
    '0' <= c <= '9' || c == '+' || c == '-' || IsWhitespace(c) || c == '(' || c == ')'
  }

  /** The phone check: every character is a digit, `+`, `-`, `(`, `)` or whitespace. */
  predicate PhoneValid(s: string) {
    forall k :: 0 <= k < |s| ==> IsPhoneChar(s[k])
  }

  /** `s` is in the language of `/^[0-9+\-\s()]*$/`: the star consumes one class character at a time. */
  ghost predicate PhoneRegexMatches(s: string) {
    s == [] || (IsPhoneChar(s[0]) && PhoneRegexMatches(s[1..]))
  }

  lemma {:induction false} PhoneValidIffRegex(s: string)
    ensures PhoneValid(s) <==> PhoneRegexMatches(s)
  {
    if s != [] {
      PhoneValidIffRegex(s[1..]);
      assert PhoneValid(s) <==> IsPhoneChar(s[0]) && PhoneValid(s[1..]) by {
        if IsPhoneChar(s[0]) && PhoneValid(s[1..]) {
          forall k | 0 < k < |s| ensures IsPhoneChar(s[k]) { assert s[1..][k - 1] == s[k]; }
        }
      }
    }
  }

  /** Sample inputs the email check accepts: the `.` may be any one after the `@`. */
  lemma EmailAccepts()
    ensures EmailValid("a@b.nl") && EmailValid("a@b.c.d")
  {
    assert IndexOf("a@b.nl", '@') == 1 && "a@b.nl"[3] == '.';
    assert IndexOf("a@b.c.d", '@') == 1 && "a@b.c.d"[3] == '.';
  }

  /** Sample inputs the email check refuses: empty, no dot after the `@`, an empty part, two `@`, a space. */
  lemma EmailRejects()
    ensures !EmailValid("") && !EmailValid("a@b") && !EmailValid("a@.c") && !EmailValid("@b.c")
    ensures !EmailValid("a@b@c.d") && !EmailValid("a b@c.d") && !EmailValid("a.b@c")
  {
    assert IndexOf("a@b", '@') == 1;
    assert IndexOf("a@.c", '@') == 1;
    assert IndexOf("a@b@c.d", '@') == 1 && "a@b@c.d"[3] == '@';
    assert IsWhitespace("a b@c.d"[1]);
    assert IndexOf("a.b@c", '@') == 3;
  }

  lemma PhoneExamples()
    ensures PhoneValid("+31 (0)6-1234 5678") && PhoneValid("")
    ensures !PhoneValid("06.12345678") && !PhoneValid("tel 0612")
  {
    assert !IsPhoneChar("06.12345678"[2]);
    assert !IsPhoneChar("tel 0612"[0]);
  }
}
