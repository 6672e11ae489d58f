/** The input checks the forms share: the e-mail regular expression
    /^[^\s@]+@[^\s@]+\.[^\s@]+$/ and the field patterns of the profile and registration forms. */
module Validation {
  import opened Text

  /** A character of the class [^\s@]. */
  predicate PlainChar(c: char) {
    !IsSpace(c) && c != '@'
  }

  /** What the e-mail expression accepts, read off its three `[^\s@]+` runs: one '@' after a
      non-empty run, then a '.' with at least one character on each side of it, and no other '@'
      or white space anywhere. */
  ghost predicate EmailShape(s: string) {
    exists i, j ::
      0 < i && i + 1 < j < |s| - 1 && s[i] == '@' && s[j] == '.' &&
      forall k :: 0 <= k < |s| && k != i ==> PlainChar(s[k])
  }

  /** The e-mail test as the screens run it: find the '@', check everything else, look for an inner dot. */
  predicate IsEmail(s: string) {
    var at := IndexOf(s, '@');
    0 < at && at + 3 <= |s| &&
    (forall k :: 0 <= k < |s| && k != at ==> PlainChar(s[k])) &&
    '.' in s[at + 2..|s| - 1]
  }

  /** The scanning test accepts exactly the strings the regular expression describes. */
  lemma EmailIff(s: string)
    ensures IsEmail(s) <==> EmailShape(s)
  {
    var at := IndexOf(s, '@');
    if IsEmail(s) {
      var m := s[at + 2..|s| - 1];
      var d :| 0 <= d < |m| && m[d] == '.';
      assert s[at + 2 + d] == '.';
      assert EmailShape(s) by {
        var j := at + 2 + d;
        assert 0 < at && at + 1 < j < |s| - 1 && s[at] == '@' && s[j] == '.';
      }
    }
    if EmailShape(s) {
      var i, j :| 0 < i && i + 1 < j < |s| - 1 && s[i] == '@' && s[j] == '.' &&
                  forall k :: 0 <= k < |s| && k != i ==> PlainChar(s[k]);
      assert '@' !in s[..i] by {
        forall k | 0 <= k < i ensures s[..i][k] != '@' {
          assert PlainChar(s[k]);
        }
      }
      assert at == i;
      assert s[at + 2..|s| - 1][j - at - 2] == '.';
    }
  }

  /** A character of the name class [a-zA-ZáéíóúÁÉÍÓÚñÑ\s]. */
  predicate NameChar(c: char) {
    IsAsciiLetter(c) || c in "áéíóúÁÉÍÓÚñÑ" || IsSpace(c)
  }

  /** /^[a-zA-ZáéíóúÁÉÍÓÚñÑ\s]{2,50}$/ */
  predicate ValidName(s: string) {
    2 <= |s| <= 50 && forall k :: 0 <= k < |s| ==> NameChar(s[k])
  }

  /** A character of the class [a-zA-Z0-9_]. */
  predicate WordChar(c: char) {
    IsAsciiLetter(c) || IsDigit(c) || c == '_'
  }

  /** /^[a-zA-Z0-9_]{3,20}$/ */
  predicate ValidUsername(s: string) {
    3 <= |s| <= 20 && forall k :: 0 <= k < |s| ==> WordChar(s[k])
  }

  /** A character of the class [+\d\s()-]. */
  predicate PhoneChar(c: char) {
    c == '+' || IsDigit(c) || IsSpace(c) || c == '(' || c == ')' || c == '-'
  }

  /** /^[+\d\s()-]{10,20}$/ */
  predicate ValidPhone(s: string) {
    10 <= |s| <= 20 && forall k :: 0 <= k < |s| ==> PhoneChar(s[k])
  }

  /** The four gender options the forms accept. */
  const GenderOptions: seq<string> := ["Masculino", "Femenino", "No binario", "Prefiero no decir"]

  predicate ValidGender(s: string) {
    s in GenderOptions
  }

  /** /^(?=.*[a-z])(?=.*[A-Z])(?=.*\d)[a-zA-Z\d]{8,}$/ */
  predicate StrongPassword(s: string) {
    |s| >= 8 &&
    (forall k :: 0 <= k < |s| ==> IsAsciiLetter(s[k]) || IsDigit(s[k])) &&
    (exists k :: 0 <= k < |s| && IsLower(s[k])) &&
    (exists k :: 0 <= k < |s| && IsUpper(s[k])) &&
    (exists k :: 0 <= k < |s| && IsDigit(s[k]))
  }
}
