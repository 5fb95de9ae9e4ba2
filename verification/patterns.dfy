/** The regular expressions of the validators, written out as character-class
    predicates. Each is anchored at both ends (`^…$` without the `m` flag). */
module Patterns {

  /** `\d` and `[0-9]` */
  predicate IsDigit(c: char) {
    '0' <= c <= '9'
  }

  /** `[0-9a-f]` under the `i` flag. */
  predicate IsHexDigit(c: char) {
    IsDigit(c) || 'a' <= c <= 'f' || 'A' <= c <= 'F'
  }

  /** `\w`: ASCII letters, digits and the underscore. */
  predicate IsWordChar(c: char) {
    'a' <= c <= 'z' || 'A' <= c <= 'Z' || IsDigit(c) || c == '_'
  }

  /** Positions of the four hyphens in the 8-4-4-4-12 layout. */
  predicate IsUuidHyphenPosition(i: int) {
    i == 8 || i == 13 || i == 18 || i == 23
  }

  /** What the UUID pattern accepts at position `i`: a hyphen between the
      groups, the version digit 1–5 (section 4.1.3 of RFC 4122) at 14,
      the variant digit 8, 9, a or b (section 4.1.1 of RFC 4122) at 19,
      and a hexadecimal digit elsewhere, letters in either case. */
  predicate UuidCharOk(s: string, i: int)
    requires 0 <= i < |s|
  {
    if IsUuidHyphenPosition(i) then s[i] == '-'
    else if i == 14 then '1' <= s[i] <= '5'
    else if i == 19 then s[i] in "89abAB"
    else IsHexDigit(s[i])
  }

  /** `/^[0-9a-f]{8}-[0-9a-f]{4}-[1-5][0-9a-f]{3}-[89ab][0-9a-f]{3}-[0-9a-f]{12}$/i`
      (section 3 of RFC 4122). */
  predicate IsUuid(s: string) {
    |s| == 36 && forall i :: 0 <= i < 36 ==> UuidCharOk(s, i)
  }

  /** `/^\d{4}-\d{2}-\d{2}$/`: the shape of a full-date of section 5.6 of
      RFC 3339, without any range check on month or day. */
  predicate IsDateShape(s: string) {
    |s| == 10 && forall i :: 0 <= i < 10 ==> DateCharOk(s, i)
  }

  predicate DateCharOk(s: string, i: int)
    requires 0 <= i < |s|
  {
    if i == 4 || i == 7 then s[i] == '-' else IsDigit(s[i])
  }

  /** `/^[a-zA-Z0-9_-]+$/` */
  predicate IsIdToken(s: string) {
    |s| > 0 && forall i :: 0 <= i < |s| ==> IsWordChar(s[i]) || s[i] == '-'
  }

  /** Every UUID is also an identifier token of 36 characters; the flow-id
      classifier must therefore test the UUID pattern first. */
  lemma UuidIsIdToken(s: string)
    requires IsUuid(s)
    ensures IsIdToken(s) && |s| == 36
  {
    forall i | 0 <= i < |s|
      ensures IsWordChar(s[i]) || s[i] == '-'
    {
      assert UuidCharOk(s, i);
    }
  }

  /** A date shape is never a UUID (their lengths differ), and its
      separators sit at positions 4 and 7. */
  lemma DateShapeLayout(s: string)
    requires IsDateShape(s)
    ensures !IsUuid(s)
    ensures s[4] == '-' && s[7] == '-' && IsDigit(s[0]) && IsDigit(s[9])
  {
    assert DateCharOk(s, 4) && DateCharOk(s, 7) && DateCharOk(s, 0) && DateCharOk(s, 9);
  }
}
