/** Shared vocabulary for the model: optional values and results, the
    JavaScript values that the services pass around as `any`, and the
    string and array built-ins the source relies on (`trim`, `split`,
    `includes`, `toLowerCase`, `filter`, `slice`). */
module Common {

  datatype Option<+T> = None | Some(value: T)

  datatype Result<+T, +E> = Success(value: T) | Failure(error: E)

  /** The `{ valid, errors }` record every validator returns. */
  datatype Validation = Validation(valid: bool, errors: seq<string>)

  /** A JavaScript value as received from JSON or handed around as `any`.
      An object holds its own properties in `fields`; `keys` lists them in
      the order `Object.entries` reports. */
  datatype Value =
    | Undefined
    | Null
    | Bool(b: bool)
    | Num(n: real)
    | Str(s: string)
    | Arr(items: seq<Value>)
    | Obj(keys: seq<string>, fields: map<string, Value>)

  /** JavaScript truthiness, `!!v`. */
  predicate Truthy(v: Value) {
    match v
    case Undefined => false
    case Null => false
    case Bool(b) => b
    case Num(n) => n != 0.0
    case Str(s) => s != ""
    case Arr(_) => true
    case Obj(_, _) => true
  }

  /** `typeof v === 'object'`, which holds of `null` and of arrays too. */
  predicate IsObjectType(v: Value) {
    v.Null? || v.Arr? || v.Obj?
  }

  /** `v && typeof v === 'object'`: an object or an array. */
  predicate IsNonNullObject(v: Value) {
    v.Arr? || v.Obj?
  }

  /** The property read `v[key]` (or `v?.[key]`); absent keys read as undefined. */
  function Get(v: Value, key: string): Value {
    if v.Obj? && key in v.fields then v.fields[key] else Undefined
  }

  /** `Object.entries(v)` of an object (its keys in order) or of an array
      (its indices as decimal strings). */
  function Entries(v: Value): (es: seq<(string, Value)>)
    requires IsNonNullObject(v)
    ensures v.Obj? ==> |es| == |v.keys|
    ensures v.Obj? ==> forall i :: 0 <= i < |es| ==> es[i] == (v.keys[i], Get(v, v.keys[i]))
    ensures v.Arr? ==> |es| == |v.items|
    ensures v.Arr? ==> forall i :: 0 <= i < |es| ==> es[i] == (NatToString(i), v.items[i])
  {
    if v.Obj? then seq(|v.keys|, i requires 0 <= i < |v.keys| => (v.keys[i], Get(v, v.keys[i])))
    else seq(|v.items|, i requires 0 <= i < |v.items| => (NatToString(i), v.items[i]))
  }

  /** `a || b` */
  function Or(a: Value, b: Value): Value {
    if Truthy(a) then a else b
  }

  /** `a || b` on strings, where only the empty string is falsy. */
  function OrString(a: string, b: string): (r: string)
    ensures a != "" ==> r == a
    ensures a == "" ==> r == b
  {
    if a != "" then a else b
  }

  /** `typeof v === 'string'` together with a non-empty value: `v && typeof v === 'string'`. */
  predicate IsNonEmptyString(v: Value) {
    v.Str? && v.s != ""
  }

  // ---------------------------------------------------------------------
  // Sequences

  /** `a` is obtained from `b` by deleting elements (order is kept). */
  predicate IsSubsequence<T(==)>(a: seq<T>, b: seq<T>) {
    if a == [] then true
    else if b == [] then false
    else (a[0] == b[0] && IsSubsequence(a[1..], b[1..])) || IsSubsequence(a, b[1..])
  }

  lemma {:induction false} SubsequenceRefl<T>(a: seq<T>)
    ensures IsSubsequence(a, a)
  {
    if a != [] {
      SubsequenceRefl(a[1..]);
    }
  }

  lemma {:induction false} SubsequenceTrans<T>(a: seq<T>, b: seq<T>, c: seq<T>)
    requires IsSubsequence(a, b) && IsSubsequence(b, c)
    ensures IsSubsequence(a, c)
    decreases |c|
  {
    if a != [] {
      assert b != [] && c != [];
      if b[0] == c[0] && IsSubsequence(b[1..], c[1..]) {
        if a[0] == b[0] && IsSubsequence(a[1..], b[1..]) {
          SubsequenceTrans(a[1..], b[1..], c[1..]);
        } else {
          SubsequenceTrans(a, b[1..], c[1..]);
        }
      } else {
        SubsequenceTrans(a, b, c[1..]);
      }
    }
  }

  lemma {:induction false} SubsequenceMembers<T>(a: seq<T>, b: seq<T>)
    requires IsSubsequence(a, b)
    ensures |a| <= |b|
    ensures forall x :: x in a ==> x in b
  {
    if a != [] {
      if a[0] == b[0] && IsSubsequence(a[1..], b[1..]) {
        SubsequenceMembers(a[1..], b[1..]);
        assert forall x :: x in a ==> x == a[0] || x in a[1..];
      } else {
        SubsequenceMembers(a, b[1..]);
      }
    }
  }

  lemma {:induction false} SuffixIsSubsequence<T>(a: seq<T>, k: nat)
    requires k <= |a|
    ensures IsSubsequence(a[k..], a)
  {
    if k == 0 {
      SubsequenceRefl(a);
    } else {
      SuffixIsSubsequence(a[1..], k - 1);
      assert a[1..][k - 1..] == a[k..];
    }
  }

  lemma {:induction false} PrefixIsSubsequence<T>(a: seq<T>, k: nat)
    requires k <= |a|
    ensures IsSubsequence(a[..k], a)
  {
    if k > 0 {
      PrefixIsSubsequence(a[1..], k - 1);
      assert a[..k][1..] == a[1..][..k - 1];
    }
  }

  lemma {:induction false} SubsequenceConcat<T>(a1: seq<T>, b1: seq<T>, a2: seq<T>, b2: seq<T>)
    requires IsSubsequence(a1, b1) && IsSubsequence(a2, b2)
    ensures IsSubsequence(a1 + a2, b1 + b2)
    decreases |b1|
  {
    if a1 == [] {
      assert (b1 + b2)[|b1|..] == b2;
      SuffixIsSubsequence(b1 + b2, |b1|);
      SubsequenceTrans(a2, b2, b1 + b2);
      assert a1 + a2 == a2;
    } else if a1[0] == b1[0] && IsSubsequence(a1[1..], b1[1..]) {
      SubsequenceConcat(a1[1..], b1[1..], a2, b2);
      assert (a1 + a2)[1..] == a1[1..] + a2;
      assert (b1 + b2)[1..] == b1[1..] + b2;
    } else {
      SubsequenceConcat(a1, b1[1..], a2, b2);
      assert (b1 + b2)[1..] == b1[1..] + b2;
    }
  }

  /** `[x]` when `c` holds, otherwise nothing: one conditional `push`. */
  function PushIf<T>(c: bool, x: T): seq<T> {
    if c then [x] else []
  }

  lemma PushIfIsSubsequence<T>(c: bool, x: T)
    ensures IsSubsequence(PushIf(c, x), [x])
  {
    assert [x][1..] == [];
  }

  /** `if (c) acc.push(x)`, as a value: the list after one conditional push. */
  function Push<T>(acc: seq<T>, c: bool, x: T): (r: seq<T>)
    ensures |r| == |acc| + (if c then 1 else 0)
    ensures r[..|acc|] == acc
  {
    if c then acc + [x] else acc
  }

  lemma PushMembers<T(!new)>(acc: seq<T>, c: bool, x: T)
    ensures forall y :: y in Push(acc, c, x) <==> y in acc || (c && y == x)
  {
  }

  /** Membership after four conditional pushes in a row. */
  lemma Push4Members<T(!new)>(acc: seq<T>, c1: bool, x1: T, c2: bool, x2: T, c3: bool, x3: T, c4: bool, x4: T)
    ensures forall y :: y in Push(Push(Push(Push(acc, c1, x1), c2, x2), c3, x3), c4, x4) <==>
      y in acc || (c1 && y == x1) || (c2 && y == x2) || (c3 && y == x3) || (c4 && y == x4)
  {
  }

  /** Membership after five conditional pushes in a row. */
  lemma Push5Members<T(!new)>(acc: seq<T>, c1: bool, x1: T, c2: bool, x2: T, c3: bool, x3: T, c4: bool, x4: T, c5: bool, x5: T)
    ensures forall y :: y in Push(Push(Push(Push(Push(acc, c1, x1), c2, x2), c3, x3), c4, x4), c5, x5) <==>
      y in acc || (c1 && y == x1) || (c2 && y == x2) || (c3 && y == x3) || (c4 && y == x4) || (c5 && y == x5)
  {
    Push4Members(acc, c1, x1, c2, x2, c3, x3, c4, x4);
  }

  /** Either of two alternative pushes, or none, keeps the order of the pair. */
  lemma PairPickIsSubsequence<T>(x: T, y: T, picked: seq<T>)
    requires picked == [] || picked == [x] || picked == [y]
    ensures IsSubsequence(picked, [x, y])
  {
    assert [x, y][1..] == [y];
    assert [y][1..] == [];
  }

  /** `s.map(f)` */
  function Map<A, B>(s: seq<A>, f: A -> B): (r: seq<B>)
    ensures |r| == |s|
    ensures forall i :: 0 <= i < |s| ==> r[i] == f(s[i])
  {
    seq(|s|, i requires 0 <= i < |s| => f(s[i]))
  }

  /** `s.findIndex(p)`, with `None` for -1. */
  function FindFirst<T>(s: seq<T>, p: T -> bool): (r: Option<nat>)
    ensures r.Some? ==> r.value < |s| && p(s[r.value])
    ensures r.Some? ==> forall j :: 0 <= j < r.value ==> !p(s[j])
    ensures r.None? ==> forall j :: 0 <= j < |s| ==> !p(s[j])
  {
    if s == [] then None
    else if p(s[0]) then Some(0)
    else match FindFirst(s[1..], p)
      case None => None
      case Some(i) => Some(i + 1)
  }

  /** `s.filter(p)` */
  function Filter<T(!new)>(s: seq<T>, p: T -> bool): (r: seq<T>)
    ensures |r| == CountWhere(s, p) <= |s|
    ensures forall x :: x in r <==> x in s && p(x)
  {
    if s == [] then []
    else
      var rest := Filter(s[1..], p);
      if p(s[0]) then [s[0]] + rest else rest
  }

  /** `filter` keeps the survivors in their original order. */
  lemma {:induction false} FilterIsSubsequence<T(!new)>(s: seq<T>, p: T -> bool)
    ensures IsSubsequence(Filter(s, p), s)
  {
    if s != [] {
      FilterIsSubsequence(s[1..], p);
      if p(s[0]) {
        assert ([s[0]] + Filter(s[1..], p))[1..] == Filter(s[1..], p);
      }
    }
  }

  lemma {:induction false} FilterKeepsAll<T(!new)>(s: seq<T>, p: T -> bool)
    requires forall x :: x in s ==> p(x)
    ensures Filter(s, p) == s
  {
    if s != [] {
      FilterKeepsAll(s[1..], p);
    }
  }

  /** The number of elements of `s` that satisfy `p`. */
  function CountWhere<T>(s: seq<T>, p: T -> bool): nat {
    if s == [] then 0 else (if p(s[0]) then 1 else 0) + CountWhere(s[1..], p)
  }

  /** Counting over an appended element adds that element's own count. */
  lemma {:induction false} CountWhereSnoc<T>(s: seq<T>, x: T, p: T -> bool)
    ensures CountWhere(s + [x], p) == CountWhere(s, p) + (if p(x) then 1 else 0)
  {
    if s != [] {
      assert (s + [x])[1..] == s[1..] + [x];
      CountWhereSnoc(s[1..], x, p);
    }
  }

  /** With no survivor, `filter` gives the empty list. */
  lemma {:induction false} FilterNone<T(!new)>(s: seq<T>, p: T -> bool)
    requires forall x :: x in s ==> !p(x)
    ensures Filter(s, p) == []
  {
    if s != [] {
      assert s[0] in s;
      FilterNone(s[1..], p);
    }
  }

  /** Filtering over an appended element appends that element if it survives. */
  lemma {:induction false} FilterSnoc<T(!new)>(s: seq<T>, x: T, p: T -> bool)
    ensures Filter(s + [x], p) == Filter(s, p) + (if p(x) then [x] else [])
  {
    if s != [] {
      assert (s + [x])[1..] == s[1..] + [x];
      FilterSnoc(s[1..], x, p);
    }
  }

  /** A survivor of `filter` sits after exactly the survivors before it. */
  lemma {:induction false} FilterIndex<T(!new)>(s: seq<T>, p: T -> bool, i: nat)
    requires i < |s| && p(s[i])
    ensures CountWhere(s[..i], p) < |Filter(s, p)|
    ensures Filter(s, p)[CountWhere(s[..i], p)] == s[i]
  {
    if i == 0 {
      assert s[..0] == [];
    } else {
      FilterIndex(s[1..], p, i - 1);
      assert s[..i][1..] == s[1..][..i - 1];
      assert s[..i][0] == s[0];
    }
  }

  /** `filter(p).slice(0, n)` keeps every survivor with fewer than `n`
      survivors before it. */
  lemma FilterTakeFirst<T(!new)>(s: seq<T>, p: T -> bool, n: int, i: nat)
    requires i < |s| && p(s[i]) && CountWhere(s[..i], p) < n
    ensures s[i] in Take(Filter(s, p), n)
  {
    FilterIndex(s, p, i);
    var t := Take(Filter(s, p), n);
    assert t[CountWhere(s[..i], p)] == s[i];
  }

  /** `s.filter(p).slice(0, n)` is an in-order selection of `s` holding
      only survivors of `p`, `n` of them or all when there are fewer, and
      all of them when there are at most `n`. */
  lemma FilterTake<T(!new)>(s: seq<T>, p: T -> bool, n: int)
    ensures var c := CountWhere(s, p);
      |Take(Filter(s, p), n)| == if n >= 0 then (if c < n then c else n) else (if c + n > 0 then c + n else 0)
    ensures IsSubsequence(Take(Filter(s, p), n), s)
    ensures forall x :: x in Take(Filter(s, p), n) ==> p(x)
    ensures CountWhere(s, p) <= n ==> Take(Filter(s, p), n) == Filter(s, p)
  {
    var f := Filter(s, p);
    var t := Take(f, n);
    PrefixIsSubsequence(f, |t|);
    FilterIsSubsequence(s, p);
    SubsequenceTrans(t, f, s);
    forall x | x in t ensures p(x) {
      var k :| 0 <= k < |t| && t[k] == x;
      assert f[k] == x;
    }
  }

  /** `s.slice(0, end)`: a negative `end` counts from the back. */
  function Take<T>(s: seq<T>, end: int): (r: seq<T>)
    ensures |r| <= |s| && r == s[..|r|]
    ensures end >= 0 ==> |r| == if end < |s| then end else |s|
    ensures end < 0 ==> |r| == if |s| + end > 0 then |s| + end else 0
  {
    if end < 0 then (if |s| + end > 0 then s[..|s| + end] else [])
    else if end < |s| then s[..end] else s
  }

  /** `s.slice(start)`: a negative `start` counts from the back. */
  function Drop<T>(s: seq<T>, start: int): (r: seq<T>)
    ensures |r| <= |s| && r == s[|s| - |r|..]
    ensures start < 0 ==> |r| == if -start < |s| then -start else |s|
  {
    if start < 0 then (if |s| + start > 0 then s[|s| + start..] else s)
    else if start < |s| then s[start..] else []
  }

  // ---------------------------------------------------------------------
  // Strings

  /** The characters JavaScript's `trim` and the regex class `\s` treat as white space. */
  predicate IsWhitespace(c: char) {
    c == ' ' || c == '\t' || c == '\n' || c == '\r' || c == '\U{000B}' || c == '\U{000C}'
    || c == '\U{00A0}' || c == '\U{1680}' || ('\U{2000}' <= c <= '\U{200A}')
    || c == '\U{2028}' || c == '\U{2029}' || c == '\U{202F}' || c == '\U{205F}'
    || c == '\U{3000}' || c == '\U{FEFF}'
  }

  function TrimStart(s: string): (r: string)
    ensures |r| <= |s| && r == s[|s| - |r|..]
    ensures r == [] || !IsWhitespace(r[0])
    ensures forall k :: 0 <= k < |s| - |r| ==> IsWhitespace(s[k])
  {
    if s != [] && IsWhitespace(s[0]) then TrimStart(s[1..]) else s
  }

  function TrimEnd(s: string): (r: string)
    ensures |r| <= |s| && r == s[..|r|]
    ensures r == [] || !IsWhitespace(r[|r| - 1])
    ensures forall k :: |r| <= k < |s| ==> IsWhitespace(s[k])
  {
    if s != [] && IsWhitespace(s[|s| - 1]) then TrimEnd(s[..|s| - 1]) else s
  }

  /** `s.trim()` */
  function Trim(s: string): (r: string)
    ensures r == [] || (!IsWhitespace(r[0]) && !IsWhitespace(r[|r| - 1]))
    ensures IsSubsequence(r, s)
    ensures r == [] <==> forall k :: 0 <= k < |s| ==> IsWhitespace(s[k])
  {
    var t := TrimStart(s);
    var r := TrimEnd(t);
    SuffixIsSubsequence(s, |s| - |t|);
    PrefixIsSubsequence(t, |r|);
    SubsequenceTrans(r, t, s);
    r
  }

  /** `!s.trim()`: the string is empty or white space only. */
  predicate IsBlank(s: string) {
    Trim(s) == []
  }

  function LowerChar(c: char): char {
    if 'A' <= c <= 'Z' then (c as int + 32) as char else c
  }

  /** `s.toLowerCase()` on ASCII letters. */
  function ToLower(s: string): string {
    seq(|s|, i requires 0 <= i < |s| => LowerChar(s[i]))
  }

  /** `haystack.toLowerCase().includes(needle.toLowerCase())` */
  predicate ContainsIgnoreCase(haystack: string, needle: string) {
    Contains(ToLower(haystack), ToLower(needle))
  }

  /** An empty search term is found in every string. */
  lemma EmptySearchMatches(haystack: string)
    ensures ContainsIgnoreCase(haystack, "")
  {
    assert ToLower("") == "";
    ContainsEmpty(ToLower(haystack));
  }

  /** `s.startsWith(p)` */
  predicate StartsWith(s: string, p: string) {
    |p| <= |s| && s[..|p|] == p
  }

  /** `s.endsWith(p)` */
  predicate EndsWith(s: string, p: string) {
    |p| <= |s| && s[|s| - |p|..] == p
  }

  /** `s.includes(sub)` */
  predicate Contains(s: string, sub: string)
    decreases |s|
  {
    StartsWith(s, sub) || (s != [] && Contains(s[1..], sub))
  }

  lemma {:induction false} ContainsEmpty(s: string)
    ensures Contains(s, "")
  {
    assert StartsWith(s, "");
  }

  /** A string contains every string it is built around. */
  lemma {:induction false} ContainsInfix(a: string, sub: string, b: string)
    ensures Contains(a + sub + b, sub)
  {
    if a == [] {
      assert a + sub + b == sub + b;
      assert (sub + b)[..|sub|] == sub;
    } else {
      ContainsInfix(a[1..], sub, b);
      assert (a + sub + b)[1..] == a[1..] + sub + b;
    }
  }

  function DigitChar(d: nat): char
    requires d < 10
  {
    ('0' as int + d) as char
  }

  /** The decimal text of a non-negative integer (`String(n)`). */
  function NatToString(n: nat): (s: string)
    ensures s != []
    ensures forall k :: 0 <= k < |s| ==> '0' <= s[k] <= '9'
  {
    if n < 10 then [DigitChar(n)] else NatToString(n / 10) + [DigitChar(n % 10)]
  }

  /** The number a string of decimal digits denotes (`Number(s)` on digits). */
  function DigitsValue(s: string): nat {
    if s == [] then 0
    else
      var c := s[|s| - 1];
      DigitsValue(s[..|s| - 1]) * 10 + (if '0' <= c <= '9' then c as int - '0' as int else 0)
  }

  /** Reading back the decimal text gives the number. */
  lemma {:induction false} NatToStringValue(n: nat)
    ensures DigitsValue(NatToString(n)) == n
  {
    var s := NatToString(n);
    if n >= 10 {
      NatToStringValue(n / 10);
      assert s[..|s| - 1] == NatToString(n / 10);
    }
  }

  /** `String(i)` for an integer. */
  function IntToString(i: int): string {
    if i < 0 then "-" + NatToString(-i) else NatToString(i)
  }

  /** `parts.join(sep)` */
  function Join(parts: seq<string>, sep: string): string {
    if parts == [] then ""
    else if |parts| == 1 then parts[0]
    else parts[0] + sep + Join(parts[1..], sep)
  }

  /** Every part of a join sits between a prefix and a suffix of the result. */
  lemma {:induction false} JoinHasPart(parts: seq<string>, sep: string, i: nat) returns (pre: string, post: string)
    requires i < |parts|
    ensures Join(parts, sep) == pre + parts[i] + post
  {
    if |parts| == 1 {
      pre, post := "", "";
    } else if i == 0 {
      pre, post := "", sep + Join(parts[1..], sep);
    } else {
      var pre', post' := JoinHasPart(parts[1..], sep, i - 1);
      pre, post := parts[0] + sep + pre', post';
    }
  }

  /** A join ends with its last part. */
  lemma {:induction false} JoinEndsWithLast(parts: seq<string>, sep: string)
    requires parts != []
    ensures EndsWith(Join(parts, sep), parts[|parts| - 1])
  {
    if |parts| > 1 {
      JoinEndsWithLast(parts[1..], sep);
      var j := Join(parts[1..], sep);
      var a := parts[0] + sep;
      assert (a + j)[|a + j| - |parts[|parts| - 1]|..] == j[|j| - |parts[|parts| - 1]|..];
    }
  }

  /** `s.split(sep)` for a one-character separator. */
  function Split(s: string, sep: char): (parts: seq<string>)
    ensures |parts| >= 1
    ensures forall k :: 0 <= k < |parts| ==> sep !in parts[k]
    ensures Join(parts, [sep]) == s
  {
    if s == [] then [""]
    else
      var rest := Split(s[1..], sep);
      if s[0] == sep then
        assert Join([""] + rest, [sep]) == [sep] + Join(rest, [sep]);
        [""] + rest
      else
        var parts := [[s[0]] + rest[0]] + rest[1..];
        assert |rest| == 1 ==> Join(parts, [sep]) == [s[0]] + Join(rest, [sep]);
        assert |rest| > 1 ==> Join(parts, [sep]) == [s[0]] + Join(rest, [sep]) by {
          if |rest| > 1 {
            assert parts[1..] == rest[1..];
          }
        }
        parts
  }
}
