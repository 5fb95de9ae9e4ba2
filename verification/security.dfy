/** Client-side security helpers: API-key shape check, input sanitising,
    a sliding-window rate limiter and an expiring key/value store. */
module Security {
  import opened Common
  import opened Patterns

  // ---------------------------------------------------------------------
  // validateApiKey

  const KeyPrefix: string := "wqh_"
  const MinKeyLength: nat := 20

  /** A key is accepted only when it carries the vendor prefix and is long enough. */
  function ValidateApiKey(apiKey: string): (ok: bool)
    ensures ok <==> StartsWith(apiKey, KeyPrefix) && |apiKey| >= MinKeyLength
    ensures ok ==> |apiKey| > |KeyPrefix|
  {
    if !StartsWith(apiKey, KeyPrefix) then false
    else if |apiKey| < MinKeyLength then false
    else true
  }

  // ---------------------------------------------------------------------
  // sanitizeInput

  /** `.replace(/[<>]/g, '')` */
  function StripAngleBrackets(s: string): (r: string)
    ensures '<' !in r && '>' !in r
    ensures IsSubsequence(r, s)
  {
    FilterIsSubsequence(s, c => c != '<' && c != '>');
    Filter(s, c => c != '<' && c != '>')
  }

  const ScriptScheme: string := "javascript:"

  /** `s` starts with `javascript:` in any mix of letter case. */
  predicate SchemeAt(s: string) {
    |s| >= |ScriptScheme| && forall k :: 0 <= k < |ScriptScheme| ==> LowerChar(s[k]) == ScriptScheme[k]
  }

  /** `.replace(/javascript:/gi, '')`: scans left to right and deletes each
      case-insensitive occurrence; the scan resumes after a deletion, so a
      deletion can join two halves into a new occurrence that stays. */
  function StripScriptScheme(s: string): (r: string)
    ensures IsSubsequence(r, s)
    decreases |s|
  {
    if SchemeAt(s) then
      var r := StripScriptScheme(s[|ScriptScheme|..]);
      SuffixIsSubsequence(s, |ScriptScheme|);
      SubsequenceTrans(r, s[|ScriptScheme|..], s);
      r
    else if s == [] then []
    else
      var r := StripScriptScheme(s[1..]);
      assert ([s[0]] + r)[1..] == r;
      [s[0]] + r
  }

  /** The end of the longest run of word characters in `s` starting at `i`. */
  function WordRunEnd(s: string, i: nat): (j: nat)
    requires i <= |s|
    ensures i <= j <= |s|
    ensures forall k :: i <= k < j ==> IsWordChar(s[k])
    ensures j == |s| || !IsWordChar(s[j])
    decreases |s| - i
  {
    if i < |s| && IsWordChar(s[i]) then WordRunEnd(s, i + 1) else i
  }

  /** The length of a match of `/on\w+=/i` at the start of `s`, 0 when there is none.
      Backtracking into `\w+` cannot help: a shorter run is followed by a word
      character, never by `=`. */
  function HandlerMatchLength(s: string): (m: nat)
    ensures m <= |s|
    ensures m > 0 ==> m >= 4 && s[m - 1] == '='
  {
    if |s| >= 2 && ToLower(s[..2]) == "on" then
      var j := WordRunEnd(s, 2);
      if j > 2 && j < |s| && s[j] == '=' then j + 1 else 0
    else 0
  }

  /** `.replace(/on\w+=/gi, '')` */
  function StripEventHandlers(s: string): (r: string)
    ensures IsSubsequence(r, s)
    decreases |s|
  {
    if s == [] then []
    else
      var m := HandlerMatchLength(s);
      if m > 0 then
        var r := StripEventHandlers(s[m..]);
        SuffixIsSubsequence(s, m);
        SubsequenceTrans(r, s[m..], s);
        r
      else
        var r := StripEventHandlers(s[1..]);
        assert ([s[0]] + r)[1..] == r;
        [s[0]] + r
  }

  /** The three `replace` passes of `sanitizeInput`, in source order: they
      only ever delete characters, and leave no angle bracket. */
  function StripPasses(input: string): (r: string)
    ensures '<' !in r && '>' !in r
    ensures IsSubsequence(r, input)
  {
    var a := StripAngleBrackets(input);
    var b := StripScriptScheme(a);
    var c := StripEventHandlers(b);
    SubsequenceTrans(c, b, a);
    StageChain(input, a, c);
    c
  }

  /** `sanitizeInput`: the passes, then `trim`. The result only ever loses
      characters, holds no angle bracket, and has no white space at either
      end. (It may still contain `javascript:`, see `NestedSchemeSurvives`.) */
  function SanitizeInput(input: string): (r: string)
    ensures '<' !in r && '>' !in r
    ensures IsSubsequence(r, input) && |r| <= |input|
    ensures r == [] || (!IsWhitespace(r[0]) && !IsWhitespace(r[|r| - 1]))
  {
    var c := StripPasses(input);
    var r := Trim(c);
    StageChain(input, c, r);
    r
  }

  /** A chain of deletions keeps the first stage's exclusion of angle
      brackets. */
  lemma StageChain(input: string, a: string, c: string)
    requires IsSubsequence(a, input) && '<' !in a && '>' !in a
    requires IsSubsequence(c, a)
    ensures IsSubsequence(c, input) && |c| <= |input|
    ensures '<' !in c && '>' !in c
  {
    SubsequenceTrans(c, a, input);
    SubsequenceMembers(c, a);
    SubsequenceMembers(c, input);
  }

  /** One step of the scan where no occurrence starts at the front of `s`:
      either `s` is too short or its `k`-th character differs. */
  lemma {:induction false} ScanStep(s: string, k: nat)
    requires s != []
    requires |s| < |ScriptScheme| || (k < |ScriptScheme| && LowerChar(s[k]) != ScriptScheme[k])
    ensures StripScriptScheme(s) == [s[0]] + StripScriptScheme(s[1..])
  {
  }

  /** No occurrence fits in a string shorter than the scheme. */
  lemma {:induction false} ShortUnchanged(s: string)
    requires |s| < |ScriptScheme|
    ensures StripScriptScheme(s) == s
  {
    if s != [] {
      ShortUnchanged(s[1..]);
      ScanStep(s, 0);
    }
  }

  /** A scan that finds no occurrence at the front keeps the first character. */
  lemma {:induction false} KeepFirst(c: char, rest: string, stripped: string)
    requires LowerChar(c) != 'j' && StripScriptScheme(rest) == stripped
    ensures StripScriptScheme([c] + rest) == [c] + stripped
  {
    assert ([c] + rest)[1..] == rest;
    ScanStep([c] + rest, 0);
  }

  /** The scan deletes a leading scheme and keeps a short tail. */
  lemma {:induction false} LeadingSchemeDeleted(rest: string)
    requires |rest| < |ScriptScheme|
    ensures StripScriptScheme(ScriptScheme + rest) == rest
  {
    var u := ScriptScheme + rest;
    forall k | 0 <= k < |ScriptScheme|
      ensures LowerChar(u[k]) == ScriptScheme[k]
    {
      assert u[k] == ScriptScheme[k];
      assert 'a' <= ScriptScheme[k] <= 'z' || ScriptScheme[k] == ':';
    }
    assert SchemeAt(u);
    assert u[|ScriptScheme|..] == rest;
    ShortUnchanged(rest);
  }

  /** No occurrence starts inside `ava`, so the scan keeps it. */
  lemma {:induction false} KeepAva(u: string, t: string)
    requires StripScriptScheme(u) == t
    ensures StripScriptScheme("ava" + u) == "ava" + t
  {
    KeepFirst('a', u, t);
    KeepFirst('v', ['a'] + u, ['a'] + t);
    KeepFirst('a', ['v'] + (['a'] + u), ['v'] + (['a'] + t));
    AvaPrefix(u);
    AvaPrefix(t);
  }

  lemma AvaPrefix(x: string)
    ensures ['a'] + (['v'] + (['a'] + x)) == "ava" + x
  {
  }

  /** A leading `j` that starts no occurrence is kept, and the scan goes on
      after it. */
  lemma {:induction false} KeepLeadingJ(rest: string, stripped: string)
    requires !SchemeAt("j" + rest) && StripScriptScheme(rest) == stripped
    ensures StripScriptScheme("j" + rest) == "j" + stripped
  {
    var s := "j" + rest;
    assert s[1..] == rest;
  }

  /** No occurrence starts at a `j` whose fourth following character is
      another `j`, since `ScriptScheme[4]` is `s`. */
  lemma {:induction false} SecondJBreaksScheme(rest: string)
    requires |rest| >= 4 && rest[3] == 'j'
    ensures !SchemeAt("j" + rest)
  {
    var s := "j" + rest;
    assert s[4] == rest[3];
    assert LowerChar(s[4]) != ScriptScheme[4];
  }

  /** The single left-to-right pass re-assembles a scheme split by another
      one: `javajavascript:script:` comes out as `javascript:`. */
  lemma {:induction false} NestedSchemeSurvives()
    ensures StripScriptScheme("j" + ("ava" + (ScriptScheme + "script:"))) == ScriptScheme
  {
    var u := ScriptScheme + "script:";
    LeadingSchemeDeleted("script:");
    KeepAva(u, "script:");
    assert ("ava" + u)[3] == ScriptScheme[0] == 'j';
    SecondJBreaksScheme("ava" + u);
    KeepLeadingJ("ava" + u, "ava" + "script:");
    SchemeHalves();
  }

  lemma SchemeHalves()
    ensures "j" + ("ava" + "script:") == ScriptScheme
  {
  }

  // ---------------------------------------------------------------------
  // RateLimiter

  const DefaultMaxRequests: int := 100
  const DefaultWindowMs: int := 60000

  /** `this.requests.get(id) || []` */
  function History(requests: map<string, seq<int>>, id: string): seq<int> {
    if id in requests then requests[id] else []
  }

  /** The timestamps still inside the window at `now`: `now - t < windowMs`. */
  function InWindow(history: seq<int>, now: int, windowMs: int): (r: seq<int>)
    ensures forall t :: t in r <==> t in history && now - t < windowMs
    ensures IsSubsequence(r, history)
  {
    FilterIsSubsequence(history, t => now - t < windowMs);
    Filter(history, t => now - t < windowMs)
  }

  /** Every identifier holds at most `maxRequests` timestamps. */
  predicate Bounded(requests: map<string, seq<int>>, maxRequests: int) {
    forall id :: id in requests ==> |requests[id]| <= maxRequests
  }

  class RateLimiter {
    const maxRequests: int
    const windowMs: int
    var requests: map<string, seq<int>>

    ghost predicate Valid()
      reads this
    {
      Bounded(requests, maxRequests)
    }

    constructor (maxRequests: int, windowMs: int)
      ensures this.maxRequests == maxRequests && this.windowMs == windowMs
      ensures requests == map[]
      ensures Valid()
    {
      this.maxRequests := maxRequests;
      this.windowMs := windowMs;
      requests := map[];
    }

    /** `isAllowed(identifier)` with the clock reading `now`. */
    method IsAllowed(id: string, now: int) returns (allowed: bool)
      requires Valid()
      modifies this
      ensures Valid()
      ensures allowed <==> |InWindow(History(old(requests), id), now, windowMs)| < maxRequests
      ensures allowed ==> requests == old(requests)[id := InWindow(History(old(requests), id), now, windowMs) + [now]]
      ensures !allowed ==> requests == old(requests)
    {
      var valid := InWindow(History(requests, id), now, windowMs);
      if |valid| >= maxRequests {
        return false;
      }
      valid := valid + [now];
      requests := requests[id := valid];
      allowed := true;
    }
  }

  /** The limiter's decision is a count of the timestamps inside the window. */
  lemma {:induction false} DecisionCountsWindow(history: seq<int>, now: int, windowMs: int, maxRequests: int)
    ensures |InWindow(history, now, windowMs)| < maxRequests
        <==> CountWhere(history, t => now - t < windowMs) < maxRequests
  {
  }

  /** A timestamp exactly `windowMs` old no longer counts. */
  lemma {:induction false} WindowExcludesBoundary(history: seq<int>, now: int, windowMs: int)
    ensures InWindow(history + [now - windowMs], now, windowMs) == InWindow(history, now, windowMs)
  {
    if history != [] {
      WindowExcludesBoundary(history[1..], now, windowMs);
      assert (history + [now - windowMs])[1..] == history[1..] + [now - windowMs];
    }
  }

  /** An admitted request keeps every identifier within `maxRequests` and
      leaves the other identifiers' histories as they were. */
  lemma AdmitKeepsBound(requests: map<string, seq<int>>, id: string, now: int, windowMs: int, maxRequests: int)
    requires Bounded(requests, maxRequests)
    requires |InWindow(History(requests, id), now, windowMs)| < maxRequests
    ensures Bounded(requests[id := InWindow(History(requests, id), now, windowMs) + [now]], maxRequests)
    ensures forall other :: other != id ==> History(requests[id := InWindow(History(requests, id), now, windowMs) + [now]], other) == History(requests, other)
  {
  }

  // ---------------------------------------------------------------------
  // secureStorage

  /** The record `set` serialises: the value, the write time and the optional expiry instant. */
  datatype Item = Item(value: Value, timestamp: int, expire: Option<int>)

  /** The item `set(key, value, expireMinutes)` writes at time `now`;
      a missing or zero `expireMinutes` (falsy) means no expiry. */
  function MakeItem(value: Value, expireMinutes: Option<int>, now: int): (item: Item)
    ensures item.value == value && item.timestamp == now
    ensures item.expire.None? <==> expireMinutes.None? || expireMinutes.value == 0
  {
    Item(value, now,
      if expireMinutes.Some? && expireMinutes.value != 0 then Some(now + expireMinutes.value * 60 * 1000) else None)
  }

  /** `parsed.expire && now > parsed.expire`: an expiry instant of 0 is falsy and never fires. */
  predicate Expired(item: Item, now: int)
    ensures item.expire.None? ==> !Expired(item, now)
    ensures Expired(item, now) ==> now > item.expire.value
  {
    item.expire.Some? && item.expire.value != 0 && now > item.expire.value
  }

  /** The value `get(key)` returns; null for a missing or expired key. */
  function ReadValue(items: map<string, Item>, key: string, now: int): (v: Value)
    ensures !v.Null? ==> key in items && !Expired(items[key], now) && v == items[key].value
    ensures key in items && !Expired(items[key], now) ==> v == items[key].value
  {
    if key !in items || Expired(items[key], now) then Null else items[key].value
  }

  /** The store after `get(key)`: an expired key is deleted. */
  function AfterRead(items: map<string, Item>, key: string, now: int): (r: map<string, Item>)
    ensures r.Keys <= items.Keys
    ensures forall k :: k in r ==> r[k] == items[k]
    ensures forall k :: k != key ==> (k in r <==> k in items)
    ensures key in r <==> key in items && !Expired(items[key], now)
  {
    if key in items && Expired(items[key], now) then items - {key} else items
  }

  class SecureStorage {
    var items: map<string, Item>

    constructor ()
      ensures items == map[]
    {
      items := map[];
    }

    /** `set(key, value, expireMinutes)`; `writable` is false when
        serialising or storing throws, in which case nothing changes. */
    method Set(key: string, value: Value, expireMinutes: Option<int>, now: int, writable: bool)
      modifies this
      ensures items == if writable then old(items)[key := MakeItem(value, expireMinutes, now)] else old(items)
    {
      if writable {
        items := items[key := MakeItem(value, expireMinutes, now)];
      }
    }

    method Get(key: string, now: int) returns (v: Value)
      modifies this
      ensures v == ReadValue(old(items), key, now)
      ensures items == AfterRead(old(items), key, now)
    {
      if key !in items {
        return Null;
      }
      var item := items[key];
      if Expired(item, now) {
        items := items - {key};
        return Null;
      }
      v := item.value;
    }

    method Remove(key: string)
      modifies this
      ensures items == old(items) - {key}
    {
      items := items - {key};
    }

    method Clear()
      modifies this
      ensures items == map[]
    {
      items := map[];
    }
  }

  /** A value written with a positive lifetime reads back until its expiry
      instant, and afterwards reads as null and is deleted. */
  lemma ReadAfterWrite(items: map<string, Item>, key: string, value: Value, minutes: int, written: int, now: int)
    requires minutes > 0 && written >= 0
    ensures var stored := items[key := MakeItem(value, Some(minutes), written)];
      && (now <= written + minutes * 60000 ==> ReadValue(stored, key, now) == value && AfterRead(stored, key, now) == stored)
      && (now > written + minutes * 60000 ==> ReadValue(stored, key, now) == Null && key !in AfterRead(stored, key, now))
  {
  }

  /** Without a lifetime (absent or 0) a written value never expires. */
  lemma WriteWithoutExpiry(items: map<string, Item>, key: string, value: Value, expireMinutes: Option<int>, written: int, now: int)
    requires expireMinutes.None? || expireMinutes.value == 0
    ensures ReadValue(items[key := MakeItem(value, expireMinutes, written)], key, now) == value
  {
  }
}
