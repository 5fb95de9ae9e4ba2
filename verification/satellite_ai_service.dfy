/** The parsing side of the satellite AI service: how a chat completion's
    text becomes insights, facts and a multiple-choice quiz, and the fixed
    recommendation lists. The chat call itself is an input. The regular
    expressions are written out as scanners that follow the backtracking
    order of the JavaScript engine. */
module SatelliteAiService {
  import opened Common
  import opened Patterns

  /** What `getChatCompletion` resolves to. */
  datatype ChatResult = ChatResult(success: bool, content: string, error: Option<string>)

  // ---------------------------------------------------------------------
  // Line clean-up shared by insights and facts

  /** `[0-9•\-\*]`: a character that marks a numbered or bulleted line. */
  predicate IsBulletStart(c: char) {
    IsDigit(c) || c == '•' || c == '-' || c == '*'
  }

  /** `[0-9•\-\*\.\s]`: a character of a list-marker prefix. */
  predicate IsMarkerChar(c: char) {
    IsBulletStart(c) || c == '.' || IsWhitespace(c)
  }

  /** `line.replace(/^[0-9•\-\*\.\s]+/, '')`: drops the leading marker run. */
  function StripMarker(line: string): (r: string)
    ensures |r| <= |line| && r == line[|line| - |r|..]
    ensures r == [] || !IsMarkerChar(r[0])
    ensures forall k :: 0 <= k < |line| - |r| ==> IsMarkerChar(line[k])
  {
    if line != [] && IsMarkerChar(line[0]) then StripMarker(line[1..]) else line
  }

  /** `line.replace(/^[0-9•\-\*\.\s]+/, '').trim()` */
  function Clean(line: string): (r: string)
    ensures r == [] || !IsMarkerChar(r[0])
    ensures |r| <= |line|
  {
    var stripped := StripMarker(line);
    assert stripped != [] ==> TrimStart(stripped) == stripped;
    Trim(stripped)
  }

  /** `content.split('\n').filter(line => line.trim())` */
  function NonBlankLines(content: string): (lines: seq<string>)
    ensures forall l :: l in lines ==> !IsBlank(l)
  {
    Filter(Split(content, '\n'), (l: string) => !IsBlank(l))
  }

  // ---------------------------------------------------------------------
  // Insights (analyzeSatelliteData)

  /** `/^[0-9•\-\*]/.test(line.trim())` */
  predicate IsListLine(line: string) {
    var t := Trim(line);
    t != [] && IsBulletStart(t[0])
  }

  /** `x.length > 10` */
  predicate LongerThan10(x: string) { |x| > 10 }

  /** `x.length > 20` */
  predicate LongerThan20(x: string) { |x| > 20 }

  /** The cleaned bulleted or numbered lines of the reply, in order. */
  function CleanedListLines(content: string): seq<string> {
    Map(Filter(NonBlankLines(content), IsListLine), Clean)
  }

  /** The insights: the cleaned list lines longer than 10 characters, the
      first five. All of them when there are at most five; see
      `InsightsAreFirst` for which five otherwise. */
  function Insights(content: string): (r: seq<string>)
    ensures var n := CountWhere(CleanedListLines(content), LongerThan10);
      |r| == if n < 5 then n else 5
    ensures IsSubsequence(r, CleanedListLines(content))
    ensures forall x :: x in r ==> |x| > 10
    ensures CountWhere(CleanedListLines(content), LongerThan10) <= 5 ==>
      forall x :: x in CleanedListLines(content) && |x| > 10 ==> x in r
  {
    FilterTake(CleanedListLines(content), LongerThan10, 5);
    Take(Filter(CleanedListLines(content), LongerThan10), 5)
  }

  /** No qualifying line is skipped: a cleaned list line longer than 10
      characters with fewer than five such lines before it is an insight. */
  lemma InsightsAreFirst(content: string, i: nat)
    requires i < |CleanedListLines(content)| && |CleanedListLines(content)[i]| > 10
    requires CountWhere(CleanedListLines(content)[..i], LongerThan10) < 5
    ensures CleanedListLines(content)[i] in Insights(content)
  {
    FilterTakeFirst(CleanedListLines(content), LongerThan10, 5, i);
  }

  /** A cleaned line of `lines` came from one of them. */
  lemma CleanedFrom(lines: seq<string>, x: string)
    requires x in Map(lines, Clean)
    ensures exists l :: l in lines && x == Clean(l)
  {
    var i :| 0 <= i < |Map(lines, Clean)| && Map(lines, Clean)[i] == x;
    assert lines[i] in lines;
  }

  /** Every insight is longer than 10 characters, starts with no list
      marker, and is the clean-up of a bulleted or numbered line of the reply. */
  lemma InsightsShape(content: string)
    ensures forall x :: x in Insights(content) ==>
      |x| > 10 && !IsMarkerChar(x[0])
      && exists l :: l in NonBlankLines(content) && IsListLine(l) && x == Clean(l)
  {
    var cleaned := Map(Filter(NonBlankLines(content), IsListLine), Clean);
    var r := Insights(content);
    forall x | x in r
      ensures |x| > 10 && !IsMarkerChar(x[0])
      ensures exists l :: l in NonBlankLines(content) && IsListLine(l) && x == Clean(l)
    {
      assert x in Filter(cleaned, LongerThan10);
      CleanedFrom(Filter(NonBlankLines(content), IsListLine), x);
    }
  }

  /** `SatelliteAnalysisResponse` */
  datatype AnalysisResponse = AnalysisResponse(
    success: bool, analysis: string, insights: seq<string>, recommendations: seq<string>, error: Option<string>)

  /** `analyzeSatelliteData` once the chat call has resolved. */
  function AnalyzeSatelliteData(analysisType: string, chat: ChatResult): (r: AnalysisResponse)
    ensures chat.success ==>
      r.success && r.analysis == chat.content && r.insights == Insights(chat.content)
      && r.recommendations == Recommendations(analysisType)
    ensures !chat.success ==>
      !r.success && r.analysis == "" && r.insights == [] && r.recommendations == [] && r.error == chat.error
  {
    if chat.success then
      AnalysisResponse(true, chat.content, Insights(chat.content), Recommendations(analysisType), None)
    else
      AnalysisResponse(false, "", [], [], chat.error)
  }

  /** `generateRecommendations`: a fixed list of three per analysis type,
      and a default list for any other type. */
  function Recommendations(analysisType: string): (r: seq<string>)
    ensures |r| == 3
    ensures analysisType !in AnalysisTypes ==> r == DefaultRecommendations
  {
    if analysisType == "position" then PositionRecommendations
    else if analysisType == "orbit" then OrbitRecommendations
    else if analysisType == "visibility" then VisibilityRecommendations
    else if analysisType == "educational" then EducationalRecommendations
    else if analysisType == "technical" then TechnicalRecommendations
    else DefaultRecommendations
  }

  const AnalysisTypes: seq<string> := ["position", "orbit", "visibility", "educational", "technical"]

  const PositionRecommendations: seq<string> :=
    ["Check visibility predictions for your location",
     "Use satellite tracking apps for real-time updates",
     "Learn about ground station coverage in this area"]

  const OrbitRecommendations: seq<string> :=
    ["Compare with other satellites in similar orbits",
     "Study orbital mechanics principles",
     "Explore mission requirements for this orbit type"]

  const VisibilityRecommendations: seq<string> :=
    ["Download a satellite tracking app",
     "Check weather conditions for optimal viewing",
     "Join local astronomy groups for viewing events"]

  const EducationalRecommendations: seq<string> :=
    ["Try hands-on orbital mechanics simulations",
     "Read about the satellite's mission and history",
     "Explore related space missions and technologies"]

  const TechnicalRecommendations: seq<string> :=
    ["Calculate orbital parameters using Kepler's laws",
     "Study Two-Line Element (TLE) data format",
     "Explore satellite communication protocols"]

  const DefaultRecommendations: seq<string> :=
    ["Continue exploring satellite tracking", "Learn more about space technology", "Share your interest with others"]

  // ---------------------------------------------------------------------
  // Facts (generateSatelliteFacts)

  /** The cleaned non-blank lines, in order. */
  function CleanedLines(content: string): (r: seq<string>)
    ensures |r| == |NonBlankLines(content)|
    ensures forall x :: x in r ==> x == [] || !IsMarkerChar(x[0])
  {
    Map(NonBlankLines(content), Clean)
  }

  /** The facts: cleaned lines longer than 20 characters, the first `count`
      (`slice(0, count)`, so a negative `count` drops that many from the
      back). All of them when there are at most `count`; see `FactsAreFirst`
      for which ones otherwise. */
  function Facts(content: string, count: int): (r: seq<string>)
    ensures var n := CountWhere(CleanedLines(content), LongerThan20);
      |r| == if count >= 0 then (if n < count then n else count) else (if n + count > 0 then n + count else 0)
    ensures IsSubsequence(r, CleanedLines(content))
    ensures forall x :: x in r ==> |x| > 20
    ensures CountWhere(CleanedLines(content), LongerThan20) <= count ==>
      forall x :: x in CleanedLines(content) && |x| > 20 ==> x in r
  {
    FilterTake(CleanedLines(content), LongerThan20, count);
    Take(Filter(CleanedLines(content), LongerThan20), count)
  }

  /** No qualifying line is skipped: a cleaned line longer than 20 characters
      with fewer than `count` such lines before it is a fact. */
  lemma FactsAreFirst(content: string, count: int, i: nat)
    requires i < |CleanedLines(content)| && |CleanedLines(content)[i]| > 20
    requires CountWhere(CleanedLines(content)[..i], LongerThan20) < count
    ensures CleanedLines(content)[i] in Facts(content, count)
  {
    FilterTakeFirst(CleanedLines(content), LongerThan20, count, i);
  }

  /** Every fact is longer than 20 characters and starts with no list marker. */
  lemma FactsShape(content: string, count: int)
    ensures forall x :: x in Facts(content, count) ==> |x| > 20 && !IsMarkerChar(x[0])
  {
    forall x | x in Facts(content, count)
      ensures |x| > 20 && !IsMarkerChar(x[0])
    {
      assert x in Filter(CleanedLines(content), LongerThan20);
      CleanedFrom(NonBlankLines(content), x);
    }
  }

  datatype FactsResponse = FactsResponse(success: bool, facts: seq<string>, error: Option<string>)

  /** `generateSatelliteFacts` once the chat call has resolved. */
  function GenerateSatelliteFacts(count: int, chat: ChatResult): (r: FactsResponse)
    ensures chat.success ==> r.success && r.facts == Facts(chat.content, count)
    ensures !chat.success ==> !r.success && r.facts == [] && r.error == chat.error
  {
    if chat.success then FactsResponse(true, Facts(chat.content, count), None)
    else FactsResponse(false, [], chat.error)
  }

  // ---------------------------------------------------------------------
  // Quiz (generateSatelliteQuiz)

  /** The line terminators, which `.` does not match without the `s` flag. */
  predicate IsLineTerminator(c: char) {
    c == '\n' || c == '\r' || c == '\U{2028}' || c == '\U{2029}'
  }

  predicate IsOptionLetter(c: char) {
    'A' <= c <= 'D'
  }

  /** `w` occurs in `s` at position `p`. */
  predicate HasAt(s: string, p: nat, w: string) {
    p + |w| <= |s| && forall k :: 0 <= k < |w| ==> s[p + k] == w[k]
  }

  /** `[A-D]\)` at position `i`. */
  predicate OptionHeadAt(s: string, i: nat) {
    i + 1 < |s| && IsOptionLetter(s[i]) && s[i + 1] == ')'
  }

  /** The length of the white-space run starting at `j` (what a greedy `\s*` takes). */
  function WsRun(s: string, j: nat): (n: nat)
    requires j <= |s|
    ensures j + n <= |s|
    ensures forall k :: j <= k < j + n ==> IsWhitespace(s[k])
    ensures j + n == |s| || !IsWhitespace(s[j + n])
    decreases |s| - j
  {
    if j < |s| && IsWhitespace(s[j]) then 1 + WsRun(s, j + 1) else 0
  }

  /** The options pattern's lookahead `(?=\n[A-D]\)|CORRECT:|$)`. Without
      the `m` flag `$` is the end of the input only; `multiline` gives it
      the `m` meaning as well (also before a line terminator). */
  predicate OptionLook(s: string, p: nat, multiline: bool) {
    || (p < |s| && s[p] == '\n' && OptionHeadAt(s, p + 1))
    || HasAt(s, p, "CORRECT:")
    || p == |s|
    || (multiline && p < |s| && IsLineTerminator(s[p]))
  }

  /** A lazy `.+?` that has consumed up to `p`: the first end at or after
      `p` where the lookahead holds, not crossing a line terminator. */
  function LazyLineEnd(s: string, p: nat, multiline: bool): (r: Option<nat>)
    requires p <= |s|
    ensures r.Some? ==> p <= r.value <= |s| && OptionLook(s, r.value, multiline)
    ensures r.Some? ==> forall k :: p <= k < r.value ==> !IsLineTerminator(s[k])
    decreases |s| - p
  {
    if OptionLook(s, p, multiline) then Some(p)
    else if p < |s| && !IsLineTerminator(s[p]) then LazyLineEnd(s, p + 1, multiline)
    else None
  }

  /** `\s*.+?(?=…)` from `j`, trying the white-space run at length `k`,
      then shorter, as the backtracking engine does. */
  function OptionBodyEnd(s: string, j: nat, k: nat, multiline: bool): (r: Option<nat>)
    requires j + k <= |s|
    ensures r.Some? ==> j < r.value <= |s|
    decreases k
  {
    var b := j + k;
    var r := if b < |s| && !IsLineTerminator(s[b]) then LazyLineEnd(s, b + 1, multiline) else None;
    if r.Some? then r
    else if k == 0 then None
    else OptionBodyEnd(s, j, k - 1, multiline)
  }

  /** The end of a match of `[A-D]\)\s*.+?(?=…)` starting at `i`, if any. */
  function OptionMatchAt(s: string, i: nat, multiline: bool): (r: Option<nat>)
    ensures r.Some? ==> i + 2 < r.value <= |s| && OptionHeadAt(s, i)
  {
    if OptionHeadAt(s, i) then OptionBodyEnd(s, i + 2, WsRun(s, i + 2), multiline) else None
  }

  /** `s.match(/([A-D]\)\s*.+?)(?=\n[A-D]\)|CORRECT:|$)/g)` from position `i`:
      all matches, left to right, each search resuming where the last
      match ended. */
  function OptionMatches(s: string, i: nat, multiline: bool): (r: seq<string>)
    ensures forall x :: x in r ==> |x| > 2 && IsOptionLetter(x[0]) && x[1] == ')'
    decreases |s| - i
  {
    if i >= |s| then []
    else
      match OptionMatchAt(s, i, multiline)
      case Some(e) => [s[i..e]] + OptionMatches(s, e, multiline)
      case None => OptionMatches(s, i + 1, multiline)
  }

  /** A lazy `.+?` under the `s` flag, up to the first `\n[A-D]\)`. */
  function LazyAnyEnd(s: string, p: nat): (r: Option<nat>)
    requires p <= |s|
    ensures r.Some? ==> p <= r.value < |s|
    decreases |s| - p
  {
    if p < |s| && s[p] == '\n' && OptionHeadAt(s, p + 1) then Some(p)
    else if p < |s| then LazyAnyEnd(s, p + 1)
    else None
  }

  /** The capture of `\s*(.+?)(?=\n[A-D]\))` from `a`, trying the white-space
      run at length `k`, then shorter. */
  function QuestionBody(s: string, a: nat, k: nat): (r: Option<string>)
    requires a + k <= |s|
    ensures r.Some? ==> r.value != []
    decreases k
  {
    var b := a + k;
    var e := if b < |s| then LazyAnyEnd(s, b + 1) else None;
    if e.Some? then Some(s[b..e.value])
    else if k == 0 then None
    else QuestionBody(s, a, k - 1)
  }

  /** The capture group of `/QUESTION:\s*(.+?)(?=\n[A-D]\))/s`, searched from `i`. */
  function QuestionMatch(s: string, i: nat): (r: Option<string>)
    ensures r.Some? ==> r.value != [] && exists j :: i <= j < |s| && HasAt(s, j, "QUESTION:")
    decreases |s| - i
  {
    if i >= |s| then None
    else if HasAt(s, i, "QUESTION:") && QuestionBody(s, i + 9, WsRun(s, i + 9)).Some? then
      QuestionBody(s, i + 9, WsRun(s, i + 9))
    else QuestionMatch(s, i + 1)
  }

  /** The capture group of `/CORRECT:\s*([A-D])/`, searched from `i`; a
      shorter `\s*` leaves a white-space character before the letter
      position, so only the greedy run can succeed. */
  function CorrectMatch(s: string, i: nat): (r: Option<char>)
    ensures r.Some? ==> IsOptionLetter(r.value)
    decreases |s| - i
  {
    if i >= |s| then None
    else if HasAt(s, i, "CORRECT:") && i + 8 + WsRun(s, i + 8) < |s| && IsOptionLetter(s[i + 8 + WsRun(s, i + 8)]) then
      Some(s[i + 8 + WsRun(s, i + 8)])
    else CorrectMatch(s, i + 1)
  }

  /** The capture group of `/EXPLANATION:\s*(.+?)$/s`, searched from `i`:
      everything after the white space, or the last character when only
      white space follows. */
  function ExplanationMatch(s: string, i: nat): (r: Option<string>)
    ensures r.Some? ==> r.value != [] && exists j :: i <= j < |s| && HasAt(s, j, "EXPLANATION:")
    decreases |s| - i
  {
    if i >= |s| then None
    else if HasAt(s, i, "EXPLANATION:") && i + 12 < |s| then
      var a := i + 12;
      var w := WsRun(s, a);
      if a + w < |s| then Some(s[a + w..]) else Some(s[|s| - 1..])
    else ExplanationMatch(s, i + 1)
  }

  /** `opt.replace(/^[A-D]\)\s*\/, '').trim()` */
  function OptionText(opt: string): string {
    if |opt| >= 2 && IsOptionLetter(opt[0]) && opt[1] == ')' then
      Trim(opt[2 + WsRun(opt, 2)..])
    else Trim(opt)
  }

  datatype QuizResponse = QuizResponse(
    success: bool, question: string, options: seq<string>, correctAnswer: int, explanation: string, error: Option<string>)

  const ParseFailure: string := "Failed to parse quiz question format"

  function QuizFailure(): (r: QuizResponse)
    ensures !r.success && r.error == Some(ParseFailure)
    ensures r.question == "" && r.options == [] && r.explanation == ""
  {
    QuizResponse(false, "", [], 0, "", Some(ParseFailure))
  }

  /** The parse of a quiz reply, with the options pattern's `$` read as
      written (`multiline` false) or with the `m` flag (`multiline` true). */
  function ParseQuiz(content: string, multiline: bool): (r: QuizResponse)
    ensures r.success ==> 0 <= r.correctAnswer <= 3
    ensures r.success <==>
      && QuestionMatch(content, 0).Some?
      && OptionMatches(content, 0, multiline) != []
      && CorrectMatch(content, 0).Some?
      && ExplanationMatch(content, 0).Some?
    ensures r.success ==> r.correctAnswer == CorrectMatch(content, 0).value as int - 'A' as int
    ensures r.success ==> |r.options| == |OptionMatches(content, 0, multiline)|
    ensures !r.success ==> r == QuizFailure()
  {
    var q := QuestionMatch(content, 0);
    var opts := OptionMatches(content, 0, multiline);
    var c := CorrectMatch(content, 0);
    var e := ExplanationMatch(content, 0);
    if q.Some? && opts != [] && c.Some? && e.Some? then
      QuizResponse(true, Trim(q.value), Map(opts, OptionText), c.value as int - 'A' as int, Trim(e.value), None)
    else QuizFailure()
  }

  /** `generateSatelliteQuiz` once the chat call has resolved, as written:
      a failed call falls through to the parse-failure result. */
  function GenerateSatelliteQuizAsWritten(chat: ChatResult): (r: QuizResponse)
    ensures !chat.success ==> r == QuizFailure()
    ensures r.success ==> 0 <= r.correctAnswer <= 3
  {
    if chat.success then ParseQuiz(chat.content, false) else QuizFailure()
  }

  /** `generateSatelliteQuiz` with the options pattern's `$` matching at
      line ends, so the last option before `CORRECT:` is captured. */
  function GenerateSatelliteQuiz(chat: ChatResult): (r: QuizResponse)
    ensures !chat.success ==> r == QuizFailure()
    ensures r.success ==> 0 <= r.correctAnswer <= 3
  {
    if chat.success then ParseQuiz(chat.content, true) else QuizFailure()
  }


  // ---------------------------------------------------------------------
  // Scanning a reply in the requested format

  /** No `)` in `(i, j]`, so no option head starts in `[i, j)`. */
  predicate NoOptionHead(s: string, i: nat, j: nat)
    requires i <= j < |s|
    decreases j - i
  {
    i == j || (s[i + 1] != ')' && NoOptionHead(s, i + 1, j))
  }

  lemma {:induction false} NoOptionHeadFrom(s: string, i: nat, j: nat)
    requires i <= j < |s| && forall k :: i < k <= j ==> s[k] != ')'
    ensures NoOptionHead(s, i, j)
    decreases j - i
  {
    if i < j {
      NoOptionHeadFrom(s, i + 1, j);
    }
  }

  /** The global search skips a stretch with no option head in it. */
  lemma {:induction false} OptionMatchesSkip(s: string, i: nat, j: nat, multiline: bool)
    requires i <= j < |s| && NoOptionHead(s, i, j)
    ensures OptionMatches(s, i, multiline) == OptionMatches(s, j, multiline)
    decreases j - i
  {
    if i < j {
      OptionMatchesSkip(s, i + 1, j, multiline);
    }
  }

  /** The keyword `w` starts nowhere in `[i, j)`. */
  predicate NoKeyword(s: string, i: nat, j: nat, w: string)
    requires i <= j
    decreases j - i
  {
    i == j || (!HasAt(s, i, w) && NoKeyword(s, i + 1, j, w))
  }

  lemma {:induction false} NoKeywordFrom(s: string, i: nat, j: nat, w: string)
    requires i <= j && forall k :: i <= k < j ==> !HasAt(s, k, w)
    ensures NoKeyword(s, i, j, w)
    decreases j - i
  {
    if i < j {
      NoKeywordFrom(s, i + 1, j, w);
    }
  }

  /** The first-match searches for `CORRECT:` and `EXPLANATION:` skip a
      stretch where the keyword does not occur. */
  lemma {:induction false} CorrectMatchSkip(s: string, i: nat, j: nat)
    requires i <= j <= |s| && NoKeyword(s, i, j, "CORRECT:")
    ensures CorrectMatch(s, i) == CorrectMatch(s, j)
    decreases j - i
  {
    if i < j {
      CorrectMatchSkip(s, i + 1, j);
    }
  }

  lemma {:induction false} ExplanationMatchSkip(s: string, i: nat, j: nat)
    requires i <= j <= |s| && NoKeyword(s, i, j, "EXPLANATION:")
    ensures ExplanationMatch(s, i) == ExplanationMatch(s, j)
    decreases j - i
  {
    if i < j {
      ExplanationMatchSkip(s, i + 1, j);
    }
  }

  /** `X) y` with one space and a one-character text ends at position
      `i + 4`. */
  predicate ShortOptionAt(s: string, i: nat) {
    && i + 4 < |s| && OptionHeadAt(s, i) && s[i + 2] == ' '
    && !IsWhitespace(s[i + 3]) && !IsLineTerminator(s[i + 3]) && s[i + 3] != 'C'
    && s[i + 4] == '\n'
  }

  /** A short option followed by the next option's head is matched up to
      the newline, with or without the `m` flag. */
  lemma ShortOptionBeforeHead(s: string, i: nat, multiline: bool)
    requires ShortOptionAt(s, i) && OptionHeadAt(s, i + 5)
    ensures OptionMatchAt(s, i, multiline) == Some(i + 4)
  {
    assert WsRun(s, i + 3) == 0;
    assert WsRun(s, i + 2) == 1;
    assert LazyLineEnd(s, i + 4, multiline) == Some(i + 4);
  }

  /** A short option followed by a newline and no option head: with the
      `m` flag it ends at the newline, without it there is no match. */
  lemma ShortOptionAtLineEnd(s: string, i: nat, multiline: bool)
    requires ShortOptionAt(s, i) && !OptionHeadAt(s, i + 5)
    ensures OptionMatchAt(s, i, multiline) == if multiline then Some(i + 4) else None
  {
    assert WsRun(s, i + 3) == 0;
    assert WsRun(s, i + 2) == 1;
    assert !HasAt(s, i + 4, "CORRECT:") by { assert s[i + 4 + 0] != "CORRECT:"[0]; }
    assert !HasAt(s, i + 3, "CORRECT:") by { assert s[i + 3 + 0] != "CORRECT:"[0]; }
    assert LazyLineEnd(s, i + 4, multiline) == if multiline then Some(i + 4) else None;
    if !multiline {
      assert LazyLineEnd(s, i + 3, multiline) == None;
    }
  }

  /** A short option followed by another option: the search returns it
      and carries on at the next head. */
  lemma ShortOptionThenNext(s: string, i: nat, multiline: bool)
    requires ShortOptionAt(s, i) && OptionHeadAt(s, i + 5)
    ensures OptionMatches(s, i, multiline) == [s[i..i + 4]] + OptionMatches(s, i + 5, multiline)
  {
    ShortOptionBeforeHead(s, i, multiline);
    OptionMatchesSkip(s, i + 4, i + 5, multiline);
  }

  /** The last short option of a reply with no `)` after it: only the `m`
      flag lets the search return it. */
  lemma ShortOptionLast(s: string, i: nat, multiline: bool)
    requires ShortOptionAt(s, i) && !OptionHeadAt(s, i + 5) && NoOptionHead(s, i + 1, |s| - 1)
    ensures OptionMatches(s, i, multiline) == if multiline then [s[i..i + 4]] else []
  {
    ShortOptionAtLineEnd(s, i, multiline);
    assert OptionMatches(s, |s| - 1, multiline) == [];
    if multiline {
      assert NoOptionHead(s, i + 2, |s| - 1);
      assert NoOptionHead(s, i + 3, |s| - 1);
      OptionMatchesSkip(s, i + 4, |s| - 1, multiline);
    } else {
      OptionMatchesSkip(s, i + 1, |s| - 1, multiline);
    }
  }

  /** The text of a short option is its one character. */
  lemma ShortOptionText(s: string, i: nat, c: char)
    requires ShortOptionAt(s, i) && s[i + 3] == c
    ensures OptionText(s[i..i + 4]) == [c]
  {
    var opt := s[i..i + 4];
    assert WsRun(opt, 3) == 0;
    assert WsRun(opt, 2) == 1;
    assert opt[3..] == [s[i + 3]];
  }

  lemma ListOfThree(a: string, b: string, c: string)
    ensures [a] + ([b] + ([c] + [])) == [a, b, c]
  {
  }

  lemma ListOfFour(a: string, b: string, c: string, d: string)
    ensures [a] + ([b] + ([c] + [d])) == [a, b, c, d]
  {
  }

  /** `Map` over a list of three and of four. */
  lemma MapOfThree<A, B>(f: A -> B, x0: A, x1: A, x2: A)
    ensures Map([x0, x1, x2], f) == [f(x0), f(x1), f(x2)]
  {
  }

  lemma MapOfFour<A, B>(f: A -> B, x0: A, x1: A, x2: A, x3: A)
    ensures Map([x0, x1, x2, x3], f) == [f(x0), f(x1), f(x2), f(x3)]
  {
  }

  // ---------------------------------------------------------------------
  // The reply the prompt asks for

  /** A reply in exactly the format the prompt asks for, with D correct. */
  const CanonicalReply: string :=
    "QUESTION: Q?\n" + "A) a\n" + "B) b\n" + "C) c\n" + "D) d\n" + "CORRECT: D\n" + "EXPLANATION: E"

  /** The layout of `CanonicalReply`, part by part: what each scanner
      looks at. */
  predicate QuestionLayout(s: string) {
    && |s| == 58 && HasAt(s, 0, "QUESTION:")
    && s[9] == ' ' && s[10] == 'Q' && s[11] == '?' && s[12] == '\n' && OptionHeadAt(s, 13)
  }

  predicate OptionsLayout(s: string) {
    && |s| == 58 && NoOptionHead(s, 0, 13)
    && ShortOptionAt(s, 13) && ShortOptionAt(s, 18) && ShortOptionAt(s, 23) && ShortOptionAt(s, 28)
    && s[16] == 'a' && s[21] == 'b' && s[26] == 'c' && s[31] == 'd'
    && !OptionHeadAt(s, 33) && NoOptionHead(s, 29, 57)
  }

  predicate CorrectLayout(s: string) {
    |s| == 58 && NoKeyword(s, 0, 33, "CORRECT:") && HasAt(s, 33, "CORRECT:") && s[41] == ' ' && s[42] == 'D'
  }

  predicate ExplanationLayout(s: string) {
    |s| == 58 && NoKeyword(s, 0, 44, "EXPLANATION:") && HasAt(s, 44, "EXPLANATION:") && s[56] == ' ' && s[57] == 'E'
  }

  predicate CanonicalLayout(s: string) {
    QuestionLayout(s) && OptionsLayout(s) && CorrectLayout(s) && ExplanationLayout(s)
  }

  lemma CanonicalReplyParens()
    ensures |CanonicalReply| == 58
    ensures forall k :: 0 <= k < 58 && CanonicalReply[k] == ')' ==> k in {14, 19, 24, 29}
  {
    forall k | 0 <= k < 58 && CanonicalReply[k] == ')'
      ensures k in {14, 19, 24, 29}
    {
      assert k in {0, 1, 2, 3, 4, 5, 6, 7, 8, 9, 10, 11, 12, 13, 14, 15, 16, 17, 18, 19, 20, 21, 22, 23, 24, 25, 26, 27, 28, 29, 30, 31, 32, 33, 34, 35, 36, 37, 38, 39, 40, 41, 42, 43, 44, 45, 46, 47, 48, 49, 50, 51, 52, 53, 54, 55, 56, 57};
    }
  }

  lemma CanonicalReplyCs()
    ensures |CanonicalReply| == 58
    ensures forall k :: 0 <= k < 58 && CanonicalReply[k] == 'C' ==> k in {23, 33, 38}
  {
    forall k | 0 <= k < 58 && CanonicalReply[k] == 'C'
      ensures k in {23, 33, 38}
    {
      assert k in {0, 1, 2, 3, 4, 5, 6, 7, 8, 9, 10, 11, 12, 13, 14, 15, 16, 17, 18, 19, 20, 21, 22, 23, 24, 25, 26, 27, 28, 29, 30, 31, 32, 33, 34, 35, 36, 37, 38, 39, 40, 41, 42, 43, 44, 45, 46, 47, 48, 49, 50, 51, 52, 53, 54, 55, 56, 57};
    }
  }

  lemma CanonicalReplyEs()
    ensures |CanonicalReply| == 58
    ensures forall k :: 0 <= k < 58 && CanonicalReply[k] == 'E' ==> k in {2, 37, 44, 57}
  {
    forall k | 0 <= k < 58 && CanonicalReply[k] == 'E'
      ensures k in {2, 37, 44, 57}
    {
      assert k in {0, 1, 2, 3, 4, 5, 6, 7, 8, 9, 10, 11, 12, 13, 14, 15, 16, 17, 18, 19, 20, 21, 22, 23, 24, 25, 26, 27, 28, 29, 30, 31, 32, 33, 34, 35, 36, 37, 38, 39, 40, 41, 42, 43, 44, 45, 46, 47, 48, 49, 50, 51, 52, 53, 54, 55, 56, 57};
    }
  }

  lemma CanonicalReplyKeywords()
    ensures |CanonicalReply| == 58
    ensures HasAt(CanonicalReply, 0, "QUESTION:") && HasAt(CanonicalReply, 33, "CORRECT:")
    ensures HasAt(CanonicalReply, 44, "EXPLANATION:")
  {
  }

  lemma CanonicalReplyOptions()
    ensures |CanonicalReply| == 58
    ensures ShortOptionAt(CanonicalReply, 13) && ShortOptionAt(CanonicalReply, 18)
    ensures ShortOptionAt(CanonicalReply, 23) && ShortOptionAt(CanonicalReply, 28)
    ensures !OptionHeadAt(CanonicalReply, 33)
  {
  }

  lemma CanonicalReplyChars()
    ensures |CanonicalReply| == 58
    ensures CanonicalReply[3] == 'S' && CanonicalReply[24] == ')' && CanonicalReply[38] == 'C'
    ensures CanonicalReply[9] == ' ' && CanonicalReply[10] == 'Q' && CanonicalReply[11] == '?' && CanonicalReply[12] == '\n'
    ensures CanonicalReply[16] == 'a' && CanonicalReply[21] == 'b' && CanonicalReply[26] == 'c' && CanonicalReply[31] == 'd'
    ensures CanonicalReply[41] == ' ' && CanonicalReply[42] == 'D' && CanonicalReply[56] == ' ' && CanonicalReply[57] == 'E'
  {
  }

  /** Where `C` and `E` occur only where the keyword text puts them, the
      keywords occur nowhere before their lines. */
  lemma KeywordsFirstAt(s: string)
    requires |s| == 58 && s[3] == 'S' && s[24] == ')' && s[38] == 'C'
    requires forall k :: 0 <= k < 58 && s[k] == 'C' ==> k in {23, 33, 38}
    requires forall k :: 0 <= k < 58 && s[k] == 'E' ==> k in {2, 37, 44, 57}
    ensures NoKeyword(s, 0, 33, "CORRECT:") && NoKeyword(s, 0, 44, "EXPLANATION:")
  {
    forall k | 0 <= k < 33
      ensures !HasAt(s, k, "CORRECT:")
    {
      if s[k] == 'C' {
        assert s[k + 1] != "CORRECT:"[1];
      } else {
        assert s[k + 0] != "CORRECT:"[0];
      }
    }
    forall k | 0 <= k < 44
      ensures !HasAt(s, k, "EXPLANATION:")
    {
      if s[k] == 'E' {
        assert s[k + 1] != "EXPLANATION:"[1];
      } else {
        assert s[k + 0] != "EXPLANATION:"[0];
      }
    }
    NoKeywordFrom(s, 0, 33, "CORRECT:");
    NoKeywordFrom(s, 0, 44, "EXPLANATION:");
  }

  /** `CanonicalReply` has the layout the scanners are proved against. */
  lemma CanonicalReplyLayout()
    ensures CanonicalLayout(CanonicalReply)
  {
    var s := CanonicalReply;
    CanonicalReplyParens();
    NoOptionHeadFrom(s, 0, 13);
    NoOptionHeadFrom(s, 29, 57);
    CanonicalReplyCs();
    CanonicalReplyEs();
    CanonicalReplyChars();
    KeywordsFirstAt(s);
    CanonicalReplyKeywords();
    CanonicalReplyOptions();
  }

  /** The options from D's head on: D only with the `m` flag. */
  lemma OptionsFromD(s: string, multiline: bool)
    requires OptionsLayout(s)
    ensures OptionMatches(s, 28, multiline) == if multiline then [s[28..32]] else []
  {
    ShortOptionLast(s, 28, multiline);
  }

  lemma OptionsFromC(s: string, multiline: bool)
    requires OptionsLayout(s)
    ensures OptionMatches(s, 23, multiline) == [s[23..27]] + (if multiline then [s[28..32]] else [])
  {
    ShortOptionThenNext(s, 23, multiline);
    OptionsFromD(s, multiline);
  }

  lemma OptionsFromB(s: string, multiline: bool)
    requires OptionsLayout(s)
    ensures OptionMatches(s, 18, multiline) == [s[18..22]] + ([s[23..27]] + (if multiline then [s[28..32]] else []))
  {
    ShortOptionThenNext(s, 18, multiline);
    OptionsFromC(s, multiline);
  }

  /** On this layout the options search finds A to C, each ending at the
      newline before the next head; D, followed by a newline and
      `CORRECT:`, is found only when `$` matches at line ends. */
  lemma LayoutOptions(s: string, multiline: bool)
    requires OptionsLayout(s)
    ensures OptionMatches(s, 0, multiline)
      == [s[13..17]] + ([s[18..22]] + ([s[23..27]] + (if multiline then [s[28..32]] else [])))
  {
    OptionMatchesSkip(s, 0, 13, multiline);
    ShortOptionThenNext(s, 13, multiline);
    OptionsFromB(s, multiline);
  }

  /** With the `m` flag the option texts are the four one-letter answers. */
  lemma LayoutFourTexts(s: string)
    requires OptionsLayout(s)
    ensures Map(OptionMatches(s, 0, true), OptionText) == ["a", "b", "c", "d"]
  {
    LayoutOptions(s, true);
    ListOfFour(s[13..17], s[18..22], s[23..27], s[28..32]);
    ShortOptionText(s, 13, 'a');
    ShortOptionText(s, 18, 'b');
    ShortOptionText(s, 23, 'c');
    ShortOptionText(s, 28, 'd');
    MapOfFour(OptionText, s[13..17], s[18..22], s[23..27], s[28..32]);
  }

  /** Without it they are the first three. */
  lemma LayoutThreeTexts(s: string)
    requires OptionsLayout(s)
    ensures Map(OptionMatches(s, 0, false), OptionText) == ["a", "b", "c"]
  {
    LayoutOptions(s, false);
    ListOfThree(s[13..17], s[18..22], s[23..27]);
    ShortOptionText(s, 13, 'a');
    ShortOptionText(s, 18, 'b');
    ShortOptionText(s, 23, 'c');
    MapOfThree(OptionText, s[13..17], s[18..22], s[23..27]);
  }

  /** The option texts on this layout are the one-letter answers, the
      last only with the `m` flag. */
  lemma LayoutOptionTexts(s: string, multiline: bool)
    requires OptionsLayout(s)
    ensures multiline ==> Map(OptionMatches(s, 0, multiline), OptionText) == ["a", "b", "c", "d"]
    ensures !multiline ==> Map(OptionMatches(s, 0, multiline), OptionText) == ["a", "b", "c"]
  {
    if multiline {
      LayoutFourTexts(s);
    } else {
      LayoutThreeTexts(s);
    }
  }

  lemma LayoutQuestion(s: string)
    requires QuestionLayout(s)
    ensures QuestionMatch(s, 0).Some? && Trim(QuestionMatch(s, 0).value) == "Q?"
  {
    assert WsRun(s, 10) == 0;
    assert WsRun(s, 9) == 1;
    assert LazyAnyEnd(s, 12) == Some(12);
    assert LazyAnyEnd(s, 11) == Some(12);
    assert s[10..12] == [s[10], s[11]];
    assert TrimEnd("Q?") == "Q?";
  }

  lemma LayoutCorrect(s: string)
    requires CorrectLayout(s)
    ensures CorrectMatch(s, 0) == Some('D')
  {
    CorrectMatchSkip(s, 0, 33);
    assert WsRun(s, 42) == 0;
    assert WsRun(s, 41) == 1;
  }

  lemma LayoutExplanation(s: string)
    requires ExplanationLayout(s)
    ensures ExplanationMatch(s, 0).Some? && Trim(ExplanationMatch(s, 0).value) == "E"
  {
    ExplanationMatchSkip(s, 0, 44);
    assert WsRun(s, 57) == 0;
    assert WsRun(s, 56) == 1;
    assert s[57..] == [s[57]];
    assert TrimEnd("E") == "E";
  }

  /** The parse of a reply with this layout: the question, the options A
      to C (and D only with the `m` flag), D as the answer, the explanation. */
  lemma LayoutParse(s: string, multiline: bool)
    requires CanonicalLayout(s)
    ensures multiline ==> ParseQuiz(s, multiline) == QuizResponse(true, "Q?", ["a", "b", "c", "d"], 3, "E", None)
    ensures !multiline ==> ParseQuiz(s, multiline) == QuizResponse(true, "Q?", ["a", "b", "c"], 3, "E", None)
  {
    LayoutQuestion(s);
    LayoutOptionTexts(s, multiline);
    LayoutCorrect(s);
    LayoutExplanation(s);
  }

  /** As written, a reply in the requested format with D correct yields
      three options and the answer index 3: no option carries the answer. */
  lemma QuizAsWrittenLosesLastOption()
    ensures GenerateSatelliteQuizAsWritten(ChatResult(true, CanonicalReply, None)).success
    ensures |GenerateSatelliteQuizAsWritten(ChatResult(true, CanonicalReply, None)).options| == 3
    ensures GenerateSatelliteQuizAsWritten(ChatResult(true, CanonicalReply, None)).correctAnswer == 3
  {
    CanonicalReplyLayout();
    LayoutParse(CanonicalReply, false);
  }

  /** With `$` matching at line ends, the same reply yields all four
      options and the answer indexes one of them. */
  lemma QuizKeepsEveryOption()
    ensures GenerateSatelliteQuiz(ChatResult(true, CanonicalReply, None)).options == ["a", "b", "c", "d"]
    ensures GenerateSatelliteQuiz(ChatResult(true, CanonicalReply, None)).correctAnswer == 3
  {
    CanonicalReplyLayout();
    LayoutParse(CanonicalReply, true);
  }
}
