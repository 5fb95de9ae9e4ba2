// The satellite-aware chat panel: prompts carry the live tracking data when
// there is any, quick actions send canned prompts, and a welcome message
// opens an empty conversation.

module SmartSatelliteAssistant {
  import opened Common
  import SatelliteAiService

  /** The tracked satellite's numbers, as the globe reports them. */
  datatype SatelliteData = SatelliteData(name: string, altitude: real, velocity: real, period: real, lat: real, lng: real)

  datatype Role = User | Assistant | System

  datatype MessageKind = Text | Analysis | Suggestion

  datatype Message = Message(role: Role, content: string, timestamp: int, kind: MessageKind)

  /** `Number.prototype.toFixed(digits)`, kept abstract. */
  type Fixed = (real, nat) -> string

  /** The degree sign as the source file spells it. */
  const Degree: string := "\U{00C2}\U{00B0}"
  const DataHeader: string := "\nCurrent ISS Data:\n- Position: "
  const EducatorTail: string :=
    "You are an expert space educator and satellite tracking assistant. Use the current ISS data above to "
    + "provide accurate, educational, and engaging responses. Make complex concepts accessible to learners of all levels.\n\n"
    + "User Question: "
  const PlainLead: string := "Y" + "ou are an expert space educator. The user is asking: "

  const WelcomeBanner: string :=
    "\U{00F0}\U{0178}\U{203A}\U{00B0}\U{00EF}\U{00B8} **Smart Satellite Assistant Active**\n\n"
  const WelcomeTracking: string := "I'm analyzing the ISS in real-time! Currently tracking at "
  const WelcomeInvite: string :=
    "Ask me anything about what you're seeing, or try one of the quick actions below!"

  /** The live-data lines of the contextual prompt, after its header: the
      template's lines, from the position line to the question label. */
  function DataRows(d: SatelliteData, isTracking: bool, fixed: Fixed): seq<string> {
    [fixed(d.lat, 4) + Degree + "N, " + fixed(d.lng, 4) + Degree + "E",
     "- Altitude: " + fixed(d.altitude, 2) + " km",
     "- Velocity: " + fixed(d.velocity, 2) + " km/s",
     "- Orbital Period: " + fixed(d.period, 2) + " minutes",
     "- Tracking Status: " + (if isTracking then "Active" else "Paused"),
     "",
     EducatorTail]
  }

  /** The live-data block: the rows joined by newlines. */
  function DataLines(d: SatelliteData, isTracking: bool, fixed: Fixed): string {
    Join(DataRows(d, isTracking, fixed), "\n")
  }

  /** The data block shows whether tracking is on and ends with the educator
      instruction, just before the question. */
  lemma {:induction false} DataLinesShowTracking(d: SatelliteData, isTracking: bool, fixed: Fixed)
    ensures Contains(DataLines(d, isTracking, fixed), if isTracking then "Active" else "Paused")
    ensures EndsWith(DataLines(d, isTracking, fixed), EducatorTail)
  {
    var rows := DataRows(d, isTracking, fixed);
    var status := if isTracking then "Active" else "Paused";
    var pre, post := JoinHasPart(rows, "\n", 4);
    assert pre + rows[4] + post == (pre + "- Tracking Status: ") + status + post;
    ContainsInfix(pre + "- Tracking Status: ", status, post);
    JoinEndsWithLast(rows, "\n");
  }

  lemma SuffixOfConcat(a: string, b: string)
    ensures (a + b)[|a|..] == b
  {
  }

  lemma StartsWithConcat(a: string, b: string)
    ensures StartsWith(a + b, a)
  {
    assert (a + b)[..|a|] == a;
  }

  lemma DifferentHead(a: string, b: string, x: string)
    requires a != [] && b != [] && a[0] != b[0]
    ensures !StartsWith(a + x, b)
  {
    assert (a + x)[0] == a[0];
  }

  /** `buildContextualPrompt(question)`: the question always reaches the model. */
  function ContextualPrompt(data: Option<SatelliteData>, isTracking: bool, fixed: Fixed, question: string): (r: string)
    ensures Contains(r, question)
  {
    if data.Some? then
      var head := DataHeader + DataLines(data.value, isTracking, fixed);
      ContainsInfix(head, question, "\n");
      assert head + question + "\n" == head + (question + "\n");
      head + (question + "\n")
    else
      ContainsInfix(PlainLead, question, "");
      assert PlainLead + question + "" == PlainLead + question;
      PlainLead + question
  }

  /** The question is the last thing in the prompt: only a newline follows
      it after the data block, and nothing in the plain prompt. */
  lemma PromptEndsWithQuestion(data: Option<SatelliteData>, isTracking: bool, fixed: Fixed, question: string)
    ensures data.Some? ==> EndsWith(ContextualPrompt(data, isTracking, fixed, question), question + "\n")
    ensures data.None? ==> EndsWith(ContextualPrompt(data, isTracking, fixed, question), question)
  {
    if data.Some? {
      SuffixOfConcat(DataHeader + DataLines(data.value, isTracking, fixed), question + "\n");
    } else {
      SuffixOfConcat(PlainLead, question);
    }
  }

  /** The prompt opens with the live-data header exactly when there is satellite data. */
  lemma PromptHasDataIff(data: Option<SatelliteData>, isTracking: bool, fixed: Fixed, question: string)
    ensures StartsWith(ContextualPrompt(data, isTracking, fixed, question), DataHeader) <==> data.Some?
  {
    if data.Some? {
      StartsWithConcat(DataHeader, DataLines(data.value, isTracking, fixed) + question + "\n");
    } else {
      assert PlainLead[0] == 'Y';
      assert DataHeader == "\n" + "Current ISS Data:\n- Position: ";
      DifferentHead(PlainLead, DataHeader, question);
    }
  }

  /** The system message the welcome effect posts. */
  function WelcomeText(d: SatelliteData, fixed: Fixed): (r: string)
    ensures StartsWith(r, WelcomeBanner + WelcomeTracking)
    ensures |r| >= |WelcomeInvite| && r[|r| - |WelcomeInvite|..] == WelcomeInvite
  {
    var head := WelcomeBanner + WelcomeTracking;
    var middle := fixed(d.altitude, 0) + "km altitude, moving at " + fixed(d.velocity, 2) + "km/s.\n\n";
    StartsWithConcat(head, middle + WelcomeInvite);
    SuffixOfConcat(middle, WelcomeInvite);
    SuffixOfConcat(head, middle + WelcomeInvite);
    head + (middle + WelcomeInvite)
  }

  /** A reply to a quick action is tagged as an analysis. */
  function ReplyKind(customPrompt: string): (k: MessageKind)
    ensures k == Analysis <==> customPrompt != ""
  {
    if customPrompt != "" then Analysis else Text
  }

  class SmartAssistant {
    var messages: seq<Message>
    var input: string
    var autoAnalysis: bool

    constructor()
      ensures messages == [] && input == "" && autoAnalysis
    {
      messages, input, autoAnalysis := [], "", true;
    }

    method SetInput(text: string)
      modifies this
      ensures input == text && messages == old(messages) && autoAnalysis == old(autoAnalysis)
    {
      input := text;
    }

    method ToggleAutoAnalysis()
      modifies this
      ensures autoAnalysis == !old(autoAnalysis) && messages == old(messages) && input == old(input)
    {
      autoAnalysis := !autoAnalysis;
    }

    /** The welcome effect, run when the satellite data or the toggle changes. */
    method Welcome(data: Option<SatelliteData>, fixed: Fixed, now: int)
      modifies this
      ensures input == old(input) && autoAnalysis == old(autoAnalysis)
      ensures autoAnalysis && data.Some? && old(messages) == [] ==>
        messages == [Message(System, WelcomeText(data.value, fixed), now, Analysis)]
      ensures !(autoAnalysis && data.Some? && old(messages) == []) ==> messages == old(messages)
    {
      if autoAnalysis && data.Some? && |messages| == 0 {
        messages := [Message(System, WelcomeText(data.value, fixed), now, Analysis)];
      }
    }

    /**
     * `handleSend(customPrompt)`: an empty `customPrompt` is the typed
     * message. `sent` is the prompt handed to the chat call, or `None` when
     * the handler returns early.
     */
    method HandleSend(customPrompt: string, loading: bool, data: Option<SatelliteData>, isTracking: bool,
                      fixed: Fixed, now: int, reply: SatelliteAiService.ChatResult) returns (sent: Option<string>)
      modifies this
      ensures autoAnalysis == old(autoAnalysis)
      ensures IsBlank(OrString(customPrompt, old(input))) || loading ==>
        sent == None && input == old(input) && messages == old(messages)
      ensures !IsBlank(OrString(customPrompt, old(input))) && !loading ==>
        sent == Some(ContextualPrompt(data, isTracking, fixed, OrString(customPrompt, old(input))))
      ensures !IsBlank(OrString(customPrompt, old(input))) && !loading ==>
        input == (if customPrompt != "" then old(input) else "")
      ensures !IsBlank(OrString(customPrompt, old(input))) && !loading && !reply.success ==>
        messages == old(messages) + [Message(User, OrString(customPrompt, old(input)), now, Text)]
      ensures !IsBlank(OrString(customPrompt, old(input))) && !loading && reply.success ==>
        messages == old(messages) + [Message(User, OrString(customPrompt, old(input)), now, Text),
                                     Message(Assistant, reply.content, now, ReplyKind(customPrompt))]
    {
      var text := OrString(customPrompt, input);
      if IsBlank(text) || loading {
        return None;
      }
      sent := Some(ContextualPrompt(data, isTracking, fixed, text));
      var question := Message(User, text, now, Text);
      if customPrompt == "" {
        input := "";
      }
      if reply.success {
        messages := messages + [question, Message(Assistant, reply.content, now, ReplyKind(customPrompt))];
      } else {
        messages := messages + [question];
      }
    }

    /** `clearConversation` */
    method ClearConversation()
      modifies this
      ensures messages == [] && input == old(input) && autoAnalysis == old(autoAnalysis)
    {
      messages := [];
    }
  }
}
