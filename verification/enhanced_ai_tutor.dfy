// The tutor panel: one question at a time, with a short rolling history of
// question/answer lines sent along as context.

module EnhancedAiTutor {
  import opened Common
  import SatelliteAiService

  const DefaultContext: string :=
    "You are an expert space exploration tutor helping students learn about satellites and orbital mechanics."
  const DefaultInitialMessage: string :=
    "Hello! I'm your AI Space Companion. Ask me anything about satellites, orbits, or space exploration!"
  const ThinkingMessage: string := "Thinking..."
  const SorryMessage: string := "Sorry, I encountered an error. Please try again."
  const PreviousMarker: string := "Previous conversation"

  const Gap: string := "\n\n"
  const HistoryLead: string := ":\n"
  const QuestionLabel: string := "\n\nQuestion: "
  const CurrentQuestionLabel: string := "\n\nCurrent question: "

  /** The prompt `handleAsk` sends for `question`, given the history so far. */
  function FullContext(context: string, history: seq<string>, question: string): (r: string)
    ensures history != [] ==> Contains(r, PreviousMarker)
    ensures Contains(r, question)
    ensures history == [] ==> r == context + QuestionLabel + question
  {
    if |history| > 0 then
      var tail := HistoryLead + Join(history, "\n") + CurrentQuestionLabel;
      ContainsInfix(context + Gap, PreviousMarker, tail + question);
      ContainsInfix(context + Gap + PreviousMarker + tail, question, "");
      assert context + Gap + PreviousMarker + tail + question + "" == context + Gap + PreviousMarker + (tail + question);
      context + Gap + PreviousMarker + (tail + question)
    else
      ContainsInfix(context + QuestionLabel, question, "");
      assert context + QuestionLabel + question + "" == context + QuestionLabel + question;
      context + QuestionLabel + question
  }

  /** The marker alone does not show that there is history: a context that
      already spells it out carries it into a first prompt. */
  lemma MarkerWithoutHistory(question: string)
    ensures Contains(FullContext(PreviousMarker, [], question), PreviousMarker)
  {
    var none: string := [];
    ContainsInfix(none, PreviousMarker, QuestionLabel + question);
    assert none + PreviousMarker + (QuestionLabel + question) == PreviousMarker + QuestionLabel + question;
  }

  /** The history after an answered question: the last four lines kept, then the new pair. */
  function Remember(history: seq<string>, question: string, answer: string): (r: seq<string>)
    ensures |r| == 2 + (if |history| < 4 then |history| else 4)
    ensures |r| >= 2 && r[|r| - 2] == "Q: " + question && r[|r| - 1] == "A: " + answer
    ensures r[..|r| - 2] == history[|history| - (|r| - 2)..]
    ensures |history| <= 4 ==> r == history + ["Q: " + question, "A: " + answer]
  {
    Drop(history, -4) + ["Q: " + question, "A: " + answer]
  }

  class Tutor {
    const context: string
    var message: string
    var userInput: string
    var history: seq<string>

    /** Six lines at most: four earlier lines and the newest exchange. */
    predicate Valid()
      reads this
    {
      |history| <= 6
    }

    constructor(context: string, initialMessage: string)
      ensures Valid() && this.context == context && message == initialMessage && userInput == "" && history == []
    {
      this.context := context;
      message, userInput, history := initialMessage, "", [];
    }

    method SetInput(text: string)
      modifies this
      ensures userInput == text && message == old(message) && history == old(history)
    {
      userInput := text;
    }

    /**
     * `handleAsk` with the chat hook's `loading` flag and the reply the
     * chat call resolves to. `sent` is the prompt handed to the chat call,
     * or `None` when the handler returns early.
     */
    method HandleAsk(loading: bool, reply: SatelliteAiService.ChatResult) returns (sent: Option<string>)
      requires Valid()
      modifies this
      ensures Valid()
      ensures IsBlank(old(userInput)) || loading ==>
        sent == None && userInput == old(userInput) && message == old(message) && history == old(history)
      ensures !(IsBlank(old(userInput)) || loading) ==>
        sent == Some(FullContext(context, old(history), old(userInput))) && userInput == ""
        && (reply.success ==> message == reply.content && history == Remember(old(history), old(userInput), reply.content))
        && (!reply.success ==> message == SorryMessage && history == old(history))
    {
      if IsBlank(userInput) || loading {
        return None;
      }
      var question := userInput;
      userInput := "";
      message := ThinkingMessage;
      sent := Some(FullContext(context, history, question));
      assert sent == Some(FullContext(context, old(history), old(userInput)));
      if reply.success {
        message := reply.content;
        history := Remember(history, question, reply.content);
      } else {
        message := SorryMessage;
      }
    }
  }
}
