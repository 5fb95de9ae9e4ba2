// The general chat panel: a message log, where the first question of a
// conversation carries the system prompt in front of it.

module WorqhatAiAssistant {
  import opened Common
  import SatelliteAiService

  const DefaultInitialPrompt: string := "You are a helpful space exploration assistant."

  datatype Role = User | Assistant

  datatype Message = Message(role: Role, content: string, timestamp: int)

  /** The question sent for `input`: prefixed with the prompt only when the log is empty. */
  function FullQuestion(initialPrompt: string, log: seq<Message>, input: string): (r: string)
    ensures log == [] ==> r == initialPrompt + "\n\nUser question: " + input
    ensures log != [] ==> r == input
    ensures Contains(r, input)
  {
    if |log| == 0 then
      ContainsInfix(initialPrompt + "\n\nUser question: ", input, "");
      assert initialPrompt + "\n\nUser question: " + input + "" == initialPrompt + "\n\nUser question: " + input;
      initialPrompt + "\n\nUser question: " + input
    else
      ContainsInfix("", input, "");
      assert "" + input + "" == input;
      input
  }

  class AssistantPanel {
    const initialPrompt: string
    var messages: seq<Message>
    var input: string

    constructor(initialPrompt: string)
      ensures this.initialPrompt == initialPrompt && messages == [] && input == ""
    {
      this.initialPrompt := initialPrompt;
      messages, input := [], "";
    }

    method SetInput(text: string)
      modifies this
      ensures input == text && messages == old(messages)
    {
      input := text;
    }

    /**
     * `handleSend` with the chat hook's `loading` flag, the clock `now` and
     * the reply the chat call resolves to; `sent` is the question handed to
     * the chat call, or `None` when the handler returns early.
     */
    method HandleSend(loading: bool, now: int, reply: SatelliteAiService.ChatResult) returns (sent: Option<string>)
      modifies this
      ensures IsBlank(old(input)) || loading ==>
        sent == None && input == old(input) && messages == old(messages)
      ensures !(IsBlank(old(input)) || loading) ==>
        sent == Some(FullQuestion(initialPrompt, old(messages), old(input))) && input == ""
        && messages == old(messages) + [Message(User, old(input), now)]
                       + (if reply.success then [Message(Assistant, reply.content, now)] else [])
    {
      if IsBlank(input) || loading {
        return None;
      }
      var question := FullQuestion(initialPrompt, messages, input);
      messages := messages + [Message(User, input, now)];
      input := "";
      sent := Some(question);
      if reply.success {
        messages := messages + [Message(Assistant, reply.content, now)];
      }
    }
  }
}
