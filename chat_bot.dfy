/**
 * The support chat bot: a transcript that opens with a greeting, a send that records the
 * user's text and waits, and a reply (one of six canned answers, or an apology) that ends
 * the wait. The random draw choosing the answer is a parameter.
 */
module ChatBot {
  import opened Text

  datatype Role = User | Assistant
  datatype Message = Message(role: Role, content: string)

  const Greeting: Message := Message(Assistant, "Hello! I'm here to help you. How can I assist you today?")

  const Apology: string :=
    "I apologize, but I'm having trouble connecting right now. Please try again in a moment, or consider reaching out to a mental health professional if this is urgent."

  const Responses: seq<string> := [
    "I understand you're going through a difficult time. Can you tell me more about what's happening?",
    "Thank you for sharing that with me. It sounds challenging. What kind of support would be most helpful right now?",
    "I'm here to listen and help. Have you been able to talk to anyone else about this situation?",
    "That sounds really tough. Remember that reaching out for help is a sign of strength, not weakness.",
    "I appreciate you trusting me with this. What are some things that usually help you feel better or cope?",
    "It's completely normal to feel overwhelmed sometimes. Let's think about some steps we can take together."
  ]

  /** `Math.floor(draw * responses.length)` for a draw in [0, 1). */
  function MockIndex(draw: real): (i: nat)
    requires 0.0 <= draw < 1.0
    ensures i < |Responses|
    ensures i as real <= draw * 6.0 < i as real + 1.0
  {
    (draw * 6.0).Floor
  }

  /** `getMockResponse`: the canned answer the draw picks; it never looks at the user's text. */
  function GetMockResponse(draw: real): (reply: string)
    requires 0.0 <= draw < 1.0
    ensures reply in Responses
  {
    Responses[MockIndex(draw)]
  }

  /** Every canned answer can be drawn: the draw i/6 picks answer i. */
  lemma EveryResponseReachable(i: nat)
    requires i < |Responses|
    ensures GetMockResponse(i as real / 6.0) == Responses[i]
  {
    assert (i as real / 6.0) * 6.0 == i as real;
  }

  /** How the awaited reply ends: the draw that picks the answer, or a thrown error. */
  datatype ReplyOutcome = Answered(draw: real) | Threw

  /** The message a reply appends. */
  function ReplyContent(outcome: ReplyOutcome): (content: string)
    requires outcome.Answered? ==> 0.0 <= outcome.draw < 1.0
    ensures outcome.Threw? <==> content == Apology
    ensures outcome.Answered? ==> content in Responses
  {
    if outcome.Answered? then GetMockResponse(outcome.draw) else Apology
  }

  /** `handleKeyPress`: Enter without Shift sends. */
  predicate TriggersSend(key: string, shiftKey: bool) {
    key == "Enter" && !shiftKey
  }

  class ChatBot {
    var messages: seq<Message>
    var input: string
    var isLoading: bool

    /**
     * The transcript opens with the greeting, then user and assistant messages alternate, and
     * a reply is awaited exactly when the last message is the user's.
     */
    predicate Valid()
      reads this
    {
      && |messages| >= 1 && messages[0] == Greeting
      && (forall i :: 0 <= i < |messages| ==> messages[i].role == (if i % 2 == 0 then Assistant else User))
      && (isLoading <==> |messages| % 2 == 0)
    }

    constructor ()
      ensures Valid()
      ensures messages == [Greeting] && input == "" && !isLoading
    {
      messages, input, isLoading := [Greeting], "", false;
    }

    /** Typing into the input box (disabled while a reply is awaited). */
    method SetInput(text: string)
      requires !isLoading
      modifies this
      ensures input == text && messages == old(messages) && isLoading == old(isLoading)
    {
      input := text;
    }

    /**
     * The synchronous part of `handleSend`: blank input changes nothing; otherwise the input
     * becomes a user message, the box is cleared and a reply is awaited. Both the box and
     * the send button are disabled while a reply is awaited.
     */
    method HandleSend()
      requires Valid() && !isLoading
      modifies this
      ensures Valid()
      ensures IsBlank(old(input)) ==> messages == old(messages) && input == old(input) && !isLoading
      ensures !IsBlank(old(input)) ==>
        messages == old(messages) + [Message(User, old(input))] && input == "" && isLoading
    {
      if IsBlank(input) {
        return;
      }
      messages := messages + [Message(User, input)];
      input := "";
      isLoading := true;
    }

    /** The rest of `handleSend`: exactly one assistant message is appended and the wait ends. */
    method ReceiveReply(outcome: ReplyOutcome)
      requires Valid() && isLoading
      requires outcome.Answered? ==> 0.0 <= outcome.draw < 1.0
      modifies this
      ensures Valid()
      ensures messages == old(messages) + [Message(Assistant, ReplyContent(outcome))]
      ensures !isLoading && input == old(input)
    {
      messages := messages + [Message(Assistant, ReplyContent(outcome))];
      isLoading := false;
    }

    /** `handleKeyPress`: sends on Enter without Shift, otherwise does nothing. */
    method HandleKeyPress(key: string, shiftKey: bool)
      requires Valid() && !isLoading
      modifies this
      ensures Valid()
      ensures !TriggersSend(key, shiftKey) ==>
        messages == old(messages) && input == old(input) && isLoading == old(isLoading)
      ensures TriggersSend(key, shiftKey) && !IsBlank(old(input)) ==>
        messages == old(messages) + [Message(User, old(input))] && input == "" && isLoading
      ensures TriggersSend(key, shiftKey) && IsBlank(old(input)) ==>
        messages == old(messages) && input == old(input) && !isLoading
    {
      if TriggersSend(key, shiftKey) {
        HandleSend();
      }
    }
  }

  /**
   * The transcript only grows: whatever happens, an earlier transcript is a prefix of a
   * later one, and each send is answered by exactly one reply.
   */
  method SendThenReply(bot: ChatBot, outcome: ReplyOutcome)
    requires bot.Valid() && !bot.isLoading && !IsBlank(bot.input)
    requires outcome.Answered? ==> 0.0 <= outcome.draw < 1.0
    modifies bot
    ensures bot.Valid() && !bot.isLoading
    ensures bot.messages == old(bot.messages) + [Message(User, old(bot.input)), Message(Assistant, ReplyContent(outcome))]
  {
    bot.HandleSend();
    bot.ReceiveReply(outcome);
  }
}
