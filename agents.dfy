/**
 * The conversation agent that negotiates with one supplier (agents.py).
 *
 * The agent is an object whose `messages` history grows in place; the call to the
 * completion service is replaced by its outcome, given as a parameter.
 */
module Agents {
  import opened Wrappers

  /** A stored conversation turn (agents.py:5-8). */
  datatype Message = Message(role: string, content: string, timestamp: Option<string>)

  /** One `{"role": ..., "content": ...}` entry of the `messages` list sent to the model. */
  datatype Turn = Turn(role: string, content: string)

  /** The outcome of the completion call: the reply text, or the text of the exception it raised. */
  datatype Completion = Replied(reply: string) | Raised(error: string)

  /** Prefix of the degraded reply returned when the completion call raises (agents.py:58). */
  const UnavailablePrefix: string := "Bedrock service is currently unavailable. "

  /** The role and content of every stored message, in order. */
  function TurnsOf(messages: seq<Message>): (turns: seq<Turn>)
    ensures |turns| == |messages|
    ensures forall i :: 0 <= i < |messages| ==>
              turns[i] == Turn(messages[i].role, messages[i].content)
  {
    seq(|messages|, i requires 0 <= i < |messages| => Turn(messages[i].role, messages[i].content))
  }

  /**
   * The conversation handed to the completion service: the system prompt first when it is
   * non-empty (Python truthiness of a `str`), then the history verbatim.
   */
  function Conversation(sysPrompt: string, messages: seq<Message>): seq<Turn>
  {
    (if sysPrompt != "" then [Turn("system", sysPrompt)] else []) + TurnsOf(messages)
  }

  /** The length of the conversation, where the system turn is, and that the rest mirrors the history. */
  lemma ConversationShape(sysPrompt: string, messages: seq<Message>)
    ensures var c := Conversation(sysPrompt, messages);
      var offset := if sysPrompt != "" then 1 else 0;
      && |c| == |messages| + offset
      && (sysPrompt != "" <==> (|c| > |messages| && c[0] == Turn("system", sysPrompt)))
      && forall i :: 0 <= i < |messages| ==>
           c[offset + i] == Turn(messages[i].role, messages[i].content)
  {
  }

  class NegotiationAgent {
    const sysPrompt: string
    const insights: string
    const product: string
    /** The conversation history, oldest first. */
    var messages: seq<Message>

    /**
     * The state `__init__` sets up: the three texts and an empty history. The store query it
     * issues has its result discarded, so it is not modelled.
     */
    constructor (sysPrompt: string, insights: string, product: string)
      ensures this.sysPrompt == sysPrompt && this.insights == insights && this.product == product
      ensures messages == []
    {
      this.sysPrompt := sysPrompt;
      this.insights := insights;
      this.product := product;
      messages := [];
    }

    /** `_build_conversation`: the system turn, if any, then one turn per stored message. */
    method BuildConversation() returns (conversation: seq<Turn>)
      ensures conversation == Conversation(sysPrompt, messages)
    {
      conversation := [];
      if sysPrompt != "" {
        conversation := conversation + [Turn("system", sysPrompt)];
      }
      ghost var head := conversation;
      var i := 0;
      while i < |messages|
        invariant 0 <= i <= |messages|
        invariant conversation == head + TurnsOf(messages[..i])
      {
        assert TurnsOf(messages[..i + 1]) == TurnsOf(messages[..i]) + [Turn(messages[i].role, messages[i].content)];
        conversation := conversation + [Turn(messages[i].role, messages[i].content)];
        i := i + 1;
      }
      assert messages[..i] == messages;
    }

    /**
     * `send_message`: builds the conversation (an empty one is sent as it is) and calls the
     * completion service, whose outcome is `outcome`. `sent` is the conversation it was given.
     * A raised call yields the degraded text and leaves the history alone; a reply is returned
     * and appended as exactly one assistant message.
     */
    method SendMessage(outcome: Completion) returns (reply: string, sent: seq<Turn>)
      modifies this`messages
      ensures sent == Conversation(sysPrompt, old(messages))
      ensures outcome.Raised? ==> reply == UnavailablePrefix + outcome.error && messages == old(messages)
      ensures outcome.Replied? ==>
                reply == outcome.reply && messages == old(messages) + [Message("assistant", reply, None)]
    {
      sent := BuildConversation();
      match outcome
      case Raised(error) =>
        reply := UnavailablePrefix + error;
      case Replied(text) =>
        reply := text;
        messages := messages + [Message("assistant", reply, None)];
    }
  }
}
