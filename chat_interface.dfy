/** `components/chat-interface.tsx`: the plain chat window. Sending is split
    at its `await`: `BeginSend` appends the user's message and returns the
    request for `/api/chat`; `CompleteSend` appends the reply, or the fixed
    apology, once the request has settled. Clock readings are inputs; a
    message id is the decimal form of the reading, as `Date.now().toString()`
    gives. */
module ChatInterfaceComponent {
  import opened Basics
  import opened ChatTypes

  const Greeting := "Hello! I'm your AI assistant. How can I help you today?"
  const Apology := "Sorry, I encountered an error. Please try again."

  /** The body posted to `/api/chat`. */
  datatype ChatRequest = ChatRequest(message: string, conversationHistory: seq<Turn>)

  /** How the request settled: `data.response` of an ok reply, or `None`
      for a reply that was not ok or a request that threw. */
  type Settled = Option<string>

  function GreetingMessage(now: nat): Message {
    Message("1", Greeting, Assistant, now)
  }

  class ChatInterface {
    var messages: seq<Message>
    var isLoading: bool

    /** The window opens with the greeting alone and nothing pending. */
    constructor(now: nat)
      ensures messages == [GreetingMessage(now)] && !isLoading
    {
      messages := [GreetingMessage(now)];
      isLoading := false;
    }

    /** The first half of `handleSendMessage`: a blank text changes nothing;
        otherwise the user's message is appended, loading starts, and the
        request carries the list as it was before the append. */
    method BeginSend(content: string, now: nat) returns (request: Option<ChatRequest>)
      modifies this
      ensures IsBlank(content) ==> request.None? && messages == old(messages) && isLoading == old(isLoading)
      ensures !IsBlank(content) ==>
                && messages == old(messages) + [Message(NatToString(now), content, User, now)]
                && isLoading
                && request == Some(ChatRequest(content, HistoryOf(old(messages))))
    {
      if TrimsToEmpty(content) {
        return None;
      }
      var history := HistoryOf(messages);
      messages := messages + [Message(NatToString(now), content, User, now)];
      isLoading := true;
      request := Some(ChatRequest(content, history));
    }

    /** The second half: exactly one assistant message, the reply or the
        apology, and loading ends. */
    method CompleteSend(settled: Settled, now: nat)
      modifies this
      ensures messages == old(messages) + [Message(NatToString(now + 1), Default(settled, Apology), Assistant, now)]
      ensures !isLoading
    {
      messages := messages + [Message(NatToString(now + 1), Default(settled, Apology), Assistant, now)];
      isLoading := false;
    }

    /** The whole handler, for a request that settles as `settled`: the
        user's message, then one assistant message, both kept whatever the
        outcome. */
    method HandleSendMessage(content: string, settled: Settled, sentAt: nat, repliedAt: nat)
      returns (request: Option<ChatRequest>)
      modifies this
      ensures IsBlank(content) ==> request.None? && messages == old(messages) && isLoading == old(isLoading)
      ensures !IsBlank(content) ==>
                && request == Some(ChatRequest(content, HistoryOf(old(messages))))
                && |messages| == |old(messages)| + 2
                && messages[..|old(messages)|] == old(messages)
                && messages[|old(messages)|] == Message(NatToString(sentAt), content, User, sentAt)
                && messages[|old(messages)| + 1].role == Assistant
                && (settled.Some? ==> messages[|old(messages)| + 1].content == settled.value)
                && (settled.None? ==> messages[|old(messages)| + 1].content == Apology)
                && !isLoading
    {
      request := BeginSend(content, sentAt);
      if request.Some? {
        CompleteSend(settled, repliedAt);
      }
    }
  }
}
