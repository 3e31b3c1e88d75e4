/** The chat message record of `types/chat.ts` and the `{role, content}` pairs
    that the client sends to the HTTP routes as `conversationHistory`. */
module ChatTypes {
  import opened Basics
  import opened Seqs

  datatype Role = User | Assistant | System

  /** The wire spelling of a role. */
  function RoleName(r: Role): (name: string)
    ensures name == "user" || name == "assistant" || name == "system"
    ensures name == "system" <==> r == System
    ensures name == "user" <==> r == User
  {
    match r
    case User => "user"
    case Assistant => "assistant"
    case System => "system"
  }

  /** A message shown in the chat window; `timestamp` is a clock reading. */
  datatype Message = Message(id: string, content: string, role: Role, timestamp: nat)

  datatype ChatState = ChatState(messages: seq<Message>, isLoading: bool, error: Option<string>)

  /** The signed-in principal, as far as the application uses it. */
  datatype AuthUser = AuthUser(id: string)

  /** One `{role, content}` entry of a request's history. The routes receive it
      as untyped JSON, so the role is any string. */
  datatype Turn = Turn(role: string, content: string)

  function TurnOf(m: Message): Turn {
    Turn(RoleName(m.role), m.content)
  }

  predicate NotSystem(m: Message) {
    m.role != System
  }

  /** `messages.filter(m => m.role !== 'system').map(m => ({role, content}))`,
      the history both chat components send. */
  function HistoryOf(ms: seq<Message>): (h: seq<Turn>)
    ensures |h| <= |ms|
    ensures forall i :: 0 <= i < |h| ==> h[i].role == "user" || h[i].role == "assistant"
  {
    var kept := Filter(ms, NotSystem);
    seq(|kept|, i requires 0 <= i < |kept| => TurnOf(kept[i]))
  }

  /** The history of a concatenation is the concatenation of the histories. */
  lemma HistoryOfAppend(a: seq<Message>, b: seq<Message>)
    ensures HistoryOf(a + b) == HistoryOf(a) + HistoryOf(b)
  {
    FilterAppend(a, b, NotSystem);
  }

  /** Appending one message adds its turn to the history unless it is a
      system message. */
  lemma HistoryOfSnoc(ms: seq<Message>, m: Message)
    ensures HistoryOf(ms + [m]) == if m.role == System then HistoryOf(ms) else HistoryOf(ms) + [TurnOf(m)]
  {
    HistoryOfAppend(ms, [m]);
    assert Filter([m], NotSystem) == if NotSystem(m) then [m] else [];
  }

  /** Without system messages, the history keeps every message's role and
      content, in order. */
  lemma HistoryOfNoSystem(ms: seq<Message>)
    requires forall i :: 0 <= i < |ms| ==> ms[i].role != System
    ensures |HistoryOf(ms)| == |ms|
    ensures forall i :: 0 <= i < |ms| ==> HistoryOf(ms)[i] == TurnOf(ms[i])
  {
    FilterAll(ms, NotSystem);
  }

  /** The message list a route sends upstream: the system prompt, then each
      history entry's role and content, then the new user message. */
  function Outgoing(prompt: string, history: seq<Turn>, message: string): (r: seq<Turn>)
    ensures |r| == |history| + 2
    ensures r[0] == Turn("system", prompt)
    ensures r[|r| - 1] == Turn("user", message)
    ensures r[1..|r| - 1] == history
  {
    var r := [Turn("system", prompt)] + history + [Turn("user", message)];
    assert r[1..|r| - 1] == history;
    r
  }

  /** What a route forwards for a client that sent `HistoryOf(ms)`: every
      non-system message of the client's list, in order, between the system
      prompt and the new message. */
  lemma OutgoingCarriesClientHistory(prompt: string, ms: seq<Message>, message: string)
    requires forall i :: 0 <= i < |ms| ==> ms[i].role != System
    ensures var r := Outgoing(prompt, HistoryOf(ms), message);
      && |r| == |ms| + 2
      && r[0].role == "system" && r[|r| - 1] == Turn("user", message)
      && forall i :: 0 <= i < |ms| ==> r[i + 1] == TurnOf(ms[i])
  {
    HistoryOfNoSystem(ms);
    var h := HistoryOf(ms);
    var r := Outgoing(prompt, h, message);
    forall i | 0 <= i < |ms| ensures r[i + 1] == TurnOf(ms[i]) {
      assert r[1..|r| - 1][i] == h[i];
    }
  }
}
