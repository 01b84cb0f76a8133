/** The chat team's participants, the messages they exchange and the JSON frames that
    cross the websocket (app/api/chat.py). */
module Messages {

  /** The `name` of each team member (app/api/chat.py:43-63). */
  const UserName: string := "user"
  const IntentAgentName: string := "IntentAgent"
  const AssistantAgentName: string := "AssistantAgent"
  const ReasoningAgentName: string := "ReasoningAgent"

  /** The participant list handed to SelectorGroupChat, in its order. */
  const TeamNames: seq<string> := [IntentAgentName, AssistantAgentName, ReasoningAgentName, UserName]

  /** The message and event classes the team's stream yields. `OtherEvent` covers the
      remaining autogen classes, which the handler forwards like a text message. */
  datatype Kind =
    | TextMessage
    | ToolCallRequestEvent
    | ToolCallExecutionEvent
    | UserInputRequestedEvent
    | OtherEvent(typeName: string)

  /** An autogen message; `content` is its payload, serialised. */
  datatype Message = Message(kind: Kind, source: string, content: string)

  /** A JSON object with the keys "type", "source" and "content", as sent with
      `websocket.send_json` and as stored in the history file. */
  datatype Frame = Frame(typ: string, source: string, content: string)

  /** The "type" discriminator `model_dump` writes for each class. */
  function TypeName(k: Kind): string
  {
    match k
    case TextMessage => "TextMessage"
    case ToolCallRequestEvent => "ToolCallRequestEvent"
    case ToolCallExecutionEvent => "ToolCallExecutionEvent"
    case UserInputRequestedEvent => "UserInputRequestedEvent"
    case OtherEvent(n) => n
  }

  /** `message.model_dump()` restricted to the three keys the client reads. */
  function Dump(m: Message): (f: Frame)
    ensures f.source == m.source && f.content == m.content && f.typ == TypeName(m.kind)
  {
    Frame(TypeName(m.kind), m.source, m.content)
  }

  /** Dumps of a sequence of messages, in order. */
  function Dumps(ms: seq<Message>): (fs: seq<Frame>)
    ensures |fs| == |ms|
  {
    if ms == [] then [] else [Dump(ms[0])] + Dumps(ms[1..])
  }

  lemma {:induction false} DumpsAppend(a: seq<Message>, b: seq<Message>)
    ensures Dumps(a + b) == Dumps(a) + Dumps(b)
  {
    if a == [] {
      assert a + b == b;
    } else {
      assert (a + b)[0] == a[0];
      assert (a + b)[1..] == a[1..] + b;
      DumpsAppend(a[1..], b);
    }
  }
}
