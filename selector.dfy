/** The team's speaker-selection function `selector_func_with_user_proxy`
    (app/api/chat.py:65-77): a fixed table from the last message's source, and for the
    intent classifier's output the decoded "model" field, to the next speaker. */
module Selector {
  import opened Messages

  /** The value `json_repair.loads` returns. Numbers are kept as integers; the selector
      only compares them with strings. */
  datatype Json =
    | JNull
    | JBool(b: bool)
    | JNumber(n: int)
    | JString(s: string)
    | JArray(items: seq<Json>)
    | JObject(fields: map<string, Json>)

  /** What the selector does: return a member's name, return `None`, or raise. */
  datatype Selection = Next(name: string) | NoSpeaker | Fail

  /** The outcome of the IntentAgent block (lines 68-74): a responder, an exception from
      `agent_router["model"]`, or falling through to the next `if`. */
  datatype IntentRoute = Routed(name: string) | Raised | FallThrough

  /** `IntentOutput.model` values (app/core/agents/information_extraction_agent.py:25). */
  const ChatModel: string := "chat"
  const ReasoningModel: string := "reasoning"

  /** Lines 69-74. Indexing anything but a dict, or a dict without "model", raises. */
  function RouteIntent(decoded: Json): (r: IntentRoute)
    ensures r.Routed? ==> r.name == AssistantAgentName || r.name == ReasoningAgentName
    ensures r == Raised <==> !(decoded.JObject? && "model" in decoded.fields)
    ensures r == Routed(AssistantAgentName)
            <==> decoded.JObject? && "model" in decoded.fields && decoded.fields["model"] == JString(ChatModel)
    ensures r == Routed(ReasoningAgentName)
            <==> decoded.JObject? && "model" in decoded.fields && decoded.fields["model"] == JString(ReasoningModel)
  {
    match decoded
    case JObject(fields) =>
      if "model" !in fields then Raised
      else if fields["model"] == JString(ChatModel) then Routed(AssistantAgentName)
      else if fields["model"] == JString(ReasoningModel) then Routed(ReasoningAgentName)
      else FallThrough
    case _ => Raised
  }

  /** `selector_func_with_user_proxy(messages)`; `decode` is `json_repair.loads`.
      `messages[-1]` on an empty sequence raises IndexError. */
  function SelectSpeaker(decode: string -> Json, messages: seq<Message>): (r: Selection)
    ensures r.Next? ==> r.name in TeamNames
    ensures messages == [] ==> r == Fail
  {
    if messages == [] then Fail
    else
      var last := messages[|messages| - 1];
      if last.source == UserName then Next(IntentAgentName)
      else
        var route := if last.source == IntentAgentName then RouteIntent(decode(last.content)) else FallThrough;
        match route
        case Routed(name) => Next(name)
        case Raised => Fail
        case FallThrough =>
          if last.source in [AssistantAgentName, ReasoningAgentName] then Next(UserName)
          else NoSpeaker
  }

  /** The routing decision the classifier's message carries, read as the selector reads it. */
  predicate HasModel(decode: string -> Json, m: Message, model: string)
  {
    decode(m.content).JObject? && "model" in decode(m.content).fields
    && decode(m.content).fields["model"] == JString(model)
  }

  /** A user message is always followed by the intent classifier (lines 66-67). */
  lemma UserRoutesToIntent(decode: string -> Json, messages: seq<Message>)
    requires messages != [] && messages[|messages| - 1].source == UserName
    ensures SelectSpeaker(decode, messages) == Next(IntentAgentName)
  {
  }

  /** The classifier's decision picks the responder, both ways round (lines 68-74). */
  lemma IntentRoutesByModel(decode: string -> Json, messages: seq<Message>)
    requires messages != [] && messages[|messages| - 1].source == IntentAgentName
    ensures SelectSpeaker(decode, messages) == Next(AssistantAgentName)
            <==> HasModel(decode, messages[|messages| - 1], ChatModel)
    ensures SelectSpeaker(decode, messages) == Next(ReasoningAgentName)
            <==> HasModel(decode, messages[|messages| - 1], ReasoningModel)
  {
  }

  /** After the classifier the selector raises exactly when the decoded content is not a
      dict holding "model"; any other "model" value gives no speaker (lines 68-77). */
  lemma IntentFailOrNone(decode: string -> Json, messages: seq<Message>)
    requires messages != [] && messages[|messages| - 1].source == IntentAgentName
    ensures var d := decode(messages[|messages| - 1].content);
            SelectSpeaker(decode, messages) == Fail <==> !(d.JObject? && "model" in d.fields)
    ensures var d := decode(messages[|messages| - 1].content);
            SelectSpeaker(decode, messages) == NoSpeaker
            <==> d.JObject? && "model" in d.fields
                 && d.fields["model"] != JString(ChatModel) && d.fields["model"] != JString(ReasoningModel)
  {
  }

  /** Either responder hands back to the user; a source outside the team gets `None`
      (lines 75-77). */
  lemma ResponderRoutesToUser(decode: string -> Json, messages: seq<Message>)
    requires messages != []
    ensures var s := messages[|messages| - 1].source;
            s == AssistantAgentName || s == ReasoningAgentName
            ==> SelectSpeaker(decode, messages) == Next(UserName)
    ensures messages[|messages| - 1].source !in TeamNames
            ==> SelectSpeaker(decode, messages) == NoSpeaker
  {
  }

  /** The selector reads only the last message: two threads with the same last message
      get the same answer. */
  lemma OnlyLastMessageMatters(decode: string -> Json, a: seq<Message>, b: seq<Message>)
    requires a != [] && b != [] && a[|a| - 1] == b[|b| - 1]
    ensures SelectSpeaker(decode, a) == SelectSpeaker(decode, b)
  {
  }
}
