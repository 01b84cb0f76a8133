/** app/core/agents/orchestrator.py carries its own copy of the speaker selector
    (lines 59-71). It is modelled separately here and proved equal to the copy in
    app/api/chat.py. */
module Orchestrator {
  import opened Messages
  import Selector

  /** orchestrator.py:59-71, written out on its own. */
  function SelectSpeaker(decode: string -> Selector.Json, messages: seq<Message>): (r: Selector.Selection)
    ensures r.Next? ==> r.name in TeamNames
  {
    if messages == [] then Selector.Fail
    else if messages[|messages| - 1].source == UserName then Selector.Next(IntentAgentName)
    else if messages[|messages| - 1].source == IntentAgentName then
      match decode(messages[|messages| - 1].content)
      case JObject(agentRouter) =>
        if "model" !in agentRouter then Selector.Fail
        else if agentRouter["model"] == Selector.JString("chat") then Selector.Next(AssistantAgentName)
        else if agentRouter["model"] == Selector.JString("reasoning") then Selector.Next(ReasoningAgentName)
        else Selector.NoSpeaker
      case _ => Selector.Fail
    else if messages[|messages| - 1].source in [AssistantAgentName, ReasoningAgentName] then Selector.Next(UserName)
    else Selector.NoSpeaker
  }

  /** The two copies agree on every decoder and every thread. */
  lemma SelectorsAgree(decode: string -> Selector.Json, messages: seq<Message>)
    ensures SelectSpeaker(decode, messages) == Selector.SelectSpeaker(decode, messages)
  {
  }

  /** The names the team's selector chain picks when it is asked `steps` times, each
      chosen member answering with one text message whose content is `reply(name)`.
      When the selector function returns None the group chat asks the model, whose
      choice is `pick(thread)`; a choice outside the team, or a selector that raises,
      ends the chain. */
  function Speakers(decode: string -> Selector.Json, pick: seq<Message> -> string, thread: seq<Message>,
                    reply: string -> string, steps: nat)
    : (names: seq<string>)
    ensures |names| <= steps
    ensures forall i :: 0 <= i < |names| ==> names[i] in TeamNames
    ensures steps > 0 && SelectSpeaker(decode, thread).Next? ==> names != [] && names[0] == SelectSpeaker(decode, thread).name
    ensures steps > 0 && SelectSpeaker(decode, thread).NoSpeaker? && pick(thread) in TeamNames
            ==> names != [] && names[0] == pick(thread)
    ensures SelectSpeaker(decode, thread).Fail? ==> names == []
    decreases steps
  {
    if steps == 0 then []
    else
      match SelectSpeaker(decode, thread)
      case Next(name) =>
        [name] + Speakers(decode, pick, thread + [Message(TextMessage, name, reply(name))], reply, steps - 1)
      case NoSpeaker =>
        var name := pick(thread);
        if name in TeamNames then
          [name] + Speakers(decode, pick, thread + [Message(TextMessage, name, reply(name))], reply, steps - 1)
        else []
      case Fail => []
  }

  /** One turn of the conversation: from a user message the selector goes to the
      classifier, then to the responder its decision names, then back to the user. */
  lemma {:induction false} TurnReturnsToUser(decode: string -> Selector.Json, pick: seq<Message> -> string, thread: seq<Message>,
                                           reply: string -> string, model: string)
    requires thread != [] && thread[|thread| - 1].source == UserName
    requires model == Selector.ChatModel || model == Selector.ReasoningModel
    requires Selector.HasModel(decode, Message(TextMessage, IntentAgentName, reply(IntentAgentName)), model)
    ensures Speakers(decode, pick, thread, reply, 3)
            == [IntentAgentName, if model == Selector.ChatModel then AssistantAgentName else ReasoningAgentName, UserName]
  {
    var responder := if model == Selector.ChatModel then AssistantAgentName else ReasoningAgentName;
    var t1 := thread + [Message(TextMessage, IntentAgentName, reply(IntentAgentName))];
    var t2 := t1 + [Message(TextMessage, responder, reply(responder))];
    var t3 := t2 + [Message(TextMessage, UserName, reply(UserName))];
    assert SelectSpeaker(decode, thread) == Selector.Next(IntentAgentName);
    assert SelectSpeaker(decode, t1) == Selector.Next(responder);
    assert SelectSpeaker(decode, t2) == Selector.Next(UserName);
    assert Speakers(decode, pick, t3, reply, 0) == [];
    assert Speakers(decode, pick, t2, reply, 1) == [UserName];
    assert Speakers(decode, pick, t1, reply, 2) == [responder, UserName];
  }
}
