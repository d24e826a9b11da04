/**
 * The pure part of the OpenAI-compatible backend: the list of request turns
 * built from a conversation, and the reply taken from the response choices.
 * The request builders, the HTTP client and the network call are not modelled.
 */
module OpenAI {
  import opened Wrappers
  import opened Models

  /** One message of a chat-completion request. */
  datatype Turn =
    | SystemTurn(content: string)
    | AssistantTurn(content: string)
    | UserTurn(content: string, name: string)

  /** The request turn for one stored message. */
  function MessageTurn(m: ChatMessage): (t: Turn)
    ensures t.content == m.content
    ensures !t.SystemTurn?
    ensures t.AssistantTurn? <==> m.from == Assistant
    ensures m.from.User? ==> t == UserTurn(m.content, m.from.name)
  {
    match m.from
    case Assistant => AssistantTurn(m.content)
    case User(name) => UserTurn(m.content, name)
  }

  /** The turns for a transcript, in order. */
  function MessageTurns(ms: seq<ChatMessage>): (ts: seq<Turn>)
    ensures |ts| == |ms|
    ensures forall k :: 0 <= k < |ms| ==> ts[k] == MessageTurn(ms[k])
  {
    if ms == [] then [] else [MessageTurn(ms[0])] + MessageTurns(ms[1..])
  }

  /** How many turns precede the transcript: one for a system message, else none. */
  function SystemOffset(c: Conversation): nat {
    if c.system.Some? then 1 else 0
  }

  /**
   * The turns sent to the backend: the system message first when there is
   * one, then every message of the transcript in order.
   */
  function RequestMessages(c: Conversation): (ts: seq<Turn>)
    ensures |ts| == |c.messages| + SystemOffset(c)
    ensures c.system.Some? ==> ts[0] == SystemTurn(c.system.value)
    ensures c.system.None? && c.messages != [] ==> ts[0] == MessageTurn(c.messages[0])
    ensures forall k :: 0 <= k < |c.messages| ==> ts[k + SystemOffset(c)] == MessageTurn(c.messages[k])
    ensures forall k :: SystemOffset(c) <= k < |ts| ==> !ts[k].SystemTurn?
  {
    var head := match c.system
      case Some(system) => [SystemTurn(system)]
      case None => [];
    head + MessageTurns(c.messages)
  }

  const EmptyResponse := "OpenAI client returned empty response!"

  /** The content of the first choice of a response, given each choice's optional content. */
  function FirstChoice(choices: seq<Option<string>>): (r: Result<string>)
    ensures r.Ok? <==> choices != [] && choices[0].Some?
    ensures r.Ok? ==> r.value == choices[0].value
    ensures r.Err? ==> r.error == EmptyResponse
  {
    if choices != [] && choices[0].Some? then Ok(choices[0].value) else Err(EmptyResponse)
  }

  // Reading a request back: no information of the conversation is lost.

  /** The stored message a non-system turn stands for. */
  function TurnMessage(t: Turn): ChatMessage {
    match t
    case SystemTurn(content) => ChatMessage(content, Assistant)
    case AssistantTurn(content) => ChatMessage(content, Assistant)
    case UserTurn(content, name) => ChatMessage(content, User(name))
  }

  function TurnMessages(ts: seq<Turn>): seq<ChatMessage> {
    if ts == [] then [] else [TurnMessage(ts[0])] + TurnMessages(ts[1..])
  }

  /** The system message and transcript carried by a list of turns. */
  function ReadRequest(ts: seq<Turn>): (Option<string>, seq<ChatMessage>) {
    if ts != [] && ts[0].SystemTurn? then (Some(ts[0].content), TurnMessages(ts[1..]))
    else (None, TurnMessages(ts))
  }

  lemma {:induction false} TurnMessagesInverse(ms: seq<ChatMessage>)
    ensures TurnMessages(MessageTurns(ms)) == ms
  {
    if ms != [] {
      assert MessageTurns(ms)[1..] == MessageTurns(ms[1..]);
      TurnMessagesInverse(ms[1..]);
    }
  }

  /** The request carries exactly the conversation's system message and transcript. */
  lemma {:induction false} RequestRoundTrip(c: Conversation)
    ensures ReadRequest(RequestMessages(c)) == (c.system, c.messages)
  {
    var ts := RequestMessages(c);
    TurnMessagesInverse(c.messages);
    if c.system.Some? {
      assert ts[1..] == MessageTurns(c.messages);
    } else {
      assert ts == MessageTurns(c.messages);
    }
  }

  /** A message made by `NewMessage` becomes a user turn exactly when it has a sender. */
  lemma NewMessageTurn(content: string, from: Option<string>)
    ensures MessageTurn(NewMessage(content, from)) ==
      match from
      case None => AssistantTurn(content)
      case Some(name) => UserTurn(content, name)
  {
  }
}
