/**
 * The per-user conversation state of the bot: message roles, chat messages,
 * conversations and the user's collection of conversations with the index of
 * the active one.
 */
module Models {
  import opened Wrappers

  /** Who sent a message: the bot itself, or a user with a display name. */
  datatype Role = Assistant | User(name: string)

  datatype ChatMessage = ChatMessage(content: string, from: Role)

  /** A message from the given sender; no sender means the bot wrote it. */
  function NewMessage(content: string, from: Option<string>): (m: ChatMessage)
    ensures m.content == content
    ensures m.from == Assistant <==> from.None?
    ensures from.Some? ==> m.from == User(from.value)
  {
    match from
    case None => ChatMessage(content, Assistant)
    case Some(n) => ChatMessage(content, User(n))
  }

  /** One chat thread: its transcript in chronological order plus metadata. */
  datatype Conversation = Conversation(
    name: string,
    messages: seq<ChatMessage>,
    system: Option<string>,
    description: Option<string>)

  const DefaultNamePrefix := "Conversation from "

  /**
   * A fresh conversation. `now` is the creation time already formatted as
   * day/month/year hour:minute; reading the clock is outside the model.
   */
  function DefaultConversation(now: string): (c: Conversation)
    ensures c.name == DefaultNamePrefix + now
    ensures c.messages == [] && c.system == None && c.description == None
  {
    Conversation(DefaultNamePrefix + now, [], None, None)
  }

  /** How a conversation is shown in the `/list` reply. */
  function Display(c: Conversation): (s: string)
    ensures c.name <= s
    ensures s == c.name <==> c.description.None?
    ensures c.description.Some? ==> s[|c.name|..] == ": " + c.description.value
  {
    match c.description
    case Some(desc) => c.name + ": " + desc
    case None => c.name
  }

  /** The value of a user's state: all conversations and the possibly stale active index. */
  datatype State = State(conversations: seq<Conversation>, current: Option<nat>)

  /** The active index holds exactly when it points inside `conversations`. */
  predicate WellFormed(s: State) {
    s.current.Some? ==> s.current.value < |s.conversations|
  }

  /** The index of the active conversation, when one is set and in bounds. */
  function CurrentConversation(s: State): (r: Option<nat>)
    ensures r.Some? <==> s.current.Some? && s.current.value < |s.conversations|
    ensures r.Some? ==> r == s.current
  {
    match s.current
    case Some(i) => if i < |s.conversations| then Some(i) else None
    case None => None
  }

  /**
   * The active conversation, repaired when there is none or the index is
   * stale by appending a fresh conversation and making it active.
   */
  function GetOrCreate(s: State, now: string): (r: (State, nat))
    ensures r.0.current == Some(r.1) && r.1 < |r.0.conversations|
    ensures CurrentConversation(s).Some? ==> r.0 == s
    ensures CurrentConversation(s).None? ==>
      r.1 == |s.conversations| && r.0.conversations == s.conversations + [DefaultConversation(now)]
  {
    match CurrentConversation(s)
    case Some(i) => (s, i)
    case None =>
      (State(s.conversations + [DefaultConversation(now)], Some(|s.conversations|)), |s.conversations|)
  }

  /** The mutable state the bot keeps for one user. */
  class UserState {
    var conversations: seq<Conversation>
    var currentConversation: Option<nat>

    /** The abstract value of this object. */
    function Snapshot(): State
      reads this
    {
      State(conversations, currentConversation)
    }

    /** The default state of a user seen for the first time. */
    constructor ()
      ensures Snapshot() == State([], None)
      ensures WellFormed(Snapshot())
    {
      conversations := [];
      currentConversation := None;
    }

    /** Makes sure a conversation is active and returns its index. */
    method GetOrCreateConversation(now: string) returns (i: nat)
      modifies this
      ensures (Snapshot(), i) == GetOrCreate(old(Snapshot()), now)
    {
      if currentConversation.Some? && currentConversation.value < |conversations| {
        i := currentConversation.value;
      } else {
        currentConversation := Some(|conversations|);
        conversations := conversations + [DefaultConversation(now)];
        i := |conversations| - 1;
      }
    }
  }
}
