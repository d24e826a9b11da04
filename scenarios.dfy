/**
 * Worked sessions of the bot, following the way the message handler drives
 * the dispatcher, the stored transcript and the backend request.
 */
module Scenarios {
  import opened Wrappers
  import opened Models
  import opened Bot
  import opened OpenAI

  /** A user without conversations always ends up with exactly one, at index 0. */
  lemma FirstConversationIsZero(current: Option<nat>, now: string)
    ensures GetOrCreate(State([], current), now) == (State([DefaultConversation(now)], Some(0)), 0)
  {
    assert [] + [DefaultConversation(now)] == [DefaultConversation(now)];
  }

  /** After `/reset` the next request to the backend is empty. */
  lemma ResetEmptiesRequest(s: State, msg: string, now: string, i: nat)
    requires SplitCommand(msg).0 == "/reset"
    requires CurrentConversation(s) == Some(i)
    ensures RequestMessages(Transition(s, msg, now).0.conversations[i]) == []
  {
    ResetClears(s, msg, now, i);
  }

  /** `/help` is not one of the dispatcher's commands. */
  lemma HelpIsUnknown(s: State, now: string)
    ensures Transition(s, "/help", now) == (s, ReplyToUser("Unknown command /help."))
  {
    SplitCommandUnique("/help", "/help", "");
    UnknownUnchanged(s, "/help", now);
    assert UnknownCommand("/help") == "Unknown command /help.";
  }

  /** `/system` with nothing after the space leaves the system message as it was. */
  lemma EmptySystemAsksForText(s: State, now: string, i: nat)
    requires CurrentConversation(s) == Some(i)
    ensures Transition(s, "/system ", now) ==
      (s, ReplyToUser("Please set a system message with `/system [system message]`."))
  {
    SplitCommandUnique("/system ", "/system", "");
  }

  /** Three undescribed conversations are listed by name, in order, a blank line apart. */
  lemma ListThree(now: string)
    ensures var cs := [DefaultConversation(now).(name := "A"),
                       DefaultConversation(now).(name := "B"),
                       DefaultConversation(now).(name := "C")];
      Transition(State(cs, None), "/list", now).1 == ReplyToUser("Current conversations: A\n\nB\n\nC")
  {
    var cs := [DefaultConversation(now).(name := "A"),
               DefaultConversation(now).(name := "B"),
               DefaultConversation(now).(name := "C")];
    assert Transition(State(cs, None), "/list", now).1 == ReplyToUser(ListReply(cs)) by {
      SplitCommandUnique("/list", "/list", "");
      ListReadOnly(State(cs, None), "/list", now);
    }
    assert Join(DisplayAll(cs), "\n\n") == "A\n\nB\n\nC" by {
      assert DisplayAll(cs) == ["A", "B"] + ["C"];
      JoinSnoc(["A"], "B", "\n\n");
      assert ["A"] + ["B"] == ["A", "B"];
      JoinSnoc(["A", "B"], "C", "\n\n");
    }
  }

  /** A fresh user's `/rename` creates the first conversation under the given name. */
  lemma RenameFresh(now: string)
    ensures Transition(State([], None), "/rename Trip Planning", now) ==
      (State([Conversation("Trip Planning", [], None, None)], Some(0)),
       ReplyToUser(RenameReply("Trip Planning")))
  {
    var msg := "/rename Trip Planning";
    assert msg == "/rename" + " " + "Trip Planning";
    SplitCommandUnique(msg, "/rename", "Trip Planning");
    assert SplitCommand(msg) == ("/rename", "Trip Planning");
    FirstConversationIsZero(None, now);
    RenameNames(State([], None), msg, now);
    var t := Transition(State([], None), msg, now);
    assert t.1 == ReplyToUser(RenameReply("Trip Planning"));
    assert t.0.current == Some(0);
    assert |t.0.conversations| == 1;
    assert t.0.conversations[0] == Conversation("Trip Planning", [], None, None);
    assert t.0.conversations == [Conversation("Trip Planning", [], None, None)];
  }

  /**
   * After one exchange, `/redo` keeps the bot's last reply in the transcript:
   * the request for the regenerated reply still ends with it, and the caller
   * appends the new reply after it.
   */
  lemma RedoKeepsLastReply(now: string, answer: string)
    ensures var talk := [NewMessage("where should I go?", Some("Alice")), NewMessage(answer, None)];
      var s := State([Conversation("Trip Planning", talk, None, None)], Some(0));
      && Transition(s, "/redo", now) == (s, RegenerateLastMessage(0))
      && RequestMessages(s.conversations[0]) == [UserTurn("where should I go?", "Alice"), AssistantTurn(answer)]
  {
    var talk := [NewMessage("where should I go?", Some("Alice")), NewMessage(answer, None)];
    var s := State([Conversation("Trip Planning", talk, None, None)], Some(0));
    assert talk[1].from == Assistant;
    SplitCommandUnique("/redo", "/redo", "");
    RedoNeverMutates(s, "/redo", now, 0);
    var ts := RequestMessages(s.conversations[0]);
    assert |ts| == 2 && ts[0] == MessageTurn(talk[0]) && ts[1] == MessageTurn(talk[1]);
  }

  /**
   * The message handler's two appends to the active conversation `i`: the
   * user's message, then the bot's answer.
   */
  method StoreExchange(user: UserState, i: nat, question: ChatMessage, reply: ChatMessage)
    requires i < |user.conversations|
    modifies user
    ensures user.currentConversation == old(user.currentConversation)
    ensures user.conversations == old(user.conversations)[i :=
      old(user.conversations[i]).(messages := old(user.conversations[i].messages) + [question, reply])]
  {
    var c := user.conversations[i];
    user.conversations := user.conversations[i := c.(messages := c.messages + [question])];
    c := user.conversations[i];
    user.conversations := user.conversations[i := c.(messages := c.messages + [reply])];
    assert old(user.conversations[i].messages) + [question] + [reply]
        == old(user.conversations[i].messages) + [question, reply];
  }

  /**
   * An example client of `HandleCommand`: a fresh user names a conversation
   * and the handler stores one exchange in it.
   */
  method TripPlanningSession(now: string, answer: string) returns (user: UserState)
    ensures fresh(user)
    ensures user.Snapshot() == State([Conversation("Trip Planning",
      [NewMessage("where should I go?", Some("Alice")), NewMessage(answer, None)], None, None)], Some(0))
  {
    user := new UserState();
    RenameFresh(now);
    var r := HandleCommand("/rename Trip Planning", user, now);
    ghost var named := Conversation("Trip Planning", [], None, None);
    assert user.conversations == [named];
    var question, reply := NewMessage("where should I go?", Some("Alice")), NewMessage(answer, None);
    StoreExchange(user, 0, question, reply);
    assert [] + [question, reply] == [question, reply];
    assert user.conversations == [named.(messages := [question, reply])];
  }

  /** The session continued: `/redo` through the object leaves the stored exchange as it is. */
  method TripPlanningRedo(now: string, answer: string)
  {
    var user := TripPlanningSession(now, answer);
    ghost var s := user.Snapshot();
    RedoKeepsLastReply(now, answer);
    var r := HandleCommand("/redo", user, now);
    assert r == RegenerateLastMessage(0) && user.Snapshot() == s;
  }
}
