/**
 * The slash-command dispatcher: it parses one command line, changes the
 * user's state in place and tells the caller what to do next.
 */
module Bot {
  import opened Wrappers
  import opened Models

  /**
   * What the caller does after a command. The two directives that in the
   * bot hand back the active conversation carry its index instead.
   */
  datatype CommandResult =
    | RegenerateLastMessage(conversation: nat)
    | ReplyToUser(text: string)
    | GenerateDescription(conversation: nat)

  /** The position of the first space character, if any. */
  function IndexOfSpace(s: string): (r: Option<nat>)
    ensures r.Some? ==> r.value < |s| && s[r.value] == ' ' && ' ' !in s[..r.value]
    ensures r.None? ==> ' ' !in s
  {
    if s == [] then None
    else if s[0] == ' ' then Some(0)
    else match IndexOfSpace(s[1..])
      case None => None
      case Some(k) =>
        assert s[..k + 1] == [s[0]] + s[1..][..k];
        Some(k + 1)
  }

  /**
   * Splits a command line at its first space into the command token and the
   * rest; without a space the token is the whole line and the rest is empty.
   */
  function SplitCommand(msg: string): (r: (string, string))
    ensures ' ' !in r.0
    ensures ' ' in msg ==> msg == r.0 + " " + r.1
    ensures ' ' !in msg ==> r.0 == msg && r.1 == ""
  {
    match IndexOfSpace(msg)
    case Some(k) =>
      assert msg == msg[..k] + " " + msg[k + 1..];
      (msg[..k], msg[k + 1..])
    case None => (msg, "")
  }

  /** The split is the only one with a space-free token, so it can be read off a command line. */
  lemma SplitCommandUnique(msg: string, cmd: string, rest: string)
    requires ' ' !in cmd
    requires msg == cmd + " " + rest || (' ' !in msg && msg == cmd && rest == "")
    ensures SplitCommand(msg) == (cmd, rest)
  {
    var (a, b) := SplitCommand(msg);
    if ' ' in msg {
      assert msg == cmd + " " + rest;
      assert forall j :: 0 <= j < |cmd| ==> msg[j] == cmd[j] != ' ';
      assert forall j :: 0 <= j < |a| ==> msg[j] == a[j] != ' ';
      assert msg[|cmd|] == ' ' && msg[|a|] == ' ';
      assert a == msg[..|a|] == cmd;
      assert b == msg[|a| + 1..] == rest;
    }
  }

  // The replies of the dispatcher.

  function NeedsConversation(cmd: string): string {
    "Command `" + cmd + "` requires you to be in a conversation!"
  }
  const ResetReply := "Conversation reset!"
  function RenameReply(name: string): string {
    "Set current conversation name to \"" + name + "\"!"
  }
  const NewReply := "New conversation started"
  const ListHeader := "Current conversations: "
  const SystemPrompt := "Please set a system message with `/system [system message]`."
  const SystemReply := "System message set!"
  const RedoRefusal := "Can only /redo if the last message is LlamaBot's!"
  function UnknownCommand(cmd: string): string {
    "Unknown command " + cmd + "."
  }

  /** The tokens the dispatcher recognises. */
  const Commands: set<string> := {"/reset", "/rename", "/desc", "/new", "/list", "/system", "/redo"}

  /** The parts joined in order with `sep` between neighbours. */
  function Join(parts: seq<string>, sep: string): string
    decreases |parts|
  {
    if |parts| == 0 then ""
    else if |parts| == 1 then parts[0]
    else parts[0] + sep + Join(parts[1..], sep)
  }

  lemma {:induction false} JoinSnoc(parts: seq<string>, p: string, sep: string)
    requires parts != []
    ensures Join(parts + [p], sep) == Join(parts, sep) + sep + p
    decreases |parts|
  {
    if |parts| > 1 {
      assert (parts + [p])[1..] == parts[1..] + [p];
      JoinSnoc(parts[1..], p, sep);
    }
  }

  /** The display strings of a list of conversations, in order. */
  function DisplayAll(cs: seq<Conversation>): (r: seq<string>)
    ensures |r| == |cs|
    ensures forall k :: 0 <= k < |cs| ==> r[k] == Display(cs[k])
  {
    seq(|cs|, k requires 0 <= k < |cs| => Display(cs[k]))
  }

  /** The `/list` reply. */
  function ListReply(cs: seq<Conversation>): string {
    ListHeader + Join(DisplayAll(cs), "\n\n")
  }

  /** The state with conversation `i` replaced by `c`. */
  function SetConversation(s: State, i: nat, c: Conversation): State
    requires i < |s.conversations|
  {
    s.(conversations := s.conversations[i := c])
  }

  /**
   * The dispatcher as a state transition: the new state and the directive
   * for a command line `msg`; `now` names the creation time of a conversation
   * that `/rename` may have to create.
   */
  function Transition(s: State, msg: string, now: string): (r: (State, CommandResult))
  {
    var (cmd, rest) := SplitCommand(msg);
    var failed := (s, ReplyToUser(NeedsConversation(cmd)));
    var current := CurrentConversation(s);
    if cmd == "/reset" then
      if current.None? then failed
      else
        var c := s.conversations[current.value];
        (SetConversation(s, current.value, c.(messages := [], system := None)), ReplyToUser(ResetReply))
    else if cmd == "/rename" then
      var (s', i) := GetOrCreate(s, now);
      (SetConversation(s', i, s'.conversations[i].(name := rest)), ReplyToUser(RenameReply(rest)))
    else if cmd == "/desc" then
      if current.None? then failed
      else (s, GenerateDescription(current.value))
    else if cmd == "/new" then
      (s.(current := None), ReplyToUser(NewReply))
    else if cmd == "/list" then
      (s, ReplyToUser(ListReply(s.conversations)))
    else if cmd == "/system" then
      if current.None? then failed
      else if rest == "" then (s, ReplyToUser(SystemPrompt))
      else
        var c := s.conversations[current.value];
        (SetConversation(s, current.value, c.(system := Some(rest))), ReplyToUser(SystemReply))
    else if cmd == "/redo" then
      if current.None? then failed
      else
        var m := s.conversations[current.value].messages;
        if |m| > 0 && m[|m| - 1].from != Assistant then (s, ReplyToUser(RedoRefusal))
        else (s, RegenerateLastMessage(current.value))
    else
      (s, ReplyToUser(UnknownCommand(cmd)))
  }

  /** Handles one command line, changing `state` in place. */
  method HandleCommand(msg: string, state: UserState, now: string) returns (result: CommandResult)
    modifies state
    ensures (state.Snapshot(), result) == Transition(old(state.Snapshot()), msg, now)
  {
    var (cmd, rest) := SplitCommand(msg);
    var failed := ReplyToUser(NeedsConversation(cmd));
    if cmd == "/reset" {
      var current := CurrentConversation(state.Snapshot());
      if current.None? {
        return failed;
      }
      var i := current.value;
      ghost var before := state.conversations[i];
      state.conversations := state.conversations[i := state.conversations[i].(messages := [])];
      state.conversations := state.conversations[i := state.conversations[i].(system := None)];
      assert state.conversations == old(state.conversations)[i := before.(messages := [], system := None)];
      result := ReplyToUser(ResetReply);
    } else if cmd == "/rename" {
      var i := state.GetOrCreateConversation(now);
      state.conversations := state.conversations[i := state.conversations[i].(name := rest)];
      result := ReplyToUser(RenameReply(rest));
    } else if cmd == "/desc" {
      var current := CurrentConversation(state.Snapshot());
      if current.None? {
        return failed;
      }
      result := GenerateDescription(current.value);
    } else if cmd == "/new" {
      state.currentConversation := None;
      result := ReplyToUser(NewReply);
    } else if cmd == "/list" {
      result := ReplyToUser(ListReply(state.conversations));
    } else if cmd == "/system" {
      var current := CurrentConversation(state.Snapshot());
      if current.None? {
        return failed;
      }
      if rest == "" {
        return ReplyToUser(SystemPrompt);
      }
      var i := current.value;
      state.conversations := state.conversations[i := state.conversations[i].(system := Some(rest))];
      result := ReplyToUser(SystemReply);
    } else if cmd == "/redo" {
      var current := CurrentConversation(state.Snapshot());
      if current.None? {
        return failed;
      }
      var messages := state.conversations[current.value].messages;
      if |messages| > 0 && messages[|messages| - 1].from != Assistant {
        return ReplyToUser(RedoRefusal);
      }
      result := RegenerateLastMessage(current.value);
    } else {
      result := ReplyToUser(UnknownCommand(cmd));
    }
  }

  // What each command does, stated over Transition.

  /** The four commands that need an active conversation change nothing without one. */
  lemma NeedsConversationUnchanged(s: State, msg: string, now: string)
    requires SplitCommand(msg).0 in {"/reset", "/desc", "/system", "/redo"}
    requires CurrentConversation(s).None?
    ensures Transition(s, msg, now) ==
      (s, ReplyToUser("Command `" + SplitCommand(msg).0 + "` requires you to be in a conversation!"))
  {
  }

  /** `/reset` empties the transcript and drops the system message, and nothing else. */
  lemma ResetClears(s: State, msg: string, now: string, i: nat)
    requires SplitCommand(msg).0 == "/reset"
    requires CurrentConversation(s) == Some(i)
    ensures var (t, r) := Transition(s, msg, now);
      && r == ReplyToUser("Conversation reset!")
      && t.current == s.current
      && |t.conversations| == |s.conversations|
      && t.conversations[i].messages == []
      && t.conversations[i].system == None
      && t.conversations[i].name == s.conversations[i].name
      && t.conversations[i].description == s.conversations[i].description
      && forall j :: 0 <= j < |s.conversations| && j != i ==> t.conversations[j] == s.conversations[j]
  {
  }

  /** `/rename` always leaves an active conversation whose name is the rest of the line. */
  lemma RenameNames(s: State, msg: string, now: string)
    requires SplitCommand(msg).0 == "/rename"
    ensures var (t, r) := Transition(s, msg, now);
      && r == ReplyToUser("Set current conversation name to \"" + SplitCommand(msg).1 + "\"!")
      && CurrentConversation(t).Some?
      && t.conversations[t.current.value].name == SplitCommand(msg).1
      && (CurrentConversation(s).Some? ==>
            && t.current == s.current && |t.conversations| == |s.conversations|
            && t.conversations[s.current.value] == s.conversations[s.current.value].(name := SplitCommand(msg).1))
      && (CurrentConversation(s).None? ==>
            t.current == Some(|s.conversations|)
            && t.conversations == s.conversations + [DefaultConversation(now).(name := SplitCommand(msg).1)])
      && forall j :: 0 <= j < |s.conversations| && Some(j) != t.current ==> t.conversations[j] == s.conversations[j]
  {
    var (u, i) := GetOrCreate(s, now);
    if CurrentConversation(s).None? {
      assert u.conversations[i := u.conversations[i].(name := SplitCommand(msg).1)]
          == s.conversations + [DefaultConversation(now).(name := SplitCommand(msg).1)];
    }
  }

  /** `/desc` points the caller at the active conversation and changes nothing. */
  lemma DescPointsAtCurrent(s: State, msg: string, now: string, i: nat)
    requires SplitCommand(msg).0 == "/desc"
    requires CurrentConversation(s) == Some(i)
    ensures Transition(s, msg, now) == (s, GenerateDescription(i))
  {
  }

  /** `/new` only clears the active index. */
  lemma NewClearsIndex(s: State, msg: string, now: string)
    requires SplitCommand(msg).0 == "/new"
    ensures Transition(s, msg, now) == (State(s.conversations, None), ReplyToUser("New conversation started"))
  {
  }

  /** `/list` changes nothing and lists every conversation in order. */
  lemma ListReadOnly(s: State, msg: string, now: string)
    requires SplitCommand(msg).0 == "/list"
    ensures Transition(s, msg, now) ==
      (s, ReplyToUser("Current conversations: " + Join(DisplayAll(s.conversations), "\n\n")))
  {
  }

  /** `/system` with text sets the system message; without text it only asks for one. */
  lemma SystemSets(s: State, msg: string, now: string, i: nat)
    requires SplitCommand(msg).0 == "/system"
    requires CurrentConversation(s) == Some(i)
    ensures var (t, r) := Transition(s, msg, now);
      if SplitCommand(msg).1 == "" then
        t == s && r == ReplyToUser("Please set a system message with `/system [system message]`.")
      else
        && r == ReplyToUser("System message set!")
        && t.current == s.current
        && t.conversations == s.conversations[i := s.conversations[i].(system := Some(SplitCommand(msg).1))]
  {
  }

  /**
   * `/redo` never changes the state. It is refused only when there is a last
   * message and someone other than the bot sent it; an empty transcript is
   * accepted.
   */
  lemma RedoNeverMutates(s: State, msg: string, now: string, i: nat)
    requires SplitCommand(msg).0 == "/redo"
    requires CurrentConversation(s) == Some(i)
    ensures var (t, r) := Transition(s, msg, now);
      var m := s.conversations[i].messages;
      && t == s
      && (r == ReplyToUser("Can only /redo if the last message is LlamaBot's!") <==>
            |m| > 0 && m[|m| - 1].from.User?)
      && (r != ReplyToUser("Can only /redo if the last message is LlamaBot's!") ==> r == RegenerateLastMessage(i))
  {
  }

  /** Any other token, `/help` included, changes nothing and is reported as unknown. */
  lemma UnknownUnchanged(s: State, msg: string, now: string)
    requires SplitCommand(msg).0 !in Commands
    ensures Transition(s, msg, now) == (s, ReplyToUser("Unknown command " + SplitCommand(msg).0 + "."))
  {
  }

  // Properties of every command.

  /**
   * No command removes a conversation or changes a description; at most one
   * conversation is added, and only by `/rename`.
   */
  lemma TransitionFrame(s: State, msg: string, now: string)
    ensures var t := Transition(s, msg, now).0;
      && |s.conversations| <= |t.conversations| <= |s.conversations| + 1
      && (|t.conversations| != |s.conversations| ==> SplitCommand(msg).0 == "/rename")
      && forall j :: 0 <= j < |s.conversations| ==>
           t.conversations[j].description == s.conversations[j].description
           && (t.conversations[j].messages == s.conversations[j].messages || t.conversations[j].messages == [])
  {
  }

  /** A state whose index is never stale stays that way. */
  lemma TransitionPreservesWellFormed(s: State, msg: string, now: string)
    requires WellFormed(s)
    ensures WellFormed(Transition(s, msg, now).0)
  {
  }

  /** A directive names the active conversation of the unchanged state. */
  lemma DirectivesNameCurrent(s: State, msg: string, now: string)
    ensures var (t, r) := Transition(s, msg, now);
      !r.ReplyToUser? ==> t == s && CurrentConversation(s) == Some(r.conversation)
  {
  }
}
