/**
 * Conversation history of one session (Services/Implementations/SessionHistory.cs):
 * an append-only list of role/content messages with a most-recent-N text view.
 */
module History {

  /** Models/DTOs/Message.cs. */
  datatype Message = Message(role: string, content: string)

  const UserRole: string := "user"
  const AssistantRole: string := "assistant"

  /** The window `GetFormattedHistory` uses when called without an argument. */
  const DefaultWindow: int := 10

  function Min(a: int, b: int): int { if a < b then a else b }

  /** LINQ `TakeLast(n)`: the last `n` elements, all of them when there are fewer, none when `n <= 0`. */
  function TakeLast<T>(s: seq<T>, n: int): (r: seq<T>)
    ensures |r| == if n <= 0 then 0 else Min(n, |s|)
    ensures r == s[|s| - |r|..]
  {
    if n <= 0 then [] else if n >= |s| then s else s[|s| - n..]
  }

  /** One `AppendLine($"{msg.Role}: {msg.Content}")`. */
  function FormatLine(m: Message): string {
    m.role + ": " + m.content + "\n"
  }

  /** The text a StringBuilder holds after appending the lines of `ms` in order. */
  function FormatAll(ms: seq<Message>): string {
    if ms == [] then "" else FormatAll(ms[..|ms| - 1]) + FormatLine(ms[|ms| - 1])
  }

  /** The text `GetFormattedHistory(n)` returns for the messages `ms`. */
  function FormattedHistory(ms: seq<Message>, n: int): string {
    FormatAll(TakeLast(ms, n))
  }

  /** Formatting distributes over concatenation: lines appear oldest first. */
  lemma {:induction false} FormatAllAppend(a: seq<Message>, b: seq<Message>)
    ensures FormatAll(a + b) == FormatAll(a) + FormatAll(b)
    decreases |b|
  {
    if b == [] {
      assert a + b == a;
    } else {
      var last := b[|b| - 1];
      assert (a + b)[..|a + b| - 1] == a + b[..|b| - 1];
      FormatAllAppend(a, b[..|b| - 1]);
    }
  }

  /** Read front to back, the formatted text is the first message's line followed by the rest. */
  lemma FormatAllCons(m: Message, rest: seq<Message>)
    ensures FormatAll([m] + rest) == FormatLine(m) + FormatAll(rest)
  {
    FormatAllAppend([m], rest);
    assert [m][..0] == [];
  }

  /** The formatted text is empty exactly when no message is formatted. */
  lemma {:induction false} FormatAllEmptyIff(ms: seq<Message>)
    ensures FormatAll(ms) == "" <==> ms == []
    decreases |ms|
  {
    if ms != [] {
      var line := FormatLine(ms[|ms| - 1]);
      assert line[|line| - 1] == '\n';
      assert |FormatAll(ms)| >= |line| > 0;
    }
  }

  /** `GetFormattedHistory(n)` is empty exactly when the history is empty or `n <= 0`. */
  lemma FormattedHistoryEmptyIff(ms: seq<Message>, n: int)
    ensures FormattedHistory(ms, n) == "" <==> (ms == [] || n <= 0)
  {
    FormatAllEmptyIff(TakeLast(ms, n));
  }

  /** A window at least as large as the history formats the whole history. */
  lemma FormattedHistoryWholeWhenWide(ms: seq<Message>, n: int)
    requires n >= |ms|
    ensures FormattedHistory(ms, n) == FormatAll(ms)
  {
    assert TakeLast(ms, n) == ms[0..] == ms;
  }

  /** The StringBuilder loop of `GetFormattedHistory` over a snapshot of the messages. */
  method FormatRecent(messages: seq<Message>, maxMessages: int) returns (text: string)
    ensures text == FormattedHistory(messages, maxMessages)
  {
    var recent := TakeLast(messages, maxMessages);
    var sb := "";
    for i := 0 to |recent|
      invariant sb == FormatAll(recent[..i])
    {
      assert recent[..i + 1][..i] == recent[..i];
      sb := sb + FormatLine(recent[i]);
    }
    assert recent[..|recent|] == recent;
    text := sb;
  }

  /** `List<Message>`, the object `GetMessages` hands out. */
  class MessageList {
    var items: seq<Message>

    constructor (items: seq<Message>)
      ensures this.items == items
    {
      this.items := items;
    }

    /** `List.Add`. */
    method Add(m: Message)
      modifies this
      ensures items == old(items) + [m]
    {
      items := items + [m];
    }
  }

  /**
   * The session's history. The lock that guards every member is left out:
   * each call is one atomic step.
   */
  class SessionHistory {
    var messages: seq<Message>

    constructor ()
      ensures messages == []
    {
      messages := [];
    }

    method AddUserUtterance(text: string)
      modifies this
      ensures messages == old(messages) + [Message(UserRole, text)]
    {
      messages := messages + [Message(UserRole, text)];
    }

    method AddAgentResponse(text: string)
      modifies this
      ensures messages == old(messages) + [Message(AssistantRole, text)]
    {
      messages := messages + [Message(AssistantRole, text)];
    }

    /** A new list with the current messages; changing it does not touch the history. */
    method GetMessages() returns (r: MessageList)
      ensures fresh(r) && r.items == messages
    {
      r := new MessageList(messages);
    }

    /** The "role: content" lines of the last `maxMessages` messages, oldest first. */
    method GetFormattedHistory(maxMessages: int := DefaultWindow) returns (text: string)
      ensures text == FormattedHistory(messages, maxMessages)
    {
      text := FormatRecent(messages, maxMessages);
    }
  }

  /** A user turn followed by an agent turn formats, in a wide enough window, as their two lines in order. */
  lemma {:induction false} TurnFormatsInOrder(before: seq<Message>, user: string, answer: string)
    ensures FormattedHistory(before + [Message(UserRole, user), Message(AssistantRole, answer)], |before| + 2)
            == FormatAll(before) + (FormatLine(Message(UserRole, user)) + FormatLine(Message(AssistantRole, answer)))
  {
    var u, a := Message(UserRole, user), Message(AssistantRole, answer);
    var all := before + [u, a];
    FormattedHistoryWholeWhenWide(all, |before| + 2);
    FormatAllAppend(before, [u, a]);
    assert FormatAll([a]) == FormatLine(a) by {
      assert [a][..0] == [];
    }
    assert FormatAll([u, a]) == FormatLine(u) + FormatLine(a) by {
      assert [u, a][..1] == [u];
      assert [u][..0] == [];
    }
  }
}
