/**
 * azure-openai-honeyhive-cookbook/multi_turn_conversation.py: the `Conversation` class, which
 * keeps the chat messages and a turn counter, and the scripted conversations that drive it.
 * The chat-completion call is an input: the reply for the messages sent.
 */
module MultiTurnConversation {
  import opened Wrappers

  datatype ChatMessage = ChatMessage(role: string, content: string)

  datatype Usage = Usage(promptTokens: nat, completionTokens: nat, totalTokens: nat)

  /** The completion call: it raises, or returns the first choice's message and the usage. */
  datatype ChatReply = ChatRaised(error: PyError) | ChatOk(role: string, content: string, usage: Usage)

  /** What `add_user_message` returns for a completed turn. */
  datatype TurnResult = TurnResult(role: string, content: string, turn: nat, usage: Usage)

  const DefaultSystemMessage := "You are a helpful assistant."

  /** The number of messages with the given role. */
  function CountRole(messages: seq<ChatMessage>, role: string): (n: nat)
    ensures n <= |messages|
    decreases |messages|
  {
    if messages == [] then 0
    else CountRole(messages[..|messages| - 1], role) + (if messages[|messages| - 1].role == role then 1 else 0)
  }

  lemma CountRoleAppend(messages: seq<ChatMessage>, m: ChatMessage, role: string)
    ensures CountRole(messages + [m], role) == CountRole(messages, role) + (if m.role == role then 1 else 0)
  {
    assert (messages + [m])[..|messages|] == messages;
  }

  class Conversation {
    var messages: seq<ChatMessage>
    var turnCount: nat

    /**
     * The system message stays first, and the rest of the conversation holds exactly one user
     * message per turn.
     */
    predicate Valid()
      reads this
    {
      |messages| >= 1 && messages[0].role == "system" &&
      CountRole(messages[1..], "user") == turnCount
    }

    /** `Conversation(system_message)`: just the system message, at turn 0. */
    constructor (systemMessage: string)
      ensures Valid()
      ensures messages == [ChatMessage("system", systemMessage)] && turnCount == 0
    {
      messages := [ChatMessage("system", systemMessage)];
      turnCount := 0;
    }

    /**
     * `add_user_message`: count the turn and append the user message before the call; on a
     * reply append the assistant message and return the turn, otherwise re-raise, leaving the
     * user message without a reply.
     */
    method AddUserMessage(content: string, complete: seq<ChatMessage> -> ChatReply) returns (r: Result<TurnResult>)
      requires Valid()
      modifies this
      ensures Valid()
      ensures turnCount == old(turnCount) + 1
      ensures var sent := old(messages) + [ChatMessage("user", content)];
        match complete(sent)
        case ChatRaised(error) => messages == sent && r == Err(error)
        case ChatOk(role, reply, usage) =>
          messages == sent + [ChatMessage("assistant", reply)] && r == Ok(TurnResult(role, reply, turnCount, usage))
    {
      turnCount := turnCount + 1;
      var user := ChatMessage("user", content);
      CountRoleAppend(messages[1..], user, "user");
      assert (messages + [user])[1..] == messages[1..] + [user];
      messages := messages + [user];
      var response := complete(messages);
      match response {
        case ChatRaised(error) =>
          return Err(error);
        case ChatOk(role, reply, usage) =>
          var assistant := ChatMessage("assistant", reply);
          CountRoleAppend(messages[1..], assistant, "user");
          assert (messages + [assistant])[1..] == messages[1..] + [assistant];
          messages := messages + [assistant];
          return Ok(TurnResult(role, reply, turnCount, usage));
      }
    }

    /** `get_conversation_history`: every message after the system message. */
    function GetConversationHistory(): (history: seq<ChatMessage>)
      requires Valid()
      reads this
      ensures messages == [messages[0]] + history
      ensures CountRole(history, "user") == turnCount
    {
      messages[1..]
    }

    /** `get_current_turn`: the number of user messages added so far. */
    function GetCurrentTurn(): (turn: nat)
      requires Valid()
      reads this
      ensures turn == CountRole(GetConversationHistory(), "user")
    {
      turnCount
    }
  }

  /** The history of a conversation whose every turn got a reply: user, assistant, in turn order. */
  function Exchanged(contents: seq<string>, replies: seq<string>): (history: seq<ChatMessage>)
    requires |contents| == |replies|
    ensures |history| == 2 * |contents|
    decreases |contents|
  {
    if contents == [] then []
    else
      var n := |contents| - 1;
      Exchanged(contents[..n], replies[..n]) + [ChatMessage("user", contents[n]), ChatMessage("assistant", replies[n])]
  }

  /** The k-th exchange of the history is the k-th user message and its reply. */
  lemma {:induction false} ExchangedAt(contents: seq<string>, replies: seq<string>, k: nat)
    requires |contents| == |replies| && k < |contents|
    ensures Exchanged(contents, replies)[2 * k] == ChatMessage("user", contents[k])
    ensures Exchanged(contents, replies)[2 * k + 1] == ChatMessage("assistant", replies[k])
    decreases |contents|
  {
    var n := |contents| - 1;
    if k < n {
      ExchangedAt(contents[..n], replies[..n], k);
    }
  }

  /** The final report counts `len(history) // 2` exchanges: one per completed turn. */
  lemma ExchangeCount(contents: seq<string>, replies: seq<string>)
    requires |contents| == |replies|
    ensures |Exchanged(contents, replies)| / 2 == |contents|
  {
  }

  /** The messages sent at a turn: the system message, the earlier exchanges, the new user message. */
  function Sent(systemMessage: string, earlier: seq<string>, replies: seq<string>, content: string): seq<ChatMessage>
    requires |earlier| == |replies|
  {
    [ChatMessage("system", systemMessage)] + Exchanged(earlier, replies) + [ChatMessage("user", content)]
  }

  /**
   * The replies of a conversation over the given user messages: each turn's call sees every
   * earlier exchange, and the first call that raises ends the conversation with its error.
   */
  function TurnReplies(systemMessage: string, contents: seq<string>, complete: seq<ChatMessage> -> ChatReply): (r: Result<seq<string>>)
    ensures r.Ok? ==> |r.value| == |contents|
    decreases |contents|
  {
    if contents == [] then Ok([])
    else
      var n := |contents| - 1;
      var earlier :- TurnReplies(systemMessage, contents[..n], complete);
      match complete(Sent(systemMessage, contents[..n], earlier, contents[n]))
      case ChatRaised(error) => Err(error)
      case ChatOk(_, reply, _) => Ok(earlier + [reply])
  }

  /** When every call replies, every turn completes. */
  lemma {:induction false} AllTurnsReply(systemMessage: string, contents: seq<string>, complete: seq<ChatMessage> -> ChatReply)
    requires forall messages: seq<ChatMessage> :: complete(messages).ChatOk?
    ensures TurnReplies(systemMessage, contents, complete).Ok?
    decreases |contents|
  {
    if contents != [] {
      AllTurnsReply(systemMessage, contents[..|contents| - 1], complete);
    }
  }

  /** The replies of a prefix of the turns are the prefix of the replies. */
  lemma {:induction false} TurnRepliesPrefix(systemMessage: string, contents: seq<string>, complete: seq<ChatMessage> -> ChatReply, k: nat)
    requires k <= |contents| && TurnReplies(systemMessage, contents, complete).Ok?
    ensures TurnReplies(systemMessage, contents[..k], complete) == Ok(TurnReplies(systemMessage, contents, complete).value[..k])
    decreases |contents| - k
  {
    var n := |contents| - 1;
    if k == |contents| {
      assert contents[..k] == contents;
      assert TurnReplies(systemMessage, contents, complete).value[..k] == TurnReplies(systemMessage, contents, complete).value;
    } else {
      var earlier := TurnReplies(systemMessage, contents[..n], complete).value;
      assert TurnReplies(systemMessage, contents, complete).value == earlier + [TurnReplies(systemMessage, contents, complete).value[n]];
      TurnRepliesPrefix(systemMessage, contents[..n], complete, k);
      assert contents[..n][..k] == contents[..k];
      assert earlier[..k] == TurnReplies(systemMessage, contents, complete).value[..k];
    }
  }

  /** Reply k is the content of the call made at turn k on the conversation so far. */
  lemma ReplyAt(systemMessage: string, contents: seq<string>, complete: seq<ChatMessage> -> ChatReply, k: nat)
    requires k < |contents| && TurnReplies(systemMessage, contents, complete).Ok?
    ensures var replies := TurnReplies(systemMessage, contents, complete).value;
      var reply := complete(Sent(systemMessage, contents[..k], replies[..k], contents[k]));
      reply.ChatOk? && replies[k] == reply.content
  {
    var replies := TurnReplies(systemMessage, contents, complete).value;
    TurnRepliesPrefix(systemMessage, contents, complete, k + 1);
    assert contents[..k + 1][..k] == contents[..k];
    assert contents[..k + 1][k] == contents[k];
    assert replies[..k + 1] == replies[..k] + [replies[k]];
  }

  /** The first turn whose call raises ends the conversation with that call's error. */
  lemma {:induction false} FirstFailureRaised(systemMessage: string, contents: seq<string>, complete: seq<ChatMessage> -> ChatReply, k: nat)
    requires k < |contents| && TurnReplies(systemMessage, contents[..k], complete).Ok?
    requires complete(Sent(systemMessage, contents[..k], TurnReplies(systemMessage, contents[..k], complete).value, contents[k])).ChatRaised?
    ensures TurnReplies(systemMessage, contents, complete) ==
      Err(complete(Sent(systemMessage, contents[..k], TurnReplies(systemMessage, contents[..k], complete).value, contents[k])).error)
  {
    assert contents[..k + 1][..k] == contents[..k];
    assert contents[..k + 1][k] == contents[k];
    TurnRepliesPrefixFailure(systemMessage, contents, complete, k + 1);
  }

  lemma {:induction false} TurnRepliesPrefixFailure(systemMessage: string, contents: seq<string>, complete: seq<ChatMessage> -> ChatReply, n: nat)
    requires 0 < n <= |contents| && TurnReplies(systemMessage, contents[..n], complete).Err?
    ensures TurnReplies(systemMessage, contents, complete) == TurnReplies(systemMessage, contents[..n], complete)
    decreases |contents| - n
  {
    if n < |contents| {
      assert contents[..n + 1][..n] == contents[..n];
      TurnRepliesPrefixFailure(systemMessage, contents, complete, n + 1);
    } else {
      assert contents[..n] == contents;
    }
  }

  /**
   * `run_rich_conversation` / `run_tech_support_conversation`: a conversation over the given
   * user messages, turn by turn. The first failing call is re-raised; otherwise the history
   * alternates each user message and its reply, and the replies come back in turn order.
   */
  method RunConversation(systemMessage: string, contents: seq<string>, complete: seq<ChatMessage> -> ChatReply)
    returns (r: Result<(seq<ChatMessage>, seq<string>)>)
    ensures TurnReplies(systemMessage, contents, complete).Err? ==> r == Err(TurnReplies(systemMessage, contents, complete).error)
    ensures TurnReplies(systemMessage, contents, complete).Ok? ==>
      var replies := TurnReplies(systemMessage, contents, complete).value;
      r == Ok((Exchanged(contents, replies), replies))
  {
    var conversation := new Conversation(systemMessage);
    var replies: seq<string> := [];
    var i := 0;
    while i < |contents|
      invariant 0 <= i <= |contents| && |replies| == i
      invariant conversation.Valid()
      invariant TurnReplies(systemMessage, contents[..i], complete) == Ok(replies)
      invariant conversation.messages == [ChatMessage("system", systemMessage)] + Exchanged(contents[..i], replies)
    {
      assert contents[..i + 1][..i] == contents[..i];
      assert contents[..i + 1][i] == contents[i];
      assert conversation.messages + [ChatMessage("user", contents[i])] == Sent(systemMessage, contents[..i], replies, contents[i]);
      var turn := conversation.AddUserMessage(contents[i], complete);
      if turn.Err? {
        FirstFailureRaised(systemMessage, contents, complete, i);
        return Err(turn.error);
      }
      assert (replies + [turn.value.content])[..i] == replies;
      replies := replies + [turn.value.content];
      i := i + 1;
    }
    assert contents[..i] == contents;
    var history := conversation.GetConversationHistory();
    return Ok((history, replies));
  }
}
