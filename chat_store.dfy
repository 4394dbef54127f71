/**
 * The message store the chat service writes to: an append-only table of
 * messages, each tagged with its chat and a free-text role. Reading a chat's
 * history selects that chat's rows in insertion order.
 */
module ChatStore {

  /** The roles the chat service writes; the column itself accepts any text. */
  const HumanRole: string := "human"
  const AiRole: string := "ai"
  const ToolRole: string := "tool"

  datatype Message = Message(chatId: int, content: string, role: string)

  /** `select ... where chatId = ?`: the rows of one chat, in the order they were written. */
  function ChatRows(rows: seq<Message>, chatId: int): (r: seq<Message>)
    ensures |r| <= |rows|
  {
    if rows == [] then []
    else
      var init := ChatRows(rows[..|rows| - 1], chatId);
      var last := rows[|rows| - 1];
      if last.chatId == chatId then init + [last] else init
  }

  /** Writing a row of this chat extends its history by exactly that row; a row of another chat leaves it alone. */
  lemma ChatRowsAppend(rows: seq<Message>, m: Message, chatId: int)
    ensures ChatRows(rows + [m], chatId) ==
      ChatRows(rows, chatId) + (if m.chatId == chatId then [m] else [])
  {
    assert (rows + [m])[..|rows|] == rows;
  }

  /** A chat's history holds every one of its rows and nothing else. */
  lemma {:induction false} ChatRowsMembers(rows: seq<Message>, chatId: int, m: Message)
    ensures m in ChatRows(rows, chatId) <==> m in rows && m.chatId == chatId
  {
    if rows != [] {
      var init := rows[..|rows| - 1];
      ChatRowsMembers(init, chatId, m);
      assert rows == init + [rows[|rows| - 1]];
    }
  }

  class MessageStore {
    var messages: seq<Message>

    constructor ()
      ensures messages == []
    {
      messages := [];
    }

    /**
     * `createMessage(chatId, content, role)`: appends one row, which thus
     * comes last in its chat's history (`ChatRowsAppend`: other chats' are
     * left alone).
     */
    method CreateMessage(chatId: int, content: string, role: string)
      modifies this
      ensures messages == old(messages) + [Message(chatId, content, role)]
      ensures ChatRows(messages, chatId) == ChatRows(old(messages), chatId) + [Message(chatId, content, role)]
    {
      ChatRowsAppend(messages, Message(chatId, content, role), chatId);
      messages := messages + [Message(chatId, content, role)];
    }

    /**
     * `getMessagesByChatId(chatId)`: every stored row of the chat, as often as
     * it was stored, in the order written (see `CreateMessage`).
     */
    function MessagesByChat(chatId: int): (r: seq<Message>)
      reads this
      ensures forall m :: m in r <==> m in messages && m.chatId == chatId
      ensures forall m :: multiset(r)[m] == if m.chatId == chatId then multiset(messages)[m] else 0
    {
      ChatRowsMembersAll(messages, chatId);
      ChatRowsCountsAll(messages, chatId);
      ChatRows(messages, chatId)
    }
  }

  /** A row of the chat occurs in its history as often as in the store; a row of another chat not at all. */
  lemma {:induction false} ChatRowsCounts(rows: seq<Message>, chatId: int, m: Message)
    ensures multiset(ChatRows(rows, chatId))[m] == if m.chatId == chatId then multiset(rows)[m] else 0
  {
    if rows != [] {
      var init := rows[..|rows| - 1];
      var last := rows[|rows| - 1];
      ChatRowsCounts(init, chatId, m);
      assert rows == init + [last];
      assert multiset(rows) == multiset(init) + multiset{last};
    }
  }

  lemma ChatRowsCountsAll(rows: seq<Message>, chatId: int)
    ensures forall m :: multiset(ChatRows(rows, chatId))[m] == if m.chatId == chatId then multiset(rows)[m] else 0
  {
    forall m | true
      ensures multiset(ChatRows(rows, chatId))[m] == if m.chatId == chatId then multiset(rows)[m] else 0
    {
      ChatRowsCounts(rows, chatId, m);
    }
  }

  lemma ChatRowsMembersAll(rows: seq<Message>, chatId: int)
    ensures forall m :: m in ChatRows(rows, chatId) <==> m in rows && m.chatId == chatId
  {
    forall m | true
      ensures m in ChatRows(rows, chatId) <==> m in rows && m.chatId == chatId
    {
      ChatRowsMembers(rows, chatId, m);
    }
  }
}
