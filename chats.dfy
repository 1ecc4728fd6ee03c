/** The in-memory stand-in for the Telegram chats the store lives in: every
    chat is a sequence of messages, most recent first, and a history read
    returns at most the `HistoryLimit` most recent ones. */
module Chats {
  import opened Records

  datatype Message = Message(id: nat, text: string)

  type ChatMap = map<string, seq<Message>>

  /** All messages of a chat, most recent first; none for an unknown chat. */
  function History(chats: ChatMap, chat: string): seq<Message> {
    if chat in chats then chats[chat] else []
  }

  /** What `get_chat_history(chat_id=chat, limit=100)` yields. */
  function Recent(chats: ChatMap, chat: string): (r: seq<Message>)
    ensures |r| <= HistoryLimit && |r| <= |History(chats, chat)| && r == History(chats, chat)[..|r|]
    ensures |History(chats, chat)| <= HistoryLimit ==> r == History(chats, chat)
    ensures |History(chats, chat)| >= HistoryLimit ==> |r| == HistoryLimit
  {
    var h := History(chats, chat);
    if |h| <= HistoryLimit then h else h[..HistoryLimit]
  }

  /** The chats after `m` was sent to `chat`: it becomes the most recent message. */
  function Posted(chats: ChatMap, chat: string, m: Message): (r: ChatMap)
    ensures History(r, chat) == [m] + History(chats, chat)
    ensures forall c :: c != chat ==> History(r, c) == History(chats, c)
  {
    chats[chat := [m] + History(chats, chat)]
  }

  /** The messages with the text of every message numbered `id` replaced. */
  function Retexted(msgs: seq<Message>, id: nat, text: string): (r: seq<Message>)
    ensures |r| == |msgs|
    ensures forall k :: 0 <= k < |r| ==> r[k].id == msgs[k].id
    ensures forall k :: 0 <= k < |r| ==> r[k].text == if msgs[k].id == id then text else msgs[k].text
  {
    if |msgs| == 0 then []
    else [if msgs[0].id == id then Message(id, text) else msgs[0]] + Retexted(msgs[1..], id, text)
  }

  /** The chats after `edit_message_text(chat_id=chat, message_id=id, text=text)`. */
  function Edited(chats: ChatMap, chat: string, id: nat, text: string): (r: ChatMap)
    ensures History(r, chat) == Retexted(History(chats, chat), id, text)
    ensures forall c :: c != chat ==> History(r, c) == History(chats, c)
  {
    if chat in chats then chats[chat := Retexted(chats[chat], id, text)] else chats
  }

  /** The messages without those numbered `id`, the others in their order. */
  function Without(msgs: seq<Message>, id: nat): (r: seq<Message>)
    ensures |r| <= |msgs|
    ensures forall m :: m in r <==> m in msgs && m.id != id
  {
    if |msgs| == 0 then []
    else if msgs[0].id == id then Without(msgs[1..], id)
    else [msgs[0]] + Without(msgs[1..], id)
  }

  /** The chats after the message numbered `id` was deleted from `chat`. */
  function Deleted(chats: ChatMap, chat: string, id: nat): (r: ChatMap)
    ensures History(r, chat) == Without(History(chats, chat), id)
    ensures forall c :: c != chat ==> History(r, c) == History(chats, c)
  {
    if chat in chats then chats[chat := Without(chats[chat], id)] else chats
  }

  /** The bot's side of the chats: send, edit and delete, with message ids
      handed out in increasing order. */
  class Backend {
    var chats: ChatMap
    var nextId: nat

    constructor (initial: ChatMap, firstId: nat)
      ensures chats == initial && nextId == firstId
    {
      chats := initial;
      nextId := firstId;
    }

    method SendMessage(chat: string, text: string) returns (id: nat)
      modifies this
      ensures id == old(nextId) && nextId == old(nextId) + 1
      ensures chats == Posted(old(chats), chat, Message(id, text))
    {
      id := nextId;
      chats := Posted(chats, chat, Message(id, text));
      nextId := nextId + 1;
    }

    method EditMessageText(chat: string, id: nat, text: string)
      modifies this
      ensures nextId == old(nextId) && chats == Edited(old(chats), chat, id, text)
    {
      chats := Edited(chats, chat, id, text);
    }

    method DeleteMessage(chat: string, id: nat)
      modifies this
      ensures nextId == old(nextId) && chats == Deleted(old(chats), chat, id)
    {
      chats := Deleted(chats, chat, id);
    }
  }
}
