/** The chat store of the web client: the open conversation, its messages,
    the reply being streamed in (`partial`) and whether a reply is being
    generated (`responding`). Server answers are parameters; a streamed reply
    is the sequence of items the server sends, each a piece of reply text or
    a finished message. */
module Chats {
  import opened Wrappers
  import opened Lists
  import opened Schema

  /** One item of a streamed reply. */
  datatype StreamItem = Chunk(text: string) | Created(msg: ChatMessage)

  /** The open conversation. Its character is absent when a chat was created
      before the character's chat list was loaded. */
  datatype ActiveChat = ActiveChat(chat: Chat, character: Option<Character>)

  datatype ChatList = ChatList(loaded: bool, character: Character, list: seq<Chat>)

  datatype NewChat = NewChat(name: string, greeting: string, scenario: string, sampleChat: string)

  /** The answer to a request for one conversation. */
  datatype ChatBundle = ChatBundle(chat: Chat, messages: seq<ChatMessage>, character: Character)

  /** The answer to a request for a character's conversations. */
  datatype CharacterChats = CharacterChats(character: Character, chats: seq<Chat>)

  datatype SendRequest = SendRequest(chatId: string, message: string, history: seq<ChatMessage>)

  datatype CreateRequest = CreateRequest(characterId: string, props: NewChat)

  /** The reply text carried by the chunks of a stream, in order. */
  function StreamText(items: seq<StreamItem>): string {
    if items == [] then []
    else
      var last := items[|items| - 1];
      StreamText(items[..|items| - 1]) + (if last.Chunk? then last.text else [])
  }

  /** The finished messages of a stream, in order. */
  function StreamMessages(items: seq<StreamItem>): seq<ChatMessage> {
    if items == [] then []
    else
      var last := items[|items| - 1];
      StreamMessages(items[..|items| - 1]) + (if last.Created? then [last.msg] else [])
  }

  /** The successive values `partial` shows while the stream is read: one per
      chunk, the reply text up to and including that chunk. */
  function Partials(items: seq<StreamItem>): seq<string> {
    if items == [] then []
    else
      Partials(items[..|items| - 1]) + (if items[|items| - 1].Chunk? then [StreamText(items)] else [])
  }

  /** Reading one more item of a stream: a chunk extends the text and shows
      it, a finished message is appended to the messages. */
  lemma StreamStep(stream: seq<StreamItem>, i: nat)
    requires i < |stream|
    ensures stream[i].Chunk? ==>
      && StreamText(stream[..i + 1]) == StreamText(stream[..i]) + stream[i].text
      && StreamMessages(stream[..i + 1]) == StreamMessages(stream[..i])
      && Partials(stream[..i + 1]) == Partials(stream[..i]) + [StreamText(stream[..i + 1])]
    ensures stream[i].Created? ==>
      && StreamText(stream[..i + 1]) == StreamText(stream[..i])
      && StreamMessages(stream[..i + 1]) == StreamMessages(stream[..i]) + [stream[i].msg]
      && Partials(stream[..i + 1]) == Partials(stream[..i])
  {
    assert stream[..i + 1][..i] == stream[..i];
    var text, got, shown := StreamText(stream[..i]), StreamMessages(stream[..i]), Partials(stream[..i]);
    assert text + [] == text && got + [] == got && shown + [] == shown;
  }

  predicate IsPrefix(a: string, b: string) {
    |a| <= |b| && b[..|a|] == a
  }

  /** The text of a stream read in two parts is the two texts joined. */
  lemma {:induction false} StreamTextAppend(a: seq<StreamItem>, b: seq<StreamItem>)
    ensures StreamText(a + b) == StreamText(a) + StreamText(b)
    decreases |b|
  {
    if b == [] {
      assert a + b == a;
    } else {
      var n := |b| - 1;
      assert (a + b)[..|a + b| - 1] == a + b[..n];
      assert (a + b)[|a + b| - 1] == b[n];
      StreamTextAppend(a, b[..n]);
    }
  }

  /** The messages of a stream read in two parts are the two lists joined. */
  lemma {:induction false} StreamMessagesAppend(a: seq<StreamItem>, b: seq<StreamItem>)
    ensures StreamMessages(a + b) == StreamMessages(a) + StreamMessages(b)
    decreases |b|
  {
    if b == [] {
      assert a + b == a;
    } else {
      var n := |b| - 1;
      assert (a + b)[..|a + b| - 1] == a + b[..n];
      assert (a + b)[|a + b| - 1] == b[n];
      StreamMessagesAppend(a, b[..n]);
    }
  }

  /** The reply text only ever grows while it streams in: every value shown
      extends the ones shown before it, and the last one is the whole text. */
  lemma {:induction false} PartialsGrow(items: seq<StreamItem>)
    ensures forall i :: 0 <= i < |Partials(items)| ==> IsPrefix(Partials(items)[i], StreamText(items))
    ensures forall i, j :: 0 <= i < j < |Partials(items)| ==> IsPrefix(Partials(items)[i], Partials(items)[j])
    ensures Partials(items) != [] ==> Partials(items)[|Partials(items)| - 1] == StreamText(items)
    decreases |items|
  {
    if items != [] {
      var init := items[..|items| - 1];
      PartialsGrow(init);
      var p, q := Partials(init), Partials(items);
      var whole, before := StreamText(items), StreamText(init);
      assert IsPrefix(before, whole);
      forall i | 0 <= i < |q| ensures IsPrefix(q[i], whole) {
        if i < |p| {
          assert q[i] == p[i];
          assert whole[..|q[i]|] == before[..|q[i]|];
        }
      }
      forall i, j | 0 <= i < j < |q| ensures IsPrefix(q[i], q[j]) {
        if j < |p| {
          assert q[i] == p[i] && q[j] == p[j];
        }
      }
    }
  }

  class ChatStore {
    var lastChatId: Option<string>
    var activeChat: Option<ActiveChat>
    var responding: bool
    var msgs: seq<ChatMessage>
    var chats: Option<ChatList>
    var partial: Option<string>

    /** `savedChatId` is the chat id remembered from an earlier visit. */
    constructor (savedChatId: Option<string>)
      ensures lastChatId == savedChatId && activeChat == None && !responding
      ensures msgs == [] && chats == None && partial == None
    {
      lastChatId := savedChatId;
      activeChat := None;
      responding := false;
      msgs := [];
      chats := None;
      partial := None;
    }

    /** Opens conversation `id` with what the server returned for it; when
        the server failed (`None`) nothing changes. */
    method GetChat(id: string, response: Option<ChatBundle>)
      modifies this
      ensures response.Some? ==>
        && lastChatId == Some(id)
        && activeChat == Some(ActiveChat(response.value.chat, Some(response.value.character)))
        && msgs == response.value.messages
      ensures response.None? ==> lastChatId == old(lastChatId) && activeChat == old(activeChat) && msgs == old(msgs)
      ensures responding == old(responding) && chats == old(chats) && partial == old(partial)
    {
      if response.Some? {
        lastChatId := Some(id);
        activeChat := Some(ActiveChat(response.value.chat, Some(response.value.character)));
        msgs := response.value.messages;
      }
    }

    /** Loads the conversations of a character. */
    method GetChats(characterId: string, response: Option<CharacterChats>)
      modifies this
      ensures chats == if response.Some? then Some(ChatList(true, response.value.character, response.value.chats))
                       else old(chats)
      ensures lastChatId == old(lastChatId) && activeChat == old(activeChat) && responding == old(responding)
      ensures msgs == old(msgs) && partial == old(partial)
    {
      if response.Some? {
        chats := Some(ChatList(true, response.value.character, response.value.chats));
      }
    }

    /** Creates a conversation with a character and opens it; `created` is the
        new conversation's id, handed to the success callback. */
    method CreateChat(characterId: string, props: NewChat, response: Option<Chat>)
      returns (request: CreateRequest, created: Option<string>)
      modifies this
      ensures request == CreateRequest(characterId, props)
      ensures response.Some? ==>
        && created == Some(response.value.id)
        && activeChat == Some(ActiveChat(response.value,
                                         if old(chats).Some? then Some(old(chats).value.character) else None))
      ensures response.None? ==> created == None && activeChat == old(activeChat)
      ensures lastChatId == old(lastChatId) && responding == old(responding)
      ensures msgs == old(msgs) && chats == old(chats) && partial == old(partial)
    {
      request := CreateRequest(characterId, props);
      created := None;
      if response.Some? {
        var character := if chats.Some? then Some(chats.value.character) else None;
        activeChat := Some(ActiveChat(response.value, character));
        created := Some(response.value.id);
      }
    }

    /** The id of the open conversation, or empty when there is none. */
    function ActiveChatId(): (id: string)
      reads this
      ensures id != [] ==> activeChat.Some?
      ensures activeChat.Some? ==> id == activeChat.value.chat.id
    {
      if activeChat.Some? then activeChat.value.chat.id else []
    }

    /** Sends `message` with at most the last ten messages as history and
        reads the streamed reply: each chunk extends `partial`, each finished
        message is appended to the list. `shown` lists the values `partial`
        took while the stream was read. Without an open chat nothing is sent. */
    method Send(message: string, stream: seq<StreamItem>) returns (request: Option<SendRequest>, shown: seq<string>)
      modifies this
      ensures lastChatId == old(lastChatId) && activeChat == old(activeChat) && chats == old(chats)
      ensures partial == None
      ensures old(ActiveChatId()) == [] ==>
        request == None && shown == [] && msgs == old(msgs) && responding == old(responding)
      ensures old(ActiveChatId()) != [] ==>
        && request == Some(SendRequest(old(ActiveChatId()), message, Recent(old(msgs), 10, 0)))
        && msgs == old(msgs) + StreamMessages(stream)
        && shown == Partials(stream)
        && !responding
    {
      var chatId := ActiveChatId();
      var history := Slice(msgs, -10, |msgs|);
      SliceLast(msgs, 10);
      partial := Some([]);
      if chatId == [] {
        partial := None;
        return None, [];
      }
      responding := true;
      request := Some(SendRequest(chatId, message, history));
      shown := ReadStream(stream);
      responding, partial := false, None;
    }

    /** Reads a streamed reply in order: each chunk extends the reply text
        shown in `partial`, each finished message is appended to the list.
        `shown` lists the values `partial` takes. */
    method ReadStream(stream: seq<StreamItem>) returns (shown: seq<string>)
      requires partial == Some([])
      modifies this
      ensures partial == Some(StreamText(stream))
      ensures msgs == old(msgs) + StreamMessages(stream)
      ensures shown == Partials(stream)
      ensures lastChatId == old(lastChatId) && activeChat == old(activeChat)
      ensures chats == old(chats) && responding == old(responding)
    {
      var current: string := [];
      shown := [];
      var i := 0;
      while i < |stream|
        invariant 0 <= i <= |stream|
        invariant current == StreamText(stream[..i]) && partial == Some(current)
        invariant msgs == old(msgs) + StreamMessages(stream[..i])
        invariant shown == Partials(stream[..i])
        invariant lastChatId == old(lastChatId) && activeChat == old(activeChat)
        invariant chats == old(chats) && responding == old(responding)
      {
        StreamStep(stream, i);
        if stream[i].Chunk? {
          current := current + stream[i].text;
          partial := Some(current);
          shown := shown + [current];
        } else {
          msgs := msgs + [stream[i].msg];
        }
        i := i + 1;
      }
      assert stream[..i] == stream;
    }

    /** Drops the last two messages and sends the earlier of them again. With
        fewer than three messages nothing happens. */
    method Retry(stream: seq<StreamItem>) returns (request: Option<SendRequest>, shown: seq<string>)
      modifies this
      ensures lastChatId == old(lastChatId) && activeChat == old(activeChat) && chats == old(chats)
      ensures |old(msgs)| < 3 ==>
        request == None && shown == [] && msgs == old(msgs)
        && responding == old(responding) && partial == old(partial)
      ensures |old(msgs)| >= 3 ==>
        var n := |old(msgs)|;
        && partial == None
        && (old(ActiveChatId()) == [] ==>
              request == None && shown == [] && msgs == old(msgs)[..n - 2] && responding == old(responding))
        && (old(ActiveChatId()) != [] ==>
              && !responding
              && request == Some(SendRequest(old(ActiveChatId()), old(msgs)[n - 2].msg,
                                             Recent(old(msgs)[..n - 2], 10, 0)))
              && msgs == old(msgs)[..n - 2] + StreamMessages(stream)
              && shown == Partials(stream))
    {
      if |msgs| < 3 {
        return None, [];
      }
      var n := |msgs|;
      var pair := Slice(msgs, -2, n);
      SliceLast(msgs, 2);
      var message := pair[0];
      SliceDropLast(msgs, 2);
      msgs := Slice(msgs, 0, -2);
      request, shown := Send(message.msg, stream);
    }
  }
}
