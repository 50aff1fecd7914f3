/** The message-list store of the web client: the messages of the open chat,
    the text of a reply being generated (`partial`), the message being
    regenerated (`retrying`) and the chat awaiting a reply (`waiting`). The
    actions edit, delete, retry and send against the list; the socket
    handlers apply what the server reports. Network calls are parameters
    (what the server answered) and out-parameters (what the client sent). */
module Messages {
  import opened Wrappers
  import opened Lists
  import opened Schema

  /** A request to generate a reply to `message`, with the recent history. */
  datatype SendRequest = SendRequest(chatId: string, message: string, history: seq<ChatMessage>, retry: bool)

  /** A request to regenerate the reply `replaceId` to `message`. */
  datatype RetryRequest = RetryRequest(chatId: string, replaceId: string, message: string, history: seq<ChatMessage>)

  /** The list after editing the text of message `id`. */
  function Edited(msgs: seq<ChatMessage>, id: string, text: string): (r: seq<ChatMessage>)
    ensures |r| == |msgs|
    ensures forall i :: 0 <= i < |r| ==> r[i].msg == (if msgs[i].id == id then text else msgs[i].msg)
    ensures forall i :: 0 <= i < |r| ==> r[i].(msg := msgs[i].msg) == msgs[i]
  {
    seq(|msgs|, i requires 0 <= i < |msgs| => if msgs[i].id == id then msgs[i].(msg := text) else msgs[i])
  }

  /** Editing never changes which messages there are, or their order. */
  lemma EditedKeepsKeys(msgs: seq<ChatMessage>, id: string, text: string)
    ensures Keys(Edited(msgs, id, text), MessageId) == Keys(msgs, MessageId)
  {
    var r := Edited(msgs, id, text);
    forall i | 0 <= i < |msgs| ensures Keys(r, MessageId)[i] == Keys(msgs, MessageId)[i] {
      assert r[i].(msg := msgs[i].msg) == msgs[i];
    }
  }

  /** Editing the same message twice leaves the later text. */
  lemma EditedTwice(msgs: seq<ChatMessage>, id: string, first: string, second: string)
    ensures Edited(Edited(msgs, id, first), id, second) == Edited(msgs, id, second)
  {
    var once := Edited(msgs, id, first);
    forall i | 0 <= i < |msgs| ensures Edited(once, id, second)[i] == Edited(msgs, id, second)[i] {
      assert once[i].(msg := msgs[i].msg) == msgs[i];
    }
  }

  /** The list after a regenerated reply arrives: every message with the old
      reply's id is removed and the reply is appended with its new text. */
  function Regenerated(msgs: seq<ChatMessage>, messageId: string, reply: ChatMessage, text: string): (r: seq<ChatMessage>)
    ensures |r| >= 1 && r[|r| - 1] == reply.(msg := text)
    ensures forall i :: 0 <= i < |r| - 1 ==> r[i] in msgs && r[i].id != messageId
    ensures forall i :: 0 <= i < |msgs| && msgs[i].id != messageId ==> msgs[i] in r
  {
    WithoutKey(msgs, MessageId, messageId) + [reply.(msg := text)]
  }

  /** Editing the last message, when no earlier message shares its id,
      replaces its text and nothing else. */
  lemma EditedLast(msgs: seq<ChatMessage>, text: string)
    requires |msgs| >= 1
    requires forall i :: 0 <= i < |msgs| - 1 ==> msgs[i].id != msgs[|msgs| - 1].id
    ensures var n := |msgs| - 1;
      Edited(msgs, msgs[n].id, text) == msgs[..n] + [msgs[n].(msg := text)]
  {
    var n := |msgs| - 1;
    var e := Edited(msgs, msgs[n].id, text);
    forall i | 0 <= i < n ensures e[i] == msgs[i] {
      assert e[i].(msg := msgs[i].msg) == msgs[i];
    }
  }

  /** A retry followed by the regenerated reply: when message ids are
      distinct, the list ends as it was before the retry, with only the text
      of its last message replaced. */
  lemma RetryRoundTrip(msgs: seq<ChatMessage>, text: string)
    requires |msgs| >= 1 && DistinctKeys(msgs, MessageId)
    ensures var last := msgs[|msgs| - 1];
      Regenerated(msgs[..|msgs| - 1], last.id, last, text) == Edited(msgs, last.id, text)
  {
    var n := |msgs| - 1;
    forall i | 0 <= i < n ensures msgs[i].id != msgs[n].id {
      assert MessageId(msgs[i]) != MessageId(msgs[n]);
    }
    assert forall i :: 0 <= i < n ==> MessageId(msgs[..n][i]) != msgs[n].id;
    WithoutAbsentKey(msgs[..n], MessageId, msgs[n].id);
    EditedLast(msgs, text);
  }

  /** The slices a retry takes of a list of at least three messages: the last
      two, the (at most) twenty before them, and all but the last. */
  lemma RetrySlices(msgs: seq<ChatMessage>)
    requires |msgs| >= 3
    ensures var n := |msgs|;
      && Slice(msgs, -2, n) == [msgs[n - 2], msgs[n - 1]]
      && Slice(msgs, -22, -2) == Recent(msgs, 20, 2)
      && Slice(msgs, 0, -1) == msgs[..n - 1]
  {
    var n := |msgs|;
    SliceLast(msgs, 2);
    assert Recent(msgs, 2, 0) == [msgs[n - 2], msgs[n - 1]];
    SliceWindow(msgs, 20, 2);
    SliceDropLast(msgs, 1);
  }

  class MessageStore {
    var activeChatId: string
    var msgs: seq<ChatMessage>
    var partial: Option<string>
    var retrying: Option<ChatMessage>
    var waiting: Option<string>

    /** No chat is active and the list is empty. */
    constructor ()
      ensures activeChatId == [] && msgs == []
      ensures partial == None && retrying == None && waiting == None
    {
      activeChatId := [];
      msgs := [];
      partial := None;
      retrying := None;
      waiting := None;
    }

    /** Edits the text of message `msgId`; `updated` says whether the server
        accepted the edit. */
    method EditMessage(msgId: string, msg: string, updated: bool)
      modifies this
      ensures msgs == if updated then Edited(old(msgs), msgId, msg) else old(msgs)
      ensures activeChatId == old(activeChatId) && partial == old(partial)
      ensures retrying == old(retrying) && waiting == old(waiting)
    {
      if updated {
        msgs := Edited(msgs, msgId, msg);
      }
    }

    /** Asks for the last reply to be regenerated. The reply leaves the list
        and waits in `retrying`; the message before it is sent again with at
        most twenty earlier messages as history. */
    method Retry(chatId: string) returns (request: Option<RetryRequest>)
      modifies this
      ensures activeChatId == old(activeChatId)
      ensures |old(msgs)| < 3 ==>
        request == None && msgs == old(msgs) && partial == old(partial)
        && retrying == old(retrying) && waiting == old(waiting)
      ensures |old(msgs)| >= 3 && chatId == [] ==>
        request == None && msgs == old(msgs) && partial == None
        && retrying == old(retrying) && waiting == old(waiting)
      ensures |old(msgs)| >= 3 && chatId != [] ==>
        var n := |old(msgs)|;
        && msgs == old(msgs)[..n - 1]
        && retrying == Some(old(msgs)[n - 1])
        && partial == Some([]) && waiting == Some(chatId)
        && request == Some(RetryRequest(chatId, old(msgs)[n - 1].id, old(msgs)[n - 2].msg,
                                        Recent(old(msgs), 20, 2)))
    {
      if |msgs| < 3 {
        return None;
      }
      if chatId == [] {
        partial := None;
        return None;
      }
      var n := |msgs|;
      RetrySlices(msgs);
      partial, waiting := Some([]), Some(chatId);
      var pair := Slice(msgs, -2, n);
      var message, replace := pair[0], pair[1];
      var history := Slice(msgs, -22, -2);
      request := Some(RetryRequest(chatId, replace.id, message.msg, history));
      msgs, retrying, partial := Slice(msgs, 0, -1), Some(replace), Some([]);
    }

    /** Sends `message` to chat `chatId` with at most the last twenty messages
        as history; without a chat nothing is sent. */
    method Send(chatId: string, message: string, retry: bool) returns (request: Option<SendRequest>)
      modifies this
      ensures msgs == old(msgs) && retrying == old(retrying) && activeChatId == old(activeChatId)
      ensures chatId == [] ==> request == None && partial == None && waiting == old(waiting)
      ensures chatId != [] ==>
        && partial == Some([]) && waiting == Some(chatId)
        && request == Some(SendRequest(chatId, message, Recent(msgs, 20, 0), retry))
    {
      if chatId == [] {
        partial := None;
        return None;
      }
      partial, waiting := Some([]), Some(chatId);
      SliceLast(msgs, 20);
      request := Some(SendRequest(chatId, message, Slice(msgs, -20, |msgs|), retry));
    }

    /** Sends the text of message `msgId` again, as a retry. */
    method Resend(chatId: string, msgId: string) returns (request: Option<SendRequest>)
      modifies this
      ensures msgs == old(msgs) && retrying == old(retrying) && activeChatId == old(activeChatId)
      ensures var i := FirstIndex(old(msgs), MessageId, msgId);
        && (i == -1 ==> request == None && partial == old(partial) && waiting == old(waiting))
        && (i >= 0 && chatId == [] ==> request == None && partial == None && waiting == old(waiting))
        && (i >= 0 && chatId != [] ==>
              && partial == Some([]) && waiting == Some(chatId)
              && request == Some(SendRequest(chatId, old(msgs)[i].msg, Recent(old(msgs), 20, 0), true)))
    {
      var i := FirstIndex(msgs, MessageId, msgId);
      if i == -1 {
        return None;
      }
      request := Send(chatId, msgs[i].msg, true);
    }

    /** Deletes message `fromId` and everything after it. The ids of those
        messages are sent for deletion; `deleted` says whether the server
        agreed. An unknown id sends nothing. */
    method DeleteMessages(fromId: string, deleted: bool) returns (deleteIds: Option<seq<string>>)
      modifies this
      ensures activeChatId == old(activeChatId) && partial == old(partial)
      ensures retrying == old(retrying) && waiting == old(waiting)
      ensures var i := FirstIndex(old(msgs), MessageId, fromId);
        && (i == -1 ==> deleteIds == None && msgs == old(msgs))
        && (i >= 0 ==> deleteIds == Some(Keys(old(msgs)[i..], MessageId)))
        && (i >= 0 && deleted ==> msgs == old(msgs)[..i])
        && (i >= 0 && !deleted ==> msgs == old(msgs))
    {
      var i := FirstIndex(msgs, MessageId, fromId);
      if i == -1 {
        return None;
      }
      SliceSplit(msgs, i);
      deleteIds := Some(Keys(Slice(msgs, i, |msgs|), MessageId));
      if deleted {
        msgs := Slice(msgs, 0, i);
      }
    }

    /** `message-partial`: the reply generated so far, for the active chat. */
    method OnPartial(chatId: string, text: string)
      modifies this
      ensures partial == if chatId == old(activeChatId) then Some(text) else old(partial)
      ensures activeChatId == old(activeChatId) && msgs == old(msgs)
      ensures retrying == old(retrying) && waiting == old(waiting)
    {
      if chatId != activeChatId {
        return;
      }
      partial := Some(text);
    }

    /** `message-retry`: the regenerated reply replaces the old one at the end
        of the list, and the store stops waiting. */
    method OnRetry(messageId: string, chatId: string, message: string)
      modifies this
      ensures activeChatId == old(activeChatId)
      ensures old(retrying).None? || chatId != old(activeChatId) ==>
        msgs == old(msgs) && partial == old(partial) && retrying == old(retrying) && waiting == old(waiting)
      ensures old(retrying).Some? && chatId == old(activeChatId) ==>
        && msgs == Regenerated(old(msgs), messageId, old(retrying).value, message)
        && partial == None && retrying == None && waiting == None
    {
      if retrying.None? {
        return;
      }
      if activeChatId != chatId {
        return;
      }
      msgs := Regenerated(msgs, messageId, retrying.value, message);
      partial, retrying, waiting := None, None, None;
    }

    /** `message-created`: a new message of the active chat is appended. Only
        a reply (a message without a user) ends the wait for one. */
    method OnCreated(msg: ChatMessage, chatId: string)
      modifies this
      ensures activeChatId == old(activeChatId) && retrying == old(retrying)
      ensures msgs == if chatId == old(activeChatId) then old(msgs) + [msg] else old(msgs)
      ensures chatId == old(activeChatId) && !Truthy(msg.userId) ==> partial == None && waiting == None
      ensures chatId != old(activeChatId) || Truthy(msg.userId) ==>
        partial == old(partial) && waiting == old(waiting)
    {
      if activeChatId != chatId {
        return;
      }
      if Truthy(msg.userId) {
        msgs := msgs + [msg];
      } else {
        msgs, partial, waiting := msgs + [msg], None, None;
      }
    }

    /** `message-error`: generation failed; the store stops waiting. */
    method OnError(chatId: string, messageId: string)
      modifies this
      ensures partial == None && waiting == None
      ensures activeChatId == old(activeChatId) && msgs == old(msgs) && retrying == old(retrying)
    {
      partial, waiting := None, None;
    }
  }
}
