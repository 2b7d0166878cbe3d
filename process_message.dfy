/**
 * Processing of one incoming chat message: validate it against the stored
 * messages and chats, check that sender and recipient are exactly the
 * chat's participants, store it and count it when accepted, and publish it,
 * accepted or rejected, exactly once.
 */
module ProcessMessage {
  import opened Wrappers
  import opened Keys
  import opened Records
  import CE = ChatEntity
  import ME = MessageEntity
  import CS = ChatsStore
  import MS = MessagesStore

  /** The delivery exchange; every publication is recorded in order. */
  class Publisher {
    var sent: seq<Dict>

    constructor ()
      ensures sent == []
    {
      sent := [];
    }

    method SendMessage(messageData: Dict)
      modifies this
      ensures sent == old(sent) + [messageData]
    {
      sent := sent + [messageData];
    }
  }

  /** The set of the participants' ids. */
  function ParticipantIds(users: seq<CE.Profile>): (ids: set<int>)
    ensures forall i :: 0 <= i < |users| ==> users[i].id in ids
    ensures forall x :: x in ids ==> exists i :: 0 <= i < |users| && users[i].id == x
  {
    set i | 0 <= i < |users| :: users[i].id
  }

  datatype Verdict = Accept | Refuse(reason: ME.RejectReason)

  /**
   * The verdict on a message. Both validations always run and a later
   * rejection overwrites an earlier reason, so a missing chat is reported
   * even for a duplicate; the participant check only runs on a valid
   * message in an existing chat.
   */
  function Decide(m: ME.Message, chats: seq<CS.ChatDoc>, msgs: seq<MS.MessageDoc>): Verdict {
    var chat := CS.FindOne(chats, CS.IdIs(m.chatId));
    if chat.None? then Refuse(ME.InvalidChatId)
    else if MS.ClientIdTaken(msgs, m.clientMessageId) then Refuse(ME.Duplicated)
    else if ParticipantIds(chat.value.chat.relatedUsers) != {m.senderId, m.recipientId} then Refuse(ME.NotRelatedToChat)
    else Accept
  }

  /** The stored tables after processing and the message that is published. */
  datatype Outcome = Outcome(chats: seq<CS.ChatDoc>, msgs: seq<MS.MessageDoc>, published: ME.Message)

  /**
   * The whole effect of processing `data` against the tables, the message
   * store handing out `nextKey` to the next insert.
   */
  function Process(data: ME.IncomingMessage, chats: seq<CS.ChatDoc>, msgs: seq<MS.MessageDoc>, nextKey: nat): Outcome {
    var m := ME.Create(data);
    match Decide(m, chats, msgs)
    case Refuse(reason) => Outcome(chats, msgs, ME.Reject(m, reason))
    case Accept =>
      var stored := m.(id := Some(KeyString(nextKey)));
      Outcome(CS.WithIncrementedCount(chats, m.chatId), msgs + [MS.MessageDoc(nextKey, stored)], stored)
  }

  /**
   * A message is accepted exactly when its client id is new, a chat with its
   * chat id exists, and that chat's participant ids are exactly its sender
   * and recipient.
   */
  lemma AcceptedExactly(m: ME.Message, chats: seq<CS.ChatDoc>, msgs: seq<MS.MessageDoc>)
    requires CS.KeysIncreasing(chats) && CS.IdsAreKeys(chats)
    ensures Decide(m, chats, msgs) == Accept <==>
      && (forall i :: 0 <= i < |msgs| ==> msgs[i].msg.clientMessageId != m.clientMessageId)
      && exists i :: 0 <= i < |chats| && chats[i].chat.id == Some(m.chatId) &&
           ParticipantIds(chats[i].chat.relatedUsers) == {m.senderId, m.recipientId}
  {
    var found := CS.FindOne(chats, CS.IdIs(m.chatId));
    if exists i :: 0 <= i < |chats| && chats[i].chat.id == Some(m.chatId) &&
         ParticipantIds(chats[i].chat.relatedUsers) == {m.senderId, m.recipientId}
    {
      var i :| 0 <= i < |chats| && chats[i].chat.id == Some(m.chatId) &&
         ParticipantIds(chats[i].chat.relatedUsers) == {m.senderId, m.recipientId};
      var f := CS.FirstMatch(chats, CS.IdIs(m.chatId)).value;
      CS.IdNamesOneChat(chats, m.chatId, f, i);
    }
  }

  /** A duplicate is reported as such only when the chat exists; otherwise the chat is reported. */
  lemma DuplicateReported(m: ME.Message, chats: seq<CS.ChatDoc>, msgs: seq<MS.MessageDoc>)
    ensures Decide(m, chats, msgs) == Refuse(ME.Duplicated) <==>
      MS.ClientIdTaken(msgs, m.clientMessageId) && exists i :: 0 <= i < |chats| && chats[i].chat.id == Some(m.chatId)
    ensures (forall i :: 0 <= i < |chats| ==> chats[i].chat.id != Some(m.chatId)) ==>
      Decide(m, chats, msgs) == Refuse(ME.InvalidChatId)
  {
  }

  /** Number of stored messages that belong to the chat with id `c`. */
  function CountIn(msgs: seq<MS.MessageDoc>, c: string): nat {
    if msgs == [] then 0
    else (if msgs[0].msg.chatId == c then 1 else 0) + CountIn(msgs[1..], c)
  }

  lemma {:induction false} CountAppend(msgs: seq<MS.MessageDoc>, d: MS.MessageDoc, c: string)
    ensures CountIn(msgs + [d], c) == CountIn(msgs, c) + (if d.msg.chatId == c then 1 else 0)
  {
    if msgs != [] {
      assert (msgs + [d])[1..] == msgs[1..] + [d];
      CountAppend(msgs[1..], d, c);
    }
  }

  /** Every chat with an id counts exactly the stored messages that name it. */
  ghost predicate CountsMatch(chats: seq<CS.ChatDoc>, msgs: seq<MS.MessageDoc>) {
    forall i :: 0 <= i < |chats| && chats[i].chat.id.Some? ==>
      chats[i].chat.messagesCount == CountIn(msgs, chats[i].chat.id.value)
  }

  /** No client message id is stored twice. */
  ghost predicate ClientIdsUnique(msgs: seq<MS.MessageDoc>) {
    forall i, j :: 0 <= i < j < |msgs| ==> msgs[i].msg.clientMessageId != msgs[j].msg.clientMessageId
  }

  /**
   * Processing keeps every chat's message counter equal to the number of
   * stored messages of that chat, keeps client message ids unique, and keeps
   * the chat table's keys and ids as they were.
   */
  lemma ProcessKeepsInvariants(data: ME.IncomingMessage, chats: seq<CS.ChatDoc>, msgs: seq<MS.MessageDoc>, nextKey: nat)
    requires CS.KeysIncreasing(chats) && CS.IdsAreKeys(chats)
    requires CountsMatch(chats, msgs) && ClientIdsUnique(msgs)
    ensures var o := Process(data, chats, msgs, nextKey);
      && CountsMatch(o.chats, o.msgs) && ClientIdsUnique(o.msgs)
      && CS.KeysIncreasing(o.chats) && CS.IdsAreKeys(o.chats)
  {
    var m := ME.Create(data);
    var o := Process(data, chats, msgs, nextKey);
    if Decide(m, chats, msgs) == Accept {
      var d := MS.MessageDoc(nextKey, o.published);
      assert o.msgs == msgs + [d];
      CS.IncrementNamedChat(chats, m.chatId);
      forall i | 0 <= i < |o.chats| && o.chats[i].chat.id.Some?
        ensures o.chats[i].chat.messagesCount == CountIn(o.msgs, o.chats[i].chat.id.value)
      {
        CountAppend(msgs, d, o.chats[i].chat.id.value);
      }
    }
  }

  /**
   * Once a message is accepted, any later message with the same client id
   * and chat is rejected as a duplicate and changes no table.
   */
  lemma ResubmissionRejected(data: ME.IncomingMessage, again: ME.IncomingMessage,
                             chats: seq<CS.ChatDoc>, msgs: seq<MS.MessageDoc>, nextKey: nat, laterKey: nat)
    requires CS.KeysIncreasing(chats) && CS.IdsAreKeys(chats)
    requires Decide(ME.Create(data), chats, msgs) == Accept
    requires again.clientMessageId == data.clientMessageId && again.chatId == data.chatId
    ensures var o := Process(data, chats, msgs, nextKey);
      var o2 := Process(again, o.chats, o.msgs, laterKey);
      && Decide(ME.Create(again), o.chats, o.msgs) == Refuse(ME.Duplicated)
      && o2.chats == o.chats && o2.msgs == o.msgs
  {
    var o := Process(data, chats, msgs, nextKey);
    var f := CS.FirstMatch(chats, CS.IdIs(data.chatId)).value;
    assert o.chats[f].chat.id == Some(data.chatId);
    assert o.msgs[|msgs|].msg.clientMessageId == again.clientMessageId;
  }

  /** An accepted message is published and stored with the string form of its key as id. */
  lemma AcceptedCarriesKey(data: ME.IncomingMessage, chats: seq<CS.ChatDoc>, msgs: seq<MS.MessageDoc>, nextKey: nat)
    requires Decide(ME.Create(data), chats, msgs) == Accept
    ensures var o := Process(data, chats, msgs, nextKey);
      && o.published.id.Some? && ParseKey(o.published.id.value) == Some(nextKey)
      && o.msgs[|o.msgs| - 1] == MS.MessageDoc(nextKey, o.published)
      && o.published.status == ME.Pending && o.published.rejectReason == None
  {
    ParseKeyString(nextKey);
  }

  class ProcessMessageUseCase {
    const data: ME.IncomingMessage
    var message: ME.Message
    var chat: Option<CS.ChatDoc>
    const chatsRepo: CS.ChatsRepository
    const messagesRepo: MS.MessagesRepository
    const publisher: Publisher

    constructor (data: ME.IncomingMessage, chatsRepo: CS.ChatsRepository,
                 messagesRepo: MS.MessagesRepository, publisher: Publisher)
      ensures this.data == data && this.chat == None
      ensures this.chatsRepo == chatsRepo && this.messagesRepo == messagesRepo && this.publisher == publisher
    {
      this.data := data;
      this.message := ME.Create(data);
      this.chat := None;
      this.chatsRepo := chatsRepo;
      this.messagesRepo := messagesRepo;
      this.publisher := publisher;
    }

    /** `prepare`: the entity built from the payload. */
    method Prepare()
      modifies this
      ensures message == ME.Create(data) && chat == old(chat)
    {
      message := ME.Create(data);
    }

    /** `validate_message`: a stored client message id rejects the message as a duplicate. */
    method ValidateMessage() returns (ok: bool)
      modifies this
      ensures ok <==> !MS.ClientIdTaken(messagesRepo.docs, old(message).clientMessageId)
      ensures message == if ok then old(message) else ME.Reject(old(message), ME.Duplicated)
      ensures chat == old(chat)
    {
      var exists_ := messagesRepo.MessageExists(message.clientMessageId);
      if exists_ {
        message := ME.Reject(message, ME.Duplicated);
        return false;
      }
      return true;
    }

    /** `validate_chat`: a chat id that names no chat rejects the message. */
    method ValidateChat() returns (ok: bool)
      modifies this
      ensures var found := CS.FindOne(chatsRepo.docs, CS.IdIs(old(message).chatId));
        && (ok <==> found.Some?)
        && chat == (if ok then found else old(chat))
        && message == if ok then old(message) else ME.Reject(old(message), ME.InvalidChatId)
    {
      var found := chatsRepo.GetChat(message.chatId);
      if found.None? {
        message := ME.Reject(message, ME.InvalidChatId);
        return false;
      }
      chat := found;
      return true;
    }

    /** `validate`: both checks run, in this order, whatever the first one finds. */
    method Validate() returns (ok: bool)
      modifies this
      ensures var m := old(message);
        var dup := MS.ClientIdTaken(messagesRepo.docs, m.clientMessageId);
        var found := CS.FindOne(chatsRepo.docs, CS.IdIs(m.chatId));
        && (ok <==> !dup && found.Some?)
        && chat == (if found.Some? then found else old(chat))
        && message == if found.None? then ME.Reject(m, ME.InvalidChatId)
                      else if dup then ME.Reject(m, ME.Duplicated) else m
    {
      var messageAccepted := ValidateMessage();
      var chatAccepted := ValidateChat();
      ok := messageAccepted && chatAccepted;
    }

    /** `enforce_permission_policy`: the chat's participant ids must be exactly sender and recipient. */
    method EnforcePermissionPolicy() returns (ok: bool)
      requires chat.Some?
      modifies this
      ensures ok <==> ParticipantIds(old(chat).value.chat.relatedUsers) == {old(message).senderId, old(message).recipientId}
      ensures message == if ok then old(message) else ME.Reject(old(message), ME.NotRelatedToChat)
      ensures chat == old(chat)
    {
      if ParticipantIds(chat.value.chat.relatedUsers) != {message.senderId, message.recipientId} {
        message := ME.Reject(message, ME.NotRelatedToChat);
        return false;
      }
      return true;
    }

    /** `create_message`: insert, copy the key into `id`, and reload the stored message. */
    method CreateMessage()
      requires messagesRepo.Valid()
      modifies this, messagesRepo
      ensures messagesRepo.Valid() && messagesRepo.nextKey == old(messagesRepo.nextKey) + 1
      ensures message == old(message).(id := Some(KeyString(old(messagesRepo.nextKey))))
      ensures messagesRepo.docs == old(messagesRepo.docs) + [MS.MessageDoc(old(messagesRepo.nextKey), message)]
      ensures chat == old(chat)
    {
      ghost var before := messagesRepo.docs;
      var k := messagesRepo.nextKey;
      var insertedId := messagesRepo.CreateMessage(message);
      ghost var inserted := messagesRepo.docs;
      assert inserted[|before|].key == k;
      assert forall j :: 0 <= j < |before| ==> inserted[j].key < k;
      assert MS.KeyIndex(inserted, k) == Some(|before|);
      var processed := messagesRepo.UpdateId(insertedId);
      var stored := old(message).(id := Some(insertedId));
      assert messagesRepo.docs == before + [MS.MessageDoc(k, stored)];
      message := processed.value.value.msg;
    }

    /** `increment_messages_count` for the message's chat id. */
    method IncrementMessagesCount()
      requires chatsRepo.Valid()
      modifies chatsRepo
      ensures chatsRepo.Valid() && chatsRepo.nextKey == old(chatsRepo.nextKey)
      ensures chatsRepo.docs == CS.WithIncrementedCount(old(chatsRepo.docs), message.chatId)
    {
      chatsRepo.IncrementMessagesCount(message.chatId);
    }

    /** `send_message`: publish the message's representation. */
    method SendMessage()
      modifies publisher
      ensures publisher.sent == old(publisher.sent) + [ME.Representation(message)]
    {
      publisher.SendMessage(ME.Representation(message));
    }

    /**
     * `execute`: exactly one publication, of the outcome `Process` describes;
     * the tables change only on acceptance, by one stored message and one
     * counted message.
     */
    method Execute()
      requires chatsRepo.Valid() && messagesRepo.Valid()
      modifies this, chatsRepo, messagesRepo, publisher
      ensures chatsRepo.Valid() && messagesRepo.Valid()
      ensures var o := Process(data, old(chatsRepo.docs), old(messagesRepo.docs), old(messagesRepo.nextKey));
        && chatsRepo.docs == o.chats && messagesRepo.docs == o.msgs && message == o.published
        && publisher.sent == old(publisher.sent) + [ME.Representation(o.published)]
      ensures chatsRepo.nextKey == old(chatsRepo.nextKey)
      ensures messagesRepo.nextKey == old(messagesRepo.nextKey) +
        (if Decide(ME.Create(data), old(chatsRepo.docs), old(messagesRepo.docs)) == Accept then 1 else 0)
    {
      Prepare();
      var valid := Validate();
      if valid {
        var permitted := EnforcePermissionPolicy();
        if permitted {
          CreateMessage();
          IncrementMessagesCount();
        }
      }
      SendMessage();
    }
  }
}
