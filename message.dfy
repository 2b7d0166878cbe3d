/**
 * The Message entity as the pipeline uses it: the fields of an incoming
 * message, the identifier the store assigns, a status and, once rejected,
 * the reason; plus its dictionary representation.
 */
module MessageEntity {
  import opened Wrappers
  import opened Records

  /** The closed set of reasons a message is rejected for. */
  datatype RejectReason = Duplicated | InvalidChatId | NotRelatedToChat

  /** The string value of each reason, as published. */
  function ReasonText(r: RejectReason): string {
    match r
    case Duplicated => "Duplicated client_message_id."
    case InvalidChatId => "An invalid chat id. Such chat does not exist in the database."
    case NotRelatedToChat => "The sender and/or the recipient are not related to the specified chat."
  }

  lemma ReasonTextInjective(a: RejectReason, b: RejectReason)
    ensures ReasonText(a) == ReasonText(b) ==> a == b
  {
    if a != b {
      assert ReasonText(a)[0] != ReasonText(b)[0] || |ReasonText(a)| != |ReasonText(b)|;
    }
  }

  datatype Status = Pending | Accepted | Rejected

  function StatusText(s: Status): string {
    match s
    case Pending => "pending"
    case Accepted => "accepted"
    case Rejected => "rejected"
  }

  /** The validated payload of a broker message. */
  datatype IncomingMessage = IncomingMessage(
    clientMessageId: string, chatId: string, senderId: int, recipientId: int,
    sentAt: string, body: string)

  datatype Message = Message(
    id: Option<string>, clientMessageId: string, chatId: string,
    senderId: int, recipientId: int, status: Status,
    sentAt: string, deliveredAt: Option<string>, body: string,
    isEdited: bool, isDeleted: bool, rejectReason: Option<RejectReason>)

  /** `Message.create` from an incoming payload: not stored, pending, not rejected. */
  function Create(m: IncomingMessage): (r: Message)
    ensures r.id == None && r.status == Pending && r.rejectReason == None
    ensures r.deliveredAt == None && !r.isEdited && !r.isDeleted
    ensures r.clientMessageId == m.clientMessageId && r.chatId == m.chatId
    ensures r.senderId == m.senderId && r.recipientId == m.recipientId
    ensures r.sentAt == m.sentAt && r.body == m.body
  {
    Message(None, m.clientMessageId, m.chatId, m.senderId, m.recipientId, Pending,
            m.sentAt, None, m.body, false, false, None)
  }

  /** `message.reject(reject_reason=...)`: status and reason change, nothing else. */
  function Reject(m: Message, reason: RejectReason): (r: Message)
    ensures r.status == Rejected && r.rejectReason == Some(reason)
    ensures r.(status := m.status, rejectReason := m.rejectReason) == m
  {
    m.(status := Rejected, rejectReason := Some(reason))
  }

  /** A second rejection overwrites the reason of the first. */
  lemma RejectOverwrites(m: Message, first: RejectReason, second: RejectReason)
    ensures Reject(Reject(m, first), second) == Reject(m, second)
  {
  }

  /** `message.representation`: the message as a record with the outgoing field names. */
  function Representation(m: Message): Dict {
    map["id" := OptionalString(m.id),
        "client_message_id" := Str(m.clientMessageId),
        "chat_id" := Str(m.chatId),
        "sender_id" := Int(m.senderId),
        "recipient_id" := Int(m.recipientId),
        "status" := Str(StatusText(m.status)),
        "sent_at" := Str(m.sentAt),
        "delivered_at" := OptionalString(m.deliveredAt),
        "body" := Str(m.body),
        "is_edited" := Bool(m.isEdited),
        "is_deleted" := Bool(m.isDeleted),
        "reject_reason" := if m.rejectReason.Some? then Str(ReasonText(m.rejectReason.value)) else Null]
  }

  /** The representation has exactly the fields of the outgoing message dataclass. */
  lemma RepresentationFields(m: Message)
    ensures Representation(m).Keys == FieldNames(OutgoingMessageFields())
  {
    var fields := OutgoingMessageFields();
    var d := Representation(m);
    forall i | 0 <= i < |fields| ensures fields[i].name in d {
    }
    assert fields[0].name == "id" && fields[1].name == "client_message_id";
    assert fields[2].name == "chat_id" && fields[3].name == "sender_id";
    assert fields[4].name == "recipient_id" && fields[5].name == "status";
    assert fields[6].name == "sent_at" && fields[7].name == "delivered_at";
    assert fields[8].name == "body" && fields[9].name == "is_edited";
    assert fields[10].name == "is_deleted" && fields[11].name == "reject_reason";
  }

  /** A stored message document: the representation plus the store's `_id`. */
  function StoredRecord(key: nat, m: Message): Dict {
    Representation(m)["_id" := ObjectId(key)]
  }

  /**
   * The outgoing message record built from a stored document is exactly the
   * message's representation: the native `_id` is dropped, nothing is missing.
   */
  lemma OutgoingFromStored(key: nat, m: Message)
    ensures FromDict(OutgoingMessageFields(), StoredRecord(key, m)) == Ok(Representation(m))
  {
    var fields := OutgoingMessageFields();
    var data := StoredRecord(key, m);
    var rep := Representation(m);
    assert "_id" !in FieldNames(fields) by {
      forall i | 0 <= i < |fields| ensures fields[i].name != "_id" {
        assert fields[i].name[0] != '_';
      }
    }
    RepresentationFields(m);
    var given := Incoming(fields, data);
    assert given == rep;
    assert Complete(fields, given);
    var r := FromDict(fields, data).value;
    assert r.Keys == rep.Keys;
    assert r == rep;
  }
}
