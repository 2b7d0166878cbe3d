/**
 * Reading a chat's messages a page at a time: only a participant of the
 * chat may read it; a page holds the requesting user's newest messages of
 * the chat, newest first, and its cursor is the key of its oldest message,
 * from which the next request resumes.
 */
module GetMessages {
  import opened Wrappers
  import opened Keys
  import CS = ChatsStore
  import MS = MessagesStore

  /** `OutgoingMessagesDTO`: a page, its cursor and the older-messages flag. */
  datatype MessagesPage = MessagesPage(messages: seq<MS.MessageDoc>, cursor: string, previousMessagesExist: bool)

  /**
   * `make_filters`: the chat, the user as sender or recipient and, with a
   * cursor, keys below the key it names; a cursor that names no key is
   * InvalidObjectId.
   */
  function MakeFilters(chatId: string, userId: int, cursor: Option<string>): (r: Result<MS.MessagesFilter>)
    ensures cursor.None? ==> r == Ok(MS.MessagesFilter(chatId, userId, None))
    ensures cursor.Some? ==> (r.Err? <==> !Canonical(cursor.value))
    ensures r.Err? ==> r.error == InvalidObjectId
    ensures cursor.Some? && r.Ok? ==>
      r.value.chatId == chatId && r.value.userId == userId &&
      r.value.before.Some? && KeyString(r.value.before.value) == cursor.value
  {
    if cursor.None? then Ok(MS.MessagesFilter(chatId, userId, None))
    else
      match ParseKey(cursor.value)
      case None => Err(InvalidObjectId)
      case Some(k) => (KeyStringParse(cursor.value); Ok(MS.MessagesFilter(chatId, userId, Some(k))))
  }

  /**
   * `enforce_permission_policy`: a chat id that names no chat fails (the
   * source raises a TypeError there), and a user who is not a participant
   * is denied.
   */
  function Permission(chats: seq<CS.ChatDoc>, chatId: string, userId: int): Result<()> {
    match CS.FindOne(chats, CS.IdIs(chatId))
    case None => Err(ChatNotFound)
    case Some(d) => if CS.HasUserId(d.chat.relatedUsers, userId) then Ok(()) else Err(MessagesRetrievalDenied)
  }

  /**
   * `make_outgoing_data`: an empty page has cursor '' and no older
   * messages; otherwise the cursor is the key of the page's last (oldest)
   * message and the flag says whether any stored message is older.
   */
  function OutgoingData(msgs: seq<MS.MessageDoc>, page: seq<MS.MessageDoc>): MessagesPage {
    if page == [] then MessagesPage([], "", false)
    else
      var last := page[|page| - 1].key;
      MessagesPage(page, KeyString(last), MS.AnyOlder(msgs, last))
  }

  /** `execute`: permission first, then the filters, the page and its cursor. */
  function GetMessagesResult(chats: seq<CS.ChatDoc>, msgs: seq<MS.MessageDoc>,
                             chatId: string, userId: int, cursor: Option<string>): Result<MessagesPage>
    requires MS.KeysIncreasing(msgs)
  {
    match Permission(chats, chatId, userId)
    case Err(e) => Err(e)
    case Ok(_) =>
      match MakeFilters(chatId, userId, cursor)
      case Err(e) => Err(e)
      case Ok(f) => Ok(OutgoingData(msgs, MS.ChatMessagesPage(msgs, f)))
  }

  /** Every message of the chat the user sent or received below `before`, newest first. */
  function Remaining(msgs: seq<MS.MessageDoc>, chatId: string, userId: int, before: Option<nat>): seq<MS.MessageDoc> {
    MS.Reverse(MS.Selected(msgs, MS.MessagesFilter(chatId, userId, before)))
  }

  /** The messages a cursor still leads to: all of them without one. */
  function RemainingFrom(msgs: seq<MS.MessageDoc>, chatId: string, userId: int, cursor: Option<string>): seq<MS.MessageDoc> {
    Remaining(msgs, chatId, userId, if cursor.Some? then ParseKey(cursor.value) else None)
  }

  /**
   * With unique chat ids, reading is permitted exactly when a chat has the
   * id and the user is one of its participants.
   */
  lemma PermissionExactly(chats: seq<CS.ChatDoc>, chatId: string, userId: int)
    requires CS.KeysIncreasing(chats) && CS.IdsAreKeys(chats)
    ensures Permission(chats, chatId, userId).Ok? <==>
      exists i :: 0 <= i < |chats| && chats[i].chat.id == Some(chatId) && CS.HasUserId(chats[i].chat.relatedUsers, userId)
    ensures Permission(chats, chatId, userId) == Err(ChatNotFound) <==>
      forall i :: 0 <= i < |chats| ==> chats[i].chat.id != Some(chatId)
  {
    if exists i :: 0 <= i < |chats| && chats[i].chat.id == Some(chatId) && CS.HasUserId(chats[i].chat.relatedUsers, userId) {
      var i :| 0 <= i < |chats| && chats[i].chat.id == Some(chatId) && CS.HasUserId(chats[i].chat.relatedUsers, userId);
      var f := CS.FirstMatch(chats, CS.IdIs(chatId)).value;
      CS.IdNamesOneChat(chats, chatId, f, i);
    }
  }

  /** The part of an ascending table below the key at position `i` is its prefix of length `i`. */
  lemma {:induction false} BelowIsPrefix(msgs: seq<MS.MessageDoc>, f: MS.MessagesFilter, i: nat)
    requires MS.KeysIncreasing(msgs)
    requires i < |MS.Selected(msgs, f)|
    ensures MS.Selected(msgs, f.(before := Some(MS.Selected(msgs, f)[i].key))) == MS.Selected(msgs, f)[..i]
  {
    var sel := MS.Selected(msgs, f);
    var c := sel[i].key;
    var g := f.(before := Some(c));
    var below := MS.Selected(msgs, g);
    assert sel[i] in sel;
    assert MS.Matches(sel[i], f);
    forall d ensures d in below <==> d in sel[..i] {
      if d in below {
        assert MS.Matches(d, f);
        assert d in sel;
        var j :| 0 <= j < |sel| && sel[j] == d;
        MS.KeyOrder(sel, j, i);
        assert j < i && sel[..i][j] == d;
      }
      if d in sel[..i] {
        var j :| 0 <= j < i && sel[..i][j] == d;
        assert sel[j] == d;
        MS.KeyOrder(sel, j, i);
        assert d in msgs && MS.Matches(d, g);
      }
    }
    MS.IncreasingSameElementsEqual(below, sel[..i]);
  }

  /**
   * Pagination has no gap and no overlap: the messages still to be read
   * from a position are the page served there followed by those still to be
   * read from that page's last message; an empty page means none remain.
   */
  lemma CursorResumes(msgs: seq<MS.MessageDoc>, chatId: string, userId: int, before: Option<nat>)
    requires MS.KeysIncreasing(msgs)
    ensures var p := MS.ChatMessagesPage(msgs, MS.MessagesFilter(chatId, userId, before));
      && (p == [] ==> Remaining(msgs, chatId, userId, before) == [])
      && (p != [] ==> Remaining(msgs, chatId, userId, before) ==
                      p + Remaining(msgs, chatId, userId, Some(p[|p| - 1].key)))
  {
    var f := MS.MessagesFilter(chatId, userId, before);
    var sel := MS.Selected(msgs, f);
    var p := MS.ChatMessagesPage(msgs, f);
    var n := |p|;
    assert p == MS.Reverse(sel)[..n];
    if n > 0 {
      var i := |sel| - n;
      ReverseSplit(sel, n);
      BelowIsPrefix(msgs, f, i);
      assert f.(before := Some(sel[i].key)) == MS.MessagesFilter(chatId, userId, Some(p[n - 1].key));
    }
  }

  /** The reverse of a table is its last `n` documents reversed, then the rest reversed. */
  lemma ReverseSplit(sel: seq<MS.MessageDoc>, n: nat)
    requires 0 < n <= |sel|
    ensures MS.Reverse(sel)[n - 1] == sel[|sel| - n]
    ensures MS.Reverse(sel) == MS.Reverse(sel)[..n] + MS.Reverse(sel[..|sel| - n])
  {
    var m := |sel| - n;
    assert sel == sel[..m] + sel[m..];
    ReverseAppend(sel[..m], sel[m..]);
  }

  /** Reversing a concatenation reverses the order of the parts. */
  lemma {:induction false} ReverseAppend(a: seq<MS.MessageDoc>, b: seq<MS.MessageDoc>)
    ensures MS.Reverse(a + b) == MS.Reverse(b) + MS.Reverse(a)
  {
    if a != [] {
      assert (a + b)[1..] == a[1..] + b;
      ReverseAppend(a[1..], b);
    } else {
      assert a + b == b;
    }
  }

  /**
   * Feeding a non-empty page's cursor back serves the next page: what the
   * old cursor still led to is this page followed by what the new cursor
   * leads to.
   */
  lemma NextPageResumes(chats: seq<CS.ChatDoc>, msgs: seq<MS.MessageDoc>, chatId: string, userId: int, cursor: Option<string>)
    requires MS.KeysIncreasing(msgs)
    requires GetMessagesResult(chats, msgs, chatId, userId, cursor).Ok?
    requires GetMessagesResult(chats, msgs, chatId, userId, cursor).value.messages != []
    ensures var r := GetMessagesResult(chats, msgs, chatId, userId, cursor).value;
      && GetMessagesResult(chats, msgs, chatId, userId, Some(r.cursor)).Ok?
      && RemainingFrom(msgs, chatId, userId, cursor) == r.messages + RemainingFrom(msgs, chatId, userId, Some(r.cursor))
  {
    var r := GetMessagesResult(chats, msgs, chatId, userId, cursor).value;
    ResultIsPage(chats, msgs, chatId, userId, cursor);
    var before := if cursor.Some? then ParseKey(cursor.value) else None;
    var p := MS.ChatMessagesPage(msgs, MS.MessagesFilter(chatId, userId, before));
    assert r.messages == p && r.cursor == KeyString(p[|p| - 1].key);
    CursorFedBack(chats, msgs, chatId, userId, p[|p| - 1].key);
    CursorResumes(msgs, chatId, userId, before);
  }

  /** A request with the string form of a key as cursor reads below that key. */
  lemma CursorFedBack(chats: seq<CS.ChatDoc>, msgs: seq<MS.MessageDoc>, chatId: string, userId: int, k: nat)
    requires MS.KeysIncreasing(msgs)
    requires Permission(chats, chatId, userId).Ok?
    ensures GetMessagesResult(chats, msgs, chatId, userId, Some(KeyString(k))).Ok?
    ensures RemainingFrom(msgs, chatId, userId, Some(KeyString(k))) == Remaining(msgs, chatId, userId, Some(k))
  {
    ParseKeyString(k);
  }

  /** The cursor of an empty page names no key: feeding it back is InvalidObjectId. */
  lemma EmptyPageCursorRejected(chats: seq<CS.ChatDoc>, msgs: seq<MS.MessageDoc>, chatId: string, userId: int, cursor: Option<string>)
    requires MS.KeysIncreasing(msgs)
    requires GetMessagesResult(chats, msgs, chatId, userId, cursor).Ok?
    requires GetMessagesResult(chats, msgs, chatId, userId, cursor).value.messages == []
    ensures var r := GetMessagesResult(chats, msgs, chatId, userId, cursor).value;
      && r.cursor == "" && !r.previousMessagesExist
      && GetMessagesResult(chats, msgs, chatId, userId, Some(r.cursor)) == Err(InvalidObjectId)
  {
  }

  /** A successful result is the page served under the filters the cursor gives. */
  lemma ResultIsPage(chats: seq<CS.ChatDoc>, msgs: seq<MS.MessageDoc>, chatId: string, userId: int, cursor: Option<string>)
    requires MS.KeysIncreasing(msgs)
    requires GetMessagesResult(chats, msgs, chatId, userId, cursor).Ok?
    ensures var before := if cursor.Some? then ParseKey(cursor.value) else None;
      && MakeFilters(chatId, userId, cursor) == Ok(MS.MessagesFilter(chatId, userId, before))
      && GetMessagesResult(chats, msgs, chatId, userId, cursor).value ==
         OutgoingData(msgs, MS.ChatMessagesPage(msgs, MS.MessagesFilter(chatId, userId, before)))
  {
  }

  /** With no stored message below `c`, nothing remains to be read below it. */
  lemma NothingOlder(msgs: seq<MS.MessageDoc>, chatId: string, userId: int, c: nat)
    requires !MS.AnyOlder(msgs, c)
    ensures Remaining(msgs, chatId, userId, Some(c)) == []
  {
    var sel := MS.Selected(msgs, MS.MessagesFilter(chatId, userId, Some(c)));
    MS.HeadIsMember(sel);
  }

  /** When the flag says no older messages exist, the page holds every message the cursor led to. */
  lemma NoPreviousMeansComplete(chats: seq<CS.ChatDoc>, msgs: seq<MS.MessageDoc>, chatId: string, userId: int, cursor: Option<string>)
    requires MS.KeysIncreasing(msgs)
    requires GetMessagesResult(chats, msgs, chatId, userId, cursor).Ok?
    requires !GetMessagesResult(chats, msgs, chatId, userId, cursor).value.previousMessagesExist
    ensures GetMessagesResult(chats, msgs, chatId, userId, cursor).value.messages == RemainingFrom(msgs, chatId, userId, cursor)
  {
    ResultIsPage(chats, msgs, chatId, userId, cursor);
    var before := if cursor.Some? then ParseKey(cursor.value) else None;
    var p := MS.ChatMessagesPage(msgs, MS.MessagesFilter(chatId, userId, before));
    CursorResumes(msgs, chatId, userId, before);
    if p != [] {
      NothingOlder(msgs, chatId, userId, p[|p| - 1].key);
    }
  }

  function ExampleOther(): MS.MessageDoc {
    MS.MessageDoc(0, MS.MessageEntity.Message(None, "m0", "d", 8, 9, MS.MessageEntity.Pending, "t", None, "x", false, false, None))
  }

  function ExampleMine(): MS.MessageDoc {
    MS.MessageDoc(1, MS.MessageEntity.Message(None, "m1", "c", 7, 7, MS.MessageEntity.Pending, "t", None, "y", false, false, None))
  }

  function ExampleChats(): seq<CS.ChatDoc> {
    [CS.ChatDoc(5, CS.ChatEntity.Chat(Some("c"), [CS.ChatEntity.Profile(7, "ann", "a@x", "")], 1))]
  }

  lemma ExampleSelection()
    ensures MS.Selected([ExampleOther(), ExampleMine()], MS.MessagesFilter("c", 7, None)) == [ExampleMine()]
  {
    var msgs := [ExampleOther(), ExampleMine()];
    var f := MS.MessagesFilter("c", 7, None);
    assert !MS.Matches(ExampleOther(), f);
    assert msgs[1..] == [ExampleMine()];
    assert [ExampleMine()][1..] == [];
  }

  /**
   * The older-messages flag looks at every chat: here the page holds the
   * only message of chat "c", yet the flag is set by a message of another
   * chat.
   */
  lemma ExamplePage()
    ensures MS.ChatMessagesPage([ExampleOther(), ExampleMine()], MS.MessagesFilter("c", 7, None)) == [ExampleMine()]
    ensures RemainingFrom([ExampleOther(), ExampleMine()], "c", 7, None) == [ExampleMine()]
  {
    ExampleSelection();
    assert MS.Reverse([ExampleMine()]) == [ExampleMine()];
  }

  lemma ExamplePermission()
    ensures Permission(ExampleChats(), "c", 7) == Ok(())
  {
    assert CS.HasUserId(ExampleChats()[0].chat.relatedUsers, 7) by {
      assert ExampleChats()[0].chat.relatedUsers[0].id == 7;
    }
  }

  lemma PreviousFlagCountsOtherChats()
    ensures var r := GetMessagesResult(ExampleChats(), [ExampleOther(), ExampleMine()], "c", 7, None);
      && r.Ok? && r.value.messages == [ExampleMine()] && r.value.previousMessagesExist
      && RemainingFrom([ExampleOther(), ExampleMine()], "c", 7, None) == [ExampleMine()]
  {
    var msgs := [ExampleOther(), ExampleMine()];
    ExamplePage();
    ExamplePermission();
    assert msgs[0].key < 1;
  }

  class GetMessagesUseCase {
    const chatId: string
    const userId: int
    const cursor: Option<string>
    const chatsRepo: CS.ChatsRepository
    const messagesRepo: MS.MessagesRepository

    constructor (chatId: string, userId: int, cursor: Option<string>,
                 chatsRepo: CS.ChatsRepository, messagesRepo: MS.MessagesRepository)
      ensures this.chatId == chatId && this.userId == userId && this.cursor == cursor
      ensures this.chatsRepo == chatsRepo && this.messagesRepo == messagesRepo
    {
      this.chatId := chatId;
      this.userId := userId;
      this.cursor := cursor;
      this.chatsRepo := chatsRepo;
      this.messagesRepo := messagesRepo;
    }

    /** `enforce_permission_policy`, reading the chat table. */
    method EnforcePermissionPolicy() returns (r: Result<()>)
      ensures r.Ok? <==> exists d :: CS.FindOne(chatsRepo.docs, CS.IdIs(chatId)) == Some(d) && CS.HasUserId(d.chat.relatedUsers, userId)
      ensures r == Permission(chatsRepo.docs, chatId, userId)
    {
      var requested := chatsRepo.GetChat(chatId);
      if requested.None? {
        return Err(ChatNotFound);
      }
      if !CS.HasUserId(requested.value.chat.relatedUsers, userId) {
        return Err(MessagesRetrievalDenied);
      }
      return Ok(());
    }

    /** `make_outgoing_data`, asking the message table whether older messages exist. */
    method MakeOutgoingData(messages: seq<MS.MessageDoc>) returns (r: MessagesPage)
      ensures r.messages == messages
      ensures messages == [] ==> r.cursor == "" && !r.previousMessagesExist
      ensures messages != [] ==> ParseKey(r.cursor) == Some(messages[|messages| - 1].key)
      ensures r == OutgoingData(messagesRepo.docs, messages)
    {
      if messages == [] {
        return MessagesPage([], "", false);
      }
      var c := KeyString(messages[|messages| - 1].key);
      ParseKeyString(messages[|messages| - 1].key);
      var prev := messagesRepo.PreviousMessagesExist(c);
      r := MessagesPage(messages, c, prev.value);
    }

    /** `execute` */
    method Execute() returns (r: Result<MessagesPage>)
      requires messagesRepo.Valid()
      ensures r == GetMessagesResult(chatsRepo.docs, messagesRepo.docs, chatId, userId, cursor)
    {
      var permitted := EnforcePermissionPolicy();
      if permitted.Err? {
        return Err(permitted.error);
      }
      var filters := MakeFilters(chatId, userId, cursor);
      if filters.Err? {
        return Err(filters.error);
      }
      var messages := messagesRepo.GetChatMessages(filters.value);
      var data := MakeOutgoingData(messages);
      r := Ok(data);
    }
  }
}
