/**
 * The chat collection as an in-memory table: documents in natural
 * (insertion) order, each carrying the native key the store gave it, with
 * the queries and updates the chat repository issues against it.
 */
module ChatsStore {
  import opened Wrappers
  import opened Keys
  import opened ChatEntity

  /** A stored chat: the chat's fields plus its native key `_id`. */
  datatype ChatDoc = ChatDoc(key: nat, chat: Chat)

  /** The filters the services pass to the chat collection. */
  datatype ChatFilter =
    | IdIs(id: string)                  // the `id` field equals `id`
    | KeyIs(key: nat)                   // the native key is `key`
    | UsersAre(users: seq<Profile>)     // the participant list is exactly `users`
    | HasUser(userId: int)              // some participant has id `userId`
    | HasUserWithMessages(userId: int)  // as HasUser, and the chat holds messages

  /** The arguments of the upsert: filter, `$setOnInsert` document and flags. */
  datatype UpsertQuery = UpsertQuery(users: seq<Profile>, setOnInsert: Chat, upsert: bool, returnAfter: bool)

  predicate HasUserId(users: seq<Profile>, userId: int) {
    exists i :: 0 <= i < |users| && users[i].id == userId
  }

  predicate Matches(d: ChatDoc, f: ChatFilter) {
    match f
    case IdIs(id) => d.chat.id == Some(id)
    case KeyIs(k) => d.key == k
    case UsersAre(users) => d.chat.relatedUsers == users
    case HasUser(u) => HasUserId(d.chat.relatedUsers, u)
    case HasUserWithMessages(u) => HasUserId(d.chat.relatedUsers, u) && d.chat.messagesCount > 0
  }

  ghost predicate KeysIncreasing(docs: seq<ChatDoc>) {
    forall i, j :: 0 <= i < j < |docs| ==> docs[i].key < docs[j].key
  }

  /** Every assigned `id` is the string form of the document's own key. */
  ghost predicate IdsAreKeys(docs: seq<ChatDoc>) {
    forall i :: 0 <= i < |docs| ==> docs[i].chat.id == None || docs[i].chat.id == Some(KeyString(docs[i].key))
  }

  /** Position of the first document, in natural order, that the filter matches. */
  function FirstMatch(docs: seq<ChatDoc>, f: ChatFilter): (r: Option<nat>)
    ensures r.Some? ==> r.value < |docs| && Matches(docs[r.value], f)
    ensures r.Some? ==> forall j :: 0 <= j < r.value ==> !Matches(docs[j], f)
    ensures r.None? ==> forall j :: 0 <= j < |docs| ==> !Matches(docs[j], f)
  {
    if docs == [] then None
    else if Matches(docs[0], f) then Some(0)
    else
      match FirstMatch(docs[1..], f)
      case None => None
      case Some(i) => Some(i + 1)
  }

  /** `find_one`: the first matching document in natural order, if any. */
  function FindOne(docs: seq<ChatDoc>, f: ChatFilter): (r: Option<ChatDoc>)
    ensures r.Some? <==> exists i :: 0 <= i < |docs| && Matches(docs[i], f)
    ensures r.Some? ==> r.value in docs && Matches(r.value, f)
  {
    match FirstMatch(docs, f)
    case Some(i) => Some(docs[i])
    case None => None
  }

  /** `find(filter)`: every matching document, in natural order. */
  function Find(docs: seq<ChatDoc>, f: ChatFilter): (r: seq<ChatDoc>)
    ensures forall d :: d in r <==> d in docs && Matches(d, f)
    ensures |r| <= |docs|
  {
    if docs == [] then []
    else
      assert forall d :: d in docs <==> d == docs[0] || d in docs[1..];
      (if Matches(docs[0], f) then [docs[0]] else []) + Find(docs[1..], f)
  }

  /** `increment_messages_count`: one more message on the first chat whose `id` field is `id`. */
  function WithIncrementedCount(docs: seq<ChatDoc>, id: string): (r: seq<ChatDoc>)
    ensures |r| == |docs|
    ensures forall j :: 0 <= j < |docs| ==>
      r[j].key == docs[j].key && r[j].chat.id == docs[j].chat.id &&
      r[j].chat.relatedUsers == docs[j].chat.relatedUsers
    ensures forall j :: 0 <= j < |docs| ==>
      r[j].chat.messagesCount ==
        docs[j].chat.messagesCount + (if FirstMatch(docs, IdIs(id)) == Some(j) then 1 else 0)
  {
    match FirstMatch(docs, IdIs(id))
    case None => docs
    case Some(i) => docs[i := docs[i].(chat := docs[i].chat.(messagesCount := docs[i].chat.messagesCount + 1))]
  }

  /** `update_id`: the string `s` written into the `id` field of the document with key `k`. */
  function WithId(docs: seq<ChatDoc>, k: nat, s: string): (r: seq<ChatDoc>)
    ensures |r| == |docs|
    ensures forall j :: 0 <= j < |docs| ==>
      r[j].key == docs[j].key && r[j].chat.relatedUsers == docs[j].chat.relatedUsers &&
      r[j].chat.messagesCount == docs[j].chat.messagesCount
    ensures forall j :: 0 <= j < |docs| ==>
      r[j].chat.id == if docs[j].key == k && FirstMatch(docs, KeyIs(k)) == Some(j) then Some(s) else docs[j].chat.id
  {
    match FirstMatch(docs, KeyIs(k))
    case None => docs
    case Some(i) => docs[i := docs[i].(chat := docs[i].chat.(id := Some(s)))]
  }

  /** Position of the first participant with that id. */
  function FirstUser(users: seq<Profile>, userId: int): (r: Option<nat>)
    ensures r.Some? ==> r.value < |users| && users[r.value].id == userId
    ensures r.Some? ==> forall j :: 0 <= j < r.value ==> users[j].id != userId
    ensures r.None? <==> !HasUserId(users, userId)
  {
    if users == [] then None
    else if users[0].id == userId then Some(0)
    else
      match FirstUser(users[1..], userId)
      case None =>
        assert forall j :: 1 <= j < |users| ==> users[j] == users[1..][j - 1];
        None
      case Some(i) => Some(i + 1)
  }

  /** The positional update: the first participant entry with the id becomes the new profile. */
  function ReplaceFirstUser(users: seq<Profile>, userId: int, p: Profile): (r: seq<Profile>)
    ensures |r| == |users|
    ensures forall j :: 0 <= j < |users| ==>
      r[j] == if FirstUser(users, userId) == Some(j) then p else users[j]
  {
    match FirstUser(users, userId)
    case None => users
    case Some(i) => users[i := p]
  }

  /** `update_related_user`: in every chat with the user, that user's first entry becomes the new profile. */
  function PropagateProfile(docs: seq<ChatDoc>, userId: int, p: Profile): (r: seq<ChatDoc>)
    ensures |r| == |docs|
    ensures forall j :: 0 <= j < |docs| ==>
      r[j].key == docs[j].key && r[j].chat.id == docs[j].chat.id &&
      r[j].chat.messagesCount == docs[j].chat.messagesCount &&
      |r[j].chat.relatedUsers| == |docs[j].chat.relatedUsers|
    ensures forall j :: 0 <= j < |docs| && !HasUserId(docs[j].chat.relatedUsers, userId) ==> r[j] == docs[j]
    ensures forall j :: 0 <= j < |docs| && HasUserId(docs[j].chat.relatedUsers, userId) ==>
      r[j].chat.relatedUsers == ReplaceFirstUser(docs[j].chat.relatedUsers, userId, p)
  {
    seq(|docs|, j requires 0 <= j < |docs| =>
      if Matches(docs[j], HasUser(userId))
      then docs[j].(chat := docs[j].chat.(relatedUsers := ReplaceFirstUser(docs[j].chat.relatedUsers, userId, p)))
      else docs[j])
  }

  /** In an ascending table, key order is position order. */
  lemma KeyOrder(docs: seq<ChatDoc>, i: nat, j: nat)
    requires KeysIncreasing(docs) && i < |docs| && j < |docs|
    ensures docs[i].key < docs[j].key <==> i < j
  {
  }

  /** With every id the form of its own key, at most one chat answers to an id. */
  lemma {:induction false} IdNamesOneChat(docs: seq<ChatDoc>, s: string, i: nat, j: nat)
    requires KeysIncreasing(docs) && IdsAreKeys(docs)
    requires i < |docs| && j < |docs| && Matches(docs[i], IdIs(s)) && Matches(docs[j], IdIs(s))
    ensures i == j
  {
    KeyStringInjective(docs[i].key, docs[j].key);
  }

  /**
   * The counter increment reaches exactly the chat the id names, when there
   * is one; no other chat changes.
   */
  lemma IncrementNamedChat(docs: seq<ChatDoc>, id: string)
    requires KeysIncreasing(docs) && IdsAreKeys(docs)
    ensures forall j :: 0 <= j < |docs| ==>
      WithIncrementedCount(docs, id)[j].chat.messagesCount ==
        docs[j].chat.messagesCount + (if docs[j].chat.id == Some(id) then 1 else 0)
  {
    forall j | 0 <= j < |docs| && docs[j].chat.id == Some(id)
      ensures FirstMatch(docs, IdIs(id)) == Some(j)
    {
      var f := FirstMatch(docs, IdIs(id));
      IdNamesOneChat(docs, id, f.value, j);
    }
  }

  /** A chat whose id is still None cannot be found by id. */
  lemma UnassignedChatNotFound(docs: seq<ChatDoc>, i: nat, s: string)
    requires i < |docs| && docs[i].chat.id == None
    ensures FindOne(docs, IdIs(s)) != Some(docs[i])
  {
  }

  /** Replacing a participant by a profile with the same id keeps the canonical order. */
  lemma ReplaceKeepsOrder(users: seq<Profile>, p: Profile)
    requires SortedById(users)
    ensures SortedById(ReplaceFirstUser(users, p.id, p))
  {
    var r := ReplaceFirstUser(users, p.id, p);
    assert forall j :: 0 <= j < |users| ==> r[j].id == users[j].id;
  }

  /** Replacing twice with the same profile is replacing once. */
  lemma ReplaceIdempotent(users: seq<Profile>, p: Profile)
    ensures ReplaceFirstUser(ReplaceFirstUser(users, p.id, p), p.id, p) == ReplaceFirstUser(users, p.id, p)
  {
    var once := ReplaceFirstUser(users, p.id, p);
    var f := FirstUser(users, p.id);
    if f.Some? {
      assert FirstUser(once, p.id) == f by {
        var g := FirstUser(once, p.id);
        assert once[f.value] == p;
        assert g.Some?;
        assert g.value <= f.value;
      }
    } else {
      assert once == users;
    }
  }

  /** Propagating the same profile twice is propagating it once. */
  lemma PropagateIdempotent(docs: seq<ChatDoc>, p: Profile)
    ensures PropagateProfile(PropagateProfile(docs, p.id, p), p.id, p) == PropagateProfile(docs, p.id, p)
  {
    var once := PropagateProfile(docs, p.id, p);
    var twice := PropagateProfile(once, p.id, p);
    forall j | 0 <= j < |docs| ensures twice[j] == once[j] {
      if HasUserId(docs[j].chat.relatedUsers, p.id) {
        ReplaceIdempotent(docs[j].chat.relatedUsers, p);
        var u := once[j].chat.relatedUsers;
        var k := FirstUser(docs[j].chat.relatedUsers, p.id).value;
        assert u[k] == p;
        assert HasUserId(u, p.id);
      }
    }
  }

  /** Propagation keeps every chat's participants in canonical order. */
  lemma PropagateKeepsOrder(docs: seq<ChatDoc>, p: Profile)
    requires forall j :: 0 <= j < |docs| ==> SortedById(docs[j].chat.relatedUsers)
    ensures forall j :: 0 <= j < |docs| ==> SortedById(PropagateProfile(docs, p.id, p)[j].chat.relatedUsers)
  {
    forall j | 0 <= j < |docs| ensures SortedById(PropagateProfile(docs, p.id, p)[j].chat.relatedUsers) {
      ReplaceKeepsOrder(docs[j].chat.relatedUsers, p);
    }
  }

  class ChatsRepository {
    var docs: seq<ChatDoc>
    var nextKey: nat

    ghost predicate Valid()
      reads this
    {
      KeysIncreasing(docs) && forall i :: 0 <= i < |docs| ==> docs[i].key < nextKey
    }

    constructor ()
      ensures Valid() && docs == []
    {
      docs, nextKey := [], 0;
    }

    /**
     * `get_or_create_chat`, a find-and-modify with insert-only fields:
     * a match is returned untouched; otherwise, with upsert, the insert
     * document is stored under a fresh key.
     */
    method GetOrCreateChat(q: UpsertQuery) returns (r: Option<ChatDoc>)
      requires Valid()
      modifies this
      ensures Valid()
      ensures FindOne(old(docs), UsersAre(q.users)).Some? ==>
        docs == old(docs) && nextKey == old(nextKey) && r == FindOne(old(docs), UsersAre(q.users))
      ensures FindOne(old(docs), UsersAre(q.users)).None? && q.upsert ==>
        && docs == old(docs) + [ChatDoc(old(nextKey), q.setOnInsert)]
        && nextKey == old(nextKey) + 1
        && r == if q.returnAfter then Some(ChatDoc(old(nextKey), q.setOnInsert)) else None
      ensures FindOne(old(docs), UsersAre(q.users)).None? && !q.upsert ==>
        docs == old(docs) && nextKey == old(nextKey) && r == None
    {
      r := FindOne(docs, UsersAre(q.users));
      if r.None? && q.upsert {
        var d := ChatDoc(nextKey, q.setOnInsert);
        docs := docs + [d];
        nextKey := nextKey + 1;
        if q.returnAfter {
          r := Some(d);
        }
      }
    }

    /** `update_id`: copies `_id` into the `id` field of the document with that key. */
    method UpdateId(s: string) returns (r: Result<()>)
      requires Valid()
      modifies this
      ensures Valid() && nextKey == old(nextKey)
      ensures ParseKey(s).None? ==> r == Err(InvalidObjectId) && docs == old(docs)
      ensures ParseKey(s).Some? ==> r == Ok(()) && docs == WithId(old(docs), ParseKey(s).value, s)
    {
      var k := ParseKey(s);
      if k.None? {
        return Err(InvalidObjectId);
      }
      docs := WithId(docs, k.value, s);
      r := Ok(());
    }

    /** `get_chat`: matches the `id` field, not the native key. */
    method GetChat(id: string) returns (r: Option<ChatDoc>)
      ensures r == FindOne(docs, IdIs(id))
    {
      r := FindOne(docs, IdIs(id));
    }

    /** `get_chats`: every matching chat, the table untouched. */
    method GetChats(f: ChatFilter) returns (r: seq<ChatDoc>)
      ensures r == Find(docs, f)
    {
      r := Find(docs, f);
    }

    method IncrementMessagesCount(id: string)
      requires Valid()
      modifies this
      ensures Valid() && nextKey == old(nextKey)
      ensures docs == WithIncrementedCount(old(docs), id)
    {
      docs := WithIncrementedCount(docs, id);
    }

    method UpdateRelatedUser(userId: int, p: Profile)
      requires Valid()
      modifies this
      ensures Valid() && nextKey == old(nextKey)
      ensures docs == PropagateProfile(old(docs), userId, p)
    {
      docs := PropagateProfile(docs, userId, p);
    }
  }
}
