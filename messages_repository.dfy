/**
 * The message collection as an in-memory table: documents in natural
 * (insertion) order under strictly increasing native keys, with the
 * existence check, the insert, the id back-fill and the paginated read the
 * message repository issues against it.
 */
module MessagesStore {
  import opened Wrappers
  import opened Keys
  import opened MessageEntity

  /** A stored message: the message's fields plus its native key `_id`. */
  datatype MessageDoc = MessageDoc(key: nat, msg: Message)

  /**
   * The filter built for a page of messages: the chat, the requesting user
   * as sender or recipient, and, with a cursor, only keys below it.
   */
  datatype MessagesFilter = MessagesFilter(chatId: string, userId: int, before: Option<nat>)

  predicate Matches(d: MessageDoc, f: MessagesFilter) {
    && d.msg.chatId == f.chatId
    && (d.msg.senderId == f.userId || d.msg.recipientId == f.userId)
    && (f.before.Some? ==> d.key < f.before.value)
  }

  ghost predicate KeysIncreasing(docs: seq<MessageDoc>) {
    forall i, j :: 0 <= i < j < |docs| ==> docs[i].key < docs[j].key
  }

  /** Some stored message carries that client message id. */
  predicate ClientIdTaken(docs: seq<MessageDoc>, clientMessageId: string) {
    exists i :: 0 <= i < |docs| && docs[i].msg.clientMessageId == clientMessageId
  }

  /** Some stored message, of any chat, has a key below `k`. */
  predicate AnyOlder(docs: seq<MessageDoc>, k: nat) {
    exists i :: 0 <= i < |docs| && docs[i].key < k
  }

  /** The matching documents in natural (ascending key) order. */
  function Selected(docs: seq<MessageDoc>, f: MessagesFilter): (r: seq<MessageDoc>)
    ensures forall d :: d in r <==> d in docs && Matches(d, f)
    ensures KeysIncreasing(docs) ==> KeysIncreasing(r)
  {
    if docs == [] then []
    else
      var rest := Selected(docs[1..], f);
      assert forall d :: d in docs <==> d == docs[0] || d in docs[1..];
      var r := (if Matches(docs[0], f) then [docs[0]] else []) + rest;
      assert KeysIncreasing(docs) ==> KeysIncreasing(r) by {
        if KeysIncreasing(docs) && Matches(docs[0], f) {
          forall j | 0 <= j < |rest| ensures docs[0].key < rest[j].key {
            assert rest[j] in rest;
            var m :| 0 <= m < |docs[1..]| && docs[1..][m] == rest[j];
            assert docs[m + 1] == rest[j];
          }
        }
      }
      r
  }

  function Reverse(s: seq<MessageDoc>): (r: seq<MessageDoc>)
    ensures |r| == |s|
    ensures forall i :: 0 <= i < |s| ==> r[i] == s[|s| - 1 - i]
  {
    if s == [] then [] else Reverse(s[1..]) + [s[0]]
  }

  /** `settings.messages_limit` */
  const MessagesLimit: nat := 10

  /**
   * `get_chat_messages`, sorted by native key descending and limited: the newest
   * matching messages, newest first, at most a page of them. A matching
   * message is left out only when the page is full, and then it is older
   * than every message of the page.
   */
  function ChatMessagesPage(docs: seq<MessageDoc>, f: MessagesFilter): (r: seq<MessageDoc>)
    requires KeysIncreasing(docs)
    ensures |r| <= MessagesLimit
    ensures forall i :: 0 <= i < |r| ==> r[i] in docs && Matches(r[i], f)
    ensures forall i, j :: 0 <= i < j < |r| ==> r[i].key > r[j].key
    ensures forall d :: d in docs && Matches(d, f) && d !in r ==>
      |r| == MessagesLimit && d.key < r[|r| - 1].key
  {
    var sel := Selected(docs, f);
    var rev := Reverse(sel);
    var n := if |rev| < MessagesLimit then |rev| else MessagesLimit;
    NewestFirst(sel, n);
    rev[..n]
  }

  /** The `n` newest documents of an ascending table, newest first, and what they leave out. */
  lemma NewestFirst(sel: seq<MessageDoc>, n: nat)
    requires KeysIncreasing(sel) && n <= |sel|
    ensures forall i, j :: 0 <= i < j < n ==> Reverse(sel)[i].key > Reverse(sel)[j].key
    ensures forall d :: d in sel && d !in Reverse(sel)[..n] ==>
      n < |sel| && (n > 0 ==> d.key < Reverse(sel)[n - 1].key)
  {
    var rev := Reverse(sel);
    forall d | d in sel && d !in rev[..n]
      ensures n < |sel| && (n > 0 ==> d.key < rev[n - 1].key)
    {
      var k :| 0 <= k < |sel| && sel[k] == d;
      assert rev[|sel| - 1 - k] == d;
      if n > 0 {
        assert rev[n - 1] == sel[|sel| - n];
      }
    }
  }

  /** The document position that holds key `k`, if any. */
  function KeyIndex(docs: seq<MessageDoc>, k: nat): (r: Option<nat>)
    ensures r.Some? ==> r.value < |docs| && docs[r.value].key == k
    ensures r.Some? ==> forall j :: 0 <= j < r.value ==> docs[j].key != k
    ensures r.None? ==> forall j :: 0 <= j < |docs| ==> docs[j].key != k
  {
    if docs == [] then None
    else if docs[0].key == k then Some(0)
    else
      match KeyIndex(docs[1..], k)
      case None => None
      case Some(i) => Some(i + 1)
  }

  /** `update_id`: the string `s` written into the `id` field of the document with key `k`. */
  function WithId(docs: seq<MessageDoc>, k: nat, s: string): (r: seq<MessageDoc>)
    ensures |r| == |docs|
    ensures forall j :: 0 <= j < |docs| ==>
      r[j] == if KeyIndex(docs, k) == Some(j) then docs[j].(msg := docs[j].msg.(id := Some(s))) else docs[j]
  {
    match KeyIndex(docs, k)
    case None => docs
    case Some(i) => docs[i := docs[i].(msg := docs[i].msg.(id := Some(s)))]
  }

  /** In an ascending table, key order is position order. */
  lemma KeyOrder(docs: seq<MessageDoc>, i: nat, j: nat)
    requires KeysIncreasing(docs) && i < |docs| && j < |docs|
    ensures docs[i].key < docs[j].key <==> i < j
  {
  }

  lemma HeadIsMember(s: seq<MessageDoc>)
    ensures s != [] ==> s[0] in s
  {
  }

  /** Two tables in ascending key order with the same documents are equal. */
  lemma {:induction false} IncreasingSameElementsEqual(a: seq<MessageDoc>, b: seq<MessageDoc>)
    requires KeysIncreasing(a) && KeysIncreasing(b)
    requires forall d :: d in a <==> d in b
    ensures a == b
  {
    if a == [] {
      HeadIsMember(b);
    } else {
      assert a[0] in b;
      assert b != [];
      assert b[0] in a;
      var i :| 0 <= i < |a| && a[i] == b[0];
      var j :| 0 <= j < |b| && b[j] == a[0];
      assert i == 0 && j == 0;
      forall d ensures d in a[1..] <==> d in b[1..] {
        if d in a[1..] {
          var x :| 0 <= x < |a[1..]| && a[1..][x] == d;
          assert a[x + 1] == d && a[0].key < d.key;
          assert d in b && d != b[0];
          var y :| 0 <= y < |b| && b[y] == d;
          assert b[1..][y - 1] == d;
        }
        if d in b[1..] {
          var y :| 0 <= y < |b[1..]| && b[1..][y] == d;
          assert b[y + 1] == d && b[0].key < d.key;
          assert d in a && d != a[0];
          var x :| 0 <= x < |a| && a[x] == d;
          assert a[1..][x - 1] == d;
        }
      }
      IncreasingSameElementsEqual(a[1..], b[1..]);
      assert a == [a[0]] + a[1..] && b == [b[0]] + b[1..];
    }
  }

  class MessagesRepository {
    var docs: seq<MessageDoc>
    var nextKey: nat

    ghost predicate Valid()
      reads this
    {
      KeysIncreasing(docs) && forall i :: 0 <= i < |docs| ==> docs[i].key < nextKey
    }

    constructor ()
      ensures Valid() && docs == []
    {
      docs, nextKey := [], 0;
    }

    /** `message_exists`, asked by client message id. */
    method MessageExists(clientMessageId: string) returns (b: bool)
      ensures b <==> exists i :: 0 <= i < |docs| && docs[i].msg.clientMessageId == clientMessageId
    {
      b := ClientIdTaken(docs, clientMessageId);
    }

    /** `create_message`: stores the message under a fresh key and returns the key's string form. */
    method CreateMessage(m: Message) returns (id: string)
      requires Valid()
      modifies this
      ensures Valid()
      ensures docs == old(docs) + [MessageDoc(old(nextKey), m)] && nextKey == old(nextKey) + 1
      ensures id == KeyString(old(nextKey)) && ParseKey(id) == Some(old(nextKey))
    {
      docs := docs + [MessageDoc(nextKey, m)];
      id := KeyString(nextKey);
      ParseKeyString(nextKey);
      nextKey := nextKey + 1;
    }

    /**
     * `update_id`: copies the string into the `id` field of the document
     * with that key and returns the updated document, or None when no
     * document has that key; a string that names no key is InvalidObjectId.
     */
    method UpdateId(s: string) returns (r: Result<Option<MessageDoc>>)
      requires Valid()
      modifies this
      ensures Valid() && nextKey == old(nextKey)
      ensures ParseKey(s).None? ==> r == Err(InvalidObjectId) && docs == old(docs)
      ensures ParseKey(s).Some? ==>
        var k := ParseKey(s).value;
        && docs == WithId(old(docs), k, s)
        && r == Ok(if KeyIndex(old(docs), k).Some? then Some(docs[KeyIndex(old(docs), k).value]) else None)
    {
      var k := ParseKey(s);
      if k.None? {
        return Err(InvalidObjectId);
      }
      var i := KeyIndex(docs, k.value);
      docs := WithId(docs, k.value, s);
      r := Ok(if i.Some? then Some(docs[i.value]) else None);
    }

    /** `get_chat_messages` */
    method GetChatMessages(f: MessagesFilter) returns (r: seq<MessageDoc>)
      requires Valid()
      ensures r == ChatMessagesPage(docs, f)
    {
      r := ChatMessagesPage(docs, f);
    }

    /**
     * `previous_messages_exist`: whether any stored message, of any chat,
     * has a key below the one the string names.
     */
    method PreviousMessagesExist(s: string) returns (r: Result<bool>)
      ensures r.Ok? <==> ParseKey(s).Some?
      ensures r.Err? ==> r.error == InvalidObjectId
      ensures r.Ok? ==> (r.value <==> exists i :: 0 <= i < |docs| && docs[i].key < ParseKey(s).value)
    {
      var k := ParseKey(s);
      if k.None? {
        return Err(InvalidObjectId);
      }
      r := Ok(AnyOlder(docs, k.value));
    }
  }
}
