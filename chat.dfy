/**
 * The Chat domain entity: a participant list kept in canonical order
 * (ascending participant id) plus a message counter, and its dictionary
 * representation.
 */
module ChatEntity {
  import opened Wrappers
  import opened Records

  /** A participant profile snapshot as the user directory returns it. */
  datatype Profile = Profile(id: int, username: string, email: string, avatarUrl: string)

  /** `id` is None until the store's key has been copied into it. */
  datatype Chat = Chat(id: Option<string>, relatedUsers: seq<Profile>, messagesCount: int)

  ghost predicate SortedById(s: seq<Profile>) {
    forall i, j :: 0 <= i < j < |s| ==> s[i].id <= s[j].id
  }

  ghost predicate DistinctIds(s: seq<Profile>) {
    forall i, j :: 0 <= i < j < |s| ==> s[i].id != s[j].id
  }

  /** Inserts `p` before the first entry whose id is not smaller, which keeps the sort stable. */
  function InsertById(p: Profile, s: seq<Profile>): (r: seq<Profile>)
    requires SortedById(s)
    ensures SortedById(r)
    ensures multiset(r) == multiset(s) + multiset{p}
    ensures r[0] == p || (s != [] && r[0] == s[0])
  {
    if s == [] || p.id <= s[0].id then [p] + s
    else
      var rest := InsertById(p, s[1..]);
      assert s == [s[0]] + s[1..];
      assert s[0].id <= rest[0].id;
      [s[0]] + rest
  }

  /** The participants sorted ascending by id, equal ids keeping their input order. */
  function SortById(s: seq<Profile>): (r: seq<Profile>)
    ensures SortedById(r)
    ensures multiset(r) == multiset(s)
  {
    if s == [] then []
    else
      assert s == [s[0]] + s[1..];
      InsertById(s[0], SortById(s[1..]))
  }

  /** `Chat.create`: canonical order, no id yet, no messages. */
  function Create(relatedUsers: seq<Profile>): (c: Chat)
    ensures c.id == None && c.messagesCount == 0
    ensures SortedById(c.relatedUsers)
    ensures multiset(c.relatedUsers) == multiset(relatedUsers)
  {
    Chat(None, SortById(relatedUsers), 0)
  }

  /** Sorting a list that is already in canonical order leaves it unchanged. */
  lemma {:induction false} SortSortedIsIdentity(s: seq<Profile>)
    requires SortedById(s)
    ensures SortById(s) == s
  {
    if s != [] {
      SortSortedIsIdentity(s[1..]);
      assert s == [s[0]] + s[1..];
    }
  }

  /** No two different profiles of the list share an id (the same profile may repeat). */
  ghost predicate IdsIdentify(s: seq<Profile>) {
    forall i, j :: 0 <= i < |s| && 0 <= j < |s| && s[i].id == s[j].id ==> s[i] == s[j]
  }

  lemma SameHead(a: seq<Profile>, b: seq<Profile>)
    requires SortedById(a) && SortedById(b) && IdsIdentify(a)
    requires multiset(a) == multiset(b) && a != []
    ensures b != [] && a[0] == b[0]
  {
    assert a[0] in multiset(b);
    var j :| 0 <= j < |b| && b[j] == a[0];
    assert b[0] in multiset(a);
    var i :| 0 <= i < |a| && a[i] == b[0];
    assert a[0].id <= a[i].id;
    assert b[0].id <= b[j].id;
  }

  lemma TailIdsIdentify(a: seq<Profile>)
    requires IdsIdentify(a) && a != []
    ensures IdsIdentify(a[1..])
  {
    forall x, y | 0 <= x < |a[1..]| && 0 <= y < |a[1..]| && a[1..][x].id == a[1..][y].id
      ensures a[1..][x] == a[1..][y]
    {
      assert a[1..][x] == a[x + 1] && a[1..][y] == a[y + 1];
    }
  }

  lemma TailSorted(a: seq<Profile>)
    requires SortedById(a) && a != []
    ensures SortedById(a[1..])
  {
  }

  lemma TailMultiset(a: seq<Profile>, b: seq<Profile>)
    requires a != [] && b != [] && a[0] == b[0] && multiset(a) == multiset(b)
    ensures multiset(a[1..]) == multiset(b[1..])
  {
    assert a == [a[0]] + a[1..] && b == [b[0]] + b[1..];
    assert multiset(a) == multiset([a[0]]) + multiset(a[1..]);
    assert multiset(b) == multiset([b[0]]) + multiset(b[1..]);
    forall x ensures multiset(a[1..])[x] == multiset(b[1..])[x] {
      assert multiset(a)[x] == multiset([a[0]])[x] + multiset(a[1..])[x];
      assert multiset(b)[x] == multiset([b[0]])[x] + multiset(b[1..])[x];
    }
  }

  /** Two lists in canonical order with the same elements, whose ids identify them, are equal. */
  lemma {:induction false} SortedPermutationsEqual(a: seq<Profile>, b: seq<Profile>)
    requires SortedById(a) && SortedById(b) && IdsIdentify(a)
    requires multiset(a) == multiset(b)
    ensures a == b
  {
    if a == [] {
      assert |multiset(b)| == 0;
    } else {
      SameHead(a, b);
      TailMultiset(a, b);
      TailIdsIdentify(a);
      TailSorted(a);
      TailSorted(b);
      SortedPermutationsEqual(a[1..], b[1..]);
      assert a == [a[0]] + a[1..] && b == [b[0]] + b[1..];
    }
  }

  /** Distinct ids identify their profiles. */
  lemma DistinctIdsIdentify(s: seq<Profile>)
    requires DistinctIds(s)
    ensures IdsIdentify(s)
  {
    forall i, j | 0 <= i < |s| && 0 <= j < |s| && s[i].id == s[j].id
      ensures s[i] == s[j]
    {
      assert !(i < j) && !(j < i);
    }
  }

  /**
   * Permutation invariance of `Chat.create`: two orderings of the same
   * profiles produce the same chat, provided no id belongs to two different
   * profiles (in particular, when the ids are distinct).
   */
  lemma CreatePermutationInvariant(a: seq<Profile>, b: seq<Profile>)
    requires multiset(a) == multiset(b) && IdsIdentify(a)
    ensures Create(a) == Create(b)
  {
    var sa, sb := SortById(a), SortById(b);
    assert IdsIdentify(sa) by {
      forall x, y | 0 <= x < |sa| && 0 <= y < |sa| && sa[x].id == sa[y].id
        ensures sa[x] == sa[y]
      {
        assert sa[x] in multiset(a) && sa[y] in multiset(a);
        var i :| 0 <= i < |a| && a[i] == sa[x];
        var j :| 0 <= j < |a| && a[j] == sa[y];
      }
    }
    SortedPermutationsEqual(sa, sb);
  }

  /**
   * With a repeated participant id, the order of the input can matter:
   * two profiles with the same id keep their input order.
   */
  lemma RepeatedIdBreaksInvariance()
    ensures var p, q := Profile(1, "ann", "a@x", ""), Profile(1, "bob", "b@x", "");
            Create([p, q]) != Create([q, p])
  {
    var p, q := Profile(1, "ann", "a@x", ""), Profile(1, "bob", "b@x", "");
    assert SortById([q]) == [q];
    assert SortById([p, q]) == [p, q];
    assert SortById([p]) == [p];
    assert SortById([q, p]) == [q, p];
  }

  /** A participant profile as a record with the four profile keys. */
  function ProfileValue(p: Profile): (v: Value)
    ensures v.Object? && v.entries.Keys == {"id", "username", "email", "avatar_url"}
    ensures v.entries["id"] == Int(p.id)
  {
    Object(map["id" := Int(p.id), "username" := Str(p.username),
               "email" := Str(p.email), "avatar_url" := Str(p.avatarUrl)])
  }

  function ProfilesValue(s: seq<Profile>): (v: Value)
    ensures v.List? && |v.items| == |s|
    ensures forall i :: 0 <= i < |s| ==> v.items[i] == ProfileValue(s[i])
  {
    List(seq(|s|, i requires 0 <= i < |s| => ProfileValue(s[i])))
  }

  /** `Chat.representation`: the chat as a record of its three fields. */
  function Representation(c: Chat): (d: Dict)
    ensures d.Keys == {"id", "related_users", "messages_count"}
    ensures d["id"] == OptionalString(c.id) && d["messages_count"] == Int(c.messagesCount)
    ensures d["related_users"] == ProfilesValue(c.relatedUsers)
  {
    map["id" := OptionalString(c.id),
        "related_users" := ProfilesValue(c.relatedUsers),
        "messages_count" := Int(c.messagesCount)]
  }

  /** A stored chat document: the representation plus the store's `_id`. */
  function StoredChat(key: nat, c: Chat): Dict {
    Representation(c)["_id" := ObjectId(key)]
  }

  /**
   * The outgoing chat record built from a stored chat document keeps the
   * chat's id and participants and drops its `_id` and message counter.
   */
  lemma ChatOutFromStored(key: nat, c: Chat)
    ensures FromDict(ChatOutFields(), StoredChat(key, c)) ==
      Ok(map["id" := OptionalString(c.id), "related_users" := ProfilesValue(c.relatedUsers)])
  {
    var d := StoredChat(key, c);
    var fields := ChatOutFields();
    var given := Incoming(fields, d);
    assert given.Keys == {"id", "related_users"};
    assert Complete(fields, given);
    var r := FromDict(fields, d).value;
    assert r.Keys == {"id", "related_users"};
    assert r["id"] == OptionalString(c.id);
    assert r["related_users"] == ProfilesValue(c.relatedUsers);
    assert r == map["id" := OptionalString(c.id), "related_users" := ProfilesValue(c.relatedUsers)];
  }
}
