/**
 * Get-or-create of a chat between users: only a user who is one of the
 * chat's users may ask; the participants' profiles, in canonical order,
 * identify the chat; a new chat is stored once and gets the string form of
 * its key as id.
 */
module CreateChat {
  import opened Wrappers
  import opened Keys
  import opened ChatEntity
  import CS = ChatsStore

  /** `enforce_permission_policy`: the requester must be one of the chat's user ids. */
  function EnforcePermissionPolicy(userId: int, userIds: seq<int>): (r: Result<()>)
    ensures r.Ok? <==> exists i :: 0 <= i < |userIds| && userIds[i] == userId
    ensures r.Err? ==> r.error == ChatCreationDenied
  {
    if userId in userIds then Ok(()) else Err(ChatCreationDenied)
  }

  /**
   * `prepare_query`: match on the participants in canonical order, insert
   * the chat when none matches, return the document after the update.
   * Re-sorting participants already in canonical order changes nothing.
   */
  function PrepareQuery(chat: Chat): (q: CS.UpsertQuery)
    ensures q.setOnInsert == chat && q.upsert && q.returnAfter
    ensures SortedById(q.users) && multiset(q.users) == multiset(chat.relatedUsers)
    ensures SortedById(chat.relatedUsers) ==> q.users == chat.relatedUsers
  {
    var users := SortById(chat.relatedUsers);
    assert SortedById(chat.relatedUsers) ==> users == chat.relatedUsers by {
      if SortedById(chat.relatedUsers) {
        SortSortedIsIdentity(chat.relatedUsers);
      }
    }
    CS.UpsertQuery(users, chat, true, true)
  }

  /** The result of a creation request and the chat table after it. */
  datatype Created = Created(result: Result<CS.ChatDoc>, docs: seq<CS.ChatDoc>, nextKey: nat)

  /**
   * The whole effect of a creation request by `userId` for `userIds`, the
   * user directory answering `profiles` for them.
   */
  function CreateChatResult(docs: seq<CS.ChatDoc>, nextKey: nat, userId: int, userIds: seq<int>, profiles: seq<Profile>): Created {
    if EnforcePermissionPolicy(userId, userIds).Err? then Created(Err(ChatCreationDenied), docs, nextKey)
    else
      var c := ChatEntity.Create(profiles);
      match CS.FindOne(docs, CS.UsersAre(c.relatedUsers))
      case Some(d) =>
        if d.chat.id.Some? then Created(Ok(d), docs, nextKey)
        else
          var s := KeyString(d.key);
          Created(Ok(d.(chat := d.chat.(id := Some(s)))), CS.WithId(docs, d.key, s), nextKey)
      case None =>
        var s := KeyString(nextKey);
        Created(Ok(CS.ChatDoc(nextKey, c.(id := Some(s)))), CS.WithId(docs + [CS.ChatDoc(nextKey, c)], nextKey, s), nextKey + 1)
  }

  /** The table invariant the chat store keeps: ascending keys below the next key, ids that name their keys. */
  ghost predicate Consistent(docs: seq<CS.ChatDoc>, nextKey: nat) {
    && CS.KeysIncreasing(docs) && CS.IdsAreKeys(docs)
    && forall i :: 0 <= i < |docs| ==> docs[i].key < nextKey
  }

  /** Setting the id of the document at position `f` by its key touches that document only. */
  lemma WithIdAt(docs: seq<CS.ChatDoc>, f: nat, s: string)
    requires CS.KeysIncreasing(docs) && f < |docs|
    ensures CS.WithId(docs, docs[f].key, s) == docs[f := docs[f].(chat := docs[f].chat.(id := Some(s)))]
  {
    var k := docs[f].key;
    var g := CS.FirstMatch(docs, CS.KeyIs(k)).value;
    assert CS.Matches(docs[f], CS.KeyIs(k));
    CS.KeyOrder(docs, g, f);
    CS.KeyOrder(docs, f, g);
  }

  /**
   * A request that is not denied returns a stored chat whose participants
   * are the directory's profiles in canonical order and whose id is the
   * string form of its key; the table stays consistent, and a denied
   * request changes nothing.
   */
  lemma CreateChatCorrect(docs: seq<CS.ChatDoc>, nextKey: nat, userId: int, userIds: seq<int>, profiles: seq<Profile>)
    requires Consistent(docs, nextKey)
    ensures var o := CreateChatResult(docs, nextKey, userId, userIds, profiles);
      && Consistent(o.docs, o.nextKey)
      && (userId !in userIds <==> o.result == Err(ChatCreationDenied))
      && (userId !in userIds ==> o.docs == docs && o.nextKey == nextKey)
      && (o.result.Ok? ==>
            && o.result.value in o.docs
            && o.result.value.chat.id == Some(KeyString(o.result.value.key))
            && o.result.value.chat.relatedUsers == ChatEntity.Create(profiles).relatedUsers)
    ensures var o := CreateChatResult(docs, nextKey, userId, userIds, profiles);
      var users := ChatEntity.Create(profiles).relatedUsers;
      var found := CS.FindOne(docs, CS.UsersAre(users));
      && (userId in userIds && found.Some? && found.value.chat.id.Some? ==>
            o.docs == docs && o.nextKey == nextKey && o.result == Ok(found.value))
      && (userId in userIds && found.Some? && found.value.chat.id.None? ==>
            var named := found.value.(chat := found.value.chat.(id := Some(KeyString(found.value.key))));
            && o.nextKey == nextKey && |o.docs| == |docs| && o.result == Ok(named)
            && forall i :: 0 <= i < |docs| ==> o.docs[i] == if docs[i] == found.value then named else docs[i])
      && (userId in userIds && found.None? ==>
            && o.nextKey == nextKey + 1
            && o.docs == docs + [CS.ChatDoc(nextKey, Chat(Some(KeyString(nextKey)), users, 0))])
  {
    var o := CreateChatResult(docs, nextKey, userId, userIds, profiles);
    if userId in userIds {
      var c := ChatEntity.Create(profiles);
      var found := CS.FindOne(docs, CS.UsersAre(c.relatedUsers));
      if found.Some? {
        var f := CS.FirstMatch(docs, CS.UsersAre(c.relatedUsers)).value;
        if docs[f].chat.id.None? {
          WithIdAt(docs, f, KeyString(docs[f].key));
          assert o.docs[f] == o.result.value;
        }
      } else {
        var d := CS.ChatDoc(nextKey, c);
        WithIdAt(docs + [d], |docs|, KeyString(nextKey));
        assert o.docs == docs + [o.result.value];
        assert o.docs[|docs|] == o.result.value;
      }
    }
  }

  /**
   * Asking again for a chat between the same users, with the profiles in
   * any order, returns the same chat and changes nothing, provided no id
   * belongs to two different profiles.
   */
  lemma CreateChatIdempotent(docs: seq<CS.ChatDoc>, nextKey: nat, userId: int, userIds: seq<int>,
                             profiles: seq<Profile>, reordered: seq<Profile>)
    requires Consistent(docs, nextKey)
    requires multiset(reordered) == multiset(profiles) && IdsIdentify(profiles)
    ensures var first := CreateChatResult(docs, nextKey, userId, userIds, profiles);
      var second := CreateChatResult(first.docs, first.nextKey, userId, userIds, reordered);
      second == Created(first.result, first.docs, first.nextKey)
  {
    CreatePermutationInvariant(profiles, reordered);
    var c := ChatEntity.Create(profiles);
    var first := CreateChatResult(docs, nextKey, userId, userIds, profiles);
    if userId in userIds {
      CreateChatCorrect(docs, nextKey, userId, userIds, profiles);
      var users := CS.UsersAre(c.relatedUsers);
      match CS.FirstMatch(docs, users)
      case Some(f) =>
        if docs[f].chat.id.None? {
          WithIdAt(docs, f, KeyString(docs[f].key));
        }
        assert CS.FirstMatch(first.docs, users) == Some(f) by {
          var g := CS.FirstMatch(first.docs, users);
          assert CS.Matches(first.docs[f], users);
          assert g.Some? && g.value <= f;
          assert CS.Matches(docs[g.value], users);
        }
      case None =>
        var d := CS.ChatDoc(nextKey, c);
        WithIdAt(docs + [d], |docs|, KeyString(nextKey));
        assert CS.FirstMatch(first.docs, users) == Some(|docs|) by {
          var g := CS.FirstMatch(first.docs, users);
          assert CS.Matches(first.docs[|docs|], users);
          assert g.Some? && g.value <= |docs|;
        }
    }
  }

  class CreateChatUseCase {
    const userId: int
    const userIds: seq<int>
    /** The user directory: the profiles it returns for a list of user ids. */
    const directory: seq<int> -> seq<Profile>
    const repo: CS.ChatsRepository

    constructor (userId: int, userIds: seq<int>, directory: seq<int> -> seq<Profile>, repo: CS.ChatsRepository)
      ensures this.userId == userId && this.userIds == userIds && this.directory == directory && this.repo == repo
    {
      this.userId := userId;
      this.userIds := userIds;
      this.directory := directory;
      this.repo := repo;
    }

    /** `get_users_information` */
    method GetUsersInformation() returns (profiles: seq<Profile>)
      ensures profiles == directory(userIds)
    {
      profiles := directory(userIds);
    }

    /** `execute`: permission, get-or-create, then copy the key into a missing id. */
    method Execute() returns (r: Result<CS.ChatDoc>)
      requires repo.Valid()
      modifies repo
      ensures repo.Valid()
      ensures Created(r, repo.docs, repo.nextKey) ==
        CreateChatResult(old(repo.docs), old(repo.nextKey), userId, userIds, directory(userIds))
    {
      var permitted := EnforcePermissionPolicy(userId, userIds);
      if permitted.Err? {
        return Err(permitted.error);
      }
      var profiles := GetUsersInformation();
      var chatEntity := ChatEntity.Create(profiles);
      var query := PrepareQuery(chatEntity);
      ghost var before := repo.docs;
      var found := repo.GetOrCreateChat(query);
      var chat := found.value;
      if chat.chat.id.None? {
        var s := KeyString(chat.key);
        ParseKeyString(chat.key);
        var _ := repo.UpdateId(s);
        chat := chat.(chat := chat.chat.(id := Some(s)));
      }
      r := Ok(chat);
    }
  }
}
