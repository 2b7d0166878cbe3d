/**
 * Listing of a user's chats: every stored chat the user takes part in that
 * holds at least one message, in storage order.
 */
module GetChats {
  import CS = ChatsStore

  /** `create_filters`: the user is a participant and the chat has messages. */
  function CreateFilters(userId: int): (f: CS.ChatFilter)
    ensures forall d :: CS.Matches(d, f) <==> CS.HasUserId(d.chat.relatedUsers, userId) && d.chat.messagesCount > 0
  {
    CS.HasUserWithMessages(userId)
  }

  /** `find` keeps storage order: listed chats keep ascending keys. */
  lemma {:induction false} FindKeepsOrder(docs: seq<CS.ChatDoc>, f: CS.ChatFilter)
    requires CS.KeysIncreasing(docs)
    ensures CS.KeysIncreasing(CS.Find(docs, f))
  {
    if docs != [] {
      FindKeepsOrder(docs[1..], f);
      var rest := CS.Find(docs[1..], f);
      forall j | 0 <= j < |rest| ensures docs[0].key < rest[j].key {
        assert rest[j] in rest;
        var m :| 0 <= m < |docs[1..]| && docs[1..][m] == rest[j];
        assert docs[m + 1] == rest[j];
      }
    }
  }

  /** A chat with no messages yet, such as one just created, is never listed. */
  lemma EmptyChatNotListed(docs: seq<CS.ChatDoc>, userId: int, d: CS.ChatDoc)
    requires d.chat.messagesCount == 0
    ensures d !in CS.Find(docs, CreateFilters(userId))
  {
  }

  class GetChatsUseCase {
    const userId: int
    const repo: CS.ChatsRepository

    constructor (userId: int, repo: CS.ChatsRepository)
      ensures this.userId == userId && this.repo == repo
    {
      this.userId := userId;
      this.repo := repo;
    }

    /** `execute`: exactly the user's chats that hold messages, in storage order. */
    method Execute() returns (r: seq<CS.ChatDoc>)
      requires repo.Valid()
      ensures forall d :: d in r <==> d in repo.docs && CS.HasUserId(d.chat.relatedUsers, userId) && d.chat.messagesCount > 0
      ensures CS.KeysIncreasing(r)
    {
      var filters := CreateFilters(userId);
      r := repo.GetChats(filters);
      FindKeepsOrder(repo.docs, filters);
    }
  }
}
