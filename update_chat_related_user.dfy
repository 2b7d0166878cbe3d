/**
 * Propagation of a user's new profile into every chat the user takes part
 * in: only the user themself may push their own profile.
 */
module UpdateChatRelatedUser {
  import opened Wrappers
  import opened ChatEntity
  import CS = ChatsStore

  /** `enforce_authorization_policy`: the profile must be the requester's own. */
  function EnforceAuthorizationPolicy(userId: int, userData: Profile): (r: Result<()>)
    ensures r.Ok? <==> userData.id == userId
    ensures r.Err? ==> r.error == ChatUpdatingDenied
  {
    if userId != userData.id then Err(ChatUpdatingDenied) else Ok(())
  }

  /**
   * Propagating a profile changes, in each chat, only the first participant
   * entry with that id and only to that profile: keys, ids, counters and
   * canonical order are kept, chats without the user are untouched, and
   * propagating again changes nothing more.
   */
  lemma PropagationKeepsChats(docs: seq<CS.ChatDoc>, p: Profile)
    requires CS.KeysIncreasing(docs) && CS.IdsAreKeys(docs)
    requires forall j :: 0 <= j < |docs| ==> SortedById(docs[j].chat.relatedUsers)
    ensures var r := CS.PropagateProfile(docs, p.id, p);
      && CS.KeysIncreasing(r) && CS.IdsAreKeys(r)
      && (forall j :: 0 <= j < |r| ==> SortedById(r[j].chat.relatedUsers))
      && (forall j :: 0 <= j < |r| ==> r[j].chat.messagesCount == docs[j].chat.messagesCount)
      && (forall j :: 0 <= j < |r| && !CS.HasUserId(docs[j].chat.relatedUsers, p.id) ==> r[j] == docs[j])
      && CS.PropagateProfile(r, p.id, p) == r
  {
    CS.PropagateKeepsOrder(docs, p);
    CS.PropagateIdempotent(docs, p);
  }

  class UpdateChatUserUseCase {
    const userData: Profile
    const userId: int
    const repo: CS.ChatsRepository

    constructor (userData: Profile, userId: int, repo: CS.ChatsRepository)
      ensures this.userData == userData && this.userId == userId && this.repo == repo
    {
      this.userData := userData;
      this.userId := userId;
      this.repo := repo;
    }

    /** `execute`: a denied request changes nothing; otherwise the profile is propagated. */
    method Execute() returns (r: Result<()>)
      requires repo.Valid()
      modifies repo
      ensures repo.Valid() && repo.nextKey == old(repo.nextKey)
      ensures r == EnforceAuthorizationPolicy(userId, userData)
      ensures r.Err? ==> repo.docs == old(repo.docs)
      ensures r.Ok? ==> repo.docs == CS.PropagateProfile(old(repo.docs), userData.id, userData)
    {
      r := EnforceAuthorizationPolicy(userId, userData);
      if r.Err? {
        return;
      }
      repo.UpdateRelatedUser(userData.id, userData);
    }
  }
}
