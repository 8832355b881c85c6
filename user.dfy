/** Registering an account for a third-party login. */
module UserHandler {
  import opened Common
  import opened ErrorCodes
  import opened Models
  import opened Base

  /** No two accounts share a third-party id. */
  ghost predicate ThirdPartyIdsUnique(users: map<UserId, User>) {
    forall a, b :: a in users && b in users && users[a].thirdPartyId == users[b].thirdPartyId ==> a == b
  }

  /** Storing a fresh account for an unregistered third-party id keeps the
      ids unique and the store coherent, and the new account is the only
      one the login resolves to. */
  lemma RegisterKeepsInvariants(users: map<UserId, User>, likes: map<LikeStateId, LikeState>,
                                convs: map<ConversationId, Conversation>, id: UserId, tpid: string,
                                users1: map<UserId, User>)
    requires id !in users && !RegisteredAs(users, tpid)
    requires users1 == users[id := NewUser(tpid)]
    requires StateCoherent(users, likes, convs)
    ensures StateCoherent(users1, likes, convs)
    ensures ThirdPartyIdsUnique(users) ==> ThirdPartyIdsUnique(users1)
    ensures forall u :: IsCaller(users1, Authenticated(tpid), u) <==> u == id
  {
    assert forall lid :: lid in likes ==> likes[lid].user != id;
  }

  /** Register the caller (`POST /user/register`). `token` is the form field
      `fb_access_token` and `auth` what the provider answers for it. */
  method Register(db: Datastore, token: Option<string>, auth: AuthResult) returns (r: Reply<()>)
    requires db.Valid()
    modifies db
    ensures db.Valid()
    ensures db.items == old(db.items) && db.likeStates == old(db.likeStates)
    ensures db.conversations == old(db.conversations)
    ensures token.None? ==> r == Crash && unchanged(db)
    ensures token == Some("") ==> r == Failure(MalformedRequest, None) && unchanged(db)
    ensures token.Some? && token.value != "" && !auth.Authenticated? ==>
      r == Stop(AuthError(auth)) && unchanged(db)
    ensures token.Some? && token.value != "" && auth.Authenticated? && RegisteredAs(old(db.users), auth.thirdPartyId) ==>
      r == Failure(AccountExists, None) && unchanged(db)
    ensures token.Some? && token.value != "" && auth.Authenticated? && !RegisteredAs(old(db.users), auth.thirdPartyId) ==>
      r == Success(()) && old(db.nextId) !in old(db.users)
      && db.users == old(db.users)[old(db.nextId) := NewUser(auth.thirdPartyId)]
    ensures old(db.Coherent()) ==> db.Coherent()
  {
    if token.None? {
      // The form lookup raises.
      return Crash;
    }
    if token.value == "" {
      return Failure(MalformedRequest, None);
    }
    if !auth.Authenticated? {
      return Stop(AuthError(auth));
    }
    if RegisteredAs(db.users, auth.thirdPartyId) {
      return Failure(AccountExists, None);
    }
    ghost var users0 := db.users;
    var id := db.NewId();
    db.users := db.users[id := NewUser(auth.thirdPartyId)];
    if StateCoherent(users0, db.likeStates, db.conversations) {
      RegisterKeepsInvariants(users0, db.likeStates, db.conversations, id, auth.thirdPartyId, db.users);
    }
    r := Success(());
  }
}
