/** Recording that the caller liked or disliked an item. The first reaction
    to an item stores a like state and marks the item seen; a later one only
    flips the stored flag. */
module LikeStateHandler {
  import opened Common
  import opened ErrorCodes
  import opened Seqs
  import opened Models
  import opened Base

  /** `item_id` and a `like_state` that must be 0 or 1. */
  const LikeStateSchema: Schema := map[
    "item_id" := FieldSpec(IntKind, true, None),
    "like_state" := FieldSpec(IntKind, true, Some((v: Value) => v.VInt? && (v.i == 0 || v.i == 1)))]

  function ItemIdArg(req: Request, b: Builtins): int
    requires Admissible(req, LikeStateSchema, b)
  {
    IntField(req, LikeStateSchema, b, "item_id")
  }

  /** `bool(like_state)`. */
  function LikedArg(req: Request, b: Builtins): bool
    requires Admissible(req, LikeStateSchema, b)
  {
    IntField(req, LikeStateSchema, b, "like_state") != 0
  }

  /** The stored effect of a reaction by `uid` to item `iid`: an existing like
      state for the pair only gets the new flag and no user changes; otherwise
      a like state is stored under `newId` and the item id goes to the end of
      the user's seen list. */
  ghost predicate Upserted(
    users0: map<UserId, User>, likes0: map<LikeStateId, LikeState>,
    users1: map<UserId, User>, likes1: map<LikeStateId, LikeState>,
    uid: UserId, iid: ItemId, liked: bool, newId: LikeStateId)
    requires uid in users0
  {
    if HasLikeState(likes0, uid, iid) then
      users1 == users0
      && (exists lid :: lid in likes0 && likes0[lid].user == uid && likes0[lid].item == iid
            && likes1 == likes0[lid := LikeState(uid, iid, liked)])
    else
      likes1 == likes0[newId := LikeState(uid, iid, liked)]
      && users1 == users0[uid := users0[uid].(seenItemIds := users0[uid].seenItemIds + [iid])]
  }

  /** Giving an existing like state a new flag keeps every (user, item) pair
      that has a like state, and adds none. */
  lemma SetFlagKeepsPairs(likes0: map<LikeStateId, LikeState>, lid: LikeStateId, state: LikeState)
    requires lid in likes0 && likes0[lid].user == state.user && likes0[lid].item == state.item
    requires LikeStatesUnique(likes0)
    ensures LikeStatesUnique(likes0[lid := state])
    ensures forall u, i :: HasLikeState(likes0[lid := state], u, i) <==> HasLikeState(likes0, u, i)
  {
    var likes1 := likes0[lid := state];
    forall u, i ensures HasLikeState(likes1, u, i) <==> HasLikeState(likes0, u, i) {
      if HasLikeState(likes0, u, i) {
        var l :| l in likes0 && likes0[l].user == u && likes0[l].item == i;
        assert likes1[l].user == u && likes1[l].item == i;
      }
      if HasLikeState(likes1, u, i) {
        var l :| l in likes1 && likes1[l].user == u && likes1[l].item == i;
        assert likes0[l].user == u && likes0[l].item == i;
      }
    }
  }

  /** Storing a like state for a pair that had none adds exactly that pair and
      keeps one like state per pair. */
  lemma AddStateAddsPair(likes0: map<LikeStateId, LikeState>, newId: LikeStateId, state: LikeState)
    requires newId !in likes0 && !HasLikeState(likes0, state.user, state.item)
    requires LikeStatesUnique(likes0)
    ensures LikeStatesUnique(likes0[newId := state])
    ensures forall u, i :: HasLikeState(likes0[newId := state], u, i) <==>
      (HasLikeState(likes0, u, i) || (u == state.user && i == state.item))
  {
    var likes1 := likes0[newId := state];
    assert likes1[newId] == state;
    forall u, i ensures HasLikeState(likes1, u, i) <==> (HasLikeState(likes0, u, i) || (u == state.user && i == state.item)) {
      if HasLikeState(likes1, u, i) && !(u == state.user && i == state.item) {
        var l :| l in likes1 && likes1[l].user == u && likes1[l].item == i;
        assert l != newId && likes0[l].user == u && likes0[l].item == i;
      }
      if HasLikeState(likes0, u, i) {
        var l :| l in likes0 && likes0[l].user == u && likes0[l].item == i;
        assert likes1[l].user == u && likes1[l].item == i;
      }
    }
  }

  /** A reaction keeps the datastore coherent, leaves exactly one copy of the
      item id in the caller's seen list however often the caller reacts, and
      leaves exactly one like state for the pair, carrying the new flag. */
  lemma UpsertKeepsCoherent(
    users0: map<UserId, User>, likes0: map<LikeStateId, LikeState>,
    users1: map<UserId, User>, likes1: map<LikeStateId, LikeState>,
    convs: map<ConversationId, Conversation>,
    uid: UserId, iid: ItemId, liked: bool, newId: LikeStateId)
    requires StateCoherent(users0, likes0, convs)
    requires uid in users0 && newId !in likes0
    requires Upserted(users0, likes0, users1, likes1, uid, iid, liked, newId)
    ensures StateCoherent(users1, likes1, convs)
    ensures uid in users1 && multiset(users1[uid].seenItemIds)[iid] == 1
    ensures HasLikeState(likes1, uid, iid)
    ensures forall lid :: lid in likes1 && likes1[lid].user == uid && likes1[lid].item == iid ==>
      likes1[lid].liked == liked
  {
    var state := LikeState(uid, iid, liked);
    if HasLikeState(likes0, uid, iid) {
      var lid :| lid in likes0 && likes0[lid].user == uid && likes0[lid].item == iid
        && likes1 == likes0[lid := state];
      SetFlagKeepsPairs(likes0, lid, state);
      DistinctHasOne(users0[uid].seenItemIds, iid);
      assert likes1[lid] == state;
    } else {
      var seen := users0[uid].seenItemIds;
      assert iid !in seen;
      AppendFreshDistinct(seen, iid);
      AddStateAddsPair(likes0, newId, state);
      assert likes1[newId] == state;
      DistinctHasOne(seen + [iid], iid);
    }
  }

  /** In a list without repetitions a member occurs exactly once. */
  lemma DistinctHasOne<T>(s: seq<T>, x: T)
    requires Distinct(s) && x in s
    ensures multiset(s)[x] == 1
  {
    var k :| 0 <= k < |s| && s[k] == x;
    assert s == s[..k] + [x] + s[k + 1..];
    assert x !in s[..k] && x !in s[k + 1..];
  }

  /** The write a reaction makes once the caller and the item are known. */
  method Apply(db: Datastore, uid: UserId, iid: ItemId, liked: bool)
    requires db.Valid() && uid in db.users
    modifies db
    ensures db.Valid()
    ensures db.items == old(db.items) && db.conversations == old(db.conversations)
    ensures Upserted(old(db.users), old(db.likeStates), db.users, db.likeStates, uid, iid, liked, old(db.nextId))
    ensures old(db.Coherent()) ==> db.Coherent()
  {
    var state := LikeState(uid, iid, liked);
    ghost var users0, likes0, newId := db.users, db.likeStates, db.nextId;
    if HasLikeState(db.likeStates, uid, iid) {
      var lid :| lid in db.likeStates && db.likeStates[lid].user == uid && db.likeStates[lid].item == iid;
      db.likeStates := db.likeStates[lid := state];
    } else {
      var lid := db.NewId();
      db.likeStates := db.likeStates[lid := state];
      var user := db.users[uid];
      db.users := db.users[uid := user.(seenItemIds := user.seenItemIds + [iid])];
    }
    if StateCoherent(users0, likes0, db.conversations) {
      UpsertKeepsCoherent(users0, likes0, db.users, db.likeStates, db.conversations, uid, iid, liked, newId);
    }
  }

  /** Like or dislike an item (`POST /like_state/post`). */
  method Post(db: Datastore, req: Request, b: Builtins, auth: AuthResult) returns (r: Reply<()>)
    requires db.Valid()
    modifies db
    ensures db.Valid()
    ensures db.items == old(db.items) && db.conversations == old(db.conversations)
    ensures !Admissible(req, LikeStateSchema, b) ==>
      unchanged(db) && (r == Failure(MalformedRequest, None) || (r.Crash? && MayRaise(req, LikeStateSchema, b)))
    ensures ArgsSource(req).Raises? ==> r == Crash
    ensures Admissible(req, LikeStateSchema, b) && !auth.Authenticated? ==>
      unchanged(db) && r == Stop(AuthError(auth))
    ensures (Admissible(req, LikeStateSchema, b) && auth.Authenticated?
             && !RegisteredAs(old(db.users), auth.thirdPartyId)) ==>
      unchanged(db) && r == Failure(InvalidUser, None)
    ensures (Admissible(req, LikeStateSchema, b) && auth.Authenticated?
             && RegisteredAs(old(db.users), auth.thirdPartyId) && !IsItem(old(db.items), ItemIdArg(req, b))) ==>
      unchanged(db) && r == Failure(InvalidItem, None)
    ensures (Admissible(req, LikeStateSchema, b) && auth.Authenticated?
             && RegisteredAs(old(db.users), auth.thirdPartyId) && IsItem(old(db.items), ItemIdArg(req, b))) ==>
      r == Success(())
    ensures r.Success? ==>
      Admissible(req, LikeStateSchema, b) && IsItem(old(db.items), ItemIdArg(req, b))
      && (exists uid :: IsCaller(old(db.users), auth, uid)
            && Upserted(old(db.users), old(db.likeStates), db.users, db.likeStates,
                        uid, ItemIdArg(req, b), LikedArg(req, b), old(db.nextId)))
    ensures !r.Success? ==> unchanged(db)
    ensures old(db.Coherent()) ==> db.Coherent()
  {
    var p := ParseRequest(req, LikeStateSchema, b);
    if !p.Parsed? {
      return if p.Raised? then Crash else Failure(MalformedRequest, None);
    }
    var loaded := PopulateUser(db, auth);
    if loaded.Halted? {
      return Stop(loaded.halt);
    }
    var uid := loaded.value;
    var itemId := ItemIdArg(req, b);
    var found := PopulateItem(db.items, itemId);
    if found.Halted? {
      return Stop(found.halt);
    }
    Apply(db, uid, itemId, LikedArg(req, b));
    r := Success(());
  }
}
