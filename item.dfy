/** The item handlers: posting an item (a stored record plus a search
    document, rolled back when indexing fails), deleting one with everything
    that refers to it, and listing nearby items the caller has not seen. */
module ItemHandlers {
  import opened Common
  import opened ErrorCodes
  import opened Seqs
  import opened Text
  import opened Models
  import opened Base
  import ImageHandler

  // ---------- Post ----------

  predicate ValidLat(v: Value) {
    v.VFloat? && -90.0 <= v.r <= 90.0
  }

  predicate ValidLng(v: Value) {
    v.VFloat? && -180.0 <= v.r <= 180.0
  }

  /** Every listing field is required; the coordinates must be in range. */
  const PostSchema: Schema := map[
    "title" := FieldSpec(StrKind, true, None),
    "description" := FieldSpec(StrKind, true, None),
    "price" := FieldSpec(FloatKind, true, None),
    "currency" := FieldSpec(StrKind, true, None),
    "category" := FieldSpec(StrKind, true, None),
    "lat" := FieldSpec(FloatKind, true, Some(ValidLat)),
    "lng" := FieldSpec(FloatKind, true, Some(ValidLng))]

  /** The search document of a posted item, owned by `uid`. */
  function PostedDocument(req: Request, b: Builtins, uid: UserId): (d: Document)
    requires Admissible(req, PostSchema, b)
    ensures d.userId == uid
    ensures -90.0 <= d.lat <= 90.0 && -180.0 <= d.lng <= 180.0
  {
    ParsedArgsExact(req, PostSchema, b);
    Document(
      uid,
      StrField(req, PostSchema, b, "category"),
      StrField(req, PostSchema, b, "title"),
      StrField(req, PostSchema, b, "description"),
      FloatField(req, PostSchema, b, "price"),
      StrField(req, PostSchema, b, "currency"),
      FloatField(req, PostSchema, b, "lat"),
      FloatField(req, PostSchema, b, "lng"))
  }

  /** Every stored item has a search document. */
  predicate Indexed(items: map<ItemId, Item>, docs: map<ItemId, Document>) {
    items.Keys <= docs.Keys
  }

  /** A coordinate out of range is refused before anything else happens. */
  lemma OutOfRangeRefused(req: Request, b: Builtins, name: string, bound: real)
    requires (name == "lat" && bound == 90.0) || (name == "lng" && bound == 180.0)
    requires ArgsSource(req).Args?
    requires name in Names(ArgsSource(req).dict)
    requires var c := Fetch(ArgsSource(req).dict, name, FloatKind, b);
      c.Cast? && !(-bound <= c.value.r <= bound)
    ensures !Admissible(req, PostSchema, b)
  {
    assert !FieldOk(ArgsSource(req).dict, name, PostSchema[name], b);
  }

  /** Post an item for sale (`POST /post_item`). `indexFails` says whether the
      search index refuses the document. */
  method Post(db: Datastore, index: SearchIndex, req: Request, b: Builtins, auth: AuthResult, indexFails: bool)
    returns (r: Reply<ItemId>)
    requires db.Valid()
    modifies db, index
    ensures db.Valid()
    ensures db.users == old(db.users) && db.likeStates == old(db.likeStates)
    ensures db.conversations == old(db.conversations)
    ensures !Admissible(req, PostSchema, b) ==>
      (r == Failure(MalformedRequest, None) || (r.Crash? && MayRaise(req, PostSchema, b)))
    ensures ArgsSource(req).Raises? ==> r == Crash
    ensures Admissible(req, PostSchema, b) && !auth.Authenticated? ==> r == Stop(AuthError(auth))
    ensures (Admissible(req, PostSchema, b) && auth.Authenticated?
             && !RegisteredAs(old(db.users), auth.thirdPartyId)) ==>
      r == Failure(InvalidUser, None)
    ensures (Admissible(req, PostSchema, b) && auth.Authenticated?
             && RegisteredAs(old(db.users), auth.thirdPartyId) && indexFails) ==>
      r == Failure(IndexingError, None)
    ensures !r.Success? ==> db.items == old(db.items) && index.docs == old(index.docs)
    ensures (Admissible(req, PostSchema, b) && auth.Authenticated?
             && RegisteredAs(old(db.users), auth.thirdPartyId) && !indexFails) ==>
      r.Success?
    ensures r.Success? ==>
      Admissible(req, PostSchema, b) && !indexFails
      && r.payload == old(db.nextId) && r.payload !in old(db.items)
      && (exists uid :: IsCaller(old(db.users), auth, uid)
            && db.items == old(db.items)[r.payload := Item(uid, [])]
            && index.docs == old(index.docs)[r.payload := PostedDocument(req, b, uid)])
    ensures old(Indexed(db.items, index.docs)) ==> Indexed(db.items, index.docs)
  {
    var p := ParseRequest(req, PostSchema, b);
    if !p.Parsed? {
      return if p.Raised? then Crash else Failure(MalformedRequest, None);
    }
    var loaded := PopulateUser(db, auth);
    if loaded.Halted? {
      return Stop(loaded.halt);
    }
    var uid := loaded.value;
    r := Store(db, index, uid, PostedDocument(req, b, uid), indexFails);
  }

  /** The writes of a post: store the item, index its document, and delete
      the item again when indexing fails. */
  method Store(db: Datastore, index: SearchIndex, uid: UserId, doc: Document, indexFails: bool)
    returns (r: Reply<ItemId>)
    requires db.Valid()
    modifies db, index
    ensures db.Valid()
    ensures db.users == old(db.users) && db.likeStates == old(db.likeStates)
    ensures db.conversations == old(db.conversations)
    ensures indexFails ==>
      r == Failure(IndexingError, None) && db.items == old(db.items) && index.docs == old(index.docs)
    ensures !indexFails ==>
      r == Success(old(db.nextId)) && old(db.nextId) !in old(db.items)
      && db.items == old(db.items)[old(db.nextId) := Item(uid, [])]
      && index.docs == old(index.docs)[old(db.nextId) := doc]
  {
    var id := db.NewId();
    db.items := db.items[id := Item(uid, [])];
    if indexFails {
      // Roll back: delete the item just stored.
      db.items := db.items - {id};
      assert db.items == old(db.items);
      return Failure(IndexingError, None);
    }
    index.docs := index.docs[id := doc];
    r := Success(id);
  }

  // ---------- Delete ----------

  const DeleteSchema: Schema := map["item_id" := FieldSpec(IntKind, true, None)]

  /** The like states that survive the deletion of item `iid`. */
  function LikesWithout(likes: map<LikeStateId, LikeState>, iid: ItemId): (m: map<LikeStateId, LikeState>)
    ensures forall l :: l in m <==> l in likes && likes[l].item != iid
    ensures forall l :: l in m ==> m[l] == likes[l]
  {
    map l | l in likes && likes[l].item != iid :: likes[l]
  }

  /** The ids of the conversations about item `iid`. */
  function ConversationsAbout(convs: map<ConversationId, Conversation>, iid: ItemId): (s: set<ConversationId>)
    ensures forall c :: c in s <==> c in convs && convs[c].item == iid
  {
    set c | c in convs && convs[c].item == iid
  }

  /** The conversations that survive the deletion of item `iid`. */
  function ConversationsWithout(convs: map<ConversationId, Conversation>, iid: ItemId): (m: map<ConversationId, Conversation>)
    ensures forall c :: c in m <==> c in convs && convs[c].item != iid
    ensures forall c :: c in m ==> m[c] == convs[c]
  {
    map c | c in convs && convs[c].item != iid :: convs[c]
  }

  /** One user's lists after the deletion: the single occurrence of the item
      id leaves the seen list, and the deleted conversations leave the
      ongoing list. */
  function ScrubUser(u: User, iid: ItemId, gone: set<ConversationId>): User {
    u.(seenItemIds := if iid in u.seenItemIds then RemoveFirst(u.seenItemIds, iid) else u.seenItemIds,
       ongoingConversations := Without(u.ongoingConversations, gone))
  }

  /** The users the scan must visit: those who have seen the item or take
      part in one of its conversations. */
  predicate Holds(u: User, iid: ItemId, gone: set<ConversationId>) {
    iid in u.seenItemIds || exists c :: c in u.ongoingConversations && c in gone
  }

  /** The scan as delete writes it: only users whose seen list holds the item
      are visited, so a seller who never saw their own item keeps the ids of
      its deleted conversations. */
  function ScrubUsersAsWritten(users: map<UserId, User>, iid: ItemId, gone: set<ConversationId>): map<UserId, User> {
    map u | u in users :: if iid in users[u].seenItemIds then ScrubUser(users[u], iid, gone) else users[u]
  }

  /** The scan as intended: every user holding the item or one of its
      conversations is scrubbed; every other user is left as is. */
  function ScrubUsers(users: map<UserId, User>, iid: ItemId, gone: set<ConversationId>): (m: map<UserId, User>)
    ensures m.Keys == users.Keys
    ensures forall u :: u in users && !Holds(users[u], iid, gone) ==> m[u] == users[u]
  {
    map u | u in users :: if Holds(users[u], iid, gone) then ScrubUser(users[u], iid, gone) else users[u]
  }

  /** For a scrubbed user: exactly the slot `list.index` names leaves the seen
      list, everything else stays in order, and the ongoing list keeps
      exactly the conversations that were not deleted, in order. */
  lemma ScrubUserEdits(u: User, iid: ItemId, gone: set<ConversationId>)
    requires iid in u.seenItemIds
    ensures var k := IndexOf(u.seenItemIds, iid);
      ScrubUser(u, iid, gone).seenItemIds == u.seenItemIds[..k] + u.seenItemIds[k + 1..]
    ensures multiset(ScrubUser(u, iid, gone).seenItemIds) == multiset(u.seenItemIds) - multiset{iid}
    ensures forall c :: c in ScrubUser(u, iid, gone).ongoingConversations <==>
      c in u.ongoingConversations && c !in gone
  {
    RemoveFirstCutsIndex(u.seenItemIds, iid);
    RemoveFirstCounts(u.seenItemIds, iid);
    WithoutMembers(u.ongoingConversations, gone);
  }

  /** The scrubbed users in a coherent store: the item id is gone from every
      seen list, other seen ids stay, lists keep no repetitions, and no
      ongoing list names a deleted conversation. */
  lemma ScrubUsersEffect(users: map<UserId, User>, iid: ItemId, gone: set<ConversationId>)
    requires forall u :: u in users ==> Distinct(users[u].seenItemIds)
    ensures forall u :: u in users ==> Distinct(ScrubUsers(users, iid, gone)[u].seenItemIds)
    ensures forall u, i :: u in users ==>
      (i in ScrubUsers(users, iid, gone)[u].seenItemIds <==> i in users[u].seenItemIds && i != iid)
    ensures forall u, c :: u in users ==>
      (c in ScrubUsers(users, iid, gone)[u].ongoingConversations <==> c in users[u].ongoingConversations && c !in gone)
  {
    var m := ScrubUsers(users, iid, gone);
    forall u | u in users
      ensures Distinct(m[u].seenItemIds)
      ensures forall i :: i in m[u].seenItemIds <==> i in users[u].seenItemIds && i != iid
      ensures forall c :: c in m[u].ongoingConversations <==> c in users[u].ongoingConversations && c !in gone
    {
      var x := users[u];
      WithoutMembers(x.ongoingConversations, gone);
      if iid in x.seenItemIds {
        RemoveFirstOfDistinct(x.seenItemIds, iid);
      }
    }
  }

  /** Deleting an item from a coherent store leaves it coherent, and nothing
      refers to the item any more: no like state, no conversation, no seen
      list. */
  lemma DeleteKeepsCoherent(
    users: map<UserId, User>, likes: map<LikeStateId, LikeState>,
    convs: map<ConversationId, Conversation>, iid: ItemId)
    requires StateCoherent(users, likes, convs)
    ensures var gone := ConversationsAbout(convs, iid);
      StateCoherent(ScrubUsers(users, iid, gone), LikesWithout(likes, iid), ConversationsWithout(convs, iid))
    ensures forall l :: l in LikesWithout(likes, iid) ==> LikesWithout(likes, iid)[l].item != iid
    ensures forall c :: c in ConversationsWithout(convs, iid) ==> ConversationsWithout(convs, iid)[c].item != iid
    ensures forall u :: u in users ==> iid !in ScrubUsers(users, iid, ConversationsAbout(convs, iid))[u].seenItemIds
  {
    var gone := ConversationsAbout(convs, iid);
    var users1, likes1, convs1 := ScrubUsers(users, iid, gone), LikesWithout(likes, iid), ConversationsWithout(convs, iid);
    ScrubUsersEffect(users, iid, gone);
    forall u, i | u in users1 ensures i in users1[u].seenItemIds <==> HasLikeState(likes1, u, i) {
      if HasLikeState(likes, u, i) && i != iid {
        var l :| l in likes && likes[l].user == u && likes[l].item == i;
        assert l in likes1;
      }
    }
    forall u, c | u in users1 && c in users1[u].ongoingConversations ensures c in convs1 {
      assert c in users[u].ongoingConversations && c !in gone;
    }
  }

  /** The scan of the delete handler: visit every user that holds the item or
      one of its conversations and scrub their lists. */
  method ScrubAll(db: Datastore, iid: ItemId, gone: set<ConversationId>)
    modifies db`users
    ensures db.users == ScrubUsers(old(db.users), iid, gone)
  {
    ghost var users0 := db.users;
    var todo := set u | u in db.users && Holds(db.users[u], iid, gone);
    while todo != {}
      invariant todo <= users0.Keys
      invariant db.users.Keys == users0.Keys
      invariant forall u :: u in users0 ==>
        db.users[u] == (if Holds(users0[u], iid, gone) && u !in todo then ScrubUser(users0[u], iid, gone) else users0[u])
      invariant forall u :: u in todo ==> Holds(users0[u], iid, gone)
      decreases |todo|
    {
      var u :| u in todo;
      todo := todo - {u};
      var user := db.users[u];
      var seen := user.seenItemIds;
      if iid in seen {
        // `del seen[seen.index(iid)]`
        seen := RemoveFirst(seen, iid);
      }
      db.users := db.users[u := user.(seenItemIds := seen,
                                     ongoingConversations := Without(user.ongoingConversations, gone))];
    }
  }

  /** The blob keys of an item's images. */
  function BlobKeys(images: seq<Image>): (s: set<BlobKey>)
    ensures forall k :: k in s <==> exists j :: 0 <= j < |images| && images[j].blobKey == k
  {
    set j | 0 <= j < |images| :: images[j].blobKey
  }

  /** The writes that detach item `iid` from everything else: its like
      states, its conversations, the users' lists and its blobs go. */
  method Detach(db: Datastore, blobs: BlobStore, iid: ItemId)
    requires iid in db.items
    modifies db`likeStates, db`conversations, db`users, blobs
    ensures db.likeStates == LikesWithout(old(db.likeStates), iid)
    ensures db.conversations == ConversationsWithout(old(db.conversations), iid)
    ensures db.users == ScrubUsers(old(db.users), iid, ConversationsAbout(old(db.conversations), iid))
    ensures blobs.blobs == old(blobs.blobs) - BlobKeys(old(db.items)[iid].images)
    ensures old(db.Coherent()) ==> db.Coherent()
  {
    var item := db.items[iid];
    ghost var users0, likes0, convs0 := db.users, db.likeStates, db.conversations;
    db.likeStates := LikesWithout(db.likeStates, iid);
    var gone := ConversationsAbout(db.conversations, iid);
    db.conversations := ConversationsWithout(db.conversations, iid);
    ScrubAll(db, iid, gone);
    blobs.blobs := blobs.blobs - BlobKeys(item.images);
    if StateCoherent(users0, likes0, convs0) {
      DeleteKeepsCoherent(users0, likes0, convs0, iid);
    }
  }

  /** What deleting item `iid` writes, whoever asked: everything that refers
      to it goes; then, unless the index refuses, its document; then the
      item. */
  method Cascade(db: Datastore, index: SearchIndex, blobs: BlobStore, iid: ItemId, indexFails: bool)
    returns (indexed: bool)
    requires iid in db.items
    modifies db, index, blobs
    ensures db.nextId == old(db.nextId)
    ensures db.items == old(db.items) - {iid}
    ensures db.likeStates == LikesWithout(old(db.likeStates), iid)
    ensures db.conversations == ConversationsWithout(old(db.conversations), iid)
    ensures db.users == ScrubUsers(old(db.users), iid, ConversationsAbout(old(db.conversations), iid))
    ensures blobs.blobs == old(blobs.blobs) - BlobKeys(old(db.items)[iid].images)
    ensures indexed == !indexFails
    ensures index.docs == if indexFails then old(index.docs) else old(index.docs) - {iid}
    ensures old(db.Coherent()) ==> db.Coherent()
  {
    Detach(db, blobs, iid);
    indexed := !indexFails;
    if indexed {
      index.docs := index.docs - {iid};
    }
    db.items := db.items - {iid};
  }

  function DeleteItemArg(req: Request, b: Builtins): int
    requires Admissible(req, DeleteSchema, b)
  {
    IntField(req, DeleteSchema, b, "item_id")
  }

  /** Delete one of the caller's items and everything that refers to it
      (`POST /delete_item`). `indexFails` says whether the search index
      refuses the deletion of the document; the handler then raises after
      every other write. */
  method Delete(db: Datastore, index: SearchIndex, blobs: BlobStore, req: Request, b: Builtins,
                auth: AuthResult, indexFails: bool)
    returns (r: Reply<()>)
    modifies db, index, blobs
    ensures db.nextId == old(db.nextId)
    ensures !Admissible(req, DeleteSchema, b) ==>
      unchanged(db, index, blobs) && (r == Failure(MalformedRequest, None) || (r.Crash? && MayRaise(req, DeleteSchema, b)))
    ensures ArgsSource(req).Raises? ==> r == Crash
    ensures Admissible(req, DeleteSchema, b) && !auth.Authenticated? ==>
      unchanged(db, index, blobs) && r == Stop(AuthError(auth))
    ensures (Admissible(req, DeleteSchema, b) && auth.Authenticated?
             && !RegisteredAs(old(db.users), auth.thirdPartyId)) ==>
      unchanged(db, index, blobs) && r == Failure(InvalidUser, None)
    ensures (Admissible(req, DeleteSchema, b) && auth.Authenticated?
             && RegisteredAs(old(db.users), auth.thirdPartyId) && !IsItem(old(db.items), DeleteItemArg(req, b))) ==>
      unchanged(db, index, blobs) && r == Failure(InvalidItem, None)
    ensures r.Failure? && r.code == UserPermissionError ==>
      unchanged(db, index, blobs) && Admissible(req, DeleteSchema, b) && IsItem(old(db.items), DeleteItemArg(req, b))
      && (exists uid :: IsCaller(old(db.users), auth, uid) && old(db.items)[DeleteItemArg(req, b)].owner != uid)
    ensures r.Failure? ==> unchanged(db, index, blobs)
    ensures (Admissible(req, DeleteSchema, b) && auth.Authenticated?
             && RegisteredAs(old(db.users), auth.thirdPartyId) && IsItem(old(db.items), DeleteItemArg(req, b))
             && forall uid :: IsCaller(old(db.users), auth, uid) ==> old(db.items)[DeleteItemArg(req, b)].owner == uid) ==>
      r == (if indexFails then Crash else Success(()))
    ensures (Admissible(req, DeleteSchema, b) && auth.Authenticated?
             && RegisteredAs(old(db.users), auth.thirdPartyId) && IsItem(old(db.items), DeleteItemArg(req, b))
             && forall uid :: IsCaller(old(db.users), auth, uid) ==> old(db.items)[DeleteItemArg(req, b)].owner != uid) ==>
      r == Failure(UserPermissionError, None)
    ensures (r.Success? || (r.Crash? && Admissible(req, DeleteSchema, b) && !auth.LookupRaised?)) ==>
      Admissible(req, DeleteSchema, b) && IsItem(old(db.items), DeleteItemArg(req, b))
      && (exists uid :: IsCaller(old(db.users), auth, uid) && old(db.items)[DeleteItemArg(req, b)].owner == uid)
      && (r.Success? <==> !indexFails)
      && db.items == old(db.items) - {DeleteItemArg(req, b) as ItemId}
      && db.likeStates == LikesWithout(old(db.likeStates), DeleteItemArg(req, b))
      && db.conversations == ConversationsWithout(old(db.conversations), DeleteItemArg(req, b))
      && db.users == ScrubUsers(old(db.users), DeleteItemArg(req, b),
                                ConversationsAbout(old(db.conversations), DeleteItemArg(req, b)))
      && blobs.blobs == old(blobs.blobs) - BlobKeys(old(db.items)[DeleteItemArg(req, b)].images)
      && index.docs == (if indexFails then old(index.docs) else old(index.docs) - {DeleteItemArg(req, b) as ItemId})
    ensures old(db.Coherent()) ==> db.Coherent()
  {
    var p := ParseRequest(req, DeleteSchema, b);
    if !p.Parsed? {
      return if p.Raised? then Crash else Failure(MalformedRequest, None);
    }
    var loaded := PopulateUser(db, auth);
    if loaded.Halted? {
      return Stop(loaded.halt);
    }
    var itemId := DeleteItemArg(req, b);
    var found := PopulateItemForMutation(db.items, loaded.value, itemId);
    if found.Halted? {
      return Stop(found.halt);
    }
    var indexed := Cascade(db, index, blobs, itemId, indexFails);
    // When the index refuses, the future the handler waits on was never bound.
    r := if indexed then Success(()) else Crash;
  }

  /** The seller of a deleted item keeps a conversation the scan as written
      does not visit: afterwards their ongoing list names a conversation that
      no longer exists, while the intended scan leaves the store coherent. */
  lemma DeleteAsWrittenStrandsSeller()
    ensures var seller := User("facebook", "s", None, 10, [], [5], 0);
      var buyer := User("facebook", "b", None, 10, [7], [5], 0);
      var users := map[0 := seller, 1 := buyer];
      var likes := map[2 := LikeState(1, 7, true)];
      var convs := map[5 := Conversation(7, 1, [], 0)];
      var gone := ConversationsAbout(convs, 7);
      StateCoherent(users, likes, convs)
      && !OngoingStored(ScrubUsersAsWritten(users, 7, gone), ConversationsWithout(convs, 7))
      && StateCoherent(ScrubUsers(users, 7, gone), LikesWithout(likes, 7), ConversationsWithout(convs, 7))
  {
    var seller := User("facebook", "s", None, 10, [], [5], 0);
    var buyer := User("facebook", "b", None, 10, [7], [5], 0);
    var users := map[0 := seller, 1 := buyer];
    var likes := map[2 := LikeState(1, 7, true)];
    var convs := map[5 := Conversation(7, 1, [], 0)];
    var gone := ConversationsAbout(convs, 7);
    assert gone == {5};
    forall u, i | u in users ensures i in users[u].seenItemIds <==> HasLikeState(likes, u, i) {
      if u == 1 && i == 7 {
        assert likes[2].user == 1 && likes[2].item == 7;
      }
    }
    assert StateCoherent(users, likes, convs);
    assert ScrubUsersAsWritten(users, 7, gone)[0] == seller;
    assert 5 !in ConversationsWithout(convs, 7);
    DeleteKeepsCoherent(users, likes, convs, 7);
  }

  // ---------- List ----------

  const ListSchema: Schema := map[
    "lat" := FieldSpec(FloatKind, true, Some(ValidLat)),
    "lng" := FieldSpec(FloatKind, true, Some(ValidLng)),
    "category" := FieldSpec(StrKind, false, None),
    "search_query" := FieldSpec(StrKind, false, None),
    "cursor" := FieldSpec(StrKind, false, None)]

  /** A search result: the document id and the document's fields. */
  datatype Hit = Hit(itemId: ItemId, doc: Document)

  /** The search service as the list handler sees it: the ranked hits of a
      query (None when the search raises), how it reads and writes the opaque
      cursor tokens (a cursor stands for an offset into the ranked hits), and
      how a coordinate is rendered into a query. */
  datatype SearchService = SearchService(
    search: string -> Option<seq<Hit>>,
    readCursor: string -> nat,
    writeCursor: nat -> string,
    showFloat: real -> string)

  /** One returned item: its id, its document and the URLs of its images. */
  datatype Listing = Listing(itemId: ItemId, doc: Document, imageUrls: seq<string>)

  datatype Listed = Listed(results: seq<Listing>, cursor: Option<string>)

  // The query.

  function DistanceClause(lat: real, lng: real, radiusKm: int, showFloat: real -> string): string {
    "distance(location, geopoint(" + showFloat(lat) + ", " + showFloat(lng) + ")) < " + IntToString(radiusKm * 1000)
  }

  function OwnerClause(uid: UserId): string {
    "NOT user_id=" + IntToString(uid)
  }

  /** `['~' + t for t in words]`. */
  function Stemmed(words: seq<string>): (r: seq<string>)
    ensures |r| == |words|
    ensures forall k :: 0 <= k < |words| ==> r[k] == "~" + words[k]
  {
    seq(|words|, k requires 0 <= k < |words| => "~" + words[k])
  }

  /** The free-text clause: the query lower-cased, split on whitespace, each
      word marked for stemming, joined with spaces. */
  function TermsClause(q: string): string {
    Join(" ", Stemmed(Split(Lower(q))))
  }

  /** The terms are exactly the words of the lower-cased query: each is `~`
      followed by a non-empty run without whitespace, and the runs glued
      together give the lower-cased query without its whitespace. */
  lemma SearchTermsStemmed(q: string)
    ensures var words := Split(Lower(q));
      TermsClause(q) == Join(" ", Stemmed(words))
      && (forall k :: 0 <= k < |words| ==>
            Stemmed(words)[k][0] == '~' && Stemmed(words)[k][1..] == words[k]
            && words[k] != [] && NoSpace(words[k]))
      && Concat(words) == Squeeze(Lower(q))
  {
    SplitSpec(Lower(q));
  }

  /** The clauses of the search, in the order the handler appends them. */
  function Clauses(lat: real, lng: real, user: User, uid: UserId, category: Option<string>,
                   searchQuery: Option<string>, showFloat: real -> string): seq<string>
  {
    [DistanceClause(lat, lng, user.distanceRadiusKm, showFloat), OwnerClause(uid)]
    + (if category.Some? then ["category=" + category.value] else [])
    + (if searchQuery.Some? then [TermsClause(searchQuery.value)] else [])
  }

  /** The query always opens with the distance clause and excludes the
      caller's own items; a category or a free-text clause is there only when
      the request gives one. */
  lemma QueryShape(lat: real, lng: real, user: User, uid: UserId, category: Option<string>,
                   searchQuery: Option<string>, showFloat: real -> string)
    ensures var cs := Clauses(lat, lng, user, uid, category, searchQuery, showFloat);
      |cs| == 2 + (if category.Some? then 1 else 0) + (if searchQuery.Some? then 1 else 0)
      && cs[0] == DistanceClause(lat, lng, user.distanceRadiusKm, showFloat)
      && cs[1] == OwnerClause(uid)
      && (category.Some? ==> cs[2] == "category=" + category.value)
      && (searchQuery.Some? ==> cs[|cs| - 1] == TermsClause(searchQuery.value))
      && Join(" AND ", cs)[..|cs[0]|] == cs[0]
  {
    JoinStartsWithFirst(" AND ", Clauses(lat, lng, user, uid, category, searchQuery, showFloat));
  }

  function QueryOf(req: Request, b: Builtins, user: User, uid: UserId, showFloat: real -> string): string
    requires Admissible(req, ListSchema, b)
  {
    Join(" AND ", Clauses(FloatField(req, ListSchema, b, "lat"), FloatField(req, ListSchema, b, "lng"),
                          user, uid, OptStrField(req, ListSchema, b, "category"),
                          OptStrField(req, ListSchema, b, "search_query"), showFloat))
  }

  // The results.

  /** The hits whose item the caller has not seen, in rank order. */
  function Unseen(hits: seq<Hit>, seen: set<ItemId>): (r: seq<Hit>)
    ensures |r| <= |hits|
    ensures forall k :: 0 <= k < |r| ==> r[k].itemId !in seen
    decreases |hits|
  {
    if hits == [] then []
    else Unseen(hits[..|hits| - 1], seen) + (if hits[|hits| - 1].itemId in seen then [] else [hits[|hits| - 1]])
  }

  lemma {:induction false} UnseenConcat(a: seq<Hit>, b: seq<Hit>, seen: set<ItemId>)
    ensures Unseen(a + b, seen) == Unseen(a, seen) + Unseen(b, seen)
    decreases |b|
  {
    if b == [] {
      assert a + b == a;
    } else {
      var b' := b[..|b| - 1];
      UnseenConcat(a, b', seen);
      assert (a + b)[..|a + b| - 1] == a + b';
    }
  }

  /** A hit is kept exactly when it was not seen before. */
  lemma {:induction false} UnseenSpec(hits: seq<Hit>, seen: set<ItemId>)
    ensures forall h :: h in Unseen(hits, seen) <==> h in hits && h.itemId !in seen
    decreases |hits|
  {
    if hits != [] {
      var init := hits[..|hits| - 1];
      UnseenSpec(init, seen);
      assert hits == init + [hits[|hits| - 1]];
    }
  }

  /** The kept hits stay in rank order: the unseen hits among the first `j`
      come first. */
  lemma UnseenKeepsRank(hits: seq<Hit>, seen: set<ItemId>, j: nat)
    requires j <= |hits|
    ensures var u := Unseen(hits[..j], seen);
      |u| <= |Unseen(hits, seen)| && Unseen(hits, seen)[..|u|] == u
  {
    UnseenConcat(hits[..j], hits[j..], seen);
    assert hits[..j] + hits[j..] == hits;
  }

  function Take<T>(s: seq<T>, n: nat): (r: seq<T>)
    ensures |r| == if |s| <= n then |s| else n
    ensures r == s[..|r|]
  {
    if |s| <= n then s else s[..n]
  }

  /** The page boundary after `pos`. */
  function PageEnd(pos: nat, total: nat): nat {
    if pos + NUM_ITEMS_PER_PAGE < total then pos + NUM_ITEMS_PER_PAGE else total
  }

  /** Where the next request resumes: the handler reads whole pages from
      `pos` until `need` more unseen hits have been found, and the cursor
      points past the last page it read, if any hit is left. */
  function NextCursor(hits: seq<Hit>, seen: set<ItemId>, pos: nat, need: nat): Option<nat>
    requires pos <= |hits|
    decreases |hits| - pos
  {
    var end := PageEnd(pos, |hits|);
    var found := |Unseen(hits[pos..end], seen)|;
    if found >= need || end == |hits| then (if end < |hits| then Some(end) else None)
    else NextCursor(hits, seen, end, need - found)
  }

  /** A cursor is returned only when `need` unseen hits were found. */
  lemma {:induction false} CursorOnlyWhenFull(hits: seq<Hit>, seen: set<ItemId>, pos: nat, need: nat)
    requires pos <= |hits|
    ensures NextCursor(hits, seen, pos, need).Some? ==> |Unseen(hits[pos..], seen)| >= need
    decreases |hits| - pos
  {
    var end := PageEnd(pos, |hits|);
    assert hits[pos..] == hits[pos..end] + hits[end..];
    UnseenConcat(hits[pos..end], hits[end..], seen);
    var found := |Unseen(hits[pos..end], seen)|;
    if !(found >= need || end == |hits|) {
      CursorOnlyWhenFull(hits, seen, end, need - found);
    }
  }

  function Urls(images: seq<Image>): (r: seq<string>)
    ensures |r| == |images| && forall j :: 0 <= j < |images| ==> r[j] == images[j].url
  {
    seq(|images|, j requires 0 <= j < |images| => images[j].url)
  }

  predicate AllStored(items: map<ItemId, Item>, hs: seq<Hit>) {
    forall k :: 0 <= k < |hs| ==> hs[k].itemId in items
  }

  /** The listing of a hit, with its item's image URLs. */
  function ListingOf(items: map<ItemId, Item>, h: Hit): Listing {
    Listing(h.itemId, h.doc, if h.itemId in items then Urls(items[h.itemId].images) else [])
  }

  /** The listing of each hit, in order. */
  function Listings(items: map<ItemId, Item>, hs: seq<Hit>): (r: seq<Listing>)
    ensures |r| == |hs|
    ensures forall k :: 0 <= k < |hs| ==> r[k] == ListingOf(items, hs[k])
  {
    seq(|hs|, k requires 0 <= k < |hs| => ListingOf(items, hs[k]))
  }

  function MapOption<T, U>(o: Option<T>, f: T -> U): Option<U> {
    if o.Some? then Some(f(o.value)) else None
  }

  /** The outcome of listing the ranked `hits` from offset `start`: the first
      unseen hits, at most `NUM_ITEMS_PER_REQUEST` of them, and the cursor
      after the last page read; the handler raises if one of them has no
      stored item. */
  function ListResult(items: map<ItemId, Item>, seen: set<ItemId>, hits: seq<Hit>, start: nat,
                      writeCursor: nat -> string): Reply<Listed>
    requires start <= |hits|
  {
    var picked := Take(Unseen(hits[start..], seen), NUM_ITEMS_PER_REQUEST);
    if !AllStored(items, picked) then Crash
    else Success(Listed(Listings(items, picked), MapOption(NextCursor(hits, seen, start, NUM_ITEMS_PER_REQUEST), writeCursor)))
  }

  /** What the handler promises: at most five results, none of them seen,
      each a stored item ranked at or after the start, in rank order; fewer
      than five only when no unseen hit is left, and then no cursor. */
  lemma ListResultSpec(items: map<ItemId, Item>, seen: set<ItemId>, hits: seq<Hit>, start: nat,
                       writeCursor: nat -> string)
    requires start <= |hits|
    ensures var r := ListResult(items, seen, hits, start, writeCursor);
      r.Success? ==>
        |r.payload.results| <= NUM_ITEMS_PER_REQUEST
        && (forall k :: 0 <= k < |r.payload.results| ==>
              r.payload.results[k].itemId !in seen && r.payload.results[k].itemId in items)
        && |r.payload.results| == |Take(Unseen(hits[start..], seen), NUM_ITEMS_PER_REQUEST)|
        && (forall k :: 0 <= k < |r.payload.results| ==>
              k < |Unseen(hits[start..], seen)|
              && r.payload.results[k] == ListingOf(items, Unseen(hits[start..], seen)[k]))
        && (|r.payload.results| < NUM_ITEMS_PER_REQUEST ==>
              |Unseen(hits[start..], seen)| == |r.payload.results| && r.payload.cursor.None?)
  {
    CursorOnlyWhenFull(hits, seen, start, NUM_ITEMS_PER_REQUEST);
  }

  /** The whole handler once the caller is known: the search for the built
      query either fails or yields the ranked hits the results come from. */
  function ListOutcome(items: map<ItemId, Item>, req: Request, b: Builtins, user: User, uid: UserId,
                       svc: SearchService): Reply<Listed>
    requires Admissible(req, ListSchema, b)
  {
    match svc.search(QueryOf(req, b, user, uid, svc.showFloat))
    case None => Failure(SearchError, None)
    case Some(hits) =>
      var cursor := OptStrField(req, ListSchema, b, "cursor");
      var off := if cursor.Some? then svc.readCursor(cursor.value) else 0;
      ListResult(items, (set i | i in user.seenItemIds), hits, if off <= |hits| then off else |hits|, svc.writeCursor)
  }

  /** Reading one more hit extends the unseen hits by that hit, unless seen. */
  lemma UnseenStep(page: seq<Hit>, j: nat, seen: set<ItemId>)
    requires j < |page|
    ensures Unseen(page[..j + 1], seen) ==
      Unseen(page[..j], seen) + (if page[j].itemId in seen then [] else [page[j]])
  {
    assert page[..j + 1][..j] == page[..j];
  }

  /** Reading further never loses an unseen hit. */
  lemma UnseenGrows(page: seq<Hit>, j: nat, seen: set<ItemId>)
    requires j <= |page|
    ensures |Unseen(page[..j], seen)| <= |Unseen(page, seen)|
  {
    assert page == page[..j] + page[j..];
    UnseenConcat(page[..j], page[j..], seen);
  }

  lemma ListingsAppend(items: map<ItemId, Item>, hs: seq<Hit>, h: Hit)
    requires AllStored(items, hs) && h.itemId in items
    ensures AllStored(items, hs + [h])
    ensures Listings(items, hs + [h]) == Listings(items, hs) + [ListingOf(items, h)]
  {
  }

  lemma ListingsConcat(items: map<ItemId, Item>, a: seq<Hit>, b: seq<Hit>)
    ensures AllStored(items, a) && AllStored(items, b) ==> AllStored(items, a + b)
    ensures Listings(items, a + b) == Listings(items, a) + Listings(items, b)
  {
    assert forall k :: 0 <= k < |b| ==> (a + b)[|a| + k] == b[k];
  }

  /** Read the hits of one page in order, skipping seen items, until five
      results are collected; `done` is where the reading stopped, and on a
      crash it is the unseen hit that has no stored item. */
  method ScanPage(items: map<ItemId, Item>, seen: set<ItemId>, page: seq<Hit>, results0: seq<Listing>)
    returns (crashed: bool, results: seq<Listing>, done: nat)
    requires |results0| < NUM_ITEMS_PER_REQUEST
    ensures done <= |page|
    ensures crashed ==>
      done < |page| && page[done].itemId !in seen && page[done].itemId !in items
      && |results0| + |Unseen(page[..done], seen)| < NUM_ITEMS_PER_REQUEST
    ensures !crashed ==>
      AllStored(items, Unseen(page[..done], seen))
      && results == results0 + Listings(items, Unseen(page[..done], seen))
      && |results| <= NUM_ITEMS_PER_REQUEST
      && (done < |page| ==> |results| == NUM_ITEMS_PER_REQUEST)
      && (|results| == NUM_ITEMS_PER_REQUEST <==> |results0| + |Unseen(page, seen)| >= NUM_ITEMS_PER_REQUEST)
  {
    results := results0;
    done := 0;
    while done < |page|
      invariant done <= |page|
      invariant AllStored(items, Unseen(page[..done], seen))
      invariant results == results0 + Listings(items, Unseen(page[..done], seen))
      invariant |results| < NUM_ITEMS_PER_REQUEST
    {
      var h := page[done];
      if h.itemId !in seen && h.itemId !in items {
        return true, results, done;
      }
      HitStep(items, page, seen, done);
      if h.itemId !in seen {
        results := results + [Listing(h.itemId, h.doc, Urls(items[h.itemId].images))];
      }
      done := done + 1;
      if |results| == NUM_ITEMS_PER_REQUEST {
        // The rest of the page is skipped.
        UnseenGrows(page, done, seen);
        return false, results, done;
      }
    }
    assert page[..done] == page;
    crashed := false;
  }

  /** Reading one hit that is seen or stored keeps every picked hit stored
      and adds its listing exactly when it is unseen. */
  lemma HitStep(items: map<ItemId, Item>, page: seq<Hit>, seen: set<ItemId>, j: nat)
    requires j < |page|
    requires AllStored(items, Unseen(page[..j], seen))
    requires page[j].itemId in seen || page[j].itemId in items
    ensures AllStored(items, Unseen(page[..j + 1], seen))
    ensures |Unseen(page[..j + 1], seen)| == |Unseen(page[..j], seen)| + (if page[j].itemId in seen then 0 else 1)
    ensures Listings(items, Unseen(page[..j + 1], seen)) ==
      Listings(items, Unseen(page[..j], seen))
      + (if page[j].itemId in seen then [] else [Listing(page[j].itemId, page[j].doc, Urls(items[page[j].itemId].images))])
  {
    UnseenStep(page, j, seen);
    if page[j].itemId !in seen {
      ListingsAppend(items, Unseen(page[..j], seen), page[j]);
    } else {
      assert Unseen(page[..j + 1], seen) == Unseen(page[..j], seen);
    }
  }

  /** The unseen hits up to a point inside the page at `pos` are those
      before the page followed by those read from it. */
  lemma JoinPage(items: map<ItemId, Item>, hits: seq<Hit>, seen: set<ItemId>, start: nat, pos: nat, end: nat, d: nat)
    requires start <= pos <= end <= |hits| && d <= end - pos
    ensures hits[pos..pos + d] == hits[pos..end][..d]
    ensures Unseen(hits[start..pos + d], seen) == Unseen(hits[start..pos], seen) + Unseen(hits[pos..end][..d], seen)
    ensures AllStored(items, Unseen(hits[start..pos], seen)) && AllStored(items, Unseen(hits[pos..end][..d], seen)) ==>
      AllStored(items, Unseen(hits[start..pos + d], seen))
    ensures Listings(items, Unseen(hits[start..pos + d], seen)) ==
      Listings(items, Unseen(hits[start..pos], seen)) + Listings(items, Unseen(hits[pos..end][..d], seen))
  {
    assert hits[start..pos + d] == hits[start..pos] + hits[pos..end][..d];
    UnseenConcat(hits[start..pos], hits[pos..end][..d], seen);
    ListingsConcat(items, Unseen(hits[start..pos], seen), Unseen(hits[pos..end][..d], seen));
  }

  /** Read the page of hits at `pos`, continuing the results collected from
      `start`. */
  method ReadPage(items: map<ItemId, Item>, seen: set<ItemId>, hits: seq<Hit>, start: nat, pos: nat,
                  results0: seq<Listing>)
    returns (crashed: bool, results: seq<Listing>, done: nat)
    requires start <= pos <= |hits|
    requires AllStored(items, Unseen(hits[start..pos], seen))
    requires results0 == Listings(items, Unseen(hits[start..pos], seen))
    requires |results0| < NUM_ITEMS_PER_REQUEST
    ensures pos <= done <= PageEnd(pos, |hits|)
    ensures crashed ==> !AllStored(items, Take(Unseen(hits[start..], seen), NUM_ITEMS_PER_REQUEST))
    ensures !crashed ==>
      AllStored(items, Unseen(hits[start..done], seen))
      && results == Listings(items, Unseen(hits[start..done], seen))
      && |results| <= NUM_ITEMS_PER_REQUEST
      && (done < PageEnd(pos, |hits|) ==> |results| == NUM_ITEMS_PER_REQUEST)
      && (|results| == NUM_ITEMS_PER_REQUEST <==>
            |Unseen(hits[pos..PageEnd(pos, |hits|)], seen)| >= NUM_ITEMS_PER_REQUEST - |results0|)
      && (|results| < NUM_ITEMS_PER_REQUEST ==>
            |results| == |results0| + |Unseen(hits[pos..PageEnd(pos, |hits|)], seen)|)
  {
    var end := PageEnd(pos, |hits|);
    var d;
    crashed, results, d := ScanPage(items, seen, hits[pos..end], results0);
    done := pos + d;
    JoinPage(items, hits, seen, start, pos, end, d);
    if crashed {
      CrashAt(items, hits, seen, start, done);
    } else if |results| < NUM_ITEMS_PER_REQUEST {
      assert hits[pos..end][..d] == hits[pos..end];
    }
  }

  /** An unseen hit without a stored item, met before five results are
      collected, makes the handler raise. */
  lemma CrashAt(items: map<ItemId, Item>, hits: seq<Hit>, seen: set<ItemId>, start: nat, j: nat)
    requires start <= j < |hits| && hits[j].itemId !in seen && hits[j].itemId !in items
    requires |Unseen(hits[start..j], seen)| < NUM_ITEMS_PER_REQUEST
    ensures !AllStored(items, Take(Unseen(hits[start..], seen), NUM_ITEMS_PER_REQUEST))
  {
    PickedPrefix(hits, seen, start, j);
  }

  /** An unseen hit found before five results are collected is among the
      results the handler must return. */
  lemma PickedPrefix(hits: seq<Hit>, seen: set<ItemId>, start: nat, j: nat)
    requires start <= j < |hits| && hits[j].itemId !in seen
    requires |Unseen(hits[start..j], seen)| < NUM_ITEMS_PER_REQUEST
    ensures var picked := Take(Unseen(hits[start..], seen), NUM_ITEMS_PER_REQUEST);
      |Unseen(hits[start..j], seen)| < |picked| && picked[|Unseen(hits[start..j], seen)|] == hits[j]
  {
    var h := hits[j];
    assert hits[start..] == hits[start..j] + [h] + hits[j + 1..];
    UnseenConcat(hits[start..j] + [h], hits[j + 1..], seen);
    UnseenConcat(hits[start..j], [h], seen);
    assert [h][..0] == [];
  }

  /** After reading the page at `pos` the cursor the handler must return is
      either settled (five found, or no hit left) or still ahead. */
  lemma CursorAdvance(hits: seq<Hit>, seen: set<ItemId>, start: nat, pos: nat, before: nat, after: nat)
    requires start <= pos <= |hits| && before < NUM_ITEMS_PER_REQUEST && after <= NUM_ITEMS_PER_REQUEST
    requires NextCursor(hits, seen, start, NUM_ITEMS_PER_REQUEST) == NextCursor(hits, seen, pos, NUM_ITEMS_PER_REQUEST - before)
    requires after == NUM_ITEMS_PER_REQUEST <==>
      |Unseen(hits[pos..PageEnd(pos, |hits|)], seen)| >= NUM_ITEMS_PER_REQUEST - before
    requires after < NUM_ITEMS_PER_REQUEST ==> after == before + |Unseen(hits[pos..PageEnd(pos, |hits|)], seen)|
    ensures var end := PageEnd(pos, |hits|);
      ((after == NUM_ITEMS_PER_REQUEST || end == |hits|) ==>
         NextCursor(hits, seen, start, NUM_ITEMS_PER_REQUEST) == (if end < |hits| then Some(end) else None))
      && ((after < NUM_ITEMS_PER_REQUEST && end < |hits|) ==>
         NextCursor(hits, seen, start, NUM_ITEMS_PER_REQUEST) == NextCursor(hits, seen, end, NUM_ITEMS_PER_REQUEST - after))
  {
  }

  /** Once five unseen hits are read, or every hit is, the hits read so far
      hold exactly the results to return. */
  lemma PickedSoFar(hits: seq<Hit>, seen: set<ItemId>, start: nat, done: nat)
    requires start <= done <= |hits|
    requires |Unseen(hits[start..done], seen)| == NUM_ITEMS_PER_REQUEST
      || (done == |hits| && |Unseen(hits[start..done], seen)| <= NUM_ITEMS_PER_REQUEST)
    ensures Take(Unseen(hits[start..], seen), NUM_ITEMS_PER_REQUEST) == Unseen(hits[start..done], seen)
  {
    assert hits[start..] == hits[start..done] + hits[done..];
    UnseenConcat(hits[start..done], hits[done..], seen);
  }

  /** The query list, built by appending clauses as the handler does. */
  method BuildQuery(lat: real, lng: real, user: User, uid: UserId, category: Option<string>,
                    searchQuery: Option<string>, showFloat: real -> string)
    returns (query: seq<string>)
    ensures query == Clauses(lat, lng, user, uid, category, searchQuery, showFloat)
  {
    query := [DistanceClause(lat, lng, user.distanceRadiusKm, showFloat), OwnerClause(uid)];
    if category.Some? {
      query := query + ["category=" + category.value];
    }
    if searchQuery.Some? {
      query := query + [TermsClause(searchQuery.value)];
    }
  }

  /** The page loop: read pages of the ranked hits from `start` until five
      unseen items are collected or no cursor is left. */
  method Collect(items: map<ItemId, Item>, seen: set<ItemId>, hits: seq<Hit>, start: nat)
    returns (crashed: bool, results: seq<Listing>, cursor: Option<nat>)
    requires start <= |hits|
    ensures var picked := Take(Unseen(hits[start..], seen), NUM_ITEMS_PER_REQUEST);
      crashed <==> !AllStored(items, picked)
    ensures !crashed ==>
      results == Listings(items, Take(Unseen(hits[start..], seen), NUM_ITEMS_PER_REQUEST))
      && cursor == NextCursor(hits, seen, start, NUM_ITEMS_PER_REQUEST)
  {
    results := [];
    var pos, done := start, start;
    cursor := None;
    var begin := true;
    while |results| < NUM_ITEMS_PER_REQUEST && (begin || cursor.Some?)
      invariant start <= done <= pos <= |hits|
      invariant begin ==> pos == start && results == []
      invariant !begin ==> cursor == (if pos < |hits| then Some(pos) else None)
      invariant AllStored(items, Unseen(hits[start..done], seen))
      invariant results == Listings(items, Unseen(hits[start..done], seen))
      invariant done < pos ==> |results| == NUM_ITEMS_PER_REQUEST
      invariant |results| <= NUM_ITEMS_PER_REQUEST
      invariant (|results| < NUM_ITEMS_PER_REQUEST && (begin || pos < |hits|)) ==>
        NextCursor(hits, seen, start, NUM_ITEMS_PER_REQUEST) == NextCursor(hits, seen, pos, NUM_ITEMS_PER_REQUEST - |results|)
      invariant (!begin && (|results| == NUM_ITEMS_PER_REQUEST || pos == |hits|)) ==>
        NextCursor(hits, seen, start, NUM_ITEMS_PER_REQUEST) == cursor
      decreases |hits| - pos + (if begin then 1 else 0)
    {
      begin := false;
      var pageCrashed, page, stop := ReadPage(items, seen, hits, start, pos, results);
      if pageCrashed {
        return true, results, cursor;
      }
      var end := PageEnd(pos, |hits|);
      CursorAdvance(hits, seen, start, pos, |results|, |page|);
      results, done := page, stop;
      pos := end;
      cursor := if end < |hits| then Some(end) else None;
    }
    PickedSoFar(hits, seen, start, done);
    crashed := false;
  }

  /** List nearby items the caller has not seen (`GET /list_items`): build
      the query, then read pages of ranked hits until five unseen items are
      collected or the hits run out. */
  method List(db: Datastore, req: Request, b: Builtins, auth: AuthResult, svc: SearchService)
    returns (r: Reply<Listed>)
    ensures !Admissible(req, ListSchema, b) ==>
      (r == Failure(MalformedRequest, None) || (r.Crash? && MayRaise(req, ListSchema, b)))
    ensures ArgsSource(req).Raises? ==> r == Crash
    ensures Admissible(req, ListSchema, b) && !auth.Authenticated? ==> r == Stop(AuthError(auth))
    ensures (Admissible(req, ListSchema, b) && auth.Authenticated?
             && !RegisteredAs(db.users, auth.thirdPartyId)) ==>
      r == Failure(InvalidUser, None)
    ensures (Admissible(req, ListSchema, b) && auth.Authenticated? && RegisteredAs(db.users, auth.thirdPartyId)) ==>
      exists uid :: IsCaller(db.users, auth, uid) && r == ListOutcome(db.items, req, b, db.users[uid], uid, svc)
  {
    var p := ParseRequest(req, ListSchema, b);
    if !p.Parsed? {
      return if p.Raised? then Crash else Failure(MalformedRequest, None);
    }
    var loaded := PopulateUser(db, auth);
    if loaded.Halted? {
      return Stop(loaded.halt);
    }
    var uid := loaded.value;
    r := Search(db.items, req, b, db.users[uid], uid, svc);
  }

  /** The handler once the caller is known: search, then collect. */
  method Search(items: map<ItemId, Item>, req: Request, b: Builtins, user: User, uid: UserId,
                svc: SearchService)
    returns (r: Reply<Listed>)
    requires Admissible(req, ListSchema, b)
    ensures r == ListOutcome(items, req, b, user, uid, svc)
  {
    var query := BuildQuery(FloatField(req, ListSchema, b, "lat"), FloatField(req, ListSchema, b, "lng"),
                            user, uid, OptStrField(req, ListSchema, b, "category"),
                            OptStrField(req, ListSchema, b, "search_query"), svc.showFloat);
    var found := svc.search(Join(" AND ", query));
    if found.None? {
      return Failure(SearchError, None);
    }
    var hits := found.value;
    var cursor := OptStrField(req, ListSchema, b, "cursor");
    var off := if cursor.Some? then svc.readCursor(cursor.value) else 0;
    var start := if off <= |hits| then off else |hits|;
    var seen := set i | i in user.seenItemIds;
    var crashed, results, next := Collect(items, seen, hits, start);
    r := if crashed then Crash else Success(Listed(results, MapOption(next, svc.writeCursor)));
  }

  // ---------- The index name as written ----------

  /** The writes of a post as written: `constants.ITEM_INDEX_NAME`, which
      names the search index, is not defined in the constants module, so
      naming the index raises once the item is stored, and the handler's
      `except search.Error` does not catch it. The item stays, with no
      document. */
  method StoreAsWritten(db: Datastore, uid: UserId) returns (r: Reply<ItemId>)
    requires db.Valid()
    modifies db
    ensures db.Valid() && r == Crash
    ensures db.users == old(db.users) && db.likeStates == old(db.likeStates)
    ensures db.conversations == old(db.conversations)
    ensures old(db.nextId) !in old(db.items) && db.items == old(db.items)[old(db.nextId) := Item(uid, [])]
  {
    var id := db.NewId();
    db.items := db.items[id := Item(uid, [])];
    r := Crash;
  }

  /** A post as written breaks what the intended post keeps: the new item has
      no search document. */
  lemma StoreAsWrittenUnindexes(items: map<ItemId, Item>, docs: map<ItemId, Document>, id: ItemId, uid: UserId)
    requires id !in docs
    ensures !Indexed(items[id := Item(uid, [])], docs)
  {
  }

  /** The writes of a delete as written: naming the index raises after the
      like states, the conversations, the users' lists and the blobs are
      gone, and before the document and the item are deleted. The users are
      scrubbed by the corrected scan (`ScrubUsers`), not by the scan as
      written (`ScrubUsersAsWritten`), so that only the index name differs
      from `Cascade`. */
  method CascadeAsWritten(db: Datastore, blobs: BlobStore, iid: ItemId) returns (r: Reply<()>)
    requires iid in db.items
    modifies db`likeStates, db`conversations, db`users, blobs
    ensures r == Crash
    ensures db.likeStates == LikesWithout(old(db.likeStates), iid)
    ensures db.conversations == ConversationsWithout(old(db.conversations), iid)
    ensures db.users == ScrubUsers(old(db.users), iid, ConversationsAbout(old(db.conversations), iid))
    ensures blobs.blobs == old(blobs.blobs) - BlobKeys(old(db.items)[iid].images)
  {
    Detach(db, blobs, iid);
    r := Crash;
  }

  /** After a delete as written the item is still stored and listed, while
      the blobs behind its images are gone. */
  lemma CascadeAsWrittenOrphansImages(items: map<ItemId, Item>, blobs: set<BlobKey>, iid: ItemId)
    requires iid in items && items[iid].images != []
    ensures !ImageHandler.ImagesBacked(items, blobs - BlobKeys(items[iid].images))
  {
    assert items[iid].images[0].blobKey in BlobKeys(items[iid].images);
  }

  /** List as written: naming the index raises before any search, so every
      request from a registered caller crashes. */
  method ListAsWritten(db: Datastore, req: Request, b: Builtins, auth: AuthResult) returns (r: Reply<Listed>)
    ensures !Admissible(req, ListSchema, b) ==>
      (r == Failure(MalformedRequest, None) || (r.Crash? && MayRaise(req, ListSchema, b)))
    ensures ArgsSource(req).Raises? ==> r == Crash
    ensures Admissible(req, ListSchema, b) && !auth.Authenticated? ==> r == Stop(AuthError(auth))
    ensures (Admissible(req, ListSchema, b) && auth.Authenticated?
             && !RegisteredAs(db.users, auth.thirdPartyId)) ==>
      r == Failure(InvalidUser, None)
    ensures (Admissible(req, ListSchema, b) && auth.Authenticated? && RegisteredAs(db.users, auth.thirdPartyId)) ==>
      r == Crash
  {
    var p := ParseRequest(req, ListSchema, b);
    if !p.Parsed? {
      return if p.Raised? then Crash else Failure(MalformedRequest, None);
    }
    var loaded := PopulateUser(db, auth);
    if loaded.Halted? {
      return Stop(loaded.halt);
    }
    r := Crash;
  }
}
