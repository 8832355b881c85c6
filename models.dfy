/** The stored records (users, items, images, like states, conversations,
    messages), the datastore that holds them, and the two platform services
    the handlers write to: the item search index and the blob store. */
module Models {
  import opened Common
  import opened Seqs

  type UserId = nat
  type ItemId = nat
  type ConversationId = nat
  type LikeStateId = nat
  type BlobKey = string

  /** A registered account. Timestamps are whole seconds. */
  datatype User = User(
    loginType: string,
    thirdPartyId: string,
    name: Option<string>,
    distanceRadiusKm: int,
    seenItemIds: seq<ItemId>,
    ongoingConversations: seq<ConversationId>,
    lastActive: int)

  /** An uploaded picture: its blob and the URL it is served from. */
  datatype Image = Image(blobKey: BlobKey, url: string)

  /** An item for sale; its listing fields live in its search document. */
  datatype Item = Item(owner: UserId, images: seq<Image>)

  /** One user's reaction to one item. */
  datatype LikeState = LikeState(user: UserId, item: ItemId, liked: bool)

  datatype Message = Message(sender: UserId, senderName: Option<string>, text: string, createDate: int)

  /** The chat between an item's seller and one buyer. */
  datatype Conversation = Conversation(
    item: ItemId,
    buyer: UserId,
    messages: seq<Message>,
    lastActivityDate: int)

  /** The fields of an item's search document; its document id is the item id. */
  datatype Document = Document(
    userId: UserId,
    category: string,
    title: string,
    description: string,
    price: real,
    currency: string,
    lat: real,
    lng: real)

  /** The default search radius of a new account. */
  const DEFAULT_DISTANCE_RADIUS_KM: int := 10

  /** A freshly registered account: nothing seen, no conversations. */
  function NewUser(thirdPartyId: string): (u: User)
    ensures u.loginType == "facebook" && u.thirdPartyId == thirdPartyId
    ensures u.seenItemIds == [] && u.ongoingConversations == []
  {
    User("facebook", thirdPartyId, None, DEFAULT_DISTANCE_RADIUS_KM, [], [], 0)
  }

  // ---- Invariants the handlers keep between requests ----

  predicate HasLikeState(likes: map<LikeStateId, LikeState>, u: UserId, i: ItemId) {
    exists lid :: lid in likes && likes[lid].user == u && likes[lid].item == i
  }

  /** At most one like state per (user, item). */
  ghost predicate LikeStatesUnique(likes: map<LikeStateId, LikeState>) {
    forall a, b ::
      (a in likes && b in likes && likes[a].user == likes[b].user && likes[a].item == likes[b].item)
      ==> a == b
  }

  /** Every like state belongs to a registered user. */
  ghost predicate LikersRegistered(users: map<UserId, User>, likes: map<LikeStateId, LikeState>) {
    forall lid :: lid in likes ==> likes[lid].user in users
  }

  /** A user has seen an item exactly when they reacted to it, and no seen
      list repeats an id. */
  ghost predicate SeenMatchesLikes(users: map<UserId, User>, likes: map<LikeStateId, LikeState>) {
    (forall u, i :: u in users ==> (i in users[u].seenItemIds <==> HasLikeState(likes, u, i)))
    && (forall u :: u in users ==> Distinct(users[u].seenItemIds))
  }

  /** At most one conversation per (item, buyer). */
  ghost predicate ConversationsUnique(convs: map<ConversationId, Conversation>) {
    forall a, b ::
      (a in convs && b in convs && convs[a].item == convs[b].item && convs[a].buyer == convs[b].buyer)
      ==> a == b
  }

  /** Every ongoing conversation a user lists is stored. */
  ghost predicate OngoingStored(users: map<UserId, User>, convs: map<ConversationId, Conversation>) {
    forall u, c :: u in users && c in users[u].ongoingConversations ==> c in convs
  }

  ghost predicate StateCoherent(
    users: map<UserId, User>,
    likes: map<LikeStateId, LikeState>,
    convs: map<ConversationId, Conversation>)
  {
    LikeStatesUnique(likes) && LikersRegistered(users, likes) && SeenMatchesLikes(users, likes)
    && ConversationsUnique(convs) && OngoingStored(users, convs)
  }

  /** The application's datastore: one map per record kind, keyed by id.
      Ids come from one counter, so a new record never reuses an id. */
  class Datastore {
    var users: map<UserId, User>
    var items: map<ItemId, Item>
    var likeStates: map<LikeStateId, LikeState>
    var conversations: map<ConversationId, Conversation>
    var nextId: nat

    /** Every id in use was handed out before. */
    ghost predicate Valid()
      reads this
    {
      (forall id :: id in users ==> id < nextId)
      && (forall id :: id in items ==> id < nextId)
      && (forall id :: id in likeStates ==> id < nextId)
      && (forall id :: id in conversations ==> id < nextId)
    }

    ghost predicate Coherent()
      reads this
    {
      StateCoherent(users, likeStates, conversations)
    }

    constructor ()
      ensures Valid() && Coherent()
      ensures users == map[] && items == map[] && likeStates == map[] && conversations == map[]
    {
      users, items, likeStates, conversations := map[], map[], map[], map[];
      nextId := 0;
    }

    /** The id the datastore assigns to the next stored record. */
    method NewId() returns (id: nat)
      requires Valid()
      modifies this`nextId
      ensures Valid() && nextId == id + 1 && id == old(nextId)
      ensures id !in users && id !in items && id !in likeStates && id !in conversations
    {
      id := nextId;
      nextId := nextId + 1;
    }
  }

  /** The item search index: one document per live item. */
  class SearchIndex {
    var docs: map<ItemId, Document>

    constructor ()
      ensures docs == map[]
    {
      docs := map[];
    }
  }

  /** The blob store holding uploaded image data. */
  class BlobStore {
    var blobs: set<BlobKey>

    constructor ()
      ensures blobs == {}
    {
      blobs := {};
    }
  }
}
