/** Posting a chat message about an item. The item's owner is always the
    seller; a buyer may open the conversation only after seeing and liking
    the item, and the seller may only answer in an existing one. */
module ConversationHandler {
  import opened Common
  import opened ErrorCodes
  import opened Models
  import opened Base

  /** `item_id`, `receiver_id` and a non-empty `message`. */
  const MessageSchema: Schema := map[
    "item_id" := FieldSpec(IntKind, true, None),
    "receiver_id" := FieldSpec(IntKind, true, None),
    "message" := FieldSpec(StrKind, true, Some((v: Value) => v.VStr? && |v.s| > 0))]

  function ItemIdArg(req: Request, b: Builtins): int
    requires Admissible(req, MessageSchema, b)
  {
    IntField(req, MessageSchema, b, "item_id")
  }

  function ReceiverArg(req: Request, b: Builtins): int
    requires Admissible(req, MessageSchema, b)
  {
    IntField(req, MessageSchema, b, "receiver_id")
  }

  function TextArg(req: Request, b: Builtins): string
    requires Admissible(req, MessageSchema, b)
  {
    StrField(req, MessageSchema, b, "message")
  }

  /** The buyer of the conversation a message goes to: the receiver when the
      sender owns the item, the sender otherwise. */
  function Buyer(owner: UserId, sender: UserId, receiver: int): int {
    if owner == sender then receiver else sender
  }

  /** `c` is a stored conversation about `iid` with buyer `buyer`. */
  predicate IsConversation(convs: map<ConversationId, Conversation>, c: ConversationId, iid: ItemId, buyer: int) {
    c in convs && convs[c].item == iid && convs[c].buyer == buyer
  }

  predicate HasConversation(convs: map<ConversationId, Conversation>, iid: ItemId, buyer: int) {
    exists c :: c in convs && convs[c].item == iid && convs[c].buyer == buyer
  }

  /** The user has a like state on the item with the flag set (or cleared). */
  predicate Reacted(likes: map<LikeStateId, LikeState>, u: UserId, i: ItemId, liked: bool) {
    exists lid :: lid in likes && likes[lid].user == u && likes[lid].item == i && likes[lid].liked == liked
  }

  /** A conversation after a message is appended: the write stamps its
      activity date. */
  function Appended(c: Conversation, m: Message, now: int): (c': Conversation)
    ensures c'.item == c.item && c'.buyer == c.buyer && c'.lastActivityDate == now
    ensures |c'.messages| == |c.messages| + 1 && c'.messages[..|c.messages|] == c.messages
    ensures c'.messages[|c.messages|] == m
  {
    c.(messages := c.messages + [m], lastActivityDate := now)
  }

  /** A user's account with conversation `cid` added to its ongoing list. */
  function Enrol(u: User, cid: ConversationId): (u': User)
    ensures u'.ongoingConversations == u.ongoingConversations + [cid]
    ensures u'.seenItemIds == u.seenItemIds && u'.thirdPartyId == u.thirdPartyId
  {
    u.(ongoingConversations := u.ongoingConversations + [cid])
  }

  /** Both participants enrolled in a new conversation. The receiver is read
      back through the request's entity cache, which already holds the
      sender's enrolled account, so a sender writing to themself is enrolled
      twice. */
  function Joined(users: map<UserId, User>, sender: UserId, receiver: UserId, cid: ConversationId): map<UserId, User>
    requires sender in users && receiver in users
  {
    var enrolled := users[sender := Enrol(users[sender], cid)];
    enrolled[receiver := Enrol(enrolled[receiver], cid)]
  }

  /** A new conversation enrols exactly its two participants, each once when
      they differ and the one participant twice when they do not, and changes
      no other account. */
  lemma JoinedEnrolsBoth(users: map<UserId, User>, sender: UserId, receiver: UserId, cid: ConversationId)
    requires sender in users && receiver in users
    ensures var m := Joined(users, sender, receiver, cid);
      m.Keys == users.Keys
      && (sender != receiver ==>
            m[sender].ongoingConversations == users[sender].ongoingConversations + [cid]
            && m[receiver].ongoingConversations == users[receiver].ongoingConversations + [cid])
      && (sender == receiver ==>
            m[sender].ongoingConversations == users[sender].ongoingConversations + [cid, cid])
      && (forall u :: u in users && u != sender && u != receiver ==> m[u] == users[u])
      && (forall u :: u in users ==> m[u].seenItemIds == users[u].seenItemIds)
  {
    if sender == receiver {
      assert users[sender].ongoingConversations + [cid] + [cid] == users[sender].ongoingConversations + [cid, cid];
    }
  }

  /** What a message from `sender` to `receiver` about item `iid` does to the
      users and conversations, and what the handler answers. `next` is the
      id a new conversation gets. */
  ghost predicate Posted(
    users0: map<UserId, User>, likes: map<LikeStateId, LikeState>, convs0: map<ConversationId, Conversation>,
    owner: UserId, sender: UserId, iid: ItemId, receiver: int, m: Message, now: int, next: ConversationId,
    users1: map<UserId, User>, convs1: map<ConversationId, Conversation>, r: Reply<()>)
    requires sender in users0
  {
    var buyer := Buyer(owner, sender, receiver);
    var same := users1 == users0 && convs1 == convs0;
    if owner != sender && owner != receiver then
      same && r == Failure(InvalidUser, None)
    else if HasConversation(convs0, iid, buyer) then
      users1 == users0 && r == Success(())
      && exists c :: IsConversation(convs0, c, iid, buyer) && convs1 == convs0[c := Appended(convs0[c], m, now)]
    else if buyer != sender then
      same && r == Failure(MalformedRequest, None)
    else if iid !in users0[sender].seenItemIds || !Reacted(likes, sender, iid, true) then
      same && r == Failure(InvalidItem, None)
    else if r == Failure(InvalidItem, None) then
      // A disliking like state for the pair may be the one read; a coherent
      // store has at most one.
      same && Reacted(likes, sender, iid, false)
    else
      convs1 == convs0[next := Conversation(iid, sender, [m], now)]
      && (if receiver >= 0 && receiver as nat in users0
          then r == Success(()) && users1 == Joined(users0, sender, receiver as nat, next)
          else r == Crash && users1 == users0)
  }

  /** A new conversation is opened only by a buyer who has seen and liked the
      item, and never beside one for the same item and buyer; an existing
      one only grows by the message. */
  lemma PostedOpensOnlyWhenLiked(
    users0: map<UserId, User>, likes: map<LikeStateId, LikeState>, convs0: map<ConversationId, Conversation>,
    owner: UserId, sender: UserId, iid: ItemId, receiver: int, m: Message, now: int, next: ConversationId,
    users1: map<UserId, User>, convs1: map<ConversationId, Conversation>, r: Reply<()>)
    requires sender in users0 && next !in convs0
    requires Posted(users0, likes, convs0, owner, sender, iid, receiver, m, now, next, users1, convs1, r)
    ensures next in convs1 ==>
      convs1[next] == Conversation(iid, sender, [m], now)
      && !HasConversation(convs0, iid, sender)
      && (owner != sender || receiver == sender)
      && iid in users0[sender].seenItemIds && Reacted(likes, sender, iid, true)
    ensures next !in convs1 ==> convs1.Keys == convs0.Keys
    ensures !r.Success? && !r.Crash? ==> users1 == users0 && convs1 == convs0
  {
    var buyer := Buyer(owner, sender, receiver);
    if !(owner != sender && owner != receiver) && HasConversation(convs0, iid, buyer) {
      var c :| IsConversation(convs0, c, iid, buyer) && convs1 == convs0[c := Appended(convs0[c], m, now)];
      assert c != next;
    }
  }

  /** In a coherent store the disliking like state cannot be read next to a
      liking one, so a buyer who has seen and liked the item is never refused. */
  lemma LikeReadIsDetermined(likes: map<LikeStateId, LikeState>, u: UserId, i: ItemId)
    requires LikeStatesUnique(likes)
    ensures !(Reacted(likes, u, i, true) && Reacted(likes, u, i, false))
  {
  }

  /** A message keeps the store coherent: conversations stay unique per item
      and buyer, and every ongoing conversation a user lists is stored. */
  lemma PostedKeepsCoherent(
    users0: map<UserId, User>, likes: map<LikeStateId, LikeState>, convs0: map<ConversationId, Conversation>,
    owner: UserId, sender: UserId, iid: ItemId, receiver: int, m: Message, now: int, next: ConversationId,
    users1: map<UserId, User>, convs1: map<ConversationId, Conversation>, r: Reply<()>)
    requires sender in users0 && next !in convs0
    requires StateCoherent(users0, likes, convs0)
    requires Posted(users0, likes, convs0, owner, sender, iid, receiver, m, now, next, users1, convs1, r)
    ensures StateCoherent(users1, likes, convs1)
  {
    PostedOpensOnlyWhenLiked(users0, likes, convs0, owner, sender, iid, receiver, m, now, next, users1, convs1, r);
    var buyer := Buyer(owner, sender, receiver);
    if owner != sender && owner != receiver {
    } else if HasConversation(convs0, iid, buyer) {
      var c :| IsConversation(convs0, c, iid, buyer) && convs1 == convs0[c := Appended(convs0[c], m, now)];
      AppendKeepsCoherent(users0, likes, convs0, c, Appended(convs0[c], m, now));
    } else if next in convs1 {
      assert forall a :: a in convs0 ==> !IsConversation(convs0, a, iid, sender);
      OpenKeepsCoherent(users0, likes, convs0, sender, receiver, next, Conversation(iid, sender, [m], now), users1);
    }
  }

  /** Rewriting a stored conversation with the same item and buyer keeps
      the store coherent. */
  lemma AppendKeepsCoherent(users: map<UserId, User>, likes: map<LikeStateId, LikeState>,
                            convs0: map<ConversationId, Conversation>, c: ConversationId, conv: Conversation)
    requires StateCoherent(users, likes, convs0)
    requires c in convs0 && conv.item == convs0[c].item && conv.buyer == convs0[c].buyer
    ensures StateCoherent(users, likes, convs0[c := conv])
  {
    var convs1 := convs0[c := conv];
    assert forall d :: d in convs1 ==> d in convs0 && convs1[d].item == convs0[d].item && convs1[d].buyer == convs0[d].buyer;
  }

  /** Storing the first conversation for an item and buyer under a new id,
      and enrolling its participants (or no one), keeps the store coherent. */
  lemma OpenKeepsCoherent(users0: map<UserId, User>, likes: map<LikeStateId, LikeState>,
                          convs0: map<ConversationId, Conversation>, sender: UserId, receiver: int,
                          next: ConversationId, conv: Conversation, users1: map<UserId, User>)
    requires StateCoherent(users0, likes, convs0) && next !in convs0
    requires forall a :: a in convs0 ==> !IsConversation(convs0, a, conv.item, conv.buyer)
    requires users1 == users0
      || (sender in users0 && receiver >= 0 && receiver as nat in users0
          && users1 == Joined(users0, sender, receiver as nat, next))
    ensures StateCoherent(users1, likes, convs0[next := conv])
  {
    if users1 != users0 {
      JoinedEnrolsBoth(users0, sender, receiver as nat, next);
    }
  }

  /** The choice a message leads to once the caller and the item are known. */
  datatype Decision = Declined(code: ErrorCode) | Existing(cid: ConversationId) | Open

  /** Decide where the message goes: find the conversation for the item and
      its buyer, or check that the sender may open one. */
  method Decide(users: map<UserId, User>, likes: map<LikeStateId, LikeState>, convs: map<ConversationId, Conversation>,
                owner: UserId, sender: UserId, iid: ItemId, receiver: int)
    returns (d: Decision)
    requires sender in users
    ensures var buyer := Buyer(owner, sender, receiver);
      if owner != sender && owner != receiver then d == Declined(InvalidUser)
      else if HasConversation(convs, iid, buyer) then d.Existing? && IsConversation(convs, d.cid, iid, buyer)
      else if buyer != sender then d == Declined(MalformedRequest)
      else if iid !in users[sender].seenItemIds || !Reacted(likes, sender, iid, true) then d == Declined(InvalidItem)
      else d == Open || (d == Declined(InvalidItem) && Reacted(likes, sender, iid, false))
  {
    var buyer := Buyer(owner, sender, receiver);
    if owner != sender && owner != receiver {
      return Declined(InvalidUser);
    }
    if HasConversation(convs, iid, buyer) {
      var c :| c in convs && convs[c].item == iid && convs[c].buyer == buyer;
      return Existing(c);
    }
    if buyer != sender {
      return Declined(MalformedRequest);
    }
    if iid !in users[sender].seenItemIds {
      return Declined(InvalidItem);
    }
    if !HasLikeState(likes, sender, iid) {
      return Declined(InvalidItem);
    }
    var lid :| lid in likes && likes[lid].user == sender && likes[lid].item == iid;
    if !likes[lid].liked {
      return Declined(InvalidItem);
    }
    d := Open;
  }

  /** The writes of a message: append it to the conversation, or store a new
      conversation and enrol both participants in it. */
  method Write(db: Datastore, d: Decision, sender: UserId, iid: ItemId, receiver: int, m: Message, now: int)
    returns (r: Reply<()>)
    requires db.Valid() && sender in db.users && !d.Declined?
    requires d.Existing? ==> d.cid in db.conversations
    modifies db
    ensures db.Valid()
    ensures db.items == old(db.items) && db.likeStates == old(db.likeStates)
    ensures d.Existing? ==>
      r == Success(()) && db.users == old(db.users)
      && db.conversations == old(db.conversations)[d.cid := Appended(old(db.conversations)[d.cid], m, now)]
    ensures d.Open? ==>
      db.conversations == old(db.conversations)[old(db.nextId) := Conversation(iid, sender, [m], now)]
      && (if receiver >= 0 && receiver as nat in old(db.users)
          then r == Success(()) && db.users == Joined(old(db.users), sender, receiver as nat, old(db.nextId))
          else r == Crash && db.users == old(db.users))
  {
    if d.Existing? {
      db.conversations := db.conversations[d.cid := Appended(db.conversations[d.cid], m, now)];
      return Success(());
    }
    var cid := db.NewId();
    db.conversations := db.conversations[cid := Conversation(iid, sender, [m], now)];
    if !(receiver >= 0 && receiver as nat in db.users) {
      // The receiver's account cannot be read back: the handler raises after
      // the conversation was stored.
      return Crash;
    }
    db.users := Joined(db.users, sender, receiver as nat, cid);
    r := Success(());
  }

  /** Post a chat message (`POST /conversation/post`); `now` is the time of
      the write. */
  method Post(db: Datastore, req: Request, b: Builtins, auth: AuthResult, now: int) returns (r: Reply<()>)
    requires db.Valid()
    modifies db
    ensures db.Valid()
    ensures db.items == old(db.items) && db.likeStates == old(db.likeStates)
    ensures !Admissible(req, MessageSchema, b) ==>
      unchanged(db) && (r == Failure(MalformedRequest, None) || (r.Crash? && MayRaise(req, MessageSchema, b)))
    ensures ArgsSource(req).Raises? ==> r == Crash
    ensures Admissible(req, MessageSchema, b) && !auth.Authenticated? ==>
      unchanged(db) && r == Stop(AuthError(auth))
    ensures (Admissible(req, MessageSchema, b) && auth.Authenticated?
             && !RegisteredAs(old(db.users), auth.thirdPartyId)) ==>
      unchanged(db) && r == Failure(InvalidUser, None)
    ensures (Admissible(req, MessageSchema, b) && auth.Authenticated?
             && RegisteredAs(old(db.users), auth.thirdPartyId) && !IsItem(old(db.items), ItemIdArg(req, b))) ==>
      unchanged(db) && r == Failure(InvalidItem, None)
    ensures (Admissible(req, MessageSchema, b) && auth.Authenticated?
             && RegisteredAs(old(db.users), auth.thirdPartyId) && IsItem(old(db.items), ItemIdArg(req, b))) ==>
      exists uid :: IsCaller(old(db.users), auth, uid)
        && Posted(old(db.users), old(db.likeStates), old(db.conversations),
                  old(db.items)[ItemIdArg(req, b)].owner, uid, ItemIdArg(req, b), ReceiverArg(req, b),
                  Message(uid, old(db.users)[uid].name, TextArg(req, b), now), now, old(db.nextId),
                  db.users, db.conversations, r)
    ensures old(db.Coherent()) ==> db.Coherent()
  {
    var p := ParseRequest(req, MessageSchema, b);
    if !p.Parsed? {
      return if p.Raised? then Crash else Failure(MalformedRequest, None);
    }
    var loaded := PopulateUser(db, auth);
    if loaded.Halted? {
      return Stop(loaded.halt);
    }
    var uid := loaded.value;
    r := Send(db, uid, ItemIdArg(req, b), ReceiverArg(req, b), TextArg(req, b), now);
  }

  /** The handler once the caller is known: load the item, decide where the
      message goes and write it. */
  method Send(db: Datastore, uid: UserId, itemId: int, receiver: int, text: string, now: int) returns (r: Reply<()>)
    requires db.Valid() && uid in db.users
    modifies db
    ensures db.Valid()
    ensures db.items == old(db.items) && db.likeStates == old(db.likeStates)
    ensures !IsItem(old(db.items), itemId) ==> unchanged(db) && r == Failure(InvalidItem, None)
    ensures IsItem(old(db.items), itemId) ==>
      Posted(old(db.users), old(db.likeStates), old(db.conversations), old(db.items)[itemId].owner, uid, itemId,
             receiver, Message(uid, old(db.users)[uid].name, text, now), now, old(db.nextId), db.users, db.conversations, r)
    ensures old(db.Coherent()) ==> db.Coherent()
  {
    var found := PopulateItem(db.items, itemId);
    if found.Halted? {
      return Stop(found.halt);
    }
    var iid := itemId as ItemId;
    var d := Decide(db.users, db.likeStates, db.conversations, found.value.owner, uid, iid, receiver);
    if d.Declined? {
      return Failure(d.code, None);
    }
    var m := Message(uid, db.users[uid].name, text, now);
    ghost var users0, convs0, next := db.users, db.conversations, db.nextId;
    r := Write(db, d, uid, iid, receiver, m, now);
    if StateCoherent(users0, db.likeStates, convs0) {
      PostedKeepsCoherent(users0, db.likeStates, convs0, found.value.owner, uid, iid, receiver, m, now, next,
                          db.users, db.conversations, r);
    }
  }
}
