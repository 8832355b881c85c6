/** Polling for updates: the messages posted in the caller's ongoing
    conversations since the caller last polled, and which of the items the
    caller names have been deleted. */
module UpdatesHandler {
  import opened Common
  import opened ErrorCodes
  import opened Models
  import opened Base

  /** An optional `item_ids` list, shorter than `maxItems`. */
  function UpdatesSchema(maxItems: nat): Schema {
    map["item_ids" := FieldSpec(ListKind, false, Some((v: Value) => v.VList? && |v.elems| < maxItems))]
  }

  /** One new message, as reported to the caller. */
  datatype Update = Update(userName: Option<string>, text: string, itemId: ItemId, sent: int)

  /** The answer to a poll: the new messages and the deleted item ids. */
  datatype Digest = Digest(messages: seq<Update>, deleted: seq<int>)

  // ---------- The item ids ----------

  /** `[long(i) for i in elems]`: every element converted, or the error of
      the first element that does not convert. */
  function ToInts(b: Builtins, elems: seq<Json>): CastResult<seq<int>>
    decreases |elems|
  {
    if elems == [] then Cast([])
    else match ToInts(b, elems[..|elems| - 1])
      case Cast(xs) =>
        (match b.toInt(elems[|elems| - 1])
         case Cast(i) => Cast(xs + [i])
         case ValueErr => ValueErr
         case TypeErr => TypeErr)
      case ValueErr => ValueErr
      case TypeErr => TypeErr
  }

  /** A converted list has one entry per element, each the element converted;
      a failed conversion fails at some element, and every element before it
      converts. */
  lemma {:induction false} ToIntsSpec(b: Builtins, elems: seq<Json>)
    ensures ToInts(b, elems).Cast? ==>
      |ToInts(b, elems).value| == |elems|
      && forall k :: 0 <= k < |elems| ==> b.toInt(elems[k]) == Cast(ToInts(b, elems).value[k])
    ensures !ToInts(b, elems).Cast? ==>
      exists k :: 0 <= k < |elems| && !b.toInt(elems[k]).Cast?
        && (b.toInt(elems[k]).ValueErr? <==> ToInts(b, elems).ValueErr?)
        && forall j :: 0 <= j < k ==> b.toInt(elems[j]).Cast?
    decreases |elems|
  {
    if elems != [] {
      var init := elems[..|elems| - 1];
      ToIntsSpec(b, init);
      if ToInts(b, init).Cast? && !ToInts(b, elems).Cast? {
        assert forall j :: 0 <= j < |init| ==> b.toInt(elems[j]) == b.toInt(init[j]);
      } else if !ToInts(b, init).Cast? {
        var k :| 0 <= k < |init| && !b.toInt(init[k]).Cast?
          && (b.toInt(init[k]).ValueErr? <==> ToInts(b, init).ValueErr?)
          && forall j :: 0 <= j < k ==> b.toInt(init[j]).Cast?;
        assert elems[k] == init[k];
        assert forall j :: 0 <= j < k ==> elems[j] == init[j];
      }
    }
  }

  /** Once a prefix fails, the whole conversion fails the same way. */
  lemma {:induction false} ToIntsPrefixError(b: Builtins, elems: seq<Json>, n: nat)
    requires n <= |elems| && !ToInts(b, elems[..n]).Cast?
    ensures ToInts(b, elems) == ToInts(b, elems[..n])
    decreases |elems| - n
  {
    if n < |elems| {
      assert elems[..n + 1][..n] == elems[..n];
      ToIntsPrefixError(b, elems, n + 1);
    } else {
      assert elems[..n] == elems;
    }
  }

  /** The conversion loop. */
  method ConvertIds(b: Builtins, elems: seq<Json>) returns (c: CastResult<seq<int>>)
    ensures c == ToInts(b, elems)
  {
    var ids: seq<int> := [];
    var k := 0;
    while k < |elems|
      invariant 0 <= k <= |elems|
      invariant ToInts(b, elems[..k]) == Cast(ids)
    {
      assert elems[..k + 1][..k] == elems[..k];
      var one := b.toInt(elems[k]);
      if !one.Cast? {
        ToIntsPrefixError(b, elems, k + 1);
        return if one.ValueErr? then ValueErr else TypeErr;
      }
      ids := ids + [one.value];
      k := k + 1;
    }
    assert elems[..k] == elems;
    c := Cast(ids);
  }

  /** The ids a request asks about: none when it leaves `item_ids` out. */
  function IdsArg(req: Request, b: Builtins, maxItems: nat): CastResult<seq<int>>
    requires Admissible(req, UpdatesSchema(maxItems), b)
  {
    match OptListField(req, UpdatesSchema(maxItems), b, "item_ids")
    case None => Cast([])
    case Some(elems) => ToInts(b, elems)
  }

  /** Every asked-about id is one the caller has seen. */
  predicate AllSeen(ids: seq<int>, seen: seq<ItemId>) {
    forall k :: 0 <= k < |ids| ==> ids[k] >= 0 && ids[k] as ItemId in seen
  }

  /** The asked-about ids with no stored item, in the order asked. */
  function Deleted(items: map<ItemId, Item>, ids: seq<int>): (r: seq<int>)
    ensures |r| <= |ids|
    decreases |ids|
  {
    if ids == [] then []
    else Deleted(items, ids[..|ids| - 1]) + (if IsItem(items, ids[|ids| - 1]) then [] else [ids[|ids| - 1]])
  }

  /** An id is reported deleted exactly when it was asked about and has no
      stored item. */
  lemma {:induction false} DeletedSpec(items: map<ItemId, Item>, ids: seq<int>)
    ensures forall x :: x in Deleted(items, ids) <==> x in ids && !IsItem(items, x)
    decreases |ids|
  {
    if ids != [] {
      var init := ids[..|ids| - 1];
      DeletedSpec(items, init);
      assert ids == init + [ids[|ids| - 1]];
    }
  }

  /** The deleted-items loop. */
  method FindDeleted(items: map<ItemId, Item>, ids: seq<int>) returns (deleted: seq<int>)
    ensures deleted == Deleted(items, ids)
  {
    deleted := [];
    var k := 0;
    while k < |ids|
      invariant 0 <= k <= |ids|
      invariant deleted == Deleted(items, ids[..k])
    {
      assert ids[..k + 1][..k] == ids[..k];
      if !IsItem(items, ids[k]) {
        deleted := deleted + [ids[k]];
      }
      k := k + 1;
    }
    assert ids[..k] == ids;
  }

  // ---------- The messages ----------

  function UpdateOf(m: Message, item: ItemId): Update {
    Update(m.senderName, m.text, item, m.createDate)
  }

  /** The messages of a conversation created after `since`, in order. */
  function Fresh(ms: seq<Message>, item: ItemId, since: int): (r: seq<Update>)
    ensures |r| <= |ms|
    decreases |ms|
  {
    if ms == [] then []
    else
      var last := ms[|ms| - 1];
      Fresh(ms[..|ms| - 1], item, since) + (if last.createDate > since then [UpdateOf(last, item)] else [])
  }

  /** What one conversation contributes: nothing unless it was active after
      `since`. */
  function Activity(c: Conversation, since: int): seq<Update> {
    if c.lastActivityDate > since then Fresh(c.messages, c.item, since) else []
  }

  predicate AllStored(convs: map<ConversationId, Conversation>, ongoing: seq<ConversationId>) {
    forall k :: 0 <= k < |ongoing| ==> ongoing[k] in convs
  }

  /** The new messages of the ongoing conversations, conversation by
      conversation in the order the user lists them. */
  function NewMessages(convs: map<ConversationId, Conversation>, ongoing: seq<ConversationId>, since: int): seq<Update>
    requires AllStored(convs, ongoing)
    decreases |ongoing|
  {
    if ongoing == [] then []
    else NewMessages(convs, ongoing[..|ongoing| - 1], since) + Activity(convs[ongoing[|ongoing| - 1]], since)
  }

  /** A message is new in a conversation exactly when it was created after
      `since`. */
  lemma {:induction false} FreshSpec(ms: seq<Message>, item: ItemId, since: int)
    ensures forall u :: u in Fresh(ms, item, since) <==>
      exists j :: 0 <= j < |ms| && ms[j].createDate > since && u == UpdateOf(ms[j], item)
    decreases |ms|
  {
    if ms != [] {
      var init := ms[..|ms| - 1];
      FreshSpec(init, item, since);
      assert forall j :: 0 <= j < |init| ==> ms[j] == init[j];
    }
  }

  /** The poll reports a message exactly when it lies in an ongoing
      conversation active after `since` and was itself created after
      `since`. */
  lemma {:induction false} NewMessagesSpec(convs: map<ConversationId, Conversation>, ongoing: seq<ConversationId>, since: int)
    requires AllStored(convs, ongoing)
    ensures forall u :: u in NewMessages(convs, ongoing, since) <==>
      exists k, j :: 0 <= k < |ongoing| && convs[ongoing[k]].lastActivityDate > since
        && 0 <= j < |convs[ongoing[k]].messages| && convs[ongoing[k]].messages[j].createDate > since
        && u == UpdateOf(convs[ongoing[k]].messages[j], convs[ongoing[k]].item)
    decreases |ongoing|
  {
    if ongoing != [] {
      var init := ongoing[..|ongoing| - 1];
      var last := convs[ongoing[|ongoing| - 1]];
      NewMessagesSpec(convs, init, since);
      FreshSpec(last.messages, last.item, since);
      assert forall k :: 0 <= k < |init| ==> ongoing[k] == init[k];
    }
  }

  /** The inner loop: append the new messages of one conversation. */
  method ReadConversation(c: Conversation, since: int, acc: seq<Update>) returns (out: seq<Update>)
    ensures out == acc + Activity(c, since)
  {
    out := acc;
    if c.lastActivityDate <= since {
      return;
    }
    var j := 0;
    while j < |c.messages|
      invariant 0 <= j <= |c.messages|
      invariant out == acc + Fresh(c.messages[..j], c.item, since)
    {
      assert c.messages[..j + 1][..j] == c.messages[..j];
      var m := c.messages[j];
      if m.createDate > since {
        out := out + [UpdateOf(m, c.item)];
      }
      j := j + 1;
    }
    assert c.messages[..j] == c.messages;
  }

  /** The outer loop over the ongoing conversations; reading a conversation
      that is not stored raises. */
  method CollectMessages(convs: map<ConversationId, Conversation>, ongoing: seq<ConversationId>, since: int)
    returns (crashed: bool, messages: seq<Update>)
    ensures crashed <==> !AllStored(convs, ongoing)
    ensures !crashed ==> messages == NewMessages(convs, ongoing, since)
  {
    if !AllStored(convs, ongoing) {
      // The batch read yields None for the missing conversation, and the
      // loop reads its activity date.
      return true, [];
    }
    messages := [];
    var k := 0;
    while k < |ongoing|
      invariant 0 <= k <= |ongoing|
      invariant messages == NewMessages(convs, ongoing[..k], since)
    {
      assert ongoing[..k + 1][..k] == ongoing[..k];
      messages := ReadConversation(convs[ongoing[k]], since, messages);
      k := k + 1;
    }
    assert ongoing[..k] == ongoing;
    crashed := false;
  }

  // ---------- The handler ----------

  /** What a poll by `uid` asking about `ids` answers and writes, once the
      ids are converted and the caller is known. */
  ghost predicate PollOutcome(
    users0: map<UserId, User>, items: map<ItemId, Item>, convs: map<ConversationId, Conversation>,
    uid: UserId, ids: seq<int>, now: int, users1: map<UserId, User>, r: Reply<Digest>)
    requires uid in users0
  {
    var user := users0[uid];
    if !AllSeen(ids, user.seenItemIds) then users1 == users0 && r == Failure(InvalidItem, None)
    else if !AllStored(convs, user.ongoingConversations) then users1 == users0 && r == Crash
    else
      r == Success(Digest(NewMessages(convs, user.ongoingConversations, user.lastActive), Deleted(items, ids)))
      && users1 == users0[uid := user.(lastActive := now)]
  }

  /** In a store where every ongoing conversation is stored, a poll of seen
      ids succeeds, and the next poll starts from its time. */
  lemma StoredPollSucceeds(
    users0: map<UserId, User>, items: map<ItemId, Item>, convs: map<ConversationId, Conversation>,
    uid: UserId, ids: seq<int>, now: int, users1: map<UserId, User>, r: Reply<Digest>)
    requires uid in users0 && OngoingStored(users0, convs) && AllSeen(ids, users0[uid].seenItemIds)
    requires PollOutcome(users0, items, convs, uid, ids, now, users1, r)
    ensures r.Success? && uid in users1 && users1[uid].lastActive == now
    ensures users1[uid].seenItemIds == users0[uid].seenItemIds
    ensures users1[uid].ongoingConversations == users0[uid].ongoingConversations
  {
    assert AllStored(convs, users0[uid].ongoingConversations);
  }

  /** The handler once the ids are converted: load the caller, check the
      ids, read the messages and the deleted items, and stamp the caller. */
  method Answer(db: Datastore, auth: AuthResult, ids: seq<int>, now: int) returns (r: Reply<Digest>)
    modifies db
    ensures db.items == old(db.items) && db.likeStates == old(db.likeStates)
    ensures db.conversations == old(db.conversations) && db.nextId == old(db.nextId)
    ensures !auth.Authenticated? ==> unchanged(db) && r == Stop(AuthError(auth))
    ensures auth.Authenticated? && !RegisteredAs(old(db.users), auth.thirdPartyId) ==>
      unchanged(db) && r == Failure(InvalidUser, None)
    ensures auth.Authenticated? && RegisteredAs(old(db.users), auth.thirdPartyId) ==>
      exists uid :: IsCaller(old(db.users), auth, uid)
        && PollOutcome(old(db.users), db.items, db.conversations, uid, ids, now, db.users, r)
  {
    var loaded := PopulateUser(db, auth);
    if loaded.Halted? {
      return Stop(loaded.halt);
    }
    var uid := loaded.value;
    var user := db.users[uid];
    if !AllSeen(ids, user.seenItemIds) {
      return Failure(InvalidItem, None);
    }
    var crashed, messages := CollectMessages(db.conversations, user.ongoingConversations, user.lastActive);
    if crashed {
      return Crash;
    }
    var deleted := FindDeleted(db.items, ids);
    db.users := db.users[uid := user.(lastActive := now)];
    r := Success(Digest(messages, deleted));
  }

  /** Poll for updates (`GET /updates`). `now` is read before anything else;
      `maxItems` bounds the number of ids a poll may ask about. */
  method Poll(db: Datastore, req: Request, b: Builtins, auth: AuthResult, now: int, maxItems: nat)
    returns (r: Reply<Digest>)
    modifies db
    ensures db.items == old(db.items) && db.likeStates == old(db.likeStates)
    ensures db.conversations == old(db.conversations) && db.nextId == old(db.nextId)
    ensures !Admissible(req, UpdatesSchema(maxItems), b) ==>
      unchanged(db) && (r == Failure(MalformedRequest, None) || (r.Crash? && MayRaise(req, UpdatesSchema(maxItems), b)))
    ensures ArgsSource(req).Raises? ==> r == Crash
    ensures Admissible(req, UpdatesSchema(maxItems), b) && IdsArg(req, b, maxItems).ValueErr? ==>
      unchanged(db) && r == Failure(MalformedRequest, None)
    ensures Admissible(req, UpdatesSchema(maxItems), b) && IdsArg(req, b, maxItems).TypeErr? ==>
      unchanged(db) && r == Crash
    ensures Admissible(req, UpdatesSchema(maxItems), b) && IdsArg(req, b, maxItems).Cast? && !auth.Authenticated? ==>
      unchanged(db) && r == Stop(AuthError(auth))
    ensures (Admissible(req, UpdatesSchema(maxItems), b) && IdsArg(req, b, maxItems).Cast? && auth.Authenticated?
             && !RegisteredAs(old(db.users), auth.thirdPartyId)) ==>
      unchanged(db) && r == Failure(InvalidUser, None)
    ensures (Admissible(req, UpdatesSchema(maxItems), b) && IdsArg(req, b, maxItems).Cast? && auth.Authenticated?
             && RegisteredAs(old(db.users), auth.thirdPartyId)) ==>
      exists uid :: IsCaller(old(db.users), auth, uid)
        && PollOutcome(old(db.users), db.items, db.conversations, uid, IdsArg(req, b, maxItems).value, now, db.users, r)
    ensures old(db.Coherent()) ==> db.Coherent()
  {
    var p := ParseRequest(req, UpdatesSchema(maxItems), b);
    if !p.Parsed? {
      return if p.Raised? then Crash else Failure(MalformedRequest, None);
    }
    var ids: seq<int> := [];
    var given := OptListField(req, UpdatesSchema(maxItems), b, "item_ids");
    if given.Some? {
      var c := ConvertIds(b, given.value);
      if c.ValueErr? {
        return Failure(MalformedRequest, None);
      } else if c.TypeErr? {
        return Crash;
      }
      ids := c.value;
    }
    ghost var users0 := db.users;
    r := Answer(db, auth, ids, now);
    if StateCoherent(users0, db.likeStates, db.conversations) && db.users != users0 {
      var uid :| uid in users0 && db.users == users0[uid := users0[uid].(lastActive := now)];
      StampKeepsCoherent(users0, db.likeStates, db.conversations, uid, now);
    }
  }

  /** Stamping the caller's last poll time keeps the store coherent. */
  lemma StampKeepsCoherent(users: map<UserId, User>, likes: map<LikeStateId, LikeState>,
                           convs: map<ConversationId, Conversation>, uid: UserId, now: int)
    requires StateCoherent(users, likes, convs) && uid in users
    ensures StateCoherent(users[uid := users[uid].(lastActive := now)], likes, convs)
  {
    var users1 := users[uid := users[uid].(lastActive := now)];
    assert forall u :: u in users1 ==>
      (u in users && users1[u].seenItemIds == users[u].seenItemIds
       && users1[u].ongoingConversations == users[u].ongoingConversations);
  }

  // ---------- The length check as written ----------

  /** The parse as written: the length check reads `constants.MAX_ITEMS`,
      which the constants module does not define, so a poll that supplies
      `item_ids` raises as soon as the list is read. */
  function ParseAsWritten(req: Request, b: Builtins): Parse {
    match ArgsSource(req)
    case Refused => Rejected
    case Raises => Raised
    case Args(d) =>
      if "item_ids" !in Names(d) then (if Names(d) == {} then Parsed(map[]) else Rejected)
      else match Fetch(d, "item_ids", ListKind, b)
        case ValueErr => Rejected
        case TypeErr => Raised
        case Cast(_) => Raised
  }

  /** `GET /updates?item_ids=7`: the code as written raises, while with the
      bound in place the request parses. */
  lemma PollWithIdsRaisesAsWritten(b: Builtins)
    ensures var req := Request("GET", "", [("item_ids", "7")], None);
      ParseAsWritten(req, b) == Raised && Admissible(req, UpdatesSchema(2), b)
  {
    var req := Request("GET", "", [("item_ids", "7")], None);
    var d := QueryArgs(req.query);
    assert req.query[0].0 == "item_ids";
    assert Names(d) == {"item_ids"};
    assert AllValues(req.query, "item_ids") == ["7"];
    assert FieldOk(d, "item_ids", UpdatesSchema(2)["item_ids"], b);
  }
}
