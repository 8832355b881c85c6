/** Attaching an uploaded picture to an item. The picture is already in the
    blob store when the handler runs; when the request is refused the blob
    is deleted again. */
module ImageHandler {
  import opened Common
  import opened ErrorCodes
  import opened Models
  import opened Base

  /** Every image of every item has its blob in the store. */
  ghost predicate ImagesBacked(items: map<ItemId, Item>, blobs: set<BlobKey>) {
    forall i, k :: i in items && 0 <= k < |items[i].images| ==> items[i].images[k].blobKey in blobs
  }

  /** No stored image uses the blob. */
  ghost predicate Unused(items: map<ItemId, Item>, key: BlobKey) {
    forall i, k :: i in items && 0 <= k < |items[i].images| ==> items[i].images[k].blobKey != key
  }

  /** An item with one more picture at the end. */
  function WithImage(item: Item, image: Image): (item': Item)
    ensures item'.owner == item.owner
    ensures |item'.images| == |item.images| + 1 && item'.images[..|item.images|] == item.images
    ensures item'.images[|item.images|] == image
  {
    item.(images := item.images + [image])
  }

  /** Deleting an unused blob, or attaching a stored blob to an item, keeps
      every image backed by a stored blob. */
  lemma UploadKeepsImagesBacked(items: map<ItemId, Item>, blobs: set<BlobKey>, iid: ItemId, key: BlobKey, url: string)
    requires ImagesBacked(items, blobs)
    ensures Unused(items, key) ==> ImagesBacked(items, blobs - {key})
    ensures iid in items && key in blobs ==>
      ImagesBacked(items[iid := WithImage(items[iid], Image(key, url))], blobs)
  {
    if iid in items && key in blobs {
      var items1 := items[iid := WithImage(items[iid], Image(key, url))];
      forall i, k | i in items1 && 0 <= k < |items1[i].images|
        ensures items1[i].images[k].blobKey in blobs
      {
        if i == iid && k < |items[iid].images| {
          assert items1[i].images[k] == items[iid].images[k];
        }
      }
    }
  }

  /** The outcome of reading the form's `item_id`: absent (the form lookup
      raises), empty or not a number (refused), or the id. */
  function FormItemId(form: Option<string>, b: Builtins): Loaded<int> {
    match form
    case None => Halted(Abort)
    case Some(s) =>
      if s == "" then Halted(Refuse(MalformedRequest, None))
      else match b.toInt(JStr(s))
        case Cast(i) => Loaded(i)
        case ValueErr => Halted(Refuse(MalformedRequest, None))
        case TypeErr => Halted(Abort)
  }

  /** Upload a picture for an item (`POST /item/image/upload`). `uploads`
      are the keys of the blobs the request carried, `form` the value of the
      form field `item_id`, and `servingUrl` the image service. */
  method Upload(db: Datastore, blobs: BlobStore, uploads: seq<BlobKey>, form: Option<string>, b: Builtins,
                auth: AuthResult, servingUrl: BlobKey -> string)
    returns (r: Reply<()>)
    modifies db`items, blobs
    ensures uploads == [] ==> r == Failure(UploadFailed, None) && unchanged(db) && unchanged(blobs)
    ensures uploads != [] && FormItemId(form, b) == Halted(Abort) ==>
      r == Crash && unchanged(db) && unchanged(blobs)
    ensures uploads != [] && FormItemId(form, b).Halted? && FormItemId(form, b).halt.Refuse? ==>
      r == Failure(MalformedRequest, None) && unchanged(db) && blobs.blobs == old(blobs.blobs) - {uploads[0]}
    ensures uploads != [] && FormItemId(form, b).Loaded? && !auth.Authenticated? ==>
      r == Stop(AuthError(auth)) && unchanged(db)
      && blobs.blobs == if auth.LookupRaised? then old(blobs.blobs) else old(blobs.blobs) - {uploads[0]}
    ensures (uploads != [] && FormItemId(form, b).Loaded? && auth.Authenticated?
             && !RegisteredAs(old(db.users), auth.thirdPartyId)) ==>
      r == Failure(InvalidUser, None) && unchanged(db) && blobs.blobs == old(blobs.blobs) - {uploads[0]}
    ensures (uploads != [] && FormItemId(form, b).Loaded? && auth.Authenticated?
             && RegisteredAs(old(db.users), auth.thirdPartyId)) ==>
      exists uid :: IsCaller(old(db.users), auth, uid)
        && var found := PopulateItemForMutation(old(db.items), uid, FormItemId(form, b).value);
        if found.Halted? then
          r == Stop(found.halt) && unchanged(db) && blobs.blobs == old(blobs.blobs) - {uploads[0]}
        else
          var iid := FormItemId(form, b).value as ItemId;
          r == Success(()) && blobs.blobs == old(blobs.blobs)
          && db.items == old(db.items)[iid := WithImage(old(db.items)[iid], Image(uploads[0], servingUrl(uploads[0])))]
  {
    if uploads == [] {
      return Failure(UploadFailed, None);
    }
    var key := uploads[0];
    var itemId := FormItemId(form, b);
    if itemId == Halted(Abort) {
      return Crash;
    }
    if itemId.Halted? {
      blobs.blobs := blobs.blobs - {key};
      return Stop(itemId.halt);
    }
    var loaded := PopulateUser(db, auth);
    if loaded.Halted? {
      // A lookup that raises leaves before the blob is deleted.
      if loaded.halt.Refuse? {
        blobs.blobs := blobs.blobs - {key};
      }
      return Stop(loaded.halt);
    }
    var found := PopulateItemForMutation(db.items, loaded.value, itemId.value);
    if found.Halted? {
      blobs.blobs := blobs.blobs - {key};
      return Stop(found.halt);
    }
    var iid := itemId.value as ItemId;
    db.items := db.items[iid := WithImage(found.value, Image(key, servingUrl(key)))];
    r := Success(());
  }
}
