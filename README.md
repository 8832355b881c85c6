# instabuy-server request handlers, modelled in Dafny

instabuy-server is the back end of a location-based marketplace. Users sign
in with a Facebook token. They post items with pictures and a location,
browse the unseen items near them, like or dislike items, and chat with a
seller about an item they liked. Each HTTP handler parses and checks its
arguments, loads the caller and the item, changes the stored records, and
answers with a JSON document.

This project models those handlers:

- `Common`, `ErrorCodes` and `Models`: the records and the error codes.
- `Datastore`: one class that holds a map per record kind and a single id
  counter. The search index and the blob store are classes too.
- `Base`: the schema-driven argument parser, the two response builders, and
  the loaders for the caller, the item, and an item the caller may change.
- One module per handler:
  - `ItemHandlers`: post, delete, and the nearby-items list.
  - `LikeStateHandler`: like or dislike an item.
  - `ConversationHandler`: post a chat message.
  - `UpdatesHandler`: poll for new messages and deleted items.
  - `ImageHandler`: attach an uploaded picture to an item.
  - `UserHandler`: register an account.
- `Seqs` and `Text`: list edits and string handling that the handlers rely on
  (Python's `list.index`/`del`, list comprehensions, `str.lower`,
  `str.split`, `str.join`).

Each handler is a method that returns a `Reply`:

- `Success` with its payload;
- `Failure` with an error code and an optional message, which is the 400
  response;
- `Crash`, an exception nothing catches, which the platform turns into its
  own server error.

Each handler's contract covers every one of these outcomes. It also states
what the handler leaves in the store, and that a coherent store stays
coherent. A coherent store has these properties:

- There is one like state per (user, item).
- A user's seen list holds exactly the items the user reacted to, with no
  repeats.
- There is one conversation per (item, buyer).
- Every conversation id in a user's list is stored.

Services outside the program are parameters:

- the Facebook token lookup (`AuthResult`: a third-party id, an expired
  token, a provider failure, or an exception the handlers do not catch);
- Python's casts (`Builtins`: each cast succeeds, raises `ValueError`, or
  raises `TypeError`);
- the clock (`now`);
- whether the search index refuses a write;
- the ranked hits of a search query and the encoding of cursors
  (`SearchService`);
- the image serving URL.

One path of the delete handler is easy to misread. When the index refuses
the document's deletion, the `except search.Error` branch
(handlers/item.py:126-129) only logs it, and the handler goes on. But
`index_future` is then unbound when it is awaited at handlers/item.py:136,
so the handler raises after every other write, the item's own deletion
included. `ItemHandlers.Delete` answers `Crash` in that case, with all the
deletions done.

## Model

| member | source | states |
|---|---|---|
| `ErrorCodes.CodeIdentifiesError` | error_codes.py:7-20 | two error codes have the same number only when they are the same error |
| `Models.NewUser` | handlers/user.py:35-36 | a registered account uses Facebook login, carries the third-party id, has seen nothing, and is in no conversation |
| `Models.Datastore.NewId` | handlers/item.py:33-34 | a stored record gets an id that no record of any kind uses, and later ids stay fresh |
| `Base.ParseRequest` | handlers/base.py:19-64 | methods other than GET/POST and POSTs that are not JSON are refused; the parse succeeds exactly when every schema field passes and nothing outside the schema was sent; the arguments are then the converted values; it raises only where a cast raises TypeError or the body is not a JSON object, and a JSON POST whose body is not an object always raises (the decode and `.keys()` lie outside the `try`) |
| `Base.ParseArgs` | handlers/base.py:40-64 | the loop over the schema stops at the first required field that is absent, at a cast that fails, or at a check that refuses; otherwise it accepts exactly when no extra name was sent |
| `Base.AllFieldsPassed` | handlers/base.py:61-64 | once every field has passed, comparing the number of seen fields with the number of distinct names sent is the same as checking that no name lies outside the schema |
| `Base.ParsedArgsExact` | handlers/base.py:44-58 | a parsed request holds exactly the names it sent; every required field is present; each value has its schema type and passes its check |
| `Base.ErrorResponse` | handlers/base.py:66-73 | status 400 with the error's name and number; `message` is present exactly when a non-empty message is given |
| `Base.SuccessResponse` | handlers/base.py:75-79 | status 200 with every payload entry |
| `Base.Respond` | handlers/base.py:66-79 | a raising handler gives no response of its own; otherwise the status is 200 exactly for a success, a success carries every payload entry, and a failure is a 400 naming its error by name and number |
| `Base.ResponseIdentifiesFailure` | handlers/base.py:66-73 | two failures the client receives as the same response carry the same error code |
| `Base.AuthError` | handlers/base.py:97-105 | an expired token is reported as `FacebookTokenError`, any other provider failure as `FacebookError` with the provider's message, and a lookup that raises anything else (a request without a token header among them) crashes the handler |
| `Base.PopulateUser` | handlers/base.py:81-115 | a failed token lookup stops with its auth error; otherwise the caller is loaded exactly when an account has that third-party id, and `InvalidUser` is answered when none has |
| `Base.PopulateItem` | handlers/base.py:117-136 | the item is loaded exactly when the id names a stored item, and `InvalidItem` is answered otherwise |
| `Base.PopulateItemForMutation` | handlers/base.py:138-163 | the item is loaded exactly when it exists and the caller owns it; a missing item gives `InvalidItem` and another user's item gives `UserPermissionError` |
| `Seqs.RemoveFirstCutsIndex` | handlers/item.py:103-104 | deleting at `list.index(x)` removes exactly that slot and keeps the rest in order |
| `Seqs.RemoveFirstCounts` | handlers/item.py:103-104 | the deletion removes exactly one occurrence |
| `Seqs.RemoveFirstOfDistinct` | handlers/item.py:100-104 | in a list without repeats the id is gone afterwards, and every other member stays |
| `Seqs.WithoutMembers` | handlers/item.py:107-109 | the comprehension keeps exactly the members that are not dropped |
| `Seqs.AppendFreshDistinct` | handlers/like_state.py:40 | appending an id the list lacks keeps the list free of repeats |
| `Text.Lower` | handlers/item.py:177 | lower-casing keeps the length and maps each character |
| `Text.LowerHasNoUpper` | handlers/item.py:177 | the lower-cased text has no upper-case letter and keeps whitespace where it was |
| `Text.SplitSpec` | handlers/item.py:177 | `split()` yields non-empty words without whitespace that together give the text minus its whitespace |
| `Text.JoinStartsWithFirst` | handlers/item.py:186 | a joined query starts with its first clause |
| `Text.NatDigitsRoundTrip` | handlers/item.py:171 | the decimal rendering of an id reads back as the same id |
| `ItemHandlers.OutOfRangeRefused` | handlers/item.py:17-27 | a latitude outside [-90, 90] or a longitude outside [-180, 180] makes the post request malformed |
| `ItemHandlers.PostedDocument` | handlers/item.py:37-53 | the search document carries the poster's id and coordinates within range |
| `ItemHandlers.Post` | handlers/item.py:14-63 | malformed, unauthenticated and unknown callers are refused with nothing stored; when indexing fails the item is rolled back and `IndexingError` answered; a registered caller's well-formed post succeeds exactly when the index accepts; on success the returned id is fresh, names a new item owned by the caller without images, and keys the caller's document in the index |
| `ItemHandlers.Store` | handlers/item.py:33-61 | the item is written under a fresh id; if the index refuses, the items and the documents are as before; otherwise both hold the new entry |
| `ItemHandlers.LikesWithout` | handlers/item.py:82-84 | exactly the like states of other items survive, unchanged |
| `ItemHandlers.ConversationsAbout` | handlers/item.py:87-90 | exactly the ids of the conversations about the item |
| `ItemHandlers.ConversationsWithout` | handlers/item.py:86-89 | exactly the conversations about other items survive, unchanged |
| `ItemHandlers.ScrubUsers` | handlers/item.py:92-109 | every account stays, and accounts that hold neither the item nor one of its conversations are untouched |
| `ItemHandlers.ScrubUserEdits` | handlers/item.py:100-109 | a scrubbed seen list loses exactly the slot `index` finds; the ongoing list keeps exactly the conversations that were not deleted |
| `ItemHandlers.ScrubUsersEffect` | handlers/item.py:92-109 | after the scan no seen list holds the item, every other seen id stays, lists keep no repeats, and no ongoing list names a deleted conversation |
| `ItemHandlers.DeleteKeepsCoherent` | handlers/item.py:80-132 | deleting an item keeps a coherent store coherent, and no like state, conversation or seen list refers to the item afterwards |
| `ItemHandlers.ScrubAll` | handlers/item.py:93-110 | the scan over users leaves exactly the scrubbed accounts |
| `ItemHandlers.BlobKeys` | handlers/item.py:117-118 | exactly the blob keys of the item's images |
| `ItemHandlers.Detach` | handlers/item.py:80-120 | the item's like states, its conversations and its blobs go, the users are scrubbed, and coherence is kept |
| `ItemHandlers.Cascade` | handlers/item.py:80-137 | everything that refers to the item goes, then the document unless the index refuses, then the item, and coherence is kept |
| `ItemHandlers.Delete` | handlers/item.py:66-138 | malformed requests, unknown callers, missing items and other users' items change nothing, each with its code; a well-formed delete of an existing item by its owner performs the whole cascade and succeeds exactly when the index accepts (and crashes otherwise), and one by another user is answered `UserPermissionError` |
| `ItemHandlers.DeleteAsWrittenStrandsSeller` | handlers/item.py:92-109 | a store where the scan as written leaves a seller listing a deleted conversation, while the intended scan keeps it coherent |
| `ItemHandlers.Stemmed` | handlers/item.py:177 | one `~`-marked term per word, in order |
| `ItemHandlers.SearchTermsStemmed` | handlers/item.py:174-178 | the free-text clause joins one `~` term per whitespace-separated word of the lower-cased query |
| `ItemHandlers.QueryShape` | handlers/item.py:167-178 | the query starts with the distance clause and the clause that excludes the caller's items; a category clause and a text clause appear only when given, in that order |
| `ItemHandlers.BuildQuery` | handlers/item.py:167-178 | the appends produce the clause list of `QueryShape` |
| `ItemHandlers.Unseen` | handlers/item.py:191-194 | the kept hits are no more than the hits, and none of them has been seen |
| `ItemHandlers.UnseenSpec` | handlers/item.py:191-194 | a hit is kept exactly when its item was not seen |
| `ItemHandlers.UnseenKeepsRank` | handlers/item.py:181-194 | the kept hits stay in rank order: the unseen hits among the first ones come first |
| `ItemHandlers.Listings` | handlers/item.py:196-217 | one listing per hit, in order, with its document and image URLs |
| `ItemHandlers.CursorOnlyWhenFull` | handlers/item.py:181-189 | a cursor is returned only when at least five unseen hits remained from the start |
| `ItemHandlers.ListResultSpec` | handlers/item.py:181-233 | at most five results, none seen, each a stored item; the k-th result is the listing of the k-th unseen hit from the start (so, with `UnseenSpec` and `UnseenKeepsRank`, the first unseen hits in rank order); fewer than five only when no unseen hit is left, and then no cursor |
| `ItemHandlers.ScanPage` | handlers/item.py:189-220 | reading a page adds the listings of its unseen hits in order until five results are held; it stops at an unseen hit without an item |
| `ItemHandlers.JoinPage` | handlers/item.py:184-220 | the unseen hits read so far are those before the page followed by those read from it |
| `ItemHandlers.CrashAt` | handlers/item.py:195-200 | an unseen hit without a stored item met before five results makes the handler raise |
| `ItemHandlers.ReadPage` | handlers/item.py:186-220 | one page continues the results; a full result set stops the page early |
| `ItemHandlers.Collect` | handlers/item.py:180-220 | the page loop raises exactly when a hit it must return has no item; otherwise it returns the first five unseen hits and the cursor after the last page read |
| `ItemHandlers.Search` | handlers/item.py:155-233 | the search fails with `SearchError` or lists the hits from the request's cursor |
| `ItemHandlers.List` | handlers/item.py:141-233 | malformed, unauthenticated and unknown callers are refused; otherwise the answer is the search outcome for the caller's query and seen items |
| `ItemHandlers.StoreAsWritten` | handlers/item.py:33-56 | a post as written stores the item under a fresh id and then crashes |
| `ItemHandlers.StoreAsWrittenUnindexes` | handlers/item.py:33-56 | the item a post as written leaves behind has no search document |
| `ItemHandlers.CascadeAsWritten` | handlers/item.py:80-124 | a delete as written removes the like states, the conversations, the users' entries and the blobs, then crashes with the item and its document still stored; the users are scrubbed by the corrected scan (`ItemHandlers.ScrubUsers`), so this member isolates the index-name defect from the scan defect |
| `ItemHandlers.CascadeAsWrittenOrphansImages` | handlers/item.py:117-124 | after a delete as written the item is still stored while the blobs behind its images are gone |
| `ItemHandlers.ListAsWritten` | handlers/item.py:141-180 | the list as written refuses malformed, unauthenticated and unknown callers as the list does, and crashes for every registered caller |
| `LikeStateHandler.SetFlagKeepsPairs` | handlers/like_state.py:32-33 | changing the flag of an existing like state adds and removes no (user, item) pair |
| `LikeStateHandler.AddStateAddsPair` | handlers/like_state.py:34-41 | a new like state adds exactly its pair and keeps one like state per pair |
| `LikeStateHandler.UpsertKeepsCoherent` | handlers/like_state.py:26-43 | a reaction keeps the store coherent, leaves exactly one copy of the item id in the seen list, and leaves one like state for the pair, carrying the new flag |
| `LikeStateHandler.Apply` | handlers/like_state.py:26-43 | an existing like state only gets the new flag and no user changes; otherwise a new like state is stored and the item id is appended to the seen list |
| `LikeStateHandler.Post` | handlers/like_state.py:8-44 | malformed requests, unknown callers and unknown items change nothing; a well-formed request from a registered caller about a stored item succeeds and performs the upsert |
| `ConversationHandler.Appended` | handlers/conversation.py:74-79 | the message is appended after the earlier messages, which stay in order; the item and the buyer are kept |
| `ConversationHandler.Enrol` | handlers/conversation.py:84-86 | the conversation id is appended to the ongoing list and nothing else changes |
| `ConversationHandler.JoinedEnrolsBoth` | handlers/conversation.py:81-87 | a new conversation enrols exactly the sender and the receiver, each once when they differ, and a sender writing to themself twice (the receiver is read back through the entity cache that already holds the enrolled sender); no one's seen list changes |
| `ConversationHandler.PostedOpensOnlyWhenLiked` | handlers/conversation.py:40-72 | a new conversation is opened only by the buyer, only when none exists for the item and buyer, and only after the buyer has seen and liked the item; a refusal changes nothing |
| `ConversationHandler.PostedKeepsCoherent` | handlers/conversation.py:40-87 | a message keeps conversations unique per item and buyer, and every listed conversation stored |
| `ConversationHandler.AppendKeepsCoherent` | handlers/conversation.py:78-79 | rewriting a conversation under the same item and buyer keeps the store coherent |
| `ConversationHandler.OpenKeepsCoherent` | handlers/conversation.py:70-87 | storing the first conversation for an item and buyer and enrolling its participants keeps the store coherent |
| `ConversationHandler.Decide` | handlers/conversation.py:30-68 | a non-owner writing to someone other than the owner gives `InvalidUser`; an existing conversation is chosen; otherwise the seller gets `MalformedRequest`, and a buyer who has not seen or liked the item gets `InvalidItem` |
| `ConversationHandler.Write` | handlers/conversation.py:70-87 | an existing conversation gets the message; a new one is stored under a fresh id with both participants enrolled (a sender writing to themself twice), or the handler raises when the receiver has no account |
| `ConversationHandler.Send` | handlers/conversation.py:19-91 | an unknown item changes nothing; otherwise the outcome and the writes are those of the posting rules, and coherence is kept |
| `ConversationHandler.Post` | handlers/conversation.py:8-91 | malformed requests, including an empty message, and unknown callers change nothing; otherwise the message is posted by the rules |
| `UpdatesHandler.ToIntsSpec` | handlers/updates.py:26-29 | a successful conversion turns each element into its integer, in order; a failed one fails at an element that does not convert, after elements that all do |
| `UpdatesHandler.ConvertIds` | handlers/updates.py:24-29 | the loop converts the ids as `ToInts` describes |
| `UpdatesHandler.DeletedSpec` | handlers/updates.py:64-71 | an id is reported deleted exactly when it was asked about and has no item |
| `UpdatesHandler.FindDeleted` | handlers/updates.py:64-71 | the loop reports the asked-about ids without an item, in the order asked |
| `UpdatesHandler.FreshSpec` | handlers/updates.py:52-55 | a message of a conversation is reported exactly when it was created after the last poll |
| `UpdatesHandler.NewMessagesSpec` | handlers/updates.py:44-62 | a message is reported exactly when it lies in an ongoing conversation active after the last poll and was itself created after it |
| `UpdatesHandler.ReadConversation` | handlers/updates.py:48-62 | the inner loop appends the conversation's new messages when it was active after the last poll |
| `UpdatesHandler.CollectMessages` | handlers/updates.py:44-62 | the outer loop raises exactly when a listed conversation is not stored; otherwise it gathers the new messages conversation by conversation |
| `UpdatesHandler.StoredPollSucceeds` | handlers/updates.py:38-78 | in a store whose listed conversations exist, a poll of seen ids succeeds and stamps the caller with its time, leaving the caller's lists alone |
| `UpdatesHandler.Answer` | handlers/updates.py:34-80 | unknown callers change nothing; unseen ids give `InvalidItem`; otherwise the new messages and the deleted ids are answered and the caller's last poll time advances |
| `UpdatesHandler.Poll` | handlers/updates.py:12-80 | a list that is too long or holds a non-integer is malformed; otherwise the poll outcome for the converted ids; coherence is kept |
| `UpdatesHandler.StampKeepsCoherent` | handlers/updates.py:76-78 | advancing the last poll time keeps the store coherent |
| `UpdatesHandler.PollWithIdsRaisesAsWritten` | handlers/updates.py:20-21 | a poll that supplies `item_ids` raises as written, although the bounded check accepts it |
| `ImageHandler.WithImage` | handlers/image.py:47-52 | one image is appended after the item's images, which stay in order; the owner is kept |
| `ImageHandler.UploadKeepsImagesBacked` | handlers/image.py:41-52 | deleting an unused blob, or attaching a stored blob, keeps every image backed by a stored blob |
| `ImageHandler.Upload` | handlers/image.py:18-54 | no upload gives `UploadFailed` with nothing changed; a missing `item_id` raises and keeps the blob; a malformed id, a refused login, an unknown item or another user's item deletes the uploaded blob and changes nothing else; a lookup that raises keeps the blob; success appends exactly one image to the item |
| `UserHandler.RegisterKeepsInvariants` | handlers/user.py:28-38 | a new account for an unregistered third-party id keeps ids unique and the store coherent, and the login then resolves to that account alone |
| `UserHandler.Register` | handlers/user.py:9-38 | a missing token raises; an empty token is malformed; a failed lookup gives its auth error; a registered id gives `AccountExists`; otherwise exactly one account is added |

## Left out

- Facebook lookup: the HTTP call and the parsing of the reply are a
  parameter (`AuthResult`).
- Python's casts: `str`, `float`, `int`, `long` and `list` are a parameter
  (`Builtins`), because their behaviour on JSON values is Python's own.
- Futures: writes that are started asynchronously are treated as done.
  Concurrent requests are not modelled.
- Times and floats: dates are integers and coordinates are reals. The
  timestamp and date strings in the poll answer, and the JSON rendering of
  payloads, are not modelled. The image URLs and documents of a listing, and
  the update records of a poll, stand for those JSON values.
- Search: the geo distance, stemming and ranking are the `SearchService`
  parameter. Cursors stand for offsets into the ranked hits.
- The user scan of delete: it pages with the misspelt keyword `start_cusor`
  (handlers/item.py:99). The datastore library drops an unknown query
  option only while its value is `None`, so the first page is read and the
  second call, which carries a real cursor, raises `TypeError`. A delete
  therefore raises once more than `NUM_USERS_PER_PAGE` (300,
  constants.py:10) users have seen the item, after the like states, the
  conversations and the first page of users have been written. The model
  makes one pass over every account the scan must visit.
- Blob store internals: the serving URLs and their deletion are not
  modelled, nor is the creation of upload URLs (`GetUploadUrl`).
- Routing and other handlers: the routing table, the development handlers,
  and the superseded `handlers.py`/`instabuy_handler.py` are not part of this
  model.
- Unmodelled record fields: `models.py` has no name, ongoing conversations,
  last-active time, conversation or message. Their shapes follow the
  handlers that use them. A message's creation date and a conversation's
  activity date are the time of the write.
- Models.NewUser: the last-active time of a new account is 0, since the
  stored model has no default for it.
- Base.PopulateItem: the datastore refuses a key whose id is 0 or negative
  with an exception the handlers do not catch, so such an `item_id` crashes
  the handler; the model answers `InvalidItem` for it, and its id counter
  starts at 0 rather than at the datastore's first id.
- ItemHandlers.Post: a search field constructor may raise `ValueError` for
  a value the search service will not take; that escapes the handler's
  `except search.Error` and leaves the stored item without a document. The
  model has only the index's refusal (`indexFails`).
- Queries with `.get()`: when several records match, the one returned is
  any of them (`:|`).
- ConversationHandler.Decide: the like-state lookup may pick a disliking
  state when a liking one also exists. A coherent store has only one, which
  `ConversationHandler.LikeReadIsDetermined` records. Also,
  `ndb.Key(models.User, receiver_id)` at handlers/conversation.py:30 refuses
  a `receiver_id` of 0 or below with an exception, before any check, so the
  handler raises with nothing written. The model does not raise there: a
  negative receiver gets `InvalidUser` when the caller is not the item's
  owner and `MalformedRequest` when the caller is, and 0 is an ordinary id
  in the model, whose counter starts at 0.
- The length bound of `item_ids`: `constants.MAX_ITEMS` is not defined, so
  the bound is the parameter `maxItems` (see Findings).

## Findings

| source | as written | input that shows it | evidently intended | confidence | as-written member | corrected member |
|---|---|---|---|---|---|---|
| handlers/base.py:103-104 | a provider failure is reported with `e.error`, which `FacebookException` does not have, so the handler raises | a token the provider rejects for a reason other than expiry | answer `FacebookError` with the provider's message | high; not executed | `Base.AuthErrorAsWritten`, `Base.ProviderFailureCrashesAsWritten` | `Base.AuthError` |
| handlers/user.py:24 | the exception object itself is passed as the message, and encoding the response raises | the same failing token at registration | answer `FacebookError` with the provider's message | high; not executed | `Base.AuthErrorAsWritten`, `Base.ProviderFailureCrashesAsWritten` | `Base.AuthError` |
| handlers/item.py:92-109 | only users whose seen list holds the item are scrubbed, so the seller keeps the ids of the deleted conversations, and the seller's next poll reads a missing conversation | seller 0 lists conversation 5 with buyer 1 about item 7; the seller deletes item 7 | every participant loses the deleted conversations | high; not executed | `ItemHandlers.ScrubUsersAsWritten`, `ItemHandlers.DeleteAsWrittenStrandsSeller` | `ItemHandlers.ScrubUsers` |
| handlers/updates.py:21 | the length check reads `constants.MAX_ITEMS`, which is not defined, so any poll that sends `item_ids` raises | `GET /updates?item_ids=7` | refuse lists that are too long and accept the others | medium; not executed: constants.py may lag behind the handlers, as models.py visibly does (it lacks `Conversation` and several `User` fields the handlers use) | `UpdatesHandler.ParseAsWritten`, `UpdatesHandler.PollWithIdsRaisesAsWritten` | `UpdatesHandler.Poll` |
| handlers/item.py:55 | the post handler names the index by `constants.ITEM_INDEX_NAME`, which the constants module does not define; the `AttributeError` escapes `except search.Error`, so every post raises after the item is stored, leaving it without a document | any well-formed post by a registered caller | name the item index by a defined constant, index the document, and roll back on an index error | medium; not executed: handlers/item_test.py:33 reads the name as defined, and constants.py may lag behind the handlers as models.py does | `ItemHandlers.StoreAsWritten`, `ItemHandlers.StoreAsWrittenUnindexes` | `ItemHandlers.Store`, `ItemHandlers.Post` |
| handlers/item.py:124 | the delete handler reads the same undefined constant after the like states, conversations, users' entries and blobs are deleted, so it raises with the item and its document still stored | a delete by the owner of an item with one image | delete the document and the item too | medium; not executed: handlers/item_test.py:33 reads the name as defined, and constants.py may lag behind the handlers as models.py does | `ItemHandlers.CascadeAsWritten`, `ItemHandlers.CascadeAsWrittenOrphansImages` | `ItemHandlers.Cascade`, `ItemHandlers.Delete` |
| handlers/item.py:180 | the list handler reads the same undefined constant before searching, so every list request from a registered caller raises | a list request with `lat=0` and `lng=0` from a registered caller | search the item index | medium; not executed: handlers/item_test.py:33 reads the name as defined, and constants.py may lag behind the handlers as models.py does | `ItemHandlers.ListAsWritten` | `ItemHandlers.List` |
