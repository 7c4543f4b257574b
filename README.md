# A verified model of a Replicache-style sync server

This project models the server side of a row-version sync protocol for a chat
application with a word dictionary.

- **Push** (`processMutation` and `push`). Clients push batches of mutations.
  Each mutation runs in its own transaction, strictly in order per client: a
  duplicate id is skipped and an id from the future throws. A mutation whose
  first attempt throws, for whatever reason, is re-run in "error mode". That
  run skips the business logic and only writes the bookkeeping (the
  client-group row and the client's new last mutation id), so a poison
  mutation never blocks. The conversations and users the batch touched are
  then poked.
- **Pull** (`pull`). It compares the client view record (CVR) that the
  client's cookie names with the one the store yields now. It then answers
  with a patch (`clear`, deletes, puts), a new cookie and the changed last
  mutation ids. When nothing changed it is a no-op.
- **Poke** (`PokeBackend`). An in-process registry from channel name to an
  insertion-ordered set of listeners, with add, remove and fan-out. A
  throwing listener is logged and does not stop the others.
- **Store** (`lib/data.ts`). The reads that authorize and list what a user
  can see, and the writes: the bookkeeping upserts and the three mutations.
  There is also the dispatch on the mutation's name (`lib/mutate.ts`).

## How the model is organised

- `schema.dfy`, `wrappers.dfy`: row shapes, errors, `Option`/`Result`.
- `data.dfy` (module `Data`): the tables as one value `Db` (one map per
  table, and a `clock` that stands for Postgres' `xmin` row versions). Every
  read is a function, and every write is a function giving the tables it
  leaves. `Outcome` is `Err` exactly when the source's own checks or a
  primary-key violation throw; the other database constraints listed under
  "## Left out" are not modelled.
- `tables.dfy` (module `Tables`): the class `Store`, whose fields are the
  tables. Each write method changes them in place. Its `ensures` ties the new
  state to the `Data` function, and on an error the state is unchanged
  (`CommitsAs`), which models transaction rollback.
- `mutate.dfy`: JSON arguments, their schema checks and encoders (with
  round-trip lemmas), the pure dispatch `Mutate` and the in-place `Apply`.
- `cvr.dfy`: the CVR, `cvrEntriesFromSearch`, `diffCVR` and
  `isCVRDiffEmpty`. `server/src/lib/cvr.ts` is not part of this model. These
  definitions are the assumptions that `pull.ts`'s use of `puts` and `dels`
  requires: puts are the ids of the new view that are absent from the base or
  held there at another version, and dels are the ids of the base that the
  new view lacks.
- `ordered_sets.dfy`: JavaScript `Set`s as duplicate-free sequences in
  insertion order. This is also the order in which `for ... of` visits them.
- `poke.dfy`, `push.dfy`, `pull.dfy`: the three handlers.
  - `push.dfy` pairs the pure `Processed`/`PushStep`/`RunMutations` with the
    methods `ProcessMutation`/`RunBatch`/`HandlePush`, which are proved equal
    to them.
  - `pull.dfy` builds the patch imperatively (`MakePatch`, `ClientChanges`).
    Each is proved equal to a function (`PatchFor`,
    `LastMutationIDChanges`), and the properties are lemmas about those
    functions.
  - `PatchFor` takes a `PatchOrder`: the order in which the diff's id sets
    happen to be listed (and the entity rows happen to come back). That order
    is unspecified in the source. `HandlePull` promises only that its patch is
    `PatchFor` for *some* listing of the diff (`IsPatchFor`), and every patch
    lemma holds for every listing.

Three behaviours of the code worth noting:

- A duplicate mutation leaves the client's `lastMutationID` untouched; it is
  not advanced.
- In normal mode a throwing mutation writes no bookkeeping in its own
  transaction. The bookkeeping is written by the error-mode retry.
- A future mutation id fails the retry too, so it fails the whole push
  (`FutureMutationFailsPush`) rather than being absorbed.

## Model

| member | source | states |
|---|---|---|
| `Data.GetClientGroup` | server/src/lib/data.ts:31-61 | succeeds iff the group is absent or owned by the caller; an absent group reads as `{id, userID, cvrVersion: 0}`, a present one with its stored counter; otherwise the ownership error |
| `Data.GetClient` | server/src/lib/data.ts:63-95 | succeeds iff the client is absent or in the given group; an absent client reads as last mutation id 0 and group `""`, a present one as stored; otherwise the group-mismatch error |
| `Data.SearchConversations` | server/src/lib/data.ts:123-136 | exactly the conversations the user owns, each once, at its row version |
| `Data.SearchMessages` | server/src/lib/data.ts:138-160 | exactly the messages in conversations the user owns, each once, at its row version |
| `Data.SearchClients` | server/src/lib/data.ts:162-172 | exactly the group's clients, each once, with its last mutation id as version |
| `Data.SearchWordGroups` | server/src/lib/data.ts:97-121 | only word groups that no group of the same length was modified after, each once, at its row version |
| `Data.WordGroupSearchCoversEveryLength` | server/src/lib/data.ts:97-121 | every word length in the table has a group in the search, and the groups returned for one length share that length's latest modification time |
| `Data.PutClientGroup` | server/src/lib/data.ts:260-275 | upsert: the group reads back as written, other groups and all other tables are unchanged |
| `Data.PutClient` | server/src/lib/data.ts:277-298 | insert when absent; on conflict only `lastMutationID` changes and the stored group is kept; other clients and tables unchanged |
| `Data.GetClientAfterPutClient` | server/src/lib/data.ts:277-298 | a client written for its own group reads back with the written last mutation id |
| `Data.CreateConversation` | server/src/lib/data.ts:300-315 | succeeds iff the owner is the caller and the id is free; affects `userIDs = [owner]`, `conversationIDs = []`; inserts just that row at a fresh version |
| `Data.CreateMessage` | server/src/lib/data.ts:317-341 | succeeds iff the caller owns the target conversation and the id is free; affects `[conversationID]`; inserts just that row at a fresh version |
| `Data.DeleteMessage` | server/src/lib/data.ts:343-375 | succeeds iff the message is in a conversation the caller owns; removes only that message; affects its conversation |
| `Data.CreateConversationVisibility` | server/src/lib/data.ts:300-315 | the new conversation joins its owner's search at the fresh version; nobody else's conversations and nobody's messages change |
| `Data.CreateMessageVisibility` | server/src/lib/data.ts:317-341 | the new message joins the conversation owner's message search; nobody else's messages and nobody's conversations change |
| `Data.DeleteMessageVisibility` | server/src/lib/data.ts:343-375 | the deleted message leaves every user's message search and nothing else changes |
| `Tables.Store.PutClientGroup` | server/src/lib/data.ts:260-275 | the tables afterwards are `Data.PutClientGroup` of those before |
| `Tables.Store.PutClient` | server/src/lib/data.ts:277-298 | the tables afterwards are `Data.PutClient` of those before |
| `Tables.Store.CreateConversation` | server/src/lib/data.ts:300-315 | commits as `Data.CreateConversation`; on a throw nothing is written |
| `Tables.Store.CreateMessage` | server/src/lib/data.ts:317-341 | commits as `Data.CreateMessage`; on a throw nothing is written |
| `Tables.Store.DeleteMessage` | server/src/lib/data.ts:343-375 | commits as `Data.DeleteMessage`; on a throw nothing is written |
| `Mutate.ConversationRoundTrip` | server/src/lib/mutate.ts:26-33 | the conversation insert schema accepts the encoding of any conversation and gives it back |
| `Mutate.MessageRoundTrip` | server/src/lib/mutate.ts:34-39 | the message insert schema accepts the encoding of any message and gives it back |
| `Mutate.Mutate` | server/src/lib/mutate.ts:20-48 | a name outside the enum touches nothing; a listed name never returns "nothing touched"; the bookkeeping tables are never written and table validity is kept |
| `Mutate.ParseConversation` | server/src/lib/mutate.ts:29-32 | the conversation insert schema: an object with a text `id` and a nullable text `ownerUserID`, extra keys ignored; its inverse is stated by `ConversationRoundTrip` |
| `Mutate.ParseMessage` | server/src/lib/mutate.ts:37 | the message insert schema: text `id` and `conversationID`, nullable `sender`, `content`, `ord`, `deleted`, extra keys ignored; its inverse is stated by `MessageRoundTrip` |
| `Mutate.ParseMessageID` | server/src/lib/mutate.ts:41 | `z.string()`: a string and nothing else |
| `Mutate.DispatchCreateConversation` | server/src/lib/mutate.ts:26-33 | every mutation named `createConversation` whose arguments parse to a conversation runs `createConversation` on it, with the caller's user id |
| `Mutate.DispatchCreateMessage` | server/src/lib/mutate.ts:34-39 | every mutation named `createMessage` whose arguments parse to a message runs `createMessage` on it, with the caller's user id |
| `Mutate.DispatchDeleteMessage` | server/src/lib/mutate.ts:40-41 | the name dispatches to `deleteMessage` on the string id, with the caller's user id |
| `Mutate.MismatchedArgsThrow` | server/src/lib/mutate.ts:30-41 | arguments failing their schema throw before any write |
| `Mutate.Apply` | server/src/lib/mutate.ts:20-48 | the in-place dispatch commits as `Mutate` |
| `OrderedSets.SetAdd` | server/src/poke.ts:32 | the element is present, every old element stays, first in its old position, nothing else is added, and no repeats appear |
| `OrderedSets.SetDelete` | server/src/poke.ts:55 | the element is gone, every other element stays, nothing is added, and no repeats appear |
| `OrderedSets.AddTwiceIsOnce` | server/src/poke.ts:32 | adding the same listener twice leaves one registration |
| `OrderedSets.DeleteUndoesAdd` | server/src/poke.ts:50-56 | removing a listener just added restores the set as it was |
| `OrderedSets.DeleteKeepsOrder` | server/src/poke.ts:55 | deleting from a concatenation deletes from each part, so what remains keeps its order |
| `OrderedSets.DeleteOne` | server/src/poke.ts:55 | on one element, delete drops it exactly when it is the deleted element |
| `OrderedSets.DeleteAbsentIsNoOp` | server/src/poke.ts:50-56 | removing a listener that is not registered changes nothing |
| `OrderedSets.AddAll` | server/src/push.ts:54-59 | the union of the set and the added ids, without repeats |
| `Poke.Throwing` | server/src/poke.ts:41-47 | exactly the listeners of the run whose call throws (the logged errors) |
| `Poke.PokeBackend.constructor` | server/src/poke.ts:22-24 | an empty registry with nothing called |
| `Poke.PokeBackend.AddListener` | server/src/poke.ts:26-34 | the channel's set is created if absent and gains the listener; every other channel is unchanged; hands back the unsubscribe for this channel and listener |
| `Poke.PokeBackend.Poke` | server/src/poke.ts:36-48 | every registered listener of the channel is called once, in order, throwing ones logged without stopping the rest; an unknown channel calls nothing |
| `Poke.PokeBackend.RemoveListener` | server/src/poke.ts:50-56 | removes only that listener from that channel; an unknown channel is a no-op |
| `Poke.PokeBackend.Unsubscribe` | server/src/poke.ts:90-93 | closing a connection removes exactly its listener from its channel |
| `Push.ValidPushRequest` | server/src/push.ts:15-18 | the push request schema: every mutation's name is one of the three of the enum of server/src/lib/mutate.ts |
| `Push.Processed` | server/src/push.ts:77-150 | one `processMutation` transaction: skip, throw, or business logic plus bookkeeping; keeps table validity |
| `Push.DuplicateIsSkipped` | server/src/push.ts:102-110 | an id below the expected one returns nothing affected and writes nothing, in either mode |
| `Push.FutureMutationThrows` | server/src/push.ts:112-115 | an id above the expected one throws in either mode, so nothing persists |
| `Push.ExpectedMutationAdvancesClient` | server/src/push.ts:134-144 | after the expected id the client is stored at exactly that id in its group, and the group keeps the counter it was loaded with |
| `Push.NormalModeRunsTheHandler` | server/src/push.ts:119-148 | at the expected id in normal mode, the handler's throw is the transaction's throw; its success gives the transaction's affected set and its conversation, message and word-group tables |
| `Push.ErrorModeOnlyRecordsBookkeeping` | server/src/push.ts:119-144 | in error mode nothing is affected, the domain tables are untouched and the client still advances |
| `Push.PushStep` | server/src/push.ts:47-62 | a first attempt, then an error-mode retry when it throws; keeps table validity |
| `Push.PoisonMutationDoesNotBlock` | server/src/push.ts:60-62 | an expected-id mutation always gets through its step and moves the client past it, with nothing affected when it threw |
| `Push.FutureMutationFailsPush` | server/src/push.ts:60-62 | a future id throws on the retry too and fails the push |
| `Push.RunMutations` | server/src/push.ts:46-63 | the loop over the batch in order; the affected sets only grow, stay duplicate-free and include everything the first mutation affected when it gets through; the tables stay valid |
| `Push.RunGathersTheAffected` | server/src/push.ts:41-63 | the gathered conversations and users are exactly the starting ones plus those affected by the mutations that got through at their first attempt (`BatchAffected`), both directions |
| `Push.CreatedConversationOwnerIsAffected` | server/src/push.ts:47-59 | a createConversation at its client's expected id whose handler succeeds puts the pushing user among the batch's affected users |
| `Push.PushPokesTheAffected` | server/src/push.ts:41-72 | the channels of the push are a conversation channel for exactly each affected conversation and a user channel for exactly each affected user |
| `Push.ConsecutiveBatchSucceeds` | server/src/push.ts:46-63 | a batch of consecutive ids from one authorized client never fails the push and leaves the client at the last id |
| `Push.PokeChannels` | server/src/push.ts:67-72 | `conversation/<id>` for each affected conversation, then `user/<id>` for each affected user |
| `Push.ChannelNamesAreInjective` | server/src/push.ts:67-72 | distinct ids give distinct channels, and no conversation channel is a user channel |
| `Push.PokeChannelsAreDistinct` | server/src/push.ts:41-72 | no channel is poked twice; with `PushPokesTheAffected`, each affected conversation and user is poked exactly once |
| `Push.ProcessMutation` | server/src/push.ts:77-150 | the in-place transaction commits as `Processed`; on a throw nothing is written |
| `Push.RunBatch` | server/src/push.ts:46-63 | the in-place loop ends with the tables, affected sets and failure of `RunMutations` |
| `Push.PokeAll` | server/src/push.ts:65-72 | pokes the channels in turn: the calls are the fan-out of the channels, the logged errors its throwing calls |
| `Push.HandlePush` | server/src/push.ts:34-75 | an invalid request throws and changes nothing; otherwise the tables are the batch's, and only when the batch succeeded are the affected channels poked, with the throwing listener calls logged; valid tables stay valid |
| `Cvr.CvrEntriesFromSearch` | server/src/pull.ts:98-103 | the id -> version map holding exactly the search's ids, each at its version |
| `Cvr.DiffEntries` | server/src/pull.ts:107-108 | per namespace, the puts are the ids of the new entries that the base lacks or holds at another version, and the dels the ids of the base the new entries lack; `DiffThenPatchIsNext` proves it complete |
| `Cvr.DiffCVR` | server/src/pull.ts:107-108 | covers every namespace of both records; puts are ids of the new view, dels are ids it lacks |
| `Cvr.DiffThenPatchIsNext` | server/src/pull.ts:107-108 | deleting the dels from the base and storing the puts yields exactly the new view |
| `Cvr.IsCVRDiffEmpty` | server/src/pull.ts:112-115 | the assumed `isCVRDiffEmpty`: no namespace has a put or a del; `DiffEmptyIff` proves it holds exactly when the records agree |
| `Cvr.DiffEmptyIff` | server/src/pull.ts:112-115 | the diff is empty iff both records hold the same entries in every namespace |
| `Cvr.DiffFromNothing` | server/src/pull.ts:64-66 | against an empty base everything in the new view is a put and nothing is deleted |
| `Pull.CvrCache.constructor` | server/src/pull.ts:52 | the cache starts empty |
| `Pull.CvrCache.FreshKey` | server/src/pull.ts:171 | a key that names no cached CVR |
| `Pull.CvrCache.Set` | server/src/pull.ts:172 | the key now maps to the CVR and nothing else changes |
| `Pull.PrevCVR` | server/src/pull.ts:63-64 | the CVR of the cache under the cookie's id, absent for a null cookie or a miss; characterised with `BaseCVR` by `BaseCVRFromCookie` |
| `Pull.BaseCVR` | server/src/pull.ts:65-66 | the previous CVR, or the empty record when there is none |
| `Pull.BaseCVRFromCookie` | server/src/pull.ts:63-66 | the base is empty for a null cookie or a cache miss, and the cached CVR otherwise |
| `Pull.NextCVR` | server/src/pull.ts:97-103 | the new view has exactly the four namespaces |
| `Pull.ClientEntriesAreTheGroup` | server/src/pull.ts:79-103 | the client namespace holds exactly the group's clients, each at its last mutation id |
| `Pull.NextCVRVersion` | server/src/pull.ts:134-137 | strictly above both the cookie's order (0 without one) and the stored counter, and one past one of them |
| `Pull.LastMutationIDChangesAreClientPuts` | server/src/pull.ts:126-131 | the changes name exactly the diff's client puts, each at its version in the new view |
| `Pull.LastMutationIDChangesAreNewClientVersions` | server/src/pull.ts:126-131 | the changes are exactly the group's clients whose last mutation id the base does not hold, each at its current value |
| `Pull.RepeatPullIsNoOp` | server/src/pull.ts:112-115 | repeating a pull with its cookie, with only the group counter written in between, finds the diff empty |
| `Pull.NextCVRIgnoresClientGroups` | server/src/pull.ts:139-145 | the view does not depend on the client group table, so the counter write cannot change it |
| `Pull.DiffPutsAreStored` | server/src/pull.ts:117-122 | every id the diff puts has its row in the tables the same transaction reads bodies from |
| `Pull.KeyIsInItsNamespace` | server/src/pull.ts:180-191 | a `<name>/<id>` key lies in `name` and gives back `id` |
| `Pull.DelOps` | server/src/pull.ts:181-183 | one `del <name>/<id>` per listed id, in order |
| `Pull.PutOpsContents` | server/src/pull.ts:184-190 | every entity put is of a listed id, under its key, with its row's body, and every listed id with a row has one |
| `Pull.DictionaryKeys` | server/src/pull.ts:193-204 | dictionary operations are only puts of `words/` and `alphagrams/` keys |
| `Pull.DictionaryPairsWordsWithAlphagrams` | server/src/pull.ts:193-204 | each listed word group gives its words put immediately followed by its alphagrams put |
| `Pull.PatchIsOrdered` | server/src/pull.ts:174-204 | the patch runs clear, conversation dels, conversation puts, message dels, message puts, dictionary, whatever the listing |
| `Pull.PatchClearsIffNoPrevious` | server/src/pull.ts:175-178 | the patch starts with `clear` iff there was no previous CVR, and has no other `clear` |
| `Pull.PatchDeletesTheDiffDels` | server/src/pull.ts:180-183 | a conversation or message key is deleted iff its id is among the diff's dels |
| `Pull.PatchDeletesOnlyEntities` | server/src/pull.ts:180-204 | every delete is of a conversation or message key: no dictionary key is ever deleted |
| `Pull.PatchPutsTheDiffPuts` | server/src/pull.ts:184-190 | every changed conversation and message with a row is put under its key with its current body |
| `Pull.PatchPutsOnlyTheDiffPuts` | server/src/pull.ts:184-190 | every entity put is of a changed id and carries that row's current body |
| `Pull.PatchPutsEachWordGroup` | server/src/pull.ts:193-204 | each changed word group contributes `put words/<id>` immediately followed by `put alphagrams/<id>` |
| `Pull.Listed` | server/src/pull.ts:117-122 | lists a set of ids, each once, in some order |
| `Pull.ListDiff` | server/src/pull.ts:117-122 | lists every id set of the diff that the patch is built from |
| `Pull.AppendDels` | server/src/pull.ts:181-183 | the loop appends exactly `DelOps` |
| `Pull.AppendPuts` | server/src/pull.ts:184-190 | the loop appends exactly `PutOps` |
| `Pull.AppendDictionary` | server/src/pull.ts:193-204 | the loop appends exactly `DictionaryOps` |
| `Pull.MakePatch` | server/src/pull.ts:174-204 | the imperatively built patch is `PatchFor` of the listing |
| `Pull.LastMutationIDChanges` | server/src/pull.ts:125-131 | each client the diff puts, at its version in the new view; `LastMutationIDChangesAreClientPuts` and `LastMutationIDChangesAreNewClientVersions` state what it holds |
| `Pull.PatchFor` | server/src/pull.ts:174-203 | the clear when there is no previous CVR, the deletes then puts of conversations and then of messages, then the words/alphagrams pairs; the `Patch*` lemmas state its properties for every listing |
| `Pull.ClientChanges` | server/src/pull.ts:126-131 | the loop fills exactly `LastMutationIDChanges` |
| `Pull.HandlePull` | server/src/pull.ts:56-220 | an unauthorized group throws with nothing written; the no-op path returns the old cookie, `{}` and `[]` with nothing written; otherwise the group is stored at the new counter, the cookie carries that counter and a fresh id now mapped to the new view, with the client changes and a patch of the diff; valid tables stay valid |

## Left out

- The Express handlers (`handlePush`, `handlePull`, `handlePoke`), HTTP status codes, the SSE headers and frames (`hello`, `poke`, the 30-second `beat` heartbeat). These are I/O. A poke frame is modelled as one entry in `PokeBackend.calls`; closing a connection is `Unsubscribe`.
- The hard-coded push user of `handlePush` and the user id parsed from the pull query. Both handlers take the authenticated user id as a parameter.
- `getPokeBackend`'s global singleton: one explicit `PokeBackend` is passed to `HandlePush`.
- Postgres concurrency: transactions are modelled as running one at a time and atomically. Repeatable-read isolation, `Promise.all` inside a transaction and interleaving with other requests are not modelled.
- Row versions: `xmin` is modelled as a counter (`Db.clock`) that each insert hands out. Client groups and clients carry no version because the view never reads one for them.
- A unique-key violation on insert (`createConversation`, `createMessage` with an id already taken) is modelled as a thrown `DuplicateKey` error, since the database rejects it.
- `nanoid` randomness: `CvrCache.FreshKey` picks a key longer than every cached key. The cache is unbounded, as in the source.
- zod and drizzle-zod: the request schemas become Dafny types, plus the predicate `ValidPushRequest` for the mutation-name enum. The insert schemas become the `Parse*` functions. Numbers are integers: a non-integer mutation id or cookie order is not modelled.
- `array_agg` and the word-table joins of `getDictionary`: a word group's words and alphagrams are stored with the group and looked up as bodies.
- `getConversations`, `getMessages` and `getDictionary` for ids without a row: `inArray` skips them, and `getDictionary` would dereference a missing row. The model emits no operation for such ids. `DiffPutsAreStored` proves the case cannot arise inside one pull.
- `Data.SearchWordGroups`: when two groups of one length tie on `lastModified`, `row_number()` keeps an arbitrary one of them; the model keeps all the tied ones.
- Listeners that register or unregister while `poke` is iterating the set they belong to are not modelled. A listener is a value, and whether its call throws is fixed in advance.
- Foreign keys to the `user` table (`replicache_client_group.user_id`, `conversation.owner_user_id`, shared/src/schema.ts:25 and :40): the model has no user table, so a push or pull by a user without a `user` row, which fails in the database at the client-group upsert or the conversation insert, succeeds in the model.
- 32-bit `integer` columns (`cvr_version`, `last_mutation_id`, `message.ord`): the model's counters are unbounded, so a cookie order or mutation id that would overflow the column and make the write fail with "integer out of range" succeeds in the model with the larger value.
- `console.log`, `console.error` (beyond recording the failing listener calls) and the `Date.now` timings.
