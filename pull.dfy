/** The pull handler under the row-version strategy: the client view record
    (CVR) the client last saw against the one the store yields now, turned
    into a patch, a new cookie and the clients' last mutation ids. */
module Pull {
  import opened Wrappers
  import opened Schema
  import opened Data
  import opened Cvr
  import opened OrderedSets
  import Tables

  datatype Cookie = Cookie(order: int, cvrID: string)

  datatype PullRequest = PullRequest(clientGroupID: string, cookie: Option<Cookie>)

  /** The value a `put` operation carries. */
  datatype Value =
    | ConversationValue(conversation: Conversation)
    | MessageValue(message: MessageBody)
    | WordsValue(words: seq<Word>)
    | AlphagramsValue(alphagrams: seq<Alphagram>)

  datatype PatchOp = Clear | Del(key: string) | Put(key: string, value: Value)

  datatype PullResponse = PullResponse(
    cookie: Option<Cookie>,
    lastMutationIDChanges: map<string, int>,
    patch: seq<PatchOp>)

  // The namespaces of a CVR.
  const WordGroupNs := "wordGroup"
  const ConversationNs := "conversation"
  const MessageNs := "message"
  const ClientNs := "client"

  // The key prefixes of the dictionary entries.
  const WordsName := "words"
  const AlphagramsName := "alphagrams"

  /** The cache of CVRs the server has handed out, keyed by the id their cookie carries. */
  class CvrCache {
    var entries: map<string, CVR>

    constructor ()
      ensures entries == map[]
    {
      entries := map[];
    }

    /** A key that names no cached CVR yet, as a random id does. */
    method FreshKey() returns (key: string)
      ensures key !in entries
    {
      var longest: nat := 0;
      var rest := entries.Keys;
      while rest != {}
        invariant rest <= entries.Keys
        invariant forall k | k in entries && k !in rest :: |k| < longest
        decreases rest
      {
        var k :| k in rest;
        if |k| >= longest {
          longest := |k| + 1;
        }
        rest := rest - {k};
      }
      key := seq(longest, _ => 'x');
    }

    method Set(key: string, cvr: CVR)
      modifies this
      ensures entries == old(entries)[key := cvr]
    {
      entries := entries[key := cvr];
    }
  }

  // ---------------------------------------------------------------------
  // The pure parts of a pull

  /** The CVR the cookie names, when the cache still has it. */
  function PrevCVR(cache: map<string, CVR>, cookie: Option<Cookie>): Option<CVR> {
    if cookie.Some? && cookie.value.cvrID in cache then Some(cache[cookie.value.cvrID]) else None
  }

  /** What the client is taken to hold: the previous CVR, or nothing. */
  function BaseCVR(prev: Option<CVR>): CVR {
    prev.GetOr(map[])
  }

  /** The base is empty exactly when the cookie is null or names no cached
      CVR, and is the cached CVR otherwise. */
  lemma BaseCVRFromCookie(cache: map<string, CVR>, cookie: Option<Cookie>)
    ensures cookie.None? || cookie.value.cvrID !in cache ==> BaseCVR(PrevCVR(cache, cookie)) == map[]
    ensures cookie.Some? && cookie.value.cvrID in cache ==> BaseCVR(PrevCVR(cache, cookie)) == cache[cookie.value.cvrID]
  {
  }

  /** The CVR the store yields now for this user and client group. */
  function NextCVR(db: Db, userID: string, clientGroupID: string): (c: CVR)
    ensures c.Keys == {WordGroupNs, ConversationNs, MessageNs, ClientNs}
  {
    CvrOf(SearchWordGroups(db), SearchConversations(db, userID), SearchMessages(db, userID),
          SearchClients(db, clientGroupID))
  }

  /** A CVR built from the four searches, one namespace each. */
  function CvrOf(wordGroups: set<SearchResult>, conversations: set<SearchResult>,
                 messages: set<SearchResult>, clients: set<SearchResult>): (c: CVR)
    requires UniqueIds(wordGroups) && UniqueIds(conversations) && UniqueIds(messages) && UniqueIds(clients)
    ensures c.Keys == {WordGroupNs, ConversationNs, MessageNs, ClientNs}
  {
    map[WordGroupNs := CvrEntriesFromSearch(wordGroups),
        ConversationNs := CvrEntriesFromSearch(conversations),
        MessageNs := CvrEntriesFromSearch(messages),
        ClientNs := CvrEntriesFromSearch(clients)]
  }

  /** Each namespace of a built CVR holds the entries of its own search. */
  lemma CvrOfNamespaces(wordGroups: set<SearchResult>, conversations: set<SearchResult>,
                        messages: set<SearchResult>, clients: set<SearchResult>)
    requires UniqueIds(wordGroups) && UniqueIds(conversations) && UniqueIds(messages) && UniqueIds(clients)
    ensures var c := CvrOf(wordGroups, conversations, messages, clients);
      && EntriesOf(c, WordGroupNs) == CvrEntriesFromSearch(wordGroups)
      && EntriesOf(c, ConversationNs) == CvrEntriesFromSearch(conversations)
      && EntriesOf(c, MessageNs) == CvrEntriesFromSearch(messages)
      && EntriesOf(c, ClientNs) == CvrEntriesFromSearch(clients)
  {
  }

  /** The client namespace of the new CVR holds exactly the group's clients,
      each at its last mutation id. */
  lemma ClientEntriesAreTheGroup(db: Db, userID: string, clientGroupID: string)
    ensures var clients := EntriesOf(NextCVR(db, userID, clientGroupID), ClientNs);
      && (forall id :: id in clients <==> id in db.clients && db.clients[id].clientGroupID == clientGroupID)
      && (forall id | id in clients :: clients[id] == db.clients[id].lastMutationID)
  {
    var rs := SearchClients(db, clientGroupID);
    var clients := EntriesOf(NextCVR(db, userID, clientGroupID), ClientNs);
    assert clients == CvrEntriesFromSearch(rs);
    forall id ensures id in clients <==> id in db.clients && db.clients[id].clientGroupID == clientGroupID {
      if id in db.clients && db.clients[id].clientGroupID == clientGroupID {
        assert SearchResult(id, db.clients[id].lastMutationID) in rs;
      }
    }
    forall id | id in clients ensures clients[id] == db.clients[id].lastMutationID {
      var s :| s in rs && s.id == id;
    }
  }

  /** The new pull counter: one past both the cookie's order (0 without a
      cookie) and the group's stored counter. */
  function NextCVRVersion(cookie: Option<Cookie>, clientGroup: ClientGroup): (v: int)
    ensures v > (if cookie.Some? then cookie.value.order else 0)
    ensures v > clientGroup.cvrVersion
    ensures v - 1 == (if cookie.Some? then cookie.value.order else 0) || v - 1 == clientGroup.cvrVersion
  {
    var baseCVRVersion := if cookie.Some? then cookie.value.order else 0;
    (if baseCVRVersion > clientGroup.cvrVersion then baseCVRVersion else clientGroup.cvrVersion) + 1
  }

  /** The last mutation id of every client whose entry the diff puts. */
  function LastMutationIDChanges(diff: CVRDiff, next: CVR): map<string, int> {
    var clients := EntriesOf(next, ClientNs);
    map id | id in DiffOf(diff, ClientNs).puts && id in clients :: clients[id]
  }

  /** The changes name exactly the diff's client puts, each at its version
      in the new CVR. */
  lemma LastMutationIDChangesAreClientPuts(base: CVR, next: CVR)
    ensures var changes := LastMutationIDChanges(DiffCVR(base, next), next);
      && changes.Keys == DiffOf(DiffCVR(base, next), ClientNs).puts
      && (forall id | id in changes :: changes[id] == EntriesOf(next, ClientNs)[id])
  {
    var d := DiffCVR(base, next);
    if ClientNs in d {
      assert DiffOf(d, ClientNs).puts <= EntriesOf(next, ClientNs).Keys;
    }
  }

  /** The changes are the group's clients whose last mutation id the client
      has not seen, each at its current last mutation id. */
  lemma LastMutationIDChangesAreNewClientVersions(db: Db, userID: string, clientGroupID: string, base: CVR)
    ensures var next := NextCVR(db, userID, clientGroupID);
      var changes := LastMutationIDChanges(DiffCVR(base, next), next);
      var known := EntriesOf(base, ClientNs);
      && (forall id :: id in changes <==>
            && id in db.clients
            && db.clients[id].clientGroupID == clientGroupID
            && (id !in known || known[id] != db.clients[id].lastMutationID))
      && (forall id | id in changes :: changes[id] == db.clients[id].lastMutationID)
  {
    var next := NextCVR(db, userID, clientGroupID);
    ClientEntriesAreTheGroup(db, userID, clientGroupID);
    LastMutationIDChangesAreClientPuts(base, next);
    assert ClientNs in DiffCVR(base, next);
  }

  /** Pulling again with the cookie of a pull, when nothing but the group's
      counter has been written since, finds the diff empty: the no-op path. */
  lemma RepeatPullIsNoOp(db: Db, userID: string, clientGroupID: string, clientGroup: ClientGroup,
                         cache: map<string, CVR>, cookie: Cookie)
    requires cookie.cvrID in cache && cache[cookie.cvrID] == NextCVR(db, userID, clientGroupID)
    ensures var prev := PrevCVR(cache, Some(cookie));
      && prev.Some?
      && IsCVRDiffEmpty(DiffCVR(BaseCVR(prev), NextCVR(PutClientGroup(db, clientGroup), userID, clientGroupID)))
  {
    var after := PutClientGroup(db, clientGroup);
    NextCVRIgnoresClientGroups(db, after.clientGroups, userID, clientGroupID);
    DiffEmptyIff(NextCVR(db, userID, clientGroupID), NextCVR(db, userID, clientGroupID));
  }

  /** The view does not depend on the client group table. */
  lemma NextCVRIgnoresClientGroups(db: Db, clientGroups: map<string, ClientGroup>, userID: string, clientGroupID: string)
    ensures NextCVR(db.(clientGroups := clientGroups), userID, clientGroupID) == NextCVR(db, userID, clientGroupID)
  {
    var after := db.(clientGroups := clientGroups);
    assert SearchWordGroups(after) == SearchWordGroups(db);
    assert SearchConversations(after, userID) == SearchConversations(db, userID);
    assert SearchMessages(after, userID) == SearchMessages(db, userID);
    assert SearchClients(after, clientGroupID) == SearchClients(db, clientGroupID);
  }

  /** Every id a pull's diff puts has its row in the tables the pull read:
      the entity and dictionary reads of one transaction find all of them. */
  lemma DiffPutsAreStored(db: Db, userID: string, clientGroupID: string, base: CVR)
    ensures var diff := DiffCVR(base, NextCVR(db, userID, clientGroupID));
      && (forall id | id in DiffOf(diff, ConversationNs).puts :: id in db.conversations)
      && (forall id | id in DiffOf(diff, MessageNs).puts :: id in db.messages)
      && (forall id | id in DiffOf(diff, WordGroupNs).puts :: id in db.wordGroups)
  {
    var diff := DiffCVR(base, NextCVR(db, userID, clientGroupID));
    forall id | id in DiffOf(diff, ConversationNs).puts ensures id in db.conversations {
      NextIdIsStored(db, userID, clientGroupID, base, ConversationNs, id);
    }
    forall id | id in DiffOf(diff, MessageNs).puts ensures id in db.messages {
      NextIdIsStored(db, userID, clientGroupID, base, MessageNs, id);
    }
    forall id | id in DiffOf(diff, WordGroupNs).puts ensures id in db.wordGroups {
      NextIdIsStored(db, userID, clientGroupID, base, WordGroupNs, id);
    }
  }

  lemma NextIdIsStored(db: Db, userID: string, clientGroupID: string, base: CVR, ns: string, id: string)
    requires ns == ConversationNs || ns == MessageNs || ns == WordGroupNs
    requires id in DiffOf(DiffCVR(base, NextCVR(db, userID, clientGroupID)), ns).puts
    ensures ns == ConversationNs ==> id in db.conversations
    ensures ns == MessageNs ==> id in db.messages
    ensures ns == WordGroupNs ==> id in db.wordGroups
  {
    var next := NextCVR(db, userID, clientGroupID);
    NextCVRNamespaces(db, userID, clientGroupID);
    if ns == ConversationNs {
      var s := DiffPutIsSearched(base, next, ns, SearchConversations(db, userID), id);
      assert OwnsConversation(db, userID, s.id);
    } else if ns == MessageNs {
      var s := DiffPutIsSearched(base, next, ns, SearchMessages(db, userID), id);
      assert CanSeeMessage(db, userID, s.id);
    } else {
      var s := DiffPutIsSearched(base, next, ns, SearchWordGroups(db), id);
      assert s.id in db.wordGroups;
    }
  }

  /** Each namespace of the new CVR is built from its own search. */
  lemma NextCVRNamespaces(db: Db, userID: string, clientGroupID: string)
    ensures var next := NextCVR(db, userID, clientGroupID);
      && EntriesOf(next, WordGroupNs) == CvrEntriesFromSearch(SearchWordGroups(db))
      && EntriesOf(next, ConversationNs) == CvrEntriesFromSearch(SearchConversations(db, userID))
      && EntriesOf(next, MessageNs) == CvrEntriesFromSearch(SearchMessages(db, userID))
      && EntriesOf(next, ClientNs) == CvrEntriesFromSearch(SearchClients(db, clientGroupID))
  {
    CvrOfNamespaces(SearchWordGroups(db), SearchConversations(db, userID), SearchMessages(db, userID),
                    SearchClients(db, clientGroupID));
  }

  /** An id the diff puts is the id of one of the search results its namespace was built from. */
  lemma DiffPutIsSearched(base: CVR, next: CVR, ns: string, rs: set<SearchResult>, id: string)
    returns (s: SearchResult)
    requires UniqueIds(rs) && EntriesOf(next, ns) == CvrEntriesFromSearch(rs)
    requires id in DiffOf(DiffCVR(base, next), ns).puts
    ensures s in rs && s.id == id
  {
    assert id in EntriesOf(next, ns);
    s :| s in rs && s.id == id;
  }

  // ---------------------------------------------------------------------
  // The patch

  function Key(name: string, id: string): string {
    name + "/" + id
  }

  /** The key lies in the namespace `name`: it starts with `name` and a slash. */
  predicate InNamespace(key: string, name: string) {
    name + "/" <= key
  }

  /** The id part of a key in namespace `name`. */
  function IdOf(name: string, key: string): string
    requires InNamespace(key, name)
  {
    key[|name| + 1..]
  }

  lemma KeyIsInItsNamespace(name: string, id: string)
    ensures InNamespace(Key(name, id), name)
    ensures IdOf(name, Key(name, id)) == id
  {
    assert Key(name, id)[..|name| + 1] == name + "/";
    assert Key(name, id)[|name| + 1..] == id;
  }

  lemma KeyOfId(name: string, key: string)
    requires InNamespace(key, name)
    ensures Key(name, IdOf(name, key)) == key
  {
    assert key == key[..|name| + 1] + key[|name| + 1..];
  }

  /** Namespaces with different first letters share no key. */
  lemma NamespacesAreDisjoint(name: string, other: string, id: string)
    requires |name| > 0 && |other| > 0 && name[0] != other[0]
    ensures !InNamespace(Key(name, id), other)
  {
    assert Key(name, id)[0] == name[0];
    assert (other + "/")[0] == other[0];
  }

  /** The body that a pull sends for an entity id, when the row exists. */
  function EntityValue(db: Db, name: string, id: string): Option<Value> {
    if name == ConversationNs && id in db.conversations then
      Some(ConversationValue(db.conversations[id].value))
    else if name == MessageNs && id in db.messages then
      var m := db.messages[id].value;
      Some(MessageValue(MessageBody(m.id, m.conversationID, m.sender, m.content, m.ord)))
    else None
  }

  function DelOps(name: string, ids: seq<string>): (r: seq<PatchOp>)
    ensures |r| == |ids|
    ensures forall i | 0 <= i < |ids| :: r[i] == Del(Key(name, ids[i]))
  {
    if ids == [] then [] else DelOps(name, ids[..|ids| - 1]) + [Del(Key(name, ids[|ids| - 1]))]
  }

  /** The put of one entity; an id whose row is gone yields none, as the
      `in` query of the read skips it. */
  function PutOp(db: Db, name: string, id: string): seq<PatchOp> {
    match EntityValue(db, name, id)
    case Some(v) => [Put(Key(name, id), v)]
    case None => []
  }

  function PutOps(db: Db, name: string, ids: seq<string>): seq<PatchOp> {
    if ids == [] then [] else PutOps(db, name, ids[..|ids| - 1]) + PutOp(db, name, ids[|ids| - 1])
  }

  predicate AllPuts(s: seq<PatchOp>) {
    forall i | 0 <= i < |s| :: s[i].Put?
  }

  /** The entity puts for a list of ids: each is the put of one of the ids,
      under its key and with its row's body, and every id whose row exists has one. */
  lemma {:induction false} PutOpsContents(db: Db, name: string, ids: seq<string>)
    ensures var r := PutOps(db, name, ids);
      && AllPuts(r)
      && (forall i | 0 <= i < |r| ::
            && InNamespace(r[i].key, name)
            && IdOf(name, r[i].key) in ids
            && EntityValue(db, name, IdOf(name, r[i].key)) == Some(r[i].value))
      && (forall j | 0 <= j < |ids| && EntityValue(db, name, ids[j]).Some? ::
            Put(Key(name, ids[j]), EntityValue(db, name, ids[j]).value) in r)
    decreases |ids|
  {
    if ids != [] {
      var front := ids[..|ids| - 1];
      var id := ids[|ids| - 1];
      PutOpsContents(db, name, front);
      KeyIsInItsNamespace(name, id);
      var r := PutOps(db, name, ids);
      assert r == PutOps(db, name, front) + PutOp(db, name, id);
      forall j | 0 <= j < |ids| && EntityValue(db, name, ids[j]).Some?
        ensures Put(Key(name, ids[j]), EntityValue(db, name, ids[j]).value) in r
      {
        if j < |front| {
          assert ids[j] == front[j];
        }
      }
    }
  }

  /** A word group's two dictionary puts: its words, then its alphagrams. */
  function WordGroupOps(db: Db, id: string): seq<PatchOp> {
    if id in db.wordGroups then
      [Put(Key(WordsName, id), WordsValue(db.wordGroups[id].value.words)),
       Put(Key(AlphagramsName, id), AlphagramsValue(db.wordGroups[id].value.alphagrams))]
    else []
  }

  function DictionaryOps(db: Db, ids: seq<string>): seq<PatchOp> {
    if ids == [] then [] else DictionaryOps(db, ids[..|ids| - 1]) + WordGroupOps(db, ids[|ids| - 1])
  }

  /** Dictionary operations are puts of words and alphagrams keys only. */
  lemma {:induction false} DictionaryKeys(db: Db, ids: seq<string>)
    ensures var r := DictionaryOps(db, ids);
      && AllPuts(r)
      && (forall i | 0 <= i < |r| :: InNamespace(r[i].key, WordsName) || InNamespace(r[i].key, AlphagramsName))
    decreases |ids|
  {
    if ids != [] {
      DictionaryKeys(db, ids[..|ids| - 1]);
      KeyIsInItsNamespace(WordsName, ids[|ids| - 1]);
      KeyIsInItsNamespace(AlphagramsName, ids[|ids| - 1]);
    }
  }

  /** Every changed word group that exists contributes its words put
      immediately followed by its alphagrams put. */
  lemma {:induction false} DictionaryPairsWordsWithAlphagrams(db: Db, ids: seq<string>, id: string) returns (i: nat)
    requires id in ids && id in db.wordGroups
    ensures i + 1 < |DictionaryOps(db, ids)|
    ensures DictionaryOps(db, ids)[i] == WordGroupOps(db, id)[0]
    ensures DictionaryOps(db, ids)[i + 1] == WordGroupOps(db, id)[1]
    decreases |ids|
  {
    var front := DictionaryOps(db, ids[..|ids| - 1]);
    var r := DictionaryOps(db, ids);
    assert r == front + WordGroupOps(db, ids[|ids| - 1]);
    if ids[|ids| - 1] == id {
      i := |front|;
    } else {
      assert id in ids[..|ids| - 1];
      i := DictionaryPairsWordsWithAlphagrams(db, ids[..|ids| - 1], id);
      assert r[i] == front[i] && r[i + 1] == front[i + 1];
    }
  }

  /** An order in which the diff's id sets are listed. */
  datatype PatchOrder = PatchOrder(
    conversationDels: seq<string>,
    conversationPuts: seq<string>,
    messageDels: seq<string>,
    messagePuts: seq<string>,
    wordGroupPuts: seq<string>)

  /** The order lists each of the diff's sets, each id once. */
  predicate ListsDiff(o: PatchOrder, diff: CVRDiff) {
    && Enumerates(o.conversationDels, DiffOf(diff, ConversationNs).dels)
    && Enumerates(o.conversationPuts, DiffOf(diff, ConversationNs).puts)
    && Enumerates(o.messageDels, DiffOf(diff, MessageNs).dels)
    && Enumerates(o.messagePuts, DiffOf(diff, MessageNs).puts)
    && Enumerates(o.wordGroupPuts, DiffOf(diff, WordGroupNs).puts)
  }

  /** The patch of a pull, given the order the diff lists its ids in: a clear
      when the client holds nothing, then per entity namespace its deletes and
      its puts, then the dictionary. */
  function PatchFor(clear: bool, db: Db, o: PatchOrder): seq<PatchOp> {
    EntityOps(clear, db, o) + DictionaryOps(db, o.wordGroupPuts)
  }

  /** The patch up to the dictionary. */
  function EntityOps(clear: bool, db: Db, o: PatchOrder): seq<PatchOp> {
    (if clear then [Clear] else [])
    + DelOps(ConversationNs, o.conversationDels)
    + PutOps(db, ConversationNs, o.conversationPuts)
    + DelOps(MessageNs, o.messageDels)
    + PutOps(db, MessageNs, o.messagePuts)
  }

  /** The patch is the one for some listing of the diff. */
  ghost predicate IsPatchFor(patch: seq<PatchOp>, clear: bool, db: Db, diff: CVRDiff) {
    exists o | ListsDiff(o, diff) :: patch == PatchFor(clear, db, o)
  }

  /** Where an operation belongs in a patch: the clear, conversation deletes,
      conversation puts, message deletes, message puts, dictionary puts. */
  function Section(op: PatchOp): nat {
    match op
    case Clear => 0
    case Del(key) => if InNamespace(key, ConversationNs) then 1 else 3
    case Put(key, _) =>
      if InNamespace(key, ConversationNs) then 2 else if InNamespace(key, MessageNs) then 4 else 5
  }

  predicate InSection(s: seq<PatchOp>, k: nat) {
    forall i | 0 <= i < |s| :: Section(s[i]) == k
  }

  predicate Ordered(s: seq<PatchOp>) {
    forall i, j | 0 <= i < j < |s| :: Section(s[i]) <= Section(s[j])
  }

  predicate SectionsAtMost(s: seq<PatchOp>, k: nat) {
    forall i | 0 <= i < |s| :: Section(s[i]) <= k
  }

  lemma OrderedExtend(s: seq<PatchOp>, t: seq<PatchOp>, k: nat)
    requires Ordered(s) && SectionsAtMost(s, k) && InSection(t, k)
    ensures Ordered(s + t) && SectionsAtMost(s + t, k)
  {
  }

  lemma DelOpsSection(name: string, ids: seq<string>)
    requires name == ConversationNs || name == MessageNs
    ensures InSection(DelOps(name, ids), if name == ConversationNs then 1 else 3)
  {
    forall i | 0 <= i < |ids| ensures Section(DelOps(name, ids)[i]) == if name == ConversationNs then 1 else 3 {
      KeyIsInItsNamespace(name, ids[i]);
      NamespacesAreDisjoint(name, if name == ConversationNs then MessageNs else ConversationNs, ids[i]);
    }
  }

  lemma PutOpsSection(db: Db, name: string, ids: seq<string>)
    requires name == ConversationNs || name == MessageNs
    ensures InSection(PutOps(db, name, ids), if name == ConversationNs then 2 else 4)
  {
    var r := PutOps(db, name, ids);
    PutOpsContents(db, name, ids);
    forall i | 0 <= i < |r| ensures Section(r[i]) == if name == ConversationNs then 2 else 4 {
      if name == MessageNs {
        KeyOfId(name, r[i].key);
        NamespacesAreDisjoint(name, ConversationNs, IdOf(name, r[i].key));
      }
    }
  }

  lemma DictionarySection(db: Db, ids: seq<string>)
    ensures InSection(DictionaryOps(db, ids), 5)
  {
    var r := DictionaryOps(db, ids);
    DictionaryKeys(db, ids);
    forall i | 0 <= i < |r| ensures Section(r[i]) == 5 {
      var name := if InNamespace(r[i].key, WordsName) then WordsName else AlphagramsName;
      KeyOfId(name, r[i].key);
      NamespacesAreDisjoint(name, ConversationNs, IdOf(name, r[i].key));
      NamespacesAreDisjoint(name, MessageNs, IdOf(name, r[i].key));
    }
  }

  /** The six parts a patch is made of, in order. */
  function Parts(clear: bool, db: Db, o: PatchOrder): seq<seq<PatchOp>> {
    [if clear then [Clear] else [],
     DelOps(ConversationNs, o.conversationDels),
     PutOps(db, ConversationNs, o.conversationPuts),
     DelOps(MessageNs, o.messageDels),
     PutOps(db, MessageNs, o.messagePuts),
     DictionaryOps(db, o.wordGroupPuts)]
  }

  /** An operation is in the patch exactly when it is in one of its parts. */
  lemma PatchMembership(clear: bool, db: Db, o: PatchOrder, op: PatchOp)
    ensures var parts := Parts(clear, db, o);
      op in PatchFor(clear, db, o) <==>
        op in parts[0] || op in parts[1] || op in parts[2] || op in parts[3] || op in parts[4] || op in parts[5]
  {
  }

  /** Whatever order the diff is listed in, the patch runs: clear, conversation
      deletes, conversation puts, message deletes, message puts, dictionary. */
  lemma PatchIsOrdered(clear: bool, db: Db, o: PatchOrder)
    ensures Ordered(PatchFor(clear, db, o))
  {
    var parts := Parts(clear, db, o);
    DelOpsSection(ConversationNs, o.conversationDels);
    PutOpsSection(db, ConversationNs, o.conversationPuts);
    DelOpsSection(MessageNs, o.messageDels);
    PutOpsSection(db, MessageNs, o.messagePuts);
    DictionarySection(db, o.wordGroupPuts);
    assert Ordered(parts[0]) && SectionsAtMost(parts[0], 1);
    OrderedExtend(parts[0], parts[1], 1);
    OrderedExtend(parts[0] + parts[1], parts[2], 2);
    OrderedExtend(parts[0] + parts[1] + parts[2], parts[3], 3);
    OrderedExtend(parts[0] + parts[1] + parts[2] + parts[3], parts[4], 4);
    OrderedExtend(parts[0] + parts[1] + parts[2] + parts[3] + parts[4], parts[5], 5);
  }

  predicate NoClearFrom(s: seq<PatchOp>, n: nat) {
    forall i | n <= i < |s| :: s[i] != Clear
  }

  lemma NoClearExtend(s: seq<PatchOp>, t: seq<PatchOp>, n: nat, k: nat)
    requires NoClearFrom(s, n) && n <= |s| && InSection(t, k) && k > 0
    ensures NoClearFrom(s + t, n)
  {
    forall i | n <= i < |s + t| ensures (s + t)[i] != Clear {
      if i >= |s| {
        assert Section(t[i - |s|]) == k;
      }
    }
  }

  /** The patch starts with a clear exactly when the client holds nothing,
      and has no clear anywhere else. */
  lemma PatchClearsIffNoPrevious(clear: bool, db: Db, o: PatchOrder)
    ensures var p := PatchFor(clear, db, o);
      && (|p| > 0 && p[0] == Clear <==> clear)
      && (forall i | 0 < i < |p| :: p[i] != Clear)
  {
    var parts := Parts(clear, db, o);
    var n := |parts[0]|;
    DelOpsSection(ConversationNs, o.conversationDels);
    PutOpsSection(db, ConversationNs, o.conversationPuts);
    DelOpsSection(MessageNs, o.messageDels);
    PutOpsSection(db, MessageNs, o.messagePuts);
    DictionarySection(db, o.wordGroupPuts);
    NoClearExtend(parts[0], parts[1], n, 1);
    NoClearExtend(parts[0] + parts[1], parts[2], n, 2);
    NoClearExtend(parts[0] + parts[1] + parts[2], parts[3], n, 3);
    NoClearExtend(parts[0] + parts[1] + parts[2] + parts[3], parts[4], n, 4);
    NoClearExtend(parts[0] + parts[1] + parts[2] + parts[3] + parts[4], parts[5], n, 5);
    assert PatchFor(clear, db, o) == parts[0] + parts[1] + parts[2] + parts[3] + parts[4] + parts[5];
  }

  /** A delete of `id`'s key in `name` comes from `name`'s own list of ids. */
  lemma DelsAreTheirIds(name: string, other: string, ids: seq<string>, otherIDs: seq<string>, id: string)
    requires {name, other} == {ConversationNs, MessageNs}
    ensures Del(Key(name, id)) in DelOps(name, ids) <==> id in ids
    ensures Del(Key(name, id)) !in DelOps(other, otherIDs)
  {
    if Del(Key(name, id)) in DelOps(name, ids) {
      var i :| 0 <= i < |ids| && DelOps(name, ids)[i] == Del(Key(name, id));
      KeyIsInItsNamespace(name, id);
      KeyIsInItsNamespace(name, ids[i]);
    }
    if id in ids {
      var i :| 0 <= i < |ids| && ids[i] == id;
      assert DelOps(name, ids)[i] == Del(Key(name, id));
    }
    forall i | 0 <= i < |otherIDs| ensures DelOps(other, otherIDs)[i] != Del(Key(name, id)) {
      KeyIsInItsNamespace(other, otherIDs[i]);
      NamespacesAreDisjoint(name, other, id);
    }
  }

  /** The patch deletes exactly the diff's deleted conversations and messages,
      each under its `<namespace>/<id>` key. */
  lemma PatchDeletesTheDiffDels(clear: bool, db: Db, o: PatchOrder, diff: CVRDiff, name: string)
    requires ListsDiff(o, diff)
    requires name == ConversationNs || name == MessageNs
    ensures forall id :: Del(Key(name, id)) in PatchFor(clear, db, o) <==> id in DiffOf(diff, name).dels
  {
    forall id ensures Del(Key(name, id)) in PatchFor(clear, db, o) <==> id in DiffOf(diff, name).dels {
      PatchDeletesListedId(clear, db, o, name, id);
    }
  }

  /** A key of an entity namespace is deleted exactly when its id is among
      that namespace's listed deletes. */
  lemma PatchDeletesListedId(clear: bool, db: Db, o: PatchOrder, name: string, id: string)
    requires name == ConversationNs || name == MessageNs
    ensures Del(Key(name, id)) in PatchFor(clear, db, o)
      <==> id in (if name == ConversationNs then o.conversationDels else o.messageDels)
  {
    var other := if name == ConversationNs then MessageNs else ConversationNs;
    var ids := if name == ConversationNs then o.conversationDels else o.messageDels;
    var otherIDs := if name == ConversationNs then o.messageDels else o.conversationDels;
    PutOpsContents(db, ConversationNs, o.conversationPuts);
    PutOpsContents(db, MessageNs, o.messagePuts);
    DictionaryKeys(db, o.wordGroupPuts);
    PatchMembership(clear, db, o, Del(Key(name, id)));
    DelsAreTheirIds(name, other, ids, otherIDs, id);
  }

  /** Every delete in a patch is of a conversation or a message key: no
      dictionary key is ever deleted. */
  lemma PatchDeletesOnlyEntities(clear: bool, db: Db, o: PatchOrder)
    ensures var p := PatchFor(clear, db, o);
      forall i | 0 <= i < |p| && p[i].Del? :: InNamespace(p[i].key, ConversationNs) || InNamespace(p[i].key, MessageNs)
  {
    var p := PatchFor(clear, db, o);
    forall i | 0 <= i < |p| && p[i].Del? ensures InNamespace(p[i].key, ConversationNs) || InNamespace(p[i].key, MessageNs) {
      DeleteIsOfAnEntity(clear, db, o, p[i]);
    }
  }

  lemma DeleteIsOfAnEntity(clear: bool, db: Db, o: PatchOrder, op: PatchOp)
    requires op in PatchFor(clear, db, o) && op.Del?
    ensures InNamespace(op.key, ConversationNs) || InNamespace(op.key, MessageNs)
  {
    var parts := Parts(clear, db, o);
    PutOpsContents(db, ConversationNs, o.conversationPuts);
    PutOpsContents(db, MessageNs, o.messagePuts);
    DictionaryKeys(db, o.wordGroupPuts);
    PatchMembership(clear, db, o, op);
    if op in parts[1] {
      var j :| 0 <= j < |parts[1]| && parts[1][j] == op;
      KeyIsInItsNamespace(ConversationNs, o.conversationDels[j]);
    } else {
      assert op in parts[3];
      var j :| 0 <= j < |parts[3]| && parts[3][j] == op;
      KeyIsInItsNamespace(MessageNs, o.messageDels[j]);
    }
  }

  /** The patch puts every changed conversation and message whose row exists,
      under its key and with its current body. */
  lemma PatchPutsTheDiffPuts(clear: bool, db: Db, o: PatchOrder, diff: CVRDiff, name: string)
    requires ListsDiff(o, diff)
    requires name == ConversationNs || name == MessageNs
    ensures forall id | id in DiffOf(diff, name).puts && EntityValue(db, name, id).Some? ::
      Put(Key(name, id), EntityValue(db, name, id).value) in PatchFor(clear, db, o)
  {
    var ids := if name == ConversationNs then o.conversationPuts else o.messagePuts;
    PutOpsContents(db, name, ids);
    forall id | id in DiffOf(diff, name).puts && EntityValue(db, name, id).Some?
      ensures Put(Key(name, id), EntityValue(db, name, id).value) in PatchFor(clear, db, o)
    {
      var j :| 0 <= j < |ids| && ids[j] == id;
      PatchMembership(clear, db, o, Put(Key(name, id), EntityValue(db, name, id).value));
    }
  }

  /** Every entity put in the patch is of a changed conversation or message,
      and carries that row's current body. */
  lemma PatchPutsOnlyTheDiffPuts(clear: bool, db: Db, o: PatchOrder, diff: CVRDiff, name: string)
    requires ListsDiff(o, diff)
    requires name == ConversationNs || name == MessageNs
    ensures var p := PatchFor(clear, db, o);
      forall i | 0 <= i < |p| && p[i].Put? && InNamespace(p[i].key, name) ::
        && IdOf(name, p[i].key) in DiffOf(diff, name).puts
        && EntityValue(db, name, IdOf(name, p[i].key)) == Some(p[i].value)
  {
    var p := PatchFor(clear, db, o);
    forall i | 0 <= i < |p| && p[i].Put? && InNamespace(p[i].key, name)
      ensures IdOf(name, p[i].key) in DiffOf(diff, name).puts
      ensures EntityValue(db, name, IdOf(name, p[i].key)) == Some(p[i].value)
    {
      PatchPutIsListed(clear, db, o, name, p[i]);
    }
  }

  /** An entity put in the patch is of one of its namespace's listed ids, with that row's body. */
  lemma PatchPutIsListed(clear: bool, db: Db, o: PatchOrder, name: string, op: PatchOp)
    requires name == ConversationNs || name == MessageNs
    requires op in PatchFor(clear, db, o) && op.Put? && InNamespace(op.key, name)
    ensures IdOf(name, op.key) in (if name == ConversationNs then o.conversationPuts else o.messagePuts)
    ensures EntityValue(db, name, IdOf(name, op.key)) == Some(op.value)
  {
    var ids := if name == ConversationNs then o.conversationPuts else o.messagePuts;
    var mine := PutOps(db, name, ids);
    PutOpsContents(db, name, ids);
    EntityPutIsFromItsPart(clear, db, o, name, op);
    var j :| 0 <= j < |mine| && mine[j] == op;
  }

  /** A put of an entity key in the patch comes from that namespace's own puts. */
  lemma EntityPutIsFromItsPart(clear: bool, db: Db, o: PatchOrder, name: string, op: PatchOp)
    requires name == ConversationNs || name == MessageNs
    requires op in PatchFor(clear, db, o) && op.Put? && InNamespace(op.key, name)
    ensures op in PutOps(db, name, if name == ConversationNs then o.conversationPuts else o.messagePuts)
  {
    var other := if name == ConversationNs then MessageNs else ConversationNs;
    var otherIDs := if name == ConversationNs then o.messagePuts else o.conversationPuts;
    PatchMembership(clear, db, o, op);
    KeyOfId(name, op.key);
    PutIsNotInOtherNamespace(db, other, otherIDs, name, op);
    PutIsNotInDictionary(db, o.wordGroupPuts, name, op);
  }

  lemma PutIsNotInOtherNamespace(db: Db, other: string, otherIDs: seq<string>, name: string, op: PatchOp)
    requires {name, other} == {ConversationNs, MessageNs}
    requires op.Put? && InNamespace(op.key, name)
    ensures op !in PutOps(db, other, otherIDs)
  {
    var theirs := PutOps(db, other, otherIDs);
    PutOpsContents(db, other, otherIDs);
    forall j | 0 <= j < |theirs| ensures theirs[j] != op {
      KeyOfId(other, theirs[j].key);
      NamespacesAreDisjoint(other, name, IdOf(other, theirs[j].key));
    }
  }

  lemma PutIsNotInDictionary(db: Db, ids: seq<string>, name: string, op: PatchOp)
    requires name == ConversationNs || name == MessageNs
    requires op.Put? && InNamespace(op.key, name)
    ensures op !in DictionaryOps(db, ids)
  {
    var dict := DictionaryOps(db, ids);
    DictionaryKeys(db, ids);
    forall j | 0 <= j < |dict| ensures dict[j] != op {
      var word := if InNamespace(dict[j].key, WordsName) then WordsName else AlphagramsName;
      KeyOfId(word, dict[j].key);
      NamespacesAreDisjoint(word, name, IdOf(word, dict[j].key));
    }
  }

  /** Each changed word group contributes its words put immediately followed
      by its alphagrams put. */
  lemma PatchPutsEachWordGroup(clear: bool, db: Db, o: PatchOrder, diff: CVRDiff, id: string)
    requires ListsDiff(o, diff)
    requires id in DiffOf(diff, WordGroupNs).puts && id in db.wordGroups
    ensures var p := PatchFor(clear, db, o);
      exists i | 0 <= i < |p| - 1 ::
        && p[i] == Put(Key(WordsName, id), WordsValue(db.wordGroups[id].value.words))
        && p[i + 1] == Put(Key(AlphagramsName, id), AlphagramsValue(db.wordGroups[id].value.alphagrams))
  {
    var k := PatchPairsWordGroup(clear, db, o, id);
  }

  lemma PatchPairsWordGroup(clear: bool, db: Db, o: PatchOrder, id: string) returns (k: nat)
    requires id in o.wordGroupPuts && id in db.wordGroups
    ensures var p := PatchFor(clear, db, o);
      && k + 1 < |p|
      && p[k] == Put(Key(WordsName, id), WordsValue(db.wordGroups[id].value.words))
      && p[k + 1] == Put(Key(AlphagramsName, id), AlphagramsValue(db.wordGroups[id].value.alphagrams))
  {
    var p := PatchFor(clear, db, o);
    var front := EntityOps(clear, db, o);
    var dict := DictionaryOps(db, o.wordGroupPuts);
    var i := DictionaryPairsWordsWithAlphagrams(db, o.wordGroupPuts, id);
    k := |front| + i;
    assert p[k] == dict[i] && p[k + 1] == dict[i + 1];
  }

  // ---------------------------------------------------------------------
  // The imperative handler

  /** The diff hands each of its id sets over as an array, in some order. */
  method Listed(s: set<string>) returns (xs: seq<string>)
    ensures Enumerates(xs, s)
  {
    xs := [];
    var rest := s;
    while rest != {}
      invariant rest <= s
      invariant Enumerates(xs, s - rest)
      decreases rest
    {
      var x :| x in rest;
      xs := xs + [x];
      rest := rest - {x};
    }
  }

  method ListDiff(diff: CVRDiff) returns (o: PatchOrder)
    ensures ListsDiff(o, diff)
  {
    var conversationDels := Listed(DiffOf(diff, ConversationNs).dels);
    var conversationPuts := Listed(DiffOf(diff, ConversationNs).puts);
    var messageDels := Listed(DiffOf(diff, MessageNs).dels);
    var messagePuts := Listed(DiffOf(diff, MessageNs).puts);
    var wordGroupPuts := Listed(DiffOf(diff, WordGroupNs).puts);
    o := PatchOrder(conversationDels, conversationPuts, messageDels, messagePuts, wordGroupPuts);
  }

  method AppendDels(patch: seq<PatchOp>, name: string, ids: seq<string>) returns (r: seq<PatchOp>)
    ensures r == patch + DelOps(name, ids)
  {
    r := patch;
    for i := 0 to |ids|
      invariant r == patch + DelOps(name, ids[..i])
    {
      assert ids[..i + 1][..i] == ids[..i];
      r := r + [Del(Key(name, ids[i]))];
    }
    assert ids[..|ids|] == ids;
  }

  method AppendPuts(patch: seq<PatchOp>, db: Db, name: string, ids: seq<string>) returns (r: seq<PatchOp>)
    ensures r == patch + PutOps(db, name, ids)
  {
    r := patch;
    for i := 0 to |ids|
      invariant r == patch + PutOps(db, name, ids[..i])
    {
      assert ids[..i + 1][..i] == ids[..i];
      var entity := EntityValue(db, name, ids[i]);
      if entity.Some? {
        r := r + [Put(Key(name, ids[i]), entity.value)];
      }
    }
    assert ids[..|ids|] == ids;
  }

  method AppendDictionary(patch: seq<PatchOp>, db: Db, ids: seq<string>) returns (r: seq<PatchOp>)
    ensures r == patch + DictionaryOps(db, ids)
  {
    r := patch;
    for i := 0 to |ids|
      invariant r == patch + DictionaryOps(db, ids[..i])
    {
      assert ids[..i + 1][..i] == ids[..i];
      if ids[i] in db.wordGroups {
        var group := db.wordGroups[ids[i]].value;
        r := r + [Put(Key(WordsName, ids[i]), WordsValue(group.words)),
                  Put(Key(AlphagramsName, ids[i]), AlphagramsValue(group.alphagrams))];
      }
    }
    assert ids[..|ids|] == ids;
  }

  /** Builds the patch one operation at a time. */
  method MakePatch(clear: bool, db: Db, o: PatchOrder) returns (patch: seq<PatchOp>)
    ensures patch == PatchFor(clear, db, o)
  {
    patch := if clear then [Clear] else [];
    patch := AppendDels(patch, ConversationNs, o.conversationDels);
    patch := AppendPuts(patch, db, ConversationNs, o.conversationPuts);
    patch := AppendDels(patch, MessageNs, o.messageDels);
    patch := AppendPuts(patch, db, MessageNs, o.messagePuts);
    patch := AppendDictionary(patch, db, o.wordGroupPuts);
  }

  /** Fills the last-mutation-id changes one changed client at a time. */
  method ClientChanges(diff: CVRDiff, next: CVR) returns (clients: map<string, int>)
    ensures clients == LastMutationIDChanges(diff, next)
  {
    var puts := DiffOf(diff, ClientNs).puts;
    var entries := EntriesOf(next, ClientNs);
    clients := map[];
    var rest := puts;
    while rest != {}
      invariant rest <= puts
      invariant clients == map id | id in puts - rest && id in entries :: entries[id]
      decreases rest
    {
      var id :| id in rest;
      if id in entries {
        clients := clients[id := entries[id]];
      }
      rest := rest - {id};
    }
  }

  /** One pull: the transaction reads the group and the current view, and
      unless nothing changed records the bumped counter; the new view is
      cached under a fresh id that the returned cookie carries. */
  method HandlePull(store: Tables.Store, cache: CvrCache, userID: string, request: PullRequest)
    returns (r: Outcome<PullResponse>)
    modifies store, cache
    ensures old(store.Valid()) ==> store.Valid()
    ensures var db := old(store.Snapshot());
      var prev := PrevCVR(old(cache.entries), request.cookie);
      var next := NextCVR(db, userID, request.clientGroupID);
      var diff := DiffCVR(BaseCVR(prev), next);
      match GetClientGroup(db, request.clientGroupID, userID)
      case Err(e) =>
        r == Err(e) && store.Snapshot() == db && cache.entries == old(cache.entries)
      case Ok(clientGroup) =>
        if prev.Some? && IsCVRDiffEmpty(diff) then
          && r == Ok(PullResponse(request.cookie, map[], []))
          && store.Snapshot() == db
          && cache.entries == old(cache.entries)
        else
          var version := NextCVRVersion(request.cookie, clientGroup);
          && store.Snapshot() == PutClientGroup(db, clientGroup.(cvrVersion := version))
          && r.Ok?
          && r.value.cookie.Some?
          && r.value.cookie.value.order == version
          && r.value.cookie.value.cvrID !in old(cache.entries)
          && cache.entries == old(cache.entries)[r.value.cookie.value.cvrID := next]
          && r.value.lastMutationIDChanges == LastMutationIDChanges(diff, next)
          && IsPatchFor(r.value.patch, prev.None?, db, diff)
  {
    var prev := PrevCVR(cache.entries, request.cookie);
    var base := BaseCVR(prev);
    var db := store.Snapshot();
    var clientGroup := GetClientGroup(db, request.clientGroupID, userID);
    if clientGroup.Err? {
      return Err(clientGroup.error);
    }
    var next := NextCVR(db, userID, request.clientGroupID);
    var diff := DiffCVR(base, next);
    if prev.Some? && IsCVRDiffEmpty(diff) {
      return Ok(PullResponse(request.cookie, map[], []));
    }
    var order := ListDiff(diff);
    var clients := ClientChanges(diff, next);
    var version := NextCVRVersion(request.cookie, clientGroup.value);
    store.PutClientGroup(clientGroup.value.(cvrVersion := version));
    ghost var written := store.Snapshot();
    var cvrID := cache.FreshKey();
    cache.Set(cvrID, next);
    assert store.Snapshot() == written;
    var patch := MakePatch(prev.None?, db, order);
    assert ListsDiff(order, diff) && patch == PatchFor(prev.None?, db, order);
    r := Ok(PullResponse(Some(Cookie(version, cvrID)), clients, patch));
  }
}
