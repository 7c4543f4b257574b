/** The store's tables as values, the reads the server performs on them and,
    for every write, the table state it leaves behind. The class in
    tables.dfy performs the same writes in place. */
module Data {
  import opened Wrappers
  import opened Schema

  /** A snapshot of the store: one map per table, keyed by primary key.
      `clock` is the next row version; the store assigns it to a row it
      inserts, standing for the row's transaction id (xmin). */
  datatype Db = Db(
    clientGroups: map<string, ClientGroup>,
    clients: map<string, Client>,
    conversations: map<string, Versioned<Conversation>>,
    messages: map<string, Versioned<Message>>,
    wordGroups: map<string, Versioned<WordGroup>>,
    clock: nat)

  /** Every row sits under its own primary key, every row version was handed
      out before the clock's current value, and every message's conversation
      exists (the foreign key of the message table). */
  ghost predicate Valid(db: Db) {
    && (forall k | k in db.clientGroups :: db.clientGroups[k].id == k)
    && (forall k | k in db.clients :: db.clients[k].id == k)
    && (forall k | k in db.conversations ::
          db.conversations[k].value.id == k && db.conversations[k].rowVersion < db.clock)
    && (forall k | k in db.messages ::
          && db.messages[k].value.id == k
          && db.messages[k].rowVersion < db.clock
          && db.messages[k].value.conversationID in db.conversations)
    && (forall k | k in db.wordGroups ::
          db.wordGroups[k].value.id == k && db.wordGroups[k].rowVersion < db.clock)
  }

  /** An id with the row version it was read at. */
  datatype SearchResult = SearchResult(id: string, rowVersion: int)

  /** The entities a mutation touched, bucketed by invalidation channel. */
  datatype Affected = Affected(conversationIDs: seq<string>, userIDs: seq<string>)

  const NoneAffected := Affected([], [])

  /** The result of a mutation handler: what it touched and the tables after it. */
  datatype Change = Change(affected: Affected, db: Db)

  /** The call that returned `r` and left `after` behaved as `spec` says: on
      success it returned the affected set and committed the tables; on
      failure it threw the same error and the tables are as they were before. */
  predicate CommitsAs(spec: Outcome<Change>, r: Outcome<Affected>, before: Db, after: Db) {
    match spec
    case Ok(change) => r == Ok(change.affected) && after == change.db
    case Err(e) => r == Err(e) && after == before
  }

  /** A set of search results holds each id at most once. */
  ghost predicate UniqueIds(rs: set<SearchResult>) {
    forall a, b | a in rs && b in rs && a.id == b.id :: a == b
  }

  predicate OwnsConversation(db: Db, userID: string, conversationID: string) {
    conversationID in db.conversations
    && db.conversations[conversationID].value.ownerUserID == Some(userID)
  }

  /** A message is visible to a user when it is in a conversation the user owns. */
  predicate CanSeeMessage(db: Db, userID: string, messageID: string) {
    messageID in db.messages
    && OwnsConversation(db, userID, db.messages[messageID].value.conversationID)
  }

  // ---------------------------------------------------------------------
  // Reads

  /** Loads a client group, or synthesises an empty one for a new id; a group
      owned by another user is an authorization error. */
  function GetClientGroup(db: Db, clientGroupID: string, userID: string): (r: Outcome<ClientGroup>)
    ensures r.Ok? <==> (clientGroupID in db.clientGroups ==> db.clientGroups[clientGroupID].userID == userID)
    ensures r.Err? ==> r.error == NotClientGroupOwner
    ensures r.Ok? ==> r.value.id == clientGroupID && r.value.userID == userID
    ensures r.Ok? ==>
      r.value.cvrVersion == if clientGroupID in db.clientGroups then db.clientGroups[clientGroupID].cvrVersion else 0
  {
    if clientGroupID !in db.clientGroups then
      Ok(ClientGroup(clientGroupID, userID, 0))
    else
      var row := db.clientGroups[clientGroupID];
      if row.userID != userID then Err(NotClientGroupOwner)
      else Ok(ClientGroup(clientGroupID, row.userID, row.cvrVersion))
  }

  /** Loads a client, or synthesises one that has processed no mutation; a
      client of another group is an authorization error. */
  function GetClient(db: Db, clientID: string, clientGroupID: string): (r: Outcome<Client>)
    ensures r.Ok? <==> (clientID in db.clients ==> db.clients[clientID].clientGroupID == clientGroupID)
    ensures r.Err? ==> r.error == ClientNotInGroup
    ensures r.Ok? ==> r.value == if clientID in db.clients then db.clients[clientID] else Client(clientID, "", 0)
  {
    if clientID !in db.clients then
      Ok(Client(clientID, "", 0))
    else
      var row := db.clients[clientID];
      if row.clientGroupID != clientGroupID then Err(ClientNotInGroup)
      else Ok(Client(row.id, row.clientGroupID, row.lastMutationID))
  }

  /** Ids and row versions of the conversations the user owns. */
  function SearchConversations(db: Db, accessibleByUserID: string): (r: set<SearchResult>)
    ensures UniqueIds(r)
    ensures forall s | s in r ::
      OwnsConversation(db, accessibleByUserID, s.id) && s.rowVersion == db.conversations[s.id].rowVersion
    ensures forall id | OwnsConversation(db, accessibleByUserID, id) ::
      SearchResult(id, db.conversations[id].rowVersion) in r
  {
    set id | id in db.conversations && OwnsConversation(db, accessibleByUserID, id)
      :: SearchResult(id, db.conversations[id].rowVersion)
  }

  /** Ids and row versions of the messages in conversations the user owns. */
  function SearchMessages(db: Db, accessibleByUserID: string): (r: set<SearchResult>)
    ensures UniqueIds(r)
    ensures forall s | s in r ::
      CanSeeMessage(db, accessibleByUserID, s.id) && s.rowVersion == db.messages[s.id].rowVersion
    ensures forall id | CanSeeMessage(db, accessibleByUserID, id) ::
      SearchResult(id, db.messages[id].rowVersion) in r
  {
    set id | id in db.messages && CanSeeMessage(db, accessibleByUserID, id)
      :: SearchResult(id, db.messages[id].rowVersion)
  }

  /** The clients of a group, with their last mutation id standing as their version. */
  function SearchClients(db: Db, clientGroupID: string): (r: set<SearchResult>)
    ensures UniqueIds(r)
    ensures forall s | s in r ::
      s.id in db.clients && db.clients[s.id].clientGroupID == clientGroupID
      && s.rowVersion == db.clients[s.id].lastMutationID
    ensures forall id | id in db.clients && db.clients[id].clientGroupID == clientGroupID ::
      SearchResult(id, db.clients[id].lastMutationID) in r
  {
    set id | id in db.clients && db.clients[id].clientGroupID == clientGroupID
      :: SearchResult(id, db.clients[id].lastMutationID)
  }

  /** No word group of the same length was modified later than this one. */
  predicate IsLatestOfLength(db: Db, id: string)
    requires id in db.wordGroups
  {
    forall other | other in db.wordGroups
      && db.wordGroups[other].value.length == db.wordGroups[id].value.length
      :: db.wordGroups[other].value.lastModified <= db.wordGroups[id].value.lastModified
  }

  /** For each word length, the most recently modified word group. */
  function SearchWordGroups(db: Db): (r: set<SearchResult>)
    ensures UniqueIds(r)
    ensures forall s | s in r ::
      s.id in db.wordGroups && IsLatestOfLength(db, s.id) && s.rowVersion == db.wordGroups[s.id].rowVersion
  {
    set id | id in db.wordGroups && IsLatestOfLength(db, id) :: SearchResult(id, db.wordGroups[id].rowVersion)
  }

  /** Among the groups in `ids` of length `len` there is one modified no earlier than the others. */
  lemma {:induction false} LatestInSubset(db: Db, len: int, ids: set<string>, some: string) returns (w: string)
    requires ids <= db.wordGroups.Keys
    requires some in ids && db.wordGroups[some].value.length == len
    ensures w in ids && db.wordGroups[w].value.length == len
    ensures forall o | o in ids && db.wordGroups[o].value.length == len ::
      db.wordGroups[o].value.lastModified <= db.wordGroups[w].value.lastModified
    decreases ids
  {
    var rest := ids - {some};
    if r :| r in rest && db.wordGroups[r].value.length == len {
      var v := LatestInSubset(db, len, rest, r);
      w := if db.wordGroups[some].value.lastModified <= db.wordGroups[v].value.lastModified then v else some;
    } else {
      w := some;
    }
  }

  /** Every word length present in the table is represented in the search, and
      all groups the search returns for one length share its latest modification time. */
  lemma WordGroupSearchCoversEveryLength(db: Db, id: string)
    requires id in db.wordGroups
    ensures exists s | s in SearchWordGroups(db) ::
      db.wordGroups[s.id].value.length == db.wordGroups[id].value.length
    ensures forall a, b | a in SearchWordGroups(db) && b in SearchWordGroups(db)
      && db.wordGroups[a.id].value.length == db.wordGroups[b.id].value.length
      :: db.wordGroups[a.id].value.lastModified == db.wordGroups[b.id].value.lastModified
  {
    var w := LatestInSubset(db, db.wordGroups[id].value.length, db.wordGroups.Keys, id);
    assert IsLatestOfLength(db, w);
    assert SearchResult(w, db.wordGroups[w].rowVersion) in SearchWordGroups(db);
  }

  // ---------------------------------------------------------------------
  // Writes

  /** Upserts a client group: inserted when new, otherwise its user and
      counter are overwritten. */
  function PutClientGroup(db: Db, clientGroup: ClientGroup): (r: Db)
    ensures GetClientGroup(r, clientGroup.id, clientGroup.userID) == Ok(clientGroup)
    ensures r.clientGroups.Keys == db.clientGroups.Keys + {clientGroup.id}
    ensures forall k | k in db.clientGroups && k != clientGroup.id :: r.clientGroups[k] == db.clientGroups[k]
    ensures r == db.(clientGroups := r.clientGroups)
    ensures Valid(db) ==> Valid(r)
  {
    db.(clientGroups := db.clientGroups[clientGroup.id := clientGroup])
  }

  /** Upserts a client: inserted when new; when it exists only its last
      mutation id is overwritten and its group is kept. */
  function PutClient(db: Db, client: Client): (r: Db)
    ensures client.id in r.clients && r.clients[client.id].lastMutationID == client.lastMutationID
    ensures r.clients[client.id] ==
      if client.id in db.clients then db.clients[client.id].(lastMutationID := client.lastMutationID) else client
    ensures r.clients.Keys == db.clients.Keys + {client.id}
    ensures forall k | k in db.clients && k != client.id :: r.clients[k] == db.clients[k]
    ensures r == db.(clients := r.clients)
    ensures Valid(db) ==> Valid(r)
  {
    var row := if client.id in db.clients then db.clients[client.id].(lastMutationID := client.lastMutationID)
               else client;
    db.(clients := db.clients[client.id := row])
  }

  /** Inserts a conversation; a user may only create conversations they own. */
  function CreateConversation(db: Db, userID: string, conversation: Conversation): (r: Outcome<Change>)
    ensures r.Ok? <==> conversation.ownerUserID == Some(userID) && conversation.id !in db.conversations
    ensures r.Err? && conversation.ownerUserID != Some(userID) ==> r.error == NotConversationOwner
    ensures r.Ok? ==> r.value.affected == Affected([], [userID])
    ensures r.Ok? ==> r.value.db == db.(
      conversations := db.conversations[conversation.id := Versioned(conversation, db.clock)],
      clock := db.clock + 1)
    ensures r.Ok? && Valid(db) ==> Valid(r.value.db)
  {
    if conversation.ownerUserID != Some(userID) then Err(NotConversationOwner)
    else if conversation.id in db.conversations then Err(DuplicateKey)
    else
      var db' := db.(conversations := db.conversations[conversation.id := Versioned(conversation, db.clock)],
                     clock := db.clock + 1);
      Ok(Change(Affected([], [conversation.ownerUserID.value]), db'))
  }

  /** Inserts a message; the user must own the conversation it is posted into. */
  function CreateMessage(db: Db, userID: string, message: Message): (r: Outcome<Change>)
    ensures r.Ok? <==> OwnsConversation(db, userID, message.conversationID) && message.id !in db.messages
    ensures r.Err? && !OwnsConversation(db, userID, message.conversationID) ==> r.error == ConversationNotAccessible
    ensures r.Ok? ==> r.value.affected == Affected([message.conversationID], [])
    ensures r.Ok? ==> r.value.db == db.(
      messages := db.messages[message.id := Versioned(message, db.clock)],
      clock := db.clock + 1)
    ensures r.Ok? && Valid(db) ==> Valid(r.value.db)
  {
    if !OwnsConversation(db, userID, message.conversationID) then Err(ConversationNotAccessible)
    else if message.id in db.messages then Err(DuplicateKey)
    else
      var db' := db.(messages := db.messages[message.id := Versioned(message, db.clock)],
                     clock := db.clock + 1);
      Ok(Change(Affected([message.conversationID], []), db'))
  }

  /** Deletes a message; it must be in a conversation the user owns. */
  function DeleteMessage(db: Db, userID: string, messageID: string): (r: Outcome<Change>)
    ensures r.Ok? <==> CanSeeMessage(db, userID, messageID)
    ensures r.Err? ==> r.error == MessageNotFound
    ensures r.Ok? ==> r.value.affected == Affected([db.messages[messageID].value.conversationID], [])
    ensures r.Ok? ==> r.value.db == db.(messages := db.messages - {messageID})
    ensures r.Ok? && Valid(db) ==> Valid(r.value.db)
  {
    if !CanSeeMessage(db, userID, messageID) then Err(MessageNotFound)
    else
      Ok(Change(Affected([db.messages[messageID].value.conversationID], []),
                db.(messages := db.messages - {messageID})))
  }

  // ---------------------------------------------------------------------
  // What the writes mean for later reads

  /** A created conversation becomes visible to its owner, and to no one else. */
  lemma CreateConversationVisibility(db: Db, userID: string, conversation: Conversation, other: string)
    requires Valid(db)
    requires CreateConversation(db, userID, conversation).Ok?
    ensures var db' := CreateConversation(db, userID, conversation).value.db;
      && SearchConversations(db', userID) ==
           SearchConversations(db, userID) + {SearchResult(conversation.id, db.clock)}
      && (other != userID ==> SearchConversations(db', other) == SearchConversations(db, other))
      && SearchMessages(db', other) == SearchMessages(db, other)
  {
    var db' := CreateConversation(db, userID, conversation).value.db;
    var n := SearchResult(conversation.id, db.clock);
    forall u ensures SearchMessages(db', u) == SearchMessages(db, u) {
      assert forall id :: CanSeeMessage(db', u, id) == CanSeeMessage(db, u, id);
    }
    forall u, s ensures s in SearchConversations(db', u) <==>
      s in SearchConversations(db, u) || (u == userID && s == n)
    {
      if s.id != conversation.id {
        assert OwnsConversation(db', u, s.id) == OwnsConversation(db, u, s.id);
        if OwnsConversation(db, u, s.id) {
          assert db'.conversations[s.id] == db.conversations[s.id];
          assert SearchResult(s.id, db.conversations[s.id].rowVersion) in SearchConversations(db', u);
          assert SearchResult(s.id, db.conversations[s.id].rowVersion) in SearchConversations(db, u);
        }
      } else {
        assert OwnsConversation(db', u, s.id) <==> u == userID;
        assert !OwnsConversation(db, u, s.id);
        if u == userID {
          assert n in SearchConversations(db', u);
        }
      }
    }
  }

  /** A created message becomes visible to the conversation's owner, and to no one else. */
  lemma CreateMessageVisibility(db: Db, userID: string, message: Message, other: string)
    requires CreateMessage(db, userID, message).Ok?
    ensures var db' := CreateMessage(db, userID, message).value.db;
      && SearchMessages(db', userID) == SearchMessages(db, userID) + {SearchResult(message.id, db.clock)}
      && (other != userID ==> SearchMessages(db', other) == SearchMessages(db, other))
      && SearchConversations(db', other) == SearchConversations(db, other)
  {
    var db' := CreateMessage(db, userID, message).value.db;
    var n := SearchResult(message.id, db.clock);
    forall u, s ensures s in SearchMessages(db', u) <==>
      s in SearchMessages(db, u) || (u == userID && s == n)
    {
      if s.id != message.id {
        assert CanSeeMessage(db', u, s.id) == CanSeeMessage(db, u, s.id);
        if CanSeeMessage(db, u, s.id) {
          assert db'.messages[s.id] == db.messages[s.id];
          assert SearchResult(s.id, db.messages[s.id].rowVersion) in SearchMessages(db', u);
          assert SearchResult(s.id, db.messages[s.id].rowVersion) in SearchMessages(db, u);
        }
      } else {
        assert CanSeeMessage(db', u, s.id) <==> u == userID;
        assert !CanSeeMessage(db, u, s.id);
        if u == userID {
          assert n in SearchMessages(db', u);
        }
      }
    }
  }

  /** A deleted message disappears from every user's view; nothing else does. */
  lemma DeleteMessageVisibility(db: Db, userID: string, messageID: string, other: string)
    requires DeleteMessage(db, userID, messageID).Ok?
    ensures var db' := DeleteMessage(db, userID, messageID).value.db;
      && SearchMessages(db', other) == SearchMessages(db, other) - {SearchResult(messageID, db.messages[messageID].rowVersion)}
      && SearchConversations(db', other) == SearchConversations(db, other)
  {
    var db' := DeleteMessage(db, userID, messageID).value.db;
    forall s ensures s in SearchMessages(db', other) <==>
      s in SearchMessages(db, other) && s != SearchResult(messageID, db.messages[messageID].rowVersion)
    {
      if s.id != messageID {
        assert CanSeeMessage(db', other, s.id) == CanSeeMessage(db, other, s.id);
        if CanSeeMessage(db, other, s.id) {
          assert db'.messages[s.id] == db.messages[s.id];
          assert SearchResult(s.id, db.messages[s.id].rowVersion) in SearchMessages(db', other);
        }
      }
    }
  }

  /** A client written by the processor reads back with the written mutation id. */
  lemma GetClientAfterPutClient(db: Db, client: Client)
    requires client.id in db.clients ==> db.clients[client.id].clientGroupID == client.clientGroupID
    requires Valid(db)
    ensures GetClient(PutClient(db, client), client.id, client.clientGroupID).Ok?
    ensures GetClient(PutClient(db, client), client.id, client.clientGroupID).value.lastMutationID
      == client.lastMutationID
  {
  }
}
