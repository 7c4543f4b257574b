/** The store itself: one mutable map per table. Each write changes the
    tables in place and leaves them as the matching function of Data says. */
module Tables {
  import opened Wrappers
  import opened Schema
  import opened Data

  class Store {
    var clientGroups: map<string, ClientGroup>
    var clients: map<string, Client>
    var conversations: map<string, Versioned<Conversation>>
    var messages: map<string, Versioned<Message>>
    var wordGroups: map<string, Versioned<WordGroup>>
    var clock: nat

    /** The tables as one value, as a transaction reads them. */
    function Snapshot(): Db
      reads this
    {
      Db(clientGroups, clients, conversations, messages, wordGroups, clock)
    }

    ghost predicate Valid()
      reads this
    {
      Data.Valid(Snapshot())
    }

    /** A store holding the given tables. */
    constructor (db: Db)
      ensures Snapshot() == db
    {
      clientGroups, clients := db.clientGroups, db.clients;
      conversations, messages, wordGroups := db.conversations, db.messages, db.wordGroups;
      clock := db.clock;
    }

    method PutClientGroup(clientGroup: ClientGroup)
      modifies this
      ensures Snapshot() == Data.PutClientGroup(old(Snapshot()), clientGroup)
    {
      clientGroups := clientGroups[clientGroup.id := clientGroup];
    }

    method PutClient(client: Client)
      modifies this
      ensures Snapshot() == Data.PutClient(old(Snapshot()), client)
    {
      if client.id in clients {
        // on conflict only the last mutation id is updated
        clients := clients[client.id := clients[client.id].(lastMutationID := client.lastMutationID)];
      } else {
        clients := clients[client.id := client];
      }
    }

    /** Inserts a conversation with a fresh row version; nothing is written when it throws. */
    method CreateConversation(userID: string, conversation: Conversation) returns (r: Outcome<Affected>)
      modifies this
      ensures CommitsAs(Data.CreateConversation(old(Snapshot()), userID, conversation), r, old(Snapshot()), Snapshot())
    {
      if conversation.ownerUserID != Some(userID) {
        return Err(NotConversationOwner);
      }
      if conversation.id in conversations {
        return Err(DuplicateKey);
      }
      conversations := conversations[conversation.id := Versioned(conversation, clock)];
      clock := clock + 1;
      r := Ok(Affected([], [conversation.ownerUserID.value]));
    }

    /** Inserts a message into a conversation the user owns; nothing is written when it throws. */
    method CreateMessage(userID: string, message: Message) returns (r: Outcome<Affected>)
      modifies this
      ensures CommitsAs(Data.CreateMessage(old(Snapshot()), userID, message), r, old(Snapshot()), Snapshot())
    {
      var accessible := message.conversationID in conversations
        && conversations[message.conversationID].value.ownerUserID == Some(userID);
      if !accessible {
        return Err(ConversationNotAccessible);
      }
      if message.id in messages {
        return Err(DuplicateKey);
      }
      messages := messages[message.id := Versioned(message, clock)];
      clock := clock + 1;
      r := Ok(Affected([message.conversationID], []));
    }

    /** Deletes a message the user can see; nothing is written when it throws. */
    method DeleteMessage(userID: string, messageID: string) returns (r: Outcome<Affected>)
      modifies this
      ensures CommitsAs(Data.DeleteMessage(old(Snapshot()), userID, messageID), r, old(Snapshot()), Snapshot())
    {
      if !(messageID in messages && CanSeeMessage(Snapshot(), userID, messageID)) {
        return Err(MessageNotFound);
      }
      var conversationID := messages[messageID].value.conversationID;
      messages := messages - {messageID};
      r := Ok(Affected([conversationID], []));
    }
  }
}
