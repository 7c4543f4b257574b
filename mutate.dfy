/** Mutation records as the client sends them, validation of their
    arguments, and dispatch on the mutation's name to its handler. */
module Mutate {
  import opened Wrappers
  import opened Schema
  import opened Data
  import Tables

  /** The JSON values a mutation's arguments are made of (numbers are integers here). */
  datatype Json =
    | JNull
    | JBool(b: bool)
    | JNum(n: int)
    | JStr(s: string)
    | JArr(items: seq<Json>)
    | JObj(fields: map<string, Json>)

  /** A mutation as pushed by a client; `args` is arbitrary JSON until its handler's schema accepts it. */
  datatype Mutation = Mutation(id: int, clientID: string, name: string, args: Json)

  /** The names the push request's schema accepts. */
  const MutationNames: set<string> := {"createConversation", "createMessage", "deleteMessage"}

  // ---------------------------------------------------------------------
  // Argument schemas: the insert schemas of the conversation and message
  // tables (every column except last_modified), and a bare string id.
  // Keys outside the schema are ignored.

  /** A required text column. */
  function RequiredText(fields: map<string, Json>, key: string): Option<string> {
    if key in fields && fields[key].JStr? then Some(fields[key].s) else None
  }

  /** A nullable text column: an absent key or null reads as null; `None` means the value has the wrong type. */
  function NullableText(fields: map<string, Json>, key: string): Option<Option<string>> {
    if key !in fields || fields[key].JNull? then Some(None)
    else if fields[key].JStr? then Some(Some(fields[key].s))
    else None
  }

  function NullableInteger(fields: map<string, Json>, key: string): Option<Option<int>> {
    if key !in fields || fields[key].JNull? then Some(None)
    else if fields[key].JNum? then Some(Some(fields[key].n))
    else None
  }

  function NullableBoolean(fields: map<string, Json>, key: string): Option<Option<bool>> {
    if key !in fields || fields[key].JNull? then Some(None)
    else if fields[key].JBool? then Some(Some(fields[key].b))
    else None
  }

  function ParseConversation(args: Json): Option<Conversation> {
    match args
    case JObj(f) =>
      var id, owner := RequiredText(f, "id"), NullableText(f, "ownerUserID");
      if id.Some? && owner.Some? then Some(Conversation(id.value, owner.value)) else None
    case _ => None
  }

  function ParseMessage(args: Json): Option<Message> {
    match args
    case JObj(f) =>
      var id, conversationID := RequiredText(f, "id"), RequiredText(f, "conversationID");
      var sender, content := NullableText(f, "sender"), NullableText(f, "content");
      var ord, deleted := NullableInteger(f, "ord"), NullableBoolean(f, "deleted");
      if id.Some? && conversationID.Some? && sender.Some? && content.Some? && ord.Some? && deleted.Some? then
        Some(Message(id.value, sender.value, content.value, ord.value, deleted.value, conversationID.value))
      else None
    case _ => None
  }

  function ParseMessageID(args: Json): Option<string> {
    if args.JStr? then Some(args.s) else None
  }

  // Encoders: the arguments a client sends for an entity.

  function NullableTextJson(v: Option<string>): Json {
    match v
    case None => JNull
    case Some(s) => JStr(s)
  }

  function ConversationArgs(c: Conversation): Json {
    JObj(map["id" := JStr(c.id), "ownerUserID" := NullableTextJson(c.ownerUserID)])
  }

  function MessageArgs(m: Message): Json {
    JObj(map[
      "id" := JStr(m.id),
      "conversationID" := JStr(m.conversationID),
      "sender" := NullableTextJson(m.sender),
      "content" := NullableTextJson(m.content),
      "ord" := (match m.ord case None => JNull case Some(n) => JNum(n)),
      "deleted" := (match m.deleted case None => JNull case Some(b) => JBool(b))])
  }

  lemma ConversationRoundTrip(c: Conversation)
    ensures ParseConversation(ConversationArgs(c)) == Some(c)
  {
    var f := ConversationArgs(c).fields;
    assert RequiredText(f, "id") == Some(c.id);
    assert NullableText(f, "ownerUserID") == Some(c.ownerUserID);
  }

  lemma MessageRoundTrip(m: Message)
    ensures ParseMessage(MessageArgs(m)) == Some(m)
  {
    var f := MessageArgs(m).fields;
    assert RequiredText(f, "id") == Some(m.id);
    assert RequiredText(f, "conversationID") == Some(m.conversationID);
    assert NullableText(f, "sender") == Some(m.sender);
    assert NullableText(f, "content") == Some(m.content);
    assert NullableInteger(f, "ord") == Some(m.ord);
    assert NullableBoolean(f, "deleted") == Some(m.deleted);
  }

  // ---------------------------------------------------------------------
  // Dispatch

  /** Runs the handler the mutation names with the caller's user id, after
      validating its arguments; an argument mismatch fails before any write,
      and a name outside the schema's enum touches nothing. */
  function Mutate(db: Db, userID: string, mutation: Mutation): (r: Outcome<Change>)
    ensures mutation.name !in MutationNames ==> r == Ok(Change(NoneAffected, db))
    ensures mutation.name in MutationNames ==> r != Ok(Change(NoneAffected, db))
    ensures r.Ok? && Valid(db) ==> Valid(r.value.db)
    ensures r.Ok? ==> r.value.db.clientGroups == db.clientGroups && r.value.db.clients == db.clients
  {
    if mutation.name == "createConversation" then
      match ParseConversation(mutation.args)
      case None => Err(InvalidArgs)
      case Some(c) => CreateConversation(db, userID, c)
    else if mutation.name == "createMessage" then
      match ParseMessage(mutation.args)
      case None => Err(InvalidArgs)
      case Some(m) => CreateMessage(db, userID, m)
    else if mutation.name == "deleteMessage" then
      match ParseMessageID(mutation.args)
      case None => Err(InvalidArgs)
      case Some(id) => DeleteMessage(db, userID, id)
    else
      Ok(Change(NoneAffected, db))
  }

  /** A createConversation mutation whose arguments pass the insert schema
      runs that handler on the parsed conversation, for the pushing user. */
  lemma DispatchCreateConversation(db: Db, userID: string, mutation: Mutation, c: Conversation)
    requires mutation.name == "createConversation" && ParseConversation(mutation.args) == Some(c)
    ensures Mutate(db, userID, mutation) == CreateConversation(db, userID, c)
  {
  }

  /** A createMessage mutation whose arguments pass the insert schema runs
      that handler on the parsed message, for the pushing user. */
  lemma DispatchCreateMessage(db: Db, userID: string, mutation: Mutation, m: Message)
    requires mutation.name == "createMessage" && ParseMessage(mutation.args) == Some(m)
    ensures Mutate(db, userID, mutation) == CreateMessage(db, userID, m)
  {
  }

  lemma DispatchDeleteMessage(db: Db, userID: string, id: int, clientID: string, messageID: string)
    ensures Mutate(db, userID, Mutation(id, clientID, "deleteMessage", JStr(messageID)))
         == DeleteMessage(db, userID, messageID)
  {
  }

  /** Arguments that fail their schema make the mutation throw before it writes anything. */
  lemma MismatchedArgsThrow(db: Db, userID: string, mutation: Mutation)
    requires
      || (mutation.name == "createConversation" && ParseConversation(mutation.args).None?)
      || (mutation.name == "createMessage" && ParseMessage(mutation.args).None?)
      || (mutation.name == "deleteMessage" && !mutation.args.JStr?)
    ensures Mutate(db, userID, mutation) == Err(InvalidArgs)
  {
  }

  /** The dispatch switch, run against the store: the chosen handler writes in place. */
  method Apply(store: Tables.Store, userID: string, mutation: Mutation) returns (r: Outcome<Affected>)
    modifies store
    ensures CommitsAs(Mutate(old(store.Snapshot()), userID, mutation), r, old(store.Snapshot()), store.Snapshot())
  {
    if mutation.name == "createConversation" {
      var c := ParseConversation(mutation.args);
      if c.None? { return Err(InvalidArgs); }
      r := store.CreateConversation(userID, c.value);
    } else if mutation.name == "createMessage" {
      var m := ParseMessage(mutation.args);
      if m.None? { return Err(InvalidArgs); }
      r := store.CreateMessage(userID, m.value);
    } else if mutation.name == "deleteMessage" {
      var id := ParseMessageID(mutation.args);
      if id.None? { return Err(InvalidArgs); }
      r := store.DeleteMessage(userID, id.value);
    } else {
      r := Ok(NoneAffected);
    }
  }
}
