/** Row shapes of the tables the sync server reads and writes, and the
    errors its operations throw. */
module Schema {
  import opened Wrappers

  /** A row of `replicache_client_group`: the owning user and the group's
      pull counter, bumped once per non-trivial pull. */
  datatype ClientGroup = ClientGroup(id: string, userID: string, cvrVersion: int)

  /** A row of `replicache_client`: the group the client belongs to and the
      id of the last mutation from it that has been processed. */
  datatype Client = Client(id: string, clientGroupID: string, lastMutationID: int)

  /** A row of `conversation`; the owner column is nullable. */
  datatype Conversation = Conversation(id: string, ownerUserID: Option<string>)

  /** A row of `message`; every column except the id and the conversation is nullable. */
  datatype Message = Message(
    id: string,
    sender: Option<string>,
    content: Option<string>,
    ord: Option<int>,
    deleted: Option<bool>,
    conversationID: string)

  /** The columns of a message that a pull sends to the client (`deleted` is not selected). */
  datatype MessageBody = MessageBody(
    id: string,
    conversationID: string,
    sender: Option<string>,
    content: Option<string>,
    ord: Option<int>)

  /** One word of the dictionary as a pull sends it. */
  datatype Word = Word(w: string, a: string, d: Option<string>, cv: bool, nv: bool, p: int)

  /** One alphagram with the words spelled from it, as a pull sends it. */
  datatype Alphagram = Alphagram(a: string, ws: seq<string>, cs: int, ns: int)

  /** A dictionary word group. Its alphagrams and words stand for the rows of the
      alphagram and word tables that belong to the group. */
  datatype WordGroup = WordGroup(
    id: string,
    length: int,
    lastModified: int,
    alphagrams: seq<Alphagram>,
    words: seq<Word>)

  /** A stored row together with the version the store assigned when it was written. */
  datatype Versioned<T> = Versioned(value: T, rowVersion: nat)

  datatype Error =
    | NotClientGroupOwner          // the client group belongs to another user
    | ClientNotInGroup             // the client belongs to another client group
    | FutureMutation(id: int)      // a mutation id beyond the next expected one
    | NotConversationOwner         // a conversation created for someone else
    | ConversationNotAccessible    // a message posted into a conversation the user does not own
    | MessageNotFound              // a message to delete that the user cannot see
    | InvalidArgs                  // mutation arguments that do not match their schema
    | InvalidRequest               // a request body that does not match its schema
    | DuplicateKey                 // an insert whose primary key is already taken

  type Outcome<T> = Result<T, Error>
}
