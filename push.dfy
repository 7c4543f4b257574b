/** The push handler: each mutation of a batch runs in its own transaction,
    strictly in order, with a bookkeeping-only retry when it throws; the
    entities the batch touched are then poked. */
module Push {
  import opened Wrappers
  import opened Schema
  import opened Data
  import opened Mutate
  import opened Poke
  import opened OrderedSets
  import Tables

  datatype PushRequest = PushRequest(clientGroupID: string, mutations: seq<Mutation>)

  /** The push request schema: every mutation names one of the known mutations. */
  predicate ValidPushRequest(request: PushRequest) {
    forall i | 0 <= i < |request.mutations| :: request.mutations[i].name in MutationNames
  }

  // ---------------------------------------------------------------------
  // One mutation

  /** What one `processMutation` transaction does to the tables. A duplicate id
      is skipped without a write, an id from the future throws, and the expected
      id runs the business logic (skipped in error mode) and then records the
      client's new last mutation id and the client group. */
  function Processed(db: Db, userID: string, clientGroupID: string, mutation: Mutation, errorMode: bool)
    : (r: Outcome<Change>)
    ensures r.Ok? && Valid(db) ==> Valid(r.value.db)
  {
    match GetClientGroup(db, clientGroupID, userID)
    case Err(e) => Err(e)
    case Ok(clientGroup) =>
      match GetClient(db, mutation.clientID, clientGroupID)
      case Err(e) => Err(e)
      case Ok(baseClient) =>
        var nextMutationID := baseClient.lastMutationID + 1;
        if mutation.id < nextMutationID then
          Ok(Change(NoneAffected, db))
        else if mutation.id > nextMutationID then
          Err(FutureMutation(mutation.id))
        else
          var business := if errorMode then Ok(Change(NoneAffected, db)) else Mutate.Mutate(db, userID, mutation);
          match business
          case Err(e) => Err(e)
          case Ok(change) =>
            var nextClient := Client(mutation.clientID, clientGroupID, nextMutationID);
            Ok(Change(change.affected, PutClient(PutClientGroup(change.db, clientGroup), nextClient)))
  }

  /** The id the processor expects next from a client it can authorize. */
  function NextMutationID(db: Db, clientGroupID: string, clientID: string): int
    requires GetClient(db, clientID, clientGroupID).Ok?
  {
    GetClient(db, clientID, clientGroupID).value.lastMutationID + 1
  }

  /** A processor that can authorize the caller and the client. */
  predicate Authorized(db: Db, userID: string, clientGroupID: string, clientID: string) {
    GetClientGroup(db, clientGroupID, userID).Ok? && GetClient(db, clientID, clientGroupID).Ok?
  }

  /** A duplicate (an id below the expected one) is acknowledged with nothing
      affected and no write, in either mode. */
  lemma DuplicateIsSkipped(db: Db, userID: string, clientGroupID: string, mutation: Mutation, errorMode: bool)
    requires Authorized(db, userID, clientGroupID, mutation.clientID)
    requires mutation.id < NextMutationID(db, clientGroupID, mutation.clientID)
    ensures Processed(db, userID, clientGroupID, mutation, errorMode) == Ok(Change(NoneAffected, db))
  {
  }

  /** An id beyond the expected one throws, in either mode, so its transaction persists nothing. */
  lemma FutureMutationThrows(db: Db, userID: string, clientGroupID: string, mutation: Mutation, errorMode: bool)
    requires Authorized(db, userID, clientGroupID, mutation.clientID)
    requires mutation.id > NextMutationID(db, clientGroupID, mutation.clientID)
    ensures Processed(db, userID, clientGroupID, mutation, errorMode) == Err(FutureMutation(mutation.id))
  {
  }

  /** A processed mutation with the expected id leaves the client at exactly that
      id, in its group, and the group at the counter it was loaded with. */
  lemma ExpectedMutationAdvancesClient(db: Db, userID: string, clientGroupID: string, mutation: Mutation, errorMode: bool)
    requires Valid(db)
    requires Authorized(db, userID, clientGroupID, mutation.clientID)
    requires mutation.id == NextMutationID(db, clientGroupID, mutation.clientID)
    requires Processed(db, userID, clientGroupID, mutation, errorMode).Ok?
    ensures var after := Processed(db, userID, clientGroupID, mutation, errorMode).value.db;
      && mutation.clientID in after.clients
      && after.clients[mutation.clientID] == Client(mutation.clientID, clientGroupID, mutation.id)
      && clientGroupID in after.clientGroups
      && after.clientGroups[clientGroupID] == GetClientGroup(db, clientGroupID, userID).value
      && NextMutationID(after, clientGroupID, mutation.clientID) == mutation.id + 1
  {
  }

  /** In error mode the business logic is skipped: nothing is affected, the
      domain tables are untouched, and the client still advances. */
  lemma ErrorModeOnlyRecordsBookkeeping(db: Db, userID: string, clientGroupID: string, mutation: Mutation)
    requires Valid(db)
    requires Authorized(db, userID, clientGroupID, mutation.clientID)
    requires mutation.id == NextMutationID(db, clientGroupID, mutation.clientID)
    ensures var r := Processed(db, userID, clientGroupID, mutation, true);
      && r.Ok?
      && r.value.affected == NoneAffected
      && r.value.db.conversations == db.conversations
      && r.value.db.messages == db.messages
      && r.value.db.wordGroups == db.wordGroups
      && r.value.db.clients[mutation.clientID].lastMutationID == mutation.id
  {
  }

  /** In normal mode the expected id runs the business logic: its throw is the
      transaction's throw, and on success the transaction reports what the
      handler affected and keeps the domain tables the handler wrote. */
  lemma NormalModeRunsTheHandler(db: Db, userID: string, clientGroupID: string, mutation: Mutation)
    requires Authorized(db, userID, clientGroupID, mutation.clientID)
    requires mutation.id == NextMutationID(db, clientGroupID, mutation.clientID)
    ensures var r := Processed(db, userID, clientGroupID, mutation, false);
      var m := Mutate.Mutate(db, userID, mutation);
      && (m.Err? ==> r == Err(m.error))
      && (m.Ok? ==>
            && r.Ok?
            && r.value.affected == m.value.affected
            && r.value.db.conversations == m.value.db.conversations
            && r.value.db.messages == m.value.db.messages
            && r.value.db.wordGroups == m.value.db.wordGroups)
  {
  }

  // ---------------------------------------------------------------------
  // One step of the push loop

  /** Runs the mutation; if that throws, runs it again in error mode, whose own
      failure fails the push. Only the first attempt's affected set counts. */
  function PushStep(db: Db, userID: string, clientGroupID: string, mutation: Mutation): (r: Outcome<Change>)
    ensures r.Ok? && Valid(db) ==> Valid(r.value.db)
  {
    match Processed(db, userID, clientGroupID, mutation, false)
    case Ok(change) => Ok(change)
    case Err(_) =>
      match Processed(db, userID, clientGroupID, mutation, true)
      case Ok(change) => Ok(Change(NoneAffected, change.db))
      case Err(e) => Err(e)
  }

  /** A mutation with the expected id never blocks its client: even when its
      business logic throws, the step succeeds and the client moves past it. */
  lemma PoisonMutationDoesNotBlock(db: Db, userID: string, clientGroupID: string, mutation: Mutation)
    requires Valid(db)
    requires Authorized(db, userID, clientGroupID, mutation.clientID)
    requires mutation.id == NextMutationID(db, clientGroupID, mutation.clientID)
    ensures var r := PushStep(db, userID, clientGroupID, mutation);
      && r.Ok?
      && Authorized(r.value.db, userID, clientGroupID, mutation.clientID)
      && NextMutationID(r.value.db, clientGroupID, mutation.clientID) == mutation.id + 1
      && (Processed(db, userID, clientGroupID, mutation, false).Err? ==> r.value.affected == NoneAffected)
  {
    var first := Processed(db, userID, clientGroupID, mutation, false);
    var cg := GetClientGroup(db, clientGroupID, userID).value;
    if first.Ok? {
      ExpectedMutationAdvancesClient(db, userID, clientGroupID, mutation, false);
      assert GetClientGroup(first.value.db, clientGroupID, userID) == Ok(cg);
    } else {
      ErrorModeOnlyRecordsBookkeeping(db, userID, clientGroupID, mutation);
      ExpectedMutationAdvancesClient(db, userID, clientGroupID, mutation, true);
      assert GetClientGroup(Processed(db, userID, clientGroupID, mutation, true).value.db, clientGroupID, userID) == Ok(cg);
    }
  }

  /** A future id fails the first attempt and the retry alike, so it fails the push. */
  lemma FutureMutationFailsPush(db: Db, userID: string, clientGroupID: string, mutation: Mutation)
    requires Authorized(db, userID, clientGroupID, mutation.clientID)
    requires mutation.id > NextMutationID(db, clientGroupID, mutation.clientID)
    ensures PushStep(db, userID, clientGroupID, mutation) == Err(FutureMutation(mutation.id))
  {
    FutureMutationThrows(db, userID, clientGroupID, mutation, false);
    FutureMutationThrows(db, userID, clientGroupID, mutation, true);
  }

  // ---------------------------------------------------------------------
  // The whole batch

  /** What a batch leaves behind: the tables (every transaction before a failure
      stays committed), the affected conversations and users gathered from the
      mutations that succeeded at the first attempt, and the error that failed
      the push, if any. */
  datatype PushRun = PushRun(db: Db, conversationIDs: seq<string>, userIDs: seq<string>, failure: Option<Error>)

  /** The push loop from its current point: the rest of the batch, in order,
      each mutation in its own transaction. */
  function RunMutations(db: Db, userID: string, clientGroupID: string, mutations: seq<Mutation>,
                        conversationIDs: seq<string>, userIDs: seq<string>): (r: PushRun)
    ensures Valid(db) ==> Valid(r.db)
    ensures Distinct(conversationIDs) && Distinct(userIDs) ==> Distinct(r.conversationIDs) && Distinct(r.userIDs)
    ensures forall x | x in conversationIDs :: x in r.conversationIDs
    ensures forall x | x in userIDs :: x in r.userIDs
    ensures mutations != [] && PushStep(db, userID, clientGroupID, mutations[0]).Ok? ==>
      var affected := PushStep(db, userID, clientGroupID, mutations[0]).value.affected;
      && (forall x | x in affected.conversationIDs :: x in r.conversationIDs)
      && (forall x | x in affected.userIDs :: x in r.userIDs)
    decreases |mutations|
  {
    if mutations == [] then PushRun(db, conversationIDs, userIDs, None)
    else
      match PushStep(db, userID, clientGroupID, mutations[0])
      case Err(e) => PushRun(db, conversationIDs, userIDs, Some(e))
      case Ok(change) =>
        RunMutations(change.db, userID, clientGroupID, mutations[1..],
                     AddAll(conversationIDs, change.affected.conversationIDs),
                     AddAll(userIDs, change.affected.userIDs))
  }

  /** The conversations and the users that the mutations of a batch affected
      at their first attempt, up to the step that fails the push. */
  function BatchAffected(db: Db, userID: string, clientGroupID: string, mutations: seq<Mutation>): (set<string>, set<string>)
    decreases |mutations|
  {
    if mutations == [] then ({}, {})
    else
      match PushStep(db, userID, clientGroupID, mutations[0])
      case Err(_) => ({}, {})
      case Ok(change) =>
        var rest := BatchAffected(change.db, userID, clientGroupID, mutations[1..]);
        ((set x | x in change.affected.conversationIDs) + rest.0,
         (set x | x in change.affected.userIDs) + rest.1)
  }

  /** The push gathers exactly the ids it started with and the ids the batch
      affected: nothing affected is missed and nothing else is added. */
  lemma {:induction false} RunGathersTheAffected(db: Db, userID: string, clientGroupID: string, mutations: seq<Mutation>,
                                                 conversationIDs: seq<string>, userIDs: seq<string>)
    ensures var run := RunMutations(db, userID, clientGroupID, mutations, conversationIDs, userIDs);
      var affected := BatchAffected(db, userID, clientGroupID, mutations);
      && (forall x :: x in run.conversationIDs <==> x in conversationIDs || x in affected.0)
      && (forall x :: x in run.userIDs <==> x in userIDs || x in affected.1)
    decreases |mutations|
  {
    if mutations != [] {
      match PushStep(db, userID, clientGroupID, mutations[0])
      case Err(_) =>
      case Ok(change) =>
        RunGathersTheAffected(change.db, userID, clientGroupID, mutations[1..],
                              AddAll(conversationIDs, change.affected.conversationIDs),
                              AddAll(userIDs, change.affected.userIDs));
    }
  }

  /** A push pokes the channel of every conversation and every user its batch
      affected, and no other conversation or user channel. */
  lemma PushPokesTheAffected(db: Db, userID: string, clientGroupID: string, mutations: seq<Mutation>)
    ensures var run := RunMutations(db, userID, clientGroupID, mutations, [], []);
      var affected := BatchAffected(db, userID, clientGroupID, mutations);
      var channels := PokeChannels(run.conversationIDs, run.userIDs);
      && (forall x :: ConversationChannel(x) in channels <==> x in affected.0)
      && (forall x :: UserChannel(x) in channels <==> x in affected.1)
  {
    var run := RunMutations(db, userID, clientGroupID, mutations, [], []);
    RunGathersTheAffected(db, userID, clientGroupID, mutations, [], []);
    ChannelsArePoked(run.conversationIDs, run.userIDs);
  }

  lemma ChannelsArePoked(conversationIDs: seq<string>, userIDs: seq<string>)
    ensures forall x :: ConversationChannel(x) in PokeChannels(conversationIDs, userIDs) <==> x in conversationIDs
    ensures forall x :: UserChannel(x) in PokeChannels(conversationIDs, userIDs) <==> x in userIDs
  {
    forall x
      ensures ConversationChannel(x) in PokeChannels(conversationIDs, userIDs) <==> x in conversationIDs
      ensures UserChannel(x) in PokeChannels(conversationIDs, userIDs) <==> x in userIDs
    {
      ConversationIsPoked(conversationIDs, userIDs, x);
      UserIsPoked(conversationIDs, userIDs, x);
    }
  }

  /** A conversation's channel is among the channels iff the conversation is. */
  lemma ConversationIsPoked(conversationIDs: seq<string>, userIDs: seq<string>, x: string)
    ensures ConversationChannel(x) in PokeChannels(conversationIDs, userIDs) <==> x in conversationIDs
  {
    var channels := PokeChannels(conversationIDs, userIDs);
    var n := |conversationIDs|;
    if ConversationChannel(x) in channels {
      var i :| 0 <= i < |channels| && channels[i] == ConversationChannel(x);
      if i < n {
        assert channels[i] == ConversationChannel(conversationIDs[i]);
        ChannelNamesAreInjective(x, conversationIDs[i]);
      } else {
        assert channels[n + (i - n)] == UserChannel(userIDs[i - n]);
        ChannelNamesAreInjective(x, userIDs[i - n]);
      }
    }
    if x in conversationIDs {
      var i :| 0 <= i < n && conversationIDs[i] == x;
      assert channels[i] == ConversationChannel(x);
    }
  }

  /** A user's channel is among the channels iff the user is. */
  lemma UserIsPoked(conversationIDs: seq<string>, userIDs: seq<string>, x: string)
    ensures UserChannel(x) in PokeChannels(conversationIDs, userIDs) <==> x in userIDs
  {
    var channels := PokeChannels(conversationIDs, userIDs);
    var n := |conversationIDs|;
    if UserChannel(x) in channels {
      var i :| 0 <= i < |channels| && channels[i] == UserChannel(x);
      if i < n {
        assert channels[i] == ConversationChannel(conversationIDs[i]);
        ChannelNamesAreInjective(conversationIDs[i], x);
      } else {
        assert channels[n + (i - n)] == UserChannel(userIDs[i - n]);
        ChannelNamesAreInjective(x, userIDs[i - n]);
      }
    }
    if x in userIDs {
      var i :| 0 <= i < |userIDs| && userIDs[i] == x;
      assert channels[n + i] == UserChannel(x);
    }
  }

  /** A createConversation that is the next mutation of its client and whose
      handler succeeds makes the push poke its owner, the pushing user. */
  lemma CreatedConversationOwnerIsAffected(db: Db, userID: string, clientGroupID: string,
                                           mutations: seq<Mutation>, c: Conversation)
    requires mutations != []
    requires Authorized(db, userID, clientGroupID, mutations[0].clientID)
    requires mutations[0].id == NextMutationID(db, clientGroupID, mutations[0].clientID)
    requires mutations[0].name == "createConversation" && ParseConversation(mutations[0].args) == Some(c)
    requires CreateConversation(db, userID, c).Ok?
    ensures userID in BatchAffected(db, userID, clientGroupID, mutations).1
  {
    DispatchCreateConversation(db, userID, mutations[0], c);
    NormalModeRunsTheHandler(db, userID, clientGroupID, mutations[0]);
  }

  /** A batch of consecutive mutations from one authorized client always gets
      through: the push does not fail, whatever the mutations' business logic
      does, and the client ends at the batch's last id. */
  lemma {:induction false} ConsecutiveBatchSucceeds(db: Db, userID: string, clientGroupID: string, clientID: string,
                                                    mutations: seq<Mutation>, conversationIDs: seq<string>, userIDs: seq<string>)
    requires Valid(db)
    requires Authorized(db, userID, clientGroupID, clientID)
    requires forall i | 0 <= i < |mutations| ::
      mutations[i].clientID == clientID && mutations[i].id == NextMutationID(db, clientGroupID, clientID) + i
    ensures var run := RunMutations(db, userID, clientGroupID, mutations, conversationIDs, userIDs);
      && run.failure.None?
      && Authorized(run.db, userID, clientGroupID, clientID)
      && NextMutationID(run.db, clientGroupID, clientID) == NextMutationID(db, clientGroupID, clientID) + |mutations|
    decreases |mutations|
  {
    if mutations != [] {
      ConsecutiveBatchStep(db, userID, clientGroupID, clientID, mutations);
      var change := PushStep(db, userID, clientGroupID, mutations[0]).value;
      ConsecutiveBatchSucceeds(change.db, userID, clientGroupID, clientID, mutations[1..],
                               AddAll(conversationIDs, change.affected.conversationIDs),
                               AddAll(userIDs, change.affected.userIDs));
    }
  }

  /** The first mutation of a consecutive batch gets through and leaves the
      rest of the batch consecutive from the client's new position. */
  lemma ConsecutiveBatchStep(db: Db, userID: string, clientGroupID: string, clientID: string, mutations: seq<Mutation>)
    requires Valid(db)
    requires Authorized(db, userID, clientGroupID, clientID)
    requires mutations != []
    requires forall i | 0 <= i < |mutations| ::
      mutations[i].clientID == clientID && mutations[i].id == NextMutationID(db, clientGroupID, clientID) + i
    ensures var r := PushStep(db, userID, clientGroupID, mutations[0]);
      && r.Ok?
      && Valid(r.value.db)
      && Authorized(r.value.db, userID, clientGroupID, clientID)
      && NextMutationID(r.value.db, clientGroupID, clientID) == NextMutationID(db, clientGroupID, clientID) + 1
      && (forall i | 0 <= i < |mutations| - 1 ::
            mutations[1..][i].clientID == clientID
            && mutations[1..][i].id == NextMutationID(r.value.db, clientGroupID, clientID) + i)
  {
    PoisonMutationDoesNotBlock(db, userID, clientGroupID, mutations[0]);
  }

  // ---------------------------------------------------------------------
  // Poke channels

  function ConversationChannel(conversationID: string): string {
    "conversation/" + conversationID
  }

  function UserChannel(userID: string): string {
    "user/" + userID
  }

  /** The channels a push pokes: every affected conversation, then every affected user. */
  function PokeChannels(conversationIDs: seq<string>, userIDs: seq<string>): (r: seq<string>)
    ensures |r| == |conversationIDs| + |userIDs|
    ensures forall i | 0 <= i < |conversationIDs| :: r[i] == ConversationChannel(conversationIDs[i])
    ensures forall i | 0 <= i < |userIDs| :: r[|conversationIDs| + i] == UserChannel(userIDs[i])
  {
    seq(|conversationIDs|, i requires 0 <= i < |conversationIDs| => ConversationChannel(conversationIDs[i]))
    + seq(|userIDs|, i requires 0 <= i < |userIDs| => UserChannel(userIDs[i]))
  }

  lemma ChannelNamesAreInjective(a: string, b: string)
    ensures ConversationChannel(a) == ConversationChannel(b) ==> a == b
    ensures UserChannel(a) == UserChannel(b) ==> a == b
    ensures ConversationChannel(a) != UserChannel(b)
  {
    if ConversationChannel(a) == ConversationChannel(b) {
      assert a == ConversationChannel(a)[13..];
    }
    if UserChannel(a) == UserChannel(b) {
      assert a == UserChannel(a)[5..];
    }
    assert ConversationChannel(a)[0] == 'c' && UserChannel(b)[0] == 'u';
  }

  /** Distinct affected ids give distinct channels: each distinct conversation
      and each distinct user is poked exactly once. */
  lemma PokeChannelsAreDistinct(conversationIDs: seq<string>, userIDs: seq<string>)
    requires Distinct(conversationIDs) && Distinct(userIDs)
    ensures Distinct(PokeChannels(conversationIDs, userIDs))
  {
    var r := PokeChannels(conversationIDs, userIDs);
    var n := |conversationIDs|;
    forall i, j | 0 <= i < j < |r| ensures r[i] != r[j] {
      if j < n {
        ChannelNamesAreInjective(conversationIDs[i], conversationIDs[j]);
      } else if i < n {
        ChannelNamesAreInjective(conversationIDs[i], userIDs[j - n]);
      } else {
        ChannelNamesAreInjective(userIDs[i - n], userIDs[j - n]);
      }
    }
  }

  // ---------------------------------------------------------------------
  // The imperative handler

  /** One `processMutation` transaction against the store. */
  method ProcessMutation(store: Tables.Store, userID: string, clientGroupID: string, mutation: Mutation, errorMode: bool)
    returns (r: Outcome<Affected>)
    modifies store
    ensures CommitsAs(Processed(old(store.Snapshot()), userID, clientGroupID, mutation, errorMode),
                      r, old(store.Snapshot()), store.Snapshot())
  {
    var db := store.Snapshot();
    var clientGroup := GetClientGroup(db, clientGroupID, userID);
    if clientGroup.Err? {
      return Err(clientGroup.error);
    }
    var baseClient := GetClient(db, mutation.clientID, clientGroupID);
    if baseClient.Err? {
      return Err(baseClient.error);
    }
    var nextMutationID := baseClient.value.lastMutationID + 1;
    if mutation.id < nextMutationID {
      return Ok(NoneAffected);
    }
    if mutation.id > nextMutationID {
      return Err(FutureMutation(mutation.id));
    }
    var affected := NoneAffected;
    if !errorMode {
      var result := Apply(store, userID, mutation);
      if result.Err? {
        return Err(result.error);
      }
      affected := result.value;
    }
    store.PutClientGroup(clientGroup.value);
    store.PutClient(Client(mutation.clientID, clientGroupID, nextMutationID));
    r := Ok(affected);
  }

  /** The push loop: the batch in order, each mutation in its own transaction,
      retried in error mode when it throws; a failed retry ends the push with
      the transactions before it committed. */
  method RunBatch(store: Tables.Store, userID: string, clientGroupID: string, mutations: seq<Mutation>)
    returns (conversationIDs: seq<string>, userIDs: seq<string>, failure: Option<Error>)
    modifies store
    ensures var run := RunMutations(old(store.Snapshot()), userID, clientGroupID, mutations, [], []);
      && store.Snapshot() == run.db
      && conversationIDs == run.conversationIDs
      && userIDs == run.userIDs
      && failure == run.failure
  {
    ghost var db0 := store.Snapshot();
    conversationIDs, userIDs := [], [];
    for i := 0 to |mutations|
      invariant RunMutations(db0, userID, clientGroupID, mutations, [], [])
             == RunMutations(store.Snapshot(), userID, clientGroupID, mutations[i..], conversationIDs, userIDs)
    {
      assert mutations[i..][0] == mutations[i] && mutations[i..][1..] == mutations[i + 1..];
      var affected := ProcessMutation(store, userID, clientGroupID, mutations[i], false);
      if affected.Ok? {
        conversationIDs := AddAll(conversationIDs, affected.value.conversationIDs);
        userIDs := AddAll(userIDs, affected.value.userIDs);
      } else {
        var retried := ProcessMutation(store, userID, clientGroupID, mutations[i], true);
        if retried.Err? {
          return conversationIDs, userIDs, Some(retried.error);
        }
      }
    }
    assert mutations[|mutations|..] == [];
    failure := None;
  }

  /** Pokes each channel in turn. */
  method PokeAll(backend: PokeBackend, channels: seq<string>)
    modifies backend`calls, backend`errors
    ensures backend.calls == old(backend.calls) + Fanout(backend.listeners, channels)
    ensures backend.errors == old(backend.errors) + Throwing(Fanout(backend.listeners, channels))
  {
    ghost var listeners, calls0, errors0 := backend.listeners, backend.calls, backend.errors;
    for k := 0 to |channels|
      invariant backend.listeners == listeners
      invariant backend.calls == calls0 + Fanout(listeners, channels[..k])
      invariant backend.errors == errors0 + Throwing(Fanout(listeners, channels[..k]))
    {
      ghost var done, next := Fanout(listeners, channels[..k]), Registered(listeners, channels[k]);
      FanoutStep(listeners, channels, k);
      backend.Poke(channels[k]);
      AppendAssociates(calls0, done, next);
      AppendAssociates(errors0, Throwing(done), Throwing(next));
    }
    assert channels[..|channels|] == channels;
  }

  /** Processes a push request and pokes the channels of everything it touched. */
  method HandlePush(store: Tables.Store, backend: PokeBackend, userID: string, request: PushRequest)
    returns (r: Outcome<()>)
    modifies store, backend`calls, backend`errors
    ensures old(store.Valid()) ==> store.Valid()
    ensures !ValidPushRequest(request) ==>
      && r == Err(InvalidRequest) && store.Snapshot() == old(store.Snapshot())
      && backend.calls == old(backend.calls) && backend.errors == old(backend.errors)
    ensures ValidPushRequest(request) ==>
      var run := RunMutations(old(store.Snapshot()), userID, request.clientGroupID, request.mutations, [], []);
      var channels := PokeChannels(run.conversationIDs, run.userIDs);
      && store.Snapshot() == run.db
      && (run.failure.Some? ==>
            r == Err(run.failure.value) && backend.calls == old(backend.calls) && backend.errors == old(backend.errors))
      && (run.failure.None? ==>
            && r == Ok(())
            && backend.calls == old(backend.calls) + Fanout(backend.listeners, channels)
            && backend.errors == old(backend.errors) + Throwing(Fanout(backend.listeners, channels)))
  {
    if !ValidPushRequest(request) {
      return Err(InvalidRequest);
    }
    var conversationIDs, userIDs, failure := RunBatch(store, userID, request.clientGroupID, request.mutations);
    if failure.Some? {
      return Err(failure.value);
    }
    PokeAll(backend, PokeChannels(conversationIDs, userIDs));
    r := Ok(());
  }

  lemma AppendAssociates<T>(a: seq<T>, b: seq<T>, c: seq<T>)
    ensures (a + b) + c == a + (b + c)
  {
  }

  /** Poking one more channel extends the calls and the failures by that channel's. */
  lemma FanoutStep(listeners: map<string, seq<Listener>>, channels: seq<string>, k: nat)
    requires k < |channels|
    ensures Fanout(listeners, channels[..k + 1]) == Fanout(listeners, channels[..k]) + Registered(listeners, channels[k])
    ensures Throwing(Fanout(listeners, channels[..k + 1]))
         == Throwing(Fanout(listeners, channels[..k])) + Throwing(Registered(listeners, channels[k]))
  {
    assert channels[..k + 1] == channels[..k] + [channels[k]];
    FanoutAppend(listeners, channels[..k], channels[k]);
    ThrowingConcat(Fanout(listeners, channels[..k]), Registered(listeners, channels[k]));
  }

  lemma {:induction false} FanoutAppend(listeners: map<string, seq<Listener>>, channels: seq<string>, channel: string)
    ensures Fanout(listeners, channels + [channel]) == Fanout(listeners, channels) + Registered(listeners, channel)
  {
    if channels != [] {
      assert (channels + [channel])[1..] == channels[1..] + [channel];
      FanoutAppend(listeners, channels[1..], channel);
    }
  }
}
