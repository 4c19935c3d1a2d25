# A verified model of h2hc-linker

h2hc-linker stands between browser agents and a Holochain DHT. Browsers hold
WebSocket connections, authenticate, and register (dna, agent) cells; the linker
joins those agents to kitsune2 spaces on their behalf, gates HTTP requests by
session, queries peers, publishes ops, and keeps itself registered with a
joining service. This project models that state in Dafny and proves what holds
of it over every run. `dafny verify dfyconfig.toml` checks all of it.

## How the model is organised

- **Connection protocol** (`Protocol`, `ProtocolOwnership`, `ProtocolProxy`,
  `ProtocolSpaces`, `ProtocolAuth`, `ProtocolAccess`, `ProtocolSessions`,
  `ProtocolSenders`). A transition system with any number of connections and
  admin calls over the shared registries. A task gives way at each `.await` on a
  shared lock, so one step is one lock-protected access, and every interleaving
  of handlers is an event sequence. The session store drops its lock in the
  middle of create_session, as the in-memory backend does; the SQLite backend,
  which does not, has fewer interleavings. The system also carries a history of
  challenges, sessions, scopes and revocations which the linker itself does not
  keep; the authentication results are stated about that history.
- **The objects** (`Websocket`, `Registries`, `AgentProxy`, `SessionStore`,
  `SqliteStore`, `Middleware`). Classes with the source's fields and methods.
  The handlers are proved to do exactly what the protocol's steps do when no
  other task interferes, and such a run is proved to be one of the protocol's
  runs. The SQLite tables are proved to refine the in-memory maps, and the
  authentication store, the handlers and the HTTP gate run on either backend.
  Sign requests and pending DHT responses carry a ghost history that ties their
  maps to the runs the theorems are about.
- **DHT answers** (`WireOps`, `QuerySelection`, `PendingResponses`). Rebuilding
  records, details and links from condensed ops; choosing among parallel answers;
  matching responses to requests.
- **Stores and loops** (`TempOpStore`, `Preflight`, `Publish`, `RemoteSignals`,
  `Report`, `Registration`, `PercentEncoding`). Each loop is proved equal to a
  specification over the whole history of calls.

Hashing, signature verification, the capability codec, JSON and message encoders
are function parameters and the theorems hold for all of them; a theorem that
needs a round trip says so in its `requires`. Clock readings, peer answers,
kitsune2 outcomes, random nonces and tokens are inputs. Nonces and tokens drawn
by the protocol are fresh.

Where the code does not do what one might hope, the code is followed, a lemma
gives the run, and another says exactly when it does: spaces under concurrent
leave and join (`SpacesThroughoutIff`, `OverlapIffTwoStepsFromFailure`,
`RaceLeavesAgentWithoutSpace`), stale or lost WebSocket senders
(`DetachLeavesNoSenderIff`, `ReauthenticatedConnectionLeaks`,
`LateDropIsPromptIff`, `RemovalDropsNewerSender`), failed serialization of a
sign request (`LeftoversAreSerializationFailures`, `FailedSerializationLeaks`),
a session created while its agent is removed (`SessionsAllowedThroughoutIff`,
`RemovalDuringHandshakeLeavesSession`), an op stored again by a publisher that
read the clock earlier (`GoneIffLastStoreExpired`, `LateLockShortensLife`), a
repeated delete (`StatusAgreesIff`, `RepeatedDeleteDisagrees`), and a token
drawn twice (`SqliteRefinesMemory`, `ClashingInsertFails`).

The documentation differs from the code in two places, and the code is followed.
API.md:29 says that sessions are revoked when the WebSocket disconnects; the
cleanup (src/routes/websocket.rs:297-316) drops only the sender and keeps the
sessions. API.md:30 says that removing an agent closes its connections; the code
(src/auth/store.rs:55-69) drops stored senders, and each connection keeps its own.

## Model

The main results come first, then the rest by module.

| member | source | states |
|---|---|---|
| `ProtocolOwnership.OwnershipHolds` | src/routes/websocket.rs:297-491 | in every reachable state of any interleaving, mid-handler included: a proxy entry's sender is a connection that lists the cell or is about to drop it, connection lists have no duplicates, and every joined agent is accounted for by some connection |
| `ProtocolProxy.ProxyFollowsHistory` | src/agent_proxy.rs:95-148 | in every run a cell's entry names a connection exactly when that connection was the last to register the cell, and neither has anyone unregistered it nor has the connection closed since |
| `ProtocolAuth.AdmittedIffAuthorized` | src/router.rs:83-103 | with auth on, in every run a request passes both layers if and only if the history has a one-time challenge on a connection to an allowed agent, the capabilities of the then still allowed agent read in answer to it, a verified session created with them that spent it alone and has not ended since, and a later Register of that DNA by a connection whose last login before it was as that agent, with a session of its own |
| `ProtocolAccess.AllowedAgentGetsIn` | src/routes/websocket.rs:389-702 | from any reachable state with auth on, an allowed agent that answers a fresh challenge on an idle connection and registers a DNA can be admitted there, with exactly the capabilities it is allowed |
| `ProtocolSpaces.SpacesThroughoutIff` | src/gateway_kitsune.rs:560-673 | over a whole run every joined agent's DNA has a space at every moment exactly when no step acts on an outdated check |
| `ProtocolSpaces.OverlapIffTwoStepsFromFailure` | src/gateway_kitsune.rs:560-673 | while every joined agent's DNA has a space and all checks hold, some two further steps break that if and only if one task is about to insert an agent and another to remove its space |
| `ProtocolSessions.SessionsAllowedThroughoutIff` | src/auth/memory_store.rs:39-138 | over a whole run every session's agent is allowed at every moment exactly when no step inserts a session whose agent was removed after the check |
| `ProtocolSenders.SendersFollowHistory` | src/auth/store.rs:55-69 | in every run, the two steps of a removal included, a sender is on file for an agent exactly when the last entry about both attached it |
| `ProtocolSenders.LateDropIsPromptIff` | src/auth/store.rs:55-69 | the second step of a removal drops every sender of its agent and no other, and that is what dropping them at once would have left exactly when no connection on file has logged in as the agent since the removal |
| `Websocket.FinishIsARun` | src/routes/websocket.rs:323-571 | an undisturbed handler, run to its end, is one of the protocol's runs |
| `Websocket.AppState.HandleClientMessage` | src/routes/websocket.rs:323-571 | every message gets exactly the reply that is due by the old connection and allow list, does what the protocol's start and following steps do, and sends signals only for a SendRemoteSignal and touches pending sign requests only for a SignResponse |
| `SqliteStore.RunsRefine` | src/auth/sqlite_store.rs:98-315 | over every sequence of calls the SQLite and in-memory replies agree exactly when tokens are fresh, and then so do the states |
| `AgentProxy.InvariantHolds` | src/agent_proxy.rs:240-346 | over every run of up to 2^64 requests, taking an entry out and sending on it being separate steps: calls have distinct ids, each pending or taken-out entry is its own call's, and deliveries match slots |
| `AgentProxy.LeftoversAreSerializationFailures` | src/agent_proxy.rs:274-310 | when all calls have finished, an id is still pending exactly when its call failed to serialize and nobody delivered to it |
| `PendingResponses.PendingIffOpen` | src/dht_query.rs:78-152 | an id is pending exactly when registered with no response and no cleanup timer since |
| `WireOps.StatusAgreesIff` | src/routes/dht.rs:730-736 | Dead and null agree exactly when some create is valid and there are fewer deletes than valid creates or the deletes name them all |
| `WireOps.DetailsInvertCondense` | src/routes/dht.rs:634-749 | a whole answer condensed for an entry yields its original creates, valid and rejected apart and in order, and its original deletes and updates |
| `QuerySelection.SelectAnswer` | src/dht_query.rs:242-264 | the fallback loop of all four queries returns the first acceptable answer in spawn order, else the last Ok, else the first error, else Ok(None) |
| `TempOpStore.StoredIffSurvives` | src/temp_op_store.rs:158-227 | over any history a record is that of the last store of its id that no later cleanup found a minute old |
| `Preflight.ListIsKeptInfos` | src/wire_preflight.rs:139-160 | over any calls the list is, in order of last add, the latest info of each agent and space that no later call found expired |
| `Report.Conservation` | src/linker_report.rs:184-308 | over any run with senders interrupting drains, per space and measure: nothing extra is reported, and everything accepted is written, accumulated or queued exactly when no drain's sum exceeds a u64 |
| `Registration.RegistrationClient.Run` | src/registration.rs:77-126 | over every run: heartbeat k introduces the linker exactly when it is first or its predecessor failed, each sleep is the specified interval, and shutdown sends the signed deregistration exactly when the last answered heartbeat succeeded, even if one in flight is cancelled |
| `PercentEncoding.EncodeDecodeIff` | src/registration.rs:300-317 | the outputs are exactly the texts of unreserved characters (section 2.3 of RFC 3986) and upper-case triplets of other octets |
| `ProtocolOwnership.StepKeepsOwnership` | src/routes/websocket.rs:323-571 | every single event keeps the ownership invariant |
| `ProtocolOwnership.QuietRegistriesAreListed` | src/agent_proxy.rs:95-148 | with no handler running, every proxy entry belongs to an open connection that lists it, and every joined agent is listed by an open connection |
| `ProtocolOwnership.AllClosedMeansEmpty` | src/routes/websocket.rs:297-305 | once every connection has closed, the proxy map and the set of joined agents are empty |
| `ProtocolOwnership.ClosedConnectionsReceiveNothing` | src/agent_proxy.rs:133-148 | after its cleanup has dropped its proxy entries no entry ever points to that connection |
| `ProtocolSpaces.StepKeepsSpacesIff` | src/gateway_kitsune.rs:560-673 | a step keeps "every joined agent's DNA has a space" exactly when it does not act on an outdated check of the space or agent map |
| `ProtocolSpaces.SerializedOperationsKeepSpaces` | src/gateway_kitsune.rs:560-673 | over runs with one connection at a time inside a join or leave, every joined agent has a space |
| `ProtocolSpaces.NoOverlapKeepsSpaces` | src/gateway_kitsune.rs:560-673 | over runs in which no leave overlaps a join of the same DNA, every joined agent has a space |
| `ProtocolSpaces.RaceLeavesAgentWithoutSpace` | src/gateway_kitsune.rs:618-673 | for any two agents of a DNA, a reachable state in which one is joined and the space is gone |
| `ProtocolAuth.ChallengesAreDistinct` | src/routes/websocket.rs:601-617 | every challenge issued in a run is a different one |
| `ProtocolAuth.SessionsSpendDistinctNonces` | src/routes/websocket.rs:629-671 | two sessions never come from one challenge, nor share a token |
| `ProtocolAuth.SessionOrigin` | src/routes/websocket.rs:672-702 | a live session goes back to a creation with that token and agent, with no revocation and no effective removal since |
| `ProtocolAuth.LiveSessionGrants` | src/auth/memory_store.rs:76-121 | a session created and not ended grants exactly the capabilities it was created with and the DNAs registered for its agent since |
| `ProtocolAuth.AllowedIffAddedLast` | src/auth/memory_store.rs:39-56 | an agent is allowed exactly when the last change to its permission added it, with the capabilities given then |
| `ProtocolAuth.AuthInvariantHolds` | src/routes/websocket.rs:576-702 | in every run the session store equals the replayed history, each entry is justified by earlier ones, and each connection's pending challenge and identity are backed by it |
| `ProtocolAuth.SessionsAreAnnounced` | src/routes/websocket.rs:672-702 | every session created has had its AuthOk, or sending it is its connection's very next step |
| `ProtocolAccess.RegisterAdmits` | src/routes/websocket.rs:338-407 | from any reachable state with auth on, a Register by an idle connection logged in as an agent opens the DNA to each live session of that agent, with exactly the session's capabilities |
| `ProtocolAccess.IdentitiesAreLastLogins` | src/routes/websocket.rs:672-702 | in every run with auth on a connection is authenticated as an agent if and only if its last login was as that agent |
| `ProtocolSessions.StepKeepsSessionsAllowedIff` | src/auth/memory_store.rs:76-97 | a step keeps "every session's agent is allowed" exactly when it does not insert a session whose agent was removed after the check |
| `ProtocolSessions.RemovalDuringHandshakeLeavesSession` | src/auth/memory_store.rs:76-97 | a run after which a removed agent holds a session |
| `ProtocolSenders.DetachLeavesNoSenderIff` | src/routes/websocket.rs:307-316 | cleanup leaves no sender of the connection exactly when it was on file for no agent but the last it authenticated as |
| `ProtocolSenders.RemovalDropsNewerSender` | src/auth/store.rs:55-69 | a run that removes an agent, then logs a connection in as it, then drops its senders: the connection ends with a live session and an allowed identity, but off file |
| `ProtocolSenders.ReauthenticatedConnectionLeaks` | src/routes/websocket.rs:307-316 | a run after which a closed connection's sender is still on file |
| `Websocket.FinishJoin` | src/gateway_kitsune.rs:560-607 | undisturbed, the join steps add the agent and its space exactly when space creation and join succeed |
| `Websocket.FinishLeaves` | src/gateway_kitsune.rs:618-673 | undisturbed, the leave steps of a whole list equal leaving one cell after another |
| `Websocket.LeavesInAnyOrder` | src/routes/websocket.rs:299-305 | leaving a list of cells leaves all of them whatever their order, and closes exactly the spaces that lost an agent and have none left |
| `Websocket.FinishCreating` | src/routes/websocket.rs:672-702 | undisturbed, the session steps create the session, authenticate the connection and file its sender, or change nothing for an agent no longer allowed |
| `Websocket.FinishSignalling` | src/routes/websocket.rs:531-571 | undisturbed, a batch of signals leaves the space open exactly when it was, or a signal for an agent not registered here opened it |
| `Websocket.ReplyTellsTheStart` | src/routes/websocket.rs:323-571 | the protocol's first step of a handler starts registering, unregistering, signalling, creating a session or challenging exactly when that reply is due |
| `Websocket.AppState.CleanUp` | src/routes/websocket.rs:297-316 | the cleanup of a closed socket equals the protocol's closing steps: its proxy entries, the agents it lists, the spaces they leave empty and its sender are gone, and nothing else |
| `Websocket.AppState.HandleRegister` | src/routes/websocket.rs:338-435 | Registered if and only if authenticated, both hashes parse, and auth is off or the connection has no agent or this one; then the cell is listed, its entry is this connection's, with auth on exactly the agent's sessions gain the DNA, and the agent joins if kitsune2 allows; otherwise Error and no change |
| `Websocket.AppState.HandleUnregister` | src/routes/websocket.rs:437-491 | Unregistered exactly when authenticated and both hashes parse; then the cell is off the list and the proxy map and its agent not joined, nothing else changes but a space left empty; otherwise Error and no change |
| `Websocket.AppState.HandleSignResponse` | src/routes/websocket.rs:501-529 | takes exactly the named request out of the pending map, delivers the decoded signature, else the browser's error, else one of its own, and replies nothing |
| `Websocket.AppState.HandleSendRemoteSignal` | src/routes/websocket.rs:531-571 | exactly when authenticated with kitsune2 on and a DNA that parses, makes the specified deliveries and replies nothing; otherwise Error and no change |
| `Websocket.AppState.HandleAuth` | src/routes/websocket.rs:576-618 | AuthOk exactly for a key that parses with auth off, a challenge exactly for an allowed agent with auth on, AuthError otherwise, and the connection's fields after each |
| `Websocket.AppState.HandleAuthChallengeResponse` | src/routes/websocket.rs:622-703 | AuthOk with the drawn token if and only if an agent and a challenge were pending, the signature verifies and the agent is allowed; then the identity, the session with the agent's capabilities and the sender are there; otherwise AuthError; the challenge is consumed whatever the outcome |
| `AgentProxy.AgentProxyManager.FindSenderForAgent` | src/agent_proxy.rs:215-223 | a sender is found exactly when some cell of the agent is registered, and it is one of theirs |
| `AgentProxy.AgentProxyManager.BeginSign` | src/agent_proxy.rs:256-275 | a request takes the next counter value, wrapping at 64 bits, files its own receiver, and within 2^64 requests overwrites no entry |
| `AgentProxy.AgentProxyManager.DeliverSignature` | src/agent_proxy.rs:322-346 | a delivery takes out exactly the entry of its id, and its two steps are those of the runs |
| `AgentProxy.AgentProxyManager.AwaitSignature` | src/agent_proxy.rs:297-310 | a waiting call finishes in the run, with the first delivery that names its id, or by time-out if none does |
| `AgentProxy.AgentProxyManager.RequestAgentInfoSignature` | src/agent_proxy.rs:240-311 | one whole request: refused exactly without a connection of the agent, and otherwise finished in the run with the outcome returned |
| `SignRequestId.RequestIdsAreDistinct` | src/agent_proxy.rs:256-266 | equal id strings mean equal counter values, whatever the clock read |
| `AgentProxy.NewRequestOverwritesNothing` | src/agent_proxy.rs:256-275 | a new request's id is never pending |
| `AgentProxy.AnsweredOnceByOwnId` | src/agent_proxy.rs:277-346 | a call is answered by at most one delivery, naming its own id |
| `AgentProxy.NeverCancelled` | src/agent_proxy.rs:297-310 | a waiting call's receiver never ends with its sender dropped, whenever its time-out falls between the two steps of a delivery |
| `AgentProxy.NoCallsNoPendingEntries` | src/agent_proxy.rs:274-310 | with successful serialization, no call in flight means no pending entry |
| `AgentProxy.FailedSerializationLeaks` | src/agent_proxy.rs:268-276 | a run whose pending entry stays behind |
| `Registries.GatewayKitsune.AgentJoin` | src/gateway_kitsune.rs:560-607 | atomically: joining twice changes nothing, success joins the agent, a created space outlives a failed join, and joined agents keep having spaces |
| `Registries.GatewayKitsune.AgentLeave` | src/gateway_kitsune.rs:618-658 | atomically: removes the agent, and its space exactly with its last agent |
| `Registries.GatewayKitsune.MaybeCleanupSpace` | src/gateway_kitsune.rs:661-673 | a space goes exactly when no joined agent uses it |
| `Registries.GatewayKitsune.Shutdown` | src/gateway_kitsune.rs:678-689 | no agents remain, and no space of theirs |
| `Registries.AuthStore.RemoveAgent` | src/auth/store.rs:55-69 | on either backend: removes the agent with its sessions, and drops its senders exactly when it was allowed |
| `Registries.AuthStore.CreateSession` | src/auth/store.rs:100-107 | on either backend: a session for an allowed agent; a database error reads as a refusal and changes nothing |
| `SessionStore.SessionsBelongToAllowedAgents` | src/auth/memory_store.rs:39-138 | after any calls every session's agent is allowed |
| `SessionStore.LateInsertKeepsValidIff` | src/auth/memory_store.rs:76-97 | the second half of create_session keeps that exactly when the agent is still allowed then |
| `SessionStore.RemovalRacesSessionCreation` | src/auth/memory_store.rs:76-97 | a removal between its two locks leaves a session for a removed agent |
| `SessionStore.MemorySessionStore.RemoveAgent` | src/auth/memory_store.rs:47-56 | removes the agent with all its sessions, or nothing |
| `SessionStore.MemorySessionStore.ReadCapabilities` | src/auth/memory_store.rs:76-85 | the first lock section reads the capabilities of exactly an allowed agent |
| `SessionStore.MemorySessionStore.InsertNewSession` | src/auth/memory_store.rs:93-97 | the second lock section keeps every session's agent allowed exactly when this one still is |
| `SessionStore.MemorySessionStore.RegisterDnaForAgent` | src/auth/memory_store.rs:109-121 | the loop adds the DNA to exactly the sessions of that agent |
| `SessionStore.MemorySessionStore.RevokeSessionsForAgent` | src/auth/memory_store.rs:123-133 | removes exactly the agent's sessions and returns how many there were |
| `SqliteStore.StatementKeepsInvariant` | src/auth/sqlite_store.rs:50-83 | every statement used, cascade included, keeps DNA rows naming existing sessions of the same agent and sessions naming allowed agents |
| `SqliteStore.DeleteAllowedKeepsInvariantIff` | src/auth/sqlite_store.rs:126-131 | deleting the allowed row keeps the invariant exactly when the agent has no sessions left: the statement order matters |
| `SqliteStore.RemoveAgentPrefixKeepsInvariant` | src/auth/sqlite_store.rs:111-133 | stopping after any prefix of the three untransacted statements keeps the invariant |
| `SqliteStore.CallKeepsInvariant` | src/auth/sqlite_store.rs:98-315 | so does every call |
| `SqliteStore.SqliteRefinesMemory` | src/auth/sqlite_store.rs:98-315 | one call gives the in-memory reply and state if and only if it does not draw a live token; if it does, it changes nothing and reports an error |
| `SqliteStore.ClashingInsertFails` | src/auth/sqlite_store.rs:198-223 | a drawn token that is live violates the primary key and leaves the tables as they were |
| `SqliteStore.SqliteSessionStore.RemoveAgent` | src/auth/sqlite_store.rs:111-133 | the three statements together remove the agent and all its sessions from the store the tables stand for, and report whether it was allowed, as the in-memory store does |
| `SqliteStore.SqliteSessionStore.CreateSession` | src/auth/sqlite_store.rs:198-223 | gives the in-memory store's reply and state, except exactly when an allowed agent draws a live token: an error and no change |
| `SqliteStore.SqliteSessionStore.ValidateSession` | src/auth/sqlite_store.rs:225-266 | the loop over joined rows returns the session the token names in the store the tables stand for |
| `SqliteStore.SqliteSessionStore.RegisterDnaForAgent` | src/auth/sqlite_store.rs:278-294 | adds the DNA to exactly the sessions of that agent in the store the tables stand for |
| `SqliteStore.SqliteSessionStore.RevokeSession` | src/auth/sqlite_store.rs:268-276 | ends exactly that session in the store the tables stand for, and reports whether it existed |
| `SqliteStore.SqliteSessionStore.RevokeSessionsForAgent` | src/auth/sqlite_store.rs:296-309 | ends exactly the agent's sessions in the store the tables stand for and returns how many there were |
| `Middleware.CheckCapability` | src/auth/middleware.rs:64-98 | response for each missing part, and the context attached exactly on success |
| `Middleware.ResolvesIff` | src/auth/middleware.rs:17-21 | a header resolves to a session exactly when it is the Bearer prefix followed by its token |
| `Middleware.RequireDnaScope` | src/auth/middleware.rs:107-141 | passes exactly a parsed DNA in the attached scope |
| `Middleware.Gate` | src/router.rs:83-103 | the two layers in sequence let through exactly the requests whose live session has the capability and the DNA |
| `WireOps.WireEntryOpsToDetails` | src/routes/dht.rs:634-749 | the loop that pushes into two vectors computes the specified details |
| `WireOps.WireEntryOpsToRecord` | src/routes/dht.rs:472-540 | the early-return loop computes the specified record |
| `WireOps.RecordIsFirstUndeletedAction` | src/routes/dht.rs:472-540 | the record is the first of the details' actions that no delete in those details names, null when there is none |
| `WireOps.RecordComesFromFirstValidCreate` | src/routes/dht.rs:490-540 | the record is rebuilt from the first create with a missing or Valid status that no delete names |
| `WireOps.DetailsLoseNothing` | src/routes/dht.rs:651-728 | actions are the creates with a missing or Valid status and rejected actions the Rejected and Abandoned ones, both in order, and every delete and update is there |
| `WireOps.NullIffAllDeleted` | src/routes/dht.rs:483-539 | with distinct hashes, null means the deletes name as many creates as there are |
| `WireOps.LiveMeansRecord` | src/routes/dht.rs:730-736 | Live with a valid create of distinct hashes means a record is returned |
| `WireOps.DistinctDeletesAgree` | src/routes/dht.rs:730-736 | deletes of pairwise distinct valid creates always agree |
| `WireOps.RepeatedDeleteDisagrees` | src/routes/dht.rs:730-736 | two deletes of one of two creates: Dead, yet a record is returned |
| `WireOps.RebuildInvertsCondense` | src/routes/dht.rs:501-534 | a condensed create or update comes back whole, hash and signature included, exactly when it is of the shipped entry and type |
| `WireOps.RebuildInvertsCondenseUpdate` | src/routes/dht.rs:706-727 | a condensed update relationship comes back exactly next to the entry it replaced |
| `WireOps.RecordDetailsInvertCondense` | src/routes/dht.rs:559-628 | a condensed record answer comes back as its original action with its entry, the given status or Valid, its original deletes, and its original updates next to a create or an update |
| `WireOps.RecordUpdatesKeptIff` | src/routes/dht.rs:559-628 | a record's updates survive exactly when its action is a create or an update or there are none |
| `WireOps.LinkRebuiltIff` | src/routes/dht.rs:773-821 | a condensed link comes back exactly when its tag was shipped, is the query's, or is empty and the query has none |
| `WireOps.LinksInvertCondense` | src/routes/dht.rs:767-822 | a whole answer yields one link per create, in order, with the original action hash |
| `QuerySelection.Get` | src/dht_query.rs:242-264 | the first answer in spawn order that is a warrant or has a create, delete, update, entry or action, else the fallback of `SelectAnswer` |
| `QuerySelection.GetLinks` | src/dht_query.rs:310-332 | the selection of `SelectAnswer` with some create acceptable |
| `QuerySelection.CountLinks` | src/dht_query.rs:378-400 | the selection of `SelectAnswer` with any count acceptable |
| `QuerySelection.GetAgentActivity` | src/dht_query.rs:758-779 | the selection of `SelectAnswer` with a non-empty chain acceptable |
| `QuerySelection.MustGetAgentActivity` | src/dht_query.rs:829-853 | the same selection with a full activity acceptable, by its own loop |
| `QuerySelection.SelectionIsUnique` | src/dht_query.rs:242-264 | the specification allows one result |
| `QuerySelection.FailingPeersHideNothing` | src/dht_query.rs:242-264 | an error is returned exactly when some peer failed and none answered Ok |
| `PendingResponses.PendingDhtResponses.RouteResponse` | src/dht_query.rs:103-152 | a response takes out exactly the responder of its id, and finds one exactly when the id was registered with no response and no cleanup timer since |
| `PendingResponses.InvariantHolds` | src/dht_query.rs:78-152 | over every run, taking a responder out and sending on it being separate steps: pending ids have a timer and an empty slot, and filled slots match what was sent |
| `PendingResponses.AtMostOneOwnMessage` | src/dht_query.rs:507-526 | a requester receives at most one message, carrying its own id |
| `PendingResponses.ReceivedIff` | src/dht_query.rs:103-152 | a request receives a message if and only if it was routed while the id was open and handed over while the request still waited |
| `PendingResponses.TimersBoundPending` | src/dht_query.rs:513-526 | every pending id has an outstanding timer, so none is pending once all fired |
| `PendingResponses.RoutedIffOpen` | src/gateway_kitsune.rs:289-311 | a message is routed exactly when its id was registered with no response and no cleanup timer since |
| `PendingResponses.RoutesCommute` | src/dht_query.rs:103-152 | taking out and sending messages of different ids commute step by step, and so in any interleaving, up to the order of the history |
| `TempOpStore.TempOpStoreInner.StoreOp` | src/temp_op_store.rs:158-200 | a decodable op is stored under its id with a fresh time, anything else refused unchanged |
| `TempOpStore.TempOpStoreInner.CleanupExpired` | src/temp_op_store.rs:223-227 | exactly the records younger than the limit stay |
| `TempOpStore.TempOpStoreInner.RetrieveOps` | src/temp_op_store.rs:258-280 | the present ids in the asked order, each with its stored data |
| `TempOpStore.TempOpStoreInner.FilterOutExistingOps` | src/temp_op_store.rs:282-291 | the asked ids that are not stored, in the asked order |
| `TempOpStore.AnswersAreComplementary` | src/temp_op_store.rs:258-291 | retrieved and filtered-out ids are complementary order-preserving subsequences of any id list |
| `TempOpStore.RetrievableForAMinute` | src/temp_op_store.rs:51-54 | an op stays retrievable until a cleanup 60 seconds after its store, unless a later store of it read the clock earlier |
| `TempOpStore.GoneIffLastStoreExpired` | src/temp_op_store.rs:190-227 | an op is gone exactly when some cleanup found its last store 60 seconds old |
| `TempOpStore.LateLockShortensLife` | src/temp_op_store.rs:190-191 | two publishers of one op whose clock readings and locks are in opposite order: the op goes before its newer store is 60 seconds old |
| `TempOpStore.CleanupLeavesYoungRecords` | src/temp_op_store.rs:223-227 | no record survives a cleanup at 60 seconds or more |
| `TempOpStore.NoRecordOutlivesTheGap` | src/temp_op_store.rs:93-111 | with cleanups at most a gap apart and no store waiting a minute for the lock, no record reaches 60 seconds plus the gap: 70 if the task never waits |
| `Preflight.PreflightCache.AddAgent` | src/wire_preflight.rs:139-183 | both loops: the retained list with the new info last, and its encoding unless encoding fails |
| `Preflight.ListedIff` | src/wire_preflight.rs:143-157 | an info is listed if and only if some call added it, after which no call had both its agent and its space and none found it expired |
| `Preflight.OtherSpacesStay` | src/wire_preflight.rs:143-157 | an unexpired info stays listed when one for another space is added |
| `Preflight.KeptByMonotoneClock` | src/wire_preflight.rs:143-152 | with a monotone clock only the last call's time decides which infos are kept |
| `Preflight.OneInfoPerSlot` | src/wire_preflight.rs:143-152 | never two infos of one agent in one space |
| `Preflight.BytesEncodeTheList` | src/wire_preflight.rs:160-183 | if the message of the last call encodes, the cached bytes encode exactly the list |
| `Preflight.BytesAreLastEncoding` | src/wire_preflight.rs:160-183 | in general they encode exactly the list as it was when encoding last succeeded |
| `Publish.GroupsPartitionInOrder` | src/routes/publish.rs:156-162 | a location's group is the ids at its positions, in order |
| `Publish.GroupByLocation` | src/routes/publish.rs:156-162 | the map-building loop gives every location exactly its group |
| `Publish.PublishGroups` | src/routes/publish.rs:165-200 | published is the number of ops whose group reached a peer, whatever the iteration order |
| `Publish.DhtPublish` | src/routes/publish.rs:121-228 | queued and failed add up, results are in request order, published is at most queued, and the exact condition for success |
| `Publish.PublishOps` | src/gateway_kitsune.rs:848-962 | the number of distinct peer urls that accepted, or the first error before anything was sent |
| `RemoteSignals.SendRemoteSignals` | src/gateway_kitsune.rs:734-835 | the loop makes the specified deliveries in order, whatever other tasks do to the proxy map between each look-up and its send; each signal counts once as success or failure, and the space opens exactly when a target not registered at its look-up needed it |
| `RemoteSignals.DeliveriesGoToTheirTargets` | src/gateway_kitsune.rs:756-806 | a browser delivery goes to the connection holding the target's entry at the send, and kitsune2 is used only for targets not registered at the look-up |
| `RemoteSignals.DeliveredIff` | src/gateway_kitsune.rs:746-835 | a signal adds one delivery, to its own target, exactly when the target parses and is registered at both looks with room, or is not registered and has an open space, a peer url, and encodes and sends |
| `Report.LinkerReport.FetchedOp` | src/linker_report.rs:301-308 | an event is queued, or dropped exactly when the channel is full |
| `Report.LinkerReport.Drain` | src/linker_report.rs:247-262 | the accumulators hold each space's op and byte sums modulo 2^64 |
| `Report.LinkerReport.ProcessReports` | src/linker_report.rs:243-292 | what is written adds each space's sums once, whatever the map order |
| `Report.AllAcceptedIff` | src/linker_report.rs:301-308 | over any run every send is accepted, in order, if and only if none finds 4096 events queued |
| `Report.UndisturbedDrain` | src/linker_report.rs:243-292 | receive steps without interruption report what the method does |
| `PercentEncoding.UrlEncodePathSegment` | src/registration.rs:304-317 | the loop computes the encoding |
| `PercentEncoding.DecodeEncode` | src/registration.rs:304-317 | decoding by section 2.1 of RFC 3986 gives back every byte string |
| `PercentEncoding.EncodeInjective` | src/registration.rs:304-317 | different byte strings have different encodings |
| `PercentEncoding.EncodedLength` | src/registration.rs:304-317 | two extra characters per reserved octet, so between n and 3n |
| `Registration.OrderIsIrrelevantIff` | src/registration.rs:290-327 | the order of the signed fields does not matter, exactly when no key has two values |
| `Registration.SignedPartIsSignedFields` | src/registration.rs:165-219 | the signed fields can be read back from the body of the heartbeat |
| `Registration.RegistrationClient.BuildHeartbeat` | src/registration.rs:158-219 | carries and signs the secret exactly when not registered, and a configured invite always |
| `Registration.RegistrationClient.Beat` | src/registration.rs:88-117 | registered afterwards exactly on a 2xx that parses and says so; only a decisive answer changes the interval |
| `Registration.RegistrationClient.HandleShutdown` | src/registration.rs:130-148 | exactly when registered, deregisters under the encoded key with the signature of its own two fields |

## Left out

- RemoteSignals.SendRemoteSignals: the proxy map may change between a look-up and its send, the kitsune maps not. The wire message, with its all-zero signature when the given one does not parse, is a payload.
- The peer count in Pong, the socket's heartbeat and idle timers, message framing and JSON parsing: I/O. Text that does not parse is an absent field in the message.
- JSON, msgpack, base64, Ed25519, Blake2b and the DHT op decoder: function parameters or inputs.
- kitsune2 (space creation, join, peer store, publish, gossip): outcomes are inputs; `local_agent_leave` has no effect on the linker's own maps.
- Websocket.AppState.HandleClientMessage: with the SQLite backend the drawn token is taken to be fresh; Registries.AuthStore.CreateSession says what happens otherwise.
- SessionStore.MemorySessionStore.CreateSession: runs its two lock sections back to back. The protocol keeps them apart, and SessionStore.LateInsertKeepsValidIff and ProtocolSessions say what a removal in between does.
- SqliteStore.SqliteSessionStore.ValidateSession: database and lock errors other than a primary-key violation are not modelled.
- AgentProxy.InvariantHolds: covers runs of up to 2^64 requests, after which the counter repeats and so could an id, if its clock reading did too.
- PendingResponses: a response of a different kind from its request is delivered like any other, as in the code; the caller's complaint about it is not modelled. Registering an id and starting its timer are one step.
- Preflight.PreflightCache.AddAgent: one call at a time; two concurrent calls can cache their messages in the order opposite to the list's.
- Report.LinkerReport: u64 sums are taken to wrap, as in a release build; timestamps and signatures of entries are left out.
- WireOps: warrants, and the JSON form of records, details and links.
- Registration.RegistrationClient.Run: timestamps are inputs; the three-second limit and the outcome of the deregistration request are left out.
- Configuration, identity, status pages, the zome-call route, the conductor client and the kitsune status routes: wiring and thin wrappers.
