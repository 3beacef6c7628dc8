# aewt: the node state and the inter-node protocol, verified

aewt is a clustered websocket hub. Each node keeps a session map (its peers) and two multi-index tables
(clients, subscriptions). It tells its peers about its own clients and subscriptions, builds a mesh of
peers through `register` and `session` messages, and routes `broadcast`, `publish` and `send`.

`dafny verify dfyconfig.toml` checks the whole project.

## How it is layered

| module | what it is |
|---|---|
| `Sequences`, `Json`, `Messages` | vocabulary: filtering and counting, JSON values, the message datatype |
| `MultiIndex`, `Tables` | the ordered indexes of the two tables, and what the tables amount to over any history |
| `Nodes` | one node as a value, and what every message, accepted client and closed client does to it |
| `States`, `Handlers`, `Kernels` | the classes and methods that do the same in place, loop by loop, proved equal to `Nodes` |
| `Wire` | validators, getters, message builders, responses, and what a session answers to what it reads |
| `Requests` | the same from outside: what a text asks for, field by field, what is answered to it, and why it is refused |
| `Writers` | the write queue of a connection |
| `Ownership` | lifetimes of session objects against the tags of table rows |
| `Replication`, `Bundles` | one direction of a link: local changes, announcements and snapshots, all interleaved; then several links between the same two nodes, which may be lost one by one |
| `Seeds`, `Mesh` | register handlers interleaved access by access on one seed, and the mesh that results |
| `Clusters` | any number of nodes joined by links, with packets delivered in any order, or lost where no session reads any more, and `on_accept` interleaved access by access |
| `Cascades`, `Newcomers` | termination of message cascades; a node says once that it is new and is sent one list of peers |
| `Routing`, `Guarantees`, `Totals` | copies of routed messages, what senders and receivers may rely on, reported counts |
| `Views` | in the mesh so joined, under any traffic of clients, every node's tables come to show what the others have |
| `Joins`, `Couples` | message by message, joining in turn ends in the mesh the guarantees rely on; the smallest cluster that meets all their assumptions |
| `Receipts` | the answer a sending client reads, field by field, against the copies handed out |

State machines are written as `Step`/`Enabled`/`Next`/`Run`; theorems about runs hold for every legal
sequence of steps. `Clusters` treats a handler as one step, but reads the registered flag, sets it and sends
the register message in three; where a handler's own interleaving matters finer machines are used: `Seeds`
for the three writes and the scan of `register`, `Replication` for changes, announcements and row-by-row
snapshots, `Ownership` for the two halves of the destructor.

## Where the code does not do what one might expect

* **Connector to acceptor.** Only the accepting side takes a snapshot (`register_handler.cpp:56`), so what
  the connecting node had before the link was up is not replicated by any snapshot. The link is up once its
  session object is both listed and open; what is announced before that is not sent on it.
  `Replication.ConnectorConverges` gives the exact condition for the two to agree: every row that was
  unannounced at that moment has been changed since. Having no clients when the socket opens suffices if the
  session is listed first (`Replication.EmptyWhenOpened`), but `session_handler.cpp:74-75` starts the
  handshake before it lists the session: `Replication.LateListMisses` is a run with no clients when the
  socket opens in which the acceptor never learns of one, and `Replication.LateLinkMisses` one with the
  session listed first and a client accepted before the socket opens.
* **Concurrent joins.** Two nodes have exactly one link if and only if neither reads of the other between
  that one's dialling it and that one's registration (`Mesh.ExactlyOneIff`); otherwise they have two, and
  from every start any two nodes can come to that (`Mesh.TwoLinksReachable`). Joining in turn excludes it
  (`Mesh.OneLinkInTurn`). `Bundles` shows what replication over several links still guarantees.
* **The registered flag** is read and set in two unlocked accesses (`session.cpp:131,138`), and handshakes of
  several sessions of one node can interleave between them. A node nevertheless says once only that it is
  new (`Newcomers.NewcomerOnce`), because it dials once when it starts and every later dial answers a message
  that can only arrive after the flag was set.
* **Failures without a transaction id.** Such an answer is itself invalid, so the peer answers it in the
  same way, for ever. `Wire.EndlessIffProvoking` characterises the texts that set this off and
  `Wire.BuiltIsNotProvoking` shows that nodes never build one.
* **Publications** are delivered to every local client of a node they reach (`state.cpp:235-243`), subscribed
  or not. `Guarantees.PublishReaches` says exactly who gets one, and `Guarantees.UnsubscribedReceives` is a
  run in which a client without a subscription does.
* **Acks of clients.** A session does not answer an ack, a client's ack is answered with an empty object
  (`Kernels.ReadFromClient`).
* **Counts.** `_clients.size() - 1` is unsigned: it is the number of others exactly when the table is not
  empty, and wraps when it is (`Nodes.OthersCountIs`).

## Model

| member | source | states |
|---|---|---|
| Writers.Writer.Send | src/objects/session.cpp:194-204 | queues the data and starts a write only if it is alone in the queue; the whole new channel |
| Writers.Writer.Complete | src/objects/session.cpp:206-218 | drops the front and starts the next write, or stops on an error; a client also needs an open socket (client.cpp:169-184) |
| Writers.Writer.AsyncWrite | src/objects/client.cpp:161-166 | a write is of the front; a client with a closed socket starts none, as `Writers.WritesExactlyWhen` says of every event |
| Writers.RunIsSerial | src/objects/session.cpp:194-218 | over any run at most one write is outstanding, of the front, and nothing sent is lost, repeated or reordered |
| Writers.RefinesFifo | src/objects/session.cpp:194-218 | from an empty queue, written followed by queued is exactly what was sent, so what is written is a prefix of it |
| Writers.StalledForGood | src/objects/client.cpp:153-184 | a non-empty queue with no write under way never writes again, whatever is sent |
| Writers.StallsOnlyInTrouble | src/objects/client.cpp:153-184 | a queue stalls only after a failed write or, on a client, a closed socket |
| Writers.WritesExactlyWhen | src/objects/client.cpp:153-184 | a send or a completion starts a write exactly if it leaves a new front, the write did not fail and a client's socket is open, and then of that front; a closed client socket or a failure starts none |
| Writers.StallsExactlyWhen | src/objects/client.cpp:153-184 | the converse: a queue that a failure or a closed client socket leaves with something unwritten and nothing under way is stalled, and nothing else stalls one |
| Writers.TroubleEndsWriting | src/objects/client.cpp:169-184 | after such an event no run writes or starts to write anything more |
| Writers.DrainsCompletely | src/objects/session.cpp:206-218 | a queue that has not stalled is written out by as many completions as it has entries |
| MultiIndex.ListingSorted | src/include/aewt/clients.hpp:54-74 | each index is a sorted permutation of the rows |
| MultiIndex.ListingFilter | src/objects/state.cpp:364-379 | erasing rows and listing them by an index commute, so every index forgets the same rows |
| MultiIndex.RangeIsFilter | src/objects/state.cpp:312-327 | what lies between the two bounds of a key is exactly the rows with that key, and the rest are the others |
| MultiIndex.FilterStable | src/include/aewt/subscriptions.hpp:63-96 | rows with equal keys stay in the order of their insertion |
| MultiIndex.RangeEmpty | src/include/aewt/clients.hpp:54-74 | the range of a key is empty exactly when no row has the key |
| MultiIndex.Container.constructor | src/include/aewt/clients.hpp:54-74 | an empty container with all its indexes |
| MultiIndex.Container.Add | src/objects/state.cpp:122-130 | inserts unless some unique index has the key; every index then lists the same rows |
| MultiIndex.Container.EqualRange | src/objects/state.cpp:132-137 | the stretch of an index holding all rows with a key and no others |
| MultiIndex.Container.EraseKey | src/objects/state.cpp:132-141 | erases exactly the rows with the key, from every index, and counts them |
| Tables.ApplyAgrees | src/objects/state.cpp:122-172 | each insertion and erasure does to the rows what it does to one map and one set |
| Tables.TablesAreBare | src/objects/state.cpp:364-379 | over any sequence of operations the tables are one map from client to session, first insertion winning, and one set of subscriptions, without duplicates |
| States.ClientVacancy | src/include/aewt/clients.hpp:54-74 | the three client indexes refuse a row exactly when its client id is taken |
| States.SubscriptionVacancy | src/include/aewt/subscriptions.hpp:63-96 | the five subscription indexes refuse a row exactly when that very row is present |
| States.ClientSelections | src/objects/state.cpp:132-141 | the ranges of the client indexes are the rows of a client and the rows of a session |
| States.SubscriptionSelections | src/objects/state.cpp:201-210 | the ranges of the subscription indexes are the rows of a session, of a channel, and one triple |
| States.LookupBySelection | src/objects/state.cpp:97-109 | finding a client through its index is looking it up among the rows |
| States.State.constructor | src/objects/state.cpp:122-182 | a node without peers, clients or subscriptions |
| States.State.AddSession | src/objects/state.cpp:111-115 | enters a session unless its id is present, and says whether it did |
| States.State.RemoveSession | src/objects/state.cpp:117-120 | strikes a session, and says whether it was there |
| States.State.AddClient | src/objects/state.cpp:122-130 | the first insertion of a client wins; reports whether the client was new |
| States.State.RemoveClient | src/objects/state.cpp:132-141 | erases the client under whatever session; reports whether anything changed |
| States.State.Subscribe | src/objects/state.cpp:143-154 | adds the triple unless present; reports whether anything changed |
| States.State.Unsubscribe | src/objects/state.cpp:156-172 | erases that triple only; reports whether anything changed |
| States.State.IsSubscribed | src/objects/state.cpp:174-182 | true exactly when some session's row has this client and channel |
| States.State.RemoveStateOfSession | src/objects/state.cpp:364-379 | removes exactly the client and subscription rows of a session |
| States.State.FindClient | src/objects/state.cpp:97-109 | the session through which the client is known, if any |
| States.State.SendToSessions | src/objects/state.cpp:410-420 | each session of the map that is open gets the message once and no other gets any; returns the number of sessions, open or not |
| States.State.SendToSession | src/objects/state.cpp:381-404 | one message to that session if it is in the map and open, and none to any other |
| States.State.SubscribedSessions | src/objects/state.cpp:201-210 | the set of sessions with a row on the channel |
| States.State.SendToSubscribedSessions | src/objects/state.cpp:201-225 | each open session with a row on the channel gets the message once, however many rows, and no other gets any |
| States.State.SendToOthersClients | src/objects/state.cpp:422-443 | delivers to each local client but the sender, in client order; returns the table size less one as an unsigned word |
| States.State.Sync | src/objects/state.cpp:274-351 | posts the whole snapshot: peers unless told before, then local clients, then local subscriptions |
| States.State.SyncSessions | src/objects/state.cpp:275-307 | skips itself, the registering session and unregistered sessions |
| States.State.SyncClients | src/objects/state.cpp:307-328 | one join for each local client |
| States.State.SyncSubscriptions | src/objects/state.cpp:328-350 | one subscribe for each local subscription |
| States.State.SendOn | src/objects/session.cpp:49-55 | data for a session that is not open is dropped |
| Nodes.StrKeyInjective | src/include/aewt/subscriptions.hpp:74-77 | different channels have different index keys |
| Nodes.SessionOfClientIs | src/objects/state.cpp:97-109 | with unique ids the lookup finds a client's only row, and nothing exactly when there is none |
| Nodes.OthersCountIs | src/objects/state.cpp:442 | the table size less one exactly when the table is not empty; the greatest word when it is |
| Nodes.HandlersKeepTables | src/objects/kernel.cpp:73-99 | every request, on a client or a session, keeps client ids and subscriptions unique |
| Nodes.PeerFrame | src/objects/kernel.cpp:73-99 | a session's request changes only what is tagged with that session, except the client row named by leave and the one session added by session |
| Nodes.LocalFrame | src/objects/kernel.cpp:73-99 | a client's request changes only its own subscriptions on this node |
| Nodes.SyncTells | src/objects/state.cpp:274-351 | a snapshot tells of every other registered peer (unless told before), every local client, every local subscription, and of nothing else |
| Nodes.SessionPostsAre | src/objects/state.cpp:275-306 | the peers listed are exactly the registered ones other than the addressee, with their address |
| Nodes.PostsOnce | src/objects/session.cpp:49-55 | whatever is sent to all, to the subscribed or to one is posted once on each session addressed that is in the map and open, and on no other |
| Nodes.SyncOnce | src/objects/state.cpp:307-351 | a snapshot tells of each local client and each local subscription once |
| Nodes.SyncInTurn | src/objects/state.cpp:274-351 | peers come before clients, clients before subscriptions |
| Nodes.SessionIs | src/objects/handlers/session_handler.cpp:47-86 | told of a host and ports some session has, a node changes nothing and says so; of any other it makes one session, ports cut to 16 bits, and dials it |
| Nodes.RegisterIs | src/objects/handlers/register_handler.cpp:40-63 | a register message fills in its own session, marks it, and is answered by the snapshot of the node as it then is |
| Nodes.PeerTables | src/objects/kernel.cpp:73-99 | row by row, what each announcement of a peer enters under its session and what it strikes |
| Nodes.PeerReplies | src/objects/utils.cpp:150-152 | what a peer is answered, by what the node knew before: ok, no effect, or the number of others |
| Nodes.LocalTables | src/objects/kernel.cpp:73-99 | row by row, what a client's request changes |
| Nodes.LocalTells | src/objects/handlers/subscribe_handler.cpp:36-44 | and which sessions are told of it, once each: all that are open, those with a row on the channel, or the one of the addressee's row |
| Nodes.LocalReplies | src/objects/handlers/is_subscribed_handler.cpp:37-47 | what a client is answered, by what the node knew before: ok, no effect, yes, no, or the number of others |
| Nodes.LocalsComeAndGo | src/objects/client_listener.cpp:58-71 | an accepted client gets a row here unless known, one that goes loses its row, and every open session is told once |
| Nodes.PurgedAre | src/objects/state.cpp:364-379 | the rows of a destroyed session go, all others stay |
| Handlers.RegisterHandler | src/objects/handlers/register_handler.cpp:30-69 | ports and mark are written, then the snapshot is sent; nothing on a client or for an unknown session |
| Handlers.SessionHandler | src/objects/handlers/session_handler.cpp:31-92 | dials and adds a session exactly if no known session has that host and those ports |
| Handlers.KnownByScan | src/objects/handlers/session_handler.cpp:47-53 | the scan finds a session exactly if one in the map matches |
| Handlers.JoinHandler | src/objects/handlers/join_handler.cpp:28-56 | enters the remote client under the session unless known |
| Handlers.LeaveHandler | src/objects/handlers/leave_handler.cpp:28-55 | erases the named client |
| Handlers.SubscribeHandler | src/objects/handlers/subscribe_handler.cpp:28-62 | on a client, inserts and then announces to every session; on a session, inserts under its tag |
| Handlers.UnsubscribeHandler | src/objects/handlers/unsubscribe_handler.cpp:28-64 | on a client, erases and then announces; on a session, erases under its tag |
| Handlers.BroadcastHandler | src/objects/handlers/broadcast_handler.cpp:29-84 | local deliveries always, one fan-out to the sessions on a client only, and the reported count |
| Handlers.PublishHandler | src/objects/handlers/publish_handler.cpp:31-89 | the same with the fan-out limited to sessions having a subscriber |
| Handlers.SendHandler | src/objects/handlers/send_handler.cpp:32-112 | local delivery, or one hop on a client only |
| Handlers.Dispatch | src/objects/kernel.cpp:73-99 | every action has the effects and the reply of the node specification |
| Handlers.ClientAccepted | src/objects/client_listener.cpp:58-71 | the client is in the table before its peers are told |
| Handlers.ClientClosed | src/objects/client.cpp:109-121 | the client is out of the table before its peers are told |
| Handlers.SessionOpened | src/objects/session.cpp:120 | the session object learns its peer's host and is open; nothing else changes |
| Handlers.RegistrationLoaded | src/objects/session.cpp:125-136 | the register message says what the flag is when it is read, and the clients and sessions ports the node listens on |
| Handlers.RegistrationStored | src/objects/session.cpp:138 | the flag is set whatever it has become, and no table changes |
| Handlers.SessionAccepted | src/objects/session.cpp:114-144 | the accesses of one call in their order, undisturbed: the dialling side registers, as a newcomer only if the flag was not set |
| Kernels.Process | src/objects/kernel.cpp:53-114 | in place, what an object asks for by the texts a client or a peer writes is done on the node, its posts and deliveries added to those there were; what asks for nothing changes nothing and sends nothing |
| Kernels.ReadFromSession | src/objects/session.cpp:168-187 | what is no object is refused with no effect at all and told why; what a peer asks for is done; acks are not answered |
| Kernels.ReadFromClient | src/objects/client.cpp:125-146 | what is no object is refused with no effect and told why; what a client asks for is done and always answered, an ack by an empty object |
| Kernels.ClientEffects | src/objects/kernel.cpp:73-99 | the posts and deliveries of a client's text are those of the request it writes |
| Kernels.NoEffects | src/objects/kernel.cpp:62-111 | and a text that asks for nothing has none |
| Wire.TransportIdempotent | src/objects/session.cpp:164-170 | a value that has been serialised and parsed once arrives unchanged ever after |
| Wire.EnvelopeArrives | src/objects/validator.cpp:24-58 | a built message passes the envelope validator and keeps its action, transaction id and parameters |
| Wire.NamesRecognised | src/objects/kernel.cpp:73-99 | each action name dispatches to its own action |
| Wire.RegisterArrives | src/objects/session.cpp:126-136 | ports and flag survive the text form, in which ports turn from unsigned to signed |
| Wire.SessionArrives | src/objects/state.cpp:292-302 | so do host and ports of a session message |
| Wire.SubscriptionArrives | src/objects/utils.cpp:122-148 | client id and channel arrive |
| Wire.BroadcastArrives | src/objects/utils.cpp:68-81 | client id, payload and the relayed transaction id arrive |
| Wire.PublishArrives | src/objects/utils.cpp:83-96 | client id, channel, payload and the relayed transaction id arrive |
| Wire.SendArrives | src/objects/state.cpp:385-395 | both client ids and the payload arrive |
| Wire.ParseInvertsBuild | src/objects/utils.cpp:68-148 | validation and extraction on a session give back exactly the message that was built |
| Wire.Closure | src/objects/kernel.cpp:62-99 | what a node builds is handled as that message and answered by a success that itself draws no answer |
| Wire.AckIsQuiet | src/objects/session.cpp:168-171 | an ack that names its transaction changes nothing and is not answered |
| Wire.RequestAnswered | src/objects/response.cpp:40-96 | the answer to a request names its transaction unless it is a failure under the nil id |
| Wire.AnswersNamed | src/objects/session.cpp:168-187 | an answer lacks a transaction id exactly if the text was provoking |
| Wire.EndlessIffProvoking | src/objects/response.cpp:63-73 | a text sets off an endless exchange of answers if and only if it is no object, names no transaction, or is invalid under the nil id |
| Wire.WhoeverReads | src/objects/session.cpp:172-187 | such an exchange goes on whoever reads, in whatever state: for any sequence of readers every answer is answered |
| Wire.BuiltIsNotProvoking | src/objects/utils.cpp:68-148 | no message a node builds is such a text |
| Requests.ActionsAre | src/objects/kernel.cpp:73-99 | the twelve names and the action each stands for |
| Requests.UnknownIsOther | src/objects/kernel.cpp:98-99 | any other name is not implemented |
| Requests.ClientParse | src/objects/kernel.cpp:73-99 | a client's text with these fields gets through the validators and getters as the request it writes, the sender being the client |
| Requests.PeerParse | src/objects/kernel.cpp:73-99 | so does a peer's, the sender being named in it |
| Requests.ParsedIsAsked | src/objects/kernel.cpp:62-99 | and nothing else gets through |
| Requests.BuiltAsks | src/objects/utils.cpp:68-148 | what a node builds asks its peer for the message it was built from, under the same names |
| Requests.ClientAnswered | src/objects/response.cpp:81-96 | for each request of a client: the node after it and the whole answer, field by field, by what the node knew before; the count is the number of others |
| Requests.PeerAnswered | src/objects/response.cpp:81-96 | the same for each request of a peer |
| Requests.RulesDecide | src/objects/validators/register_validator.cpp:25-62 | the validators are a table of rules for each action: the first broken is the reason given, and what breaks none is let through |
| Requests.RuleBrokenIsTold | src/objects/validators/id_validator.cpp:24-44 | a request that breaks a rule changes nothing and is answered by a failure with that reason |
| Requests.UnlabelledIsTold | src/objects/validator.cpp:24-58 | so is a faulty envelope, by the first of five reasons, under the transaction if that can be read |
| Requests.ThrowsOtherwise | src/objects/kernel.cpp:62-73 | without a params object, or where the rules are kept but nothing is asked, a getter throws and nothing has changed |
| Requests.OnlyAsked | src/objects/kernel.cpp:62-111 | a text that asks for nothing changes nothing and is answered by a failure or not at all |
| Ownership.HearKeeps | src/objects/handlers/join_handler.cpp:43-45 | hearing any message on a session keeps every row owned |
| Ownership.EventKeeps | src/objects/session.cpp:38-43 | so does every event in the life of a session object, the two halves of its destructor included |
| Ownership.RowsHaveOwners | src/objects/state.cpp:364-379 | in every reachable state each row is tagged with this node or with a session object not yet destroyed |
| Ownership.NoRowOutlivesItsSession | src/objects/session.cpp:38-43 | once a session object is destroyed no row has its tag and none ever appears |
| Replication.ChangeActs | src/objects/client_listener.cpp:62-67 | a local change alters exactly its own fact at the announcing node |
| Replication.HandlerActs | src/objects/handlers/subscribe_handler.cpp:48-58 | the receiver turns an announcement into exactly that fact under the session's tag |
| Replication.OthersDoNot | src/objects/handlers/leave_handler.cpp:40-53 | messages on other sessions leave these rows alone when client ids are not shared |
| Replication.StepKeeps | src/objects/state.cpp:274-351 | every step of a link, snapshot steps included, keeps the replay invariant |
| Replication.ReplayInvariant | src/objects/state.cpp:274-351 | in every reachable state, replaying what is queued and what is still to be announced over the receiver's rows gives the announcer's local rows less those missed |
| Replication.MirrorsIffNothingMissed | src/objects/handlers/unsubscribe_handler.cpp:36-48 | a drained link mirrors the announcer exactly when no missed row is left |
| Replication.SnapshotConverges | src/objects/state.cpp:307-351 | acceptor to connector: after both locked scans, under every interleaving, a drained link mirrors the acceptor |
| Replication.MissedUntilAltered | src/objects/client.cpp:116-121 | without a snapshot a missed row stays missed until it is changed |
| Replication.ConnectorConverges | src/objects/session.cpp:114-144 | connector to acceptor: a drained link mirrors the connector if and only if every row unannounced when the link came up has been changed since |
| Replication.EmptyWhenOpened | src/objects/session_listener.cpp:60-67 | with the session listed first, having nothing local when the socket opens is enough for every drained state to mirror |
| Replication.LateListMisses | src/objects/handlers/session_handler.cpp:74-75 | a run with the socket opened first, and no client then, in which a client accepted before the listing is never learnt |
| Replication.LateLinkMisses | src/objects/session.cpp:49-55 | a run in which a client accepted before the socket opens is never learnt |
| Bundles.SharedActs | src/objects/handlers/leave_handler.cpp:40-53 | with several links a join or leave on any of them makes the client known or unknown, whichever it was known by |
| Bundles.OthersShare | src/objects/kernel.cpp:73-99 | what the receiver hears from others leaves the rows under these links alone |
| Bundles.FaithfulStep | src/objects/state.cpp:410-420 | nothing is said on a link before it is up, nor about a row it has missed, and what it taught was heard on it |
| Bundles.MoveKeeps | src/objects/handlers/join_handler.cpp:40-54 | in every step, the loss of a link included, each link left keeps its replay invariant and the shared tables agree with what the links have taught |
| Bundles.SeverKeeps | src/objects/state.cpp:364-379 | when a link is lost its rows go; who is left unknown by that is exactly recorded, everything else stays agreed |
| Bundles.KnownIff | src/objects/state.cpp:122-141 | drained, a client is known under some link exactly if it is a client of the announcer that not all links have missed and that was not left unknown by the loss of a link and unheard of since |
| Bundles.BundleMirrorsIff | src/objects/state.cpp:274-351 | however many links there are and have been lost: drained, the clients under those left mirror the announcer if and only if each was missed by not all and none was left unknown by a loss and unheard of since; subscriptions under one link if and only if it missed none |
| Bundles.BundleConverges | src/objects/state.cpp:307-351 | one link with both snapshots, silent when the last other was lost, makes all clients mirrored, and the subscriptions under it |
| Seeds.WritesAreTheHandler | src/objects/handlers/register_handler.cpp:45-49 | the three separate writes together are what the register handler does |
| Seeds.StepKeeps | src/objects/handlers/register_handler.cpp:45-58 | every access of concurrent register handlers keeps records, fairness and honesty of notices |
| Seeds.LearnStep | src/objects/state.cpp:275-306 | what a registrant is certain to learn it remains certain to learn after any step |
| Seeds.NoMissedPeer | src/objects/handlers/register_handler.cpp:45-58 | for any interleaving, of two registrants still in the session map at least one is told of the other |
| Seeds.NoticesAreFinal | src/objects/state.cpp:289-303 | nobody is told of a peer twice or of itself, and the address told is the one the peer listens on |
| Mesh.PeersFollowHandlers | src/objects/handlers/session_handler.cpp:72-75 | the session objects at both ends of a link are those the handlers and the handshake leave behind |
| Mesh.FoundMeansLinked | src/objects/handlers/session_handler.cpp:47-53 | a listed peer is recognised only through a link with that very node |
| Mesh.MeshStepKeeps | src/objects/handlers/session_handler.cpp:47-80 | every step of mesh formation keeps links, notices and records in order |
| Mesh.FoundIff | src/objects/handlers/session_handler.cpp:47-53 | the scan finds a peer exactly by an open dial to it or by a registered dial from it |
| Mesh.HandleDials | src/objects/handlers/session_handler.cpp:55-80 | a node that reads of a peer dials it exactly if the peer's own dial is not registered, and nobody else |
| Mesh.DialledOnce | src/objects/handlers/session_handler.cpp:47-80 | at no time has a node dialled another more than once |
| Mesh.MeshComplete | src/objects/server.cpp:42-70 | however joins through one seed interleave and whichever sessions the seed loses, every quiet state has a link between any two nodes it still has, and one per direction dialled |
| Mesh.BothIffCrossed | src/objects/handlers/session_handler.cpp:47-80 | over any run, both of two nodes have dialled the other if and only if some step crossed: one read of the other while the other's dial to it was not registered |
| Mesh.ExactlyOneIff | src/objects/handlers/session_handler.cpp:47-80 | in a quiet state two nodes have one link if no step of the run crossed and two if one did |
| Mesh.InTurnDoesNotCross | src/objects/server.cpp:42-70 | joining one after another, no step crosses |
| Mesh.OneLinkInTurn | src/objects/server.cpp:42-70 | so when nodes join one after another every quiet state has exactly one link per pair |
| Mesh.CrossedNoticesDialTwice | src/objects/handlers/session_handler.cpp:47-80 | two nodes told of each other before either acts both dial |
| Mesh.TwoLinksReachable | src/objects/handlers/register_handler.cpp:45-56 | from every start a run of any two nodes ends quiet with two links between them |
| Mesh.UnknownWhileConnecting | src/objects/session_listener.cpp:60-67 | a node being dialled does not recognise the dialler before its register message |
| Mesh.ScanIsFound | src/objects/handlers/session_handler.cpp:47-53 | for a node whose sessions are those the mesh gives it, what its scan finds is what the mesh says it finds |
| Mesh.HandlerDials | src/objects/handlers/session_handler.cpp:47-80 | so its handler dials exactly where the mesh makes a link, and changes nothing where it makes none |
| Mesh.FollowsHandlers | src/objects/handlers/session_handler.cpp:55-80 | every step of the mesh, followed at a node by its own handlers, leaves the node with the sessions the mesh gives it |
| Mesh.RunFollowsHandlers | src/objects/handlers/register_handler.cpp:45-56 | so over every run a node's handlers keep exactly the sessions the mesh has for it |
| Clusters.PeerPosts | src/objects/kernel.cpp:73-99 | on a session only register makes a node post anything, only back to the registering peer, and session messages only to a newcomer |
| Clusters.LocalPosts | src/objects/kernel.cpp:73-99 | the kinds of message a client's request can put on the links |
| Clusters.AnsweredOnce | src/objects/session.cpp:168-171 | whatever is read on a link is answered by one ack to where it came from, and an ack by none |
| Clusters.StepWired | src/objects/session_listener.cpp:60-67 | every step keeps links paired and every packet addressed to one end of a link |
| Clusters.StepListens | src/objects/session.cpp:153-161 | of the ends of wires a step silences at most the one it drops: every other session in its map goes on reading |
| Clusters.DestroyedForGood | src/objects/session.cpp:38-43 | a session that was connected and is destroyed reads nothing and has no row in any later state, whatever is still in flight to it |
| Clusters.UndisturbedRegisters | src/objects/session.cpp:114-144 | the steps Load, Store and Say with nothing in between come to what `Handlers.SessionAccepted` does: the flag is set and the message says what it was, and both ports |
| Cascades.StepAnnounced | src/objects/session.cpp:123-141 | whoever has a session message on its way to it, or has a register message of its own on its way, has registered before |
| Cascades.InternalDescends | src/objects/session.cpp:168-171 | every delivery and every connection made strictly lowers a five-fold lexicographic measure |
| Cascades.CascadesEnd | src/objects/kernel.cpp:73-99 | from any reachable cluster there is no endless sequence of deliveries and connections |
| Cascades.DeliveringSettles | src/objects/session.cpp:168-171 | delivering and finishing handshakes leads to a state with nothing in flight and no handshake unfinished |
| Newcomers.StepBootstrapped | src/objects/server.cpp:42-70 | in every step a node whose flag is not set has at most the one connection it made when it started, and no handshake counts on a stale flag |
| Newcomers.StepSpends | src/objects/session.cpp:131-140 | saying that one is new uses up the one chance to, whatever handshakes interleave |
| Newcomers.NewcomerOnce | src/objects/session.cpp:123-141 | in every run each node sends at most one register message that says it is new, with the flag read and set in separate steps |
| Newcomers.ListedOnce | src/objects/state.cpp:275-306 | in every run each node is sent a list of peers at most once |
| Routing.DeliverOthersCount | src/objects/state.cpp:432-439 | a broadcast or publication is handed once to each local client but its sender |
| Routing.PeerDeliveries | src/objects/handlers/send_handler.cpp:79-109 | what a message arriving on a session is handed to, for each kind of routed message |
| Routing.RequestAdds | src/objects/handlers/broadcast_handler.cpp:39-59 | a request adds one copy for each link it is forwarded on and one at home, none for clients it is not meant for, and none of any other message |
| Routing.OthersPack | src/objects/kernel.cpp:73-99 | no other request puts a copy of the message on any link |
| Routing.DropLoses | src/objects/session.cpp:153-161 | dropping a session loses exactly the copies on their way to it |
| Routing.Conservation | src/objects/handlers/broadcast_handler.cpp:60-75 | over every run in which the client stays, with any traffic: copies handed out and on their way, and those lost with dropped sessions, are those before and those sent since |
| Routing.NothingLost | src/objects/session.cpp:153-161 | no copy is lost while no session is dropped |
| Routing.Multiplicity | src/objects/handlers/broadcast_handler.cpp:38-76 | whatever others do before it has settled, each client that stays has received as many copies as there were links from the origin to its node (one more at the origin), less those lost with dropped sessions, the sender none |
| Routing.ReachableOrderly | src/objects/state.cpp:122-141 | every cluster reachable from new nodes, by any steps, has unique client ids, local clients at one node only, and departures announced only of departed clients |
| Guarantees.RequestSettles | src/objects/kernel.cpp:73-99 | after any routed request to a reachable cluster with nothing in flight the nodes alone can bring it to rest and lose nothing, so the guarantees below always come to apply |
| Guarantees.BroadcastOnce | src/objects/handlers/broadcast_handler.cpp:38-76 | with one link per pair every client but the sender that stays gets a broadcast exactly once, whatever anyone else asks meanwhile, unless its node drops the session on which its copy was coming; clients of the origin get it in any case |
| Guarantees.PublishLinks | src/objects/state.cpp:201-225 | a link carries at most one copy of a publication, and a peer gets none exactly when it hosts no known subscriber |
| Guarantees.PublishCovers | src/objects/handlers/publish_handler.cpp:39-81 | with one link per pair every subscriber known at the origin gets a publication exactly once, under the same provisos |
| Guarantees.PublishReaches | src/objects/state.cpp:235-243 | a client gets a publication only if it is not the publisher and its node is the origin or hosts a subscriber the origin knows of, subscribed or not; and if nothing was lost on the way, exactly then |
| Guarantees.UnsubscribedReceives | src/objects/state.cpp:422-443 | a run in which a client without a subscription gets one |
| Guarantees.PublishSpares | src/objects/state.cpp:212-222 | clients of a peer without a known subscriber get nothing |
| Guarantees.UnicastExact | src/objects/handlers/send_handler.cpp:39-110 | in any cluster a message for one client reaches it at most once, and exactly once if the origin locates it and its node does not drop the session on which it was coming; nobody else gets it |
| Totals.ViewCount | src/objects/state.cpp:422-443 | a converged session shows as many rows as its peer has receivers |
| Totals.RowsPartition | src/objects/state.cpp:422-443 | the client table is the sender, the other local clients, and the receivers beyond each session |
| Totals.TotalConserved | src/objects/handlers/broadcast_handler.cpp:60-75 | while local clients stay, whatever they ask: copies handed out and owed across all nodes, and those missed with dropped sessions, stay the same in total |
| Totals.ReportedCountIsReceivers | src/objects/handlers/broadcast_handler.cpp:40-52 | with converged rows the count told to a broadcasting client is the number of copies handed out across all nodes, and of those missed with dropped sessions |
| Totals.PublishedCountIff | src/objects/handlers/publish_handler.cpp:41-57 | the count told to a publishing client is that number if and only if every session without a known subscriber leads to a node without receivers; otherwise it is more |
| Joins.NewcomerIsTold | src/objects/state.cpp:275-306 | what the seed answers a newcomer contains one message about each node for each session listed that leads to it |
| Joins.HeardForms | src/objects/handlers/register_handler.cpp:45-56 | the seed's hearing of a newcomer keeps the joining invariant: one way from it to everyone who has joined |
| Joins.ToldForms | src/objects/handlers/session_handler.cpp:47-80 | so does the newcomer's reading of a peer, which is never known to it yet |
| Joins.ConnectForms | src/objects/session_listener.cpp:60-67 | so does each connection made |
| Joins.AdvanceForms | src/objects/session.cpp:131-138 | and reading and setting the flag |
| Joins.StepForms | src/objects/server.cpp:42-70 | and every other step, client traffic included |
| Joins.MeshedInTurn | src/objects/server.cpp:42-70 | message by message, when all have joined in turn each node has exactly one open link to every other in every state at rest |
| Joins.ComesToRest | src/objects/session.cpp:168-171 | from every state of a joining the nodes among themselves can bring it to an end, dials, handshakes and messages |
| Joins.BecomesMeshed | src/objects/server.cpp:42-70 | so any new nodes have a run in which all join in turn and that ends in a mesh |
| Joins.BroadcastInTurn | src/objects/handlers/broadcast_handler.cpp:38-76 | so, with no assumption about links and any traffic, every client but the sender that stays gets a broadcast exactly once, unless lost with a dropped session |
| Views.TellsInforms | src/objects/handlers/subscribe_handler.cpp:36-47 | a node's own change, told to everyone, keeps every end on the way to showing what its peer has |
| Views.ReadInforms | src/objects/handlers/join_handler.cpp:40-54 | so does every delivery in the order of its link |
| Views.ViewsConverge | src/objects/state.cpp:245-262 | nodes having joined in turn, under any traffic of clients that come, go, subscribe and unsubscribe: with no announcement on its way the mesh stands, every table shows exactly the peers' clients, and every subscription is known everywhere |
| Views.PublishInTurn | src/objects/handlers/publish_handler.cpp:39-81 | so a subscriber gets a publication exactly once with nothing assumed about links or tables |
| Views.CountInTurn | src/objects/handlers/broadcast_handler.cpp:40-52 | and a broadcasting client is told the number of copies |
| Views.BecomesAssembled | src/objects/server.cpp:42-70 | any new nodes have a run of joining in turn from which this applies |
| Couples.CoupleConverged | src/objects/state.cpp:122-130 | a cluster of two nodes and two clients whose views have converged |
| Couples.CoupleMeshed | src/objects/session.cpp:114-144 | and whose links are a mesh |
| Couples.CoupleBroadcasts | src/objects/handlers/broadcast_handler.cpp:40-52 | in it a broadcast settles, reaches the other client once, and is reported to have one receiver |
| Receipts.BroadcastReceipt | src/objects/handlers/broadcast_handler.cpp:78-82 | the count in the answer a broadcasting client reads is the number of copies handed out across all nodes, and of those missed with dropped sessions; ok exactly if there is one |
| Receipts.PublishReceipt | src/objects/handlers/publish_handler.cpp:83-87 | in the answer to a publication it is at least that, and exactly that if and only if nobody was spared |
| Receipts.ReceiptInTurn | src/objects/response.cpp:81-96 | for nodes joined in turn the answer to a broadcast reports the copies with nothing assumed about tables or links |

## Left out

- Sockets, strands, TCP connection and retry, handshakes: a link is an open flag and the packets on it. `Clusters` delivers packets in any order, which includes the order of the links; `Replication` keeps the order.
- Clocks: timestamps and run times in responses, and the welcome message.
- Fresh ids: random transaction ids are parameters at the JSON layer and absent from typed messages; a new session or client draws an id not in use.
- JSON and uuid text parsing and floating-point numbers: a string is either plain or the text of a uuid in some form. Forms the lexical cast of the getters takes (dashed, in either case) are told from those only the validators take (braces, no dashes).
- Order of string keys in an index: any total order of strings serves, and a stand-in is used. No property depends on it.
- Memory order: atomics and mutexes are sequentially consistent steps.
- Listeners, option parsing, REPL, logging, version.
- Exceptions of getters (no `params` object, a number that is not a signed integer, ids in another form): the outcome is `Throws` or `Exception` with the tables unchanged; what the event loop does then is not part of this model.
- Answers on their way: `Kernels` says what is answered to each text; putting the answer in the sender's queue is not modelled there, and what the queue then does is in `Writers`.
- Session and client objects inside `States.State` are values in maps and rows, so two holders of one session object are not modelled there; `Ownership` follows lifetimes of session objects and `Seeds` their fields one write at a time.
- A delivery in `Nodes` and above is a call of `client::send`; whether that client's socket is still open is seen only in `Writers`.
- Clusters.StepWired: a connection opens both ends in one step and a handler is one step, because the finer interleavings are in `Seeds`, `Mesh` and `Replication`.
- Handlers.SessionAccepted: one call with nothing in between; its accesses interleave with those of other sessions as the steps Load, Store and Say of `Clusters`.
- Mesh.MeshComplete: the seed may lose sessions but links between other nodes stay, every node is seen under the same host by all others, and addresses are distinct, because a peer is recognised by host and ports alone.
- Joins.MeshedInTurn: no session is lost, and two nodes differ in host or session port.
- Replication.SnapshotConverges: client ids are not shared between nodes, because a leave erases a client whoever announced it and the first join wins; the link is the only one between its two nodes, the case of several being `Bundles.BundleConverges`.
- Bundles.BundleMirrorsIff: a link is lost at both nodes at once; messages still queued on it are never read, which the code also allows.
- Totals.ReportedCountIsReceivers: the table has fewer rows than a `std::size_t` of 64 bits can count.
- Views.ViewsConverge: nodes have no clients while they join, no session is dropped, and a client id is drawn by one node only; links deliver in order there.
- Totals.TotalConserved: local clients neither come nor go, since a client that comes or goes changes how many copies a packet on its way will make.
- Fairness of the network: nothing says that packets are eventually delivered, only that delivering them comes to an end and what holds then.
