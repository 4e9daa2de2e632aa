# A verified model of the sara messaging server

sara is a cluster of chat nodes in front of a shared key-value store. Clients hold sessions on nodes, send
packets to addresses, and acknowledge what they receive. A node delivers a packet to the session the
registry names for the recipient, hands it to another node, or stores it until the recipient logs in. Writes
to the store go through queues that many workers drain, so they may run out of order.

The project models five layers and proves what they promise together.

- **Addresses, keys and packets** (`Jids.dfy`, `Splitting.dfy`, `Packets.dfy`): parsing, printing, the key names built
  from addresses, and packets as texts and in memory.
- **Framing** (`Framing.dfy`, `Streams.dfy`, `TcpConn.dfy`): the incremental splitter is compared with one
  byte-by-byte scan of the whole stream, and the adaptive read buffer gets its real bounds.
- **Store and write-behind** (`Redis.dfy`, `WriteBehind.dfy`, `Database.dfy`): the four write commands with the
  exact set of pairs that do not commute, and the queue with any number of workers.
- **Objects** (`Services.dfy`, `SessionObjects.dfy`, `Nodes.dfy`, `Shutdowns.dfy`, `Groups.dfy`, `Rpc.dfy`): the
  session, the router queue, the node, the group expansion and the connection pool as classes and methods
  with loops, each proved against a specification. The functions the session methods are proved against are in
  `Sessions.dfy`; `SessionLaws.dfy` says branch by branch what they do to session, database, queue and client.
- **The cluster** (`Cluster*.dfy`): all nodes, queues, caches, sessions and the store as one state machine whose
  steps interleave freely. `ClusterInv` states the invariant, `ClusterSteps`, `ClusterWrites` and
  `ClusterEvents` prove that every step keeps it, and `ClusterFates`, `ClusterRuns`, `ClusterRouting`,
  `ClusterRegistry`, `ClusterNames`, `ClusterQuiet`, `ClusterIndex` and `ClusterLoss` derive the statements about whole
  runs. `ClusterLogin` says what a first packet does.
  `ClusterResend` leaves the runs and follows a packet that is sent again under its id. `ClusterPaths` has the
  continuations of a state. `ClusterDelivery` follows a packet from hand-over to hand-over and ends with the lists of
  steps that bring it to its acknowledgement, so that the guarantees are not met by doing nothing. `ClusterHandlers`
  shows that the handlers of the objects take only steps of this machine, so the statements about runs cover them.

How the system is represented:

- A handled packet, a round of a router worker, a message taken from a data channel and an executed command
  are each one atomic step. Queues in the cluster are bags, because the many workers of a node may finish in
  any order. `db.pend` is the bag of all commands queued or in a worker's hand.
- A JSON text is a value with envelope, payload and version. Queues, buffers, channels and the store hold packets by
  their text. That loses nothing: the handlers look at the envelope of a packet in memory and hand on its text, the
  text of every packet they make shows that envelope, and reading a text and writing it again gives the text
  (`Packets.ReadIsHandedOn`, `Groups.CopyAddress`). Where the parsed fields matter, in the group expansion, packets are
  in memory with both parts (`Packets.Loaded`). Keys are values; `Keys.RenderInjective` shows that
  their stored names never meet. Packet ids are assumed not to start with the session prefix nor to end with
  the index suffix, and no node id to begin with the session prefix once the index suffix is added: the index of a
  node named `session` would be taken for a session key (`Keys.SessionIsNoNodeId`).
- The password check, the group service, dialling, remote calls, generated ids and the listing order of a hash
  are parameters or arbitrary choices.
- In a run new packets carry ids that were not used before; the steps themselves, and the refinement of the
  handlers by them, need no such condition (`ClusterHandlers.BatchIsSteps`). A packet sent again under an id whose
  delete is still outstanding can be lost (`ClusterResend.SentAgainIsLost`), and its write survives every order of the
  outstanding commands exactly when there is no such delete (`ClusterResend.StoredAgainIff`). Login ids may repeat.
- A nil dereference in a handler is the flag `panicked`; packetHandler recovers from it and abandons the batch.

Where the code and its own words disagree, the model follows the code. The comment at
`saradb/database.go:267` says that closing drops all unprocessed messages; closing a channel in Go lets the
receivers finish what is buffered, and `WriteBehind.DrainIsComplete` states that. `max_buf_len` is named as a
maximum and is not one (`TcpConn.BoundsAreReached`).

Properties that one might expect and that are false of the code, with the exact conditions that are proved:

- A frame is lost when its end flag is the first byte of a read (`Streams.NothingLostIff`, `Streams.WireRoundTrip`).
- The members of a group get no payload: the packet the server has read holds its payload only in the raw text, and
  the copies are made from the parsed fields (`Groups.PayloadKeptIff`, `Groups.PayloadIsLost`).
- A packet to a recipient with a registry entry can be lost on its way; one to a recipient without an entry can not
  (`ClusterLoss.NeverLostIff`).
- A logged-in session can be missing from the registry when another session of the same address closes. A login is
  safe from that exactly when at that moment no delete of the entry is outstanding and no other session of the
  address is logged in (`ClusterQuiet.QuietIff`, `ClusterQuiet.EvictionHappens`).
- The cleaning at the start of a node can delete the entry of a live session of another node
  (`Database.CleaningSparesIff`, `Database.CleaningTakesAnother`).
- The group permission test accepts substrings of the joined list (`Groups.ContainsJoin`, `Groups.SubstringPasses`).

`dafny verify dfyconfig.toml` checks the project.

## Model

| member | source | states |
|---|---|---|
| `ClusterRuns.AtLeastOnce` | core/session.go:202-203 | in every run, a packet once buffered at a logged-in session of its recipient or handed to storage stays there (buffer, queued write, or index with no delete under way) until a session of the recipient acks it or acks a login answer that listed it, whatever the order of the database workers |
| `ClusterRuns.HeldIffLive` | core/session.go:539-545 | the three places of the guarantee are exactly the packets whose history says buffered, storing or stored |
| `ClusterRuns.RemovalJustified` | core/session.go:426-440 | a packet leaves its offline index only if earlier a session of the recipient acked a login answer, and that answer of the same address on the same node listed it |
| `ClusterRuns.CacheProvenance` | core/session.go:98-106 | every cached list of ids is the list of some earlier login answer with that login id on that node |
| `ClusterRuns.DeleteProvenance` | core/session.go:429-434 | a queued delete of an index field was queued by an ack of an answer listing it, by a session of that index's own address |
| `ClusterRuns.RunConserves` | core/session.go:191-226 | at each moment of each run a packet that entered, of whatever kind and address, is in exactly the place its history names and in no other: rejected, refused, dropped, spread, queued, published, buffered, storing, stored or acked |
| `ClusterRouting.RoutedConserves` | core/session.go:191-226 | after a logged-in sender routes a new non-group packet with addresses that parse, at every later moment of the run it is refused, dropped, queued, published, buffered, storing, stored or acked; refused only if a router queue was full when it was to enter, dropped only if a worker took it for a session that was missing or not logged in |
| `ClusterRouting.RoutedIsAt` | node/router.go:30-75 | read off the containers, such a packet is in exactly one of these places, the one its history names |
| `ClusterLoss.NeverLostIff` | core/session.go:204-222 | at the send: a packet of a logged-in sender, group packet or not, ends undelivered in no continuation (neither rejected, refused, dropped nor spread) if and only if it is for the sender's own address or the registry has no entry for the recipient |
| `ClusterLoss.NeverDroppedIff` | node/router.go:30-75 | for packets that are not for a group the same condition is exactly that of never being refused or dropped |
| `ClusterLoss.RunNeverLostIff` | core/session.go:204-222 | the same at every send of every run |
| `ClusterLoss.NamedIsLost` | node/router.go:55-73 | with an entry there is such a continuation: the named session closes before a worker takes the item, on its node or after one publish and arrival |
| `ClusterResend.SentAgainIsLost` | core/session.go:429-434 | every stored packet of a logged-in sender has a path of steps on which a login lists it, the ack queues its delete, it is sent again under its id, its write runs before the delete, and then no queue, channel, buffer, command or index holds it |
| `ClusterResend.StoredAgainIff` | saradb/database.go:191-223 | a packet stored again under its id ends in the index in whatever order the outstanding commands run, if and only if no delete of that id from that index is outstanding |
| `ClusterRouting.DrainedIsStored` | node/node.go:184-198 | when no session is logged in and no command is outstanding, every packet that was buffered or handed to storage and never acked is in its recipient's offline index |
| `ClusterRouting.FlushedAtClose` | core/session.go:443-454 | a step that queues the storing of a packet in a session's buffer leaves that session closed |
| `ClusterRouting.StoredOnce` | core/session.go:233-249 | the storing of a packet is queued by at most one step of a run, so no buffer is flushed twice |
| `ClusterRuns.EndsAreFinal` | node/router.go:56-73 | a packet that was rejected, refused, dropped, spread or acked stays so, and no packet disappears from the history |
| `ClusterRuns.RunInv` | core/session.go:191-249 | the invariant holds in every state of every run |
| `ClusterFates.ExactlyOnePlace` | node/router.go:30-75 | read off the containers, a packet is in one place only and once: one queue item, one data-channel message, one queued index write |
| `ClusterFates.RightRecipient` | node/router.go:55-66 | a packet a worker gives to a logged-in session has that session's address as recipient: it is buffered and sent there, nothing panics, nothing is routed or stored again |
| `ClusterFates.StepFate` | core/session.go:191-226 | every step of the cluster leaves a packet or moves it forward along the allowed moves and for the allowed reason: rejected for an address that does not parse, spread for a group packet, refused by a full queue, dropped for a missing or closed target, stored from a buffer by the close of that session, acked by an acknowledgement |
| `ClusterEvents.NextOk` | node/node.go:308-343 | every step of every node keeps the invariant of queues, buffers, pending commands, indexes, caches and registry |
| `ClusterInv.StartOk` | node/node.go:344-353 | a drained start, with any offline packets in the store, satisfies the invariant |
| `ClusterWrites.WriteOk` | saradb/database.go:83-90 | a database worker may execute any queued command next without breaking the invariant |
| `ClusterWrites.ExpireOk` | saradb/database.go:216-217 | the expiry of a stored copy changes nothing the protocol relies on |
| `ClusterNames.RegistrySafety` | core/session.go:391-401 | in every reachable state an entry names the session that logged in last under its address, and unless a delete of the key is queued or in hand that session is logged in |
| `ClusterNames.NamedIff` | core/session.go:143-148 | the latest session of an address is named exactly when no delete of the key ran since its login, and otherwise there is no entry |
| `ClusterNames.MissingBecause` | core/session.go:240-245 | if the latest session is logged in and not named, a delete ran after its login and was queued by the close of another session of the same address |
| `ClusterQuiet.QuietIff` | core/session.go:89-111 | the registry names a session that logs in, in every continuation without another login of the address and for as long as it is logged in, if and only if at the login no delete of the entry is outstanding and no other session of the address is logged in |
| `ClusterQuiet.RunQuietIff` | core/session.go:89-111 | the same for every login in every run |
| `ClusterQuiet.DisturbedIsEvicted` | core/session.go:233-246 | when the condition fails, a continuation without another login leaves the session logged in and without an entry |
| `ClusterQuiet.ShutEvicts` | core/session.go:240-245 | of two logged-in sessions of an address, closing one and running its delete removes the entry of the other |
| `ClusterQuiet.KickEvicts` | core/session.go:142-148 | the ordinary kick does so: the login, the worker that closes the previous session and the delete it queued leave the new session logged in and unnamed |
| `ClusterQuiet.EvictionHappens` | core/session.go:142-148 | from every start, two accepts, two logins of any address, the kill and the delete are a run that ends so |
| `ClusterRegistry.StepLifecycle` | core/session.go:233-249 | every step moves a session only from connected to logged in or closed and from logged in to closed, fixes the address at login, adds nothing to the buffer after close, and announces a session exactly when it closes |
| `ClusterRegistry.Lifecycle` | core/session.go:179-203 | over any stretch of a run a session stays known, never goes back to connected, keeps its address once it left connected, and once closed stays closed with nothing added to its buffer |
| `ClusterRegistry.AnnouncedIffCloses` | core/session.go:233-249 | over any stretch of a run a session is announced on the clean channel if and only if it closes in it |
| `ClusterRegistry.CleanedOnce` | core/session.go:239-239 | the step that announces a session leaves it closed, and no later step announces it again |
| `ClusterRegistry.TableKeepsOpen` | node/node.go:207-217 | a session leaves the session table only once it is closed |
| `ClusterIndex.IndexIsLive` | core/session.go:391-401 | in every run, a field of the index of a node that is not as at the start is the status of a session of that node id, under the key of its address, and that session is logged in or its delete from this very index is outstanding |
| `ClusterIndex.DrainedIndexIsLoggedIn` | core/session.go:240-245 | with no command outstanding, what a node index lists beyond the start belongs to logged-in sessions of that node |
| `ClusterLogin.LoginStepIff` | core/session.go:118-158 | a session is logged in by an open-session packet with an address that parses and the right password, and by nothing else |
| `ClusterLogin.RefusedStep` | core/session.go:121-155 | any other first packet closes the session with one answer, `fail_packet`, `fail_type` or `fail_token` as the case is, and leaves store and login history alone |
| `ClusterLogin.ListedOnce` | core/session.go:408-422 | in every state with the invariant a login answer lists every packet of the recipient's offline index exactly once and nothing else |
| `ClusterDelivery.OnlineIsQueued` | core/session.go:212-214 | a packet sent to an address with a registry entry is queued for the session the entry names, on that session's node, when the queue has room |
| `ClusterDelivery.OfflineIsStoring` | core/session.go:216-219 | without an entry its storing is queued |
| `ClusterDelivery.TakenIsDelivered` | node/router.go:56-66 | the item a worker takes for a logged-in session of its node ends in that session's buffer |
| `ClusterDelivery.TakenIsSentOn` | node/router.go:68-73 | an item for another node is published there, or stored when the call fails |
| `ClusterDelivery.CloseIsStoring` | core/session.go:443-454 | a packet unacknowledged at the close of its session is on its way to the store |
| `ClusterDelivery.WriteStores` | saradb/database.go:215-215 | executing the queued write puts the packet in its recipient's index |
| `ClusterDelivery.StoredIsListed` | core/session.go:408-422 | every login of the recipient lists what is in the index, whatever the listing order |
| `ClusterDelivery.ListedIsRemembered` | core/session.go:96-109 | the client gets the list, and the node remembers the listed ids under the login id |
| `ClusterDelivery.ListedIsAcked` | core/session.go:429-434 | acking the login acks the listed packet and queues its delete |
| `ClusterDelivery.StoreAndForward` | core/session.go:98-106 | stored, listed by the next login, acked, deleted: the steps are enabled in turn and end with the packet out of the index |
| `ClusterDelivery.HeldCanBeAcked` | core/session.go:426-440 | from every state with the invariant, a packet that is buffered, storing or stored has a list of enabled steps after which it is acked |
| `ClusterDelivery.SentIsHeld` | core/session.go:191-226 | a packet sent with room in the queue, to an address without an entry, with an entry on another node or with one that names a logged-in session of the sender's node, has a list of enabled steps after which it is buffered or handed to storage |
| `ClusterDelivery.SentCanBeAcked` | core/session.go:191-226 | and one after which it is acked |
| `ClusterDelivery.LoginKicksPrevious` | core/session.go:142-148 | a login of an address, even one that fails the password check, queues the kill of the session the registry names, or leaves the queue as it is when that is full |
| `ClusterDelivery.SignalCloses` | node/router.go:58-62 | the worker that takes the signal closes that session |
| `ClusterHandlers.BatchIsSteps` | core/session.go:253-306 | whatever batch a client sends, with any packet ids, packetHandler leaves session, database, cache, queue and clean channel as the cluster steps of its inputs in order do, those of each input as in `HandleIsSteps`, for all inputs unless one panics; when the ids are new, these are steps of a run |
| `ClusterHandlers.HandleIsSteps` | core/session.go:268-305 | which steps one packet is: Open for the first packet of a connection, Ack for an ack, Shut for garbage, nothing for a heartbeat, one Submit for a plain packet, and one Submit for each copy of a group packet in order, up to a panic |
| `ClusterPaths.RunGoesOn` | core/session.go:253-306 | steps with new ids, such as those a handler takes, extend any run to a run |
| `ClusterHandlers.ServeIsWork` | node/router.go:55-66 | what a worker does to the session an item names is the worker step of the cluster |
| `ClusterHandlers.DispatchIsNodeRoute` | node/node.go:332-343 | Node.routePacket on database and queue is the routing of the arrival steps |
| `WriteBehind.Conservation` | saradb/database.go:60-99 | in every run each command is executed exactly once or is still queued or in hand |
| `WriteBehind.SerialEquivalence` | saradb/database.go:55-100 | while no command overtakes a conflicting one, finishing what is outstanding gives at every moment the store of the synchronous calls in issue order |
| `WriteBehind.IndependentNeverOvertakes` | saradb/database.go:55-100 | commands that pairwise do not conflict meet that condition under every interleaving of any number of workers |
| `WriteBehind.DrainedIsSynchronous` | saradb/database.go:353-387 | started empty and drained, such commands leave the synchronous store |
| `WriteBehind.OneWorkerIsSynchronous` | saradb/database.go:55-68 | with one worker the drained store is the synchronous one, whatever the commands |
| `WriteBehind.OvertakingIsVisible` | saradb/database.go:102-123 | for every conflicting pair, two workers have a run that ends in another store than the synchronous calls |
| `WriteBehind.DrainTerminates` | saradb/database.go:60-68 | after close every schedule of the workers is finite, bounded by queue, hands and idle workers |
| `WriteBehind.DrainIsComplete` | saradb/database.go:264-279 | a closed pool that can do nothing more has let all workers go and executed every command ever issued exactly once |
| `WriteBehind.GoneOnlyWhenEmpty` | saradb/database.go:63-68 | no worker leaves while the channel is open or holds a command |
| `Redis.Commute` | saradb/database.go:85-89 | commands outside the conflict relation can be exchanged on every store |
| `Redis.ConflictIsVisible` | saradb/database.go:85-89 | commands in the conflict relation can not: some store tells the orders apart |
| `Database.SaraDatabase.constructor` | saradb/database.go:46-47 | both queues start empty |
| `Database.SaraDatabase.Execute` | saradb/database.go:353-360 | appends to the message queue |
| `Database.SaraDatabase.Execute4s` | saradb/database.go:379-387 | appends to the session queue |
| `Database.SaraDatabase.Read` | saradb/database.go:175-178 | reads the store, not the queues |
| `Database.SaraDatabase.Delete` | saradb/database.go:179-190 | queues one delete, on the session queue exactly for session keys |
| `Database.SaraDatabase.PutExWithIdx` | saradb/database.go:191-223 | session keys are written at once to index and key, and not at all if the index write fails; others are queued in that order and the store stays |
| `Database.SaraDatabase.PutNow` | saradb/database.go:193-208 | the direct writes: field and key, or neither where the index is a string |
| `Database.SaraDatabase.DeleteByIdxKey` | saradb/database.go:237-246 | queues the field delete and the key delete on one queue, in that order |
| `Database.SaraDatabase.GetByIdx` | saradb/database.go:253-262 | returns each value of the hash once, and an error exactly where the key holds a string |
| `Database.SaraDatabase.DeleteByIdx` | saradb/database.go:224-235 | queues one delete for each field and one for the index, or nothing on an error |
| `Database.SaraDatabase.WorkerDrain` | saradb/database.go:60-90 | a worker alone on a closed queue empties it and leaves the store of the commands in order |
| `Database.GhostSessionsGone` | node/node.go:344-353 | in whatever order the deletes of the start-up cleaning run, exactly the keys the node's index lists and the index are gone |
| `Database.CleaningSparesIff` | node/node.go:344-353 | the cleaning leaves the entries of sessions of other nodes as they are if and only if the node's index lists none of them |
| `Database.CleaningTakesAnother` | saradb/database.go:224-235 | whenever a node's index still lists an address that then logs in on another node, the next cleaning deletes the entry of that session, and the index of the other node goes on listing it |
| `Streams.StreamingRefinement` | core/conn_tcp.go:46-67 | for every list of reads the carried part is the unterminated tail of the stream and the packets are the non-empty frames of the one-shot scan minus exactly those whose flag is the first byte of a read |
| `Streams.NothingLostIff` | core/decoder.go:29-41 | all frames come out if and only if no frame is closed by the first byte of a read |
| `Streams.LoneFlagLosesFrame` | core/decoder.go:30-40 | the loss is real: one frame whose flag arrives alone |
| `Streams.ChunkingIrrelevant` | core/conn_tcp.go:46-67 | two ways of reading one stream give the same packets and part when in neither a frame is closed by the first byte of a read |
| `Streams.WireRoundTrip` | core/session.go:228-231 | messages written with SendMessage come back exactly, with nothing carried, if and only if no read starts with the flag |
| `Streams.ScanIsSplit` | core/decoder.go:25-28 | the byte-by-byte reference scan finds the closed non-empty segments of the split and leaves the open one |
| `Framing.DecodePacket` | core/decoder.go:11-54 | the loop over segments returns the emitted packets and the carried part of the specification |
| `TcpConn.TcpSessionConn.constructor` | core/conn_tcp.go:92-99 | empty part, first buffer length 1024 |
| `TcpConn.TcpSessionConn.ChangeBuffLen` | core/conn_tcp.go:100-118 | the next buffer length, proved against the function the bounds are about |
| `TcpConn.TcpSessionConn.TakeRead` | core/conn_tcp.go:58-66 | one round: the packets of the read go to the handler in order, the part and the length are the next ones |
| `TcpConn.TcpSessionConn.Recv` | core/conn_tcp.go:33-68 | over any reads that fit, the handler gets the packets of the stream, the part is the carried one and the length is that of the run |
| `TcpConn.Receive` | core/conn_tcp.go:46-67 | from a fresh connection the handler gets exactly what the peer sent if and only if no read starts with the flag, and the length ends in its bounds |
| `TcpConn.LengthBounds` | core/conn_tcp.go:100-118 | over every run from 1024 with reads that fit, the length stays in [3, 6825] |
| `TcpConn.NextLenIs` | core/conn_tcp.go:100-118 | the next length for every size of read: unchanged up to 2 bytes, a quarter more when full, a quarter less for a small read, a quarter more than the read when that would not fit again, each with its cap |
| `TcpConn.BoundsAreReached` | core/conn_tcp.go:111-116 | both ends are reached, so max_buf_len is no bound |
| `TcpConn.Absorbing` | core/conn_tcp.go:100-118 | a buffer that has shrunk to 3 never grows again |
| `TcpConn.FullReadsReachMax` | core/conn_tcp.go:104-113 | from any length of at least 4 enough full reads bring it to 4096, and it stays there however many follow |
| `TcpConn.FullReadsKeepMax` | core/conn_tcp.go:111-113 | at 4096 full reads change nothing |
| `Jids.ParsesIff` | core/types/packet.go:194-208 | exactly the strings with an at sign parse, into parts free of separators |
| `Jids.ParsesTo` | core/types/packet.go:194-208 | what an address parses to, with or without a resource, with a second slash and with a second at sign |
| `Jids.ParsePrint` | core/types/packet.go:183-189 | parsing a printed address gives it back |
| `Jids.ParsePrintParse` | core/types/packet.go:183-208 | for every string that parses, parsing its printed form gives the same address |
| `Jids.PrintParseIffCanonical` | core/types/packet.go:183-208 | printing a parsed string gives the string back exactly when it has one at sign and no empty or second resource |
| `Jids.BareInjective` | core/types/packet.go:171-173 | the bare form is injective in user and domain |
| `Jids.EqualWithoutResourceIff` | core/types/packet.go:155-162 | holds exactly when user and domain agree, and dereferences nil exactly on strings without an at sign |
| `Jids.ByUidDomain` | core/types/packet.go:190-193 | builds the address of separator-free parts |
| `Keys.RenderInjective` | core/types/packet.go:175-181 | session, offline, node and packet keys never meet and each kind is injective |
| `Keys.KeyNames` | core/types/packet.go:175-181 | the stored names of an address, its offline index, a node index and a packet |
| `Keys.ClassifyRender` | saradb/database.go:191-192 | every key is recovered from its stored name |
| `Keys.Is4sIffSessionKey` | saradb/database.go:308-313 | the prefix test picks out exactly the session keys among all keys, index keys included |
| `Keys.SessionIsNoNodeId` | saradb/database.go:308-313 | the index of a node named `session` passes the prefix test, which is why that name is excluded |
| `Services.OfflineCache.Get` | core/cache.go:22-30 | finds what was put last under the id, and fails otherwise |
| `Services.OfflineCache.Put` | core/cache.go:32-36 | replaces the list under the id |
| `Services.Router.Route` | node/router.go:30-47 | accepts at the end of the queue below the capacity and refuses without a trace at it |
| `Services.Router.Receive` | node/router.go:51-54 | takes the oldest item |
| `Services.CleanChannel.Send` | core/session.go:239-239 | appends the sid |
| `SessionObjects.Session.constructor` | core/session.go:490-502 | a connected session with an empty buffer |
| `SessionObjects.PutOffline` | core/session.go:539-545 | queues the index write and the copy of the packet |
| `SessionObjects.BuffToStore` | core/session.go:443-454 | in whatever order the map is walked, exactly the storing commands of every buffered packet are queued, once each |
| `SessionObjects.DeleteListed` | core/session.go:431-434 | queues exactly the deletes of the listed ids |
| `SessionObjects.Session.Answer` | core/session.go:173-177 | writes one message and changes nothing else |
| `SessionObjects.Session.DropStatus` | core/session.go:240-245 | a logged-in session queues the delete of its field in the index of its node id and of its registry entry, another nothing |
| `SessionObjects.Session.Leave` | core/session.go:239-245 | the first half of a close: announce, and unregister if logged in |
| `SessionObjects.Session.Finish` | core/session.go:246-248 | the second half: closed, with the storing of every buffered packet queued |
| `SessionObjects.Session.CloseSession` | core/session.go:233-249 | the new state of session, database and clean channel is that of the specification, and a second close changes nothing |
| `SessionObjects.Session.Refuse` | core/session.go:122-123 | a failure is answered and closes the session |
| `SessionObjects.Session.Kill` | core/session.go:179-183 | signals and closes |
| `SessionObjects.Session.Keep` | core/session.go:199-203 | a packet for this session is buffered under its id and sent |
| `SessionObjects.Session.Forward` | core/session.go:204-222 | a packet from this session is routed to the session the registry names, or stored |
| `SessionObjects.Session.RoutePacket` | core/session.go:191-226 | all branches, with the nil dereference on addresses that do not parse |
| `SessionObjects.Session.RoutePacketList` | core/session.go:185-189 | routes in order and stops at a panic |
| `SessionObjects.Session.KickPrevious` | core/session.go:143-148 | asks for the session the registry names to be killed |
| `SessionObjects.Session.Verify` | core/session.go:118-158 | succeeds exactly on an open-session packet with an address that parses and the right password; otherwise one answer with the reason, closed, and the store unchanged; the kill request comes before the password check |
| `SessionObjects.Session.FetchOfflinePacket` | core/session.go:408-422 | lists every packet as often as the offline index of the address holds it, and the id of each in the same order |
| `SessionObjects.Session.ListIndex` | core/session.go:412-419 | the loop over the listed values |
| `SessionObjects.Session.StoreSessionStatus` | core/session.go:391-401 | writes the registry entry and the index of the node at once |
| `SessionObjects.Session.LogIn` | core/session.go:91-109 | login lists the offline packets, caches their ids if there are any, stores the status and answers |
| `SessionObjects.Session.OpenSession` | core/session.go:89-111 | verify followed by login, or the failure |
| `SessionObjects.Session.ServerAck` | core/session.go:426-440 | an ack of a login answer queues the deletes of what it listed, another removes the packet from the buffer |
| `SessionObjects.Session.HandleOne` | core/session.go:268-305 | one packet of a batch by status and type, a group packet with the answer of the expansion of the packet as NewPacket reads it, its nil dereference included; an ack is carried out, and no session stays connected |
| `SessionObjects.Session.HandleMessage` | core/session.go:276-299 | a packet of a session past its login: ack, group packet or any other; after an ack its deletes are queued, or the packet has left the buffer |
| `SessionObjects.Session.HandleGroup` | core/session.go:284-291 | the packet is expanded as NewPacket reads it, without its payload; an expansion is acked and the texts of its copies are routed in order, a refusal is answered with a notice, a sender that does not parse panics |
| `SessionObjects.Session.PacketHandler` | core/session.go:253-306 | a read error closes; otherwise the packets are handled in order, all of them unless one panics, the panic of a group expansion included; after a batch that ends with an ack, the id is out of the buffer, or the deletes of everything the login answer listed are queued |
| `SessionObjects.Session.HandleAll` | core/session.go:267-305 | the loop over the packets of a read |
| `SessionLaws.BareIgnoresResource` | core/types/packet.go:171-181 | session and offline keys are built from user and domain; a resource plays no part |
| `SessionLaws.MatchesIff` | core/types/packet.go:155-162 | comparing bare addresses is the comparison of the source, with its nil dereference |
| `SessionLaws.LoginIff` | core/session.go:118-158 | openSession ends logged in exactly for an open-session packet with an address that parses and the right password |
| `SessionLaws.RefusedIs` | core/session.go:121-155 | otherwise the session is announced and closed, its client told the reason, and registry, cache and store are as before |
| `SessionLaws.LoggedInIs` | core/session.go:93-95 | a login changes address and status of the session and queues no command |
| `SessionLaws.RegistersIs` | core/session.go:391-401 | it writes sid, channel, address and node id under the session key and in the index of the node, or nothing where that index is no hash |
| `SessionLaws.AnswerLists` | core/session.go:96-109 | its one answer lists each packet as often as the offline index holds it, and the ids are remembered under the id of the login exactly if there are any |
| `SessionLaws.ListsWhatIsStored` | core/session.go:412-419 | the list counts, for every order in which the store lists the index |
| `SessionLaws.CloseQueues` | core/session.go:233-249 | how often a close queues a command: the two deletes of a logged-in session once, in the index of its node id and under its key, the two writes of each unacknowledged packet once, and nothing else |
| `SessionLaws.CloseIs` | core/session.go:233-247 | a close announces the session once, tells nobody, and a second one changes nothing |
| `SessionLaws.KillIs` | core/session.go:179-183 | the client gets the kill signal and the session is closed |
| `SessionLaws.RoutePanicsIff` | core/session.go:196-204 | routing panics exactly in a logged-in session on a recipient that does not parse, or a sender that does not parse when the packet is not for it |
| `SessionLaws.RouteKeepsIff` | core/session.go:199-203 | a packet is buffered and sent to the client exactly if it is for the logged-in session's address |
| `SessionLaws.RouteSendsIff` | core/session.go:204-214 | it is queued, below the capacity, exactly if it is the session's own, for another, and the registry names a session: for that sid and channel |
| `SessionLaws.RouteStoresIff` | core/session.go:216-219 | how often routing queues a command: the two writes of the packet once, exactly if it is the session's own, for another, and nobody is named |
| `SessionLaws.ListIsRouted` | core/session.go:185-189 | a list is routed packet by packet in order, all of it unless a packet panics, which is then the last |
| `SessionLaws.ListNeverPanics` | core/session.go:185-189 | a list with addresses that parse is routed to its end |
| `SessionLaws.AckQueues` | core/session.go:429-434 | how often an ack of a login answer queues a command: both deletes of an id as often as the answer listed it, in the index of this session's address, and nothing else |
| `SessionLaws.AckRemoves` | core/session.go:435-436 | any other ack takes exactly that packet out of the buffer |
| `SessionLaws.AckIsHandled` | core/session.go:281-283 | packetHandler carries an ack out and does nothing else |
| `SessionLaws.AckPanics` | core/session.go:427-428 | an ack in a session without an address panics |
| `SessionLaws.BeatAndGarbage` | core/session.go:273-304 | a heartbeat is answered while logged in, what is no packet is answered and closes |
| `SessionLaws.PlainIsHandled` | core/session.go:292-299 | a packet that asks for it is acknowledged before it is routed |
| `SessionLaws.GroupIsHandled` | core/session.go:284-291 | the acknowledgement comes before the copies, a refusal is one notice, a nil dereference panics without an answer |
| `SessionLaws.BatchIsHandled` | core/session.go:267-306 | a batch is handled input by input in order, all of it unless one panics, which is then the last |
| `Nodes.Node.constructor` | node/node.go:356-358 | an empty table, queue and clean channel |
| `Nodes.Node.RegisterSession` | node/sessionmap.go:12-19 | enters the session under its sid unless that is empty |
| `Nodes.Node.Clean` | node/node.go:207-217 | removes exactly the announced sessions, all of them closed |
| `Nodes.Node.RoutePacket` | node/node.go:332-343 | routes to the named session, stores otherwise, ignores a recipient that does not parse |
| `Nodes.Node.DataChannelHandler` | node/node.go:308-330 | routes the packet, or the texts of the expansion of the packet as NewPacket reads it, in order, and crashes exactly on a group packet whose sender does not parse |
| `Nodes.Node.RouteAll` | node/node.go:319-322 | the loop over an expansion: every packet is routed, in order |
| `Nodes.AllAreDispatched` | node/node.go:319-322 | every packet of an expansion is dispatched, in order |
| `Nodes.DispatchIs` | node/node.go:332-343 | what becomes of one: ignored, queued for the named session below the capacity, or its two writes queued once |
| `Nodes.Node.Serve` | node/router.go:57-67 | a kill signal kills the session, a packet is routed in it |
| `Nodes.Node.ServedIs` | node/router.go:58-66 | signal 3 kills and tells the client, another signal is ignored, a packet without one is routed in the session |
| `Nodes.Node.WorkHere` | node/router.go:56-67 | an item for this node changes only the session it names, and nothing if that is gone |
| `Nodes.Node.WorkAway` | node/router.go:68-73 | an item for another node is published, or stored when the call fails, or crashes without a packet |
| `Nodes.Node.Process` | node/router.go:55-74 | the item a worker has taken is served here or sent on, and no other session changes |
| `Nodes.Node.Work` | node/router.go:49-75 | one round: the oldest item is taken and served here, if its channel is empty or this node's, or sent on, and no session but the one it names changes |
| `Nodes.Node.SessionList` | node/node.go:187-191 | lists every session of the table once |
| `Nodes.Node.Shutdown` | node/node.go:184-194 | every session of the table ends closed, and the database has received exactly the registry deletes and the unacknowledged packets of those that were open |
| `Nodes.AnnouncedAre` | node/node.go:192-194 | exactly the sessions of the table that were open are announced, once each |
| `Nodes.Node.CloseAll` | node/node.go:192-194 | the closing loop, with the totals of what is queued and announced |
| `Nodes.Node.CloseOne` | core/session.go:233-249 | closing one session of the table keeps the node valid and queues what that session owes |
| `Shutdowns.ShutdownStores` | node/node.go:192-198 | once the queues are drained, in any order and together with earlier commands that spare its index field, every unacknowledged packet is in its recipient's offline index with its content |
| `Shutdowns.ShutdownCopies` | core/session.go:443-454 | and its copy is under its id |
| `Shutdowns.ShutdownUnregisters` | node/node.go:192-198 | and no session that was logged in is left in the registry, whatever earlier commands but writes of its key were queued, nor in the index of its node, unless an earlier command writes that field |
| `Shutdowns.AckedIsDeleted` | core/session.go:429-434 | after an ack of a login answer, once the commands have run in any order, every listed id is gone from the index and as a copy, unless an earlier command writes it |
| `Groups.GenGroupPackets` | core/session.go:512-537 | one copy per listed user other than the sender, in order, with the k-th generated id |
| `Groups.GenerateGroupPackets` | core/session.go:546-577 | exactly when it crashes (sender without an at sign), finds no group (no cached string and fewer than two listed), refuses (the sender's name is no part of the member string) and expands; and what is put in the cache |
| `Groups.CacheIsTransparent` | core/session.go:560-571 | expanding the cached string gives exactly the listed users, for every list of names without a comma |
| `Groups.OthersAre` | core/session.go:517-518 | each user gets as many copies as listings, the sender none |
| `Groups.OthersInOrder` | core/session.go:517-518 | the copies follow the order of the list |
| `Groups.CopyAddress` | core/session.go:519-533 | the text of a copy parses to the user in the sender's domain and keeps sender, group, and the parsed payload and version of the packet it was made from |
| `Groups.PayloadKeptIff` | core/session.go:529-532 | no copy of a packet that was read carries a payload or a version; the copies have the payload of the sender's text if and only if that has none or there is nobody to copy it to, and likewise the version |
| `Groups.PayloadIsLost` | core/types/packet.go:92-105 | a greeting to a group of two reaches the other member as an envelope without the greeting |
| `Packets.ReadIsHandedOn` | core/types/packet.go:67-77 | a packet that was read is written as the text it came from, and reads the same again |
| `Groups.MembersPass` | core/session.go:553-553 | every listed member passes the permission test |
| `Groups.ContainsJoin` | core/session.go:553-553 | any string t passes exactly when a listed name is a + t + b for some a and b, or t runs from the end of a listed name over the comma into what follows |
| `Groups.ContainsIff` | core/session.go:553-553 | the test finds exactly the parts of the member string |
| `Groups.StrangerIsRefused` | core/session.go:553-557 | a sender whose name has no comma and is a part of no listed name is refused, from the cache and from the service |
| `Groups.ZedIsRefused` | core/session.go:556-557 | zed against ann and bob |
| `Groups.CrossingHasComma` | core/session.go:553-553 | only a string with a comma can lie across one, so a plain name passes exactly when a listed name contains it |
| `Groups.SubstringPasses` | core/session.go:553-553 | two users who are not listed and pass: a part of a listed name, and a string across two of them |
| `Rpc.Client.constructor` | sararpc/client.go:18-29 | an open client of its address |
| `Rpc.RpcClient.constructor` | sararpc/client.go:80-85 | no pools, no client handed out |
| `Rpc.RpcClient.GetClient` | sararpc/client.go:48-64 | hands out the oldest pooled client of the address or a new one, never one another caller has |
| `Rpc.RpcClient.PutClient` | sararpc/client.go:31-46 | pools the client under its address below the bound and closes it otherwise; no client is pooled twice or while handed out |
| `Rpc.RpcClient.Call` | sararpc/client.go:66-78 | a successful call puts the client at the end of its pool, the dialled one when the pool was empty; a failed call drops it unpooled; other addresses keep their pools |

## Left out

- Sockets, TLS, websocket, HTTP and Thrift calls, configuration, counters and service endpoints: foreign I/O or plumbing.
- JSON encoding: a text is a value with envelope, payload and version; entity, delay, time stamps and fields that no struct names are not part of it.
- What is handed over after `db.Close`: runs stop before it. A flush that meets the closed channel panics inside `PutExWithIdx`, the recover there swallows it (saradb/database.go:210-214), and the packet is gone without a trace.
- The restart of a node while others run: the cluster starts from a drained shutdown, and the cleaning of a restarting node is stated on the store.
- Clocks and read deadlines; of time to live only that a stored copy may vanish at any moment.
- A kill signal for a session on another node dereferences a nil packet in the worker that takes it (node/router.go:69), and as nothing recovers there the process of that node ends: the cluster has no step for it, so its statements are about runs in which signals stay on their node. `Nodes.Node.Work` reports the crash.
- Group packets on another node are expanded a second time (node/node.go:316-322): the first packet ends as spread and the copies enter as new packets, so one copy per member is stated for one expansion only.
- The hand-off of the kill signal between session-queue workers at shutdown (saradb/database.go:69-82): it sends on the closed message queue; the write-behind machine models the close of a channel, not that signal.
- The capacity of the database queues and of the clean channel: a full channel blocks the caller, which here only delays a step.
- The group cache entry is a parameter and a result of the expansion, not part of the store.
- `DataChannel` publish and subscribe (sararpc/channel.go) are the published list of a node and the data-channel bag of the cluster.
- Data races on the session table and the client pool: calls are atomic.
- The `del` method of the offline cache: nothing calls it.
- Nodes.Node.RegisterSession: asks that a session whose sid is in the clean channel is closed, which `CloseSession` ensures for every session that announces itself.
